// backend/utils/protocol.py over backend/adapter.py: length-prefixed frames read from a queue of
// arbitrarily split chunks, in which an empty chunk is the end-of-file sentinel.

module Framing {
  import opened Bytes

  const MAX_MSG_SIZE: nat := 16 * 1024 * 1024

  // ------------------------------------------------------------------
  // Specification: what reading does to a buffer and the queue behind it
  // ------------------------------------------------------------------

  // A read returns data, or waits for ever on an empty queue.
  datatype Received = Data(data: bytes) | Blocked

  datatype Exact = Full(data: bytes) | ConnectionError | Stuck

  datatype Incoming = Message(payload: bytes) | Disconnected | Oversized | Pending

  // The reading side of an adapter.
  datatype Side = Side(buffer: bytes, queue: seq<bytes>)

  // Every byte not yet read; sentinels contribute nothing.
  function Stream(s: Side): bytes
  {
    s.buffer + Concat(s.queue)
  }

  function RecvSpec(s: Side, n: nat): (r: (Received, Side))
    ensures r.0.Data? ==> |r.0.data| <= n
    decreases |s.queue|
  {
    if |s.buffer| >= n then (Data(s.buffer[..n]), Side(s.buffer[n..], s.queue))
    else if s.queue == [] then (Blocked, s)
    else if s.queue[0] == [] then (Data(s.buffer), Side([], s.queue[1..]))
    else RecvSpec(Side(s.buffer + s.queue[0], s.queue[1..]), n)
  }

  function ExactSpec(s: Side, n: nat): (Exact, Side)
    decreases n
  {
    if n == 0 then (Full([]), s)
    else
      var (r, t) := RecvSpec(s, n);
      match r
      case Blocked => (Stuck, t)
      case Data(d) =>
        if d == [] then (ConnectionError, t)
        else
          var (rest, u) := ExactSpec(t, n - |d|);
          (Prepend(d, rest), u)
  }

  function Prepend(d: bytes, r: Exact): Exact
  {
    if r.Full? then Full(d + r.data) else r
  }

  lemma PrependTwice(a: bytes, b: bytes, r: Exact)
    ensures Prepend(a, Prepend(b, r)) == Prepend(a + b, r)
    ensures Prepend([], r) == r
  {
    if r.Full? {
      assert a + (b + r.data) == (a + b) + r.data;
      assert [] + r.data == r.data;
    }
  }

  // Reading one piece, then the rest.
  lemma ExactPiece(s: Side, n: nat, done: bytes)
    requires n > 0 && RecvSpec(s, n).0.Data? && RecvSpec(s, n).0.data != []
    ensures var (r, t) := RecvSpec(s, n);
            var (rest, u) := ExactSpec(t, n - |r.data|);
            ExactSpec(s, n) == (Prepend(r.data, rest), u)
            && Prepend(done, ExactSpec(s, n).0) == Prepend(done + r.data, rest)
  {
    var (r, t) := RecvSpec(s, n);
    PrependTwice(done, r.data, ExactSpec(t, n - |r.data|).0);
  }

  function Be32(n: nat): (b: bytes)
    requires n < 0x1_0000_0000
    ensures |b| == 4
  {
    [n / 0x100_0000, n / 0x1_0000 % 0x100, n / 0x100 % 0x100, n % 0x100]
  }

  function FromBe32(b: bytes): nat
    requires |b| == 4
  {
    (b[0] as int) * 0x100_0000 + (b[1] as int) * 0x1_0000 + (b[2] as int) * 0x100 + b[3] as int
  }

  // The length a header announces: four bytes, the most significant first.
  function HeaderOf(b: bytes): nat
    requires |b| >= 4
  {
    (b[0] as int) * 16777216 + (b[1] as int) * 65536 + (b[2] as int) * 256 + b[3] as int
  }

  function MsgSpec(s: Side): (Incoming, Side)
  {
    AfterHeader(ExactSpec(s, 4))
  }

  // What recv_msg does once the header has been read, and once the body has.
  function AfterHeader(head: (Exact, Side)): (Incoming, Side)
  {
    match head.0
    case ConnectionError => (Disconnected, head.1)
    case Stuck => (Pending, head.1)
    case Full(prefix) =>
      if |prefix| != 4 then (Pending, head.1)
      else if FromBe32(prefix) > MAX_MSG_SIZE then (Oversized, head.1)
      else AfterBody(ExactSpec(head.1, FromBe32(prefix)))
  }

  function AfterBody(body: (Exact, Side)): (Incoming, Side)
  {
    match body.0
    case ConnectionError => (Disconnected, body.1)
    case Stuck => (Pending, body.1)
    case Full(payload) => (Message(payload), body.1)
  }

  // One frame, and a list of frames, on the wire.
  function Frame(payload: bytes): bytes
    requires |payload| <= MAX_MSG_SIZE
  {
    Be32(|payload|) + payload
  }

  predicate Fitting(payloads: seq<bytes>)
  {
    forall k :: 0 <= k < |payloads| ==> |payloads[k]| <= MAX_MSG_SIZE
  }

  function Frames(payloads: seq<bytes>): bytes
    requires Fitting(payloads)
  {
    if payloads == [] then [] else Frame(payloads[0]) + Frames(payloads[1..])
  }

  // ------------------------------------------------------------------
  // The code
  // ------------------------------------------------------------------

  class WebSocketAdapter {
    var recvQueue: seq<bytes>
    var sendQueue: seq<bytes>
    var buffer: bytes

    constructor ()
      ensures recvQueue == [] && sendQueue == [] && buffer == []
    {
      recvQueue, sendQueue, buffer := [], [], [];
    }

    ghost function View(): Side
      reads this
    {
      Side(buffer, recvQueue)
    }

    method SendAll(data: bytes)
      modifies this`sendQueue
      ensures sendQueue == old(sendQueue) + [data]
    {
      sendQueue := sendQueue + [data];
    }

    // Reads up to n bytes; a sentinel ends the read early with whatever is buffered.
    method Recv(n: nat) returns (r: Received)
      modifies this`recvQueue, this`buffer
      ensures (r, View()) == RecvSpec(old(View()), n)
    {
      while |buffer| < n
        invariant RecvSpec(View(), n) == RecvSpec(old(View()), n)
        decreases |recvQueue|
      {
        if recvQueue == [] {
          return Blocked;
        }
        var chunk := recvQueue[0];
        recvQueue := recvQueue[1..];
        if chunk == [] {
          r := Data(buffer);
          buffer := [];
          return;
        }
        buffer := buffer + chunk;
      }
      r := Data(buffer[..n]);
      buffer := buffer[n..];
    }

    // A sentinel goes each way. No read waits on a closed adapter: one that has its data takes it as
    // before, and any other gets everything that had arrived; what was sent stays as it was.
    method Close()
      modifies this`recvQueue, this`sendQueue
      ensures View() == Side(old(buffer), old(recvQueue) + [[]])
      ensures forall n: nat ::
                RecvSpec(View(), n).0 == match RecvSpec(old(View()), n).0
                                         case Data(d) => Data(d)
                                         case Blocked => Data(Stream(old(View())))
      ensures sendQueue == old(sendQueue) + [[]] && Concat(sendQueue) == Concat(old(sendQueue))
    {
      forall n: nat
        ensures RecvSpec(Side(buffer, recvQueue + [[]]), n).0
                == match RecvSpec(View(), n).0 case Data(d) => Data(d) case Blocked => Data(Stream(View()))
      {
        RecvThenArrivals(View(), [[]], n);
        if RecvSpec(View(), n).0.Blocked? {
          WaitingHoldsAll(View(), n);
        }
      }
      ConcatAppend(sendQueue, [[]]);
      recvQueue := recvQueue + [[]];
      sendQueue := sendQueue + [[]];
    }
  }

  method RecvExact(conn: WebSocketAdapter, n: nat) returns (r: Exact)
    modifies conn`recvQueue, conn`buffer
    ensures (r, conn.View()) == ExactSpec(old(conn.View()), n)
  {
    var chunks: seq<bytes> := [];
    var bytesRemaining: nat := n;
    PrependTwice([], [], ExactSpec(conn.View(), n).0);
    while bytesRemaining > 0
      invariant bytesRemaining <= n
      invariant ExactSpec(old(conn.View()), n).0 == Prepend(Concat(chunks), ExactSpec(conn.View(), bytesRemaining).0)
      invariant ExactSpec(old(conn.View()), n).1 == ExactSpec(conn.View(), bytesRemaining).1
      decreases bytesRemaining
    {
      ghost var before := conn.View();
      var received := conn.Recv(bytesRemaining);
      if received == Blocked {
        return Stuck;
      }
      var chunk := received.data;
      if chunk == [] {
        return ConnectionError;
      }
      ExactPiece(before, bytesRemaining, Concat(chunks));
      ConcatAppend(chunks, [chunk]);
      assert Concat([chunk]) == chunk;
      chunks := chunks + [chunk];
      bytesRemaining := bytesRemaining - |chunk|;
    }
    r := Full(Concat(chunks));
    assert Concat(chunks) + [] == Concat(chunks);
  }

  // False stands for the ValueError on a message of more than 16 MiB. Any other is queued as one chunk:
  // its length in four bytes, the most significant first, and the message.
  method SendMsg(conn: WebSocketAdapter, data: bytes) returns (ok: bool)
    modifies conn`sendQueue
    ensures ok <==> |data| <= 16777216
    ensures ok ==> |conn.sendQueue| == |old(conn.sendQueue)| + 1
                   && var q := conn.sendQueue[|old(conn.sendQueue)|];
                      |q| == 4 + |data| && HeaderOf(q) == |data| && q[4..] == data
    ensures conn.sendQueue == if |data| <= MAX_MSG_SIZE then old(conn.sendQueue) + [Frame(data)] else old(conn.sendQueue)
  {
    if |data| > MAX_MSG_SIZE {
      return false;
    }
    FrameLayout(data);
    var lengthPrefix := Be32(|data|);
    conn.SendAll(lengthPrefix + data);
    ok := true;
  }

  // A message is exactly the bytes its header announces, up to 16 MiB; only a larger header is refused.
  method RecvMsg(conn: WebSocketAdapter) returns (r: Incoming)
    modifies conn`recvQueue, conn`buffer
    ensures (r, conn.View()) == MsgSpec(old(conn.View()))
    ensures var s := Stream(old(conn.View()));
            && (r.Message? ==>
                  && |s| >= 4 && HeaderOf(s) <= 16777216 && |s| >= 4 + HeaderOf(s)
                  && r.payload == s[4..4 + HeaderOf(s)] && Stream(conn.View()) == s[4 + HeaderOf(s)..])
            && (r.Oversized? ==> |s| >= 4 && HeaderOf(s) > 16777216 && Stream(conn.View()) == s[4..])
  {
    MessageIsAnnounced(conn.View());
    ExactReadsStream(conn.View(), 4);
    var head := RecvExact(conn, 4);
    match head {
      case ConnectionError => return Disconnected;
      case Stuck => return Pending;
      case Full(prefix) =>
        var length := FromBe32(prefix);
        if length > MAX_MSG_SIZE {
          return Oversized;
        }
        var body := RecvExact(conn, length);
        match body {
          case ConnectionError => r := Disconnected;
          case Stuck => r := Pending;
          case Full(payload) => r := Message(payload);
        }
    }
  }

  // ------------------------------------------------------------------
  // Reading the stream
  // ------------------------------------------------------------------

  lemma {:induction false} RecvReadsStream(s: Side, n: nat)
    ensures var (r, t) := RecvSpec(s, n);
            match r
            case Data(d) => Stream(s) == d + Stream(t)
            case Blocked => Stream(t) == Stream(s)
    decreases |s.queue|
  {
    if |s.buffer| >= n {
      assert s.buffer[..n] + (s.buffer[n..] + Concat(s.queue)) == Stream(s);
    } else if s.queue != [] {
      assert Concat(s.queue) == s.queue[0] + Concat(s.queue[1..]);
      if s.queue[0] == [] {
        assert s.buffer + ([] + Concat(s.queue[1..])) == Stream(s);
      } else {
        var t := Side(s.buffer + s.queue[0], s.queue[1..]);
        assert Stream(t) == Stream(s);
        RecvReadsStream(t, n);
      }
    }
  }

  // What _recv_exact returns is exactly the next n bytes of the stream, and what stays behind is
  // exactly the rest, wherever the chunk boundaries and sentinels lie.
  lemma {:induction false} ExactReadsStream(s: Side, n: nat)
    ensures var (r, t) := ExactSpec(s, n);
            r.Full? ==> |r.data| == n && Stream(s) == r.data + Stream(t)
    decreases n
  {
    if n > 0 {
      var (r, t) := RecvSpec(s, n);
      RecvReadsStream(s, n);
      if r.Data? && r.data != [] {
        ExactReadsStream(t, n - |r.data|);
        ExactPiece(s, n, []);
        var (rest, u) := ExactSpec(t, n - |r.data|);
        if rest.Full? {
          StreamPieces(r.data, rest.data, Stream(u));
        }
      }
    }
  }

  lemma StreamPieces(a: bytes, b: bytes, c: bytes)
    ensures a + (b + c) == (a + b) + c
  {
  }

  // The i-th queue entry is a sentinel that a reader needing n bytes meets with nothing buffered:
  // right at the start, or straight after another sentinel.
  predicate Stalls(s: Side, n: nat, i: nat)
    requires i < |s.queue|
  {
    && s.queue[i] == []
    && (if i == 0 then s.buffer == [] else s.queue[i - 1] == [])
    && |s.buffer| + |Concat(s.queue[..i])| < n
  }

  predicate Stalled(s: Side, n: nat)
  {
    exists i :: 0 <= i < |s.queue| && Stalls(s, n, i)
  }

  // Dropping the first queue entry shifts every later position.
  lemma StallShift(s: Side, t: Side, n: nat, m: nat, i: nat)
    requires s.queue != [] && t.queue == s.queue[1..] && i < |t.queue|
    requires |s.buffer| + |s.queue[0]| + m == |t.buffer| + n
    requires t.buffer == [] <==> s.queue[0] == []
    ensures Stalls(t, m, i) <==> Stalls(s, n, i + 1)
  {
    assert s.queue[..i + 1] == [s.queue[0]] + t.queue[..i];
    ConcatAppend([s.queue[0]], t.queue[..i]);
    assert Concat([s.queue[0]]) == s.queue[0];
  }

  lemma StalledTail(s: Side, t: Side, n: nat, m: nat)
    requires s.queue != [] && t.queue == s.queue[1..]
    requires |s.buffer| + |s.queue[0]| + m == |t.buffer| + n
    requires t.buffer == [] <==> s.queue[0] == []
    requires !Stalls(s, n, 0)
    ensures Stalled(t, m) <==> Stalled(s, n)
  {
    if Stalled(t, m) {
      var i :| 0 <= i < |t.queue| && Stalls(t, m, i);
      StallShift(s, t, n, m, i);
    }
    if Stalled(s, n) {
      var i :| 0 <= i < |s.queue| && Stalls(s, n, i);
      StallShift(s, t, n, m, i - 1);
    }
  }

  // Reading n bytes fails exactly when such a sentinel lies before the n-th byte; otherwise it
  // succeeds exactly when n bytes are there, and waits when they are not.
  lemma {:induction false} ExactOutcome(s: Side, n: nat)
    ensures ExactSpec(s, n).0.ConnectionError? <==> Stalled(s, n)
    ensures ExactSpec(s, n).0.Full? <==> !Stalled(s, n) && |Stream(s)| >= n
    decreases |s.queue|, n
  {
    if n == 0 {
    } else if |s.buffer| >= n {
      assert ExactSpec(Side(s.buffer[n..], s.queue), 0).0 == Full([]);
    } else if s.queue == [] {
    } else if s.queue[0] == [] {
      if s.buffer == [] {
        assert s.queue[..0] == [];
        assert Stalls(s, n, 0);
      } else {
        var t := Side([], s.queue[1..]);
        ExactOutcome(t, n - |s.buffer|);
        StalledTail(s, t, n, n - |s.buffer|);
        assert |Stream(s)| == |s.buffer| + |Stream(t)|;
      }
    } else {
      var t := Side(s.buffer + s.queue[0], s.queue[1..]);
      assert RecvSpec(s, n) == RecvSpec(t, n);
      assert ExactSpec(s, n) == ExactSpec(t, n);
      ExactOutcome(t, n);
      StalledTail(s, t, n, n);
      assert |Stream(s)| == |Stream(t)|;
    }
  }

  // A read that completes does not depend on what is queued later, and one that waits goes on with
  // whatever arrives as if it had been there from the start.
  lemma {:induction false} RecvThenArrivals(s: Side, more: seq<bytes>, n: nat)
    ensures var (r, t) := RecvSpec(s, n);
            RecvSpec(Side(s.buffer, s.queue + more), n)
            == if r.Data? then (r, Side(t.buffer, t.queue + more)) else RecvSpec(Side(t.buffer, more), n)
    decreases |s.queue|
  {
    if |s.buffer| < n {
      if s.queue == [] {
        assert s.queue + more == more;
      } else {
        assert (s.queue + more)[0] == s.queue[0] && (s.queue + more)[1..] == s.queue[1..] + more;
        if s.queue[0] != [] {
          RecvThenArrivals(Side(s.buffer + s.queue[0], s.queue[1..]), more, n);
        }
      }
    }
  }

  // One recv, spelt out. It gathers the buffer and the chunks up to the first sentinel it needs to look
  // at: if these hold n bytes it returns the first n of them, at a sentinel it returns what it has and
  // leaves the buffer empty, and at the end of the queue it waits.
  lemma {:induction false} RecvOutcome(s: Side, n: nat, i: nat)
    requires i <= |s.queue| && Clean(s.queue[..i])
    ensures var got := s.buffer + Concat(s.queue[..i]);
            && (|got| >= n ==> RecvSpec(s, n).0 == Data(got[..n]))
            && (|got| < n && i == |s.queue| ==> RecvSpec(s, n) == (Blocked, Side(got, [])))
            && (|got| < n && i < |s.queue| && s.queue[i] == [] ==> RecvSpec(s, n) == (Data(got), Side([], s.queue[i + 1..])))
    decreases i
  {
    var got := s.buffer + Concat(s.queue[..i]);
    if i == 0 {
      assert got == s.buffer;
    } else if |s.buffer| < n {
      var t := Side(s.buffer + s.queue[0], s.queue[1..]);
      assert s.queue[..i][1..] == t.queue[..i - 1];
      CleanTail(s.queue[..i]);
      assert s.queue[..i][0] == s.queue[0];
      RecvOutcome(t, n, i - 1);
      assert t.buffer + Concat(t.queue[..i - 1]) == got;
    } else {
      assert got[..n] == s.buffer[..n];
    }
  }

  lemma CleanTail(chunks: seq<bytes>)
    requires Clean(chunks) && chunks != []
    ensures Clean(chunks[1..])
  {
  }

  // A read that waits has taken everything into the buffer.
  lemma {:induction false} WaitingHoldsAll(s: Side, n: nat)
    requires RecvSpec(s, n).0.Blocked?
    ensures RecvSpec(s, n).1 == Side(Stream(s), []) && |Stream(s)| < n
    decreases |s.queue|
  {
    if s.queue == [] {
      assert s.buffer + [] == s.buffer;
    } else {
      var t := Side(s.buffer + s.queue[0], s.queue[1..]);
      WaitingHoldsAll(t, n);
      assert Stream(t) == Stream(s);
    }
  }

  // The pieces a waiting _recv_exact has collected so far.
  function Held(s: Side, n: nat): bytes
    decreases n
  {
    if n == 0 then []
    else
      var (r, t) := RecvSpec(s, n);
      if r.Blocked? || r.data == [] then [] else r.data + Held(t, n - |r.data|)
  }

  // A waiting exact read holds its pieces and has everything else in the buffer.
  lemma {:induction false} StuckHoldsAll(s: Side, n: nat)
    requires ExactSpec(s, n).0.Stuck?
    ensures |Held(s, n)| < n && ExactSpec(s, n).1.queue == []
    ensures Held(s, n) + ExactSpec(s, n).1.buffer == Stream(s)
    decreases n
  {
    var (r, t) := RecvSpec(s, n);
    RecvReadsStream(s, n);
    if r.Blocked? {
      WaitingHoldsAll(s, n);
    } else {
      StuckHoldsAll(t, n - |r.data|);
      StreamPieces(r.data, Held(t, n - |r.data|), ExactSpec(t, n - |r.data|).1.buffer);
    }
  }

  // An exact read that ended is unaffected by what is queued later; one that waits goes on reading
  // the bytes still missing from whatever arrives, in front of which it puts the pieces it holds.
  lemma {:induction false} ExactThenArrivals(s: Side, more: seq<bytes>, n: nat)
    ensures var (r, t) := ExactSpec(s, n);
            var held := Held(s, n);
            if r.Stuck? then
              |held| < n
              && var (rest, u) := ExactSpec(Side(t.buffer, more), n - |held|);
                 ExactSpec(Side(s.buffer, s.queue + more), n) == (Prepend(held, rest), u)
            else ExactSpec(Side(s.buffer, s.queue + more), n) == (r, Side(t.buffer, t.queue + more))
    decreases n
  {
    if n > 0 {
      RecvThenArrivals(s, more, n);
      var (r, t) := RecvSpec(s, n);
      if r.Blocked? {
        PrependTwice([], [], ExactSpec(Side(t.buffer, more), n).0);
      } else if r.data != [] {
        ExactThenArrivals(t, more, n - |r.data|);
        var (e, u) := ExactSpec(t, n - |r.data|);
        if e.Stuck? {
          var held := Held(t, n - |r.data|);
          PrependTwice(r.data, held, ExactSpec(Side(u.buffer, more), n - |r.data| - |held|).0);
        }
      }
    }
  }

  // Where a waiting recv_msg stands: in the header, or in the body of a known length.
  datatype Paused = InHeader(held: bytes) | InBody(length: nat, held: bytes)

  function PausedAt(s: Side): Paused
  {
    var (head, t) := ExactSpec(s, 4);
    if head.Full? && |head.data| == 4 then InBody(FromBe32(head.data), Held(t, FromBe32(head.data)))
    else InHeader(Held(s, 4))
  }

  // Going on from there with this side.
  function Resume(p: Paused, s: Side): (Incoming, Side)
    requires if p.InHeader? then |p.held| <= 4 else |p.held| <= p.length
  {
    match p
    case InHeader(held) => var (r, t) := ExactSpec(s, 4 - |held|); AfterHeader((Prepend(held, r), t))
    case InBody(n, held) => var (r, t) := ExactSpec(s, n - |held|); AfterBody((Prepend(held, r), t))
  }

  // A recv_msg that returned or raised is unaffected by what is queued later; one that waits goes on
  // exactly where it stands with whatever arrives.
  lemma MsgThenArrivals(s: Side, more: seq<bytes>)
    ensures var (r, t) := MsgSpec(s);
            var p := PausedAt(s);
            if r.Pending? then
              (if p.InHeader? then |p.held| <= 4 else |p.held| <= p.length)
              && MsgSpec(Side(s.buffer, s.queue + more)) == Resume(p, Side(t.buffer, more))
            else MsgSpec(Side(s.buffer, s.queue + more)) == (r, Side(t.buffer, t.queue + more))
  {
    hide ExactSpec;
    ExactThenArrivals(s, more, 4);
    ExactReadsStream(s, 4);
    var (head, t) := ExactSpec(s, 4);
    if head.Full? {
      var n := FromBe32(head.data);
      ExactThenArrivals(t, more, n);
    }
  }

  // ------------------------------------------------------------------
  // Frames
  // ------------------------------------------------------------------

  lemma Be32RoundTrip(n: nat)
    requires n < 0x1_0000_0000
    ensures FromBe32(Be32(n)) == n
  {
    var high := n / 0x1_0000;
    assert n / 0x100_0000 == high / 0x100 && n / 0x100 == high * 0x100 + n % 0x1_0000 / 0x100;
    assert high == high / 0x100 * 0x100 + high % 0x100;
    assert n / 0x100 % 0x100 == n % 0x1_0000 / 0x100;
    assert n % 0x1_0000 == n % 0x1_0000 / 0x100 * 0x100 + n % 0x100;
  }

  lemma Be32Onto(b: bytes)
    requires |b| == 4
    ensures FromBe32(b) < 0x1_0000_0000 && Be32(FromBe32(b)) == b
  {
    var n := FromBe32(b);
    assert n / 0x100_0000 == b[0];
    assert n / 0x1_0000 == (b[0] as int) * 0x100 + b[1] as int;
    assert n / 0x100 == (b[0] as int) * 0x1_0000 + (b[1] as int) * 0x100 + b[2] as int;
  }

  // If recv_msg returns, its result is exactly the payload of the frame at the head of the stream,
  // and exactly that frame is consumed; no chunking and no sentinel truncates or shifts it.
  lemma NoTruncatedPayload(s: Side)
    ensures var (r, t) := MsgSpec(s);
            r.Message? ==> |r.payload| <= MAX_MSG_SIZE && Stream(s) == Frame(r.payload) + Stream(t)
  {
    ExactReadsStream(s, 4);
    var (head, t) := ExactSpec(s, 4);
    if head.Full? && FromBe32(head.data) <= MAX_MSG_SIZE {
      ExactReadsStream(t, FromBe32(head.data));
      Be32Onto(head.data);
      var (body, u) := ExactSpec(t, FromBe32(head.data));
      if body.Full? {
        assert head.data + (body.data + Stream(u)) == (head.data + body.data) + Stream(u);
      }
    }
  }

  // A frame is the length, most significant byte first, and the payload.
  lemma FrameLayout(payload: bytes)
    requires |payload| <= 16777216
    ensures |Frame(payload)| == 4 + |payload| && Frame(payload)[4..] == payload
    ensures var f := Frame(payload);
            (f[0] as int) * 16777216 + (f[1] as int) * 65536 + (f[2] as int) * 256 + f[3] as int == |payload|
  {
    Be32RoundTrip(|payload|);
    assert Frame(payload)[..4] == Be32(|payload|);
  }

  // What recv_msg returns is what the first four bytes of the stream announce, most significant first.
  lemma MessageIsAnnounced(s: Side)
    ensures var (r, t) := MsgSpec(s);
            var whole := Stream(s);
            && (r.Message? ==>
                  && |whole| >= 4
                  && var n := (whole[0] as int) * 16777216 + (whole[1] as int) * 65536 + (whole[2] as int) * 256 + whole[3] as int;
                     && n <= 16777216 && |whole| >= 4 + n
                     && r.payload == whole[4..4 + n] && Stream(t) == whole[4 + n..])
            && (r.Oversized? ==>
                  && |whole| >= 4
                  && (whole[0] as int) * 16777216 + (whole[1] as int) * 65536 + (whole[2] as int) * 256 + whole[3] as int > 16777216
                  && Stream(t) == whole[4..])
  {
    hide ExactSpec;
    ExactReadsStream(s, 4);
    var (head, t) := ExactSpec(s, 4);
    if head.Full? {
      assert Stream(s)[..4] == head.data;
      var n := FromBe32(head.data);
      ExactReadsStream(t, n);
      var (body, u) := ExactSpec(t, n);
      if body.Full? {
        StreamPieces(head.data, body.data, Stream(u));
        assert Stream(s)[4..4 + n] == body.data;
      }
    }
  }

  // And when that many bytes are on their way in non-empty chunks, it does return them.
  lemma AnnouncedIsReceived(buffer: bytes, chunks: seq<bytes>, tail: seq<bytes>)
    requires Clean(chunks) && |buffer + Concat(chunks)| >= 4
    ensures var all := buffer + Concat(chunks);
            var n := (all[0] as int) * 16777216 + (all[1] as int) * 65536 + (all[2] as int) * 256 + all[3] as int;
            && (n > 16777216 ==> MsgSpec(Side(buffer, chunks + tail)).0 == Oversized)
            && (n <= 16777216 && |all| >= 4 + n ==> MsgSpec(Side(buffer, chunks + tail)).0 == Message(all[4..4 + n]))
  {
    var all := buffer + Concat(chunks);
    var left, rest := ExactWithin(buffer, chunks, tail, 4);
    var n := FromBe32(all[..4]);
    if n <= 16777216 && |all| >= 4 + n {
      var _, _ := ExactWithin(left, rest, tail, n);
      assert all[4..][..n] == all[4..4 + n];
    }
  }

  // A stream has at most one frame at its head.
  lemma FramesArePrefixFree(a: bytes, b: bytes, restA: bytes, restB: bytes)
    requires |a| <= MAX_MSG_SIZE && |b| <= MAX_MSG_SIZE
    requires Frame(a) + restA == Frame(b) + restB
    ensures a == b && restA == restB
  {
    var whole := Frame(a) + restA;
    assert whole[..4] == Be32(|a|) && whole[..4] == Be32(|b|);
    Be32RoundTrip(|a|);
    Be32RoundTrip(|b|);
    assert whole[4..4 + |a|] == a && whole[4..4 + |b|] == b;
    assert whole[4 + |a|..] == restA && whole[4 + |b|..] == restB;
  }

  predicate Clean(chunks: seq<bytes>)
  {
    forall k :: 0 <= k < |chunks| ==> chunks[k] != []
  }

  // While enough bytes are on their way in non-empty chunks, a read takes exactly those and leaves
  // whatever is queued behind them untouched.
  lemma {:induction false} ExactWithin(buffer: bytes, chunks: seq<bytes>, tail: seq<bytes>, n: nat)
    returns (left: bytes, rest: seq<bytes>)
    requires Clean(chunks) && n <= |buffer| + |Concat(chunks)|
    ensures var all := buffer + Concat(chunks);
            ExactSpec(Side(buffer, chunks + tail), n) == (Full(all[..n]), Side(left, rest + tail))
            && Clean(rest) && left + Concat(rest) == all[n..]
    decreases |chunks|
  {
    var s := Side(buffer, chunks + tail);
    var all := buffer + Concat(chunks);
    if n == 0 {
      left, rest := buffer, chunks;
      assert all[0..] == all;
    } else if |buffer| >= n {
      left, rest := buffer[n..], chunks;
      assert ExactSpec(Side(left, chunks + tail), 0).0 == Full([]);
      assert all[..n] == buffer[..n] && buffer[..n] + [] == buffer[..n];
      assert all[n..] == left + Concat(rest);
    } else {
      assert (chunks + tail)[0] == chunks[0] && (chunks + tail)[1..] == chunks[1..] + tail;
      var more := buffer + chunks[0];
      assert RecvSpec(s, n) == RecvSpec(Side(more, chunks[1..] + tail), n);
      assert ExactSpec(s, n) == ExactSpec(Side(more, chunks[1..] + tail), n);
      assert more + Concat(chunks[1..]) == all;
      left, rest := ExactWithin(more, chunks[1..], tail, n);
    }
  }

  lemma MsgWithin(buffer: bytes, chunks: seq<bytes>, tail: seq<bytes>, payload: bytes, after: bytes)
    returns (left: bytes, rest: seq<bytes>)
    requires Clean(chunks) && |payload| <= MAX_MSG_SIZE && buffer + Concat(chunks) == Frame(payload) + after
    ensures MsgSpec(Side(buffer, chunks + tail)) == (Message(payload), Side(left, rest + tail))
    ensures Clean(rest) && left + Concat(rest) == after
  {
    var all := Frame(payload) + after;
    var mid, chunks' := ExactWithin(buffer, chunks, tail, 4);
    assert all[..4] == Be32(|payload|) && all[4..] == payload + after;
    Be32RoundTrip(|payload|);
    left, rest := ExactWithin(mid, chunks', tail, |payload|);
    assert (payload + after)[..|payload|] == payload && (payload + after)[|payload|..] == after;
  }

  lemma NothingLeft(chunks: seq<bytes>)
    ensures Clean(chunks) && Concat(chunks) == [] ==> chunks == []
  {
    if chunks != [] {
      assert Concat(chunks) == chunks[0] + Concat(chunks[1..]);
    }
  }

  // Reads count messages, or fewer if one does not arrive.
  method ReceiveAll(conn: WebSocketAdapter, count: nat, ghost payloads: seq<bytes>, ghost tail: seq<bytes>)
    returns (messages: seq<bytes>)
    requires count == |payloads| && Fitting(payloads)
    requires exists chunks :: Clean(chunks) && conn.recvQueue == chunks + tail
                              && conn.buffer + Concat(chunks) == Frames(payloads)
    modifies conn`recvQueue, conn`buffer
    ensures messages == payloads
    ensures conn.buffer == [] && conn.recvQueue == tail
  {
    messages := [];
    ghost var chunks :| Clean(chunks) && conn.recvQueue == chunks + tail
                        && conn.buffer + Concat(chunks) == Frames(payloads);
    assert payloads[0..] == payloads;
    for k := 0 to count
      invariant messages == payloads[..k]
      invariant Clean(chunks) && conn.recvQueue == chunks + tail
      invariant conn.buffer + Concat(chunks) == Frames(payloads[k..])
    {
      assert payloads[k..][0] == payloads[k] && payloads[k..][1..] == payloads[k + 1..];
      ghost var left, rest := MsgWithin(conn.buffer, chunks, tail, payloads[k], Frames(payloads[k + 1..]));
      var r := RecvMsg(conn);
      messages := messages + [r.payload];
      chunks := rest;
    }
    NothingLeft(chunks);
    assert [] + tail == tail;
  }

  // Everything a reader gets out of a side, message after message.
  function MsgsSpec(s: Side, count: nat): (seq<Incoming>, Side)
    decreases count
  {
    if count == 0 then ([], s)
    else
      var (r, t) := MsgSpec(s);
      var (more, u) := MsgsSpec(t, count - 1);
      ([r] + more, u)
  }

  function Messages(payloads: seq<bytes>): seq<Incoming>
  {
    seq(|payloads|, k requires 0 <= k < |payloads| => Message(payloads[k]))
  }

  // Framing round trip: however the concatenated frames are split into non-empty chunks, and
  // whatever is queued behind them, successive recv_msg calls return exactly the payloads, in
  // order, and leave exactly what was queued behind.
  lemma {:induction false} FramingRoundTrip(buffer: bytes, chunks: seq<bytes>, tail: seq<bytes>, payloads: seq<bytes>)
    requires Fitting(payloads) && Clean(chunks) && buffer + Concat(chunks) == Frames(payloads)
    ensures MsgsSpec(Side(buffer, chunks + tail), |payloads|)
            == (Messages(payloads), Side([], tail))
    decreases |payloads|
  {
    hide MsgSpec, Frame;
    if payloads == [] {
      assert buffer == [] && Concat(chunks) == [];
      NothingLeft(chunks);
      assert chunks + tail == tail;
    } else {
      var left, rest := MsgWithin(buffer, chunks, tail, payloads[0], Frames(payloads[1..]));
      FramingRoundTrip(left, rest, tail, payloads[1..]);
      assert [Message(payloads[0])] + Messages(payloads[1..]) == Messages(payloads);
    }
  }

  // After the last frame a queued sentinel ends the message loop.
  lemma SentinelEndsStream(tail: seq<bytes>)
    ensures MsgSpec(Side([], [[]] + tail)).0 == Disconnected
  {
    var s := Side([], [[]] + tail);
    assert s.queue[..0] == [];
    assert Stalls(s, 4, 0);
    ExactOutcome(s, 4);
  }
}
