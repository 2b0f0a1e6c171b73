// backend/client.py: the order of the handshake, and the loop that waits for the acknowledgement.

module Client {
  import opened Bytes
  import opened Store
  import opened Protocol
  import opened Server
  import opened Invariants
  import opened Preservation
  import opened Replies

  // What run_chat_client makes of the frames it reads: the token is refused, the message is
  // refused, the message is acknowledged, or it still waits.
  datatype Outcome = Waiting | AuthRefused | Refused | Acknowledged(status: Status)

  function Judge(f: Frame, id: MessageId): Outcome
  {
    match f
    case Error(_) => Refused
    case Ack(ref, status) => if ref == id then Acknowledged(status) else Waiting
    case _ => Waiting
  }

  // The first frame that decides.
  function Wait(frames: seq<Frame>, id: MessageId): Outcome
  {
    if frames == [] then Waiting
    else
      var before := Wait(frames[..|frames| - 1], id);
      if before != Waiting then before else Judge(frames[|frames| - 1], id)
  }

  function Session(frames: seq<Frame>, id: MessageId): Outcome
  {
    if frames == [] then Waiting
    else if frames[0].Error? then AuthRefused
    else Wait(frames[1..], id)
  }

  lemma {:induction false} DecidedOnce(frames: seq<Frame>, id: MessageId, n: nat)
    requires n <= |frames| && Wait(frames[..n], id) != Waiting
    ensures Wait(frames, id) == Wait(frames[..n], id)
    decreases |frames|
  {
    if n < |frames| {
      assert frames[..|frames| - 1][..n] == frames[..n];
      DecidedOnce(frames[..|frames| - 1], id, n);
    } else {
      assert frames[..n] == frames;
    }
  }

  // Reads frames until one decides; read counts the frames consumed.
  method AwaitAck(frames: seq<Frame>, id: MessageId) returns (outcome: Outcome, read: nat)
    ensures outcome == Wait(frames, id)
    ensures outcome != AuthRefused && read <= |frames|
    ensures forall k :: 0 <= k < read && (outcome == Waiting || k + 1 < read) ==>
              !frames[k].Error? && !(frames[k].Ack? && frames[k].ref == id)
    ensures outcome == Waiting ==> read == |frames|
    ensures outcome == Refused ==> read > 0 && frames[read - 1].Error?
    ensures outcome.Acknowledged? ==> read > 0 && frames[read - 1] == Ack(id, outcome.status)
  {
    read := 0;
    while read < |frames|
      invariant read <= |frames|
      invariant Wait(frames[..read], id) == Waiting
      invariant forall k :: 0 <= k < read ==> !frames[k].Error? && !(frames[k].Ack? && frames[k].ref == id)
    {
      var ack := frames[read];
      assert frames[..read + 1][..read] == frames[..read];
      read := read + 1;
      if ack.Error? {
        DecidedOnce(frames, id, read);
        return Refused, read;
      }
      if ack.Ack? && ack.ref == id {
        DecidedOnce(frames, id, read);
        return Acknowledged(ack.status), read;
      }
    }
    assert frames[..read] == frames;
    outcome := Waiting;
  }

  method RunChatClient(frames: seq<Frame>, id: MessageId) returns (outcome: Outcome)
    ensures outcome == Session(frames, id)
    ensures outcome == AuthRefused <==> frames != [] && frames[0].Error?
    ensures outcome.Acknowledged? ==> !frames[0].Error? && Ack(id, outcome.status) in frames[1..]
  {
    if frames == [] {
      return Waiting;
    }
    var auth := frames[0];
    if auth.Error? {
      return AuthRefused;
    }
    var read: nat;
    outcome, read := AwaitAck(frames[1..], id);
  }

  // ------------------------------------------------------------------
  // Against the server
  // ------------------------------------------------------------------

  function Plain(out: seq<Wire>): seq<Frame>
  {
    seq(|out|, k requires 0 <= k < |out| => out[k].frame)
  }

  // Only replies count: chat frames, drained or forwarded, are read past.
  lemma {:induction false} WaitSkipsChat(out: seq<Wire>, id: MessageId)
    requires out != []
    ensures Wait(Plain(out)[1..], id) == Wait(RepliesOn(out), id)
    decreases |out|
  {
    var frames := Plain(out)[1..];
    if |out| > 1 {
      var front := out[..|out| - 1];
      assert frames[..|frames| - 1] == Plain(front)[1..];
      WaitSkipsChat(front, id);
      var last := out[|out| - 1].frame;
      assert frames[|frames| - 1] == last;
      assert Wait(frames, id) == if Wait(RepliesOn(front), id) != Waiting then Wait(RepliesOn(front), id) else Judge(last, id);
      if IsReply(last) {
        var replies := RepliesOn(out);
        assert replies == RepliesOn(front) + [last];
        assert replies[..|replies| - 1] == RepliesOn(front) && replies[|replies| - 1] == last;
      } else {
        assert RepliesOn(out) == RepliesOn(front);
        assert Judge(last, id) == Waiting;
      }
    }
  }

  // A client that sends one chat payload after AUTH reports success only if the server accepted
  // that payload, and reports the very status it was acknowledged with; it is refused only if the
  // server's reply was an error; and as soon as the server has replied, the wait is over.
  lemma ClientVerdict(init: State, events: seq<Event>, c: Conn, p: Payload)
    requires Init(init) && c in Run(init, events).handlers && p.kind == ChatType
    requires var h := Run(init, events).handlers[c];
             h.authed && |h.requests| <= 1 && (h.requests != [] ==> h.requests[0].r == Valid(p))
    ensures var s := Run(init, events);
            var h := s.handlers[c];
            var outcome := Session(Plain(h.out), p.id);
            && outcome != AuthRefused
            && (outcome == Waiting <==> RepliesOn(h.out) == [])
            && (outcome.Acknowledged? ==>
                  && InsertMessage(p.id, Message(p.sender, p.to, p.data, p.timestamp)) in s.issued
                  && RepliesOn(h.out) == [Ack(p.id, outcome.status)]
                  && (p.to == "server" ==> outcome.status == Delivered))
            && (outcome == Refused ==>
                  && h.requests != []
                  && RepliesOn(h.out)
                     == if OutOfTime(h.requests[0]) then [Error(MessageExpired)] else [Error(ReplayDetected)])
  {
    hide Run, Inv, AllRepliesGo;
    var s := Run(init, events);
    var h := s.handlers[c];
    ReachableInv(init, events);
    OneHandler(s, c);
    OneReplyPerRequest(init, events, c);
    WaitSkipsChat(h.out, p.id);
    assert Plain(h.out)[0] == h.out[0].frame;
    var replies := RepliesOn(h.out);
    assert |replies| <= 1;
    if |replies| == 1 {
      assert replies[..0] == [];
      assert Fits(s, h.requests[0], replies[0]);
    }
  }

  // A client that was refused at AUTH sees exactly that, and nothing else ever follows.
  lemma RefusedClientStops(init: State, events: seq<Event>, c: Conn, id: MessageId)
    requires Init(init) && c in Run(init, events).handlers
    ensures var h := Run(init, events).handlers[c];
            Session(Plain(h.out), id) == AuthRefused <==> h.out != [] && !h.authed
  {
    var s := Run(init, events);
    var h := s.handlers[c];
    FramesMatchConnection(init, events, c);
    if h.out != [] {
      assert Plain(h.out)[0] == h.out[0].frame;
      WaitNeverAuth(Plain(h.out)[1..], id);
    }
  }

  lemma {:induction false} WaitNeverAuth(frames: seq<Frame>, id: MessageId)
    ensures Wait(frames, id) != AuthRefused
    decreases |frames|
  {
    if frames != [] {
      WaitNeverAuth(frames[..|frames| - 1], id);
    }
  }
}
