// One pass of the message loop with no other thread in between, as one closed form.

module Uninterrupted {
  import opened Bytes
  import opened Store
  import opened Protocol
  import opened Server

  // Which way through the loop body a chat payload takes.
  datatype Path = Replayed | ToServer | Offline | Routed(route: Route, ok: bool)

  function PathOf(seen: map<MessageId, real>, router: map<User, Route>, p: Payload, ok: bool): Path
  {
    if p.id in seen then Replayed
    else if p.to == "server" then ToServer
    else if p.to !in router then Offline
    else Routed(router[p.to], ok)
  }

  // The tasks the pass enqueues, and the reply it ends with.
  function ServeTasks(p: Payload, path: Path): seq<Task>
  {
    match path
    case Replayed => []
    case Offline => [RecordSeen(p.id), InsertMessage(p.id, MessageOf(p))]
    case ToServer => [RecordSeen(p.id), InsertMessage(p.id, MessageOf(p)), UpdateDelivery(p.id, Delivered)]
    case Routed(_, ok) =>
      [RecordSeen(p.id), InsertMessage(p.id, MessageOf(p))] + if ok then [UpdateDelivery(p.id, Delivered)] else []
  }

  function ServeReply(p: Payload, path: Path): Frame
  {
    match path
    case Replayed => Error(ReplayDetected)
    case Offline => Ack(p.id, Sent)
    case ToServer => Ack(p.id, Delivered)
    case Routed(_, ok) => Ack(p.id, if ok then Delivered else Sent)
  }

  function ServeEvents(c: Conn, p: Payload, path: Path): seq<Event>
  {
    [Advance(c, Arrives(Body(Valid(p)))), Advance(c, Go)] +
    match path
    case Replayed => [Advance(c, Sends(true))]
    case Offline => [Advance(c, Go), Advance(c, Go), Advance(c, Go), Advance(c, Sends(true))]
    case ToServer => [Advance(c, Go), Advance(c, Go), Advance(c, Go), Advance(c, Sends(true))]
    case Routed(_, ok) =>
      [Advance(c, Go), Advance(c, Go), Advance(c, Go), Advance(c, Sends(ok))]
      + if ok then [Advance(c, Go), Advance(c, Sends(true))] else [Advance(c, Sends(true))]
  }

  function Served(s: State, c: Conn, p: Payload, path: Path): State
    requires c in s.handlers
  {
    var h := s.handlers[c];
    var t := s.(handlers := s.handlers[c := h.(requests := h.requests + [Arrival(Valid(p), s.now)])],
                queue := s.queue + ServeTasks(p, path), issued := s.issued + ServeTasks(p, path));
    var u := if path.Routed? && path.ok then Place(t, path.route.conn, Wire(path.route.key, Chat(p))) else t;
    Place(u, c, Wire(h.key, ServeReply(p, path)))
  }

  predicate Ready(s: State, c: Conn, p: Payload)
  {
    c in s.handlers && s.handlers[c].pc == Loop && p.kind == ChatType && !Expired(s.now, p.timestamp)
  }

  lemma RunCons(s: State, e: Event, rest: seq<Event>)
    ensures Run(s, [e] + rest) == Run(Next(s, e), rest)
  {
    assert ([e] + rest)[1..] == rest;
  }

  lemma RunOne(s: State, e: Event)
    ensures Run(s, [e]) == Next(s, e)
  {
    RunCons(s, e, []);
    assert [e] + [] == [e];
  }

  // The state with handler c at another point, some tasks further and one request more.
  function Midway(s: State, c: Conn, p: Payload, pc: PC, tasks: seq<Task>): State
    requires c in s.handlers
  {
    var h := s.handlers[c];
    s.(handlers := s.handlers[c := h.(pc := pc, requests := h.requests + [Arrival(Valid(p), s.now)])],
       queue := s.queue + tasks, issued := s.issued + tasks)
  }

  lemma RunTwo(s: State, e: Event, f: Event)
    ensures Run(s, [e, f]) == Next(Next(s, e), f)
  {
    hide Next;
    assert [e] + [f] == [e, f];
    RunCons(s, e, [f]);
    RunOne(Next(s, e), f);
  }

  // ------------------------------------------------------------------
  // The single steps
  // ------------------------------------------------------------------

  lemma ReceiveStep(s: State, c: Conn, p: Payload)
    requires Ready(s, c, p)
    ensures Next(s, Advance(c, Arrives(Body(Valid(p))))) == Midway(s, c, p, CheckReplay(p), [])
  {
  }

  lemma CheckStep(s: State, c: Conn, p: Payload)
    requires c in s.handlers
    ensures Next(Midway(s, c, p, CheckReplay(p), []), Advance(c, Go))
            == Midway(s, c, p, if p.id in s.committed.seen then Reply(Error(ReplayDetected)) else Record(p), [])
  {
  }

  // The steps that enqueue one task.
  lemma RecordStep(s: State, c: Conn, p: Payload)
    requires c in s.handlers
    ensures Next(Midway(s, c, p, Record(p), []), Advance(c, Go)) == Midway(s, c, p, Persist(p), [RecordSeen(p.id)])
  {
  }

  lemma PersistStep(s: State, c: Conn, p: Payload)
    requires c in s.handlers
    ensures Next(Midway(s, c, p, Persist(p), [RecordSeen(p.id)]), Advance(c, Go))
            == Midway(s, c, p, if p.to == "server" then MarkServer(p) else Lookup(p),
                      [RecordSeen(p.id), InsertMessage(p.id, MessageOf(p))])
  {
    EnqueuedMore(s, [RecordSeen(p.id)], InsertMessage(p.id, MessageOf(p)));
  }

  lemma MarkServerStep(s: State, c: Conn, p: Payload, tasks: seq<Task>)
    requires c in s.handlers
    ensures Next(Midway(s, c, p, MarkServer(p), tasks), Advance(c, Go))
            == Midway(s, c, p, Reply(Ack(p.id, Delivered)), tasks + [UpdateDelivery(p.id, Delivered)])
  {
    EnqueuedMore(s, tasks, UpdateDelivery(p.id, Delivered));
  }

  lemma EnqueuedMore(s: State, tasks: seq<Task>, task: Task)
    ensures s.queue + tasks + [task] == s.queue + (tasks + [task])
    ensures s.issued + tasks + [task] == s.issued + (tasks + [task])
  {
  }

  lemma LookupStep(s: State, c: Conn, p: Payload, tasks: seq<Task>)
    requires c in s.handlers
    ensures Next(Midway(s, c, p, Lookup(p), tasks), Advance(c, Go))
            == Midway(s, c, p, if p.to in s.router then Forward(p, s.router[p.to]) else Reply(Ack(p.id, Sent)), tasks)
  {
  }

  lemma ForwardStep(s: State, c: Conn, p: Payload, route: Route, ok: bool, tasks: seq<Task>)
    requires c in s.handlers
    ensures Next(Midway(s, c, p, Forward(p, route), tasks), Advance(c, Sends(ok)))
            == if ok then Place(Midway(s, c, p, MarkForwarded(p), tasks), route.conn, Wire(route.key, Chat(p)))
               else Midway(s, c, p, Reply(Ack(p.id, Sent)), tasks)
  {
  }

  lemma ReplyStep(s: State, c: Conn, p: Payload, f: Frame, tasks: seq<Task>)
    requires c in s.handlers && s.handlers[c].pc == Loop
    ensures Next(Midway(s, c, p, Reply(f), tasks), Advance(c, Sends(true)))
            == Place(Midway(s, c, p, Loop, tasks), c, Wire(s.handlers[c].key, f))
  {
  }

  // ------------------------------------------------------------------
  // The passes
  // ------------------------------------------------------------------

  lemma ServeHead(s: State, c: Conn, p: Payload)
    requires Ready(s, c, p)
    ensures Run(s, [Advance(c, Arrives(Body(Valid(p)))), Advance(c, Go)])
            == Midway(s, c, p, if p.id in s.committed.seen then Reply(Error(ReplayDetected)) else Record(p), [])
  {
    hide Next, Midway;
    RunTwo(s, Advance(c, Arrives(Body(Valid(p)))), Advance(c, Go));
    ReceiveStep(s, c, p);
    CheckStep(s, c, p);
  }

  lemma ServeAccept(s: State, c: Conn, p: Payload)
    requires c in s.handlers
    ensures Run(Midway(s, c, p, Record(p), []), [Advance(c, Go), Advance(c, Go)])
            == Midway(s, c, p, if p.to == "server" then MarkServer(p) else Lookup(p),
                      [RecordSeen(p.id), InsertMessage(p.id, MessageOf(p))])
  {
    hide Next, Midway;
    RunTwo(Midway(s, c, p, Record(p), []), Advance(c, Go), Advance(c, Go));
    RecordStep(s, c, p);
    PersistStep(s, c, p);
  }

  lemma ServeTail(s: State, c: Conn, p: Payload, path: Path)
    requires c in s.handlers && s.handlers[c].pc == Loop && !path.Replayed?
    requires path == PathOf(s.committed.seen, s.router, p, path.Routed? && path.ok)
    ensures var tasks := [RecordSeen(p.id), InsertMessage(p.id, MessageOf(p))];
            Run(Midway(s, c, p, if p.to == "server" then MarkServer(p) else Lookup(p), tasks),
                ServeEvents(c, p, path)[4..]) == Served(s, c, p, path)
  {
    hide Next, Midway, Run;
    var tasks := [RecordSeen(p.id), InsertMessage(p.id, MessageOf(p))];
    var g, y := Advance(c, Go), Advance(c, Sends(true));
    match path
    case ToServer =>
      assert ServeEvents(c, p, path)[4..] == [g, y];
      RunTwo(Midway(s, c, p, MarkServer(p), tasks), g, y);
      MarkServerStep(s, c, p, tasks);
      assert tasks + [UpdateDelivery(p.id, Delivered)] == ServeTasks(p, path);
      ReplyStep(s, c, p, Ack(p.id, Delivered), ServeTasks(p, path));
      ServedIsPlaced(s, c, p, path);
    case Offline =>
      assert ServeEvents(c, p, path)[4..] == [g, y];
      RunTwo(Midway(s, c, p, Lookup(p), tasks), g, y);
      LookupStep(s, c, p, tasks);
      ReplyStep(s, c, p, Ack(p.id, Sent), tasks);
      ServedIsPlaced(s, c, p, path);
    case Routed(route, ok) =>
      var rest := if ok then [g, y] else [y];
      assert ServeEvents(c, p, path)[4..] == [g, Advance(c, Sends(ok))] + rest;
      RunAppend(Midway(s, c, p, Lookup(p), tasks), [g, Advance(c, Sends(ok))], rest);
      RunTwo(Midway(s, c, p, Lookup(p), tasks), g, Advance(c, Sends(ok)));
      LookupStep(s, c, p, tasks);
      ServeForward(s, c, p, route, ok);
  }

  // The paths without a forward end in one reply after their tasks.
  lemma ServedIsPlaced(s: State, c: Conn, p: Payload, path: Path)
    requires c in s.handlers && s.handlers[c].pc == Loop && (path.Routed? ==> !path.ok)
    ensures Served(s, c, p, path)
            == Place(Midway(s, c, p, Loop, ServeTasks(p, path)), c, Wire(s.handlers[c].key, ServeReply(p, path)))
  {
  }

  lemma MarkStep(t: State, c: Conn, p: Payload)
    requires c in t.handlers && t.handlers[c].pc == MarkForwarded(p)
    ensures Next(t, Advance(c, Go))
            == Push(t.(handlers := t.handlers[c := t.handlers[c].(pc := Confirm(p))]), UpdateDelivery(p.id, Delivered))
  {
  }

  lemma ConfirmStep(t: State, c: Conn, p: Payload)
    requires c in t.handlers && t.handlers[c].pc == Confirm(p)
    ensures Next(t, Advance(c, Sends(true)))
            == Place(t.(handlers := t.handlers[c := t.handlers[c].(pc := Loop)]), c,
                     Wire(t.handlers[c].key, Ack(p.id, Delivered)))
  {
  }

  lemma MarkThenConfirm(t: State, c: Conn, p: Payload)
    requires c in t.handlers && t.handlers[c].pc == MarkForwarded(p)
    ensures var u := Push(t.(handlers := t.handlers[c := t.handlers[c].(pc := Loop)]), UpdateDelivery(p.id, Delivered));
            Run(t, [Advance(c, Go), Advance(c, Sends(true))])
            == Place(u, c, Wire(t.handlers[c].key, Ack(p.id, Delivered)))
  {
    hide Next;
    RunTwo(t, Advance(c, Go), Advance(c, Sends(true)));
    MarkStep(t, c, p);
    ConfirmStep(Next(t, Advance(c, Go)), c, p);
  }

  // Placing a frame and moving on commute.
  lemma PlaceMidway(s: State, c: Conn, p: Payload, to: Conn, w: Wire, tasks: seq<Task>)
    requires c in s.handlers && s.handlers[c].pc == Loop
    ensures var b := Place(Midway(s, c, p, MarkForwarded(p), tasks), to, w);
            && c in b.handlers && b.handlers[c].key == s.handlers[c].key
            && b.(handlers := b.handlers[c := b.handlers[c].(pc := Loop)])
               == Place(Midway(s, c, p, Loop, tasks), to, w)
  {
  }

  lemma ServeForward(s: State, c: Conn, p: Payload, route: Route, ok: bool)
    requires c in s.handlers && s.handlers[c].pc == Loop && p.to != "server"
    ensures var tasks := [RecordSeen(p.id), InsertMessage(p.id, MessageOf(p))];
            var b := Next(Midway(s, c, p, Forward(p, route), tasks), Advance(c, Sends(ok)));
            Run(b, if ok then [Advance(c, Go), Advance(c, Sends(true))] else [Advance(c, Sends(true))])
            == Served(s, c, p, Routed(route, ok))
  {
    hide Next, Run, Push;
    var tasks := [RecordSeen(p.id), InsertMessage(p.id, MessageOf(p))];
    ForwardStep(s, c, p, route, ok, tasks);
    if ok {
      var w := Wire(route.key, Chat(p));
      var b := Place(Midway(s, c, p, MarkForwarded(p), tasks), route.conn, w);
      PlaceMidway(s, c, p, route.conn, w, tasks);
      assert c in b.handlers && b.handlers[c].pc == MarkForwarded(p);
      MarkThenConfirm(b, c, p);
      PushPlace(s, c, p, route.conn, w, tasks, UpdateDelivery(p.id, Delivered));
      assert tasks + [UpdateDelivery(p.id, Delivered)] == ServeTasks(p, Routed(route, ok));
    } else {
      RunOne(Midway(s, c, p, Reply(Ack(p.id, Sent)), tasks), Advance(c, Sends(true)));
      ReplyStep(s, c, p, Ack(p.id, Sent), tasks);
      assert tasks + [] == tasks;
      ServedIsPlaced(s, c, p, Routed(route, ok));
    }
  }

  lemma PushPlace(s: State, c: Conn, p: Payload, to: Conn, w: Wire, tasks: seq<Task>, task: Task)
    requires c in s.handlers
    ensures Push(Place(Midway(s, c, p, Loop, tasks), to, w), task)
            == Place(Midway(s, c, p, Loop, tasks + [task]), to, w)
  {
    assert s.queue + tasks + [task] == s.queue + (tasks + [task]);
    assert s.issued + tasks + [task] == s.issued + (tasks + [task]);
  }

  // Running the loop body alone from one frame to the next does exactly this.
  lemma ServeRun(s: State, c: Conn, p: Payload, ok: bool)
    requires Ready(s, c, p)
    ensures var path := PathOf(s.committed.seen, s.router, p, ok);
            Run(s, ServeEvents(c, p, path)) == Served(s, c, p, path)
  {
    hide Next, Midway, Run, Served;
    var path := PathOf(s.committed.seen, s.router, p, ok);
    var es := ServeEvents(c, p, path);
    var head := [Advance(c, Arrives(Body(Valid(p)))), Advance(c, Go)];
    assert es == head + es[2..];
    RunAppend(s, head, es[2..]);
    ServeHead(s, c, p);
    if path.Replayed? {
      assert es[2..] == [Advance(c, Sends(true))];
      RunOne(Midway(s, c, p, Reply(Error(ReplayDetected)), []), Advance(c, Sends(true)));
      ReplyStep(s, c, p, Error(ReplayDetected), []);
      ServedIsPlaced(s, c, p, path);
    } else {
      var g := Advance(c, Go);
      assert es[2..] == [g, g] + es[4..];
      RunAppend(Midway(s, c, p, Record(p), []), [g, g], es[4..]);
      ServeAccept(s, c, p);
      ServeTail(s, c, p, path);
    }
  }

  // ------------------------------------------------------------------
  // The same, spelt out
  // ------------------------------------------------------------------

  // What the message loop makes of a decoded payload on arrival. The age comes before the type, a
  // payload up to 300 seconds old and up to 30 seconds ahead is in time, and both bounds are inclusive.
  lemma RequestJudged(s: State, c: Conn, r: Request)
    requires c in s.handlers && s.handlers[c].pc == Loop
    ensures var t := Next(s, Advance(c, Arrives(Body(r))));
            && c in t.handlers && t.issued == s.issued && t.handlers[c].out == s.handlers[c].out
            && t.handlers[c].pc
               == if r.Malformed? then Reply(Error(InvalidSchema))
                  else if s.now - r.p.timestamp > 300.0 || s.now - r.p.timestamp < -30.0 then Reply(Error(MessageExpired))
                  else if r.p.kind != ChatType then Reply(Error(InvalidSchema))
                  else CheckReplay(r.p)
  {
  }

  // A closed connection, and a frame that does not decrypt or decode, end the loop without a word.
  lemma BrokenFrameEnds(s: State, c: Conn, msg: Inbound)
    requires c in s.handlers && (s.handlers[c].pc == Loop || s.handlers[c].pc == AwaitAuth) && !msg.Body?
    ensures Next(s, Advance(c, Arrives(msg))) == s.(handlers := s.handlers[c := s.handlers[c].(pc := Leave)])
  {
  }

  // One chat payload that is in time, taken from its arrival to the reply with nobody else running. A
  // seen id is refused and leaves no task. Any other is recorded and stored with its own fields; it is
  // delivered if it is for the server, or if its recipient is connected and the send goes through, and
  // then it is marked, placed on that connection alone under that connection's key, and acknowledged
  // as delivered; otherwise it is acknowledged as sent.
  lemma MessagePass(s: State, c: Conn, p: Payload, ok: bool)
    requires c in s.handlers && s.handlers[c].pc == Loop && p.kind == ChatType
    requires -30.0 <= s.now - p.timestamp <= 300.0
    ensures var t := Run(s, ServeEvents(c, p, PathOf(s.committed.seen, s.router, p, ok)));
            var replayed := p.id in s.committed.seen;
            var forwarded := !replayed && p.to != "server" && p.to in s.router && ok;
            var delivered := !replayed && (p.to == "server" || forwarded);
            && t.queue == s.queue +
               (if replayed then []
                else [RecordSeen(p.id), InsertMessage(p.id, Message(p.sender, p.to, p.data, p.timestamp))]
                     + if delivered then [UpdateDelivery(p.id, Delivered)] else [])
            && t.committed == s.committed && t.router == s.router && t.handlers.Keys == s.handlers.Keys
            && t.handlers[c].pc == Loop
            && forall x :: x in s.handlers ==>
                 t.handlers[x].out == s.handlers[x].out
                 + (if forwarded && s.router[p.to].conn == x then [Wire(s.router[p.to].key, Chat(p))] else [])
                 + (if x != c then []
                    else if replayed then [Wire(s.handlers[c].key, Error(ReplayDetected))]
                    else if delivered then [Wire(s.handlers[c].key, Ack(p.id, Delivered))]
                    else [Wire(s.handlers[c].key, Ack(p.id, Sent))])
  {
    hide Run, Next, Served;
    var path := PathOf(s.committed.seen, s.router, p, ok);
    ServeRun(s, c, p, ok);
    forall x | x in s.handlers
      ensures ServedOut(s, c, p, path, x)
    {
      ServedOuts(s, c, p, path, x);
    }
    ServedShared(s, c, p, path);
  }

  ghost predicate ServedOut(s: State, c: Conn, p: Payload, path: Path, x: Conn)
    requires c in s.handlers && x in s.handlers
  {
    && x in Served(s, c, p, path).handlers
    && Served(s, c, p, path).handlers[x].out
       == s.handlers[x].out
          + (if path.Routed? && path.ok && path.route.conn == x then [Wire(path.route.key, Chat(p))] else [])
          + if x == c then [Wire(s.handlers[c].key, ServeReply(p, path))] else []
  }

  lemma ServedOuts(s: State, c: Conn, p: Payload, path: Path, x: Conn)
    requires c in s.handlers && x in s.handlers
    ensures ServedOut(s, c, p, path, x)
  {
  }

  lemma ServedShared(s: State, c: Conn, p: Payload, path: Path)
    requires c in s.handlers && s.handlers[c].pc == Loop
    ensures var t := Served(s, c, p, path);
            && t.queue == s.queue + ServeTasks(p, path) && t.committed == s.committed && t.router == s.router
            && t.handlers.Keys == s.handlers.Keys && t.handlers[c].pc == Loop
  {
  }

  // If the acknowledgement of a forwarded payload fails to go out, the sender is told 'sent' instead,
  // although the payload was handed over and marked; if that fails as well, the handler leaves.
  lemma ForwardedUnconfirmed(s: State, c: Conn, p: Payload, again: bool)
    requires c in s.handlers && s.handlers[c].pc == Confirm(p)
    ensures var t := Run(s, [Advance(c, Sends(false)), Advance(c, Sends(again))]);
            && c in t.handlers && t.issued == s.issued
            && t.handlers[c].pc == (if again then Loop else Leave)
            && t.handlers[c].out == s.handlers[c].out + if again then [Wire(s.handlers[c].key, Ack(p.id, Sent))] else []
  {
    hide Run, Next;
    RunTwo(s, Advance(c, Sends(false)), Advance(c, Sends(again)));
    UnconfirmedStep(s, c, p);
    LastReply(Next(s, Advance(c, Sends(false))), c, Ack(p.id, Sent), again);
  }

  lemma UnconfirmedStep(s: State, c: Conn, p: Payload)
    requires c in s.handlers && s.handlers[c].pc == Confirm(p)
    ensures Next(s, Advance(c, Sends(false)))
            == s.(handlers := s.handlers[c := s.handlers[c].(pc := Reply(Ack(p.id, Sent)))])
  {
  }

  lemma LastReply(s: State, c: Conn, f: Frame, ok: bool)
    requires c in s.handlers && s.handlers[c].pc == Reply(f)
    ensures var t := Next(s, Advance(c, Sends(ok)));
            && c in t.handlers && t.issued == s.issued && t.handlers[c].pc == (if ok then Loop else Leave)
            && t.handlers[c].out == s.handlers[c].out + if ok then [Wire(s.handlers[c].key, f)] else []
  {
  }

  // ------------------------------------------------------------------
  // The writer alone
  // ------------------------------------------------------------------

  function Writes(k: nat): seq<Event>
  {
    if k == 0 then [] else [Write] + Writes(k - 1)
  }

  lemma WriteNothing(s: State)
    requires s.queue == []
    ensures Next(s, Write) == s
  {
  }

  lemma WriteTakesHead(s: State)
    requires s.queue != []
    ensures Next(s, Write) == s.(committed := Commit(s.committed, s.queue[0], s.now), queue := s.queue[1..])
  {
  }

  function Least(a: nat, b: nat): nat
  {
    if a <= b then a else b
  }

  // The first n queued tasks have run, in order, and nothing else has changed.
  ghost predicate Wrote(s: State, t: State, n: nat)
    requires n <= |s.queue|
  {
    && t.queue == s.queue[n..]
    && t.committed.store == RunTasks(s.committed.store, s.queue[..n])
    && t == s.(committed := t.committed, queue := t.queue)
  }

  lemma WroteMore(s: State, t: State, u: State, n: nat)
    requires s.queue != [] && t == s.(committed := Commit(s.committed, s.queue[0], s.now), queue := s.queue[1..])
    requires n <= |t.queue| && Wrote(t, u, n)
    ensures Wrote(s, u, n + 1)
  {
    hide Apply, RunTasks;
    RunTasksHead(s.committed.store, s.queue[..n + 1]);
    assert s.queue[..n + 1][1..] == t.queue[..n];
    assert s.queue[n + 1..] == t.queue[n..];
  }

  lemma WroteNone(s: State)
    ensures Wrote(s, s, 0)
  {
    assert s.queue[0..] == s.queue && s.queue[..0] == [];
  }

  lemma {:induction false} WritesRun(s: State, k: nat)
    ensures Wrote(s, Run(s, Writes(k)), Least(k, |s.queue|))
    decreases k
  {
    hide Next, Wrote;
    WroteNone(s);
    if k > 0 {
      hide Run;
      RunCons(s, Write, Writes(k - 1));
      WritesRun(Next(s, Write), k - 1);
      if s.queue == [] {
        WriteNothing(s);
      } else {
        WriteTakesHead(s);
        WroteMore(s, Next(s, Write), Run(s, Writes(k)), Least(k - 1, |s.queue| - 1));
      }
    }
  }

  // A call that goes on at once enqueues its task.
  lemma FinishPushes(s: State, call: Call)
    ensures Next(Begin(s, call), Finish(call)) == Push(s, CallTask(call))
  {
    assert s.calls + multiset{call} - multiset{call} == s.calls;
  }

  // ------------------------------------------------------------------
  // From AUTH to the router
  // ------------------------------------------------------------------

  // What an AUTH payload comes to against the committed accounts: an error reply, an exception, or
  // a login as some user.
  datatype AuthResult = Turned(code: ErrCode) | Broken | Granted(user: User)

  function AuthOutcome(users: map<User, string>, verify: (string, string) -> bool, r: Request): AuthResult
  {
    if r.Malformed? then Turned(InvalidSchema)
    else if r.p.kind != AuthType then Turned(AuthFailed)
    else match r.p.sender
      case Null => Turned(AuthFailed)
      case Unbindable => Broken
      case Text(u) =>
        if u !in users then Turned(AuthFailed)
        else if !r.p.data.Text? then Broken
        else if !verify(users[u], r.p.data.text) then Turned(AuthFailed)
        else Granted(u)
  }

  // A payload that logs in: an AUTH payload with a textual name and password, the name committed, and
  // its hash verified by the password.
  predicate Grants(users: map<User, string>, verify: (string, string) -> bool, r: Request)
  {
    && r.Valid? && r.p.kind == AuthType && r.p.sender.Text? && r.p.sender.text in users
    && r.p.data.Text? && verify(users[r.p.sender.text], r.p.data.text)
  }

  // The name is a container, which the lookup cannot bind, or the password of a known user is no text,
  // which the check cannot encode.
  predicate Raising(users: map<User, string>, r: Request)
  {
    && r.Valid? && r.p.kind == AuthType
    && (r.p.sender.Unbindable? || (r.p.sender.Text? && r.p.sender.text in users && !r.p.data.Text?))
  }

  // Which error answers which AUTH payload: a malformed one the schema error, any other that neither
  // logs in nor raises the authentication error.
  lemma AuthOutcomeExactly(users: map<User, string>, verify: (string, string) -> bool, r: Request)
    ensures AuthOutcome(users, verify, r)
            == if r.Malformed? then Turned(InvalidSchema)
               else if Grants(users, verify, r) then Granted(r.p.sender.text)
               else if Raising(users, r) then Broken
               else Turned(AuthFailed)
  {
  }

  // The name a decoded AUTH payload presents, whether or not a login follows.
  function Presented(r: Request): Option<User>
  {
    if r.Valid? && r.p.kind == AuthType && r.p.sender.Text? then Some(r.p.sender.text) else None
  }

  // The handler after logging in as user with this token, at some later point.
  function LoggedIn(h: Handler, user: User, password: Value, ref: MessageId, token: Option<SessionToken>, pc: PC): Handler
  {
    h.(pc := pc, claim := Some(Claim(user, password, ref)), token := token)
  }

  // The states of a granted login: the claim is taken, the password checked, the session enqueued.
  function Claimed(s: State, c: Conn, user: User, r: Request, token: Option<SessionToken>, pc: PC): State
    requires c in s.handlers && r.Valid?
  {
    s.(handlers := s.handlers[c := LoggedIn(s.handlers[c], user, r.p.data, r.p.id, token, pc)])
  }

  lemma ClaimStep(s: State, c: Conn, r: Request)
    requires c in s.handlers && s.handlers[c].pc == AwaitAuth
    requires AuthOutcome(s.committed.store.users, s.verify, r).Granted?
    ensures var u := AuthOutcome(s.committed.store.users, s.verify, r).user;
            Next(s, Advance(c, Arrives(Body(r)))) == Claimed(s, c, u, r, s.handlers[c].token, Login)
  {
  }

  lemma GrantStep(s: State, c: Conn, r: Request)
    requires c in s.handlers
    requires AuthOutcome(s.committed.store.users, s.verify, r).Granted?
    ensures var u := AuthOutcome(s.committed.store.users, s.verify, r).user;
            Next(Claimed(s, c, u, r, s.handlers[c].token, Login), Advance(c, Go))
            == Claimed(s, c, u, r, s.handlers[c].token, Issue)
  {
  }

  lemma IssueStep(s: State, c: Conn, user: User, r: Request, token: SessionToken)
    requires c in s.handlers && r.Valid?
    ensures Next(Claimed(s, c, user, r, s.handlers[c].token, Issue), Advance(c, Fresh(token)))
            == Push(Claimed(s, c, user, r, Some(token), SendToken), InsertSession(token, user, s.now + SESSION_EXPIRY))
  {
  }

  lemma TokenStep(d: State, c: Conn, k: Claim, token: SessionToken)
    requires c in d.handlers && d.handlers[c].pc == SendToken
    requires d.handlers[c].claim == Some(k) && d.handlers[c].token == Some(token)
    ensures var h := d.handlers[c];
            Next(d, Advance(c, Sends(true)))
            == d.(handlers := d.handlers[c := h.(pc := Enter, authed := true,
                                                 out := h.out + [Wire(h.key, TokenAck(k.ref, token))])])
  {
  }

  lemma EnterStep(a: State, c: Conn, k: Claim)
    requires c in a.handlers && a.handlers[c].pc == Enter && a.handlers[c].claim == Some(k)
    ensures var h := a.handlers[c];
            Next(a, Advance(c, Go))
            == a.(handlers := a.handlers[c := h.(pc := ReadPending)], router := a.router[k.user := Route(c, h.key)])
  {
  }

  function LoginEvents(c: Conn, r: Request, token: SessionToken): seq<Event>
  {
    [Advance(c, Arrives(Body(r))), Advance(c, Go), Advance(c, Fresh(token)), Advance(c, Sends(true)), Advance(c, Go)]
  }

  // A login that is granted, run alone: the session is enqueued, the token is the next frame on the
  // connection, and only then does the router learn of the connection, under its own key.
  lemma LoginRun(s: State, c: Conn, r: Request, token: SessionToken)
    requires c in s.handlers && s.handlers[c].pc == AwaitAuth
    requires AuthOutcome(s.committed.store.users, s.verify, r).Granted?
    ensures var u := AuthOutcome(s.committed.store.users, s.verify, r).user;
            var h := s.handlers[c];
            var t := Run(s, LoginEvents(c, r, token));
            && c in t.handlers
            && t.handlers[c].out == h.out + [Wire(h.key, TokenAck(r.p.id, token))]
            && t.handlers[c].pc == ReadPending && t.handlers[c].authed && t.handlers[c].key == h.key
            && t.handlers[c].claim == Some(Claim(u, r.p.data, r.p.id))
            && t.router == s.router[u := Route(c, h.key)]
            && t.queue == s.queue + [InsertSession(token, u, s.now + SESSION_EXPIRY)]
            && t.issued == s.issued + [InsertSession(token, u, s.now + SESSION_EXPIRY)]
            && t.committed == s.committed
            && (forall x :: x in s.handlers && x != c ==> x in t.handlers && t.handlers[x] == s.handlers[x])
  {
    hide Next, Run, AuthOutcome;
    var u := AuthOutcome(s.committed.store.users, s.verify, r).user;
    var e, f, g := Advance(c, Arrives(Body(r))), Advance(c, Go), Advance(c, Fresh(token));
    var y, z := Advance(c, Sends(true)), Advance(c, Go);
    GrantedIsValid(s.committed.store.users, s.verify, r);
    assert LoginEvents(c, r, token) == [e, f] + ([g] + [y, z]);
    RunAppend(s, [e, f], [g] + [y, z]);
    RunTwo(s, e, f);
    ClaimStep(s, c, r);
    GrantStep(s, c, r);
    var b := Next(Next(s, e), f);
    RunCons(b, g, [y, z]);
    IssueStep(s, c, u, r, token);
    var d := Next(b, g);
    RunTwo(d, y, z);
    TokenStep(d, c, Claim(u, r.p.data, r.p.id), token);
    EnterStep(Next(d, y), c, Claim(u, r.p.data, r.p.id));
  }

  lemma GrantedIsValid(users: map<User, string>, verify: (string, string) -> bool, r: Request)
    requires AuthOutcome(users, verify, r).Granted?
    ensures r.Valid?
  {
  }
}
