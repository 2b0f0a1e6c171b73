// The purge of seen_messages against the timestamp window: when a purged id can no longer be replayed.

module ReplayWindow {
  import opened Bytes
  import opened Store
  import opened Protocol
  import opened Server
  import opened Invariants
  import opened Preservation
  import opened Uninterrupted
  import opened ReplayProtection

  // One frame and the purges it meets: stamp is the timestamp the message id is sent under (a replayed
  // frame carries the same one), lead how far it may be dated ahead of the server clock when it is
  // taken in, delay how long after its timestamp has left the window it may still be looked up (the
  // age check and the lookup are two steps), and window the shortest purge window in use.
  datatype Policy = Policy(id: MessageId, stamp: real, lead: real, delay: real, window: real)

  ghost predicate Sane(y: Policy)
  {
    y.window >= 300.0 + y.lead + y.delay
  }

  // Frames under this id carry its timestamp, and every purge uses at least the window. Frames under
  // other ids may be dated as they please.
  predicate Obeys(id: MessageId, stamp: real, window: real, e: Event)
  {
    match e
    case Advance(c, Arrives(Body(Valid(p)))) => p.id == id ==> p.timestamp == stamp
    case Purge(w) => w >= window
    case _ => true
  }

  // And when the frame arrives it is expired, or dated at most lead ahead.
  ghost predicate Follows(y: Policy, s: State, e: Event)
  {
    && Obeys(y.id, y.stamp, y.window, e)
    && match e
       case Advance(c, Arrives(Body(Valid(p)))) =>
         p.id == y.id ==> Expired(s.now, y.stamp) || y.stamp <= s.now + y.lead
       case _ => true
  }

  ghost predicate AllFollow(y: Policy, s: State, events: seq<Event>)
    decreases |events|
  {
    events != [] ==> Follows(y, s, events[0]) && AllFollow(y, Next(s, events[0]), events[1..])
  }

  ghost predicate HandlerDated(y: Policy, s: State, pc: PC)
  {
    Holding(pc, y.id) ==> pc.p.timestamp == y.stamp && y.stamp <= s.now + y.lead
  }

  ghost predicate TaskDated(y: Policy, now: real, task: Task)
  {
    match task
    case RecordSeen(id) => id == y.id ==> y.stamp <= now + y.lead
    case PurgeSeen(cutoff) => cutoff <= now - y.window
    case _ => true
  }

  ghost predicate CallsDated(y: Policy, s: State)
  {
    forall x :: x in s.calls && x.Purging? ==> x.cutoff <= s.now - y.window
  }

  // The row of the id is as old as its frame allows; a row from before may be older until the id is
  // accepted, which takes it out of the table first.
  ghost predicate RowDated(y: Policy, s: State)
  {
    y.id in s.committed.seen ==> y.stamp <= s.committed.seen[y.id] + y.lead
  }

  ghost predicate Unrecorded(s: State, id: MessageId)
  {
    RecordSeen(id) !in s.issued && NoneBetween(s, id)
  }

  // An executed record is still in the table, or its frame is past every lookup.
  ghost predicate Protected(y: Policy, s: State)
    requires 0 <= Done(s) <= |s.issued|
  {
    RecordSeen(y.id) in s.issued[..Done(s)] ==> y.id in s.committed.seen || s.now - y.stamp > 300.0 + y.delay
  }

  ghost predicate WindowOk(y: Policy, s: State)
  {
    && QueueOk(s)
    && (forall c :: c in s.handlers ==> HandlerDated(y, s, s.handlers[c].pc))
    && (forall x :: x in s.queue ==> TaskDated(y, s.now, x))
    && CallsDated(y, s)
    && (RowDated(y, s) || Unrecorded(s, y.id))
    && Protected(y, s)
  }

  lemma WindowAfterWrite(y: Policy, s: State)
    requires Sane(y) && WindowOk(y, s) && s.queue != []
    ensures WindowOk(y, WriterStep(s))
  {
    hide Keeps, Apply;
    var t := WriterStep(s);
    var n := Done(s);
    WriteQueue(s);
    assert s.queue[0] in s.queue && s.queue[0] == s.issued[n];
    assert t.issued[..n + 1] == s.issued[..n] + [s.queue[0]];
    forall x | x in t.queue
      ensures TaskDated(y, t.now, x)
    {
      assert x in s.queue;
    }
  }

  lemma WindowAfterPush(y: Policy, s: State, t: State, added: seq<Task>)
    requires WindowOk(y, s) && s.now <= t.now
    requires t.base == s.base && t.issued == s.issued + added && t.queue == s.queue + added && t.committed == s.committed
    requires forall x :: x in added ==> TaskDated(y, t.now, x)
    requires CallsDated(y, t)
    requires forall c :: c in t.handlers ==> HandlerDated(y, t, t.handlers[c].pc)
    requires RowDated(y, s) || (RecordSeen(y.id) !in added && NoneBetween(t, y.id))
    ensures WindowOk(y, t)
  {
    assert t.issued[..Done(t)] == s.issued[..Done(s)];
    assert t.issued[Done(t)..] == s.issued[Done(s)..] + added;
    forall x | x in t.queue
      ensures TaskDated(y, t.now, x)
    {
      assert x in s.queue ==> TaskDated(y, s.now, x);
    }
  }

  lemma StepDated(y: Policy, s: State, c: Conn, h: Handler, i: Input)
    requires HandlerDated(y, s, h.pc) && Follows(y, s, Advance(c, i))
    ensures var r := Step(s, c, h, i);
            HandlerDated(y, s, r.0.pc) && (r.1.Enqueue? ==> TaskDated(y, s.now, r.1.task))
  {
    hide Step;
    StepEnqueues(s, c, h, i);
  }

  lemma AdvanceDated(y: Policy, s: State, c: Conn, i: Input)
    requires Sane(y) && WindowOk(y, s) && c in s.handlers && Follows(y, s, Advance(c, i))
    ensures WindowOk(y, Next(s, Advance(c, i)))
  {
    hide Step, QueueOk, Perform, Follows;
    var r := Step(s, c, s.handlers[c], i);
    var t := Perform(s, c, r);
    StepDated(y, s, c, s.handlers[c], i);
    StepEnqueues(s, c, s.handlers[c], i);
    PerformPcs(s, c, r);
    var added := PerformQueue(s, c, r);
    forall x | x in t.handlers
      ensures HandlerDated(y, t, t.handlers[x].pc)
    {
      assert HandlerDated(y, s, s.handlers[x].pc);
    }
    WindowAfterPush(y, s, t, added);
  }

  // What an event other than a handler's step or the writer's does to the clock and the calls, and
  // what it adds to the queue.
  lemma SidestepCalls(y: Policy, s: State, e: Event)
    requires !e.Write? && !e.Advance? && Obeys(y.id, y.stamp, y.window, e) && CallsDated(y, s)
    ensures s.now <= Next(s, e).now && CallsDated(y, Next(s, e))
  {
    hide Step, Perform, WriterStep;
  }

  lemma SidestepTasks(y: Policy, s: State, e: Event)
    requires !e.Write? && !e.Advance? && CallsDated(y, s)
    ensures var t := Next(s, e);
            |t.issued| > |s.issued| ==>
              TaskDated(y, s.now, t.issued[|s.issued|]) && !t.issued[|s.issued|].RecordSeen?
  {
    hide Step, Perform, WriterStep;
  }

  lemma SidestepDated(y: Policy, s: State, e: Event)
    requires Sane(y) && WindowOk(y, s) && Follows(y, s, e) && !e.Write? && !e.Advance?
    ensures WindowOk(y, Next(s, e))
  {
    hide Next, QueueOk;
    var t := Next(s, e);
    var added := NextQueue(s, e);
    SidestepCalls(y, s, e);
    SidestepTasks(y, s, e);
    SidestepPcs(s, e);
    forall x | x in t.handlers
      ensures HandlerDated(y, t, t.handlers[x].pc)
    {
      assert x in s.handlers ==> HandlerDated(y, s, s.handlers[x].pc);
    }
    assert t.issued[|s.issued|..] == added;
    WindowAfterPush(y, s, t, added);
  }

  lemma NextWindow(y: Policy, s: State, e: Event)
    requires Sane(y) && WindowOk(y, s) && Follows(y, s, e)
    ensures WindowOk(y, Next(s, e))
  {
    hide WindowOk, Follows, Step, Perform;
    if e.Write? {
      if s.queue != [] {
        WindowAfterWrite(y, s);
      }
    } else if e.Advance? {
      if e.c in s.handlers {
        AdvanceDated(y, s, e.c, e.input);
      }
    } else {
      SidestepDated(y, s, e);
    }
  }

  lemma {:induction false} RunWindow(y: Policy, s: State, events: seq<Event>)
    requires Sane(y) && WindowOk(y, s) && AllFollow(y, s, events)
    ensures WindowOk(y, Run(s, events))
    decreases |events|
  {
    hide Next, WindowOk, Follows;
    if events != [] {
      NextWindow(y, s, events[0]);
      RunWindow(y, Next(s, events[0]), events[1..]);
    }
  }

  // A frame that is expired, or whose id is in the table, is answered with an error.
  lemma CopyRejected(s: State, c: Conn, p: Payload)
    requires c in s.handlers && s.handlers[c].pc == Loop && p.kind == ChatType
    requires Expired(s.now, p.timestamp) || p.id in s.committed.seen
    ensures var t := Run(s, Copy(c, p));
            c in t.handlers
            && (t.handlers[c].pc == Reply(Error(MessageExpired)) || t.handlers[c].pc == Reply(Error(ReplayDetected)))
  {
    if Expired(s.now, p.timestamp) {
      ExpiredStep(s, c, p);
    } else {
      hide Next, Run, Midway;
      ServeHead(s, c, p);
      MidwayAt(s, c, p);
    }
  }

  lemma ExpiredStep(s: State, c: Conn, p: Payload)
    requires c in s.handlers && s.handlers[c].pc == Loop && p.kind == ChatType && Expired(s.now, p.timestamp)
    ensures var t := Run(s, Copy(c, p)); c in t.handlers && t.handlers[c].pc == Reply(Error(MessageExpired))
  {
    hide Run;
    var e := Advance(c, Arrives(Body(Valid(p))));
    var h := s.handlers[c];
    RunTwo(s, e, Advance(c, Go));
    assert Next(s, e) == Midway(s, c, p, Reply(Error(MessageExpired)), []);
  }

  // A record of the id has committed.
  ghost predicate Recorded(t: State, id: MessageId)
  {
    0 <= Done(t) <= |t.issued| && RecordSeen(id) in t.issued[..Done(t)]
  }

  // A handler has let the frame through the age check and is about to look it up.
  predicate Checking(t: State, d: Conn, p: Payload)
  {
    d in t.handlers && t.handlers[d].pc == CheckReplay(p)
  }

  lemma StillInTable(y: Policy, t: State)
    requires WindowOk(y, t) && Recorded(t, y.id) && t.now - y.stamp <= 300.0 + y.delay
    ensures y.id in t.committed.seen
  {
  }

  // With every purge at least as wide as 300 seconds plus the frame's lead over the server clock plus
  // the delay, a lookup of the frame that comes at most the delay after its timestamp has left the
  // window, and after a record of it has committed, rejects it: whatever purges have run, however
  // steps interleave, and however other frames are dated.
  lemma PurgedFramesStayRejected(init: State, events: seq<Event>, d: Conn, p: Payload, i: Input,
                                 lead: real, delay: real, window: real)
    requires Init(init) && AllFollow(Policy(p.id, p.timestamp, lead, delay, window), init, events)
    requires window >= 300.0 + lead + delay
    requires var t := Run(init, events);
             Recorded(t, p.id) && Checking(t, d, p) && t.now - p.timestamp <= 300.0 + delay
    ensures var u := Next(Run(init, events), Advance(d, i));
            d in u.handlers && u.handlers[d].pc == Reply(Error(ReplayDetected))
  {
    hide Run, Next, AllFollow, WindowOk, Recorded;
    var y := Policy(p.id, p.timestamp, lead, delay, window);
    InitWindow(y, init);
    RunWindow(y, init, events);
    StillInTable(y, Run(init, events));
    CheckRejects(Run(init, events), d, i);
  }

  lemma InitWindow(y: Policy, init: State)
    requires Init(init)
    ensures WindowOk(y, init)
  {
    hide TaskDated, HandlerDated, RowDated, Apply;
    InitQueue(init);
  }

  lemma InitQueue(init: State)
    requires Init(init)
    ensures QueueOk(init) && Done(init) == 0
  {
    assert init.issued[..0] == [];
  }

  // In particular a frame whose age check and lookup are made at the same moment is never accepted
  // again with purges at least 300 seconds plus its lead wide: one of the two turns it away.
  lemma ReadAtOnceStaysRejected(init: State, events: seq<Event>, d: Conn, p: Payload, lead: real, window: real)
    requires Init(init) && AllFollow(Policy(p.id, p.timestamp, lead, 0.0, window), init, events)
    requires window >= 300.0 + lead && p.kind == ChatType && Recorded(Run(init, events), p.id)
    requires d in Run(init, events).handlers && Run(init, events).handlers[d].pc == Loop
    ensures var u := Run(Run(init, events), Copy(d, p));
            d in u.handlers
            && (u.handlers[d].pc == Reply(Error(MessageExpired)) || u.handlers[d].pc == Reply(Error(ReplayDetected)))
  {
    hide Run, Next, AllFollow, WindowOk, Recorded;
    var y := Policy(p.id, p.timestamp, lead, 0.0, window);
    InitWindow(y, init);
    RunWindow(y, init, events);
    if !Expired(Run(init, events).now, p.timestamp) {
      StillInTable(y, Run(init, events));
    }
    CopyRejected(Run(init, events), d, p);
  }

  // ------------------------------------------------------------------
  // The bound is exact
  // ------------------------------------------------------------------

  // After these events a record of the frame has committed, and yet a handler that let the frame
  // through the age check finds nothing in the table and accepts it again.
  ghost predicate PassesAgain(s: State, events: seq<Event>, d: Conn, p: Payload)
  {
    var t := Run(s, events);
    && Recorded(t, p.id) && Checking(t, d, p)
    && var u := Next(t, Advance(d, Go));
       d in u.handlers && u.handlers[d].pc == Record(p)
  }

  // And it looks the frame up at most delay after its timestamp has left the window.
  ghost predicate AcceptedAgain(s: State, events: seq<Event>, d: Conn, p: Payload, delay: real)
  {
    PassesAgain(s, events, d, p) && Run(s, events).now - p.timestamp <= 300.0 + delay
  }

  predicate AllObey(p: Payload, window: real, events: seq<Event>)
  {
    forall e :: e in events ==> Obeys(p.id, p.timestamp, window, e)
  }

  // Nothing has happened yet under this id, and no purge is under way.
  ghost predicate Untouched(s: State, id: MessageId)
  {
    QueueOk(s) && NoPurgeQueued(s) && id !in s.committed.seen && RecordSeen(id) !in s.issued && NoneHolding(s, id)
  }

  lemma ClockGrows(s: State, e: Event)
    ensures s.now <= Next(s, e).now
  {
    hide Step;
    if e.Advance? && e.c in s.handlers {
      PerformPcs(s, e.c, Step(s, e.c, s.handlers[e.c], e.input));
    }
  }

  // A frame's lead never grows: from here on it arrives at most as far ahead as it is dated now.
  lemma {:induction false} LeadHolds(y: Policy, p: Payload, s: State, events: seq<Event>)
    requires y == Policy(p.id, p.timestamp, y.lead, y.delay, y.window) && y.stamp <= s.now + y.lead
    requires AllObey(p, y.window, events)
    ensures AllFollow(y, s, events)
    decreases |events|
  {
    hide Next;
    if events != [] {
      ClockGrows(s, events[0]);
      LeadHolds(y, p, Next(s, events[0]), events[1..]);
    }
  }

  lemma UntouchedOk(y: Policy, s: State)
    requires Untouched(s, y.id)
    ensures WindowOk(y, s)
  {
    assert forall x :: x in s.issued[..Done(s)] ==> x in s.issued;
    assert forall x :: x in s.queue ==> x in s.issued;
  }

  // The half for all runs: with the window wide enough nothing accepts the frame again.
  lemma WideWindowSuffices(s: State, p: Payload, delay: real, window: real, events: seq<Event>, d: Conn)
    requires Untouched(s, p.id) && window >= 300.0 + (p.timestamp - s.now) + delay
    requires AllObey(p, window, events)
    ensures !AcceptedAgain(s, events, d, p, delay)
  {
    hide Run, Next, WindowOk, Untouched, Recorded;
    var y := Policy(p.id, p.timestamp, p.timestamp - s.now, delay, window);
    UntouchedOk(y, s);
    LeadHolds(y, p, s, events);
    RunWindow(y, s, events);
    if AcceptedAgain(s, events, d, p, delay) {
      StillInTable(y, Run(s, events));
      CheckRejects(Run(s, events), d, Go);
    }
  }

  // The schedule for the other half. The frame is accepted and recorded at once. It is sent again,
  // and its age is checked, at the last moment its timestamp is in the window; a purge runs; and the
  // handler gets to its lookup when the delay has passed.
  function LateReplay(s: State, c: Conn, p: Payload, delay: real, window: real): seq<Event>
  {
    Acceptance(s, c, p) + (Again(c, p) + Sweep(p.timestamp + 300.0 + delay, window))
  }

  function Acceptance(s: State, c: Conn, p: Payload): seq<Event>
  {
    var path := PathOf(s.committed.seen, s.router, p, true);
    ServeEvents(c, p, path) + Writes(|s.queue + ServeTasks(p, path)|)
  }

  function Again(c: Conn, p: Payload): seq<Event>
  {
    [Tick(p.timestamp + 300.0), Advance(c, Arrives(Body(Valid(p))))]
  }

  function Sweep(tick: real, window: real): seq<Event>
  {
    [Tick(tick), Purge(window)] + [Finish(Purging(tick - window)), Write]
  }

  // Served, and every task executed at the same instant.
  lemma Settle(s: State, c: Conn, p: Payload)
    requires Ready(s, c, p) && Untouched(s, p.id)
    ensures var path := PathOf(s.committed.seen, s.router, p, true);
            var u := Run(s, Acceptance(s, c, p));
            && u.queue == [] && p.id in u.committed.seen && u.committed.seen[p.id] == s.now
            && u.now == s.now && Ready(u, c, p) && u.calls == s.calls && RecordSeen(p.id) in u.issued
  {
    hide Run, Next, Served, QueueOk;
    var path := PathOf(s.committed.seen, s.router, p, true);
    var served := Served(s, c, p, path);
    ServeRun(s, c, p, true);
    ServedShape(s, c, p, path);
    RunAppend(s, ServeEvents(c, p, path), Writes(|s.queue + ServeTasks(p, path)|));
    RunWrites(served, |served.queue|, p.id);
    assert served.queue[..|served.queue|] == served.queue;
    assert served.queue[|s.queue|] == RecordSeen(p.id) && served.issued[|s.issued|] == RecordSeen(p.id);
  }

  lemma PurgeSteps(u: State, tick: real, window: real)
    requires u.queue == [] && u.now <= tick
    ensures var a := Next(Next(u, Tick(tick)), Purge(window));
            var b := Next(a, Finish(Purging(tick - window)));
            && b.queue == [PurgeSeen(tick - window)] && b.issued == u.issued + b.queue
            && b.handlers == u.handlers && b.now == tick && b.committed == u.committed
  {
    hide Next;
    TickSets(u, tick);
    var a := u.(now := tick);
    PurgeBegins(a, window);
    FinishPushes(a, Purging(tick - window));
  }

  lemma TickSets(s: State, t: real)
    requires s.now <= t
    ensures Next(s, Tick(t)) == s.(now := t)
  {
  }

  lemma PurgeBegins(s: State, window: real)
    ensures Next(s, Purge(window)) == Begin(s, Purging(s.now - window))
  {
  }

  lemma SweepRun(u: State, id: MessageId, tick: real, window: real)
    requires u.queue == [] && id in u.committed.seen && u.now <= tick
    ensures var v := Run(u, Sweep(tick, window));
            && v.handlers == u.handlers && v.now == tick
            && (id in v.committed.seen <==> u.committed.seen[id] >= tick - window)
            && v.queue == [] && u.issued <= v.issued
  {
    hide Run, Next, Apply;
    var finish := Finish(Purging(tick - window));
    RunAppend(u, [Tick(tick), Purge(window)], [finish, Write]);
    RunTwo(u, Tick(tick), Purge(window));
    var a := Next(Next(u, Tick(tick)), Purge(window));
    RunTwo(a, finish, Write);
    PurgeSteps(u, tick, window);
    WriteTakesHead(Next(a, finish));
  }

  // The second copy passes the age check at the last moment.
  lemma AgainRun(u: State, c: Conn, p: Payload)
    requires Ready(u, c, p)
    ensures Run(u, Again(c, p)) == Midway(u.(now := p.timestamp + 300.0), c, p, CheckReplay(p), [])
  {
    hide Run, Next;
    RunTwo(u, Tick(p.timestamp + 300.0), Advance(c, Arrives(Body(Valid(p)))));
    TickSets(u, p.timestamp + 300.0);
    ReceiveStep(u.(now := p.timestamp + 300.0), c, p);
  }

  lemma CheckPasses(v: State, c: Conn, p: Payload)
    requires Checking(v, c, p) && p.id !in v.committed.seen
    ensures c in Next(v, Advance(c, Go)).handlers && Next(v, Advance(c, Go)).handlers[c].pc == Record(p)
  {
  }

  // On that schedule the frame is accepted a second time when the window is too short.
  lemma NarrowWindowFails(s: State, c: Conn, p: Payload, delay: real, window: real)
    requires Ready(s, c, p) && Untouched(s, p.id) && delay >= 0.0
    requires window < 300.0 + (p.timestamp - s.now) + delay
    ensures AcceptedAgain(s, LateReplay(s, c, p, delay, window), c, p, delay)
  {
    hide Run, Next, Untouched, Acceptance, Again, Sweep;
    var tick := p.timestamp + 300.0 + delay;
    RunAppend(s, Acceptance(s, c, p), Again(c, p) + Sweep(tick, window));
    Settle(s, c, p);
    var u := Run(s, Acceptance(s, c, p));
    RunAppend(u, Again(c, p), Sweep(tick, window));
    AgainRun(u, c, p);
    var a := Run(u, Again(c, p));
    assert a.queue == [] && a.issued == u.issued && a.committed == u.committed;
    SweepRun(a, p.id, tick, window);
    var v := Run(a, Sweep(tick, window));
    assert v.issued[..Done(v)] == v.issued;
    CheckPasses(v, c, p);
  }

  lemma {:induction false} WritesObey(p: Payload, window: real, k: nat)
    ensures AllObey(p, window, Writes(k))
  {
    if k > 0 {
      WritesObey(p, window, k - 1);
    }
  }

  lemma LateReplayObeys(s: State, c: Conn, p: Payload, delay: real, window: real)
    ensures AllObey(p, window, LateReplay(s, c, p, delay, window))
  {
    var path := PathOf(s.committed.seen, s.router, p, true);
    WritesObey(p, window, |s.queue + ServeTasks(p, path)|);
    assert AllObey(p, window, ServeEvents(c, p, path));
    assert AllObey(p, window, Again(c, p));
    assert AllObey(p, window, Sweep(p.timestamp + 300.0 + delay, window));
  }

  // A frame that reaches the server for the first time can be accepted a second time after its record
  // was committed, by a lookup at most delay after its timestamp has left the window and in some run
  // whose purges use at least the window, if and only if the window is shorter than 300 seconds plus
  // the frame's lead over the server clock on its first arrival plus the delay.
  lemma PurgeWindowIsExact(s: State, c: Conn, p: Payload, delay: real, window: real)
    requires Ready(s, c, p) && Untouched(s, p.id) && delay >= 0.0
    ensures (exists events: seq<Event>, d: Conn :: AllObey(p, window, events) && AcceptedAgain(s, events, d, p, delay))
            <==> window < 300.0 + (p.timestamp - s.now) + delay
  {
    hide AcceptedAgain, AllObey, Untouched;
    if window < 300.0 + (p.timestamp - s.now) + delay {
      NarrowWindowFails(s, c, p, delay, window);
      LateReplayObeys(s, c, p, delay, window);
    } else {
      forall events: seq<Event>, d: Conn | AllObey(p, window, events)
        ensures !AcceptedAgain(s, events, d, p, delay)
      {
        WideWindowSuffices(s, p, delay, window, events, d);
      }
    }
  }

  // Nothing bounds how long a handler takes from the age check to the lookup, and so there is no purge
  // window, however wide, with which a recorded frame is never accepted again.
  lemma NoWindowSuffices(s: State, c: Conn, p: Payload, window: real)
    requires Ready(s, c, p) && Untouched(s, p.id)
    ensures exists events: seq<Event>, d: Conn :: AllObey(p, window, events) && PassesAgain(s, events, d, p)
  {
    hide Run, AllObey, Untouched, PassesAgain;
    var enough := window - 300.0 - (p.timestamp - s.now) + 1.0;
    var delay := if enough >= 0.0 then enough else 0.0;
    NarrowWindowFails(s, c, p, delay, window);
    LateReplayObeys(s, c, p, delay, window);
  }

  // ------------------------------------------------------------------
  // For every frame the server takes in
  // ------------------------------------------------------------------

  // A frame that is not refused on arrival is dated at most thirty seconds ahead.
  lemma {:induction false} LeadIsBounded(y: Policy, p: Payload, s: State, events: seq<Event>)
    requires y == Policy(p.id, p.timestamp, 30.0, y.delay, y.window) && AllObey(p, y.window, events)
    ensures AllFollow(y, s, events)
    decreases |events|
  {
    hide Next;
    if events != [] {
      LeadIsBounded(y, p, Next(s, events[0]), events[1..]);
    }
  }

  // So purges at least 330 seconds plus the delay wide protect every recorded frame, however it is
  // dated: no lookup at most the delay after its timestamp has left the window accepts it again.
  lemma ServerWindowSuffices(init: State, events: seq<Event>, d: Conn, p: Payload, i: Input, delay: real, window: real)
    requires Init(init) && AllObey(p, window, events) && window >= 330.0 + delay
    requires var t := Run(init, events);
             Recorded(t, p.id) && Checking(t, d, p) && t.now - p.timestamp <= 300.0 + delay
    ensures var u := Next(Run(init, events), Advance(d, i));
            d in u.handlers && u.handlers[d].pc == Reply(Error(ReplayDetected))
  {
    hide Run, Next, Recorded, AllObey;
    LeadIsBounded(Policy(p.id, p.timestamp, 30.0, delay, window), p, init, events);
    PurgedFramesStayRejected(init, events, d, p, i, 30.0, delay, window);
  }

  // And nothing less does: a frame dated thirty seconds ahead is taken in, and with any narrower
  // window some run accepts it again.
  lemma ServerWindowIsNeeded(s: State, c: Conn, p: Payload, delay: real, window: real)
    requires c in s.handlers && s.handlers[c].pc == Loop && p.kind == ChatType && p.timestamp == s.now + 30.0
    requires Untouched(s, p.id) && delay >= 0.0 && window < 330.0 + delay
    ensures exists events: seq<Event>, d: Conn :: AllObey(p, window, events) && AcceptedAgain(s, events, d, p, delay)
  {
    hide AcceptedAgain, AllObey, Untouched;
    PurgeWindowIsExact(s, c, p, delay, window);
  }
}
