// Replay protection over whole runs: what the seen_messages lookup guarantees when the row it
// looks for is written later, by another thread.

module ReplayProtection {
  import opened Bytes
  import opened Store
  import opened Protocol
  import opened Server
  import opened Invariants
  import opened Preservation
  import opened Uninterrupted

  ghost predicate NoPurges(events: seq<Event>)
  {
    forall e :: e in events ==> !e.Purge?
  }

  // No purge is queued, or has read the clock and will be.
  ghost predicate NoPurgeQueued(s: State)
  {
    && (forall x :: x in s.queue ==> !x.PurgeSeen?)
    && (forall x :: x in s.calls ==> !x.Purging?)
  }

  // How often the id was accepted: each acceptance enqueues one record_seen.
  function Acceptances(tasks: seq<Task>, id: MessageId): nat
  {
    if tasks == [] then 0
    else Acceptances(tasks[..|tasks| - 1], id) + if tasks[|tasks| - 1] == RecordSeen(id) then 1 else 0
  }

  // Only a handler that passed the check enqueues record_seen, no handler enqueues a purge, and only
  // a payload that has just arrived within the timestamp window gets to the check.
  ghost predicate Careful(s: State, h: Handler, i: Input, r: (Handler, Effect))
  {
    && (r.1.Enqueue? ==> !r.1.task.PurgeSeen?)
    && (r.1.Enqueue? && r.1.task.RecordSeen? ==> h.pc.Record? && h.pc.p.id == r.1.task.id && r.0.pc.Persist?)
    && (r.0.pc.Record? ==> h.pc.CheckReplay? && h.pc.p == r.0.pc.p && h.pc.p.id !in s.committed.seen)
    && (r.0.pc.CheckReplay? ==>
          h.pc.Loop? && i == Arrives(Body(Valid(r.0.pc.p))) && !Expired(s.now, r.0.pc.p.timestamp))
  }

  lemma LoginCareful(s: State, c: Conn, h: Handler, i: Input)
    requires h.pc.AwaitAuth? || h.pc.Refuse? || h.pc.Login? || h.pc.Issue? || h.pc.SendToken?
    ensures Careful(s, h, i, StepLogin(s, c, h, i))
  {
  }

  lemma DrainCareful(s: State, c: Conn, h: Handler, i: Input)
    requires h.pc.Enter? || h.pc.ReadPending? || h.pc.Drain? || h.pc.MarkDrained?
    ensures Careful(s, h, i, StepDrain(s, c, h, i))
  {
    hide IsPendingList;
  }

  lemma MessageCareful(s: State, c: Conn, h: Handler, i: Input)
    requires h.pc.Loop? || h.pc.CheckReplay? || h.pc.Record? || h.pc.Persist? || h.pc.MarkServer? || h.pc.Lookup?
             || h.pc.Forward? || h.pc.MarkForwarded? || h.pc.Confirm? || h.pc.Reply?
    ensures Careful(s, h, i, StepMessage(s, c, h, i))
  {
  }

  lemma CleanupCareful(s: State, h: Handler, i: Input)
    requires h.pc.Leave? || h.pc.Closing? || h.pc.Closed? || h.pc.Crashed?
    ensures Careful(s, h, i, StepCleanup(h))
  {
  }

  lemma StepEnqueues(s: State, c: Conn, h: Handler, i: Input)
    ensures Careful(s, h, i, Step(s, c, h, i))
  {
    hide Careful, StepLogin, StepDrain, StepMessage, StepCleanup;
    match h.pc
    case AwaitAuth | Refuse(_) | Login | Issue | SendToken => LoginCareful(s, c, h, i);
    case Enter | ReadPending | Drain(_) | MarkDrained(_) => DrainCareful(s, c, h, i);
    case Leave | Closing | Closed | Crashed => CleanupCareful(s, h, i);
    case _ => MessageCareful(s, c, h, i);
  }

  // ------------------------------------------------------------------
  // The committed seen table
  // ------------------------------------------------------------------

  // Without purges, seen_messages holds exactly what it started with and every executed record.
  ghost predicate SeenOk(seen: map<MessageId, real>, s: State)
  {
    && QueueOk(s)
    && NoPurgeQueued(s)
    && (forall id :: id in s.committed.seen <==> id in seen || RecordSeen(id) in s.issued[..Done(s)])
  }

  lemma NextAdded(s: State, e: Event) returns (added: seq<Task>)
    requires !e.Purge? && NoPurgeQueued(s)
    ensures |added| <= 1 && Next(s, e).issued == s.issued + added && Next(s, e).base == s.base
    ensures added != [] ==> !added[0].PurgeSeen? && (!e.Advance? ==> !added[0].RecordSeen?)
    ensures forall x :: x in Next(s, e).calls ==> !x.Purging?
    ensures e.Write? && s.queue != [] ==>
              added == [] && Next(s, e).queue == s.queue[1..]
              && Next(s, e).committed == Commit(s.committed, s.queue[0], s.now)
    ensures !(e.Write? && s.queue != []) ==>
              Next(s, e).queue == s.queue + added && Next(s, e).committed == s.committed
  {
    hide Step, Perform, Apply, ApplySeen;
    added := NextQueue(s, e);
    assert added != [] ==> Next(s, e).issued[|s.issued|] == added[0];
    match e
    case Advance(c, i) =>
      if c in s.handlers {
        StepEnqueues(s, c, s.handlers[c], i);
        PerformPcs(s, c, Step(s, c, s.handlers[c], i));
        var x := PerformQueue(s, c, Step(s, c, s.handlers[c], i));
        assert Next(s, e).issued[|s.issued|..] == x;
        assert Next(s, e).issued[|s.issued|..] == added;
      }
    case _ =>
  }

  // The two ways the queue can move, seen from the table.
  lemma SeenAfterWrite(seen: map<MessageId, real>, s: State, t: State)
    requires SeenOk(seen, s) && s.queue != []
    requires t.base == s.base && t.issued == s.issued && t.queue == s.queue[1..]
    requires t.committed == Commit(s.committed, s.queue[0], s.now) && forall x :: x in t.calls ==> !x.Purging?
    ensures SeenOk(seen, t)
  {
    var n := Done(s);
    assert s.queue[0] == s.issued[n] && s.queue[0] in s.queue;
    assert t.queue == s.issued[n + 1..];
    assert t.issued[..n + 1] == s.issued[..n] + [s.queue[0]];
    RunTasksSnoc(s.base, s.issued[..n], s.issued[n]);
  }

  lemma SeenAfterPush(seen: map<MessageId, real>, s: State, t: State, added: seq<Task>)
    requires SeenOk(seen, s) && forall x :: x in added ==> !x.PurgeSeen?
    requires t.base == s.base && t.issued == s.issued + added && t.queue == s.queue + added
    requires t.committed == s.committed && forall x :: x in t.calls ==> !x.Purging?
    ensures SeenOk(seen, t)
  {
    assert t.issued[..Done(t)] == s.issued[..Done(s)];
    assert t.issued[Done(t)..] == s.issued[Done(s)..] + added;
  }

  lemma NextSeen(seen: map<MessageId, real>, s: State, e: Event)
    requires SeenOk(seen, s) && !e.Purge?
    ensures SeenOk(seen, Next(s, e))
  {
    hide Next, QueueOk;
    var added := NextAdded(s, e);
    if e.Write? && s.queue != [] {
      SeenAfterWrite(seen, s, Next(s, e));
    } else {
      SeenAfterPush(seen, s, Next(s, e), added);
    }
  }

  lemma {:induction false} RunSeen(seen: map<MessageId, real>, s: State, events: seq<Event>)
    requires SeenOk(seen, s) && NoPurges(events)
    ensures SeenOk(seen, Run(s, events))
    decreases |events|
  {
    hide SeenOk, Next;
    if events != [] {
      NextSeen(seen, s, events[0]);
      RunSeen(seen, Next(s, events[0]), events[1..]);
    }
  }

  lemma SeenIsRecorded(init: State, events: seq<Event>)
    requires Init(init) && NoPurges(events)
    ensures SeenOk(init.committed.seen, Run(init, events))
  {
    InitInv(init);
    RunSeen(init.committed.seen, init, events);
  }

  lemma CheckRejects(t: State, c: Conn, i: Input)
    requires c in t.handlers && t.handlers[c].pc.CheckReplay? && t.handlers[c].pc.p.id in t.committed.seen
    ensures c in Next(t, Advance(c, i)).handlers
            && Next(t, Advance(c, i)).handlers[c].pc == Reply(Error(ReplayDetected))
  {
  }

  // Once a record of the id has committed, every later check of it rejects the frame.
  lemma ReplayRejected(init: State, a: seq<Event>, b: seq<Event>, id: MessageId, c: Conn, i: Input)
    requires Init(init) && NoPurges(a + b)
    requires var s := Run(init, a);
             0 <= Done(s) <= |s.issued| && RecordSeen(id) in s.issued[..Done(s)]
    requires var t := Run(init, a + b);
             c in t.handlers && t.handlers[c].pc.CheckReplay? && t.handlers[c].pc.p.id == id
    ensures var u := Next(Run(init, a + b), Advance(c, i));
            c in u.handlers && u.handlers[c].pc == Reply(Error(ReplayDetected))
  {
    hide Next, Run, Inv;
    var s := Run(init, a);
    var t := Run(init, a + b);
    RunAppend(init, a, b);
    SeenIsRecorded(init, a + b);
    ReachableInv(init, a);
    RunInv(s, b);
    DoneGrows(s, b);
    assert t.issued[..Done(t)][..Done(s)] == s.issued[..Done(s)];
    assert forall x :: x in t.issued[..Done(t)][..Done(s)] ==> x in t.issued[..Done(t)];
    CheckRejects(t, c, i);
  }

  // ------------------------------------------------------------------
  // How often one id is accepted
  // ------------------------------------------------------------------

  // No handler stands between passing the check and recording the id.
  ghost predicate NoneBetween(s: State, id: MessageId)
  {
    forall c :: c in s.handlers ==> !(s.handlers[c].pc.Record? && s.handlers[c].pc.p.id == id)
  }

  ghost predicate Settled(s: State, id: MessageId)
  {
    id in s.committed.seen && NoneBetween(s, id) && NoPurgeQueued(s)
  }

  lemma AcceptancesSnoc(tasks: seq<Task>, task: Task, id: MessageId)
    ensures Acceptances(tasks + [task], id) == Acceptances(tasks, id) + if task == RecordSeen(id) then 1 else 0
  {
    assert (tasks + [task])[..|tasks|] == tasks;
  }

  lemma AdvanceSettled(s: State, c: Conn, i: Input, id: MessageId)
    requires Settled(s, id) && c in s.handlers
    ensures var t := Perform(s, c, Step(s, c, s.handlers[c], i));
            Settled(t, id) && Acceptances(t.issued, id) == Acceptances(s.issued, id)
  {
    hide Step, Perform;
    var r := Step(s, c, s.handlers[c], i);
    StepEnqueues(s, c, s.handlers[c], i);
    PerformPcs(s, c, r);
    var added := PerformQueue(s, c, r);
    var t := Perform(s, c, r);
    forall x | x in t.handlers
      ensures !(t.handlers[x].pc.Record? && t.handlers[x].pc.p.id == id)
    {
      assert x in s.handlers && !(s.handlers[x].pc.Record? && s.handlers[x].pc.p.id == id);
    }
    if added != [] {
      assert added[0] != RecordSeen(id);
      AcceptancesSnoc(s.issued, added[0], id);
      assert t.issued == s.issued + [added[0]];
    } else {
      assert t.issued == s.issued;
    }
  }

  lemma SidestepAccepts(s: State, e: Event, id: MessageId)
    requires !e.Purge? && !e.Advance? && NoPurgeQueued(s)
    ensures var t := Next(s, e);
            && NoPurgeQueued(t) && Acceptances(t.issued, id) == Acceptances(s.issued, id)
            && (id in s.committed.seen ==> id in t.committed.seen)
  {
    hide Next, Acceptances;
    var added := NextAdded(s, e);
    if added != [] {
      AcceptancesSnoc(s.issued, added[0], id);
      assert added == [added[0]];
    } else {
      assert s.issued + added == s.issued;
    }
    if e.Write? && s.queue != [] {
      assert s.queue[0] in s.queue;
    }
  }

  lemma NextSettled(s: State, e: Event, id: MessageId)
    requires Settled(s, id) && !e.Purge?
    ensures Settled(Next(s, e), id)
    ensures Acceptances(Next(s, e).issued, id) == Acceptances(s.issued, id)
  {
    hide Step, Perform, Acceptances;
    if e.Advance? {
      if e.c in s.handlers {
        AdvanceSettled(s, e.c, e.input, id);
      }
    } else {
      hide Next, NoPurgeQueued;
      SidestepPcs(s, e);
      SidestepAccepts(s, e, id);
    }
  }

  lemma {:induction false} SettledStays(s: State, events: seq<Event>, id: MessageId)
    requires Settled(s, id) && NoPurges(events)
    ensures Settled(Run(s, events), id)
    ensures Acceptances(Run(s, events).issued, id) == Acceptances(s.issued, id)
    decreases |events|
  {
    hide Settled, Next;
    if events != [] {
      NextSettled(s, events[0], id);
      SettledStays(Next(s, events[0]), events[1..], id);
    }
  }

  // If the id was accepted and the queue has drained with no handler between check and record, no
  // interleaving ever accepts it again.
  lemma DrainedQueueEndsAcceptance(init: State, a: seq<Event>, b: seq<Event>, id: MessageId)
    requires Init(init) && NoPurges(a + b)
    requires var s := Run(init, a);
             s.queue == [] && RecordSeen(id) in s.issued && NoneBetween(s, id)
    ensures Acceptances(Run(init, a + b).issued, id) == Acceptances(Run(init, a).issued, id)
  {
    var s := Run(init, a);
    RunAppend(init, a, b);
    assert NoPurges(a) && NoPurges(b) by {
      assert forall e :: e in a ==> e in a + b;
      assert forall e :: e in b ==> e in a + b;
    }
    SeenIsRecorded(init, a);
    assert s.issued[..Done(s)] == s.issued;
    SettledStays(s, b, id);
  }

  // ------------------------------------------------------------------
  // At most once
  // ------------------------------------------------------------------

  predicate Holding(pc: PC, id: MessageId)
  {
    (pc.CheckReplay? || pc.Record?) && pc.p.id == id
  }

  ghost predicate NoneHolding(s: State, id: MessageId)
  {
    forall c :: c in s.handlers ==> !Holding(s.handlers[c].pc, id)
  }

  ghost predicate OneHolding(s: State, id: MessageId)
  {
    forall c, d :: c in s.handlers && d in s.handlers && Holding(s.handlers[c].pc, id) && Holding(s.handlers[d].pc, id)
                   ==> c == d
  }

  // The queue drains between frames with this id: when one reaches a message loop, every earlier one
  // has been refused or its record has left the queue.
  ghost predicate Apart(s: State, e: Event, id: MessageId)
  {
    match e
    case Advance(c, Arrives(Body(Valid(p)))) =>
      c in s.handlers && s.handlers[c].pc == Loop && p.id == id ==> NoneHolding(s, id) && RecordSeen(id) !in s.queue
    case _ => true
  }

  ghost predicate AllApart(s: State, events: seq<Event>, id: MessageId)
    decreases |events|
  {
    events != [] ==> Apart(s, events[0], id) && AllApart(Next(s, events[0]), events[1..], id)
  }

  // Not accepted so far, with at most one handler on its way; or accepted once, and nobody on its way
  // but those the table will turn back.
  ghost predicate OnceOk(s: State, id: MessageId)
  {
    || (Acceptances(s.issued, id) == 0 && OneHolding(s, id))
    || (Acceptances(s.issued, id) == 1 && (NoneHolding(s, id) || (id in s.committed.seen && NoneBetween(s, id))))
  }

  lemma {:induction false} AcceptedIsIssued(tasks: seq<Task>, id: MessageId)
    ensures Acceptances(tasks, id) > 0 <==> RecordSeen(id) in tasks
  {
    if tasks != [] {
      var front := tasks[..|tasks| - 1];
      AcceptedIsIssued(front, id);
      assert tasks == front + [tasks[|tasks| - 1]];
    }
  }

  // An accepted id whose record has left the queue is in the table.
  lemma LeftTheQueue(seen: map<MessageId, real>, s: State, id: MessageId)
    requires SeenOk(seen, s) && Acceptances(s.issued, id) > 0 && RecordSeen(id) !in s.queue
    ensures id in s.committed.seen
  {
    AcceptedIsIssued(s.issued, id);
    assert s.issued == s.issued[..Done(s)] + s.queue;
  }

  lemma AdvanceOnce(seen: map<MessageId, real>, s: State, c: Conn, i: Input, id: MessageId)
    requires SeenOk(seen, s) && OnceOk(s, id) && c in s.handlers && Apart(s, Advance(c, i), id)
    ensures OnceOk(Perform(s, c, Step(s, c, s.handlers[c], i)), id)
  {
    hide Step, Perform, SeenOk, Acceptances;
    var h := s.handlers[c];
    var r := Step(s, c, h, i);
    var t := Perform(s, c, r);
    StepEnqueues(s, c, h, i);
    PerformPcs(s, c, r);
    var added := PerformQueue(s, c, r);
    if added != [] {
      AcceptancesSnoc(s.issued, added[0], id);
      assert t.issued == s.issued + [added[0]];
    } else {
      assert t.issued == s.issued;
    }
    if r.0.pc.CheckReplay? && r.0.pc.p.id == id && Acceptances(s.issued, id) == 1 {
      LeftTheQueue(seen, s, id);
    }
  }

  lemma SidestepOnce(s: State, t: State, id: MessageId)
    requires OnceOk(s, id) && Acceptances(t.issued, id) == Acceptances(s.issued, id)
    requires id in s.committed.seen ==> id in t.committed.seen
    requires forall x :: x in t.handlers ==>
               if x in s.handlers then t.handlers[x] == s.handlers[x] else t.handlers[x].pc.AwaitAuth?
    ensures OnceOk(t, id)
  {
    hide Acceptances;
  }

  lemma NextOnce(seen: map<MessageId, real>, s: State, e: Event, id: MessageId)
    requires SeenOk(seen, s) && OnceOk(s, id) && !e.Purge? && Apart(s, e, id)
    ensures OnceOk(Next(s, e), id)
  {
    hide Step, Perform, Acceptances, OnceOk, QueueOk, NoPurgeQueued;
    if e.Advance? {
      if e.c in s.handlers {
        AdvanceOnce(seen, s, e.c, e.input, id);
      }
    } else {
      hide Next;
      SidestepPcs(s, e);
      SidestepAccepts(s, e, id);
      SidestepOnce(s, Next(s, e), id);
    }
  }

  lemma {:induction false} RunOnce(seen: map<MessageId, real>, s: State, events: seq<Event>, id: MessageId)
    requires SeenOk(seen, s) && OnceOk(s, id) && NoPurges(events) && AllApart(s, events, id)
    ensures OnceOk(Run(s, events), id)
    decreases |events|
  {
    hide SeenOk, OnceOk, Apart, Next;
    if events != [] {
      NextOnce(seen, s, events[0], id);
      NextSeen(seen, s, events[0]);
      RunOnce(seen, Next(s, events[0]), events[1..], id);
    }
  }

  // If the queue drains between frames that carry the same id, the id is accepted at most once,
  // whatever else is interleaved.
  lemma AcceptedAtMostOnce(init: State, events: seq<Event>, id: MessageId)
    requires Init(init) && NoPurges(events) && AllApart(init, events, id)
    ensures Acceptances(Run(init, events).issued, id) <= 1
  {
    InitInv(init);
    RunOnce(init.committed.seen, init, events, id);
  }

  // ------------------------------------------------------------------
  // The race, exactly
  // ------------------------------------------------------------------

  // The state after k writer steps, for one id.
  ghost predicate Written(s: State, t: State, n: nat, id: MessageId)
    requires n <= |s.queue|
  {
    && t.handlers == s.handlers && t.now == s.now && t.router == s.router && t.issued == s.issued
    && t.calls == s.calls
    && t.queue == s.queue[n..]
    && (id in t.committed.seen && id !in s.committed.seen ==> t.committed.seen[id] == s.now)
    && (id in s.committed.seen ==> id in t.committed.seen && t.committed.seen[id] == s.committed.seen[id])
    && (id in t.committed.seen <==> id in s.committed.seen || RecordSeen(id) in s.queue[..n])
  }

  lemma WrittenOne(s: State, id: MessageId)
    requires NoPurgeQueued(s) && s.queue != []
    ensures Written(s, Next(s, Write), 1, id) && NoPurgeQueued(Next(s, Write))
  {
    assert s.queue[0] in s.queue;
    assert s.queue[..1] == [s.queue[0]];
  }

  lemma WrittenMore(s: State, t: State, u: State, n: nat, id: MessageId)
    requires 1 <= |s.queue| && t.queue == s.queue[1..] && n <= |t.queue|
    requires Written(s, t, 1, id) && Written(t, u, n, id)
    ensures Written(s, u, n + 1, id)
  {
    assert s.queue[..n + 1] == s.queue[..1] + t.queue[..n];
    assert s.queue[n + 1..] == t.queue[n..];
  }

  lemma {:induction false} RunWrites(s: State, k: nat, id: MessageId)
    requires NoPurgeQueued(s)
    ensures Written(s, Run(s, Writes(k)), Least(k, |s.queue|), id)
    decreases k
  {
    hide Next, Run, Written, NoPurgeQueued;
    if k == 0 {
      WrittenNone(s, id);
    } else {
      RunCons(s, Write, Writes(k - 1));
      if s.queue == [] {
        WriteNothing(s);
        RunWrites(s, k - 1, id);
      } else {
        var t := Next(s, Write);
        WriteTakesHead(s);
        WrittenOne(s, id);
        RunWrites(t, k - 1, id);
        WrittenMore(s, t, Run(t, Writes(k - 1)), Least(k - 1, |t.queue|), id);
      }
    }
  }

  lemma WrittenNone(s: State, id: MessageId)
    ensures Written(s, Run(s, Writes(0)), 0, id)
  {
    assert s.queue[..0] == [] && s.queue[0..] == s.queue;
  }

  function Copy(c: Conn, p: Payload): seq<Event>
  {
    [Advance(c, Arrives(Body(Valid(p)))), Advance(c, Go)]
  }

  lemma MidwayAt(u: State, c: Conn, p: Payload)
    requires c in u.handlers
    ensures forall pc: PC :: c in Midway(u, c, p, pc, []).handlers && Midway(u, c, p, pc, []).handlers[c].pc == pc
  {
  }

  // After k writer steps a copy of the frame reaches the check, which passes unless the record is in.
  lemma CopyAfterWrites(t: State, c: Conn, p: Payload, k: nat)
    requires Ready(t, c, p) && NoPurgeQueued(t)
    ensures var u := Run(t, Writes(k) + Copy(c, p));
            var n := Least(k, |t.queue|);
            c in u.handlers
            && u.handlers[c].pc == if p.id in t.committed.seen || RecordSeen(p.id) in t.queue[..n]
                                   then Reply(Error(ReplayDetected)) else Record(p)
  {
    hide Next, Run, Midway;
    RunAppend(t, Writes(k), Copy(c, p));
    RunWrites(t, k, p.id);
    MidwayAt(Run(t, Writes(k)), c, p);
    ServeHead(Run(t, Writes(k)), c, p);
  }

  lemma RecordPosition(queue: seq<Task>, tasks: seq<Task>, id: MessageId, k: nat)
    requires RecordSeen(id) !in queue && tasks != [] && tasks[0] == RecordSeen(id)
    ensures var n := Least(k, |queue + tasks|);
            RecordSeen(id) in (queue + tasks)[..n] <==> k > |queue|
  {
    var n := Least(k, |queue + tasks|);
    if k > |queue| {
      assert (queue + tasks)[..n][|queue|] == RecordSeen(id);
    } else {
      assert (queue + tasks)[..n] == queue[..n];
      assert forall x :: x in queue[..n] ==> x in queue;
    }
  }

  // A client sends the same fresh chat frame twice in a row. The second copy passes the check if
  // and only if the writer has not yet reached the first copy's record: that is, if it has
  // executed at most the tasks that were queued before it.
  lemma ReplayRace(s: State, c: Conn, p: Payload, ok: bool, k: nat)
    requires Ready(s, c, p) && NoPurgeQueued(s)
    requires p.id !in s.committed.seen && RecordSeen(p.id) !in s.queue
    ensures var first := ServeEvents(c, p, PathOf(s.committed.seen, s.router, p, ok));
            var t := Run(s, first + (Writes(k) + Copy(c, p)));
            c in t.handlers
            && (t.handlers[c].pc == Record(p) <==> k <= |s.queue|)
            && (t.handlers[c].pc == Reply(Error(ReplayDetected)) <==> k > |s.queue|)
  {
    hide Next, Run, Served;
    var path := PathOf(s.committed.seen, s.router, p, ok);
    RunAppend(s, ServeEvents(c, p, path), Writes(k) + Copy(c, p));
    ServeRun(s, c, p, ok);
    ServedShape(s, c, p, path);
    CopyAfterWrites(Served(s, c, p, path), c, p, k);
    RecordPosition(s.queue, ServeTasks(p, path), p.id, k);
  }

  lemma ServedShape(s: State, c: Conn, p: Payload, path: Path)
    requires Ready(s, c, p)
    ensures var t := Served(s, c, p, path);
            && Ready(t, c, p) && t.queue == s.queue + ServeTasks(p, path) && t.issued == s.issued + ServeTasks(p, path)
            && t.committed == s.committed && t.router == s.router && t.now == s.now && t.calls == s.calls
            && (!path.Replayed? ==> ServeTasks(p, path)[0] == RecordSeen(p.id))
            && (forall x :: x in ServeTasks(p, path) ==> !x.PurgeSeen?)
  {
  }
}
