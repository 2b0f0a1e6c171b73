// Every event keeps the invariant, so it holds in every reachable state.

module Preservation {
  import opened Bytes
  import opened Store
  import opened Protocol
  import opened Server
  import opened Invariants

  // What one handler step must respect for the others to be undisturbed.
  ghost predicate Sound(s: State, c: Conn, r: (Handler, Effect))
    requires c in s.handlers
  {
    var h := s.handlers[c];
    var t := Perform(s, c, r);
    && HandlerGrows(h, r.0)
    && r.0.out == h.out
    && (Gone(r.0.pc) ==> Gone(h.pc) || r.0.claim.None? || r.1 == Drop(r.0.claim.value.user))
    && match r.1
       case Quiet => true
       case Enqueue(task) => TaskOk(t, |s.issued|)
       case Send(to, w) =>
         && to in s.handlers && w.key == s.handlers[to].key && FrameOk(t, w.frame)
         && (to == c || s.handlers[to].authed)
       case Join(u) => r.0.authed && r.0.claim.Some? && r.0.claim.value.user == u && !Gone(r.0.pc)
       case Drop(_) => true
  }

  lemma PerformGrows(s: State, c: Conn, r: (Handler, Effect))
    requires c in s.handlers && HandlerGrows(s.handlers[c], r.0)
    ensures Grows(s, Perform(s, c, r))
  {
    hide Keeps;
    GrowsReflexive(s);
  }

  lemma PushQueue(s: State, task: Task)
    requires QueueOk(s)
    ensures QueueOk(Push(s, task)) && Done(Push(s, task)) == Done(s)
  {
    var t := Push(s, task);
    assert t.issued[Done(s)..] == s.issued[Done(s)..] + [task];
    assert t.issued[..Done(s)] == s.issued[..Done(s)];
  }

  lemma PerformQueueAndTasks(s: State, c: Conn, r: (Handler, Effect))
    requires Inv(s) && c in s.handlers && Sound(s, c, r)
    ensures QueueOk(Perform(s, c, r)) && TasksOk(Perform(s, c, r))
  {
    var t := Perform(s, c, r);
    PerformGrows(s, c, r);
    var mid := s.(handlers := s.handlers[c := r.0]);
    if r.1.Enqueue? {
      assert QueueOk(mid);
      PushQueue(mid, r.1.task);
    }
    forall i | 0 <= i < |t.issued|
      ensures TaskOk(t, i)
    {
      if i < |s.issued| {
        assert TaskOk(s, i);
        KeepsTask(s, t, i);
      }
    }
  }

  lemma PerformRouter(s: State, c: Conn, r: (Handler, Effect))
    requires Inv(s) && c in s.handlers && Sound(s, c, r)
    ensures RouterOk(Perform(s, c, r))
  {
    hide TasksOk, HandlersOk, QueueOk, TaskOk, FrameOk, Keeps;
    var t := Perform(s, c, r);
    PerformGrows(s, c, r);
    forall u | u in t.router
      ensures EntryOk(t, u)
    {
      if !(r.1.Join? && r.1.user == u) {
        assert u in s.router && t.router[u] == s.router[u];
        var x := s.router[u].conn;
        assert EntryOk(s, u);
        assert HandlerGrows(s.handlers[x], t.handlers[x]);
      }
    }
  }

  // One more wire that belongs on the connection.
  lemma WiresSnoc(t: State, key: Key, out: seq<Wire>, w: Wire)
    requires forall k {:trigger WireOk(t, key, out[k])} :: 0 <= k < |out| ==> WireOk(t, key, out[k])
    requires WireOk(t, key, w)
    ensures var more := out + [w];
            forall k {:trigger WireOk(t, key, more[k])} :: 0 <= k < |more| ==> WireOk(t, key, more[k])
  {
    hide WireOk;
    forall k | 0 <= k < |out + [w]|
      ensures WireOk(t, key, (out + [w])[k])
    {
      assert k < |out| ==> WireOk(t, key, out[k]) && (out + [w])[k] == out[k];
    }
  }

  lemma PerformOthers(s: State, c: Conn, r: (Handler, Effect), x: Conn)
    requires Inv(s) && c in s.handlers && Sound(s, c, r) && x in s.handlers && x != c
    ensures PcOk(Perform(s, c, r), x, Perform(s, c, r).handlers[x])
    ensures OutOk(Perform(s, c, r), Perform(s, c, r).handlers[x])
  {
    hide TasksOk, RouterOk, QueueOk, TaskOk, Keeps;
    var t := Perform(s, c, r);
    PerformGrows(s, c, r);
    var h := s.handlers[x];
    assert HandlerOk(s, x);
    KeepsPc(s, t, x, h);
    KeepsOut(s, t, h);
    if r.1.Send? && r.1.to == x {
      var g := t.handlers[x];
      assert g.out == h.out + [r.1.wire];
      KeepsPcOut(t, x, h, g);
      WiresSnoc(t, h.key, h.out, r.1.wire);
    }
  }

  lemma PerformInv(s: State, c: Conn, r: (Handler, Effect))
    requires Inv(s) && c in s.handlers && Sound(s, c, r)
    requires PcOk(Perform(s, c, r), c, Perform(s, c, r).handlers[c])
    requires OutOk(Perform(s, c, r), Perform(s, c, r).handlers[c])
    ensures Inv(Perform(s, c, r)) && Grows(s, Perform(s, c, r))
  {
    var t := Perform(s, c, r);
    PerformGrows(s, c, r);
    PerformQueueAndTasks(s, c, r);
    PerformRouter(s, c, r);
    forall x | x in t.handlers
      ensures HandlerOk(t, x)
    {
      if x != c {
        PerformOthers(s, c, r, x);
      }
    }
  }

  // What a step has to establish about itself.
  ghost predicate StepOk(s: State, c: Conn, r: (Handler, Effect))
    requires c in s.handlers
  {
    var t := Perform(s, c, r);
    Sound(s, c, r) && PcOk(t, c, t.handlers[c]) && OutOk(t, t.handlers[c])
  }

  // ------------------------------------------------------------------
  // Small cases shared by the steps
  // ------------------------------------------------------------------

  // Moving to another point without a shared write.
  lemma QuietOk(s: State, c: Conn, h: Handler)
    requires Inv(s) && c in s.handlers
    requires HandlerGrows(s.handlers[c], h) && h.out == s.handlers[c].out && h.authed == s.handlers[c].authed
    requires Gone(h.pc) ==> Gone(s.handlers[c].pc) || h.claim.None?
    requires PcOk(s, c, h)
    ensures StepOk(s, c, (h, Quiet))
  {
    var t := Perform(s, c, (h, Quiet));
    PerformGrows(s, c, (h, Quiet));
    assert HandlerOk(s, c);
    KeepsPc(s, t, c, h);
    KeepsOut(s, t, s.handlers[c]);
    assert forall k :: 0 <= k < |h.out| ==> WireOk(t, s.handlers[c].key, s.handlers[c].out[k]);
  }

  // Enqueueing a task whose obligations already hold.
  lemma QueuedOk(s: State, c: Conn, h: Handler, task: Task)
    requires Inv(s) && c in s.handlers
    requires HandlerGrows(s.handlers[c], h) && h.out == s.handlers[c].out && h.authed == s.handlers[c].authed
    requires !Gone(h.pc)
    requires var t := Perform(s, c, (h, Enqueue(task))); TaskOk(t, |s.issued|) && PcOk(t, c, h)
    ensures StepOk(s, c, (h, Enqueue(task)))
  {
    var t := Perform(s, c, (h, Enqueue(task)));
    PerformGrows(s, c, (h, Enqueue(task)));
    assert HandlerOk(s, c);
    KeepsOut(s, t, s.handlers[c]);
    assert forall k :: 0 <= k < |h.out| ==> WireOk(t, s.handlers[c].key, s.handlers[c].out[k]);
  }

  // Where a handler stands after a frame was placed on its own connection.
  lemma OwnPlace(s: State, t: State, c: Conn, h: Handler, f: Frame)
    requires Grows(s, t)
    requires PcOk(s, c, h) || (h.pc.MarkDrained? && PcOk(s, c, h.(out := h.out + [Wire(h.key, f)])))
    requires h.authed || h.pc == Leave
    ensures PcOk(t, c, h.(out := h.out + [Wire(h.key, f)]))
  {
    hide Grows, Handed, Taken, FrameOk, Authentic, RouteTo;
    var g := h.(out := h.out + [Wire(h.key, f)]);
    if PcOk(s, c, h) {
      KeepsPc(s, t, c, h);
      if h.authed {
        KeepsPcOut(t, c, h, g);
      }
    } else {
      KeepsPc(s, t, c, g);
    }
  }

  // A handler that answers on its own connection.
  lemma OwnOk(s: State, c: Conn, h: Handler, f: Frame)
    requires Inv(s) && c in s.handlers
    requires HandlerGrows(s.handlers[c], h) && h.out == s.handlers[c].out && !Gone(h.pc)
    requires FrameOk(s, f)
    requires if h.authed && s.handlers[c].authed then true
             else if h.authed then h.out == [] && h.claim.Some? && Authentic(s, h.claim.value)
                                   && h.token.Some? && f == TokenAck(h.claim.value.ref, h.token.value)
             else h.out == [] && f.Error?
    requires PcOk(s, c, h) || (h.pc.MarkDrained? && PcOk(s, c, h.(out := h.out + [Wire(h.key, f)])))
    requires h.authed || h.pc == Leave
    ensures StepOk(s, c, (h, Send(c, Wire(h.key, f))))
  {
    hide TasksOk, RouterOk, QueueOk, TaskOk, PcOk, FrameOk;
    var r := (h, Send(c, Wire(h.key, f)));
    var t := Perform(s, c, r);
    PerformGrows(s, c, r);
    assert HandlerOk(s, c);
    KeepsFrame(s, t, f);
    assert t.handlers[c] == h.(out := h.out + [Wire(h.key, f)]);
    OwnPlace(s, t, c, h, f);
    KeepsOut(s, t, s.handlers[c]);
    WiresSnoc(t, h.key, s.handlers[c].out, Wire(h.key, f));
  }

  // ------------------------------------------------------------------
  // The steps
  // ------------------------------------------------------------------

  lemma OneHandler(s: State, c: Conn)
    requires Inv(s) && c in s.handlers
    ensures HandlerOk(s, c)
  {
  }

  lemma StepLoginOk(s: State, c: Conn, i: Input)
    requires Inv(s) && c in s.handlers
    requires var pc := s.handlers[c].pc; pc.AwaitAuth? || pc.Refuse? || pc.Login? || pc.SendToken?
    ensures StepOk(s, c, StepLogin(s, c, s.handlers[c], i))
  {
    hide StepOk;
    var h := s.handlers[c];
    var r := StepLogin(s, c, h, i);
    assert HandlerOk(s, c);
    match r.1
    case Quiet => QuietOk(s, c, r.0);
    case Send(_, w) => OwnOk(s, c, r.0, w.frame);
  }

  lemma StepIssueOk(s: State, c: Conn, i: Input)
    requires Inv(s) && c in s.handlers && s.handlers[c].pc.Issue?
    ensures StepOk(s, c, StepLogin(s, c, s.handlers[c], i))
  {
    var h := s.handlers[c];
    var r := StepLogin(s, c, h, i);
    assert HandlerOk(s, c);
    if r.1.Enqueue? {
      var t := Perform(s, c, r);
      assert t.handlers[c] == r.0 && Authentic(t, r.0.claim.value);
      assert IssuedTo(t, r.1.task.token, r.1.task.user);
      assert t.issued[..|s.issued|] == s.issued;
      assert s.issued == s.issued[..Done(s)] + s.issued[Done(s)..];
      RunTasksAppend(s.base, s.issued[..Done(s)], s.issued[Done(s)..]);
      RunTasksKeeps(s.committed.store, s.issued[Done(s)..]);
      assert TaskOk(t, |s.issued|);
      QueuedOk(s, c, r.0, r.1.task);
    } else {
      QuietOk(s, c, r.0);
    }
  }

  // A row read from the committed tables was enqueued earlier in this run, or predates it.
  lemma CommittedRow(s: State, id: MessageId)
    requires Inv(s) && id in s.committed.store.messages
    ensures Stored(s, id, s.committed.store.messages[id].msg)
    ensures InsertAhead(s, |s.issued|, id)
  {
    var ran := s.issued[..Done(s)];
    MessageOrigin(s.base, ran, id);
    if id !in s.base.messages {
      assert InsertMessage(id, s.committed.store.messages[id].msg) in ran;
      var j :| 0 <= j < |ran| && ran[j] == InsertMessage(id, s.committed.store.messages[id].msg);
      assert s.issued[j] == ran[j];
    } else {
      assert forall x :: x in ran ==> x in s.issued;
    }
  }

  lemma StepEnterOk(s: State, c: Conn, i: Input)
    requires Inv(s) && c in s.handlers && s.handlers[c].pc.Enter? && s.handlers[c].claim.Some?
    ensures StepOk(s, c, StepDrain(s, c, s.handlers[c], i))
  {
    hide TasksOk, RouterOk, QueueOk, TaskOk, Keeps, Stored;
    var h := s.handlers[c];
    var r := StepDrain(s, c, h, i);
    assert HandlerOk(s, c);
    var t := Perform(s, c, r);
    PerformGrows(s, c, r);
    KeepsOut(s, t, h);
    assert forall k :: 0 <= k < |h.out| ==> WireOk(t, h.key, h.out[k]);
  }

  lemma StepDeliverOk(s: State, c: Conn, i: Input)
    requires Inv(s) && c in s.handlers && s.handlers[c].pc.Drain? && s.handlers[c].pc.rest != [] && i == Sends(true)
    ensures StepOk(s, c, StepDrain(s, c, s.handlers[c], i))
  {
    hide StepOk;
    var h := s.handlers[c];
    var r := StepDrain(s, c, h, i);
    assert HandlerOk(s, c);
    var first := h.pc.rest[0];
    var w := r.1.wire;
    assert PendingOk(s, h.claim.value.user, first);
    CommittedRow(s, first.id);
    var g := r.0.(out := h.out + [w]);
    assert g.out[|h.out|].frame == Chat(PayloadOf(first.id, first.msg));
    assert Chatted(g.out, PayloadOf(first.id, first.msg));
    assert MessageOf(PayloadOf(first.id, first.msg)) == first.msg;
    assert PcOk(s, c, g);
    OwnOk(s, c, r.0, w.frame);
  }

  lemma StepDrainOk(s: State, c: Conn, i: Input)
    requires Inv(s) && c in s.handlers
    requires var pc := s.handlers[c].pc; pc.Enter? || pc.ReadPending? || pc.Drain?
    ensures StepOk(s, c, StepDrain(s, c, s.handlers[c], i))
  {
    hide StepOk;
    var h := s.handlers[c];
    assert HandlerOk(s, c);
    if h.pc.Enter? && h.claim.Some? {
      StepEnterOk(s, c, i);
    } else if h.pc.Drain? && h.pc.rest != [] && i == Sends(true) {
      StepDeliverOk(s, c, i);
    } else {
      var g := StepDrain(s, c, h, i).0;
      if h.pc.ReadPending? && g.pc.Drain? {
        forall k | 0 <= k < |i.rows|
          ensures PendingOk(s, h.claim.value.user, i.rows[k])
        {
          assert PendingRow(s.committed.store.messages, h.claim.value.user, i.rows[k]);
        }
      }
      QuietOk(s, c, g);
    }
  }

  lemma StepMarkDrainedOk(s: State, c: Conn, i: Input)
    requires Inv(s) && c in s.handlers && s.handlers[c].pc.MarkDrained?
    ensures StepOk(s, c, StepDrain(s, c, s.handlers[c], i))
  {
    var h := s.handlers[c];
    var r := StepDrain(s, c, h, i);
    assert HandlerOk(s, c);
    var rest := h.pc.rest;
    var first := rest[0];
    var t := Perform(s, c, r);
    PerformGrows(s, c, r);
    assert PendingOk(s, h.claim.value.user, first);
    CommittedRow(s, first.id);
    assert HandedOn(s, c, first.id, first.msg);
    assert Justified(s, first.id);
    KeepsJustified(s, t, first.id);
    assert InsertAhead(t, |s.issued|, first.id) by {
      if first.id !in s.base.messages {
        var j :| 0 <= j < |s.issued| && s.issued[j].InsertMessage? && s.issued[j].id == first.id;
        assert t.issued[j] == s.issued[j];
      }
    }
    assert t.issued[|s.issued|] == r.1.task;
    forall k | 0 <= k < |rest[1..]|
      ensures PendingOk(t, h.claim.value.user, rest[1..][k])
    {
      assert PendingOk(s, h.claim.value.user, rest[k + 1]);
    }
    QueuedOk(s, c, r.0, r.1.task);
  }

  // An id taken in by this handler has its insert ahead of whatever is enqueued next.
  lemma TakenAhead(s: State, t: State, p: Payload)
    requires Grows(s, t) && InsertMessage(p.id, MessageOf(p)) in s.issued
    ensures InsertAhead(t, |s.issued|, p.id)
  {
    var j :| 0 <= j < |s.issued| && s.issued[j] == InsertMessage(p.id, MessageOf(p));
    assert t.issued[j] == s.issued[j];
  }

  lemma StepRecordOk(s: State, c: Conn, i: Input)
    requires Inv(s) && c in s.handlers && (s.handlers[c].pc.Record? || s.handlers[c].pc.Persist?)
    ensures StepOk(s, c, StepMessage(s, c, s.handlers[c], i))
  {
    hide StepOk;
    var h := s.handlers[c];
    var r := StepMessage(s, c, h, i);
    assert HandlerOk(s, c);
    var t := Perform(s, c, r);
    assert t.issued == s.issued + [r.1.task];
    assert t.issued[|s.issued|] == r.1.task;
    QueuedOk(s, c, r.0, r.1.task);
  }

  // The update of a message that is justified, with its insert enqueued, may be enqueued.
  lemma MarkTaskOk(s: State, t: State, p: Payload)
    requires Grows(s, t) && t.issued == s.issued + [UpdateDelivery(p.id, Delivered)]
    requires InsertMessage(p.id, MessageOf(p)) in s.issued
    requires p.to == "server" || Handed(s, p.id, MessageOf(p))
    ensures TaskOk(t, |s.issued|)
  {
    TakenAhead(s, t, p);
    assert Stored(s, p.id, MessageOf(p));
    assert Justified(s, p.id);
    KeepsJustified(s, t, p.id);
    assert t.issued[|s.issued|] == UpdateDelivery(p.id, Delivered);
  }

  lemma StepMarkServerOk(s: State, c: Conn, i: Input)
    requires Inv(s) && c in s.handlers && s.handlers[c].pc.MarkServer?
    ensures StepOk(s, c, StepMessage(s, c, s.handlers[c], i))
  {
    hide StepOk, Inv, TaskOk, OutOk;
    OneHandler(s, c);
    var p := s.handlers[c].pc.p;
    var r := StepMessage(s, c, s.handlers[c], i);
    var t := Perform(s, c, r);
    PerformGrows(s, c, r);
    MarkTaskOk(s, t, p);
    assert t.issued[|s.issued|] == UpdateDelivery(p.id, Delivered);
    assert PcOk(t, c, r.0) by {
      assert forall x :: x in s.issued ==> x in t.issued;
    }
    QueuedOk(s, c, r.0, r.1.task);
  }

  lemma StepMarkForwardedOk(s: State, c: Conn, i: Input)
    requires Inv(s) && c in s.handlers && s.handlers[c].pc.MarkForwarded?
    ensures StepOk(s, c, StepMessage(s, c, s.handlers[c], i))
  {
    hide StepOk, Inv, TaskOk, OutOk, Handed;
    OneHandler(s, c);
    var p := s.handlers[c].pc.p;
    var r := StepMessage(s, c, s.handlers[c], i);
    var t := Perform(s, c, r);
    PerformGrows(s, c, r);
    MarkTaskOk(s, t, p);
    assert t.issued[|s.issued|] == UpdateDelivery(p.id, Delivered);
    assert PcOk(t, c, r.0) by {
      assert forall x :: x in s.issued ==> x in t.issued;
    }
    QueuedOk(s, c, r.0, r.1.task);
  }

  // The state after a forward: the recipient's connection has the payload.
  lemma ForwardHands(s: State, t: State, c: Conn, h: Handler, p: Payload, route: Route)
    requires RouteTo(s, p.to, route) && c in s.handlers
    requires h == s.handlers[c].(pc := MarkForwarded(p)) && p.kind == ChatType
    requires t == Place(s.(handlers := s.handlers[c := h]), route.conn, Wire(route.key, Chat(p)))
    ensures Handed(t, p.id, MessageOf(p))
  {
    var x := route.conn;
    var out := s.handlers[x].out;
    assert t.handlers[x].out == out + [Wire(route.key, Chat(p))];
    assert t.handlers[x].out[|out|].frame == Chat(p);
    assert PayloadOf(p.id, MessageOf(p)) == p;
    assert HandedOn(t, x, p.id, MessageOf(p));
  }

  lemma StepForwardOk(s: State, c: Conn, i: Input)
    requires Inv(s) && c in s.handlers && s.handlers[c].pc.Forward?
    ensures StepOk(s, c, StepMessage(s, c, s.handlers[c], i))
  {
    hide StepOk;
    var h := s.handlers[c];
    assert HandlerOk(s, c);
    if i == Sends(true) {
      StepForwardSendOk(s, c);
    } else {
      QuietOk(s, c, StepMessage(s, c, h, i).0);
    }
  }

  lemma ForwardShape(s: State, c: Conn, h: Handler)
    requires h.pc.Forward?
    ensures StepMessage(s, c, h, Sends(true))
            == (h.(pc := MarkForwarded(h.pc.p)), Send(h.pc.route.conn, Wire(h.pc.route.key, Chat(h.pc.p))))
  {
  }

  lemma StepForwardSendOk(s: State, c: Conn)
    requires Inv(s) && c in s.handlers && s.handlers[c].pc.Forward?
    ensures StepOk(s, c, StepMessage(s, c, s.handlers[c], Sends(true)))
  {
    hide StepMessage, Inv, Handed, FrameOk, TaskOk, Keeps;
    var h := s.handlers[c];
    var r := StepMessage(s, c, h, Sends(true));
    ForwardShape(s, c, h);
    assert HandlerOk(s, c) by {
      OneHandler(s, c);
    }
    var p, route := h.pc.p, h.pc.route;
    var t := Perform(s, c, r);
    PerformGrows(s, c, r);
    ForwardHands(s, t, c, r.0, p, route);
    StoredFromInsert(s, p);
    KeepsFrame(s, t, Chat(p));
    assert forall y :: y in s.issued ==> y in t.issued;
    KeepsOut(s, t, h);
    if route.conn == c {
      WiresSnoc(t, h.key, h.out, r.1.wire);
    }
  }

  lemma StoredFromInsert(s: State, p: Payload)
    requires InsertMessage(p.id, MessageOf(p)) in s.issued && p.kind == ChatType
    ensures FrameOk(s, Chat(p))
  {
  }

  lemma StepCheckOk(s: State, c: Conn, i: Input)
    requires Inv(s) && c in s.handlers
    requires var pc := s.handlers[c].pc; pc.Loop? || pc.CheckReplay? || pc.Lookup?
    ensures StepOk(s, c, StepMessage(s, c, s.handlers[c], i))
  {
    hide StepOk, TaskOk;
    var h := s.handlers[c];
    assert HandlerOk(s, c);
    if h.pc.Lookup? && h.pc.p.to in s.router {
      assert EntryOk(s, h.pc.p.to);
    }
    QuietOk(s, c, StepMessage(s, c, h, i).0);
  }

  lemma StepReplyOk(s: State, c: Conn, i: Input)
    requires Inv(s) && c in s.handlers && (s.handlers[c].pc.Confirm? || s.handlers[c].pc.Reply?)
    ensures StepOk(s, c, StepMessage(s, c, s.handlers[c], i))
  {
    hide StepOk, TaskOk;
    var h := s.handlers[c];
    var r := StepMessage(s, c, h, i);
    assert HandlerOk(s, c);
    if r.1.Send? {
      OwnOk(s, c, r.0, r.1.wire.frame);
    } else {
      QuietOk(s, c, r.0);
    }
  }

  lemma StepLeaveOk(s: State, c: Conn)
    requires Inv(s) && c in s.handlers && s.handlers[c].pc.Leave? && s.handlers[c].claim.Some?
    ensures StepOk(s, c, StepCleanup(s.handlers[c]))
  {
    hide TasksOk, RouterOk, QueueOk, TaskOk, Keeps, FrameOk, Authentic;
    var h := s.handlers[c];
    var r := StepCleanup(h);
    assert HandlerOk(s, c);
    var t := Perform(s, c, r);
    assert t == s.(handlers := s.handlers[c := r.0], router := s.router - {h.claim.value.user});
    PerformGrows(s, c, r);
    KeepsOut(s, t, h);
    assert forall k :: 0 <= k < |h.out| ==> WireOk(t, h.key, h.out[k]);
  }

  lemma StepCleanupOk(s: State, c: Conn)
    requires Inv(s) && c in s.handlers
    requires var pc := s.handlers[c].pc; pc.Leave? || pc.Closing? || pc.Closed? || pc.Crashed?
    ensures StepOk(s, c, StepCleanup(s.handlers[c]))
  {
    hide StepOk;
    var h := s.handlers[c];
    assert HandlerOk(s, c);
    if h.pc.Leave? && h.claim.Some? {
      StepLeaveOk(s, c);
    } else {
      QuietOk(s, c, StepCleanup(h).0);
    }
  }

  lemma AdvanceOk(s: State, c: Conn, i: Input)
    requires Inv(s) && c in s.handlers
    ensures StepOk(s, c, Step(s, c, s.handlers[c], i))
  {
    hide StepOk, Inv, StepLogin, StepDrain, StepMessage, StepCleanup;
    match s.handlers[c].pc
    case AwaitAuth | Refuse(_) | Login | SendToken => StepLoginOk(s, c, i);
    case Issue => StepIssueOk(s, c, i);
    case Enter | ReadPending | Drain(_) => StepDrainOk(s, c, i);
    case MarkDrained(_) => StepMarkDrainedOk(s, c, i);
    case Record(_) | Persist(_) => StepRecordOk(s, c, i);
    case MarkServer(_) => StepMarkServerOk(s, c, i);
    case MarkForwarded(_) => StepMarkForwardedOk(s, c, i);
    case Forward(_, _) => StepForwardOk(s, c, i);
    case Loop | CheckReplay(_) | Lookup(_) => StepCheckOk(s, c, i);
    case Confirm(_) | Reply(_) => StepReplyOk(s, c, i);
    case Leave | Closing | Closed | Crashed => StepCleanupOk(s, c);
  }

  lemma AdvanceInv(s: State, c: Conn, i: Input)
    requires Inv(s) && c in s.handlers
    ensures Inv(Next(s, Advance(c, i))) && Grows(s, Next(s, Advance(c, i)))
  {
    hide Step, Sound, PcOk, OutOk, Inv, Grows, Perform;
    AdvanceOk(s, c, i);
    PerformInv(s, c, Step(s, c, s.handlers[c], i));
  }

  // ------------------------------------------------------------------
  // The other events
  // ------------------------------------------------------------------

  // States with the same handlers and router, and more issued or committed.
  lemma SidestepInv(s: State, t: State)
    requires Inv(s) && Grows(s, t) && t.handlers == s.handlers && t.router == s.router
    requires QueueOk(t) && CallsOk(t) && forall i :: |s.issued| <= i < |t.issued| ==> TaskOk(t, i)
    ensures Inv(t)
  {
    forall i | 0 <= i < |t.issued|
      ensures TaskOk(t, i)
    {
      if i < |s.issued| {
        assert TaskOk(s, i);
        KeepsTask(s, t, i);
      }
    }
    forall u | u in t.router
      ensures EntryOk(t, u)
    {
      assert EntryOk(s, u);
    }
    forall c | c in t.handlers
      ensures HandlerOk(t, c)
    {
      assert HandlerOk(s, c);
      KeepsPc(s, t, c, s.handlers[c]);
      KeepsOut(s, t, s.handlers[c]);
    }
  }

  lemma WriteQueue(s: State)
    requires QueueOk(s) && s.queue != []
    ensures QueueOk(WriterStep(s)) && Done(WriterStep(s)) == Done(s) + 1
    ensures Keeps(s.committed.store, WriterStep(s).committed.store)
  {
    hide Apply, ApplySeen, Keeps;
    var n := Done(s);
    var t := WriterStep(s);
    assert s.queue[0] == s.issued[n];
    assert t.queue == s.issued[n + 1..];
    assert s.issued[..n + 1] == s.issued[..n] + [s.issued[n]];
    RunTasksSnoc(s.base, s.issued[..n], s.issued[n]);
    ApplyKeeps(s.committed.store, s.queue[0]);
  }

  lemma PushInv(s: State, task: Task)
    requires Inv(s) && !task.UpdateDelivery? && !task.InsertSession?
    requires task.InsertUser? ==> task.user !in s.base.users
    ensures Inv(Push(s, task)) && Grows(s, Push(s, task))
  {
    var t := Push(s, task);
    PushQueue(s, task);
    RunTasksKeeps(s.committed.store, []);
    assert TaskOk(t, |s.issued|);
    SidestepInv(s, t);
  }

  lemma ConnectInv(s: State, c: Conn, key: Key)
    requires Inv(s) && c !in s.handlers
    ensures Inv(Next(s, Connect(c, key))) && Grows(s, Next(s, Connect(c, key)))
  {
    var t := Next(s, Connect(c, key));
    RunTasksKeeps(s.committed.store, []);
    forall i | 0 <= i < |t.issued|
      ensures TaskOk(t, i)
    {
      assert TaskOk(s, i);
      KeepsTask(s, t, i);
    }
    forall u | u in t.router
      ensures EntryOk(t, u)
    {
      assert EntryOk(s, u);
    }
    forall x | x in t.handlers
      ensures HandlerOk(t, x)
    {
      if x != c {
        assert HandlerOk(s, x);
        KeepsPc(s, t, x, s.handlers[x]);
        KeepsOut(s, t, s.handlers[x]);
      }
    }
  }

  lemma WriteInv(s: State)
    requires Inv(s)
    ensures Inv(WriterStep(s)) && Grows(s, WriterStep(s))
  {
    hide TasksOk, RouterOk, HandlersOk, Apply, ApplySeen;
    if s.queue != [] {
      WriteQueue(s);
      SidestepInv(s, WriterStep(s));
    } else {
      GrowsReflexive(s);
    }
  }

  // A registration begins only for a name with no committed account; those of the start are committed.
  lemma AsideCalls(s: State, e: Event)
    requires Inv(s) && (e.Tick? || e.Register? || e.CheckSession? || e.Purge?)
    ensures CallsOk(s.(calls := Next(s, e).calls))
  {
    hide TasksOk, RouterOk, HandlersOk, RunTasks;
    RunTasksKeeps(s.base, s.issued[..Done(s)]);
  }

  // Time passes, or calls make their reads.
  lemma AsideInv(s: State, now: real, calls: multiset<Call>)
    requires Inv(s) && now >= s.now && CallsOk(s.(calls := calls))
    ensures var t := s.(now := now, calls := calls); Inv(t) && Grows(s, t)
  {
    hide TasksOk, RouterOk, HandlersOk, Keeps;
    RunTasksKeeps(s.committed.store, []);
    SidestepInv(s, s.(now := now, calls := calls));
  }

  lemma NextInv(s: State, e: Event)
    requires Inv(s)
    ensures Inv(Next(s, e)) && Grows(s, Next(s, e))
  {
    hide Inv, Grows, Perform, Step, Push, WriterStep;
    match e
    case Connect(c, key) =>
      if c !in s.handlers {
        ConnectInv(s, c, key);
      } else {
        GrowsReflexive(s);
      }
    case Tick(t) =>
      AsideCalls(s, e);
      AsideInv(s, if t > s.now then t else s.now, s.calls);
    case Write => WriteInv(s);
    case Advance(c, i) =>
      if c in s.handlers {
        AdvanceInv(s, c, i);
      } else {
        GrowsReflexive(s);
      }
    case Register(_, _, _) =>
      AsideCalls(s, e);
      AsideInv(s, s.now, Next(s, e).calls);
    case CheckSession(_) =>
      AsideCalls(s, e);
      AsideInv(s, s.now, Next(s, e).calls);
    case Purge(_) =>
      AsideCalls(s, e);
      AsideInv(s, s.now, Next(s, e).calls);
    case Logout(token) => PushInv(s, InvalidateSession(token));
    case Finish(call) =>
      if call in s.calls {
        FinishInv(s, call);
      } else {
        GrowsReflexive(s);
      }
  }

  // The second half of a call enqueues its task.
  lemma FinishInv(s: State, call: Call)
    requires Inv(s) && call in s.calls
    ensures Inv(Next(s, Finish(call))) && Grows(s, Next(s, Finish(call)))
  {
    var mid := s.(calls := s.calls - multiset{call});
    RunTasksKeeps(s.committed.store, []);
    SidestepInv(s, mid);
    PushInv(mid, CallTask(call));
  }

  lemma GrowsReflexive(s: State)
    ensures Grows(s, s)
  {
    RunTasksKeeps(s.committed.store, []);
  }

  // ------------------------------------------------------------------
  // Runs
  // ------------------------------------------------------------------

  lemma {:induction false} RunInv(s: State, events: seq<Event>)
    requires Inv(s)
    ensures Inv(Run(s, events)) && Grows(s, Run(s, events))
    decreases |events|
  {
    hide Inv, Grows, Next;
    if events != [] {
      NextInv(s, events[0]);
      RunInv(Next(s, events[0]), events[1..]);
      GrowsTransitive(s, Next(s, events[0]), Run(s, events));
    } else {
      GrowsReflexive(s);
    }
  }

  lemma GrowsTransitive(s: State, t: State, u: State)
    requires Grows(s, t) && Grows(t, u)
    ensures Grows(s, u)
  {
    forall c | c in s.handlers
      ensures c in u.handlers && HandlerGrows(s.handlers[c], u.handlers[c])
    {
      assert HandlerGrows(s.handlers[c], t.handlers[c]) && HandlerGrows(t.handlers[c], u.handlers[c]);
    }
  }

  lemma InitInv(s: State)
    requires Init(s)
    ensures Inv(s)
  {
    assert s.issued[..0] == [];
  }

  // Every state of every run of a started server satisfies the invariant.
  lemma ReachableInv(init: State, events: seq<Event>)
    requires Init(init)
    ensures Inv(Run(init, events)) && Grows(init, Run(init, events))
  {
    InitInv(init);
    RunInv(init, events);
  }

  // ------------------------------------------------------------------
  // What an event does to the queue
  // ------------------------------------------------------------------

  // A writer step takes the oldest task; any other event adds at most one task and commits nothing.
  lemma NextQueue(s: State, e: Event) returns (added: seq<Task>)
    ensures |added| <= 1 && Next(s, e).issued == s.issued + added && Next(s, e).base == s.base
    ensures e.Write? && s.queue != [] ==>
              added == [] && Next(s, e).queue == s.queue[1..]
              && Next(s, e).committed == Commit(s.committed, s.queue[0], s.now)
    ensures !(e.Write? && s.queue != []) ==>
              Next(s, e).queue == s.queue + added && Next(s, e).committed == s.committed
  {
    added := [];
    match e
    case Advance(c, i) =>
      if c in s.handlers {
        added := PerformQueue(s, c, Step(s, c, s.handlers[c], i));
      }
    case Logout(token) => added := [InvalidateSession(token)];
    case Finish(call) => added := if call in s.calls then [CallTask(call)] else [];
    case _ =>
  }

  lemma PerformQueue(s: State, c: Conn, r: (Handler, Effect)) returns (added: seq<Task>)
    requires c in s.handlers
    ensures added == if r.1.Enqueue? then [r.1.task] else []
    ensures var t := Perform(s, c, r);
            t.issued == s.issued + added && t.queue == s.queue + added && t.committed == s.committed && t.base == s.base
  {
    added := if r.1.Enqueue? then [r.1.task] else [];
  }

  // What a handler's step does to where the handlers stand, the calls and the clock.
  lemma PerformElsewhere(s: State, c: Conn, r: (Handler, Effect), x: Conn)
    requires c in s.handlers && x in s.handlers && x != c
    ensures x in Perform(s, c, r).handlers
    ensures Perform(s, c, r).handlers[x]
            == s.handlers[x].(out := s.handlers[x].out + if r.1.Send? && r.1.to == x then [r.1.wire] else [])
  {
  }

  lemma PerformPcs(s: State, c: Conn, r: (Handler, Effect))
    requires c in s.handlers
    ensures var t := Perform(s, c, r);
            t.handlers.Keys == s.handlers.Keys && t.handlers[c].pc == r.0.pc && t.calls == s.calls && t.now == s.now
            && forall x :: x in s.handlers && x != c ==> t.handlers[x].pc == s.handlers[x].pc
  {
  }

  // Events that are no handler's step leave every handler where it stands.
  lemma SidestepPcs(s: State, e: Event)
    requires !e.Advance?
    ensures var t := Next(s, e);
            && s.handlers.Keys <= t.handlers.Keys
            && forall x :: x in t.handlers ==>
                 if x in s.handlers then t.handlers[x] == s.handlers[x] else t.handlers[x].pc.AwaitAuth?
  {
  }

  lemma {:induction false} DoneGrows(s: State, events: seq<Event>)
    ensures Done(s) <= Done(Run(s, events))
    decreases |events|
  {
    if events != [] {
      var _ := NextQueue(s, events[0]);
      DoneGrows(Next(s, events[0]), events[1..]);
    }
  }
}
