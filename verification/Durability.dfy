// What an acknowledgement is worth: the delayed writer loses nothing that was accepted.

module Durability {
  import opened Bytes
  import opened Store
  import opened Protocol
  import opened Server
  import opened Invariants
  import opened Preservation

  // ------------------------------------------------------------------
  // The writer refines running every task at once, in enqueue order
  // ------------------------------------------------------------------

  lemma EventualIsIssued(s: State)
    requires QueueOk(s)
    ensures Eventual(s) == RunTasks(s.base, s.issued)
  {
    assert s.issued == s.issued[..Done(s)] + s.issued[Done(s)..];
    RunTasksAppend(s.base, s.issued[..Done(s)], s.issued[Done(s)..]);
  }

  // A writer step leaves the eventual store alone; any other event adds exactly the task it enqueues.
  lemma EventualStep(s: State, e: Event)
    requires QueueOk(s)
    ensures var t := Next(s, e);
            && s.issued <= t.issued && |t.issued| <= |s.issued| + 1
            && (e.Write? ==> t.issued == s.issued)
            && Eventual(t) == RunTasks(Eventual(s), t.issued[|s.issued|..])
  {
    var t := Next(s, e);
    var added := NextQueue(s, e);
    assert t.issued[|s.issued|..] == added;
    if e.Write? && s.queue != [] {
      RunTasksHead(s.committed.store, s.queue);
    } else {
      RunTasksAppend(s.committed.store, s.queue, added);
    }
  }

  // In every reachable state the committed store is a prefix of the issued tasks run in order, the
  // queue is the rest, and the eventual store is all of them: no schedule of the writer matters.
  lemma WriterRefinement(init: State, events: seq<Event>)
    requires Init(init)
    ensures var s := Run(init, events);
            && 0 <= Done(s) <= |s.issued|
            && s.queue == s.issued[Done(s)..]
            && s.committed.store == RunTasks(init.base, s.issued[..Done(s)])
            && Eventual(s) == RunTasks(init.base, s.issued)
  {
    ReachableInv(init, events);
    EventualIsIssued(Run(init, events));
  }

  // Two runs that enqueue the same tasks in the same order end in the same store once their queues drain.
  lemma ScheduleIndependence(init: State, a: seq<Event>, b: seq<Event>)
    requires Init(init)
    requires Run(init, a).issued == Run(init, b).issued
    requires Run(init, a).queue == [] && Run(init, b).queue == []
    ensures Run(init, a).committed.store == Run(init, b).committed.store
  {
    ReachableInv(init, a);
    ReachableInv(init, b);
    assert Run(init, a).issued[..Done(Run(init, a))] == Run(init, a).issued;
    assert Run(init, b).issued[..Done(Run(init, b))] == Run(init, b).issued;
  }

  // ------------------------------------------------------------------
  // Queue dependencies
  // ------------------------------------------------------------------

  lemma IssuedOnlyDelivers(s: State)
    requires Inv(s)
    ensures OnlyDelivers(s.issued)
  {
    forall i | 0 <= i < |s.issued| && s.issued[i].UpdateDelivery?
      ensures s.issued[i].status == Delivered
    {
      assert TaskOk(s, i);
    }
  }

  // Every message content enqueued under the id can be bound to its columns.
  ghost predicate AllStorable(s: State, id: MessageId)
  {
    forall m :: InsertMessage(id, m) in s.issued ==> Storable(m)
  }

  // When the i-th issued task executes, a delivery update finds its row, and a session insert finds
  // its user, so it can only fail on a token that is already in the table.
  lemma QueueDependencies(init: State, events: seq<Event>, i: nat)
    requires Init(init) && i < |Run(init, events).issued|
    ensures var s := Run(init, events);
            var before := RunTasks(init.base, s.issued[..i]);
            match s.issued[i]
            case UpdateDelivery(id, status) =>
              status == Delivered && (AllStorable(s, id) ==> id in before.messages)
            case InsertSession(token, user, _) =>
              user in before.users && (Execute(before, s.issued[i]).None? <==> token in before.sessions)
            case _ => true
  {
    var s := Run(init, events);
    ReachableInv(init, events);
    assert TaskOk(s, i);
    match s.issued[i]
    case UpdateDelivery(id, _) =>
      if AllStorable(s, id) && id !in s.base.messages {
        var j :| 0 <= j < i && s.issued[j].InsertMessage? && s.issued[j].id == id;
        assert s.issued[j] == InsertMessage(id, s.issued[j].msg);
        assert s.issued[..i][j] == s.issued[j];
        MessageKeys(s.base, s.issued[..i], id);
      } else {
        RunTasksKeeps(s.base, s.issued[..i]);
      }
    case _ =>
  }

  // ------------------------------------------------------------------
  // No acknowledged message is lost
  // ------------------------------------------------------------------

  // One payload per message_id: everything stored under the id has the same content.
  ghost predicate OneContent(s: State, id: MessageId)
  {
    forall m, n :: Stored(s, id, m) && Stored(s, id, n) ==> m == n
  }

  ghost predicate BaseDelivered(s: State, id: MessageId)
  {
    id in s.base.messages && s.base.messages[id].status == Delivered
  }

  // An accepted message has a row in the eventual table exactly when its content is storable (or
  // the row predates this run), and the row holds exactly that content.
  lemma AcceptedIsStored(s: State, id: MessageId, m: Message)
    requires Inv(s) && InsertMessage(id, m) in s.issued && OneContent(s, id)
    ensures id in Eventual(s).messages <==> id in s.base.messages || Storable(m)
    ensures id in Eventual(s).messages ==> Eventual(s).messages[id].msg == m
  {
    EventualIsIssued(s);
    MessageKeys(s.base, s.issued, id);
    assert Stored(s, id, m);
    forall i | 0 <= i < |s.issued| && s.issued[i].InsertMessage? && s.issued[i].id == id
      ensures s.issued[i].msg == m
    {
      assert s.issued[i] == InsertMessage(id, s.issued[i].msg);
      assert Stored(s, id, s.issued[i].msg);
    }
    var i :| 0 <= i < |s.issued| && s.issued[i] == InsertMessage(id, m);
    if id in Eventual(s).messages {
      MessageOrigin(s.base, s.issued, id);
      assert Stored(s, id, Eventual(s).messages[id].msg);
    }
  }

  // A row that is marked delivered was addressed to the server or handed to a connection that
  // logged in as its recipient, unless it was already marked when the server started.
  lemma DeliveredWasHanded(s: State, id: MessageId)
    requires Inv(s) && OneContent(s, id)
    requires id in Eventual(s).messages && Eventual(s).messages[id].status == Delivered
    ensures var m := Eventual(s).messages[id].msg;
            BaseDelivered(s, id) || m.recipient == "server" || Handed(s, id, m)
  {
    EventualIsIssued(s);
    IssuedOnlyDelivers(s);
    DeliveredRows(s.base, s.issued, id);
    MessageOrigin(s.base, s.issued, id);
    assert Stored(s, id, Eventual(s).messages[id].msg);
    if !BaseDelivered(s, id) {
      var i: nat :| DeliveredAt(s.base, s.issued, id, i);
      assert TaskOk(s, i);
    }
  }

  // A storable message whose update was enqueued is delivered once the queue has run.
  lemma MarkedBecomesDelivered(s: State, id: MessageId)
    requires Inv(s) && OneContent(s, id)
    requires UpdateDelivery(id, Delivered) in s.issued && id in Eventual(s).messages
    ensures Eventual(s).messages[id].status == Delivered
  {
    EventualIsIssued(s);
    IssuedOnlyDelivers(s);
    MessageKeys(s.base, s.issued, id);
    var i :| 0 <= i < |s.issued| && s.issued[i] == UpdateDelivery(id, Delivered);
    assert TaskOk(s, i);
    MessageKeys(s.base, s.issued[..i], id);
    if id !in s.base.messages {
      var j :| 0 <= j < i && s.issued[j].InsertMessage? && s.issued[j].id == id;
      var k :| 0 <= k < |s.issued| && s.issued[k].InsertMessage? && s.issued[k].id == id && Storable(s.issued[k].msg);
      assert s.issued[j] == InsertMessage(id, s.issued[j].msg) && s.issued[k] == InsertMessage(id, s.issued[k].msg);
      assert Stored(s, id, s.issued[j].msg) && Stored(s, id, s.issued[k].msg);
      assert s.issued[..i][j] == s.issued[j];
    }
    assert DeliveredAt(s.base, s.issued, id, i);
    DeliveredRows(s.base, s.issued, id);
  }

  // Every acknowledged message was accepted. Its row is in the eventual table exactly when its
  // content can be stored or the row predates this run; an acknowledgement 'delivered' means the row
  // becomes delivered, and a delivered row was handed over unless it started so. A row that is still
  // sent is in every list a drain reads for its recipient once the queue has drained, and this
  // server never writes any other status.
  lemma NoAcknowledgedMessageLost(init: State, events: seq<Event>, c: Conn, k: nat)
    requires Init(init)
    requires var s := Run(init, events);
             && c in s.handlers && k < |s.handlers[c].out| && s.handlers[c].out[k].frame.Ack?
             && OneContent(s, s.handlers[c].out[k].frame.ref)
    ensures var s := Run(init, events);
            var Ack(id, status) := s.handlers[c].out[k].frame;
            exists m ::
              && InsertMessage(id, m) in s.issued
              && (id in Eventual(s).messages <==> id in init.base.messages || Storable(m))
              && (id in Eventual(s).messages ==>
                    var row := Eventual(s).messages[id];
                    && row.msg == m
                    && (status == Delivered ==> row.status == Delivered)
                    && (row.status == Delivered ==>
                          BaseDelivered(s, id) || m.recipient == "server" || Handed(s, id, m))
                    && (row.status == Sent ==> FoundByDrain(s, id, m))
                    && (row.status == Read ==> id in init.base.messages && init.base.messages[id].status == Read))
  {
    var s := Run(init, events);
    ReachableInv(init, events);
    assert HandlerOk(s, c);
    var Ack(id, status) := s.handlers[c].out[k].frame;
    assert WireOk(s, s.handlers[c].key, s.handlers[c].out[k]);
    var m :| InsertMessage(id, m) in s.issued;
    AcceptedIsStored(s, id, m);
    if id in Eventual(s).messages {
      EventualIsIssued(s);
      IssuedOnlyDelivers(s);
      if id in s.base.messages {
        DeliveredSticks(s.base, s.issued, id);
      } else {
        NewRowStatus(s.base, s.issued, id);
      }
      if status == Delivered {
        MarkedBecomesDelivered(s, id);
      }
      match Eventual(s).messages[id].status
      case Delivered => DeliveredWasHanded(s, id);
      case Sent => DrainFinds(s, id, m);
      case Read =>
    }
  }

  // On a quiet system every pending list of the recipient holds the message.
  ghost predicate FoundByDrain(s: State, id: MessageId, m: Message)
  {
    s.queue == [] ==>
      forall rows: seq<Pending> :: IsPendingList(s.committed.store.messages, m.recipient, rows) ==> Pending(id, m) in rows
  }

  lemma DrainFinds(s: State, id: MessageId, m: Message)
    requires id in Eventual(s).messages && Eventual(s).messages[id] == Row(m, Sent)
    ensures FoundByDrain(s, id, m)
  {
    if s.queue == [] {
      forall rows: seq<Pending> | IsPendingList(s.committed.store.messages, m.recipient, rows)
        ensures Pending(id, m) in rows
      {
        assert Covered(s.committed.store.messages, m.recipient, rows, id);
        var i :| 0 <= i < |rows| && rows[i].id == id;
        assert PendingRow(s.committed.store.messages, m.recipient, rows[i]);
      }
    }
  }

  // ------------------------------------------------------------------
  // Fidelity over time
  // ------------------------------------------------------------------

  // Whatever happens later, a committed row keeps its content, and never returns from delivered.
  lemma RowsAreWriteOnce(init: State, a: seq<Event>, b: seq<Event>, id: MessageId)
    requires Init(init) && id in Run(init, a).committed.store.messages
    ensures var early := Run(init, a).committed.store.messages[id];
            var later := Run(init, a + b).committed.store.messages;
            && id in later && later[id].msg == early.msg
            && (later[id].status == early.status || later[id].status == Delivered)
  {
    var s := Run(init, a);
    var t := Run(init, a + b);
    RunAppend(init, a, b);
    ReachableInv(init, a);
    RunInv(s, b);
    DoneGrows(s, b);
    IssuedOnlyDelivers(t);
    CommittedRowKept(s, t, id);
  }

  lemma CommittedRowKept(s: State, t: State, id: MessageId)
    requires QueueOk(s) && QueueOk(t) && t.base == s.base && s.issued <= t.issued && Done(s) <= Done(t)
    requires OnlyDelivers(t.issued) && id in s.committed.store.messages
    ensures var early, later := s.committed.store.messages[id], t.committed.store.messages;
            && id in later && later[id].msg == early.msg
            && (later[id].status == early.status || later[id].status == Delivered)
  {
    var more := t.issued[Done(s)..Done(t)];
    assert t.issued[..Done(t)] == s.issued[..Done(s)] + more;
    RunTasksAppend(s.base, s.issued[..Done(s)], more);
    DeliveredSticks(s.committed.store, more, id);
    RunTasksKeeps(s.committed.store, more);
  }

  // A chat payload placed on any connection, live or drained at any later login, is in all five
  // fields the payload that was accepted under its id, in this run or before it.
  lemma DeliveredPayloadIsTheAcceptedOne(init: State, events: seq<Event>, c: Conn, k: nat, m: Message)
    requires Init(init)
    requires var s := Run(init, events);
             && c in s.handlers && k < |s.handlers[c].out| && s.handlers[c].out[k].frame.Chat?
             && var id := s.handlers[c].out[k].frame.p.id;
                Stored(s, id, m) && OneContent(s, id)
    ensures var p := Run(init, events).handlers[c].out[k].frame.p;
            && p.kind == ChatType && p.sender == m.sender && p.to == m.recipient && p.data == m.text
            && p.timestamp == m.createdAt
  {
    var s := Run(init, events);
    ReachableInv(init, events);
    assert HandlerOk(s, c);
    assert WireOk(s, s.handlers[c].key, s.handlers[c].out[k]);
    var p := s.handlers[c].out[k].frame.p;
    assert Stored(s, p.id, MessageOf(p)) && Stored(s, p.id, m);
  }
}
