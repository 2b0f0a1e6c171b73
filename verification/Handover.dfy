// Store and forward, the other way round: what was handed over is marked.

module Handover {
  import opened Bytes
  import opened Store
  import opened Protocol
  import opened Server
  import opened Invariants
  import opened Preservation
  import opened Durability

  // A handler at this point has just placed the payload on a connection and enqueues its update next.
  predicate AboutToMark(pc: PC, p: Payload)
  {
    match pc
    case MarkForwarded(q) => q == p
    case MarkDrained(rest) => rest != [] && PayloadOf(rest[0].id, rest[0].msg) == p
    case _ => false
  }

  ghost predicate Marking(s: State, p: Payload)
  {
    exists c :: c in s.handlers && AboutToMark(s.handlers[c].pc, p)
  }

  ghost predicate Accounted(s: State, p: Payload)
  {
    UpdateDelivery(p.id, Delivered) in s.issued || Marking(s, p)
  }

  ghost predicate ChatsAccounted(s: State, out: seq<Wire>)
  {
    forall k :: 0 <= k < |out| && out[k].frame.Chat? ==> Accounted(s, out[k].frame.p)
  }

  ghost predicate HandoversOk(s: State)
  {
    forall c :: c in s.handlers ==> ChatsAccounted(s, s.handlers[c].out)
  }

  // A step that places a chat frame marks it next, and the step after that enqueues the update.
  ghost predicate MarksNext(h: Handler, r: (Handler, Effect))
  {
    && (r.1.Send? && r.1.wire.frame.Chat? ==> AboutToMark(r.0.pc, r.1.wire.frame.p))
    && (forall p :: AboutToMark(h.pc, p) ==> r.1 == Enqueue(UpdateDelivery(p.id, Delivered)))
  }

  lemma LoginMarks(s: State, c: Conn, h: Handler, i: Input)
    requires h.pc.AwaitAuth? || h.pc.Refuse? || h.pc.Login? || h.pc.Issue? || h.pc.SendToken?
    requires h.pc.Refuse? ==> !h.pc.reply.Chat?
    ensures MarksNext(h, StepLogin(s, c, h, i))
  {
  }

  lemma DrainMarks(s: State, c: Conn, h: Handler, i: Input)
    requires h.pc.Enter? || h.pc.ReadPending? || h.pc.Drain? || h.pc.MarkDrained?
    ensures MarksNext(h, StepDrain(s, c, h, i))
  {
    hide IsPendingList;
  }

  lemma MessageMarks(s: State, c: Conn, h: Handler, i: Input)
    requires !h.pc.MarkDrained? && (h.pc.Reply? ==> !h.pc.reply.Chat?)
    ensures MarksNext(h, StepMessage(s, c, h, i))
  {
  }

  lemma CleanupMarks(h: Handler)
    requires h.pc.Leave? || h.pc.Closing? || h.pc.Closed? || h.pc.Crashed?
    ensures MarksNext(h, StepCleanup(h))
  {
  }

  lemma StepMarks(s: State, c: Conn, i: Input)
    requires Inv(s) && c in s.handlers
    ensures MarksNext(s.handlers[c], Step(s, c, s.handlers[c], i))
  {
    hide StepLogin, StepDrain, StepMessage, StepCleanup, Inv;
    var h := s.handlers[c];
    OneHandler(s, c);
    match h.pc
    case AwaitAuth | Refuse(_) | Login | Issue | SendToken => LoginMarks(s, c, h, i);
    case Enter | ReadPending | Drain(_) | MarkDrained(_) => DrainMarks(s, c, h, i);
    case Leave | Closing | Closed | Crashed => CleanupMarks(h);
    case _ => MessageMarks(s, c, h, i);
  }

  lemma AdvanceKeepsAccounts(s: State, c: Conn, i: Input, p: Payload)
    requires Inv(s) && c in s.handlers && Accounted(s, p)
    ensures Accounted(Perform(s, c, Step(s, c, s.handlers[c], i)), p)
  {
    hide Step, Perform, Inv;
    var r := Step(s, c, s.handlers[c], i);
    var t := Perform(s, c, r);
    StepMarks(s, c, i);
    PerformPcs(s, c, r);
    var added := PerformQueue(s, c, r);
    if UpdateDelivery(p.id, Delivered) !in s.issued {
      var d :| d in s.handlers && AboutToMark(s.handlers[d].pc, p);
      if d == c {
        assert t.issued[|s.issued|] == UpdateDelivery(p.id, Delivered);
      } else {
        assert AboutToMark(t.handlers[d].pc, p);
      }
    }
  }

  // A connection's frames after a step: the old ones, and perhaps the one this step placed.
  lemma PerformOuts(s: State, c: Conn, r: (Handler, Effect), x: Conn)
    requires c in s.handlers && x in Perform(s, c, r).handlers && r.0.out == s.handlers[c].out
    ensures x in s.handlers
    ensures Perform(s, c, r).handlers[x].out
            == s.handlers[x].out + if r.1.Send? && r.1.to == x then [r.1.wire] else []
  {
  }

  lemma AdvanceHandovers(s: State, c: Conn, i: Input)
    requires Inv(s) && HandoversOk(s) && c in s.handlers
    ensures HandoversOk(Perform(s, c, Step(s, c, s.handlers[c], i)))
  {
    hide Step, Perform, Inv, Accounted;
    var r := Step(s, c, s.handlers[c], i);
    var t := Perform(s, c, r);
    StepMarks(s, c, i);
    StepKeepsOut(s, c, i);
    PerformPcs(s, c, r);
    forall x | x in t.handlers
      ensures ChatsAccounted(t, t.handlers[x].out)
    {
      PerformOuts(s, c, r, x);
      var out, more := s.handlers[x].out, t.handlers[x].out;
      forall k | 0 <= k < |more| && more[k].frame.Chat?
        ensures Accounted(t, more[k].frame.p)
      {
        if k < |out| {
          assert more[k] == out[k] && ChatsAccounted(s, out);
          AdvanceKeepsAccounts(s, c, i, more[k].frame.p);
        } else {
          BegunAccounted(t, c, more[k].frame.p);
        }
      }
    }
  }

  lemma BegunAccounted(t: State, c: Conn, p: Payload)
    requires c in t.handlers && AboutToMark(t.handlers[c].pc, p)
    ensures Accounted(t, p)
  {
  }

  lemma StepKeepsOut(s: State, c: Conn, i: Input)
    requires Inv(s) && c in s.handlers
    ensures Step(s, c, s.handlers[c], i).0.out == s.handlers[c].out
  {
    hide Step, Inv, PcOk, OutOk, TaskOk, FrameOk;
    AdvanceOk(s, c, i);
  }

  lemma NextHandovers(s: State, e: Event)
    requires Inv(s) && HandoversOk(s)
    ensures HandoversOk(Next(s, e))
  {
    if e.Advance? {
      if e.c in s.handlers {
        hide Step, Perform;
        AdvanceHandovers(s, e.c, e.input);
      }
    } else {
      var t := Next(s, e);
      NewHandlersSilent(s, e);
      hide Next, Inv;
      SidestepPcs(s, e);
      var _ := NextQueue(s, e);
      forall x | x in t.handlers
        ensures ChatsAccounted(t, t.handlers[x].out)
      {
        if x in s.handlers {
          SidestepAccounts(s, t, s.handlers[x].out);
        }
      }
    }
  }

  lemma NewHandlersSilent(s: State, e: Event)
    requires !e.Advance?
    ensures forall x :: x in Next(s, e).handlers && x !in s.handlers ==> Next(s, e).handlers[x].out == []
  {
  }

  lemma SidestepAccounts(s: State, t: State, out: seq<Wire>)
    requires ChatsAccounted(s, out) && s.issued <= t.issued
    requires forall x :: x in s.handlers ==> x in t.handlers && t.handlers[x] == s.handlers[x]
    ensures ChatsAccounted(t, out)
  {
    forall k | 0 <= k < |out| && out[k].frame.Chat?
      ensures Accounted(t, out[k].frame.p)
    {
      var p := out[k].frame.p;
      assert Accounted(s, p);
      if UpdateDelivery(p.id, Delivered) !in s.issued {
        var d :| d in s.handlers && AboutToMark(s.handlers[d].pc, p);
        assert AboutToMark(t.handlers[d].pc, p);
      }
    }
  }

  lemma {:induction false} RunHandovers(s: State, events: seq<Event>)
    requires Inv(s) && HandoversOk(s)
    ensures HandoversOk(Run(s, events))
    decreases |events|
  {
    hide Inv, HandoversOk, Next;
    if events != [] {
      NextHandovers(s, events[0]);
      NextInv(s, events[0]);
      RunHandovers(Next(s, events[0]), events[1..]);
    }
  }

  // In every reachable state each chat payload on a connection has its delivery update enqueued,
  // unless the handler that placed it is just about to.
  lemma HandedIsMarked(init: State, events: seq<Event>, c: Conn, k: nat)
    requires Init(init)
    requires var s := Run(init, events);
             c in s.handlers && k < |s.handlers[c].out| && s.handlers[c].out[k].frame.Chat?
    ensures Accounted(Run(init, events), Run(init, events).handlers[c].out[k].frame.p)
  {
    InitInv(init);
    RunHandovers(init, events);
    assert ChatsAccounted(Run(init, events), Run(init, events).handlers[c].out);
  }

  // Once no handler is about to mark it, a stored message for a user is delivered, in the table the
  // queue leads to, if and only if it was handed to a connection that logged in as its recipient (or
  // was delivered before this run). So nothing that was handed over is left to be drained again.
  lemma DeliveredIffHanded(init: State, events: seq<Event>, id: MessageId)
    requires Init(init)
    requires var s := Run(init, events);
             && id in Eventual(s).messages && OneContent(s, id)
             && Eventual(s).messages[id].msg.recipient != "server"
             && !Marking(s, PayloadOf(id, Eventual(s).messages[id].msg))
    ensures var s := Run(init, events);
            var row := Eventual(s).messages[id];
            row.status == Delivered <==> BaseDelivered(s, id) || Handed(s, id, row.msg)
  {
    hide Run, Marking;
    var s := Run(init, events);
    var row := Eventual(s).messages[id];
    ReachableInv(init, events);
    if row.status == Delivered {
      DeliveredWasHanded(s, id);
    } else if BaseDelivered(s, id) {
      EventualIsIssued(s);
      IssuedOnlyDelivers(s);
      DeliveredSticks(s.base, s.issued, id);
    } else if Handed(s, id, row.msg) {
      var c :| HandedOn(s, c, id, row.msg);
      var k :| 0 <= k < |s.handlers[c].out| && s.handlers[c].out[k].frame == Chat(PayloadOf(id, row.msg));
      HandedIsMarked(init, events, c, k);
      MarkedBecomesDelivered(s, id);
    }
  }
}
