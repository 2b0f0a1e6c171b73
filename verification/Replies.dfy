// One reply per request, in request order, and what the client's wait loop makes of it.

module Replies {
  import opened Bytes
  import opened Store
  import opened Protocol
  import opened Server
  import opened Invariants
  import opened Preservation

  predicate IsReply(f: Frame)
  {
    f.Ack? || f.Error?
  }

  // The acknowledgements and errors on a connection after its auth reply, in order.
  function RepliesOn(out: seq<Wire>): seq<Frame>
  {
    if |out| <= 1 then []
    else RepliesOn(out[..|out| - 1]) + if IsReply(out[|out| - 1].frame) then [out[|out| - 1].frame] else []
  }

  predicate OutOfTime(a: Arrival)
    requires a.r.Valid?
  {
    a.at - a.r.p.timestamp > 300.0 || a.at - a.r.p.timestamp < -30.0
  }

  // The reply a request may get. A rejected payload gets the schema error; any other that is more than
  // five minutes old on arrival, or dated more than thirty seconds ahead, the expiry error; one that is
  // no chat the schema error; and a chat frame an acknowledgement of its own id, 'delivered' if it was
  // for the server, once exactly its content was taken in, or the replay error.
  ghost predicate Fits(s: State, a: Arrival, f: Frame)
  {
    if a.r.Malformed? then f == Error(InvalidSchema)
    else if OutOfTime(a) then f == Error(MessageExpired)
    else
      var p := a.r.p;
      if p.kind != ChatType then f == Error(InvalidSchema)
      else || f == Error(ReplayDetected)
           || (f.Ack? && f.ref == p.id && InsertMessage(p.id, Message(p.sender, p.to, p.data, p.timestamp)) in s.issued
               && (f.status == Delivered || (f.status == Sent && p.to != "server")))
  }

  // The request the handler is working on, if any.
  predicate Working(pc: PC)
  {
    pc.CheckReplay? || pc.Record? || pc.Persist? || pc.MarkServer? || pc.Lookup? || pc.Forward?
    || pc.MarkForwarded? || pc.Confirm? || pc.Reply?
  }

  predicate Ended(pc: PC)
  {
    pc.Leave? || pc.Closing? || pc.Closed? || pc.Crashed?
  }

  predicate IsTaken(a: Arrival, p: Payload)
  {
    a.r == Valid(p) && p.kind == ChatType && !OutOfTime(a)
  }

  ghost predicate WorkOk(s: State, h: Handler)
    requires h.requests != []
  {
    var a := h.requests[|h.requests| - 1];
    match h.pc
    case CheckReplay(p) => IsTaken(a, p)
    case Record(p) => IsTaken(a, p)
    case Persist(p) => IsTaken(a, p)
    case MarkServer(p) => IsTaken(a, p)
    case Lookup(p) => IsTaken(a, p) && p.to != "server"
    case Forward(p, _) => IsTaken(a, p) && p.to != "server"
    case MarkForwarded(p) => IsTaken(a, p) && p.to != "server"
    case Confirm(p) => IsTaken(a, p) && p.to != "server"
    case Reply(f) => Fits(s, a, f)
    case _ => true
  }

  ghost predicate RepliesOk(s: State, h: Handler)
  {
    var replies := RepliesOn(h.out);
    && (if Working(h.pc) then |h.requests| == |replies| + 1 && WorkOk(s, h)
        else if Ended(h.pc) then |replies| <= |h.requests| <= |replies| + 1
        else |h.requests| == |replies|)
    && (forall k {:trigger replies[k]} :: 0 <= k < |replies| ==> k < |h.requests| && Fits(s, h.requests[k], replies[k]))
  }

  ghost predicate AllRepliesOk(s: State)
  {
    forall c {:trigger RepliesOk(s, s.handlers[c])} :: c in s.handlers ==> RepliesOk(s, s.handlers[c])
  }

  lemma RepliesSnoc(out: seq<Wire>, w: Wire)
    ensures RepliesOn(out + [w]) == if out != [] && IsReply(w.frame) then RepliesOn(out) + [w.frame] else RepliesOn(out)
  {
    assert (out + [w])[..|out|] == out;
  }

  lemma KeepsReplies(s: State, t: State, h: Handler)
    requires RepliesOk(s, h) && s.issued <= t.issued
    ensures RepliesOk(t, h)
  {
    assert forall x :: x in s.issued ==> x in t.issued;
    var replies := RepliesOn(h.out);
    forall k | 0 <= k < |replies|
      ensures k < |h.requests| && Fits(t, h.requests[k], replies[k])
    {
      assert Fits(s, h.requests[k], replies[k]);
    }
  }

  // What a step may do to a handler without upsetting the count.
  ghost predicate MovesOn(t: State, h: Handler, g: Handler)
  {
    && g.out == h.out
    && h.requests <= g.requests && |g.requests| <= |h.requests| + 1
    && (Working(g.pc) ==> g.requests != [] && WorkOk(t, g))
  }

  lemma MovedReplies(t: State, h: Handler, g: Handler)
    requires RepliesOk(t, h) && MovesOn(t, h, g)
    requires if Working(h.pc) then g.requests == h.requests && (Working(g.pc) || Ended(g.pc))
             else if Ended(h.pc) then g.requests == h.requests && Ended(g.pc)
             else if Working(g.pc) then |g.requests| == |h.requests| + 1
             else if Ended(g.pc) then true
             else g.requests == h.requests
    ensures RepliesOk(t, g)
  {
    var replies := RepliesOn(h.out);
    forall k | 0 <= k < |replies|
      ensures k < |g.requests| && Fits(t, g.requests[k], replies[k])
    {
      assert Fits(t, h.requests[k], replies[k]);
    }
  }

  // Sending the reply settles the request.
  lemma SettledReplies(t: State, h: Handler, g: Handler, w: Wire)
    requires RepliesOk(t, h) && Working(h.pc) && h.out != [] && IsReply(w.frame)
    requires Fits(t, h.requests[|h.requests| - 1], w.frame)
    requires g == h.(pc := Loop, out := h.out + [w])
    ensures RepliesOk(t, g)
  {
    RepliesSnoc(h.out, w);
    var replies := RepliesOn(h.out);
    forall k | 0 <= k < |RepliesOn(g.out)|
      ensures k < |g.requests| && Fits(t, g.requests[k], RepliesOn(g.out)[k])
    {
      assert k < |replies| ==> Fits(t, h.requests[k], replies[k]);
    }
  }

  // A chat frame placed on the connection is no reply.
  lemma ChatIsNoReply(t: State, h: Handler, w: Wire)
    requires RepliesOk(t, h) && !IsReply(w.frame)
    ensures RepliesOk(t, h.(out := h.out + [w]))
  {
    RepliesSnoc(h.out, w);
    var g := h.(out := h.out + [w]);
    assert Working(g.pc) ==> WorkOk(t, h) && WorkOk(t, g);
    var replies := RepliesOn(h.out);
    forall k | 0 <= k < |RepliesOn(g.out)|
      ensures k < |g.requests| && Fits(t, g.requests[k], RepliesOn(g.out)[k])
    {
      assert Fits(t, h.requests[k], replies[k]);
    }
  }

  // ------------------------------------------------------------------
  // Steps
  // ------------------------------------------------------------------

  // A step before and during the drain answers no request.
  predicate QuietStep(c: Conn, h: Handler, r: (Handler, Effect))
  {
    && r.0.out == h.out && r.0.requests == h.requests && !Working(r.0.pc)
    && (Ended(h.pc) ==> Ended(r.0.pc))
    && (r.1.Send? ==> r.1.to == c && (IsReply(r.1.wire.frame) ==> h.pc.Refuse?))
  }

  lemma LoginQuiet(s: State, c: Conn, h: Handler, i: Input)
    requires h.pc.AwaitAuth? || h.pc.Refuse? || h.pc.Login? || h.pc.Issue? || h.pc.SendToken?
    ensures QuietStep(c, h, StepLogin(s, c, h, i))
  {
  }

  lemma DrainQuiet(s: State, c: Conn, h: Handler, i: Input)
    requires h.pc.Enter? || h.pc.ReadPending? || h.pc.Drain? || h.pc.MarkDrained?
    ensures QuietStep(c, h, StepDrain(s, c, h, i))
  {
    hide IsPendingList;
  }

  lemma CleanupQuiet(c: Conn, h: Handler)
    requires Ended(h.pc)
    ensures QuietStep(c, h, StepCleanup(h))
  {
  }

  lemma QuietGroups(s: State, c: Conn, h: Handler, i: Input)
    requires !Working(h.pc) && !h.pc.Loop?
    ensures QuietStep(c, h, Step(s, c, h, i))
  {
    hide QuietStep, StepLogin, StepDrain, StepMessage, StepCleanup;
    match h.pc
    case AwaitAuth | Refuse(_) | Login | Issue | SendToken => LoginQuiet(s, c, h, i);
    case Enter | ReadPending | Drain(_) | MarkDrained(_) => DrainQuiet(s, c, h, i);
    case Leave | Closing | Closed | Crashed => CleanupQuiet(c, h);
    case _ =>
  }

  lemma QuietGroupReplies(s: State, t: State, c: Conn, i: Input)
    requires c in s.handlers && RepliesOk(s, s.handlers[c]) && !Working(s.handlers[c].pc) && !s.handlers[c].pc.Loop?
    requires s.handlers[c].pc.Refuse? ==> s.handlers[c].out == []
    requires t == Perform(s, c, Step(s, c, s.handlers[c], i))
    requires s.issued <= t.issued
    ensures RepliesOk(t, t.handlers[c])
  {
    hide Step;
    var h := s.handlers[c];
    var r := Step(s, c, h, i);
    QuietGroups(s, c, h, i);
    KeepsReplies(s, t, h);
    MovedReplies(t, h, r.0);
    if r.1.Send? {
      assert t.handlers[c] == r.0.(out := h.out + [r.1.wire]);
      if IsReply(r.1.wire.frame) {
        RepliesSnoc(h.out, r.1.wire);
      } else {
        ChatIsNoReply(t, r.0, r.1.wire);
      }
    }
  }

  // From receiving a request up to its reply.
  predicate InWork(pc: PC)
  {
    pc.Loop? || pc.CheckReplay? || pc.Record? || pc.Persist? || pc.MarkServer? || pc.Lookup? || pc.Forward?
    || pc.MarkForwarded?
  }

  ghost predicate WorkMoved(t: State, h: Handler, g: Handler)
  {
    && MovesOn(t, h, g)
    && (Working(h.pc) ==> g.requests == h.requests && Working(g.pc))
    && (h.pc.Loop? ==> if Working(g.pc) then |g.requests| == |h.requests| + 1
                       else Ended(g.pc) || g.requests == h.requests)
  }

  lemma LoopMoves(s: State, t: State, c: Conn, h: Handler, i: Input)
    requires h.pc.Loop? && RepliesOk(s, h)
    ensures WorkMoved(t, h, StepMessage(s, c, h, i).0)
  {
  }

  lemma WorkMoves(s: State, t: State, c: Conn, h: Handler, i: Input)
    requires InWork(h.pc) && !h.pc.Loop?
    requires RepliesOk(s, h)
    requires (h.pc.MarkServer? || h.pc.Lookup? || h.pc.Forward? || h.pc.MarkForwarded?) ==>
               InsertMessage(h.pc.p.id, MessageOf(h.pc.p)) in t.issued && h.pc.p.kind == ChatType
    requires h.pc.CheckReplay? || h.pc.Record? || h.pc.Persist? ==> h.pc.p.kind == ChatType
    ensures WorkMoved(t, h, StepMessage(s, c, h, i).0)
  {
    hide ReceiveChat, RepliesOn;
  }

  lemma WorkReplies(s: State, t: State, c: Conn, i: Input)
    requires c in s.handlers && PcOk(s, c, s.handlers[c]) && RepliesOk(s, s.handlers[c])
    requires InWork(s.handlers[c].pc)
    requires t == Perform(s, c, StepMessage(s, c, s.handlers[c], i))
    requires s.issued <= t.issued
    ensures RepliesOk(t, t.handlers[c])
  {
    hide RepliesOk, MovesOn, WorkOk, Fits;
    var h := s.handlers[c];
    var r := StepMessage(s, c, h, i);
    assert forall x :: x in s.issued ==> x in t.issued;
    KeepsReplies(s, t, h);
    if h.pc.Loop? {
      LoopMoves(s, t, c, h, i);
    } else {
      WorkMoves(s, t, c, h, i);
    }
    MovedReplies(t, h, r.0);
    if r.1.Send? && r.1.to == c {
      ChatIsNoReply(t, r.0, r.1.wire);
    }
  }

  lemma AnswerReplies(s: State, t: State, c: Conn, i: Input)
    requires c in s.handlers && RepliesOk(s, s.handlers[c]) && s.handlers[c].out != []
    requires var h := s.handlers[c];
             || (h.pc.Confirm? && InsertMessage(h.pc.p.id, MessageOf(h.pc.p)) in s.issued && h.pc.p.kind == ChatType)
             || (h.pc.Reply? && IsReply(h.pc.reply))
    requires t == Perform(s, c, StepMessage(s, c, s.handlers[c], i))
    requires s.issued <= t.issued
    ensures RepliesOk(t, t.handlers[c])
  {
    var h := s.handlers[c];
    var r := StepMessage(s, c, h, i);
    assert forall x :: x in s.issued ==> x in t.issued;
    KeepsReplies(s, t, h);
    if r.1.Send? {
      SettledReplies(t, h, t.handlers[c], r.1.wire);
    } else {
      MovedReplies(t, h, r.0);
    }
  }

  lemma AdvanceOwnReplies(s: State, c: Conn, i: Input)
    requires Inv(s) && AllRepliesOk(s) && c in s.handlers
    ensures var t := Perform(s, c, Step(s, c, s.handlers[c], i)); RepliesOk(t, t.handlers[c])
  {
    hide RepliesOk, StepLogin, StepDrain, StepMessage, StepCleanup, Perform;
    var h := s.handlers[c];
    OneHandler(s, c);
    assert RepliesOk(s, h);
    var r := Step(s, c, h, i);
    var t := Perform(s, c, r);
    var _ := PerformQueue(s, c, r);
    match h.pc
    case Confirm(_) | Reply(_) => AnswerReplies(s, t, c, i);
    case Loop | CheckReplay(_) | Record(_) | Persist(_) | MarkServer(_) | Lookup(_) | Forward(_, _) | MarkForwarded(_) =>
      WorkReplies(s, t, c, i);
    case _ => QuietGroupReplies(s, t, c, i);
  }

  // Other handlers place only chat frames on a connection.
  lemma StepSendsElsewhere(s: State, c: Conn, h: Handler, i: Input)
    ensures var r := Step(s, c, h, i);
            r.1.Send? && r.1.to != c ==> r.1.wire.frame.Chat?
  {
  }

  lemma AdvanceReplies(s: State, c: Conn, i: Input)
    requires Inv(s) && AllRepliesOk(s) && c in s.handlers
    ensures AllRepliesOk(Perform(s, c, Step(s, c, s.handlers[c], i)))
  {
    hide RepliesOk, Step, Inv;
    var r := Step(s, c, s.handlers[c], i);
    var t := Perform(s, c, r);
    var _ := PerformQueue(s, c, r);
    StepSendsElsewhere(s, c, s.handlers[c], i);
    forall x | x in t.handlers
      ensures RepliesOk(t, t.handlers[x])
    {
      if x == c {
        AdvanceOwnReplies(s, c, i);
      } else {
        assert RepliesOk(s, s.handlers[x]);
        KeepsReplies(s, t, s.handlers[x]);
        if r.1.Send? && r.1.to == x {
          ChatIsNoReply(t, s.handlers[x], r.1.wire);
        }
      }
    }
  }

  lemma SidestepReplies(s: State, e: Event)
    requires AllRepliesOk(s) && !(e.Advance? && e.c in s.handlers)
    ensures AllRepliesOk(Next(s, e))
  {
    var t := Next(s, e);
    var _ := NextQueue(s, e);
    assert e.Advance? ==> t == s;
    forall x | x in t.handlers
      ensures RepliesOk(t, t.handlers[x])
    {
      if x in s.handlers {
        assert RepliesOk(s, s.handlers[x]);
        KeepsReplies(s, t, s.handlers[x]);
      }
    }
  }

  lemma NextReplies(s: State, e: Event)
    requires Inv(s) && AllRepliesOk(s)
    ensures AllRepliesOk(Next(s, e))
  {
    hide AllRepliesOk, Inv, Step, Perform;
    if e.Advance? && e.c in s.handlers {
      AdvanceReplies(s, e.c, e.input);
    } else {
      SidestepReplies(s, e);
    }
  }

  lemma {:induction false} RunReplies(s: State, events: seq<Event>)
    requires Inv(s) && AllRepliesOk(s)
    ensures AllRepliesOk(Run(s, events))
    decreases |events|
  {
    hide AllRepliesOk, Inv, Next;
    if events != [] {
      NextReplies(s, events[0]);
      NextInv(s, events[0]);
      RunReplies(Next(s, events[0]), events[1..]);
    }
  }

  // ------------------------------------------------------------------
  // When the sends to the requester succeed
  // ------------------------------------------------------------------

  // The event is not a failed send of a reply on this connection.
  ghost predicate ReplyGoes(s: State, e: Event, c: Conn)
  {
    e == Advance(c, Sends(false)) && c in s.handlers ==> !s.handlers[c].pc.Reply?
  }

  ghost predicate AllRepliesGo(s: State, events: seq<Event>, c: Conn)
    decreases |events|
  {
    events != [] ==> ReplyGoes(s, events[0], c) && AllRepliesGo(Next(s, events[0]), events[1..], c)
  }

  // Every request but the one in work has its reply.
  predicate Exact(h: Handler)
  {
    |h.requests| == |RepliesOn(h.out)| + if Working(h.pc) then 1 else 0
  }

  // The only way out of a request without its reply is a failed send of that reply.
  lemma MessageEnds(s: State, c: Conn, h: Handler, i: Input)
    requires Working(h.pc) || h.pc.Loop?
    ensures var r := StepMessage(s, c, h, i);
            Ended(r.0.pc) ==> (h.pc.Reply? && i == Sends(false)) || (h.pc.Loop? && r == (h.(pc := Leave), Quiet))
  {
  }

  lemma QuietStart(s: State, c: Conn)
    requires Inv(s) && c in s.handlers && s.handlers[c].pc.Refuse?
    ensures s.handlers[c].out == []
  {
    OneHandler(s, c);
  }

  lemma AdvanceExact(s: State, c: Conn, i: Input)
    requires Inv(s) && AllRepliesOk(s) && c in s.handlers && Exact(s.handlers[c]) && ReplyGoes(s, Advance(c, i), c)
    ensures Exact(Perform(s, c, Step(s, c, s.handlers[c], i)).handlers[c])
  {
    hide StepLogin, StepDrain, StepMessage, StepCleanup, Inv, AllRepliesOk, Fits, WorkOk;
    var h := s.handlers[c];
    var r := Step(s, c, h, i);
    AdvanceOwnReplies(s, c, i);
    if Ended(r.0.pc) {
      if Working(h.pc) || h.pc.Loop? {
        MessageEnds(s, c, h, i);
      } else {
        QuietGroups(s, c, h, i);
        if h.pc.Refuse? {
          QuietStart(s, c);
        }
        if r.1.Send? {
          RepliesSnoc(h.out, r.1.wire);
        }
      }
    }
  }

  // Whatever others do, they place only chat frames on this connection.
  lemma OthersExact(s: State, e: Event, c: Conn)
    requires c in s.handlers && Exact(s.handlers[c]) && !(e.Advance? && e.c == c)
    ensures c in Next(s, e).handlers && Exact(Next(s, e).handlers[c])
  {
    if e.Advance? {
      if e.c in s.handlers {
        hide Step, Perform, RepliesOn;
        var r := Step(s, e.c, s.handlers[e.c], e.input);
        StepSendsElsewhere(s, e.c, s.handlers[e.c], e.input);
        PerformElsewhere(s, e.c, r, c);
        if r.1.Send? && r.1.to == c {
          RepliesSnoc(s.handlers[c].out, r.1.wire);
        }
      }
    } else {
      hide Next, RepliesOn;
      SidestepPcs(s, e);
    }
  }

  lemma {:induction false} RunExact(s: State, events: seq<Event>, c: Conn)
    requires Inv(s) && AllRepliesOk(s) && AllRepliesGo(s, events, c)
    requires c in s.handlers ==> Exact(s.handlers[c])
    ensures c in Run(s, events).handlers ==> Exact(Run(s, events).handlers[c])
    decreases |events|
  {
    if events != [] {
      hide AllRepliesOk, Inv, Step, Perform, ReplyGoes, Exact;
      var t := Next(s, events[0]);
      NextReplies(s, events[0]);
      NextInv(s, events[0]);
      if c in s.handlers {
        if events[0].Advance? && events[0].c == c {
          AdvanceExact(s, c, events[0].input);
        } else {
          OthersExact(s, events[0], c);
        }
      } else if c in t.handlers {
        StartsExact(s, events[0], c);
      }
      RunExact(t, events[1..], c);
    }
  }

  lemma StartsExact(s: State, e: Event, c: Conn)
    requires c !in s.handlers && c in Next(s, e).handlers
    ensures Exact(Next(s, e).handlers[c])
  {
    hide Step;
    if e.Advance? && e.c in s.handlers {
      PerformPcs(s, e.c, Step(s, e.c, s.handlers[e.c], e.input));
    }
  }

  // In every reachable state the replies on a connection answer its requests one for one and in
  // order. A handler in its loop has answered everything, a handler at work all but the request in
  // work. As long as no send of a reply fails this stays so for good, also once the handler has
  // ended; otherwise an ended handler may owe its last request, and no more.
  lemma OneReplyPerRequest(init: State, events: seq<Event>, c: Conn)
    requires Init(init) && c in Run(init, events).handlers
    ensures var s := Run(init, events);
            var h := s.handlers[c];
            var replies := RepliesOn(h.out);
            && |replies| <= |h.requests| <= |replies| + 1
            && (forall k {:trigger replies[k]} :: 0 <= k < |replies| ==> Fits(s, h.requests[k], replies[k]))
            && (!Ended(h.pc) || AllRepliesGo(init, events, c) ==>
                  |h.requests| == |replies| + if Working(h.pc) then 1 else 0)
  {
    InitInv(init);
    RunReplies(init, events);
    assert RepliesOk(Run(init, events), Run(init, events).handlers[c]);
    if AllRepliesGo(init, events, c) {
      RunExact(init, events, c);
    }
  }

  // ------------------------------------------------------------------
  // Keys and first frames
  // ------------------------------------------------------------------

  // Every frame on a connection is encrypted under that connection's key, whoever placed it, and the
  // first one answers the AUTH payload: the token of this login under the payload's own id, or an
  // error and nothing after it.
  lemma FramesMatchConnection(init: State, events: seq<Event>, c: Conn)
    requires Init(init) && c in Run(init, events).handlers
    ensures var h := Run(init, events).handlers[c];
            && (forall k :: 0 <= k < |h.out| ==> h.out[k].key == h.key)
            && (h.out != [] ==>
                  || (h.authed && h.token.Some? && h.claim.Some?
                      && h.out[0].frame == TokenAck(h.claim.value.ref, h.token.value))
                  || (!h.authed && |h.out| == 1 && h.out[0].frame.Error?))
  {
    var s := Run(init, events);
    ReachableInv(init, events);
    assert HandlerOk(s, c);
    forall k | 0 <= k < |s.handlers[c].out|
      ensures s.handlers[c].out[k].key == s.handlers[c].key
    {
      assert WireOk(s, s.handlers[c].key, s.handlers[c].out[k]);
    }
  }
}
