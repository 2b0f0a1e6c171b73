// What every step of the server machine keeps.

module Invariants {
  import opened Bytes
  import opened Store
  import opened Protocol
  import opened Server

  // ------------------------------------------------------------------
  // Facts that, once true, stay true
  // ------------------------------------------------------------------

  ghost predicate HandlerGrows(a: Handler, b: Handler)
  {
    && b.key == a.key
    && a.out <= b.out
    && (a.authed ==> b.authed)
    && (a.claim.Some? ==> b.claim == a.claim)
    && (a.token.Some? ==> b.token == a.token)
  }

  ghost predicate Grows(s: State, t: State)
  {
    && t.base == s.base
    && t.verify == s.verify
    && s.now <= t.now
    && s.issued <= t.issued
    && Keeps(s.committed.store, t.committed.store)
    && (forall c :: c in s.handlers ==> c in t.handlers && HandlerGrows(s.handlers[c], t.handlers[c]))
  }

  // An insert for exactly this content was enqueued, or the starting table held it.
  ghost predicate Stored(s: State, id: MessageId, m: Message)
  {
    InsertMessage(id, m) in s.issued || (id in s.base.messages && s.base.messages[id].msg == m)
  }

  predicate Chatted(out: seq<Wire>, p: Payload)
  {
    exists k :: 0 <= k < |out| && out[k].frame == Chat(p)
  }

  // The payload was placed on a connection that logged in as its recipient.
  ghost predicate HandedOn(s: State, c: Conn, id: MessageId, m: Message)
  {
    && c in s.handlers
    && s.handlers[c].authed
    && s.handlers[c].claim.Some?
    && s.handlers[c].claim.value.user == m.recipient
    && Chatted(s.handlers[c].out, PayloadOf(id, m))
  }

  ghost predicate Handed(s: State, id: MessageId, m: Message)
  {
    exists c :: HandedOn(s, c, id, m)
  }

  // A message stored under the id was addressed to the server or handed to its recipient.
  ghost predicate Justified(s: State, id: MessageId)
  {
    exists m :: Stored(s, id, m) && (m.recipient == "server" || Handed(s, id, m))
  }

  // The password check this claim passed, against a hash that is committed for the user.
  ghost predicate Authentic(s: State, claim: Claim)
  {
    && claim.user in s.committed.store.users
    && claim.password.Text?
    && s.verify(s.committed.store.users[claim.user], claim.password.text)
  }

  // The login of some handler as this user drew this token.
  ghost predicate IssuedTo(s: State, token: SessionToken, user: User)
  {
    exists c :: c in s.handlers && s.handlers[c].token == Some(token) && s.handlers[c].claim.Some?
                && s.handlers[c].claim.value.user == user && Authentic(s, s.handlers[c].claim.value)
  }

  // ------------------------------------------------------------------
  // The queue
  // ------------------------------------------------------------------

  // The queue is the unexecuted tail of everything issued, and the committed store is the rest, run.
  ghost predicate QueueOk(s: State)
  {
    && 0 <= Done(s) <= |s.issued|
    && s.queue == s.issued[Done(s)..]
    && s.committed.store == RunTasks(s.base, s.issued[..Done(s)])
  }

  // A message row for id exists, or its insert is ahead of position i.
  ghost predicate InsertAhead(s: State, i: nat, id: MessageId)
    requires i <= |s.issued|
  {
    id in s.base.messages || exists j :: 0 <= j < i && s.issued[j].InsertMessage? && s.issued[j].id == id
  }

  ghost predicate TaskOk(s: State, i: nat)
    requires i < |s.issued|
  {
    match s.issued[i]
    case UpdateDelivery(id, status) => status == Delivered && InsertAhead(s, i, id) && Justified(s, id)
    case InsertSession(token, user, expiresAt) =>
      && user in RunTasks(s.base, s.issued[..i]).users
      && IssuedTo(s, token, user)
      && expiresAt <= s.now + 3600.0
    case InsertUser(user, _) => user !in s.base.users
    case _ => true
  }

  ghost predicate TasksOk(s: State)
  {
    forall i {:trigger TaskOk(s, i)} :: 0 <= i < |s.issued| ==> TaskOk(s, i)
  }

  // A registration under way found its name free, so no account had it at the start.
  ghost predicate CallsOk(s: State)
  {
    forall call :: call in s.calls && call.Registering? ==> call.user !in s.base.users
  }

  // ------------------------------------------------------------------
  // Routes and connections
  // ------------------------------------------------------------------

  ghost predicate RouteTo(s: State, user: User, r: Route)
  {
    && r.conn in s.handlers
    && s.handlers[r.conn].authed
    && s.handlers[r.conn].claim.Some?
    && s.handlers[r.conn].claim.value.user == user
    && s.handlers[r.conn].key == r.key
  }

  predicate Gone(pc: PC)
  {
    pc.Closing? || pc.Closed?
  }

  ghost predicate EntryOk(s: State, u: User)
    requires u in s.router
  {
    RouteTo(s, u, s.router[u]) && !Gone(s.handlers[s.router[u].conn].pc)
  }

  ghost predicate RouterOk(s: State)
  {
    forall u {:trigger EntryOk(s, u)} :: u in s.router ==> EntryOk(s, u)
  }

  // An acknowledgement is sent only after the insert was enqueued, and 'delivered' after the update.
  ghost predicate FrameOk(s: State, f: Frame)
  {
    match f
    case Ack(ref, status) =>
      && (exists m :: InsertMessage(ref, m) in s.issued)
      && (status == Sent || (status == Delivered && UpdateDelivery(ref, Delivered) in s.issued))
    case Chat(p) => p.kind == ChatType && Stored(s, p.id, MessageOf(p))
    case _ => true
  }

  ghost predicate WireOk(s: State, key: Key, w: Wire)
  {
    w.key == key && FrameOk(s, w.frame)
  }

  ghost predicate OutOk(s: State, h: Handler)
  {
    && (forall k {:trigger WireOk(s, h.key, h.out[k])} :: 0 <= k < |h.out| ==> WireOk(s, h.key, h.out[k]))
    && (h.out != [] ==> if h.authed
                        then h.claim.Some? && h.token.Some?
                             && h.out[0].frame == TokenAck(h.claim.value.ref, h.token.value)
                        else |h.out| == 1 && h.out[0].frame.Error?)
    && (h.authed ==> h.out != [] && h.claim.Some? && Authentic(s, h.claim.value))
  }

  // ------------------------------------------------------------------
  // Where a handler stands
  // ------------------------------------------------------------------

  ghost predicate Unanswered(h: Handler)
  {
    !h.authed && h.out == []
  }

  ghost predicate PendingOk(s: State, user: User, p: Pending)
  {
    && p.id in s.committed.store.messages
    && s.committed.store.messages[p.id].msg == p.msg
    && p.msg.recipient == user
  }

  ghost predicate Taken(s: State, h: Handler, p: Payload)
  {
    h.authed && p.kind == ChatType && InsertMessage(p.id, MessageOf(p)) in s.issued
  }

  ghost predicate PcOk(s: State, c: Conn, h: Handler)
  {
    match h.pc
    case AwaitAuth => Unanswered(h) && h.claim.None? && h.token.None?
    case Refuse(f) => Unanswered(h) && f.Error?
    case Login => Unanswered(h) && h.claim.Some? && h.token.None?
    case Issue => Unanswered(h) && h.claim.Some? && h.token.None? && Authentic(s, h.claim.value)
    case SendToken => Unanswered(h) && h.claim.Some? && h.token.Some? && Authentic(s, h.claim.value)
    case Enter | ReadPending | Loop => h.authed
    case Drain(rest) =>
      h.authed && h.claim.Some? && forall k :: 0 <= k < |rest| ==> PendingOk(s, h.claim.value.user, rest[k])
    case MarkDrained(rest) =>
      && h.authed && h.claim.Some? && rest != []
      && (forall k :: 0 <= k < |rest| ==> PendingOk(s, h.claim.value.user, rest[k]))
      && Chatted(h.out, PayloadOf(rest[0].id, rest[0].msg))
    case CheckReplay(p) => h.authed && p.kind == ChatType
    case Record(p) => h.authed && p.kind == ChatType
    case Persist(p) => h.authed && p.kind == ChatType
    case MarkServer(p) => Taken(s, h, p) && p.to == "server"
    case Lookup(p) => Taken(s, h, p)
    case Forward(p, route) => Taken(s, h, p) && RouteTo(s, p.to, route)
    case MarkForwarded(p) => Taken(s, h, p) && Handed(s, p.id, MessageOf(p))
    case Confirm(p) => Taken(s, h, p) && UpdateDelivery(p.id, Delivered) in s.issued
    case Reply(f) => h.authed && (f.Ack? || f.Error?) && FrameOk(s, f)
    case _ => true
  }

  ghost predicate HandlerOk(s: State, c: Conn)
    requires c in s.handlers
  {
    PcOk(s, c, s.handlers[c]) && OutOk(s, s.handlers[c])
  }

  ghost predicate HandlersOk(s: State)
  {
    forall c {:trigger HandlerOk(s, c)} :: c in s.handlers ==> HandlerOk(s, c)
  }

  ghost predicate Inv(s: State)
  {
    QueueOk(s) && TasksOk(s) && CallsOk(s) && RouterOk(s) && HandlersOk(s)
  }

  // ------------------------------------------------------------------
  // Growth preserves every fact
  // ------------------------------------------------------------------

  lemma KeepsHanded(s: State, t: State, id: MessageId, m: Message)
    requires Grows(s, t) && Handed(s, id, m)
    ensures Handed(t, id, m)
  {
    var c :| HandedOn(s, c, id, m);
    var k :| 0 <= k < |s.handlers[c].out| && s.handlers[c].out[k].frame == Chat(PayloadOf(id, m));
    assert t.handlers[c].out[k].frame == Chat(PayloadOf(id, m));
    assert HandedOn(t, c, id, m);
  }

  lemma KeepsJustified(s: State, t: State, id: MessageId)
    requires Grows(s, t) && Justified(s, id)
    ensures Justified(t, id)
  {
    var m :| Stored(s, id, m) && (m.recipient == "server" || Handed(s, id, m));
    assert Stored(t, id, m);
    if m.recipient != "server" {
      KeepsHanded(s, t, id, m);
    }
  }

  lemma KeepsIssuedTo(s: State, t: State, token: SessionToken, user: User)
    requires Grows(s, t) && IssuedTo(s, token, user)
    ensures IssuedTo(t, token, user)
  {
    var c :| c in s.handlers && s.handlers[c].token == Some(token) && s.handlers[c].claim.Some?
             && s.handlers[c].claim.value.user == user && Authentic(s, s.handlers[c].claim.value);
    assert HandlerGrows(s.handlers[c], t.handlers[c]);
    assert Authentic(t, t.handlers[c].claim.value);
  }

  lemma KeepsTask(s: State, t: State, i: nat)
    requires Grows(s, t) && i < |s.issued| && TaskOk(s, i)
    ensures TaskOk(t, i)
  {
    assert t.issued[i] == s.issued[i] && t.issued[..i] == s.issued[..i];
    match s.issued[i]
    case UpdateDelivery(id, _) =>
      KeepsJustified(s, t, id);
      if id !in s.base.messages {
        var j :| 0 <= j < i && s.issued[j].InsertMessage? && s.issued[j].id == id;
        assert t.issued[j].InsertMessage? && t.issued[j].id == id;
      }
    case InsertSession(token, user, _) => KeepsIssuedTo(s, t, token, user);
    case _ =>
  }

  lemma KeepsFrame(s: State, t: State, f: Frame)
    requires Grows(s, t) && FrameOk(s, f)
    ensures FrameOk(t, f)
  {
    assert forall x :: x in s.issued ==> x in t.issued;
  }

  lemma KeepsPc(s: State, t: State, c: Conn, h: Handler)
    requires Grows(s, t) && PcOk(s, c, h)
    ensures PcOk(t, c, h)
  {
    assert forall x :: x in s.issued ==> x in t.issued;
    match h.pc
    case Forward(p, route) => assert HandlerGrows(s.handlers[route.conn], t.handlers[route.conn]);
    case MarkForwarded(p) => KeepsHanded(s, t, p.id, MessageOf(p));
    case Reply(f) => KeepsFrame(s, t, f);
    case Drain(rest) => assert forall k :: 0 <= k < |rest| ==> PendingOk(s, h.claim.value.user, rest[k]);
    case MarkDrained(rest) => assert forall k :: 0 <= k < |rest| ==> PendingOk(s, h.claim.value.user, rest[k]);
    case _ =>
  }

  lemma KeepsOut(s: State, t: State, h: Handler)
    requires Grows(s, t) && OutOk(s, h)
    ensures OutOk(t, h)
  {
    forall k | 0 <= k < |h.out|
      ensures WireOk(t, h.key, h.out[k])
    {
      assert WireOk(s, h.key, h.out[k]);
      KeepsFrame(s, t, h.out[k].frame);
    }
  }

  // A handler that only gained wires that belong on it keeps its place and its record.
  lemma KeepsPcOut(s: State, c: Conn, h: Handler, g: Handler)
    requires PcOk(s, c, h) && g == h.(out := g.out) && h.out <= g.out && h.authed
    ensures PcOk(s, c, g)
  {
    match h.pc
    case MarkDrained(rest) =>
      var k :| 0 <= k < |h.out| && h.out[k].frame == Chat(PayloadOf(rest[0].id, rest[0].msg));
      assert g.out[k] == h.out[k];
    case _ =>
  }
}
