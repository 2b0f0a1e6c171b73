// Draining the offline mailbox: one drain, and any series of interrupted ones.

module Mailbox {
  import opened Bytes
  import opened Store
  import opened Protocol
  import opened Server
  import opened Uninterrupted

  // The delivery updates for a list of rows, and the frames they were delivered as.
  function Marks(rows: seq<Pending>): seq<Task>
  {
    if rows == [] then []
    else Marks(rows[..|rows| - 1]) + [UpdateDelivery(rows[|rows| - 1].id, Delivered)]
  }

  function Chats(key: Key, rows: seq<Pending>): seq<Wire>
  {
    if rows == [] then []
    else Chats(key, rows[..|rows| - 1]) + [Wire(key, Chat(PayloadOf(rows[|rows| - 1].id, rows[|rows| - 1].msg)))]
  }

  // The k-th frame and task of a drain, spelt out.
  lemma {:induction false} DrainedFrame(key: Key, rows: seq<Pending>, k: nat)
    requires k < |rows|
    ensures |Chats(key, rows)| == |rows| == |Marks(rows)|
    ensures var Pending(id, m) := rows[k];
            && Chats(key, rows)[k] == Wire(key, Chat(Payload(id, m.createdAt, ChatType, m.sender, m.recipient, m.text)))
            && Marks(rows)[k] == UpdateDelivery(id, Delivered)
  {
    DrainedLength(key, rows);
    var n := |rows| - 1;
    if k < n {
      DrainedLength(key, rows[..n]);
      DrainedFrame(key, rows[..n], k);
    }
  }

  lemma {:induction false} DrainedLength(key: Key, rows: seq<Pending>)
    ensures |Chats(key, rows)| == |rows| == |Marks(rows)|
  {
    if rows != [] {
      DrainedLength(key, rows[..|rows| - 1]);
    }
  }

  // What get_pending_messages returns, spelt out: exactly the rows for this user that are still sent,
  // each once, the oldest first.
  lemma PendingListMeans(messages: map<MessageId, Row>, user: User, rows: seq<Pending>)
    ensures IsPendingList(messages, user, rows) <==>
            && (forall p :: p in rows ==>
                  p.id in messages && p.msg == messages[p.id].msg
                  && messages[p.id].status == Sent && messages[p.id].msg.recipient == user)
            && (forall id :: id in messages && messages[id].status == Sent && messages[id].msg.recipient == user ==>
                  Pending(id, messages[id].msg) in rows)
            && (forall i, j :: 0 <= i < j < |rows| ==> rows[i].id != rows[j].id && rows[i].msg.createdAt <= rows[j].msg.createdAt)
  {
    if IsPendingList(messages, user, rows) {
      PendingListHolds(messages, user, rows);
    }
    if (forall p :: p in rows ==>
          p.id in messages && p.msg == messages[p.id].msg
          && messages[p.id].status == Sent && messages[p.id].msg.recipient == user)
       && (forall id :: id in messages && messages[id].status == Sent && messages[id].msg.recipient == user ==>
             Pending(id, messages[id].msg) in rows)
       && (forall i, j :: 0 <= i < j < |rows| ==> rows[i].id != rows[j].id && rows[i].msg.createdAt <= rows[j].msg.createdAt) {
      forall i | 0 <= i < |rows|
        ensures PendingRow(messages, user, rows[i])
      {
        assert rows[i] in rows;
      }
    }
  }

  lemma PendingListHolds(messages: map<MessageId, Row>, user: User, rows: seq<Pending>)
    requires IsPendingList(messages, user, rows)
    ensures forall p :: p in rows ==>
              p.id in messages && p.msg == messages[p.id].msg
              && messages[p.id].status == Sent && messages[p.id].msg.recipient == user
    ensures forall id :: id in messages && messages[id].status == Sent && messages[id].msg.recipient == user ==>
              Pending(id, messages[id].msg) in rows
    ensures forall i, j :: 0 <= i < j < |rows| ==> rows[i].id != rows[j].id && rows[i].msg.createdAt <= rows[j].msg.createdAt
  {
    forall p | p in rows
      ensures PendingRow(messages, user, p)
    {
      var i :| 0 <= i < |rows| && rows[i] == p;
      assert PendingRow(messages, user, rows[i]);
    }
    forall id | id in messages && messages[id].status == Sent && messages[id].msg.recipient == user
      ensures Pending(id, messages[id].msg) in rows
    {
      assert Covered(messages, user, rows, id);
      var i :| 0 <= i < |rows| && rows[i].id == id;
      assert PendingRow(messages, user, rows[i]);
    }
    forall i, j | 0 <= i < j < |rows|
      ensures rows[i].id != rows[j].id && rows[i].msg.createdAt <= rows[j].msg.createdAt
    {
      assert InOrder(rows[i], rows[j]);
    }
  }

  // ------------------------------------------------------------------
  // One drain by a handler
  // ------------------------------------------------------------------

  function DrainSteps(c: Conn, n: nat): seq<Event>
  {
    if n == 0 then [] else DrainSteps(c, n - 1) + [Advance(c, Sends(true)), Advance(c, Go)]
  }

  // Read the list, deliver and mark n rows, then fail on the next send or finish.
  function DrainEvents(c: Conn, rows: seq<Pending>, n: nat): seq<Event>
  {
    [Advance(c, Rows(rows))] + DrainSteps(c, n) + [Advance(c, Sends(false))]
  }

  function Drained(s: State, c: Conn, pc: PC, rows: seq<Pending>): State
    requires c in s.handlers
  {
    var h := s.handlers[c];
    s.(handlers := s.handlers[c := h.(pc := pc, out := h.out + Chats(h.key, rows))],
       queue := s.queue + Marks(rows), issued := s.issued + Marks(rows))
  }

  lemma DrainedNone(s: State, c: Conn, rows: seq<Pending>)
    requires c in s.handlers && s.handlers[c].pc == Drain(rows)
    ensures Drained(s, c, Drain(rows[0..]), rows[..0]) == s
  {
    assert rows[0..] == rows && rows[..0] == [];
    assert s.handlers[c].out + [] == s.handlers[c].out && s.queue + [] == s.queue && s.issued + [] == s.issued;
    assert s.handlers[c := s.handlers[c]] == s.handlers;
  }

  lemma {:induction false} DrainStepsRun(s: State, c: Conn, rows: seq<Pending>, n: nat)
    requires c in s.handlers && n <= |rows| && s.handlers[c].pc == Drain(rows)
    ensures Run(s, DrainSteps(c, n)) == Drained(s, c, Drain(rows[n..]), rows[..n])
  {
    hide Next, Drained;
    if n == 0 {
      DrainedNone(s, c, rows);
    } else {
      hide Run;
      DrainStepsRun(s, c, rows, n - 1);
      RunAppend(s, DrainSteps(c, n - 1), [Advance(c, Sends(true)), Advance(c, Go)]);
      DrainTwo(s, c, rows, n);
    }
  }

  lemma DrainSend(a: State, c: Conn, rest: seq<Pending>)
    requires c in a.handlers && a.handlers[c].pc == Drain(rest) && rest != []
    ensures var h := a.handlers[c];
            Next(a, Advance(c, Sends(true)))
            == a.(handlers := a.handlers[c := h.(pc := MarkDrained(rest),
                                                 out := h.out + [Wire(h.key, Chat(PayloadOf(rest[0].id, rest[0].msg)))])])
  {
  }

  lemma DrainMark(b: State, c: Conn, rest: seq<Pending>)
    requires c in b.handlers && b.handlers[c].pc == MarkDrained(rest) && rest != []
    ensures Next(b, Advance(c, Go))
            == Push(b.(handlers := b.handlers[c := b.handlers[c].(pc := Drain(rest[1..]))]),
                    UpdateDelivery(rest[0].id, Delivered))
  {
  }

  lemma DrainTwo(s: State, c: Conn, rows: seq<Pending>, n: nat)
    requires c in s.handlers && 0 < n <= |rows|
    ensures Run(Drained(s, c, Drain(rows[n - 1..]), rows[..n - 1]), [Advance(c, Sends(true)), Advance(c, Go)])
            == Drained(s, c, Drain(rows[n..]), rows[..n])
  {
    hide Next, Run;
    var a := Drained(s, c, Drain(rows[n - 1..]), rows[..n - 1]);
    RunTwo(a, Advance(c, Sends(true)), Advance(c, Go));
    DrainSend(a, c, rows[n - 1..]);
    DrainMark(Next(a, Advance(c, Sends(true))), c, rows[n - 1..]);
    var row := rows[n - 1];
    assert rows[..n][..n - 1] == rows[..n - 1] && rows[n - 1..][0] == row && rows[n - 1..][1..] == rows[n..];
    var h := s.handlers[c];
    assert h.out + Chats(h.key, rows[..n - 1]) + [Wire(h.key, Chat(PayloadOf(row.id, row.msg)))]
        == h.out + Chats(h.key, rows[..n]);
    assert s.queue + Marks(rows[..n - 1]) + [UpdateDelivery(row.id, Delivered)] == s.queue + Marks(rows[..n]);
    assert s.issued + Marks(rows[..n - 1]) + [UpdateDelivery(row.id, Delivered)] == s.issued + Marks(rows[..n]);
  }

  lemma DrainStop(s: State, c: Conn, rest: seq<Pending>, rows: seq<Pending>)
    requires c in s.handlers
    ensures Next(Drained(s, c, Drain(rest), rows), Advance(c, Sends(false))) == Drained(s, c, Loop, rows)
  {
  }

  lemma DrainStart(s: State, c: Conn, rows: seq<Pending>)
    requires c in s.handlers && s.handlers[c].pc == ReadPending && s.handlers[c].claim.Some?
    requires IsPendingList(s.committed.store.messages, s.handlers[c].claim.value.user, rows)
    ensures Next(s, Advance(c, Rows(rows))) == s.(handlers := s.handlers[c := s.handlers[c].(pc := Drain(rows))])
  {
  }

  lemma DrainedFrom(s: State, a: State, c: Conn, pc: PC, start: PC, rows: seq<Pending>)
    requires c in s.handlers && a == s.(handlers := s.handlers[c := s.handlers[c].(pc := start)])
    ensures Drained(a, c, pc, rows) == Drained(s, c, pc, rows)
  {
  }

  // A drain that is cut short after n sends has delivered the first n rows of the list it read, in
  // order, and has marked exactly those; with n the whole list it simply finishes.
  lemma DrainRun(s: State, c: Conn, rows: seq<Pending>, n: nat)
    requires c in s.handlers && s.handlers[c].pc == ReadPending && s.handlers[c].claim.Some? && n <= |rows|
    requires IsPendingList(s.committed.store.messages, s.handlers[c].claim.value.user, rows)
    ensures Run(s, DrainEvents(c, rows, n)) == Drained(s, c, Loop, rows[..n])
  {
    var read, stop := Advance(c, Rows(rows)), Advance(c, Sends(false));
    var a := Next(s, read);
    DrainStart(s, c, rows);
    assert DrainEvents(c, rows, n) == [read] + (DrainSteps(c, n) + [stop]);
    RunCons(s, read, DrainSteps(c, n) + [stop]);
    RunAppend(a, DrainSteps(c, n), [stop]);
    DrainStepsRun(a, c, rows, n);
    RunOne(Drained(a, c, Drain(rows[n..]), rows[..n]), stop);
    DrainStop(a, c, rows[n..], rows[..n]);
    DrainedFrom(s, a, c, Loop, Drain(rows), rows[..n]);
  }

  // ------------------------------------------------------------------
  // What a visit leaves in the mailbox
  // ------------------------------------------------------------------

  // The messages table once these rows have been marked delivered.
  ghost function Marked(messages: map<MessageId, Row>, rows: seq<Pending>): map<MessageId, Row>
  {
    map id | id in messages :: if Lists(rows, id) then messages[id].(status := Delivered) else messages[id]
  }

  lemma ListsSnoc(rows: seq<Pending>, id: MessageId)
    requires rows != []
    ensures Lists(rows, id) <==> Lists(rows[..|rows| - 1], id) || id == rows[|rows| - 1].id
  {
    var front := rows[..|rows| - 1];
    if Lists(front, id) {
      var i :| 0 <= i < |front| && front[i].id == id;
      assert rows[i].id == id;
    }
    if Lists(rows, id) && id != rows[|rows| - 1].id {
      var i :| 0 <= i < |rows| && rows[i].id == id;
      assert front[i].id == id;
    }
  }

  lemma MarkOne(messages: map<MessageId, Row>, rows: seq<Pending>)
    requires rows != []
    ensures var id := rows[|rows| - 1].id;
            var before := Marked(messages, rows[..|rows| - 1]);
            Marked(messages, rows) == if id in before then before[id := before[id].(status := Delivered)] else before
  {
    hide Lists;
    var id := rows[|rows| - 1].id;
    forall x
      ensures Lists(rows, x) <==> Lists(rows[..|rows| - 1], x) || x == id
    {
      ListsSnoc(rows, x);
    }
  }

  lemma {:induction false} MarksEffect(t: Store, rows: seq<Pending>)
    ensures RunTasks(t, Marks(rows)).messages == Marked(t.messages, rows)
  {
    if rows != [] {
      hide Marked;
      var front := rows[..|rows| - 1];
      MarksEffect(t, front);
      RunTasksSnoc(t, Marks(front), UpdateDelivery(rows[|rows| - 1].id, Delivered));
      MarkOne(t.messages, rows);
    } else {
      assert forall id :: !Lists([], id);
    }
  }

  // A row that is pending after the first n rows of a list were marked is one of the others.
  lemma StillPending(messages: map<MessageId, Row>, user: User, rows: seq<Pending>, n: nat, rest: seq<Pending>, j: nat)
    returns (m: nat)
    requires n <= |rows| && IsPendingList(messages, user, rows)
    requires IsPendingList(Marked(messages, rows[..n]), user, rest) && j < |rest|
    ensures n <= m < |rows| && rows[m] == rest[j]
  {
    var id := rest[j].id;
    assert PendingRow(Marked(messages, rows[..n]), user, rest[j]);
    assert Covered(messages, user, rows, id);
    m :| 0 <= m < |rows| && rows[m].id == id;
    assert PendingRow(messages, user, rows[m]);
    assert forall k :: 0 <= k < n ==> rows[..n][k] == rows[k];
  }

  lemma StillListed(messages: map<MessageId, Row>, user: User, out: seq<Pending>, rest: seq<Pending>, id: MessageId)
    requires IsPendingList(Marked(messages, out), user, rest) && id in messages
    ensures Covered(messages, user, out + rest, id)
  {
    assert Covered(Marked(messages, out), user, rest, id);
    if Lists(out, id) {
      var i :| 0 <= i < |out| && out[i].id == id;
      assert (out + rest)[i].id == id;
    } else if Lists(rest, id) {
      var j :| 0 <= j < |rest| && rest[j].id == id;
      assert (out + rest)[|out| + j].id == id;
    }
  }

  // Whatever list is pending after the first n rows were delivered and marked, putting these rows back
  // in front of it gives a pending list from before.
  lemma VisitConserves(messages: map<MessageId, Row>, user: User, rows: seq<Pending>, n: nat, rest: seq<Pending>)
    requires n <= |rows| && IsPendingList(messages, user, rows)
    requires IsPendingList(Marked(messages, rows[..n]), user, rest)
    ensures IsPendingList(messages, user, rows[..n] + rest)
  {
    var out := rows[..n];
    var all := out + rest;
    forall i | 0 <= i < |all|
      ensures PendingRow(messages, user, all[i])
    {
      if i < n {
        assert PendingRow(messages, user, rows[i]);
      } else {
        var m := StillPending(messages, user, rows, n, rest, i - n);
        assert PendingRow(messages, user, rows[m]);
      }
    }
    forall id | id in messages
      ensures Covered(messages, user, all, id)
    {
      StillListed(messages, user, out, rest, id);
    }
    forall i, j | 0 <= i < j < |all|
      ensures InOrder(all[i], all[j])
    {
      if j < n {
        assert InOrder(rows[i], rows[j]);
      } else if i < n {
        var m := StillPending(messages, user, rows, n, rest, j - n);
        assert InOrder(rows[i], rows[m]);
      } else {
        assert InOrder(rest[i - n], rest[j - n]);
      }
    }
  }

  // ------------------------------------------------------------------
  // A series of interrupted logins
  // ------------------------------------------------------------------

  // A new connection that logs in with this AUTH payload, reads this list, is cut off after sent of its
  // rows and leaves.
  datatype Visit = Visit(conn: Conn, key: Key, auth: Request, token: SessionToken, rows: seq<Pending>, sent: nat)

  function LeaveEvents(c: Conn): seq<Event>
  {
    [Advance(c, Arrives(Eof)), Advance(c, Go)] + [Advance(c, Go)]
  }

  // The whole visit, and the writer until its queue is empty.
  function VisitEvents(v: Visit): seq<Event>
    requires v.sent <= |v.rows|
  {
    ([Connect(v.conn, v.key)] + LoginEvents(v.conn, v.auth, v.token))
    + ((DrainEvents(v.conn, v.rows, v.sent) + LeaveEvents(v.conn)) + Writes(1 + |Marks(v.rows[..v.sent])|))
  }

  ghost predicate ValidVisit(s: State, user: User, v: Visit)
  {
    && v.conn !in s.handlers && v.sent <= |v.rows|
    && AuthOutcome(s.committed.store.users, s.verify, v.auth) == Granted(user)
    && IsPendingList(s.committed.store.messages, user, v.rows)
  }

  lemma ConnectStep(s: State, c: Conn, key: Key)
    requires c !in s.handlers
    ensures Next(s, Connect(c, key)) == s.(handlers := s.handlers[c := Handler(key, AwaitAuth, None, None, false, [], [])])
  {
  }

  // The visit up to the point where its list is read.
  lemma VisitEnters(s: State, user: User, v: Visit)
    requires ValidVisit(s, user, v)
    ensures var t := Run(s, [Connect(v.conn, v.key)] + LoginEvents(v.conn, v.auth, v.token));
            && v.conn in t.handlers && t.handlers[v.conn].pc == ReadPending
            && t.handlers[v.conn].claim.Some? && t.handlers[v.conn].claim.value.user == user
            && t.handlers[v.conn].out == [Wire(v.key, TokenAck(v.auth.p.id, v.token))]
            && t.handlers[v.conn].key == v.key
            && t.queue == s.queue + [InsertSession(v.token, user, s.now + SESSION_EXPIRY)]
            && t.committed == s.committed
            && (forall x :: x in s.handlers ==> x in t.handlers && t.handlers[x] == s.handlers[x])
  {
    hide Next, Run, IsPendingList;
    var a := Next(s, Connect(v.conn, v.key));
    RunCons(s, Connect(v.conn, v.key), LoginEvents(v.conn, v.auth, v.token));
    ConnectStep(s, v.conn, v.key);
    LoginRun(a, v.conn, v.auth, v.token);
  }

  // The route of the name the connection logged in as, if any, is gone.
  function WithoutRoute(router: map<User, Route>, claim: Option<Claim>): map<User, Route>
  {
    match claim case Some(k) => router - {k.user} case None => router
  }

  // Leaving touches neither the queue nor what was sent, and takes the route of the name along.
  lemma LeaveRun(s: State, c: Conn)
    requires c in s.handlers && s.handlers[c].pc == Loop
    ensures var t := Run(s, LeaveEvents(c));
            && c in t.handlers && t.handlers[c].out == s.handlers[c].out && t.handlers[c].pc == Closed
            && t.queue == s.queue && t.committed == s.committed && t.verify == s.verify
            && t.router == WithoutRoute(s.router, s.handlers[c].claim)
            && (forall x :: x in s.handlers && x != c ==> x in t.handlers && t.handlers[x] == s.handlers[x])
  {
    hide Run, Next, WithoutRoute;
    var e, g := Advance(c, Arrives(Eof)), Advance(c, Go);
    RunAppend(s, [e, g], [g]);
    RunTwo(s, e, g);
    LeaveLoop(s, c);
    LeaveClose(Next(s, e), c, Go);
    RunOne(Next(Next(s, e), g), g);
    LeaveClose(Next(Next(s, e), g), c, Go);
  }

  lemma LeaveLoop(s: State, c: Conn)
    requires c in s.handlers && s.handlers[c].pc == Loop
    ensures Next(s, Advance(c, Arrives(Eof))) == s.(handlers := s.handlers[c := s.handlers[c].(pc := Leave)])
  {
  }

  lemma LeaveClose(s: State, c: Conn, i: Input)
    requires c in s.handlers && (s.handlers[c].pc == Leave || s.handlers[c].pc == Closing)
    ensures var t := Next(s, Advance(c, i));
            && c in t.handlers && t.handlers[c].pc == (if s.handlers[c].pc == Leave then Closing else Closed)
            && t.handlers[c].out == s.handlers[c].out && t.queue == s.queue && t.committed == s.committed
            && t.verify == s.verify
            && t.router == (if s.handlers[c].pc == Leave then WithoutRoute(s.router, s.handlers[c].claim) else s.router)
            && (forall x :: x in s.handlers && x != c ==> x in t.handlers && t.handlers[x] == s.handlers[x])
  {
    hide StepLogin, StepDrain, StepMessage;
  }

  // The visit without the writer.
  lemma VisitServes(s: State, user: User, v: Visit)
    requires ValidVisit(s, user, v) && s.queue == []
    ensures var out := v.rows[..v.sent];
            var d := Run(s, ([Connect(v.conn, v.key)] + LoginEvents(v.conn, v.auth, v.token))
                            + (DrainEvents(v.conn, v.rows, v.sent) + LeaveEvents(v.conn)));
            && d.queue == [InsertSession(v.token, user, s.now + SESSION_EXPIRY)] + Marks(out)
            && d.committed == s.committed && v.conn in d.handlers
            && d.handlers[v.conn].out == [Wire(v.key, TokenAck(v.auth.p.id, v.token))] + Chats(v.key, out)
            && (forall x :: x in s.handlers ==> x in d.handlers && d.handlers[x] == s.handlers[x])
  {
    hide Next, Run, IsPendingList, DrainEvents, LeaveEvents, LoginEvents, WithoutRoute, AuthOutcome, Marks, Chats;
    var enter := [Connect(v.conn, v.key)] + LoginEvents(v.conn, v.auth, v.token);
    var drain, leave := DrainEvents(v.conn, v.rows, v.sent), LeaveEvents(v.conn);
    VisitEnters(s, user, v);
    var a := Run(s, enter);
    RunAppend(s, enter, drain + leave);
    RunAppend(a, drain, leave);
    DrainRun(a, v.conn, v.rows, v.sent);
    LeaveRun(Drained(a, v.conn, Loop, v.rows[..v.sent]), v.conn);
    assert s.queue + [InsertSession(v.token, user, s.now + SESSION_EXPIRY)]
        == [InsertSession(v.token, user, s.now + SESSION_EXPIRY)];
  }

  // One visit: the token and the first sent rows go out, exactly these rows are marked, nothing is
  // left in the queue, and no other connection sees anything of it.
  lemma VisitRun(s: State, user: User, v: Visit)
    requires ValidVisit(s, user, v) && s.queue == []
    ensures var t := Run(s, VisitEvents(v));
            var out := v.rows[..v.sent];
            && t.queue == [] && t.committed.store.messages == Marked(s.committed.store.messages, out)
            && v.conn in t.handlers
            && t.handlers[v.conn].out == [Wire(v.key, TokenAck(v.auth.p.id, v.token))] + Chats(v.key, out)
            && (forall x :: x in s.handlers ==> x in t.handlers && t.handlers[x] == s.handlers[x])
  {
    hide Next, Run, IsPendingList, Marked, DrainEvents, LeaveEvents, LoginEvents, RunTasks, Apply, AuthOutcome;
    var out, login := v.rows[..v.sent], InsertSession(v.token, user, s.now + SESSION_EXPIRY);
    var enter := [Connect(v.conn, v.key)] + LoginEvents(v.conn, v.auth, v.token);
    var serve := enter + (DrainEvents(v.conn, v.rows, v.sent) + LeaveEvents(v.conn));
    var writes := Writes(1 + |Marks(out)|);
    VisitServes(s, user, v);
    assert VisitEvents(v) == serve + writes;
    RunAppend(s, serve, writes);
    var d := Run(s, serve);
    WritesRun(d, |d.queue|);
    assert d.queue[..|d.queue|] == d.queue && d.queue[|d.queue|..] == [];
    VisitTasks(s.committed.store, login, out);
  }

  lemma VisitTasks(t: Store, login: Task, rows: seq<Pending>)
    requires login.InsertSession?
    ensures RunTasks(t, [login] + Marks(rows)).messages == Marked(t.messages, rows)
  {
    RunTasksAppend(t, [login], Marks(rows));
    RunTasksSnoc(t, [], login);
    assert [] + [login] == [login];
    MarksEffect(RunTasks(t, [login]), rows);
  }

  ghost predicate ValidVisits(s: State, user: User, visits: seq<Visit>)
    decreases |visits|
  {
    visits != [] ==> ValidVisit(s, user, visits[0]) && ValidVisits(Run(s, VisitEvents(visits[0])), user, visits[1..])
  }

  ghost function AfterVisits(s: State, user: User, visits: seq<Visit>): State
    requires ValidVisits(s, user, visits)
    decreases |visits|
  {
    if visits == [] then s else AfterVisits(Run(s, VisitEvents(visits[0])), user, visits[1..])
  }

  // The rows whose chat frames are on a connection, in order.
  function ChatRows(out: seq<Wire>): seq<Pending>
  {
    if out == [] then []
    else
      var last := out[|out| - 1].frame;
      ChatRows(out[..|out| - 1]) + if last.Chat? then [Pending(last.p.id, MessageOf(last.p))] else []
  }

  // Everything the visits' connections have been given.
  ghost function Received(t: State, visits: seq<Visit>): seq<Pending>
  {
    if visits == [] then []
    else (if visits[0].conn in t.handlers then ChatRows(t.handlers[visits[0].conn].out) else []) + Received(t, visits[1..])
  }

  lemma {:induction false} ChatRowsRead(w: Wire, key: Key, rows: seq<Pending>)
    requires !w.frame.Chat?
    ensures ChatRows([w] + Chats(key, rows)) == rows
  {
    var out := [w] + Chats(key, rows);
    if rows == [] {
      assert out == [w] && [w][..0] == [];
    } else {
      var front, last := rows[..|rows| - 1], rows[|rows| - 1];
      ChatRowsRead(w, key, front);
      assert out[..|out| - 1] == [w] + Chats(key, front);
      assert MessageOf(PayloadOf(last.id, last.msg)) == last.msg;
      assert rows == front + [last];
    }
  }

  // Later visits leave the connections that exist as they are.
  lemma {:induction false} VisitsKeepConnections(s: State, user: User, visits: seq<Visit>)
    requires ValidVisits(s, user, visits) && s.queue == []
    ensures var t := AfterVisits(s, user, visits);
            forall x :: x in s.handlers ==> x in t.handlers && t.handlers[x] == s.handlers[x]
    decreases |visits|
  {
    if visits != [] {
      hide Run, ValidVisit;
      VisitRun(s, user, visits[0]);
      VisitsKeepConnections(Run(s, VisitEvents(visits[0])), user, visits[1..]);
    }
  }

  // Over any series of interrupted logins, each run to its end with the writer and with no other
  // traffic: the rows that went out, connection after connection, followed by whatever list is still
  // pending, are a pending list of the start. So nothing goes out twice, everything goes out in
  // created_at order, and what is left is exactly the undelivered rest.
  lemma {:induction false} InterruptedDrainsConserve(s: State, user: User, visits: seq<Visit>, rest: seq<Pending>)
    requires ValidVisits(s, user, visits) && s.queue == []
    requires IsPendingList(AfterVisits(s, user, visits).committed.store.messages, user, rest)
    ensures IsPendingList(s.committed.store.messages, user, Received(AfterVisits(s, user, visits), visits) + rest)
    decreases |visits|
  {
    if visits == [] {
      assert [] + rest == rest;
    } else {
      hide Run, IsPendingList, Marked, ChatRows, Chats, AuthOutcome;
      var v := visits[0];
      var u, t := Run(s, VisitEvents(v)), AfterVisits(s, user, visits);
      VisitRun(s, user, v);
      VisitsKeepConnections(u, user, visits[1..]);
      InterruptedDrainsConserve(u, user, visits[1..], rest);
      ChatRowsRead(Wire(v.key, TokenAck(v.auth.p.id, v.token)), v.key, v.rows[..v.sent]);
      var later := Received(t, visits[1..]) + rest;
      VisitConserves(s.committed.store.messages, user, v.rows, v.sent, later);
      assert Received(t, visits) + rest == v.rows[..v.sent] + later;
    }
  }

  // ------------------------------------------------------------------
  // There is always a list to read
  // ------------------------------------------------------------------

  function Insert(rows: seq<Pending>, row: Pending): seq<Pending>
  {
    if rows == [] || row.msg.createdAt <= rows[0].msg.createdAt then [row] + rows
    else [rows[0]] + Insert(rows[1..], row)
  }

  lemma {:induction false} InsertKeeps(rows: seq<Pending>, row: Pending)
    requires Ordered(rows) && !Lists(rows, row.id)
    ensures Ordered(Insert(rows, row))
    ensures forall x :: x in Insert(rows, row) <==> x in rows || x == row
  {
    var all := Insert(rows, row);
    if rows == [] || row.msg.createdAt <= rows[0].msg.createdAt {
      forall i, j | 0 <= i < j < |all|
        ensures InOrder(all[i], all[j])
      {
        assert i > 0 ==> InOrder(rows[i - 1], rows[j - 1]);
        assert j > 1 ==> InOrder(rows[0], rows[j - 1]);
      }
    } else {
      var tail := rows[1..];
      forall i, j | 0 <= i < j < |tail|
        ensures InOrder(tail[i], tail[j])
      {
        assert InOrder(rows[i + 1], rows[j + 1]);
      }
      assert forall i :: 0 <= i < |tail| ==> tail[i] == rows[i + 1];
      InsertKeeps(tail, row);
      var more := Insert(tail, row);
      assert forall x :: x in rows <==> x == rows[0] || x in tail;
      forall i, j | 0 <= i < j < |all|
        ensures InOrder(all[i], all[j])
      {
        if i > 0 {
          assert InOrder(more[i - 1], more[j - 1]);
        } else {
          assert more[j - 1] in more;
          if more[j - 1] != row {
            var k :| 0 <= k < |tail| && tail[k] == more[j - 1];
            assert InOrder(rows[0], rows[k + 1]);
          }
        }
      }
    }
  }

  lemma {:induction false} SortSome(messages: map<MessageId, Row>, ids: set<MessageId>) returns (rows: seq<Pending>)
    requires ids <= messages.Keys
    ensures Ordered(rows)
    ensures forall x :: x in rows <==> x.id in ids && x.msg == messages[x.id].msg
    decreases |ids|
  {
    if ids == {} {
      rows := [];
    } else {
      var id :| id in ids;
      var less := SortSome(messages, ids - {id});
      assert forall i :: 0 <= i < |less| ==> less[i] in less;
      InsertKeeps(less, Pending(id, messages[id].msg));
      rows := Insert(less, Pending(id, messages[id].msg));
    }
  }

  // The SELECT of a drain always has an answer.
  lemma PendingListExists(messages: map<MessageId, Row>, user: User) returns (rows: seq<Pending>)
    ensures IsPendingList(messages, user, rows)
  {
    var ids := set id | id in messages && messages[id].msg.recipient == user && messages[id].status == Sent;
    rows := SortSome(messages, ids);
    forall i | 0 <= i < |rows|
      ensures PendingRow(messages, user, rows[i])
    {
      assert rows[i] in rows;
    }
    forall id | id in messages
      ensures Covered(messages, user, rows, id)
    {
      if id in ids {
        assert Pending(id, messages[id].msg) in rows;
      }
    }
  }
}
