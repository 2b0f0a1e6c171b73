// backend/router.py, backend/auth.py and the body of handle_client over mutable objects, with the
// effects that the machine's runs are proved to have.

module Backend {
  import opened Bytes
  import opened Store
  import opened Protocol
  import opened Server
  import opened Uninterrupted
  import opened Mailbox
  import opened Database

  // One end of a connection as a handler sees it. credit is how many more sends succeed before one
  // raises: the environment's choice.
  class Connection {
    const id: Conn
    var sent: seq<Wire>
    var credit: nat
    var closed: bool

    constructor (id: Conn, credit: nat)
      ensures this.id == id && sent == [] && this.credit == credit && !closed
    {
      this.id := id;
      this.credit := credit;
      sent, closed := [], false;
    }

    method Close()
      modifies this`closed
      ensures closed
    {
      closed := true;
    }

    method SendMsg(w: Wire) returns (ok: bool)
      modifies this`sent, this`credit
      ensures ok <==> old(credit) > 0
      ensures sent == (if ok then old(sent) + [w] else old(sent))
      ensures credit == (if ok then old(credit) - 1 else 0)
    {
      ok := credit > 0;
      if ok {
        sent := sent + [w];
        credit := credit - 1;
      }
    }
  }

  datatype Entry = Entry(conn: Connection, key: Key)

  // What the callers of the router have done, oldest first.
  datatype Change = Joined(user: User, entry: Entry) | Left(user: User)

  // The last change of this name is the i-th one.
  predicate LastWord(log: seq<Change>, user: User, i: nat)
  {
    i < |log| && log[i].user == user && forall j :: i < j < |log| ==> log[j].user != user
  }

  function Latest(log: seq<Change>, user: User): Option<Entry>
  {
    if log == [] then None
    else
      var last := log[|log| - 1];
      if last.user != user then Latest(log[..|log| - 1], user)
      else if last.Joined? then Some(last.entry) else None
  }

  lemma {:induction false} LatestIsLastWord(log: seq<Change>, user: User)
    ensures Latest(log, user).None? ==> forall i: nat :: LastWord(log, user, i) ==> log[i].Left?
    ensures Latest(log, user).Some? ==>
              exists i: nat :: LastWord(log, user, i) && log[i] == Joined(user, Latest(log, user).value)
  {
    if log != [] {
      var n := |log| - 1;
      if log[n].user == user {
        assert LastWord(log, user, n);
      } else {
        LatestIsLastWord(log[..n], user);
        if Latest(log, user).Some? {
          var i: nat :| LastWord(log[..n], user, i) && log[..n][i] == Joined(user, Latest(log, user).value);
          assert forall j :: i < j < n ==> log[j] == log[..n][j];
          assert LastWord(log, user, i);
        } else {
          forall i: nat | LastWord(log, user, i)
            ensures log[i].Left?
          {
            assert forall j :: i < j < n ==> log[j] == log[..n][j];
            assert LastWord(log[..n], user, i);
          }
        }
      }
    }
  }

  class Router {
    var active: map<User, Entry>
    ghost var log: seq<Change>

    ghost predicate Valid()
      reads this
    {
      forall u :: Latest(log, u) == if u in active then Some(active[u]) else None
    }

    // The table as the machine has it.
    ghost function Routes(): map<User, Route>
      reads this
    {
      map u | u in active :: Route(active[u].conn.id, active[u].key)
    }

    constructor ()
      ensures Valid() && log == [] && Routes() == map[]
    {
      active := map[];
      log := [];
    }

    // Does to the table what the machine's Join does to its routes.
    method Register(user: User, conn: Connection, key: Key)
      requires Valid()
      modifies this
      ensures Valid() && log == old(log) + [Joined(user, Entry(conn, key))]
      ensures forall s: State, h: Handler :: s.router == old(Routes()) && h.key == key ==>
                Perform(s, conn.id, (h, Join(user))).router == Routes()
    {
      active := active[user := Entry(conn, key)];
      log := log + [Joined(user, Entry(conn, key))];
      assert log[..|log| - 1] == old(log);
    }

    // Does what the machine's Drop does: the name's entry goes, whatever connection it holds.
    method Unregister(user: User)
      requires Valid()
      modifies this
      ensures Valid() && log == old(log) + [Left(user)]
      ensures forall s: State, c: Conn, h: Handler :: s.router == old(Routes()) ==>
                Perform(s, c, (h, Drop(user))).router == Routes()
    {
      active := active - {user};
      log := log + [Left(user)];
      assert log[..|log| - 1] == old(log);
    }

    // The entry of the last registration of the name, unless it was unregistered since.
    method GetConnection(user: User) returns (entry: Option<Entry>)
      requires Valid()
      ensures entry.None? ==> user !in active && forall i: nat :: LastWord(log, user, i) ==> log[i].Left?
      ensures entry.Some? ==>
                && user in active && active[user] == entry.value
                && exists i: nat :: LastWord(log, user, i) && log[i] == Joined(user, entry.value)
    {
      LatestIsLastWord(log, user);
      if user in active {
        entry := Some(active[user]);
      } else {
        entry := None;
      }
    }
  }

  class Auth {
    const db: Database
    const verify: (string, string) -> bool

    constructor (db: Database, verify: (string, string) -> bool)
      ensures this.db == db && this.verify == verify
    {
      this.db := db;
      this.verify := verify;
    }

    // hash is the bcrypt hash of the password.
    method RegisterUser(user: User, password: string, hash: string) returns (ok: bool)
      modifies db`queue
      ensures ok <==> user != "" && password != "" && user !in db.tables.store.users
      ensures db.queue == old(db.queue) + if ok then [Some(InsertUser(user, hash))] else []
    {
      if user == "" || password == "" || user in db.tables.store.users {
        return false;
      }
      db.Enqueue(InsertUser(user, hash));
      ok := true;
    }

    // drawn is the token that is issued if the credentials are right.
    method Login(user: User, password: string, drawn: SessionToken, now: real) returns (token: Option<SessionToken>)
      modifies db`queue
      ensures token == if user in db.tables.store.users && verify(db.tables.store.users[user], password)
                       then Some(drawn) else None
      ensures db.queue == old(db.queue) + if token.Some? then [Some(InsertSession(drawn, user, now + 3600.0))] else []
    {
      if user !in db.tables.store.users {
        return None;
      }
      if !verify(db.tables.store.users[user], password) {
        return None;
      }
      var expiresAt := now + SESSION_EXPIRY;
      db.Enqueue(InsertSession(drawn, user, expiresAt));
      token := Some(drawn);
    }

    // Names the user of a live token. A token that has expired is invalidated on the way, one that
    // is unknown or revoked is not.
    method ValidateSession(token: SessionToken, now: real) returns (user: Option<User>)
      modifies db`queue
      ensures var sessions := db.tables.store.sessions;
              var live := token in sessions && !sessions[token].invalidated;
              && user == (if live && now <= sessions[token].expiresAt then Some(sessions[token].user) else None)
              && db.queue == old(db.queue) + if live && user.None? then [Some(InvalidateSession(token))] else []
    {
      var sessions := db.tables.store.sessions;
      if token !in sessions || sessions[token].invalidated {
        return None;
      }
      if now > sessions[token].expiresAt {
        db.Enqueue(InvalidateSession(token));
        return None;
      }
      user := Some(sessions[token].user);
    }

    method Logout(token: SessionToken)
      modifies db`queue
      ensures db.queue == old(db.queue) + [Some(InvalidateSession(token))]
    {
      db.Enqueue(InvalidateSession(token));
    }
  }

  // One handler thread between two frames, with nobody else running.
  class ClientHandler {
    const db: Database
    const router: Router
    const conn: Connection
    const key: Key

    constructor (db: Database, router: Router, conn: Connection, key: Key)
      ensures this.db == db && this.router == router && this.conn == conn && this.key == key
    {
      this.db := db;
      this.router := router;
      this.conn := conn;
      this.key := key;
    }

    method Answer(f: Frame) returns (alive: bool)
      modifies conn
      ensures alive <==> old(conn.credit) > 0
      ensures conn.sent == (if alive then old(conn.sent) + [Wire(key, f)] else old(conn.sent))
      ensures conn.credit == (if alive then old(conn.credit) - 1 else 0)
    {
      alive := conn.SendMsg(Wire(key, f));
    }

    // pending is what the SELECT for the user returns. Sends the rows one by one, marking each that
    // went out, and stops at the first failure.
    method DrainOffline(user: User, pending: seq<Pending>)
      requires IsPendingList(db.tables.store.messages, user, pending)
      modifies db`queue, conn
      ensures var n := Least(|pending|, old(conn.credit));
              && conn.sent == old(conn.sent) + Chats(key, pending[..n])
              && db.queue == old(db.queue) + Entries(Marks(pending[..n]))
              && (forall i :: 0 <= i < n ==>
                    pending[i].id in db.tables.store.messages
                    && db.tables.store.messages[pending[i].id] == Row(pending[i].msg, Sent) && pending[i].msg.recipient == user)
    {
      hide RunTasks, Apply, Ahead, PayloadOf;
      ghost var n := Least(|pending|, conn.credit);
      assert forall i :: 0 <= i < n ==> PendingRow(db.tables.store.messages, user, pending[i]);
      var k := 0;
      assert pending[..0] == [];
      while k < |pending|
        invariant k <= n
        invariant conn.credit == old(conn.credit) - k
        invariant conn.sent == old(conn.sent) + Chats(key, pending[..k])
        invariant db.queue == old(db.queue) + Entries(Marks(pending[..k]))
      {
        var row := pending[k];
        var ok := conn.SendMsg(Wire(key, Chat(PayloadOf(row.id, row.msg))));
        if !ok {
          break;
        }
        db.Enqueue(UpdateDelivery(row.id, Delivered));
        assert pending[..k + 1][..k] == pending[..k];
        EntriesSnoc(Marks(pending[..k]), UpdateDelivery(row.id, Delivered));
        k := k + 1;
      }
    }

    // Takes the payload in: it is recorded, then persisted.
    method Accept(p: Payload)
      modifies db`queue
      ensures db.queue == old(db.queue) + [Some(RecordSeen(p.id)), Some(InsertMessage(p.id, MessageOf(p)))]
    {
      hide RunTasks, Apply, Ahead;
      db.Enqueue(RecordSeen(p.id));
      db.Enqueue(InsertMessage(p.id, MessageOf(p)));
    }

    // Forwards to a live connection, which may be this one, and reports what became of it.
    method ForwardTo(entry: Entry, p: Payload) returns (alive: bool)
      modifies db`queue, conn, entry.conn
      ensures var ok := old(entry.conn.credit) > 0;
              var self := ok && entry.conn == conn;
              && db.queue == old(db.queue) + (if ok then [Some(UpdateDelivery(p.id, Delivered))] else [])
              && (ok && !self ==> entry.conn.sent == old(entry.conn.sent) + [Wire(entry.key, Chat(p))])
              && conn.sent == old(conn.sent) + (if self then [Wire(entry.key, Chat(p))] else [])
                              + (if alive then [Wire(key, Ack(p.id, if ok then Delivered else Sent))] else [])
              && (alive <==> old(conn.credit) > if self then 1 else 0)
    {
      hide RunTasks, Apply, Ahead;
      var forwarded := entry.conn.SendMsg(Wire(entry.key, Chat(p)));
      if forwarded {
        db.Enqueue(UpdateDelivery(p.id, Delivered));
        alive := Answer(Ack(p.id, Delivered));
        if !alive {
          alive := Answer(Ack(p.id, Sent));
        }
      } else {
        alive := Answer(Ack(p.id, Sent));
      }
    }

    // What handling one fresh chat payload comes to. A seen id is refused and leaves no task; any other
    // is recorded and stored, forwarded if its recipient is registered and the send goes through,
    // possibly to this very connection, and marked exactly if it was forwarded or is for the server. The
    // reply says which, unless its send raises.
    twostate predicate ChatHandled(p: Payload, alive: bool)
      reads db, conn, router, set u | u in router.active :: router.active[u].conn
    {
      var replayed := p.id in old(db.tables.seen);
      var forwarded := !replayed && p.to != "server" && p.to in old(router.active) && old(router.active[p.to].conn.credit) > 0;
      var delivered := !replayed && (p.to == "server" || forwarded);
      && router.active == old(router.active)
      && db.queue == old(db.queue) +
         (if replayed then []
          else [Some(RecordSeen(p.id)), Some(InsertMessage(p.id, Message(p.sender, p.to, p.data, p.timestamp)))]
               + if delivered then [Some(UpdateDelivery(p.id, Delivered))] else [])
      && var self := forwarded && router.active[p.to].conn == conn;
         && (forwarded && !self ==>
               router.active[p.to].conn.sent
               == old(router.active[p.to].conn.sent) + [Wire(router.active[p.to].key, Chat(p))])
         && conn.sent == old(conn.sent)
            + (if self then [Wire(router.active[p.to].key, Chat(p))] else [])
            + (if !alive then []
               else if replayed then [Wire(key, Error(ReplayDetected))]
               else if delivered then [Wire(key, Ack(p.id, Delivered))]
               else [Wire(key, Ack(p.id, Sent))])
         && (alive <==> old(conn.credit) > if self then 1 else 0)
    }

    method HandleChat(p: Payload) returns (alive: bool)
      requires router.Valid()
      modifies db`queue, conn, set u | u in router.active :: router.active[u].conn
      ensures ChatHandled(p, alive)
    {
      hide RunTasks, Apply, Ahead, LastWord, Latest, Router.Valid;
      var seen := db.IsReplay(p.id);
      if seen {
        alive := Answer(Error(ReplayDetected));
        return;
      }
      Accept(p);
      if p.to == "server" {
        db.Enqueue(UpdateDelivery(p.id, Delivered));
        alive := Answer(Ack(p.id, Delivered));
        return;
      }
      var session := router.GetConnection(p.to);
      if session.None? {
        alive := Answer(Ack(p.id, Sent));
        return;
      }
      alive := ForwardTo(session.value, p);
    }

    // The loop body for one decoded payload.
    method HandleRequest(r: Request, now: real) returns (alive: bool)
      requires router.Valid()
      modifies db`queue, conn, set u | u in router.active :: router.active[u].conn
      ensures var refusal: Option<ErrCode> :=
                if r.Malformed? then Some(InvalidSchema)
                else if now - r.p.timestamp > 300.0 || now - r.p.timestamp < -30.0 then Some(MessageExpired)
                else if r.p.kind != ChatType then Some(InvalidSchema)
                else None;
              match refusal
              case Some(code) =>
                && db.queue == old(db.queue)
                && conn.sent == old(conn.sent) + (if alive then [Wire(key, Error(code))] else [])
                && (alive <==> old(conn.credit) > 0)
              case None => ChatHandled(r.p, alive)
    {
      hide RunTasks, Apply, Ahead, Entries, ServeTasks;
      if r.Malformed? {
        alive := Answer(Error(InvalidSchema));
      } else if Expired(now, r.p.timestamp) {
        alive := Answer(Error(MessageExpired));
      } else if r.p.kind != ChatType {
        alive := Answer(Error(InvalidSchema));
      } else {
        alive := HandleChat(r.p);
      }
    }

    // From the AUTH payload to the router entry. drawn is the token that is issued if the login is
    // granted; claim is the name the cleanup will remove. (A container in place of the name breaks the
    // cleanup as well, which the machine's Crashed records.)
    method Authenticate(auth: Auth, r: Request, drawn: SessionToken, now: real)
      returns (claim: Option<Claim>, entered: bool)
      requires auth.db == db && router.Valid()
      modifies db`queue, conn, router
      ensures var outcome := AuthOutcome(db.tables.store.users, auth.verify, r);
              && (entered <==> outcome.Granted? && old(conn.credit) > 0)
              && claim == (match Presented(r)
                           case Some(u) => Some(Claim(u, r.p.data, r.p.id))
                           case None => None)
              && db.queue == old(db.queue)
                 + (if outcome.Granted? then [Some(InsertSession(drawn, outcome.user, now + 3600.0))] else [])
              && conn.sent == old(conn.sent) +
                 (if old(conn.credit) == 0 then []
                  else match outcome
                    case Granted(_) => [Wire(key, TokenAck(r.p.id, drawn))]
                    case Turned(code) => [Wire(key, Error(code))]
                    case Broken => [])
              && (!Grants(db.tables.store.users, auth.verify, r) ==>
                    && db.queue == old(db.queue)
                    && conn.sent == old(conn.sent) +
                       if old(conn.credit) == 0 || Raising(db.tables.store.users, r) then []
                       else if r.Malformed? then [Wire(key, Error(InvalidSchema))]
                       else [Wire(key, Error(AuthFailed))])
              && router.Valid()
              && router.log == old(router.log) + (if entered then [Joined(outcome.user, Entry(conn, key))] else [])
    {
      hide RunTasks, Apply, Ahead;
      claim, entered := None, false;
      if r.Malformed? {
        var _ := Answer(Error(InvalidSchema));
        return;
      }
      if r.p.kind != AuthType {
        var _ := Answer(Error(AuthFailed));
        return;
      }
      match r.p.sender {
        case Null =>
          var _ := Answer(Error(AuthFailed));
        case Unbindable =>
        case Text(username) =>
          claim := Some(Claim(username, r.p.data, r.p.id));
          if username in db.tables.store.users && !r.p.data.Text? {
            return;
          }
          var password := if r.p.data.Text? then r.p.data.text else "";
          var token := auth.Login(username, password, drawn, now);
          if token.None? {
            var _ := Answer(Error(AuthFailed));
            return;
          }
          entered := Answer(TokenAck(r.p.id, token.value));
          if entered {
            router.Register(username, conn, key);
          }
      }
    }

    // The finally block: remove the name, if one was claimed, then close.
    method Cleanup(claim: Option<Claim>)
      requires router.Valid()
      modifies router, conn`closed
      ensures router.Valid()
      ensures router.log == old(router.log) + match claim case Some(k) => [Left(k.user)] case None => []
      ensures conn.closed
    {
      if claim.Some? {
        router.Unregister(claim.value.user);
      }
      conn.Close();
    }
  }

  lemma EntriesSnoc(tasks: seq<Task>, task: Task)
    ensures Entries(tasks + [task]) == Entries(tasks) + [Some(task)]
  {
  }
}
