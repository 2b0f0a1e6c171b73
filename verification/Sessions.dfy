// backend/auth.py and backend/router.py over whole runs: session tokens, accounts and routes.

module Sessions {
  import opened Bytes
  import opened Store
  import opened Protocol
  import opened Server
  import opened Invariants
  import opened Preservation
  import opened Durability
  import opened Uninterrupted
  import opened Mailbox

  // ------------------------------------------------------------------
  // Sessions
  // ------------------------------------------------------------------

  // The session row was in the database when the server started, for this user.
  ghost predicate FromBefore(s: State, token: SessionToken, user: User)
  {
    token in s.base.sessions && s.base.sessions[token].user == user && s.now <= s.base.sessions[token].expiresAt
  }

  // A login of this user, with a password that matches the committed hash, drew the token for at
  // most an hour from now, and its insert was executed.
  ghost predicate FromLogin(s: State, token: SessionToken, user: User)
    requires 0 <= Done(s) <= |s.issued|
  {
    && IssuedTo(s, token, user)
    && exists expiresAt ::
         s.now <= expiresAt <= s.now + 3600.0 && InsertSession(token, user, expiresAt) in s.issued[..Done(s)]
  }

  // validate_session names a user exactly while the token's row is committed, unexpired, and neither
  // revoked from the start nor found by an executed invalidation; and then the row predates this run
  // or an authenticated login of that user drew the token.
  lemma SessionValidity(init: State, events: seq<Event>, token: SessionToken)
    requires Init(init)
    ensures var s := Run(init, events);
            && QueueOk(s)
            && (SessionUser(s, token).Some? <==>
                  && token in s.committed.store.sessions
                  && s.now <= s.committed.store.sessions[token].expiresAt
                  && !StartsRevoked(init.base, token)
                  && !exists i :: RevokedAt(init.base, s.issued[..Done(s)], token, i))
            && (SessionUser(s, token).Some? ==>
                  var user := SessionUser(s, token).value;
                  FromBefore(s, token, user) || FromLogin(s, token, user))
  {
    var s := Run(init, events);
    ReachableInv(init, events);
    var ran := s.issued[..Done(s)];
    if token in s.committed.store.sessions {
      RevokedSessions(s.base, ran, token);
      SessionOrigin(s.base, ran, token);
      var ses := s.committed.store.sessions[token];
      if InsertSession(token, ses.user, ses.expiresAt) in ran {
        var i :| 0 <= i < |ran| && ran[i] == InsertSession(token, ses.user, ses.expiresAt);
        assert s.issued[i] == ran[i] && TaskOk(s, i);
      }
    }
  }

  // A token is good from the moment the writer has executed its insert: the i-th issued task, the first
  // to insert this token. It names exactly that user, exactly until the expiry it was inserted with or
  // until an invalidation enqueued later has run.
  lemma TokenLifetime(init: State, events: seq<Event>, i: nat)
    requires Init(init)
    requires var s := Run(init, events);
             && i < Done(s) <= |s.issued| && s.issued[i].InsertSession? && s.issued[i].token !in init.base.sessions
             && forall j :: 0 <= j < i && s.issued[j].InsertSession? ==> s.issued[j].token != s.issued[i].token
    ensures var s := Run(init, events);
            var InsertSession(token, user, expiresAt) := s.issued[i];
            SessionUser(s, token)
            == if s.now <= expiresAt && !exists j :: i < j < Done(s) && s.issued[j] == InvalidateSession(token)
               then Some(user) else None
  {
    hide Run, Execute;
    var s := Run(init, events);
    ReachableInv(init, events);
    var ran := s.issued[..Done(s)];
    var InsertSession(token, user, expiresAt) := s.issued[i];
    assert TaskOk(s, i);
    assert ran[i] == s.issued[i] && ran[..i] == s.issued[..i];
    SessionKeys(s.base, ran[..i], token);
    assert OpensAt(s.base, ran, token, i);
    SessionAfterInsert(s.base, ran, i);
    assert forall j :: i < j < Done(s) ==> ran[j] == s.issued[j];
  }

  lemma InvQueue(s: State)
    requires Inv(s)
    ensures QueueOk(s)
  {
  }

  // The token is in no table and no queue: no task ever issued inserts it.
  lemma FreshToken(s: State, token: SessionToken)
    requires Inv(s) && token !in s.committed.store.sessions
    requires forall x :: x in s.queue && x.InsertSession? ==> x.token != token
    ensures token !in s.base.sessions
    ensures forall j :: 0 <= j < |s.issued| && s.issued[j].InsertSession? ==> s.issued[j].token != token
  {
    var ran := s.issued[..Done(s)];
    SessionKeys(s.base, ran, token);
    forall j | 0 <= j < |s.issued| && s.issued[j].InsertSession?
      ensures s.issued[j].token != token
    {
      if j < Done(s) {
        assert TaskOk(s, j);
        assert ran[j] == s.issued[j] && ran[..j] == s.issued[..j];
        assert !OpensAt(s.base, ran, token, j);
      } else {
        assert s.queue[j - Done(s)] == s.issued[j];
      }
    }
  }

  // A granted login with a new token: the token goes out, and whatever happens afterwards, once the
  // writer has executed the insert the token names this user for one hour from the login, unless an
  // invalidation of it has run.
  lemma LoginTokenLives(init: State, a: seq<Event>, c: Conn, r: Request, token: SessionToken, b: seq<Event>)
    requires Init(init)
    requires var s := Run(init, a);
             && c in s.handlers && s.handlers[c].pc == AwaitAuth && Grants(s.committed.store.users, s.verify, r)
             && token !in s.committed.store.sessions
             && (forall x :: x in s.queue && x.InsertSession? ==> x.token != token)
             && |s.issued| < Done(Run(s, LoginEvents(c, r, token) + b))
    ensures var s := Run(init, a);
            var t := Run(s, LoginEvents(c, r, token) + b);
            && Done(t) <= |t.issued|
            && c in t.handlers && Wire(s.handlers[c].key, TokenAck(r.p.id, token)) in t.handlers[c].out
            && SessionUser(t, token)
               == if t.now <= s.now + 3600.0
                     && !exists j :: |s.issued| < j < Done(t) && t.issued[j] == InvalidateSession(token)
                  then Some(r.p.sender.text) else None
  {
    hide Run, Inv, LoginEvents, AuthOutcome, Grants, Grows;
    var s := Run(init, a);
    var t := Run(s, LoginEvents(c, r, token) + b);
    ReachableInv(init, a);
    FreshToken(s, token);
    LoginThen(s, c, r, token, b);
    RunAppend(init, a, LoginEvents(c, r, token) + b);
    assert forall j :: 0 <= j < |s.issued| ==> t.issued[j] == s.issued[j];
    ReachableInv(init, a + (LoginEvents(c, r, token) + b));
    InvQueue(t);
    TokenLifetime(init, a + (LoginEvents(c, r, token) + b), |s.issued|);
  }

  // What a granted login enqueues and sends is still there whatever follows.
  lemma LoginThen(s: State, c: Conn, r: Request, token: SessionToken, b: seq<Event>)
    requires Inv(s) && c in s.handlers && s.handlers[c].pc == AwaitAuth
    requires Grants(s.committed.store.users, s.verify, r)
    ensures var t := Run(s, LoginEvents(c, r, token) + b);
            && s.issued + [InsertSession(token, r.p.sender.text, s.now + 3600.0)] <= t.issued && t.base == s.base
            && c in t.handlers && Wire(s.handlers[c].key, TokenAck(r.p.id, token)) in t.handlers[c].out
  {
    hide Run, Inv, LoginEvents, AuthOutcome, Keeps;
    var mid := Run(s, LoginEvents(c, r, token));
    AuthOutcomeExactly(s.committed.store.users, s.verify, r);
    LoginRun(s, c, r, token);
    RunInv(s, LoginEvents(c, r, token));
    RunAppend(s, LoginEvents(c, r, token), b);
    RunInv(mid, b);
    var t := Run(mid, b);
    assert HandlerGrows(mid.handlers[c], t.handlers[c]);
    assert mid.handlers[c].out[|s.handlers[c].out|] == Wire(s.handlers[c].key, TokenAck(r.p.id, token));
    assert t.handlers[c].out[|s.handlers[c].out|] == mid.handlers[c].out[|s.handlers[c].out|];
  }

  // A logout ends the session once the writer has got to it, provided the session's insert was
  // enqueued before it; a logout that comes earlier does nothing.
  lemma LogoutEndsSession(init: State, a: seq<Event>, token: SessionToken, b: seq<Event>)
    requires Init(init)
    ensures var s := Run(init, a);
            var t := Run(s, [Logout(token)] + b);
            && (token in Eventual(s).sessions && Done(t) > |s.issued| ==> SessionUser(t, token).None?)
            && (token !in Eventual(s).sessions ==> Eventual(Next(s, Logout(token))) == Eventual(s))
  {
    hide Run, Inv;
    var s := Run(init, a);
    var t := Run(s, [Logout(token)] + b);
    ReachableInv(init, a);
    InvQueue(s);
    EventualIsIssued(s);
    RunTasksSnoc(s.committed.store, s.queue, InvalidateSession(token));
    RunAppend(init, a, [Logout(token)] + b);
    ReachableInv(init, a + ([Logout(token)] + b));
    InvQueue(t);
    RunCons(s, Logout(token), b);
    NextInv(s, Logout(token));
    RunInv(Next(s, Logout(token)), b);
    if token in Eventual(s).sessions && Done(t) > |s.issued| {
      var ran := t.issued[..Done(t)];
      assert ran[..|s.issued|] == s.issued;
      assert ran[|s.issued|] == t.issued[|s.issued|] == InvalidateSession(token);
      PrefixKeeps(s.base, ran, |s.issued|);
      RevokedSessions(s.base, ran, token);
      assert RevokedAt(s.base, ran, token, |s.issued|);
    }
  }

  // validate_session invalidates on the way exactly a live row that has expired.
  lemma ExpiredSessionIsInvalidated(s: State, token: SessionToken)
    ensures var sessions := s.committed.store.sessions;
            Next(Next(s, CheckSession(token)), Finish(Invalidating(token)))
            == if token in sessions && !sessions[token].invalidated && s.now > sessions[token].expiresAt
               then Push(s, InvalidateSession(token))
               else if Invalidating(token) in s.calls then Next(s, Finish(Invalidating(token)))
               else s
  {
    if Next(s, CheckSession(token)) != s {
      FinishPushes(s, Invalidating(token));
    }
  }

  // Once a committed session is expired or revoked, no later state of any run validates it.
  lemma SessionNeverRevives(init: State, a: seq<Event>, b: seq<Event>, token: SessionToken)
    requires Init(init) && token in Run(init, a).committed.store.sessions
    requires SessionUser(Run(init, a), token).None?
    ensures SessionUser(Run(init, a + b), token).None?
  {
    RunAppend(init, a, b);
    ReachableInv(init, a);
    RunInv(Run(init, a), b);
  }

  // ------------------------------------------------------------------
  // Accounts
  // ------------------------------------------------------------------

  // Every registration that reported success and went on is the i-th issued task for some i. Its name
  // had no account at the start; the account exists eventually, and has this registration's hash
  // exactly when that is the hash of the first registration enqueued for the name.
  lemma RegistrationOutcome(init: State, events: seq<Event>, i: nat)
    requires Init(init) && i < |Run(init, events).issued| && Run(init, events).issued[i].InsertUser?
    ensures var s := Run(init, events);
            var InsertUser(u, hash) := s.issued[i];
            && u !in init.base.users
            && u in Eventual(s).users
            && Eventual(s).users[u] == s.issued[FirstInsert(s.issued, u)].hash
  {
    var s := Run(init, events);
    ReachableInv(init, events);
    assert TaskOk(s, i);
    EventualIsIssued(s);
    FirstAccountWins(s.base, s.issued, s.issued[i].user);
  }

  // register_user adds an account exactly for a non-empty name and password with no committed account.
  lemma RegistrationAccepted(s: State, user: User, password: string, hash: string)
    requires Registering(user, hash) !in s.calls
    ensures Run(s, [Register(user, password, hash), Finish(Registering(user, hash))])
            == if user == "" || password == "" || user in s.committed.store.users then s
               else Push(s, InsertUser(user, hash))
  {
    hide Run;
    RunTwo(s, Register(user, password, hash), Finish(Registering(user, hash)));
    if !(user == "" || password == "" || user in s.committed.store.users) {
      FinishPushes(s, Registering(user, hash));
    }
  }

  lemma PassesCheck(s: State, user: User, password: string, hash: string)
    requires user != "" && password != ""
    ensures Next(s, Register(user, password, hash))
            == if user in s.committed.store.users then s else Begin(s, Registering(user, hash))
  {
  }

  // After k writer steps a new account whose insert was queued last is committed exactly when k
  // exceeds the tasks queued before it.
  lemma AccountAfterWrites(s: State, user: User, hash: string, k: nat)
    requires user !in Eventual(s).users
    ensures var t := Run(Push(s, InsertUser(user, hash)), Writes(k));
            && (user in t.committed.store.users <==> k > |s.queue|)
            && user in Eventual(t).users && Eventual(t).users[user] == hash
  {
    hide Run, Apply;
    var a := Push(s, InsertUser(user, hash));
    var n := Least(k, |a.queue|);
    WritesRun(a, k);
    if k <= |s.queue| {
      assert a.queue[..n] == s.queue[..n];
      PrefixKeeps(s.committed.store, s.queue, n);
    } else {
      assert a.queue[..n] == s.queue + [InsertUser(user, hash)];
    }
    assert a.queue == a.queue[..n] + a.queue[n..];
    RunTasksAppend(s.committed.store, a.queue[..n], a.queue[n..]);
    RegisteredLast(s.committed.store, s.queue, user, hash);
  }

  lemma RegisteredLast(t: Store, queue: seq<Task>, user: User, hash: string)
    requires user !in RunTasks(t, queue).users
    ensures var after := RunTasks(t, queue + [InsertUser(user, hash)]).users;
            user in after && after[user] == hash
  {
    RunTasksSnoc(t, queue, InsertUser(user, hash));
  }

  // Two registrations of a new name, one after the other. The second one also reports success if
  // and only if the writer has not yet reached the first one's insert; and the first password is
  // the account's all the same.
  lemma RegistrationRace(s: State, user: User, first: string, second: string, a: string, b: string, k: nat)
    requires user != "" && first != "" && second != "" && user !in Eventual(s).users
    ensures var t := Run(s, [Register(user, first, a), Finish(Registering(user, a))] + Writes(k));
            var reported := Next(t, Register(user, second, b));
            var done := Next(reported, Finish(Registering(user, b)));
            && (reported == Begin(t, Registering(user, b)) <==> k <= |s.queue|)
            && (k <= |s.queue| ==> user in Eventual(done).users && Eventual(done).users[user] == a)
  {
    hide Run, Next;
    var t := Run(s, [Register(user, first, a), Finish(Registering(user, a))] + Writes(k));
    RunAppend(s, [Register(user, first, a), Finish(Registering(user, a))], Writes(k));
    RunTwo(s, Register(user, first, a), Finish(Registering(user, a)));
    RunTasksKeeps(s.committed.store, s.queue);
    PassesCheck(s, user, first, a);
    FinishPushes(s, Registering(user, a));
    AccountAfterWrites(s, user, a, k);
    PassesCheck(t, user, second, b);
    assert Begin(t, Registering(user, b)) != t by {
      assert Begin(t, Registering(user, b)).calls[Registering(user, b)] == t.calls[Registering(user, b)] + 1;
    }
    FinishPushes(t, Registering(user, b));
    RunTasksSnoc(t.committed.store, t.queue, InsertUser(user, b));
  }

  // ------------------------------------------------------------------
  // Routes
  // ------------------------------------------------------------------

  // Every router entry leads to an open connection: one whose handler has neither closed it nor
  // begun to, which logged in as exactly that user, and whose key is the entry's.
  lemma RouterEntriesAreLive(init: State, events: seq<Event>, user: User)
    requires Init(init) && user in Run(init, events).router
    ensures var s := Run(init, events);
            var route := s.router[user];
            && route.conn in s.handlers
            && var h := s.handlers[route.conn];
            && !Gone(h.pc) && h.authed && h.claim.Some? && h.claim.value.user == user && h.key == route.key
            && Authentic(s, h.claim.value)
  {
    var s := Run(init, events);
    ReachableInv(init, events);
    assert EntryOk(s, user);
    assert HandlerOk(s, s.router[user].conn);
  }

  // Frame, login check, error reply, cleanup.
  function RefusedEvents(c: Conn, r: Request, ok: bool): seq<Event>
  {
    [Advance(c, Arrives(Body(r))), Advance(c, Go)] + [Advance(c, Sends(ok)), Advance(c, Go)]
  }

  // The handler is on its way out without having logged in, and will remove the presented name.
  predicate Leaving(s: State, t: State, c: Conn, r: Request)
  {
    && c in s.handlers && c in t.handlers && t.router == s.router && t.issued == s.issued
    && !t.handlers[c].authed && t.handlers[c].key == s.handlers[c].key
    && (t.handlers[c].pc.Crashed? ==> Presented(r).None?)
    && (!t.handlers[c].pc.Crashed? ==>
          Presented(r) == match t.handlers[c].claim case Some(k) => Some(k.user) case None => None)
  }

  // The error that answers a refused payload: malformed, or not a login.
  function RefusalOf(r: Request): Frame
  {
    Error(if r.Malformed? then InvalidSchema else AuthFailed)
  }

  lemma AuthReceived(s: State, c: Conn, r: Request)
    requires c in s.handlers && s.handlers[c].pc == AwaitAuth && s.handlers[c].claim.None? && !s.handlers[c].authed
    ensures var t := Next(s, Advance(c, Arrives(Body(r))));
            && Leaving(s, t, c, r) && t.committed == s.committed && t.verify == s.verify
            && var h := t.handlers[c];
               h.out == s.handlers[c].out
               && if Presented(r).Some? then h.pc.Login? && h.claim == Some(Claim(Presented(r).value, r.p.data, r.p.id))
                  else h.pc == if r.Valid? && r.p.kind == AuthType && r.p.sender.Unbindable? then Crashed else Refuse(RefusalOf(r))
  {
  }

  lemma LoginRefused(s: State, t: State, c: Conn, r: Request)
    requires Leaving(s, t, c, r)
    requires if Presented(r).Some?
             then t.handlers[c].pc.Login? && t.handlers[c].claim == Some(Claim(Presented(r).value, r.p.data, r.p.id))
             else t.handlers[c].pc == if r.Valid? && r.p.kind == AuthType && r.p.sender.Unbindable? then Crashed
                                      else Refuse(RefusalOf(r))
    requires !Grants(t.committed.store.users, t.verify, r)
    ensures var u := Next(t, Advance(c, Go));
            && Leaving(s, u, c, r) && u.handlers[c].out == t.handlers[c].out
            && (u.handlers[c].pc == Refuse(RefusalOf(r)) || u.handlers[c].pc.Leave? || u.handlers[c].pc.Crashed?)
            && (u.handlers[c].pc.Refuse? <==> !Raising(t.committed.store.users, r))
  {
  }

  // One more step: the reply is tried, or the cleanup begins at once.
  lemma RefusalSent(s: State, t: State, c: Conn, r: Request, ok: bool)
    requires Leaving(s, t, c, r)
    requires t.handlers[c].pc == Refuse(RefusalOf(r)) || t.handlers[c].pc.Leave? || t.handlers[c].pc.Crashed?
    ensures var u := Next(t, Advance(c, Sends(ok)));
            && (if t.handlers[c].pc.Leave? then CleanedUp(s, u, c, r)
                else Leaving(s, u, c, r) && (u.handlers[c].pc.Leave? || u.handlers[c].pc.Crashed?))
            && u.handlers[c].out == t.handlers[c].out
               + if ok && t.handlers[c].pc.Refuse? then [Wire(s.handlers[c].key, RefusalOf(r))] else []
  {
    hide StepDrain, StepMessage, RefusalOf;
  }

  predicate CleanedUp(s: State, u: State, c: Conn, r: Request)
  {
    && c in u.handlers && !u.handlers[c].authed && u.issued == s.issued
    && (u.handlers[c].pc.Closing? || u.handlers[c].pc.Closed? || u.handlers[c].pc.Crashed?)
    && u.router == if Presented(r).Some? then s.router - {Presented(r).value} else s.router
  }

  lemma RefusedCleansUp(s: State, t: State, c: Conn, r: Request)
    requires CleanedUp(s, t, c, r) || (Leaving(s, t, c, r) && (t.handlers[c].pc.Leave? || t.handlers[c].pc.Crashed?))
    ensures CleanedUp(s, Next(t, Advance(c, Go)), c, r)
    ensures Next(t, Advance(c, Go)).handlers[c].out == t.handlers[c].out
  {
    hide StepLogin, StepDrain, StepMessage;
  }

  lemma CleanedUpRoutes(s: State, u: State, c: Conn, r: Request)
    requires CleanedUp(s, u, c, r)
    ensures c in u.handlers && !u.handlers[c].authed && u.issued == s.issued
    ensures u.router == match Presented(r) case Some(n) => s.router - {n} case None => s.router
  {
  }

  // A connection whose AUTH payload does not log in, for whatever reason and whether or not the error
  // reply goes out, enqueues nothing and gets at most one frame: the schema error for a malformed
  // payload, the authentication error for any other, and nothing for one whose check raises. It never
  // logged in. Still its cleanup removes exactly the route of the user whose name the payload
  // presented, although every route leads to another, open connection that did log in.
  lemma CleanupRemovesByName(init: State, events: seq<Event>, c: Conn, r: Request, ok: bool)
    requires Init(init) && c in Run(init, events).handlers && Run(init, events).handlers[c].pc == AwaitAuth
    requires !Grants(Run(init, events).committed.store.users, Run(init, events).verify, r)
    ensures var s := Run(init, events);
            var t := Run(s, RefusedEvents(c, r, ok));
            && c in t.handlers && !t.handlers[c].authed && t.issued == s.issued
            && t.handlers[c].out == (if !ok || Raising(s.committed.store.users, r) then []
                                     else if r.Malformed? then [Wire(s.handlers[c].key, Error(InvalidSchema))]
                                     else [Wire(s.handlers[c].key, Error(AuthFailed))])
            && t.router == (match Presented(r) case Some(u) => s.router - {u} case None => s.router)
            && (forall user :: user in s.router ==>
                  && s.router[user].conn != c && s.router[user].conn in s.handlers
                  && !Gone(s.handlers[s.router[user].conn].pc) && s.handlers[s.router[user].conn].authed)
  {
    hide Next, Run, Inv, Grants, Raising, Leaving, CleanedUp;
    var s := Run(init, events);
    ReachableInv(init, events);
    OneHandler(s, c);
    forall user | user in s.router
      ensures s.router[user].conn != c && s.router[user].conn in s.handlers
      ensures !Gone(s.handlers[s.router[user].conn].pc) && s.handlers[s.router[user].conn].authed
    {
      RouterEntriesAreLive(init, events, user);
    }
    var e, f, g, h := Advance(c, Arrives(Body(r))), Advance(c, Go), Advance(c, Sends(ok)), Advance(c, Go);
    RunAppend(s, [e, f], [g, h]);
    RunTwo(s, e, f);
    AuthReceived(s, c, r);
    LoginRefused(s, Next(s, e), c, r);
    var t := Run(s, [e, f]);
    RunTwo(t, g, h);
    RefusalSent(s, t, c, r, ok);
    RefusedCleansUp(s, Next(t, g), c, r);
    CleanedUpRoutes(s, Run(t, [g, h]), c, r);
  }

  // Nor does a login of its own entitle a connection to the entry it removes: whenever the entry leads
  // elsewhere, its name's other connection is open, logged in, and stays so without a route.
  lemma LeavingDropsRoute(init: State, events: seq<Event>, c: Conn, i: Input)
    requires Init(init) && c in Run(init, events).handlers && Run(init, events).handlers[c].pc == Leave
    requires Run(init, events).handlers[c].claim.Some?
    ensures var s := Run(init, events);
            var u := s.handlers[c].claim.value.user;
            var t := Next(s, Advance(c, i));
            && t.router == s.router - {u}
            && (u in s.router && s.router[u].conn != c ==>
                  var x := s.router[u].conn;
                  && x in t.handlers && !Gone(t.handlers[x].pc) && t.handlers[x].authed
                  && t.handlers[x].claim.Some? && t.handlers[x].claim.value.user == u)
  {
    hide Run, Next, Inv;
    var s := Run(init, events);
    var u := s.handlers[c].claim.value.user;
    LeaveClose(s, c, i);
    if u in s.router {
      RouterEntriesAreLive(init, events, u);
    }
  }

  // A second connection of a connected user keeps its route if the first one leaves before it logs in;
  // if it leaves afterwards, the second one is left open and logged in but without a route.
  lemma SecondLoginLosesRoute(s: State, c: Conn, d: Conn, r: Request, token: SessionToken)
    requires c in s.handlers && d in s.handlers && c != d
    requires s.handlers[c].pc == Loop && s.handlers[c].claim.Some? && s.handlers[d].pc == AwaitAuth
    requires AuthOutcome(s.committed.store.users, s.verify, r) == Granted(s.handlers[c].claim.value.user)
    ensures var u := s.handlers[c].claim.value.user;
            var before := Run(s, LeaveEvents(c) + LoginEvents(d, r, token));
            var after := Run(s, LoginEvents(d, r, token) + LeaveEvents(c));
            && u in before.router && before.router[u] == Route(d, s.handlers[d].key)
            && u !in after.router && d in after.handlers
            && after.handlers[d].authed && after.handlers[d].pc == ReadPending
            && after.handlers[d].claim.Some? && after.handlers[d].claim.value.user == u
  {
    hide Run, Next, AuthOutcome, LeaveEvents, LoginEvents;
    RunAppend(s, LeaveEvents(c), LoginEvents(d, r, token));
    LeaveRun(s, c);
    LoginRun(Run(s, LeaveEvents(c)), d, r, token);
    RunAppend(s, LoginEvents(d, r, token), LeaveEvents(c));
    LoginRun(s, d, r, token);
    LeaveRun(Run(s, LoginEvents(d, r, token)), c);
  }
}
