// backend/server.py as a machine: any number of handle_client threads, the single database
// writer, and the rest of the backend, interleaved one shared access at a time.

module Server {
  import opened Bytes
  import opened Store
  import opened Protocol

  type Conn = nat
  type Key = bytes

  const TIMESTAMP_WINDOW: real := 300.0
  const CLOCK_SKEW: real := 30.0
  const SESSION_EXPIRY: real := 3600.0

  // A frame on a connection, with the key it was encrypted under.
  datatype Wire = Wire(key: Key, frame: Frame)

  datatype Route = Route(conn: Conn, key: Key)

  // What an AUTH payload presented; the handler's locals 'username' and 'password'.
  datatype Claim = Claim(user: User, password: Value, ref: MessageId)

  // One row of get_pending_messages.
  datatype Pending = Pending(id: MessageId, msg: Message)

  // Where a handler thread stands: each point does one shared access next.
  datatype PC =
    | AwaitAuth
    | Refuse(reply: Frame)
    | Login
    | Issue
    | SendToken
    | Enter
    | ReadPending
    | Drain(rest: seq<Pending>)
    | MarkDrained(rest: seq<Pending>)
    | Loop
    | CheckReplay(p: Payload)
    | Record(p: Payload)
    | Persist(p: Payload)
    | MarkServer(p: Payload)
    | Lookup(p: Payload)
    | Forward(p: Payload, route: Route)
    | MarkForwarded(p: Payload)
    | Confirm(p: Payload)
    | Reply(reply: Frame)
    | Leave
    | Closing
    | Closed
    | Crashed

  // A payload the message loop decoded, and when.
  datatype Arrival = Arrival(r: Request, at: real)

  // A handler thread and its connection: out is everything placed on the connection so far, and
  // requests every payload the message loop decoded.
  datatype Handler = Handler(
    key: Key, pc: PC, claim: Option<Claim>, token: Option<SessionToken>, authed: bool,
    out: seq<Wire>, requests: seq<Arrival>)

  // A call into the account, session or purge functions that has made its read and not yet its write.
  datatype Call =
    | Registering(user: User, hash: string)
    | Invalidating(token: SessionToken)
    | Purging(cutoff: real)

  function CallTask(call: Call): Task
  {
    match call
    case Registering(u, hash) => InsertUser(u, hash)
    case Invalidating(token) => InvalidateSession(token)
    case Purging(cutoff) => PurgeSeen(cutoff)
  }

  // base is the store the server started with and issued every task enqueued since; verify is
  // the bcrypt check of a stored hash against a password.
  datatype State = State(
    base: Store, committed: Tables, queue: seq<Task>, issued: seq<Task>,
    router: map<User, Route>, handlers: map<Conn, Handler>, calls: multiset<Call>, now: real,
    verify: (string, string) -> bool)

  // What the environment supplies to a handler step.
  datatype Input =
    | Go
    | Arrives(msg: Inbound)
    | Fresh(token: SessionToken)
    | Rows(rows: seq<Pending>)
    | Sends(ok: bool)

  datatype Event =
    | Connect(c: Conn, key: Key)
    | Tick(t: real)
    | Write
    | Advance(c: Conn, input: Input)
    | Register(user: User, password: string, hash: string)
    | CheckSession(token: SessionToken)
    | Logout(token: SessionToken)
    | Purge(window: real)
    | Finish(call: Call)

  // The one shared access a handler step makes.
  datatype Effect =
    | Quiet
    | Enqueue(task: Task)
    | Send(to: Conn, wire: Wire)
    | Join(user: User)
    | Drop(user: User)

  // ------------------------------------------------------------------
  // Reads
  // ------------------------------------------------------------------

  predicate Lists(rows: seq<Pending>, id: MessageId)
  {
    exists i :: 0 <= i < |rows| && rows[i].id == id
  }

  predicate PendingRow(messages: map<MessageId, Row>, user: User, p: Pending)
  {
    p.id in messages && messages[p.id] == Row(p.msg, Sent) && p.msg.recipient == user
  }

  predicate Covered(messages: map<MessageId, Row>, user: User, rows: seq<Pending>, id: MessageId)
  {
    id in messages && messages[id].msg.recipient == user && messages[id].status == Sent ==> Lists(rows, id)
  }

  predicate InOrder(a: Pending, b: Pending)
  {
    a.id != b.id && a.msg.createdAt <= b.msg.createdAt
  }

  predicate Ordered(rows: seq<Pending>)
  {
    forall i, j {:trigger InOrder(rows[i], rows[j])} :: 0 <= i < j < |rows| ==> InOrder(rows[i], rows[j])
  }

  // SELECT ... WHERE recipient = ? AND delivery_status = 'sent' ORDER BY created_at: exactly those
  // rows, each once, sorted, with ties in any order.
  predicate IsPendingList(messages: map<MessageId, Row>, user: User, rows: seq<Pending>)
  {
    && (forall i {:trigger PendingRow(messages, user, rows[i])} :: 0 <= i < |rows| ==> PendingRow(messages, user, rows[i]))
    && (forall id {:trigger Covered(messages, user, rows, id)} :: id in messages ==> Covered(messages, user, rows, id))
    && Ordered(rows)
  }

  // validate_session: the user of a live token, read from the committed tables.
  function SessionUser(s: State, token: SessionToken): Option<User>
  {
    var sessions := s.committed.store.sessions;
    if token in sessions && !sessions[token].invalidated && s.now <= sessions[token].expiresAt
    then Some(sessions[token].user)
    else None
  }

  predicate Expired(now: real, timestamp: real)
  {
    now - timestamp > TIMESTAMP_WINDOW || now - timestamp < -CLOCK_SKEW
  }

  // ------------------------------------------------------------------
  // One step of one handler
  // ------------------------------------------------------------------

  function At(h: Handler, pc: PC): (Handler, Effect)
  {
    (h.(pc := pc), Quiet)
  }

  function Queued(h: Handler, pc: PC, task: Task): (Handler, Effect)
  {
    (h.(pc := pc), Enqueue(task))
  }

  function Own(c: Conn, h: Handler, pc: PC, frame: Frame): (Handler, Effect)
  {
    (h.(pc := pc), Send(c, Wire(h.key, frame)))
  }

  // The AUTH payload is the only one without a timestamp or replay check. A null username is
  // refused by the lookup; a container makes the lookup raise, and then the cleanup as well.
  function ReceiveAuth(h: Handler, msg: Inbound): (Handler, Effect)
  {
    if !msg.Body? then At(h, Leave)
    else if msg.r.Malformed? then At(h, Refuse(Error(InvalidSchema)))
    else if msg.r.p.kind != AuthType then At(h, Refuse(Error(AuthFailed)))
    else match msg.r.p.sender
      case Text(u) => At(h.(claim := Some(Claim(u, msg.r.p.data, msg.r.p.id))), Login)
      case Null => At(h, Refuse(Error(AuthFailed)))
      case Unbindable => At(h, Crashed)
  }

  function TryLogin(s: State, h: Handler, user: User, password: Value): (Handler, Effect)
  {
    if user !in s.committed.store.users then At(h, Refuse(Error(AuthFailed)))
    else if !password.Text? then At(h, Leave)
    else if !s.verify(s.committed.store.users[user], password.text) then At(h, Refuse(Error(AuthFailed)))
    else At(h, Issue)
  }

  // The checks on a decoded payload, in order; None for a fresh chat payload. Too old is more than five
  // minutes, too new more than thirty seconds ahead of the server clock, and age is judged first.
  function Refusal(now: real, r: Request): (code: Option<ErrCode>)
    ensures code == Some(MessageExpired) <==> r.Valid? && (now - r.p.timestamp > 300.0 || now - r.p.timestamp < -30.0)
    ensures code == Some(InvalidSchema) <==>
              r.Malformed? || (r.p.kind != ChatType && -30.0 <= now - r.p.timestamp <= 300.0)
    ensures code.None? <==> r.Valid? && r.p.kind == ChatType && -30.0 <= now - r.p.timestamp <= 300.0
  {
    if r.Malformed? then Some(InvalidSchema)
    else if Expired(now, r.p.timestamp) then Some(MessageExpired)
    else if r.p.kind != ChatType then Some(InvalidSchema)
    else None
  }

  function ReceiveChat(s: State, h: Handler, msg: Inbound): (Handler, Effect)
  {
    if !msg.Body? then At(h, Leave)
    else
      var g := h.(requests := h.requests + [Arrival(msg.r, s.now)]);
      match Refusal(s.now, msg.r)
      case Some(code) => At(g, Reply(Error(code)))
      case None => At(g, CheckReplay(msg.r.p))
  }

  function StepLogin(s: State, c: Conn, h: Handler, i: Input): (Handler, Effect)
  {
    match h.pc
    case AwaitAuth => if i.Arrives? then ReceiveAuth(h, i.msg) else At(h, h.pc)
    case Refuse(f) =>
      if !i.Sends? then At(h, h.pc) else if i.ok then Own(c, h, Leave, f) else At(h, Leave)
    case Login =>
      if h.claim.Some? then TryLogin(s, h, h.claim.value.user, h.claim.value.password) else At(h, h.pc)
    case Issue =>
      if i.Fresh? && h.claim.Some?
      then Queued(h.(token := Some(i.token)), SendToken,
                  InsertSession(i.token, h.claim.value.user, s.now + SESSION_EXPIRY))
      else At(h, h.pc)
    case SendToken =>
      if !(i.Sends? && h.token.Some? && h.claim.Some?) then At(h, h.pc)
      else if i.ok then Own(c, h.(authed := true), Enter, TokenAck(h.claim.value.ref, h.token.value))
      else At(h, Leave)
    case _ => At(h, h.pc)
  }

  function StepDrain(s: State, c: Conn, h: Handler, i: Input): (Handler, Effect)
  {
    match h.pc
    case Enter => if h.claim.Some? then (h.(pc := ReadPending), Join(h.claim.value.user)) else At(h, h.pc)
    case ReadPending =>
      if i.Rows? && h.claim.Some? && IsPendingList(s.committed.store.messages, h.claim.value.user, i.rows)
      then At(h, Drain(i.rows)) else At(h, h.pc)
    case Drain(rest) =>
      if rest == [] then At(h, Loop)
      else if !i.Sends? then At(h, h.pc)
      else if i.ok then Own(c, h, MarkDrained(rest), Chat(PayloadOf(rest[0].id, rest[0].msg)))
      else At(h, Loop)
    case MarkDrained(rest) =>
      if rest == [] then At(h, Loop) else Queued(h, Drain(rest[1..]), UpdateDelivery(rest[0].id, Delivered))
    case _ => At(h, h.pc)
  }

  function StepMessage(s: State, c: Conn, h: Handler, i: Input): (Handler, Effect)
  {
    match h.pc
    case Loop => if i.Arrives? then ReceiveChat(s, h, i.msg) else At(h, h.pc)
    case CheckReplay(p) =>
      if p.id in s.committed.seen then At(h, Reply(Error(ReplayDetected))) else At(h, Record(p))
    case Record(p) => Queued(h, Persist(p), RecordSeen(p.id))
    case Persist(p) =>
      Queued(h, if p.to == "server" then MarkServer(p) else Lookup(p), InsertMessage(p.id, MessageOf(p)))
    case MarkServer(p) => Queued(h, Reply(Ack(p.id, Delivered)), UpdateDelivery(p.id, Delivered))
    case Lookup(p) =>
      if p.to in s.router then At(h, Forward(p, s.router[p.to])) else At(h, Reply(Ack(p.id, Sent)))
    case Forward(p, route) =>
      if !i.Sends? then At(h, h.pc)
      else if i.ok then (h.(pc := MarkForwarded(p)), Send(route.conn, Wire(route.key, Chat(p))))
      else At(h, Reply(Ack(p.id, Sent)))
    case MarkForwarded(p) => Queued(h, Confirm(p), UpdateDelivery(p.id, Delivered))
    case Confirm(p) =>
      if !i.Sends? then At(h, h.pc)
      else if i.ok then Own(c, h, Loop, Ack(p.id, Delivered))
      else At(h, Reply(Ack(p.id, Sent)))
    case Reply(f) =>
      if !i.Sends? then At(h, h.pc) else if i.ok then Own(c, h, Loop, f) else At(h, Leave)
    case _ => At(h, h.pc)
  }

  function StepCleanup(h: Handler): (Handler, Effect)
  {
    match h.pc
    case Leave => (h.(pc := Closing), if h.claim.Some? then Drop(h.claim.value.user) else Quiet)
    case Closing => At(h, Closed)
    case _ => At(h, h.pc)
  }

  function Step(s: State, c: Conn, h: Handler, i: Input): (Handler, Effect)
  {
    match h.pc
    case AwaitAuth | Refuse(_) | Login | Issue | SendToken => StepLogin(s, c, h, i)
    case Enter | ReadPending | Drain(_) | MarkDrained(_) => StepDrain(s, c, h, i)
    case Leave | Closing | Closed | Crashed => StepCleanup(h)
    case _ => StepMessage(s, c, h, i)
  }

  // ------------------------------------------------------------------
  // One step of the whole backend
  // ------------------------------------------------------------------

  function Push(s: State, task: Task): State
  {
    s.(queue := s.queue + [task], issued := s.issued + [task])
  }

  function Place(s: State, c: Conn, w: Wire): State
  {
    if c in s.handlers
    then s.(handlers := s.handlers[c := s.handlers[c].(out := s.handlers[c].out + [w])])
    else s
  }

  function Perform(s: State, c: Conn, r: (Handler, Effect)): State
  {
    var t := s.(handlers := s.handlers[c := r.0]);
    match r.1
    case Quiet => t
    case Enqueue(task) => Push(t, task)
    case Send(to, w) => Place(t, to, w)
    case Join(u) => t.(router := t.router[u := Route(c, r.0.key)])
    case Drop(u) => t.(router := t.router - {u})
  }

  function WriterStep(s: State): State
  {
    if s.queue == [] then s
    else s.(committed := Commit(s.committed, s.queue[0], s.now), queue := s.queue[1..])
  }

  function Begin(s: State, call: Call): State
  {
    s.(calls := s.calls + multiset{call})
  }

  function Next(s: State, e: Event): State
  {
    match e
    case Connect(c, key) =>
      if c in s.handlers then s
      else s.(handlers := s.handlers[c := Handler(key, AwaitAuth, None, None, false, [], [])])
    case Tick(t) => if t > s.now then s.(now := t) else s
    case Write => WriterStep(s)
    case Advance(c, i) => if c in s.handlers then Perform(s, c, Step(s, c, s.handlers[c], i)) else s
    case Register(u, password, hash) =>
      if u == "" || password == "" || u in s.committed.store.users then s else Begin(s, Registering(u, hash))
    case CheckSession(token) =>
      var sessions := s.committed.store.sessions;
      if token in sessions && !sessions[token].invalidated && s.now > sessions[token].expiresAt
      then Begin(s, Invalidating(token)) else s
    case Logout(token) => Push(s, InvalidateSession(token))
    case Purge(window) => Begin(s, Purging(s.now - window))
    case Finish(call) =>
      if call in s.calls then Push(s.(calls := s.calls - multiset{call}), CallTask(call)) else s
  }

  function Run(s: State, events: seq<Event>): State
    decreases |events|
  {
    if events == [] then s else Run(Next(s, events[0]), events[1..])
  }

  // A server that has just started on a database left by earlier runs.
  predicate Init(s: State)
  {
    s.committed.store == s.base && s.queue == [] && s.issued == [] && s.router == map[] && s.handlers == map[]
    && s.calls == multiset{}
  }

  lemma {:induction false} RunAppend(s: State, a: seq<Event>, b: seq<Event>)
    ensures Run(s, a + b) == Run(Run(s, a), b)
    decreases |a|
  {
    if a == [] {
      assert a + b == b;
    } else {
      assert (a + b)[1..] == a[1..] + b;
      RunAppend(Next(s, a[0]), a[1..], b);
    }
  }

  // The number of tasks the writer has executed.
  function Done(s: State): int
  {
    |s.issued| - |s.queue|
  }

  // The eventual store: the committed tables with the whole queue applied in order.
  function Eventual(s: State): Store
  {
    RunTasks(s.committed.store, s.queue)
  }
}
