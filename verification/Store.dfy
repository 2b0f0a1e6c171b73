// backend/db.py: the tables, and what one queued write task does to them.

module Store {
  import opened Bytes

  type User = string
  type MessageId = string
  type SessionToken = string

  // A JSON value bound to a TEXT column. A JSON array or object cannot be bound at all.
  datatype Value = Text(text: string) | Null | Unbindable

  datatype Status = Sent | Delivered | Read

  // The columns of a message row that insert_message writes.
  datatype Message = Message(sender: Value, recipient: User, text: Value, createdAt: real)

  datatype Row = Row(msg: Message, status: Status)

  datatype Session = Session(user: User, expiresAt: real, invalidated: bool)

  // The three tables whose content does not depend on when a task executes.
  datatype Store = Store(
    users: map<User, string>,
    sessions: map<SessionToken, Session>,
    messages: map<MessageId, Row>)

  // The committed database: the seen_messages table also stamps the execution time.
  datatype Tables = Tables(store: Store, seen: map<MessageId, real>)

  datatype Task =
    | InsertUser(user: User, hash: string)
    | InsertSession(token: SessionToken, user: User, expiresAt: real)
    | InvalidateSession(token: SessionToken)
    | InsertMessage(id: MessageId, msg: Message)
    | UpdateDelivery(id: MessageId, status: Status)
    | RecordSeen(id: MessageId)
    | PurgeSeen(cutoff: real)

  // sender is NOT NULL, plaintext is nullable, and neither accepts a container.
  predicate Storable(m: Message)
  {
    m.sender.Text? && !m.text.Unbindable?
  }

  // One statement against the store; None when SQLite raises, so that the writer rolls back.
  function Execute(t: Store, task: Task): Option<Store>
  {
    match task
    case InsertUser(u, hash) =>
      if u in t.users then None else Some(t.(users := t.users[u := hash]))
    case InsertSession(token, u, expiresAt) =>
      if token in t.sessions || u !in t.users then None
      else Some(t.(sessions := t.sessions[token := Session(u, expiresAt, false)]))
    case InvalidateSession(token) =>
      if token in t.sessions
      then Some(t.(sessions := t.sessions[token := t.sessions[token].(invalidated := true)]))
      else Some(t)
    case InsertMessage(id, m) =>
      if id in t.messages || !Storable(m) then None
      else Some(t.(messages := t.messages[id := Row(m, Sent)]))
    case UpdateDelivery(id, status) =>
      if id in t.messages
      then Some(t.(messages := t.messages[id := t.messages[id].(status := status)]))
      else Some(t)
    case RecordSeen(_) => Some(t)
    case PurgeSeen(_) => Some(t)
  }

  // Commit, or roll back and leave the store as it was.
  function Apply(t: Store, task: Task): Store
  {
    match Execute(t, task)
    case Some(t') => t'
    case None => t
  }

  // The store after a list of tasks has run, oldest first.
  function RunTasks(t: Store, tasks: seq<Task>): Store
  {
    if tasks == [] then t
    else Apply(RunTasks(t, tasks[..|tasks| - 1]), tasks[|tasks| - 1])
  }

  // The seen_messages table after a task that executes at time now.
  function ApplySeen(seen: map<MessageId, real>, task: Task, now: real): map<MessageId, real>
  {
    match task
    case RecordSeen(id) => if id in seen then seen else seen[id := now]
    case PurgeSeen(cutoff) => map id | id in seen && seen[id] >= cutoff :: seen[id]
    case _ => seen
  }

  function Commit(t: Tables, task: Task, now: real): Tables
  {
    Tables(Apply(t.store, task), ApplySeen(t.seen, task, now))
  }

  // ------------------------------------------------------------------
  // Running task lists
  // ------------------------------------------------------------------

  lemma RunTasksSnoc(t: Store, tasks: seq<Task>, task: Task)
    ensures RunTasks(t, tasks + [task]) == Apply(RunTasks(t, tasks), task)
  {
    assert (tasks + [task])[..|tasks|] == tasks;
  }

  lemma {:induction false} RunTasksAppend(t: Store, a: seq<Task>, b: seq<Task>)
    ensures RunTasks(t, a + b) == RunTasks(RunTasks(t, a), b)
  {
    if b == [] {
      assert a + b == a;
    } else {
      assert (a + b)[..|a + b| - 1] == a + b[..|b| - 1];
      RunTasksAppend(t, a, b[..|b| - 1]);
    }
  }

  // Executing the oldest queued task does not change what the whole queue leads to.
  lemma RunTasksHead(t: Store, tasks: seq<Task>)
    requires tasks != []
    ensures RunTasks(t, tasks) == RunTasks(Apply(t, tasks[0]), tasks[1..])
  {
    assert tasks == [tasks[0]] + tasks[1..];
    RunTasksAppend(t, [tasks[0]], tasks[1..]);
    RunTasksSnoc(t, [], tasks[0]);
    assert [] + [tasks[0]] == [tasks[0]];
  }

  // ------------------------------------------------------------------
  // What no task can undo
  // ------------------------------------------------------------------

  // b keeps every account and every message of a unchanged, and every session of a
  // with its user and expiry; an invalidated session stays invalidated.
  predicate Keeps(a: Store, b: Store)
  {
    && (forall u {:trigger u in b.users} {:trigger b.users[u]} ::
          u in a.users ==> u in b.users && b.users[u] == a.users[u])
    && (forall id {:trigger id in b.messages} {:trigger b.messages[id]} ::
          id in a.messages ==> id in b.messages && b.messages[id].msg == a.messages[id].msg)
    && (forall k {:trigger k in b.sessions} {:trigger b.sessions[k]} ::
          k in a.sessions ==> k in b.sessions && SessionKept(a.sessions[k], b.sessions[k]))
  }

  predicate SessionKept(a: Session, b: Session)
  {
    b.user == a.user && b.expiresAt == a.expiresAt && (a.invalidated ==> b.invalidated)
  }

  lemma ApplyKeeps(t: Store, task: Task)
    ensures Keeps(t, Apply(t, task))
  {
  }

  lemma KeepsTransitive(a: Store, b: Store, c: Store)
    requires Keeps(a, b) && Keeps(b, c)
    ensures Keeps(a, c)
  {
    assert forall u :: u in a.users ==> u in b.users;
    assert forall id :: id in a.messages ==> id in b.messages;
    assert forall k :: k in a.sessions ==> k in b.sessions;
  }

  // Rows are write-once, whatever tasks run afterwards.
  lemma {:induction false} RunTasksKeeps(t: Store, tasks: seq<Task>)
    ensures Keeps(t, RunTasks(t, tasks))
  {
    if tasks != [] {
      var front := RunTasks(t, tasks[..|tasks| - 1]);
      RunTasksKeeps(t, tasks[..|tasks| - 1]);
      ApplyKeeps(front, tasks[|tasks| - 1]);
      KeepsTransitive(t, front, RunTasks(t, tasks));
    }
  }

  // A message row exists exactly when the table started with it or a storable insert for it ran.
  lemma {:induction false} MessageKeys(t: Store, tasks: seq<Task>, id: MessageId)
    ensures id in RunTasks(t, tasks).messages <==>
            id in t.messages || exists i :: 0 <= i < |tasks| && tasks[i].InsertMessage? && tasks[i].id == id && Storable(tasks[i].msg)
  {
    if tasks != [] {
      MessageKeys(t, tasks[..|tasks| - 1], id);
    }
  }

  // A row's content comes from the starting table or from an insert that ran.
  lemma {:induction false} MessageOrigin(t: Store, tasks: seq<Task>, id: MessageId)
    requires id in RunTasks(t, tasks).messages
    ensures (id in t.messages && RunTasks(t, tasks).messages[id].msg == t.messages[id].msg)
            || InsertMessage(id, RunTasks(t, tasks).messages[id].msg) in tasks
  {
    if tasks != [] {
      var front := tasks[..|tasks| - 1];
      if id in RunTasks(t, front).messages {
        MessageOrigin(t, front, id);
        assert forall x :: x in front ==> x in tasks;
      } else {
        assert tasks[|tasks| - 1] == InsertMessage(id, RunTasks(t, tasks).messages[id].msg);
      }
    }
  }

  // Tasks that only ever set the status to delivered.
  predicate OnlyDelivers(tasks: seq<Task>)
  {
    forall i :: 0 <= i < |tasks| && tasks[i].UpdateDelivery? ==> tasks[i].status == Delivered
  }

  // The i-th task marks an existing row delivered.
  predicate DeliveredAt(t: Store, tasks: seq<Task>, id: MessageId, i: nat)
  {
    i < |tasks| && tasks[i] == UpdateDelivery(id, Delivered) && id in RunTasks(t, tasks[..i]).messages
  }

  lemma DeliveredAtFront(t: Store, tasks: seq<Task>, id: MessageId, i: nat)
    requires i < |tasks| - 1
    ensures DeliveredAt(t, tasks[..|tasks| - 1], id, i) <==> DeliveredAt(t, tasks, id, i)
  {
    assert tasks[..|tasks| - 1][..i] == tasks[..i];
  }

  // What exists after the first i tasks exists after all of them.
  lemma PrefixKeeps(t: Store, tasks: seq<Task>, i: nat)
    requires i <= |tasks|
    ensures Keeps(RunTasks(t, tasks[..i]), RunTasks(t, tasks))
  {
    assert tasks == tasks[..i] + tasks[i..];
    RunTasksAppend(t, tasks[..i], tasks[i..]);
    RunTasksKeeps(RunTasks(t, tasks[..i]), tasks[i..]);
  }

  // What one task does to one row.
  lemma ApplyRow(t: Store, task: Task, id: MessageId)
    ensures id in t.messages ==>
              id in Apply(t, task).messages
              && Apply(t, task).messages[id]
                 == if task.UpdateDelivery? && task.id == id then t.messages[id].(status := task.status) else t.messages[id]
    ensures id !in t.messages && id in Apply(t, task).messages ==>
              task.InsertMessage? && Apply(t, task).messages[id].status == Sent
  {
  }

  lemma NewRowUnmarked(t: Store, tasks: seq<Task>, id: MessageId, i: nat)
    requires tasks != [] && id !in RunTasks(t, tasks[..|tasks| - 1]).messages && id in RunTasks(t, tasks).messages
    ensures !DeliveredAt(t, tasks, id, i)
  {
    var n := |tasks| - 1;
    if i < n {
      DeliveredAtFront(t, tasks, id, i);
      PrefixKeeps(t, tasks[..n], i);
    }
  }

  // A row is delivered exactly when it started so, or an update for it ran after it existed.
  lemma {:induction false} DeliveredRows(t: Store, tasks: seq<Task>, id: MessageId)
    requires OnlyDelivers(tasks)
    requires id in RunTasks(t, tasks).messages
    ensures RunTasks(t, tasks).messages[id].status == Delivered <==>
            || (id in t.messages && t.messages[id].status == Delivered)
            || exists i :: DeliveredAt(t, tasks, id, i)
  {
    if tasks != [] {
      var n := |tasks| - 1;
      var front := tasks[..n];
      ApplyRow(RunTasks(t, front), tasks[n], id);
      if id in RunTasks(t, front).messages {
        DeliveredRows(t, front, id);
        if i: nat :| DeliveredAt(t, tasks, id, i) && i < n {
          DeliveredAtFront(t, tasks, id, i);
        }
        if i: nat :| DeliveredAt(t, front, id, i) {
          DeliveredAtFront(t, tasks, id, i);
        }
        assert tasks[n] == UpdateDelivery(id, Delivered) <==> DeliveredAt(t, tasks, id, n);
      } else {
        RunTasksKeeps(t, front);
        forall i: nat
          ensures !DeliveredAt(t, tasks, id, i)
        {
          NewRowUnmarked(t, tasks, id, i);
        }
      }
    }
  }

  // No task that runs later takes a row back from delivered, and a new row is sent or delivered.
  lemma {:induction false} DeliveredSticks(t: Store, tasks: seq<Task>, id: MessageId)
    requires OnlyDelivers(tasks)
    requires id in t.messages
    ensures id in RunTasks(t, tasks).messages
    ensures RunTasks(t, tasks).messages[id].status == t.messages[id].status || RunTasks(t, tasks).messages[id].status == Delivered
  {
    if tasks != [] {
      DeliveredSticks(t, tasks[..|tasks| - 1], id);
    }
  }

  lemma {:induction false} NewRowStatus(t: Store, tasks: seq<Task>, id: MessageId)
    requires OnlyDelivers(tasks)
    requires id !in t.messages && id in RunTasks(t, tasks).messages
    ensures RunTasks(t, tasks).messages[id].status == Sent || RunTasks(t, tasks).messages[id].status == Delivered
  {
    var front := tasks[..|tasks| - 1];
    if id in RunTasks(t, front).messages {
      NewRowStatus(t, front, id);
    }
  }

  // A committed session was inserted by a task for its user, or was there from the start.
  lemma {:induction false} SessionOrigin(t: Store, tasks: seq<Task>, k: SessionToken)
    requires k in RunTasks(t, tasks).sessions
    ensures var ses := RunTasks(t, tasks).sessions[k];
            || (k in t.sessions && t.sessions[k].user == ses.user && t.sessions[k].expiresAt == ses.expiresAt)
            || InsertSession(k, ses.user, ses.expiresAt) in tasks
  {
    if tasks != [] {
      var front := tasks[..|tasks| - 1];
      if k in RunTasks(t, front).sessions {
        SessionOrigin(t, front, k);
        assert forall x :: x in front ==> x in tasks;
      } else {
        assert tasks[|tasks| - 1].InsertSession?;
      }
    }
  }

  // The i-th task invalidates an existing session.
  predicate RevokedAt(t: Store, tasks: seq<Task>, k: SessionToken, i: nat)
  {
    i < |tasks| && tasks[i] == InvalidateSession(k) && k in RunTasks(t, tasks[..i]).sessions
  }

  lemma RevokedAtFront(t: Store, tasks: seq<Task>, k: SessionToken, i: nat)
    requires i < |tasks| - 1
    ensures RevokedAt(t, tasks[..|tasks| - 1], k, i) <==> RevokedAt(t, tasks, k, i)
  {
    assert tasks[..|tasks| - 1][..i] == tasks[..i];
  }

  // What one task does to one session.
  lemma ApplySession(t: Store, task: Task, k: SessionToken)
    ensures k in t.sessions ==>
              k in Apply(t, task).sessions
              && Apply(t, task).sessions[k]
                 == if task == InvalidateSession(k) then t.sessions[k].(invalidated := true) else t.sessions[k]
    ensures k !in t.sessions && k in Apply(t, task).sessions ==>
              task.InsertSession? && !Apply(t, task).sessions[k].invalidated
  {
  }

  // A session that exists only after the last task has not been invalidated.
  lemma NewSessionUnrevoked(t: Store, tasks: seq<Task>, k: SessionToken, i: nat)
    requires tasks != [] && k !in RunTasks(t, tasks[..|tasks| - 1]).sessions && k in RunTasks(t, tasks).sessions
    ensures !RevokedAt(t, tasks, k, i)
  {
    var n := |tasks| - 1;
    if i < n {
      RevokedAtFront(t, tasks, k, i);
      PrefixKeeps(t, tasks[..n], i);
    }
  }

  predicate StartsRevoked(t: Store, k: SessionToken)
  {
    k in t.sessions && t.sessions[k].invalidated
  }

  // A session is invalidated exactly when it began so or an invalidation ran while it existed.
  lemma {:induction false} RevokedSessions(t: Store, tasks: seq<Task>, k: SessionToken)
    requires k in RunTasks(t, tasks).sessions
    ensures RunTasks(t, tasks).sessions[k].invalidated <==>
            StartsRevoked(t, k) || exists i :: RevokedAt(t, tasks, k, i)
  {
    if tasks != [] {
      var n := |tasks| - 1;
      var front := tasks[..n];
      ApplySession(RunTasks(t, front), tasks[n], k);
      if k in RunTasks(t, front).sessions {
        RevokedSessions(t, front, k);
        if i: nat :| RevokedAt(t, tasks, k, i) && i < n {
          RevokedAtFront(t, tasks, k, i);
        }
        if i: nat :| RevokedAt(t, front, k, i) {
          RevokedAtFront(t, tasks, k, i);
        }
        assert tasks[n] == InvalidateSession(k) <==> RevokedAt(t, tasks, k, n);
      } else {
        RunTasksKeeps(t, front);
        forall i: nat
          ensures !RevokedAt(t, tasks, k, i)
        {
          NewSessionUnrevoked(t, tasks, k, i);
        }
      }
    }
  }

  // The i-th task inserts this session for a user who has an account by then.
  predicate OpensAt(t: Store, tasks: seq<Task>, k: SessionToken, i: nat)
  {
    i < |tasks| && tasks[i].InsertSession? && tasks[i].token == k && tasks[i].user in RunTasks(t, tasks[..i]).users
  }

  lemma OpensAtFront(t: Store, tasks: seq<Task>, k: SessionToken, i: nat)
    requires i < |tasks| - 1
    ensures OpensAt(t, tasks[..|tasks| - 1], k, i) <==> OpensAt(t, tasks, k, i)
  {
    assert tasks[..|tasks| - 1][..i] == tasks[..i];
  }

  // A session row exists exactly when it was there before or an insert of it ran for a known user.
  lemma {:induction false} SessionKeys(t: Store, tasks: seq<Task>, k: SessionToken)
    ensures k in RunTasks(t, tasks).sessions <==> k in t.sessions || exists i :: OpensAt(t, tasks, k, i)
  {
    if tasks != [] {
      var n := |tasks| - 1;
      var front := tasks[..n];
      SessionKeys(t, front, k);
      assert tasks[n].InsertSession? && tasks[n].token == k && tasks[n].user in RunTasks(t, front).users <==> OpensAt(t, tasks, k, n);
      if i: nat :| OpensAt(t, tasks, k, i) && i < n {
        OpensAtFront(t, tasks, k, i);
      }
      if i: nat :| OpensAt(t, front, k, i) {
        OpensAtFront(t, tasks, k, i);
      }
    }
  }

  lemma ApplyInsert(t: Store, task: Task)
    requires task.InsertSession? && task.user in t.users && task.token !in t.sessions
    ensures task.token in Apply(t, task).sessions
    ensures Apply(t, task).sessions[task.token] == Session(task.user, task.expiresAt, false)
  {
  }

  // The first insert of a session for a known user is the one that counts: its user and expiry stay,
  // and the session is live until a later task invalidates it.
  lemma SessionAfterInsert(t: Store, tasks: seq<Task>, i: nat)
    requires i < |tasks| && tasks[i].InsertSession? && OpensAt(t, tasks, tasks[i].token, i)
    requires tasks[i].token !in RunTasks(t, tasks[..i]).sessions
    ensures var InsertSession(k, u, expiresAt) := tasks[i];
            var after := RunTasks(t, tasks).sessions;
            && k in after && after[k].user == u && after[k].expiresAt == expiresAt
            && (after[k].invalidated <==> exists j :: i < j < |tasks| && tasks[j] == InvalidateSession(k))
  {
    hide Apply, RunTasks;
    var InsertSession(k, u, expiresAt) := tasks[i];
    var begun := RunTasks(t, tasks[..i + 1]);
    var rest := tasks[i + 1..];
    assert tasks[..i + 1] == tasks[..i] + [tasks[i]] && tasks == tasks[..i + 1] + rest;
    RunTasksSnoc(t, tasks[..i], tasks[i]);
    RunTasksAppend(t, tasks[..i + 1], rest);
    ApplyInsert(RunTasks(t, tasks[..i]), tasks[i]);
    RunTasksKeeps(begun, rest);
    RevokedSessions(begun, rest, k);
    if j :| i < j < |tasks| && tasks[j] == InvalidateSession(k) {
      RunTasksKeeps(begun, rest[..j - i - 1]);
      assert RevokedAt(begun, rest, k, j - i - 1);
    }
    if j: nat :| RevokedAt(begun, rest, k, j) {
      assert tasks[i + 1 + j] == rest[j];
    }
  }

  // The position of the first insert of an account under this name; the length if there is none.
  function FirstInsert(tasks: seq<Task>, u: User): (n: nat)
    ensures n <= |tasks|
    ensures n < |tasks| ==> tasks[n].InsertUser? && tasks[n].user == u
    ensures forall k :: 0 <= k < n ==> !(tasks[k].InsertUser? && tasks[k].user == u)
  {
    if tasks == [] then 0
    else
      var front := FirstInsert(tasks[..|tasks| - 1], u);
      if front < |tasks| - 1 || (tasks[|tasks| - 1].InsertUser? && tasks[|tasks| - 1].user == u) then front
      else |tasks|
  }

  // The first registration of a name wins, and its hash stays for good.
  lemma {:induction false} FirstAccountWins(t: Store, tasks: seq<Task>, u: User)
    ensures u in RunTasks(t, tasks).users <==> u in t.users || FirstInsert(tasks, u) < |tasks|
    ensures u in RunTasks(t, tasks).users ==>
              RunTasks(t, tasks).users[u] == if u in t.users then t.users[u] else tasks[FirstInsert(tasks, u)].hash
  {
    if tasks != [] {
      FirstAccountWins(t, tasks[..|tasks| - 1], u);
    }
  }
}
