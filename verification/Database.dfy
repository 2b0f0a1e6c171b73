// backend/db.py as an object: the write queue, and the thread that owns every write.

module Database {
  import opened Bytes
  import opened Store

  // The tasks the writer will get to: those ahead of the first shutdown sentinel.
  function Ahead(queue: seq<Option<Task>>): seq<Task>
  {
    if queue == [] || queue[0].None? then [] else [queue[0].value] + Ahead(queue[1..])
  }

  // What the writer leaves behind: everything after the sentinel, which it never gets to.
  function Behind(queue: seq<Option<Task>>): seq<Option<Task>>
  {
    if queue == [] then [] else if queue[0].None? then queue[1..] else Behind(queue[1..])
  }

  // Tasks as queue entries.
  function Entries(tasks: seq<Task>): seq<Option<Task>>
  {
    seq(|tasks|, k requires 0 <= k < |tasks| => Some(tasks[k]))
  }

  // Committing tasks one by one, the k-th of them at clock(k).
  function CommitFrom(t: Tables, tasks: seq<Task>, clock: nat -> real, k: nat): Tables
    decreases |tasks|
  {
    if tasks == [] then t else CommitFrom(Commit(t, tasks[0], clock(k)), tasks[1..], clock, k + 1)
  }

  // The store does not depend on when the tasks execute.
  lemma {:induction false} CommitsRunTasks(t: Tables, tasks: seq<Task>, clock: nat -> real, k: nat)
    ensures CommitFrom(t, tasks, clock, k).store == RunTasks(t.store, tasks)
    decreases |tasks|
  {
    if tasks != [] {
      RunTasksHead(t.store, tasks);
      CommitsRunTasks(Commit(t, tasks[0], clock(k)), tasks[1..], clock, k + 1);
    }
  }

  // Enqueueing behind a sentinel adds nothing; otherwise it adds exactly the task.
  lemma {:induction false} AheadAppend(queue: seq<Option<Task>>, task: Task)
    ensures Ahead(queue + [Some(task)]) == if None in queue then Ahead(queue) else Ahead(queue) + [task]
  {
    if queue == [] {
      assert [Some(task)][1..] == [];
    } else {
      assert (queue + [Some(task)])[1..] == queue[1..] + [Some(task)];
      assert queue == [queue[0]] + queue[1..];
      AheadAppend(queue[1..], task);
    }
  }

  // The writer's reach, spelt out: it gets to the tasks in front of the first sentinel, in order, and
  // leaves exactly what is behind it.
  lemma {:induction false} WriterReach(queue: seq<Option<Task>>, i: nat)
    requires i <= |queue| && (forall k :: 0 <= k < i ==> queue[k].Some?) && (i < |queue| ==> queue[i].None?)
    ensures |Ahead(queue)| == i && forall k :: 0 <= k < i ==> queue[k] == Some(Ahead(queue)[k])
    ensures Behind(queue) == if i < |queue| then queue[i + 1..] else []
  {
    if i > 0 {
      WriterReach(queue[1..], i - 1);
      var rest := Ahead(queue[1..]);
      assert Ahead(queue) == [queue[0].value] + rest;
      forall k | 0 <= k < i
        ensures queue[k] == Some(Ahead(queue)[k])
      {
        assert k > 0 ==> queue[1..][k - 1] == queue[k] && rest[k - 1] == Ahead(queue)[k];
      }
    }
  }

  class Database {
    var tables: Tables
    var queue: seq<Option<Task>>

    constructor (tables: Tables)
      ensures this.tables == tables && queue == []
    {
      this.tables := tables;
      queue := [];
    }

    // The committed store with everything the writer will get to applied in order.
    ghost function Eventual(): Store
      reads this
    {
      RunTasks(tables.store, Ahead(queue))
    }

    method Enqueue(task: Task)
      modifies this`queue
      ensures queue == old(queue) + [Some(task)]
      ensures Eventual() == if None in old(queue) then old(Eventual()) else Apply(old(Eventual()), task)
    {
      AheadAppend(queue, task);
      RunTasksSnoc(tables.store, Ahead(queue), task);
      queue := queue + [Some(task)];
    }

    method Stop()
      modifies this`queue
      ensures queue == old(queue) + [None]
      ensures Eventual() == old(Eventual())
    {
      StopAddsNothing(queue);
      queue := queue + [None];
    }

    method IsReplay(id: MessageId) returns (seen: bool)
      ensures seen <==> id in tables.seen
    {
      seen := id in tables.seen;
    }

    // Runs until it meets the sentinel, or waits on an empty queue. A task that raises is rolled
    // back and the loop goes on.
    method WriterLoop(clock: nat -> real) returns (stopped: bool)
      modifies this
      ensures tables == CommitFrom(old(tables), Ahead(old(queue)), clock, 0)
      ensures tables.store == old(Eventual())
      ensures stopped <==> None in old(queue)
      ensures queue == Behind(old(queue))
    {
      var executed: nat := 0;
      stopped := false;
      CommitsRunTasks(tables, Ahead(queue), clock, 0);
      while queue != []
        invariant CommitFrom(tables, Ahead(queue), clock, executed) == CommitFrom(old(tables), Ahead(old(queue)), clock, 0)
        invariant Behind(queue) == Behind(old(queue))
        invariant !stopped && (None in queue <==> None in old(queue))
        decreases |queue|
      {
        var entry := queue[0];
        assert queue == [entry] + queue[1..];
        queue := queue[1..];
        if entry.None? {
          stopped := true;
          break;
        }
        var task := entry.value;
        match Execute(tables.store, task) {
          case Some(store) => tables := Tables(store, ApplySeen(tables.seen, task, clock(executed)));
          case None => tables := tables.(seen := ApplySeen(tables.seen, task, clock(executed)));
        }
        executed := executed + 1;
      }
    }
  }

  lemma {:induction false} StopAddsNothing(queue: seq<Option<Task>>)
    ensures Ahead(queue + [None]) == Ahead(queue)
  {
    if queue == [] {
    } else {
      assert (queue + [None])[1..] == queue[1..] + [None];
      StopAddsNothing(queue[1..]);
    }
  }

  lemma {:induction false} CommitFromAppend(t: Tables, a: seq<Task>, b: seq<Task>, clock: nat -> real, k: nat)
    ensures CommitFrom(t, a + b, clock, k) == CommitFrom(CommitFrom(t, a, clock, k), b, clock, k + |a|)
    decreases |a|
  {
    if a == [] {
      assert a + b == b;
    } else {
      assert (a + b)[1..] == a[1..] + b;
      CommitFromAppend(Commit(t, a[0], clock(k)), a[1..], b, clock, k + 1);
    }
  }

  // A task that raises when the writer reaches it leaves no trace in any of the four tables: all the
  // tasks around it have the effect they would have without it, each at its own time.
  lemma RollbackIsNoOp(t: Tables, before: seq<Task>, task: Task, after: seq<Task>, clock: nat -> real, k: nat)
    requires Execute(CommitFrom(t, before, clock, k).store, task).None?
    ensures CommitFrom(t, before + [task] + after, clock, k)
            == CommitFrom(CommitFrom(t, before, clock, k), after, clock, k + |before| + 1)
    ensures RunTasks(t.store, before + [task] + after) == RunTasks(t.store, before + after)
  {
    CommitFromAppend(t, before + [task], after, clock, k);
    CommitFromAppend(t, before, [task], clock, k);
    CommitsRunTasks(t, before, clock, k);
    RunTasksSnoc(t.store, before, task);
    RunTasksAppend(t.store, before + [task], after);
    RunTasksAppend(t.store, before, after);
  }
}
