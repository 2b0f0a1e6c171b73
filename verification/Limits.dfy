// Where the promises of the message loop stop, each with the exact condition under which they hold.

module Limits {
  import opened Bytes
  import opened Store
  import opened Protocol
  import opened Server
  import opened Invariants
  import opened Uninterrupted

  lemma RunTasksOne(t: Store, a: Task)
    ensures RunTasks(t, [a]) == Apply(t, a)
  {
    RunTasksSnoc(t, [], a);
    assert [] + [a] == [a];
  }

  // What an accepted message adds to the eventual store, whichever way it was routed.
  lemma ServeTasksRun(t: Store, p: Payload, path: Path)
    requires !path.Replayed?
    ensures var after := Apply(t, InsertMessage(p.id, MessageOf(p)));
            RunTasks(t, ServeTasks(p, path))
            == if path.Offline? || (path.Routed? && !path.ok) then after
               else Apply(after, UpdateDelivery(p.id, Delivered))
  {
    var seen, insert, update := RecordSeen(p.id), InsertMessage(p.id, MessageOf(p)), UpdateDelivery(p.id, Delivered);
    RunTasksOne(t, seen);
    RunTasksSnoc(t, [seen], insert);
    assert [seen] + [insert] == [seen, insert];
    RunTasksSnoc(t, [seen, insert], update);
    assert [seen, insert] + [update] == [seen, insert, update];
  }

  lemma ServedEventually(s: State, c: Conn, p: Payload, path: Path)
    requires c in s.handlers
    ensures Eventual(Served(s, c, p, path)) == RunTasks(Eventual(s), ServeTasks(p, path))
  {
    RunTasksAppend(s.committed.store, s.queue, ServeTasks(p, path));
  }

  lemma ServedReplies(s: State, c: Conn, p: Payload, path: Path)
    requires c in s.handlers
    ensures var t := Served(s, c, p, path);
            && c in t.handlers && t.handlers[c].out != []
            && t.handlers[c].out[|t.handlers[c].out| - 1].frame == ServeReply(p, path)
  {
  }

  // The server acknowledges every fresh chat message, also one whose from or data field cannot be
  // bound to its column: it is kept if and only if its sender is text and its text no container.
  lemma AcknowledgedIsKeptIffStorable(s: State, c: Conn, p: Payload, ok: bool)
    requires Ready(s, c, p) && p.id !in s.committed.seen && p.id !in Eventual(s).messages
    ensures var t := Run(s, ServeEvents(c, p, PathOf(s.committed.seen, s.router, p, ok)));
            && c in t.handlers && t.handlers[c].out != []
            && (exists status :: t.handlers[c].out[|t.handlers[c].out| - 1].frame == Ack(p.id, status))
            && (p.id in Eventual(t).messages <==> p.sender.Text? && !p.data.Unbindable?)
  {
    hide Run, Next, Served, Eventual;
    var path := PathOf(s.committed.seen, s.router, p, ok);
    ServeRun(s, c, p, ok);
    ServedEventually(s, c, p, path);
    ServeTasksRun(Eventual(s), p, path);
    ServedReplies(s, c, p, path);
  }

  predicate Delivers(path: Path)
  {
    path.ToServer? || (path.Routed? && path.ok)
  }

  // Two payloads under one id while the writer is idle, the first for a recipient that is offline:
  // only the first is stored, and nobody is handed it. Yet its row ends up delivered, if and only if
  // the second payload takes a path that delivers. One payload per id is needed.
  lemma CollidingIdsMarkTheWrongRow(s: State, c: Conn, p: Payload, q: Payload, ok: bool)
    requires Ready(s, c, p) && Ready(s, c, q) && q.id == p.id
    requires p.to != "server" && p.to !in s.router && Storable(MessageOf(p))
    requires p.id !in s.committed.seen && p.id !in Eventual(s).messages
    ensures var path := PathOf(s.committed.seen, s.router, q, ok);
            var t := Run(s, ServeEvents(c, p, Offline) + ServeEvents(c, q, path));
            && p.id in Eventual(t).messages
            && Eventual(t).messages[p.id] == Row(MessageOf(p), if Delivers(path) then Delivered else Sent)
            && (forall x :: x in s.handlers ==>
                  x in t.handlers && (Chatted(t.handlers[x].out, p) ==> Chatted(s.handlers[x].out, p)))
  {
    hide Run, Next, Served, Eventual, Chatted;
    var path := PathOf(s.committed.seen, s.router, q, ok);
    RunAppend(s, ServeEvents(c, p, Offline), ServeEvents(c, q, path));
    ServeRun(s, c, p, true);
    var a := Served(s, c, p, Offline);
    ServedStays(s, c, p, Offline);
    ServeRun(a, c, q, ok);
    ServedEventually(s, c, p, Offline);
    ServedEventually(a, c, q, path);
    ServeTasksRun(Eventual(s), p, Offline);
    ServeTasksRun(Eventual(a), q, path);
    forall x | x in s.handlers
      ensures x in Served(a, c, q, path).handlers
      ensures Chatted(Served(a, c, q, path).handlers[x].out, p) ==> Chatted(s.handlers[x].out, p)
    {
      ServedHandsOnlyItself(s, c, p, Offline, p, x);
      ServedHandsOnlyItself(a, c, q, path, p, x);
    }
  }

  lemma ServedStays(s: State, c: Conn, p: Payload, path: Path)
    requires Ready(s, c, p) && path.Offline?
    ensures var t := Served(s, c, p, path);
            && c in t.handlers && t.handlers[c].pc == Loop && t.now == s.now
            && t.committed == s.committed && t.router == s.router
  {
  }

  lemma ChattedSnoc(out: seq<Wire>, w: Wire, p: Payload)
    requires w.frame != Chat(p) && Chatted(out + [w], p)
    ensures Chatted(out, p)
  {
    var k :| 0 <= k < |out + [w]| && (out + [w])[k].frame == Chat(p);
    assert out[k].frame == Chat(p);
  }

  // A pass that does not forward this payload gives it to nobody.
  lemma ServedHandsOnlyItself(s: State, c: Conn, q: Payload, path: Path, p: Payload, x: Conn)
    requires c in s.handlers && x in s.handlers && (path.Routed? ==> q != p)
    ensures x in Served(s, c, q, path).handlers
    ensures Chatted(Served(s, c, q, path).handlers[x].out, p) ==> Chatted(s.handlers[x].out, p)
  {
    hide Chatted;
    var out := Served(s, c, q, path).handlers[x].out;
    var before := s.handlers[x].out;
    var mid := if path.Routed? && path.ok && path.route.conn == x
               then before + [Wire(path.route.key, Chat(q))] else before;
    assert out == if x == c then mid + [Wire(s.handlers[c].key, ServeReply(q, path))] else mid;
    if Chatted(out, p) {
      if x == c {
        ChattedSnoc(mid, Wire(s.handlers[c].key, ServeReply(q, path)), p);
      }
      if mid != before {
        ChattedSnoc(before, Wire(path.route.key, Chat(q)), p);
      }
    }
  }
}
