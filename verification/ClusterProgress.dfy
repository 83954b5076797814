// What the steps of the cluster achieve for a reader: who tells it of a location, and
// what it gets in the end.
module ClusterProgress {
  import opened Types
  import opened ObjectTable
  import opened LocalObjectStore
  import opened LocalScheduler
  import opened Cluster
  import opened ClusterInvariant
  import opened ClusterTheorems
  import opened ClusterRuns
  import TableRuns

  // ------------------------------------------------------------ who tells what

  // Step i tells the readers of a box of a node: it announces the object by that node,
  // or answers a lookup of one of them with zero or a recorded node that is not live.
  ghost predicate TellsOf(cs: seq<State>, ls: seq<Label>, i: nat, b: Box, n: NodeId)
    requires i < |ls| <= |cs|
  {
    || (ls[i].Notify? && ls[i].uid == b.uid && ls[i].node == n)
    || (ls[i].Locate? && BoxOf(ls[i].r) == b
        && (n == 0 || (n in LocationSet(cs[i].table, b.uid) && !IsLive(cs[i].table.live, n))))
  }

  lemma CallbackSaysOwner(t: Table, e: Event, cb: Callback)
    requires TableRuns.Inv(t) && Possible(t, e) && cb in Emits(t, e).callbacks
    ensures || (e.Announce? && e.uid == cb.uid && e.node == cb.node)
            || (e.Lookup? && e.uid == cb.uid && cb.addr == StoreAddress(e.peer.host)
                && (cb.node == 0 || (cb.node in LocationSet(t, cb.uid) && !IsLive(t.live, cb.node))))
  {
    match e
    case Announce(u, n, size) => TableRuns.AnnouncementWakesWaiters(t, u, n, size);
    case Lookup(u, peer, read, pick) =>
      assert cb == Callback(ClientAddress(peer), u, Candidates(t.live, Recorded(Fill(t, u, read), u))[pick]);
      TableRuns.LookupAnswers(t, u, peer, read, cb.node);
    case Flush(_) =>
    case Lineage(_) =>
    case Generate(_, _) =>
    case Sweep(_, _) =>
  }

  lemma InboxStep(exec: Task -> Bytes, c: State, l: Label, b: Box, n: NodeId)
    requires Enabled(c, l) && n in Mail(Next(exec, c, l).inbox, b) && n !in Mail(c.inbox, b)
    ensures CallOf(c, l).Some? && Callback(b.addr, b.uid, n) in Emits(c.table, CallOf(c, l).value).callbacks
  {
    if l.Locate? {
      PostedFrom(c.inbox, Emits(c.table, LookupEvent(l)).callbacks, b, n);
    } else if CallOf(c, l).Some? {
      CallsLeaveReaders(exec, c, l);
      PostedFrom(c.inbox, Emits(c.table, CallOf(c, l).value).callbacks, b, n);
    } else if LeavesReaders(l) {
      OthersLeaveReaders(exec, c, l);
    }
  }

  // In every run, a node that a reader is being told of was announced, or is an answer
  // to a lookup from its own node. So it is told of node zero only by a lookup, or if
  // node zero announced the object.
  lemma {:induction false} MailComesFrom(exec: Task -> Bytes, cs: seq<State>, ls: seq<Label>, k: nat, b: Box, n: NodeId)
    requires IsRun(exec, cs, ls) && k < |cs| && n in Mail(cs[k].inbox, b)
    ensures exists i: nat :: i < k && TellsOf(cs, ls, i, b, n)
  {
    assert k > 0;
    var c, l := cs[k - 1], ls[k - 1];
    assert StepAt(exec, cs, ls, k - 1);
    if n in Mail(c.inbox, b) {
      MailComesFrom(exec, cs, ls, k - 1, b, n);
    } else {
      InboxStep(exec, c, l, b, n);
      RunInv(exec, cs, ls, k - 1);
      TableFollowsCalls(exec, c, l);
      CallbackSaysOwner(c.table, CallOf(c, l).value, Callback(b.addr, b.uid, n));
      assert TellsOf(cs, ls, k - 1, b, n);
    }
  }

  // -------------------------------------------------------------- what a Get gets

  // A reader that is told of a node copies from that node, or is done if it asked for
  // no copy.
  lemma DeliveryIsTaken(exec: Task -> Bytes, c: State, r: Reader, i: nat)
    requires Enabled(c, Deliver(r, i))
    ensures var d, get := Next(exec, c, Deliver(r, i)), c.gets[r];
            && (get.copy ==> r in d.gets && d.gets[r] == Copying(Mail(c.inbox, BoxOf(r))[i], get.cache))
            && (!get.copy ==> r !in d.gets)
            && d.returned == c.returned && d.net == c.net
            && multiset(Mail(d.inbox, BoxOf(r))) == multiset(Mail(c.inbox, BoxOf(r))) - multiset{Mail(c.inbox, BoxOf(r))[i]}
  {
    var mail := Mail(c.inbox, BoxOf(r));
    assert mail == mail[..i] + [mail[i]] + mail[i + 1..];
  }

  // In every run, a copy that comes back from a node other than zero brings the value
  // of the task that was submitted under the uid, and with caching it is on its way
  // into the reader's own store, without a size.
  lemma CopyBringsTheValue(exec: Task -> Bytes, cs: seq<State>, ls: seq<Label>, i: nat, k: nat, r: Reader)
    requires IsRun(exec, cs, ls) && i < k < |cs| && ls[i].Submit? && ls[i].uid == r.uid
    requires r in cs[k].gets && cs[k].gets[r].Copying? && cs[k].gets[r].location != 0
    ensures var c, d, value := cs[k], Next(exec, cs[k], CopyBack(r)), exec(ls[i].req.task);
            && Enabled(c, CopyBack(r))
            && r !in d.gets
            && d.returned == c.returned + {(r, value)}
            && d.net == c.net + if c.gets[r].cache then multiset{Storing(r.node, r.uid, value, 0)} else multiset{}
  {
    var c, n := cs[k], cs[k].gets[r].location;
    RunInv(exec, cs, ls, k);
    ReplicaAgreement(exec, cs, ls, i, k, n, r, []);
    assert Copied(StoreOf(c, n), r.uid) == Ok(exec(ls[i].req.task));
  }

  // And a Get of an object that its own store holds has that value at once.
  lemma LocalGetHasTheValue(exec: Task -> Bytes, cs: seq<State>, ls: seq<Label>, i: nat, k: nat, r: Reader)
    requires IsRun(exec, cs, ls) && i < k < |cs| && ls[i].Submit? && ls[i].uid == r.uid && Holds(cs[k], r.node, r.uid)
    ensures Enabled(cs[k], GetLocal(r))
    ensures Next(exec, cs[k], GetLocal(r)).returned == cs[k].returned + {(r, exec(ls[i].req.task))}
  {
    ReplicaAgreement(exec, cs, ls, i, k, r.node, r, []);
  }

  // ------------------------------------------------------------ a run that serves

  lemma TakesDelivery(exec: Task -> Bytes, c: State, r: Reader, n: NodeId, cache: bool) returns (d: State)
    requires Reachable(exec, c) && c.gets == map[r := Waiting(true, cache)] && Mail(c.inbox, BoxOf(r)) == [n]
    ensures Reachable(exec, d) && d.gets == map[r := Copying(n, cache)]
    ensures d.stores == c.stores && d.net == c.net && d.returned == c.returned && d.table == c.table
  {
    ReachFurther(exec, c, Deliver(r, 0));
    d := Next(exec, c, Deliver(r, 0));
  }

  lemma CopiesBack(exec: Task -> Bytes, c: State, r: Reader, n: NodeId, cache: bool, value: Bytes) returns (d: State)
    requires Reachable(exec, c) && c.gets == map[r := Copying(n, cache)] && Copied(StoreOf(c, n), r.uid) == Ok(value)
    ensures Reachable(exec, d) && d.gets == map[] && d.returned == c.returned + {(r, value)}
    ensures d.stores == c.stores && d.table == c.table
    ensures cache ==> Storing(r.node, r.uid, value, 0) in d.net
  {
    ReachFurther(exec, c, CopyBack(r));
    d := Next(exec, c, CopyBack(r));
    assert d.gets == map[];
  }

  // From the start to the end of a Get: a reader asks before there is a result, the
  // announcement of the result wakes it, it copies from the node that announced, and
  // returns the task's value. With caching its own node then holds the object as well
  // and is listed for it.
  lemma ReaderIsServed(exec: Task -> Bytes, m: NodeId, uid: Uid, req: ScheduleRequest, r: Reader, cache: bool)
    returns (c: State)
    requires uid < UID_BOUND && r.uid == uid && req.nodeId == 0
    ensures Reachable(exec, c) && c.gets == map[] && (r, exec(req.task)) in c.returned
    ensures m in LocationSet(c.table, uid) && Copied(StoreOf(c, m), uid) == Ok(exec(req.task))
    ensures cache ==> Copied(StoreOf(c, r.node), uid) == Ok(exec(req.task)) && r.node in LocationSet(c.table, uid)
  {
    var value := exec(req.task);
    var c1 := ReaderWaits(exec, m, uid, req, r, true, cache, 0);
    var c2 := MakeAndAnnounce(exec, c1, m, uid, req.task);
    OneWaiterIsTold(r, m);
    assert Waiters(c1.table, uid) == [StoreAddress(r.node)];
    assert Recorded(c1.table, uid) + [m] == [m] && Recorded(c2.table, uid) == [m];
    var c3 := TakesDelivery(exec, c2, r, m, cache);
    c := CopiesBack(exec, c3, r, m, cache, value);
    assert Recorded(c.table, uid)[0] == m;
    if cache {
      c := KeepsCopy(exec, c, r, m, value);
    }
  }

  lemma OneWaiterIsTold(r: Reader, n: NodeId)
    ensures Mail(Post(map[], Callbacks([StoreAddress(r.node)], r.uid, n)), BoxOf(r)) == [n]
  {
    var cs := Callbacks([StoreAddress(r.node)], r.uid, n);
    assert cs == [Callback(StoreAddress(r.node), r.uid, n)] && cs[1..] == [];
    var inbox: map<Box, seq<NodeId>> := map[];
    assert Post(inbox, cs) == Post(inbox[BoxOf(r) := Mail(inbox, BoxOf(r)) + [n]], []);
  }

  lemma KeepsCopy(exec: Task -> Bytes, c: State, r: Reader, m: NodeId, value: Bytes) returns (d: State)
    requires Reachable(exec, c) && Storing(r.node, r.uid, value, 0) in c.net && c.gets == map[]
    requires Copied(StoreOf(c, m), r.uid) == Ok(value) && Recorded(c.table, r.uid) == [m]
    ensures Reachable(exec, d) && d.gets == map[] && d.returned == c.returned
    ensures Copied(StoreOf(d, m), r.uid) == Ok(value) && Copied(StoreOf(d, r.node), r.uid) == Ok(value)
    ensures {m, r.node} <= LocationSet(d.table, r.uid)
  {
    var c1 := Stores(exec, c, r.node, r.uid, value, 0);
    d := Announces(exec, c1, r.node, r.uid, 0);
    assert value[..|value|] == value;
    assert Recorded(d.table, r.uid) == [m, r.node];
    assert Recorded(d.table, r.uid)[0] == m && Recorded(d.table, r.uid)[1] == r.node;
  }
}
