// Runs of the cluster that lead to the states which its design does not expect:
// a reader that nothing will wake, and a table that can no longer be flushed.
module ClusterRuns {
  import opened Types
  import opened Collections
  import opened LocationDatabase
  import opened ObjectTable
  import opened LocalObjectStore
  import opened LocalScheduler
  import opened GlobalScheduler
  import opened Cluster
  import opened ClusterTheorems
  import FlushFailures

  // ------------------------------------------------------------ stranded reader

  // A task is submitted, a client on any node asks for its result before there is
  // one, and the disk fails the lookup: the reader is stranded.
  lemma ReaderCanBeStranded(exec: Task -> Bytes, m: NodeId, uid: Uid, req: ScheduleRequest, running: nat,
                            r: Reader, copy: bool, cache: bool, port: nat)
    returns (c: State)
    requires uid < UID_BOUND && r.uid == uid
    ensures Reachable(exec, c) && Stranded(c, r) && c.lost[r] > 0
  {
    var l1, l2 := Submit(m, uid, req, running), GetRemote(r, copy, cache);
    StartIsReachable(exec);
    ReachFurther(exec, START, l1);
    var c1 := Next(exec, START, l1);
    SubmittedFromStart(exec, l1);
    ReachFurther(exec, c1, l2);
    var c2 := Next(exec, c1, l2);
    assert c2.requests == multiset{r} && Blocked(c2, r);
    assert Mail(c1.inbox, BoxOf(r)) == [] by { NoMailYet(exec, l1); }
    c := LookupIsLost(exec, c2, r, port);
  }

  lemma NoMailYet(exec: Task -> Bytes, l: Label)
    requires l.Submit?
    ensures Next(exec, START, l).inbox == map[]
  {
    assert Emits(START.table, Lineage(LineageRequest(l.uid, l.req))).callbacks == [];
  }

  lemma LookupIsLost(exec: Task -> Bytes, c: State, r: Reader, port: nat) returns (d: State)
    requires Reachable(exec, c) && Blocked(c, r) && c.requests == multiset{r} && Mail(c.inbox, BoxOf(r)) == []
    requires r.uid !in c.table.locations && r.uid !in c.table.waitlist
    ensures Reachable(exec, d) && Stranded(d, r) && d.lost[r] > 0
  {
    var l := Locate(r, port, Err, 0);
    assert LookupFails(c.table, r.uid, Err);
    ReachFurther(exec, c, l);
    d := Next(exec, c, l);
    assert d.requests == multiset{} && d.gets == c.gets && d.table == c.table;
    assert d.inbox == c.inbox;
    assert Waiters(d.table, r.uid) == [];
  }

  lemma SubmittedFromStart(exec: Task -> Bytes, l: Label)
    requires l.Submit?
    ensures var c := Next(exec, START, l);
            && c.given == {l.uid} && c.gets == map[] && c.stores == map[] && c.requests == multiset{}
            && c.table == Opened({}).(lineage := map[l.uid := LineageRequest(l.uid, l.req)])
  {
  }

  // ------------------------------------------------------------- waiting reader

  // A task is submitted and a client asks for its result before there is one: the
  // reader waits, and the task is still on its way to the local worker.
  lemma ReaderWaits(exec: Task -> Bytes, m: NodeId, uid: Uid, req: ScheduleRequest,
                    r: Reader, copy: bool, cache: bool, port: nat)
    returns (c: State)
    requires uid < UID_BOUND && r.uid == uid && req.nodeId == 0
    ensures Reachable(exec, c) && Blocked(c, r) && c.given == {uid}
    ensures c.net == multiset{Registering(m, uid, req.task)} && c.now == 0 && c.status == map[]
    ensures c.silent == {} && c.dropping == {} && c.inbox == map[] && c.gets == map[r := Waiting(copy, cache)]
    ensures c.stores == map[]
    ensures c.table.locations == map[uid := []] && c.table.generating == map[] && c.table.rows == {}
    ensures c.table.lineage == map[uid := LineageRequest(uid, req)]
    ensures c.table.waitlist == map[uid := [StoreAddress(r.node)]]
  {
    var l1, l2 := Submit(m, uid, req, 0), GetRemote(r, copy, cache);
    StartIsReachable(exec);
    ReachFurther(exec, START, l1);
    var c1 := Next(exec, START, l1);
    SubmittedFromStart(exec, l1);
    FirstMessage(exec, l1);
    ReachFurther(exec, c1, l2);
    var c2 := Next(exec, c1, l2);
    assert c2.requests[r] == 1;
    NoMailYet(exec, l1);
    c := FirstLookup(exec, c2, r, port);
  }

  lemma FirstMessage(exec: Task -> Bytes, l: Label)
    requires l.Submit? && l.req.nodeId == 0 && l.runningTasks == 0
    ensures Next(exec, START, l).net == multiset{Registering(l.node, l.uid, l.req.task)}
  {
    assert Emits(START.table, Lineage(LineageRequest(l.uid, l.req))).dispatches == [];
  }

  lemma FirstLookup(exec: Task -> Bytes, c: State, r: Reader, port: nat) returns (d: State)
    requires Reachable(exec, c) && c.requests[r] > 0 && r.uid !in c.table.locations && c.table.rows == {}
    requires r.uid !in c.table.waitlist
    ensures d.inbox == c.inbox && d.stores == c.stores
    ensures Reachable(exec, d) && d.gets == c.gets && d.net == c.net && d.given == c.given && SameWorld(c, d)
    ensures d.table == c.table.(locations := c.table.locations[r.uid := []],
                                waitlist := c.table.waitlist[r.uid := [StoreAddress(r.node)]])
  {
    var l := Locate(r, port, Ok([]), 0);
    assert Listing({}, r.uid, []);
    assert Recorded(c.table, r.uid) == [];
    ReachFurther(exec, c, l);
    d := Next(exec, c, l);
    assert Emits(c.table, LookupEvent(l)).dispatches == [];
    assert d.net == c.net + multiset(Placings([]));
    assert Waiters(c.table, r.uid) + [StoreAddress(r.node)] == [StoreAddress(r.node)];
  }

  // A report that comes before the task has been registered anywhere finds no node
  // for it and has it sent out a second time.
  lemma UnfinishedTaskIsSentAgain(exec: Task -> Bytes, m: NodeId, uid: Uid, req: ScheduleRequest, r: Reader)
    returns (c: State)
    requires uid < UID_BOUND && r.uid == uid && req.nodeId == 0
    ensures Reachable(exec, c)
    ensures Registering(m, uid, req.task) in c.net && Placing(LineageRequest(uid, req)) in c.net
  {
    var c1 := ReaderWaits(exec, m, uid, req, r, true, false, 0);
    var live, l := LiveNodes(c1.now, c1.status), Report([uid]);
    assert GetNodes(c1.table, uid) == [] && Tracked(c1.table) == {uid};
    assert Lost(c1.table, live) == {uid};
    assert Elements([uid]) == {uid} && NoDuplicates([uid]);
    ReachFurther(exec, c1, l);
    c := Next(exec, c1, l);
    ReportSends(exec, c1, [uid]);
  }

  // What a report of one lost uid adds to the messages in flight.
  lemma ReportSends(exec: Task -> Bytes, c: State, order: seq<Uid>)
    requires |order| == 1
    ensures Next(exec, c, Report(order)).net == c.net + multiset{Placing(Resend(c.table, order[0]))}
  {
    var sent := Emits(c.table, Sweep(LiveNodes(c.now, c.status), order)).dispatches;
    assert sent == [Resend(c.table, order[0])];
    assert Placings(sent) == [Placing(Resend(c.table, order[0]))];
  }

  // With flushing on a waiting reader may be forgotten: its task's dispatch is lost,
  // another task is made and announced, and the flush that follows takes the entry
  // of the first away. Nothing is in flight, and no report looks at the object.
  lemma WaitingReaderCanBeForgotten(exec: Task -> Bytes, n: NodeId, uid: Uid, v: Uid, req: ScheduleRequest, r: Reader)
    returns (c: State)
    requires uid < UID_BOUND && v < UID_BOUND && v != uid && r.uid == uid && req.nodeId == 0
    ensures Reachable(exec, c) && Blocked(c, r) && StoreAddress(r.node) in Waiters(c.table, uid)
    ensures c.net == multiset{} && Tracked(c.table) == {}
    ensures forall live :: Lost(c.table, live) == {}
  {
    var c1 := ReaderWaits(exec, n, uid, req, r, true, false, 0);
    var first := Registering(n, uid, req.task);
    ReachFurther(exec, c1, Drop(first));
    var c2 := Next(exec, c1, Drop(first));
    var c3 := SubmitsAnother(exec, c2, n, v, req);
    var c4 := MakeAndAnnounce(exec, c3, n, v, req.task);
    c := FlushesAll(exec, c4, v);
  }

  lemma SubmitsAnother(exec: Task -> Bytes, c: State, n: NodeId, v: Uid, req: ScheduleRequest) returns (d: State)
    requires Reachable(exec, c) && v !in c.given && v < UID_BOUND && req.nodeId == 0 && v !in c.table.lineage
    ensures Reachable(exec, d) && d.gets == c.gets && d.dropping == c.dropping
    ensures d.net == c.net + multiset{Registering(n, v, req.task)}
    ensures d.table == c.table.(lineage := c.table.lineage[v := LineageRequest(v, req)])
  {
    var l := Submit(n, v, req, 0);
    ReachFurther(exec, c, l);
    d := Next(exec, c, l);
    assert Emits(c.table, Lineage(LineageRequest(v, req))).dispatches == [];
  }

  lemma FlushesAll(exec: Task -> Bytes, c: State, v: Uid) returns (d: State)
    requires Reachable(exec, c) && v in c.table.locations && c.table.locations[v] != []
    requires forall u :: u in c.table.locations ==> NoDuplicates(c.table.locations[u])
    requires c.table.generating == map[]
    ensures Reachable(exec, d) && d.gets == c.gets && d.net == c.net && Tracked(d.table) == {}
    ensures d.table.waitlist == c.table.waitlist
    ensures forall live :: Lost(d.table, live) == {}
  {
    ReachFurther(exec, c, FlushTable(true));
    d := Next(exec, c, FlushTable(true));
    assert Commits(c.table.locations, true);
    assert d.table.locations == map[] && d.table.generating == map[];
    assert d.net == c.net + multiset(Placings([]));
  }

  // --------------------------------------------------------------- stuck table

  // What the calls and messages of a task's execution do not touch.
  ghost predicate SameWorld(c: State, d: State) {
    && d.now == c.now && d.lastReport == c.lastReport && d.status == c.status && d.dropping == c.dropping && d.silent == c.silent
    && d.table.lineage == c.table.lineage && d.gets == c.gets
  }

  // From a task that is about to run on a node to its result being announced.
  lemma MakeAndAnnounce(exec: Task -> Bytes, c: State, n: NodeId, uid: Uid, task: Task) returns (d: State)
    requires Reachable(exec, c) && Registering(n, uid, task) in c.net && n !in c.dropping
    ensures Reachable(exec, d) && SameWorld(c, d)
    ensures d.table.locations == c.table.locations[uid := Recorded(c.table, uid) + [n]]
    ensures d.table.generating == c.table.generating - {uid}
    ensures d.table.waitlist == c.table.waitlist - {uid} && d.net == c.net - multiset{Registering(n, uid, task)}
    ensures d.inbox == Post(c.inbox, Callbacks(Waiters(c.table, uid), uid, n)) && d.returned == c.returned
    ensures Copied(StoreOf(d, n), uid) == Ok(exec(task))
    ensures forall m :: m != n ==> StoreOf(d, m) == StoreOf(c, m)
  {
    var c1 := MakesAndStores(exec, c, n, uid, task);
    d := Announces(exec, c1, n, uid, |exec(task)|);
    assert d.table.generating == c.table.generating - {uid};
  }

  lemma MakesAndStores(exec: Task -> Bytes, c: State, n: NodeId, uid: Uid, task: Task) returns (d: State)
    requires Reachable(exec, c) && Registering(n, uid, task) in c.net && n !in c.dropping
    ensures Reachable(exec, d) && SameWorld(c, d)
    ensures d.table == c.table.(generating := c.table.generating[uid := n])
    ensures d.net == c.net - multiset{Registering(n, uid, task)} + multiset{Announcing(n, uid, |exec(task)|)}
    ensures d.inbox == c.inbox && d.returned == c.returned
    ensures Copied(StoreOf(d, n), uid) == Ok(exec(task))
    ensures forall m :: m != n ==> StoreOf(d, m) == StoreOf(c, m)
  {
    var bytes := exec(task);
    var c1 := Registers(exec, c, n, uid, task);
    var c2 := Executes(exec, c1, n, uid, task);
    d := Stores(exec, c2, n, uid, bytes, |bytes|);
    assert bytes[..|bytes|] == bytes;
  }

  lemma Registers(exec: Task -> Bytes, c: State, n: NodeId, uid: Uid, task: Task) returns (d: State)
    requires Reachable(exec, c) && Registering(n, uid, task) in c.net
    ensures Reachable(exec, d) && SameWorld(c, d) && Running(n, uid, task) in d.net
    ensures d.table == c.table.(generating := c.table.generating[uid := n])
    ensures d.net == c.net - multiset{Registering(n, uid, task)} + multiset{Running(n, uid, task)}
    ensures d.stores == c.stores && d.inbox == c.inbox && d.returned == c.returned
  {
    var l := Register(n, uid, task, true);
    ReachFurther(exec, c, l);
    d := Next(exec, c, l);
  }

  lemma Executes(exec: Task -> Bytes, c: State, n: NodeId, uid: Uid, task: Task) returns (d: State)
    requires Reachable(exec, c) && Running(n, uid, task) in c.net && n !in c.dropping
    ensures Reachable(exec, d) && SameWorld(c, d) && d.table == c.table
    ensures d.net == c.net - multiset{Running(n, uid, task)} + multiset{Storing(n, uid, exec(task), |exec(task)|)}
    ensures d.stores == c.stores && d.inbox == c.inbox && d.returned == c.returned
  {
    var l := Execute(n, uid, task);
    ReachFurther(exec, c, l);
    d := Next(exec, c, l);
  }

  lemma Stores(exec: Task -> Bytes, c: State, n: NodeId, uid: Uid, bytes: Bytes, size: nat) returns (d: State)
    requires Reachable(exec, c) && Storing(n, uid, bytes, size) in c.net
    ensures Reachable(exec, d) && SameWorld(c, d) && d.table == c.table
    ensures d.net == c.net - multiset{Storing(n, uid, bytes, size)} + multiset{Announcing(n, uid, size)}
    ensures d.inbox == c.inbox && d.returned == c.returned
    ensures d.stores == c.stores[n := Publish(WriteMemory(StoreOf(c, n), uid, bytes), uid, |bytes|)]
  {
    var l1, l2 := Write(n, uid, bytes, size), Finish(n, uid, bytes, size);
    ReachFurther(exec, c, l1);
    var c1 := Next(exec, c, l1);
    assert Writing(n, uid, bytes, size) in c1.net;
    ReachFurther(exec, c1, l2);
    d := Next(exec, c1, l2);
  }

  lemma Announces(exec: Task -> Bytes, c: State, n: NodeId, uid: Uid, size: nat) returns (d: State)
    requires Reachable(exec, c) && Announcing(n, uid, size) in c.net
    ensures Reachable(exec, d) && SameWorld(c, d)
    ensures d.table.locations == c.table.locations[uid := Recorded(c.table, uid) + [n]]
    ensures d.table.generating == c.table.generating - {uid}
    ensures d.table.waitlist == c.table.waitlist - {uid} && d.net == c.net - multiset{Announcing(n, uid, size)}
    ensures d.inbox == Post(c.inbox, Callbacks(Waiters(c.table, uid), uid, n))
    ensures d.stores == c.stores && d.returned == c.returned
  {
    var l := Notify(n, uid, size);
    ReachFurther(exec, c, l);
    d := Next(exec, c, l);
  }

  // Time passes and nothing else happens.
  lemma {:induction false} Waits(exec: Task -> Bytes, c: State, time: nat) returns (d: State)
    requires Reachable(exec, c)
    ensures Reachable(exec, d) && d == c.(now := c.now + time)
  {
    if time == 0 {
      d := c;
    } else {
      var c1 := Waits(exec, c, time - 1);
      ReachFurther(exec, c1, Tick);
      d := Next(exec, c1, Tick);
    }
  }

  // A heartbeat of an idle node.
  function IdleEntry(now: nat): HeartbeatEntry {
    HeartbeatEntry(now, 0, 0, 0.0, 1.0)
  }

  lemma Beats(exec: Task -> Bytes, c: State, n: NodeId) returns (d: State)
    requires Reachable(exec, c) && n !in c.silent
    ensures Reachable(exec, d) && d == c.(status := c.status[n := IdleEntry(c.now)])
  {
    ReachFurther(exec, c, Beat(n, IdleEntry(c.now)));
    d := Next(exec, c, Beat(n, IdleEntry(c.now)));
  }

  // The first run of a new cluster's first task: made and announced by node n.
  lemma FirstTaskIsMade(exec: Task -> Bytes, n: NodeId, uid: Uid, req: ScheduleRequest) returns (c: State)
    requires uid < UID_BOUND && req.nodeId == 0
    ensures Reachable(exec, c) && c.silent == {} && c.dropping == {} && c.status == map[]
    ensures c.now == 0 && c.lastReport == 0
    ensures c.table.locations == map[uid := [n]] && c.table.generating == map[]
    ensures c.table.lineage == map[uid := LineageRequest(uid, req)]
  {
    var l := Submit(n, uid, req, 0);
    StartIsReachable(exec);
    ReachFurther(exec, START, l);
    var c1 := Next(exec, START, l);
    SubmittedFromStart(exec, l);
    assert Registering(n, uid, req.task) in c1.net;
    c := MakeAndAnnounce(exec, c1, n, uid, req.task);
    assert Recorded(c1.table, uid) + [n] == [n];
  }

  // A report while the only holder is silent sends the task out again, and the
  // holder, back in time, is the only node it can be placed on.
  lemma SentBackToItsHolder(exec: Task -> Bytes, c: State, n: NodeId, uid: Uid, req: Request) returns (d: State)
    requires Reachable(exec, c) && c.silent == {} && c.status.Keys == {n} && !NodeIsLive(c.now, c.status, n)
    requires c.table.locations == map[uid := [n]] && c.table.generating == map[]
    requires c.table.lineage == map[uid := req] && req.uid == uid && req.nodeId == 0 && !req.localityFlag
    ensures Reachable(exec, d) && Registering(n, uid, req.task) in d.net && d.dropping == c.dropping
    ensures d.table.locations == c.table.locations
  {
    var c1 := Reported(exec, c, n, uid, req);
    var c2 := Beats(exec, c1, n);
    var l := Place(req, n, None);
    var costs := Costs(c2.now, c2.status, None);
    assert costs.Keys == {n} && costs[n] == 0.0;
    ReachFurther(exec, c2, l);
    d := Next(exec, c2, l);
  }

  // An object that a single node is recorded for is all that a sweep finds lost if
  // that node is not live.
  lemma LostWithItsHolder(t: Table, n: NodeId, uid: Uid, live: map<NodeId, bool>)
    requires t.locations == map[uid := [n]] && t.generating == map[]
    ensures Lost(t, live) == if IsLive(live, n) then {} else {uid}
    ensures Elements([uid]) == {uid} && NoDuplicates([uid])
  {
    assert Recorded(t, uid) == [n] && GetNodes(t, uid) == [n];
    assert Tracked(t) == {uid};
  }

  lemma Reported(exec: Task -> Bytes, c: State, n: NodeId, uid: Uid, req: Request) returns (d: State)
    requires Reachable(exec, c) && !NodeIsLive(c.now, c.status, n)
    requires c.table.locations == map[uid := [n]] && c.table.generating == map[]
    requires uid in c.table.lineage && c.table.lineage[uid] == req
    ensures Reachable(exec, d) && Placing(req) in d.net
    ensures d.table.locations == c.table.locations && d.silent == c.silent && d.dropping == c.dropping
    ensures d.status == c.status && d.now == c.now
  {
    var live, l := LiveNodes(c.now, c.status), Report([uid]);
    LostWithItsHolder(c.table, n, uid, live);
    ReachFurther(exec, c, l);
    d := Next(exec, c, l);
    ReportSends(exec, c, [uid]);
  }

  // A node makes an object and announces it, sends no heartbeat for 400 ms, gets the
  // task again when it is back, and announces the object again: from then on no
  // flush commits.
  lemma FlushingCanStopForGood(exec: Task -> Bytes, n: NodeId, uid: Uid, req: ScheduleRequest) returns (c: State)
    requires uid < UID_BOUND && req.nodeId == 0
    ensures Reachable(exec, c)
    ensures Recorded(c.table, uid) == [n, n] && FlushFailures.Stuck(c.table)
    ensures forall es :: Run(c.table, es) ==> ObjectTable.After(c.table, es).rows == c.table.rows
  {
    var c1 := FirstTaskIsMade(exec, n, uid, req);
    var c2 := Beats(exec, c1, n);
    var c3 := Waits(exec, c2, LIVE_NODE_TIMEOUT);
    var c4 := SentBackToItsHolder(exec, c3, n, uid, LineageRequest(uid, req));
    c := MakeAndAnnounce(exec, c4, n, uid, req.task);
    assert Recorded(c4.table, uid) + [n] == [n, n];
    var list := c.table.locations[uid];
    assert list == [n, n] && list[0] == list[1];
    assert FlushFailures.RepeatsNode(c.table, uid);
    forall es | Run(c.table, es) ensures ObjectTable.After(c.table, es).rows == c.table.rows {
      FlushFailures.StuckForever(c.table, es);
    }
  }
}
