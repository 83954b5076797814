// What holds of every run of the cluster, with tasks re-executed, nodes killed and
// revived, and copies made in any order.
module ClusterTheorems {
  import opened Types
  import opened Collections
  import opened ObjectTable
  import opened LocalObjectStore
  import opened LocalScheduler
  import opened GlobalScheduler
  import opened Cluster
  import opened ClusterInvariant
  import Sweeps

  // ------------------------------------------------------------------- lineage

  lemma LineageStays(exec: Task -> Bytes, c: State, l: Label, uid: Uid)
    requires Enabled(c, l) && uid in c.table.lineage
    ensures uid in Next(exec, c, l).table.lineage && Next(exec, c, l).table.lineage[uid] == c.table.lineage[uid]
  {
    TableFollowsCalls(exec, c, l);
    if CallOf(c, l).Some? {
      Sweeps.StepLineage(c.table, CallOf(c, l).value);
    }
  }

  // A submitted task keeps the lineage it was submitted with.
  lemma {:induction false} SubmittedLineage(exec: Task -> Bytes, cs: seq<State>, ls: seq<Label>, i: nat, k: nat)
    requires IsRun(exec, cs, ls) && i < k < |cs| && ls[i].Submit?
    ensures var l := cs[k].table.lineage;
            ls[i].uid in l && l[ls[i].uid] == LineageRequest(ls[i].uid, ls[i].req)
  {
    var c, last := cs[k - 1], ls[k - 1];
    assert StepAt(exec, cs, ls, k - 1);
    if i < k - 1 {
      SubmittedLineage(exec, cs, ls, i, k - 1);
      LineageStays(exec, c, last, ls[i].uid);
    } else {
      RunInv(exec, cs, ls, k - 1);
      SubmittedIs(c, last.uid, last.req);
      TableFollowsCalls(exec, c, last);
    }
  }

  // Every uid with a lineage was submitted.
  lemma {:induction false} LineageWasSubmitted(exec: Task -> Bytes, cs: seq<State>, ls: seq<Label>, k: nat, uid: Uid)
    requires IsRun(exec, cs, ls) && k < |cs| && uid in cs[k].table.lineage
    ensures exists i :: 0 <= i < k && ls[i].Submit? && ls[i].uid == uid
  {
    assert k > 0;
    var c, last := cs[k - 1], ls[k - 1];
    if uid in c.table.lineage {
      LineageWasSubmitted(exec, cs, ls, k - 1, uid);
    } else {
      assert StepAt(exec, cs, ls, k - 1);
      TableFollowsCalls(exec, c, last);
      Sweeps.StepLineage(c.table, CallOf(c, last).value);
      assert last.Submit? && last.uid == uid;
    }
  }

  // --------------------------------------------------------- replica agreement

  // Whatever was executed again and copied meanwhile, every copy of a uid is the
  // value of the one task submitted under that uid, on every node, with its own
  // length published; and so is everything that a Get of the uid has returned.
  lemma ReplicaAgreement(exec: Task -> Bytes, cs: seq<State>, ls: seq<Label>, i: nat, k: nat,
                         n: NodeId, r: Reader, bytes: Bytes)
    requires IsRun(exec, cs, ls) && i < k < |cs| && ls[i].Submit?
    ensures var c, uid, value := cs[k], ls[i].uid, exec(ls[i].req.task);
            && (uid in StoreOf(c, n).memory ==> StoreOf(c, n).memory[uid] == value)
            && (Holds(c, n, uid) ==> StoreOf(c, n).sizes[uid] == |value| && Copied(StoreOf(c, n), uid) == Ok(value))
            && (r.uid == uid && (r, bytes) in c.returned ==> bytes == value)
  {
    var c, uid := cs[k], ls[i].uid;
    RunInv(exec, cs, ls, k);
    SubmittedLineage(exec, cs, ls, i, k);
    assert Published(StoreOf(c, n));
    if Holds(c, n, uid) {
      CopiedIsValue(exec, c, n, uid);
    }
  }

  // Nothing is ever stored under a uid that was not submitted.
  lemma NothingFromNowhere(exec: Task -> Bytes, cs: seq<State>, ls: seq<Label>, k: nat, n: NodeId, uid: Uid)
    requires IsRun(exec, cs, ls) && k < |cs| && uid in StoreOf(cs[k], n).memory
    ensures exists i :: 0 <= i < k && ls[i].Submit? && ls[i].uid == uid
  {
    RunInv(exec, cs, ls, k);
    LineageWasSubmitted(exec, cs, ls, k, uid);
  }

  // Every uid that reaches the database has its high bit clear, as the local
  // schedulers see to.
  lemma UidsFitTheDatabase(exec: Task -> Bytes, cs: seq<State>, ls: seq<Label>, k: nat, uid: Uid, n: NodeId)
    requires IsRun(exec, cs, ls) && k < |cs|
    requires (uid, n) in cs[k].table.rows || n in LocationSet(cs[k].table, uid)
    ensures uid < UID_BOUND
  {
    var c := cs[k];
    RunInv(exec, cs, ls, k);
    assert Records(c.table, uid, n);
    assert Holds(c, n, uid) && Published(StoreOf(c, n));
    assert IsValueOf(exec, c, uid, StoreOf(c, n).memory[uid]);
  }

  // ------------------------------------------------------------ real locations

  // Every node recorded in memory or on disk, being announced, or told to a
  // reader holds the object, so a copy from it succeeds; a copy can fail to find
  // the object only when it was sent to node zero.
  lemma RecordedLocationsHold(exec: Task -> Bytes, cs: seq<State>, ls: seq<Label>, k: nat,
                              uid: Uid, n: NodeId, size: nat, r: Reader)
    requires IsRun(exec, cs, ls) && k < |cs|
    ensures var c := cs[k];
            && (n in LocationSet(c.table, uid) || (uid, n) in c.table.rows ==> Holds(c, n, uid))
            && (Announcing(n, uid, size) in c.net ==> Holds(c, n, uid))
            && (n in Mail(c.inbox, BoxOf(r)) && n != 0 ==> Holds(c, n, r.uid))
            && (r in c.gets && c.gets[r].Copying? ==>
                  (Copied(StoreOf(c, c.gets[r].location), r.uid).Err? <==>
                   c.gets[r].location == 0 && !Holds(c, 0, r.uid)))
  {
    var c := cs[k];
    RunInv(exec, cs, ls, k);
    if n in LocationSet(c.table, uid) || (uid, n) in c.table.rows {
      assert Records(c.table, uid, n);
    }
    if Announcing(n, uid, size) in c.net {
      assert GoodMessage(exec, c, Announcing(n, uid, size));
    }
    if r in c.gets && c.gets[r].Copying? {
      CopiedIsValue(exec, c, c.gets[r].location, r.uid);
    }
  }

  // -------------------------------------------------------- no stranded reader

  // A blocked Get has exactly one thing that concerns it: a location request in
  // flight, a place on the waitlist, a callback on its way, or a lookup that
  // failed at the disk. A Get that is not blocked has none. And one on the
  // waitlist waits for an object that is recorded nowhere.
  lemma NoStrandedReader(exec: Task -> Bytes, cs: seq<State>, ls: seq<Label>, k: nat, r: Reader)
    requires IsRun(exec, cs, ls) && k < |cs|
    ensures var c := cs[k];
            && c.requests[r] + multiset(Waiters(c.table, r.uid))[StoreAddress(r.node)]
                 + |Mail(c.inbox, BoxOf(r))| + c.lost[r] == (if Blocked(c, r) then 1 else 0)
            && (Waiters(c.table, r.uid) != [] ==> LocationSet(c.table, r.uid) == {})
  {
    RunInv(exec, cs, ls, k);
    assert Account(cs[k], r) == if Blocked(cs[k], r) then 1 else 0;
  }

  // Step i is a lookup of the reader's that fails at the disk.
  ghost predicate LosesAt(cs: seq<State>, ls: seq<Label>, i: nat, r: Reader)
    requires i < |ls| <= |cs|
  {
    ls[i].Locate? && ls[i].r == r && LookupFails(cs[i].table, r.uid, ls[i].read)
  }

  // A reader is stranded exactly if a lookup of its own missed memory and failed at
  // the disk; what the disk does to others is no matter.
  lemma {:induction false} LostOnlyAtTheDisk(exec: Task -> Bytes, cs: seq<State>, ls: seq<Label>, k: nat, r: Reader)
    requires IsRun(exec, cs, ls) && k < |cs|
    ensures cs[k].lost[r] > 0 <==> exists i: nat :: i < k && LosesAt(cs, ls, i, r)
  {
    if k > 0 {
      var c, last := cs[k - 1], ls[k - 1];
      LostOnlyAtTheDisk(exec, cs, ls, k - 1, r);
      assert StepAt(exec, cs, ls, k - 1);
      LostStep(exec, c, last, r);
      assert LosesAt(cs, ls, k - 1, r) <==> last.Locate? && last.r == r && LookupFails(c.table, r.uid, last.read);
    }
  }

  // A blocked Get that nothing concerns: its request is gone, it is on no waitlist,
  // and no callback is on its way.
  ghost predicate Stranded(c: State, r: Reader) {
    && Blocked(c, r)
    && c.requests[r] == 0 && StoreAddress(r.node) !in Waiters(c.table, r.uid) && Mail(c.inbox, BoxOf(r)) == []
  }

  lemma StrandedIffLookupFailed(exec: Task -> Bytes, cs: seq<State>, ls: seq<Label>, k: nat, r: Reader)
    requires IsRun(exec, cs, ls) && k < |cs|
    ensures Stranded(cs[k], r) <==> exists i: nat :: i < k && LosesAt(cs, ls, i, r)
  {
    NoStrandedReader(exec, cs, ls, k, r);
    LostOnlyAtTheDisk(exec, cs, ls, k, r);
  }

  lemma LostStep(exec: Task -> Bytes, c: State, l: Label, r: Reader)
    requires Enabled(c, l)
    ensures Next(exec, c, l).lost[r] ==
            c.lost[r] + if l.Locate? && l.r == r && LookupFails(c.table, r.uid, l.read) then 1 else 0
  {
    if !l.Locate? {
      LostKept(exec, c, l);
    }
  }

  lemma LostKept(exec: Task -> Bytes, c: State, l: Label)
    requires Enabled(c, l) && !l.Locate?
    ensures Next(exec, c, l).lost == c.lost
  {
    if LeavesReaders(l) {
      if CallOf(c, l).Some? {
        CallsLeaveReaders(exec, c, l);
      } else {
        OthersLeaveReaders(exec, c, l);
      }
    }
  }

  // No step ever wakes a stranded reader.
  lemma LostReaderStaysBlocked(exec: Task -> Bytes, c: State, l: Label, r: Reader)
    requires Inv(exec, c) && Enabled(c, l) && c.lost[r] > 0
    ensures Blocked(c, r) && !(l.Deliver? && l.r == r)
    ensures Blocked(Next(exec, c, l), r) && Next(exec, c, l).lost[r] > 0
  {
    assert Account(c, r) == if Blocked(c, r) then 1 else 0;
    StepAccounted(exec, c, l);
    if l.Locate? {
      assert Next(exec, c, l).lost[r] >= c.lost[r];
    } else {
      LostKept(exec, c, l);
    }
    assert Account(Next(exec, c, l), r) == if Blocked(Next(exec, c, l), r) then 1 else 0;
  }

  // In every run, a reader that was stranded once is blocked in every later state.
  lemma LostReaderIsNeverWoken(exec: Task -> Bytes, cs: seq<State>, ls: seq<Label>, j: nat, k: nat, r: Reader)
    requires IsRun(exec, cs, ls) && j <= k < |cs| && Stranded(cs[j], r)
    ensures Stranded(cs[k], r)
  {
    StrandedIffLookupFailed(exec, cs, ls, j, r);
    StrandedIffLookupFailed(exec, cs, ls, k, r);
  }

  // ------------------------------------------------------------------ recovery

  // The calls that the first k steps of a run make to the object table.
  ghost function Calls(cs: seq<State>, ls: seq<Label>, k: nat): seq<Event>
    requires k <= |ls| <= |cs|
  {
    if k == 0 then []
    else
      var call := CallOf(cs[k - 1], ls[k - 1]);
      Calls(cs, ls, k - 1) + if call.Some? then [call.value] else []
  }

  // They are a run of the table, so all that is proved of those holds here.
  lemma {:induction false} CallsAreARun(exec: Task -> Bytes, cs: seq<State>, ls: seq<Label>, k: nat)
    requires IsRun(exec, cs, ls) && k < |cs|
    ensures Run(Opened({}), Calls(cs, ls, k))
    ensures ObjectTable.After(Opened({}), Calls(cs, ls, k)) == cs[k].table
  {
    if k > 0 {
      var c, last := cs[k - 1], ls[k - 1];
      CallsAreARun(exec, cs, ls, k - 1);
      assert StepAt(exec, cs, ls, k - 1);
      TableFollowsCalls(exec, c, last);
      if CallOf(c, last).Some? {
        assert Front(Calls(cs, ls, k)) == Calls(cs, ls, k - 1);
      } else {
        assert Calls(cs, ls, k) == Calls(cs, ls, k - 1);
      }
    }
  }

  ghost predicate NeverFlushed(ls: seq<Label>, k: nat)
    requires k <= |ls|
  {
    forall i :: 0 <= i < k ==> !ls[i].FlushTable?
  }

  lemma {:induction false} NoFlushCalls(cs: seq<State>, ls: seq<Label>, k: nat)
    requires k <= |ls| <= |cs| && NeverFlushed(ls, k)
    ensures Sweeps.NoFlush(Calls(cs, ls, k))
  {
    if k > 0 {
      NoFlushCalls(cs, ls, k - 1);
    }
  }

  lemma {:induction false} RegisteredCall(cs: seq<State>, ls: seq<Label>, j: nat, k: nat)
    requires j < k <= |ls| <= |cs| && ls[j].Register? && ls[j].accepted
    ensures Generate(ls[j].uid, ls[j].node) in Calls(cs, ls, k)
  {
    if j < k - 1 {
      RegisteredCall(cs, ls, j, k - 1);
    }
  }

  // With flushing off, once a submitted task has been registered as generating,
  // every live-node report finds its maker or a holder of its result live, or has
  // the request it was submitted with sent to the global scheduler once.
  lemma NoTaskIsAbandoned(exec: Task -> Bytes, cs: seq<State>, ls: seq<Label>, i: nat, j: nat, k: nat, order: seq<Uid>)
    requires IsRun(exec, cs, ls) && k < |cs| && NeverFlushed(ls, k) && Enabled(cs[k], Report(order))
    requires i < k && ls[i].Submit?
    requires j < k && ls[j].Register? && ls[j].accepted && ls[j].uid == ls[i].uid
    ensures var c, uid := cs[k], ls[i].uid;
            var sent := Emits(c.table, SweepOf(c, order)).dispatches;
            multiset(sent)[LineageRequest(uid, ls[i].req)] ==
              if Sweeps.SomeLive(c.table, LiveNodes(c.now, c.status), uid) then 0 else 1
  {
    var c, uid, es := cs[k], ls[i].uid, Calls(cs, ls, k);
    RunInv(exec, cs, ls, k);
    CallsAreARun(exec, cs, ls, k);
    NoFlushCalls(cs, ls, k);
    RegisteredCall(cs, ls, j, k);
    SubmittedLineage(exec, cs, ls, i, k);
    var m :| 0 <= m < |es| && es[m] == Generate(uid, ls[j].node);
    Sweeps.NoObjectIsAbandoned({}, es, LiveNodes(c.now, c.status), order, uid);
    OwnRequests(c, order, uid);
    Sweeps.CountOfResends(c.table, order, uid);
  }

  // In the cluster no two uids are resent as the same request.
  lemma OwnRequests(c: State, order: seq<Uid>, uid: Uid)
    requires Closed(c) && Enabled(c, Report(order)) && uid in c.table.lineage
    ensures forall u :: u in order && Resend(c.table, u) == Resend(c.table, uid) ==> u == uid
  {
    forall u | u in order ensures u in c.table.lineage {
      assert u in Elements(order);
      assert u in Tracked(c.table);
    }
  }

  function SweepOf(c: State, order: seq<Uid>): Event {
    Sweep(LiveNodes(c.now, c.status), order)
  }

  lemma ReportSendsLineage(c: State, order: seq<Uid>, i: nat)
    requires Closed(c) && Enabled(c, Report(order)) && i < |order|
    ensures var sent := Emits(c.table, SweepOf(c, order)).dispatches;
            |sent| == |order| && order[i] in c.table.lineage && sent[i] == c.table.lineage[order[i]]
  {
    assert order[i] in Elements(order);
    assert order[i] in Tracked(c.table);
  }

  // With flushing off, as long as a reader is on the waitlist, every report finds a
  // live maker of its object or has the task that was submitted for it sent out once,
  // whether or not a maker was ever registered.
  lemma WaitingReaderIsServed(exec: Task -> Bytes, cs: seq<State>, ls: seq<Label>, k: nat, r: Reader, order: seq<Uid>)
    returns (i: nat)
    requires IsRun(exec, cs, ls) && k < |cs| && NeverFlushed(ls, k) && Enabled(cs[k], Report(order))
    requires StoreAddress(r.node) in Waiters(cs[k].table, r.uid)
    ensures i < k && ls[i].Submit? && ls[i].uid == r.uid
    ensures var c := cs[k];
            var sent := Emits(c.table, SweepOf(c, order)).dispatches;
            multiset(sent)[LineageRequest(r.uid, ls[i].req)] ==
              if Sweeps.GeneratorIsLive(c.table, LiveNodes(c.now, c.status), r.uid) then 0 else 1
  {
    var c, uid, es := cs[k], r.uid, Calls(cs, ls, k);
    var live := LiveNodes(c.now, c.status);
    RunInv(exec, cs, ls, k);
    CallsAreARun(exec, cs, ls, k);
    NoFlushCalls(cs, ls, k);
    Sweeps.AwaitedIsTracked({}, es, uid);
    LineageWasSubmitted(exec, cs, ls, k, uid);
    i :| 0 <= i < k && ls[i].Submit? && ls[i].uid == uid;
    SubmittedLineage(exec, cs, ls, i, k);
    Sweeps.SweepDecides(c.table, live, order, uid);
    Sweeps.RecordedIsKnown(c.table, uid);
    Sweeps.NodesAreMakerAndHolders(c.table, live, uid);
    OwnRequests(c, order, uid);
    Sweeps.CountOfResends(c.table, order, uid);
  }

  // What a report sends for a lost uid is the request that it was submitted with.
  lemma ReportResendsSubmittedRequests(exec: Task -> Bytes, cs: seq<State>, ls: seq<Label>, k: nat, order: seq<Uid>, m: nat)
    returns (i: nat)
    requires IsRun(exec, cs, ls) && k < |cs| && Enabled(cs[k], Report(order)) && m < |order|
    ensures i < k && ls[i].Submit? && ls[i].uid == order[m]
    ensures var sent := Emits(cs[k].table, SweepOf(cs[k], order)).dispatches;
            |sent| == |order| && sent[m] == LineageRequest(order[m], ls[i].req)
  {
    RunInv(exec, cs, ls, k);
    ReportSendsLineage(cs[k], order, m);
    LineageWasSubmitted(exec, cs, ls, k, order[m]);
    i :| 0 <= i < k && ls[i].Submit? && ls[i].uid == order[m];
    SubmittedLineage(exec, cs, ls, i, k);
  }

  // Such a request pins no node and asks for no locality, so it is placed on a node
  // whose heartbeat is fresh and whose queue is shortest in time among all of those.
  lemma ReexecutionIsPlacedOnLiveNode(exec: Task -> Bytes, cs: seq<State>, ls: seq<Label>, k: nat,
                                      uid: Uid, n: NodeId, locs: Option<map<Uid, LocationByteTuple>>)
    requires IsRun(exec, cs, ls) && k < |cs| && uid in cs[k].table.lineage
    requires Enabled(cs[k], Place(cs[k].table.lineage[uid], n, locs))
    ensures var c := cs[k];
            && NodeIsLive(c.now, c.status, n)
            && forall m :: NodeIsLive(c.now, c.status, m) ==> QueueingTime(c.status[n]) <= QueueingTime(c.status[m])
  {
    var c := cs[k];
    LineageIsPlain(exec, cs, ls, k, uid);
    BestIsLive(c.now, c.status, locs, n);
    forall m | NodeIsLive(c.now, c.status, m) ensures QueueingTime(c.status[n]) <= QueueingTime(c.status[m]) {
      assert m in Costs(c.now, c.status, None);
    }
  }

  lemma LineageIsPlain(exec: Task -> Bytes, cs: seq<State>, ls: seq<Label>, k: nat, uid: Uid)
    requires IsRun(exec, cs, ls) && k < |cs| && uid in cs[k].table.lineage
    ensures var req := cs[k].table.lineage[uid]; req.uid == uid && req.nodeId == 0 && !req.localityFlag
  {
    LineageWasSubmitted(exec, cs, ls, k, uid);
    var i :| 0 <= i < k && ls[i].Submit? && ls[i].uid == uid;
    SubmittedLineage(exec, cs, ls, i, k);
  }

  // A re-execution that is on its way can be placed exactly if some live node's
  // queueing time is below the scheduler's initial bound.
  lemma ReexecutionCanBePlacedIff(exec: Task -> Bytes, cs: seq<State>, ls: seq<Label>, k: nat, uid: Uid)
    requires IsRun(exec, cs, ls) && k < |cs| && uid in cs[k].table.lineage
    requires Placing(cs[k].table.lineage[uid]) in cs[k].net
    ensures var c := cs[k];
            (exists n :: Enabled(c, Place(c.table.lineage[uid], n, None))) <==>
            exists m :: NodeIsLive(c.now, c.status, m) && QueueingTime(c.status[m]) < MAX_FLOAT32
  {
    var c := cs[k];
    var costs, req := Costs(c.now, c.status, None), c.table.lineage[uid];
    LineageIsPlain(exec, cs, ls, k, uid);
    BestExistsIff(costs);
    if m :| NodeIsLive(c.now, c.status, m) && QueueingTime(c.status[m]) < MAX_FLOAT32 {
      assert m in costs;
      var b :| IsBest(costs, Some(b));
      assert Enabled(c, Place(req, b, None));
    }
    if n :| Enabled(c, Place(req, n, None)) {
      assert IsBest(costs, Some(n));
      var m :| m in costs && costs[m] < MAX_FLOAT32;
      assert NodeIsLive(c.now, c.status, m);
    }
  }

  // A report treats a node as live exactly while its last heartbeat is less than
  // the timeout old, and reschedules no object that such a node makes or holds.
  lemma LiveNodeKeepsItsObjects(c: State, uid: Uid, n: NodeId, order: seq<Uid>)
    requires Enabled(c, Report(order)) && n in c.status && n in GetNodes(c.table, uid)
    ensures IsLive(LiveNodes(c.now, c.status), n) <==> c.now < c.status[n].timeReceived + LIVE_NODE_TIMEOUT
    ensures NodeIsLive(c.now, c.status, n) ==> uid !in order
  {
    if uid in order {
      assert uid in Elements(order);
    }
  }

  // Step i does not displace node n as one that makes or holds the object.
  ghost predicate Keeps(cs: seq<State>, ls: seq<Label>, i: nat, uid: Uid, n: NodeId)
    requires i < |ls| <= |cs|
  {
    var call := CallOf(cs[i], ls[i]);
    call.Some? ==> !Sweeps.Displaces(cs[i].table, call.value, uid, n)
  }

  // From the moment a task is registered at a node until the node is displaced,
  // no report that finds the node live reschedules the task.
  lemma ReexecutionSettles(exec: Task -> Bytes, cs: seq<State>, ls: seq<Label>, j: nat, k: nat, order: seq<Uid>)
    requires IsRun(exec, cs, ls) && j < k < |cs| && ls[j].Register? && ls[j].accepted
    requires forall i: nat :: j < i < k ==> Keeps(cs, ls, i, ls[j].uid, ls[j].node)
    requires Enabled(cs[k], Report(order)) && NodeIsLive(cs[k].now, cs[k].status, ls[j].node)
    ensures ls[j].uid !in order
  {
    StillCounts(exec, cs, ls, j, k);
    LiveNodeKeepsItsObjects(cs[k], ls[j].uid, ls[j].node, order);
  }

  lemma {:induction false} StillCounts(exec: Task -> Bytes, cs: seq<State>, ls: seq<Label>, j: nat, k: nat)
    requires IsRun(exec, cs, ls) && j < k < |cs| && ls[j].Register? && ls[j].accepted
    requires forall i: nat :: j < i < k ==> Keeps(cs, ls, i, ls[j].uid, ls[j].node)
    ensures ls[j].node in GetNodes(cs[k].table, ls[j].uid)
  {
    var c, last := cs[k - 1], ls[k - 1];
    assert StepAt(exec, cs, ls, k - 1);
    TableFollowsCalls(exec, c, last);
    if j < k - 1 {
      StillCounts(exec, cs, ls, j, k - 1);
      assert Keeps(cs, ls, k - 1, ls[j].uid, ls[j].node);
      if CallOf(c, last).Some? {
        Sweeps.LeavesOnlyWhenDisplaced(c.table, CallOf(c, last).value, ls[j].uid, ls[j].node);
      }
    }
  }
}
