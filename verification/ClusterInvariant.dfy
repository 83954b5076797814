// The invariant of the cluster and its preservation by every step.
module ClusterInvariant {
  import opened Types
  import opened Collections
  import opened ObjectTable
  import opened LocalObjectStore
  import opened LocalScheduler
  import opened GlobalScheduler
  import opened Cluster
  import TableRuns
  import Sweeps

  // The value that the one task registered under a uid computes.
  ghost predicate IsValueOf(exec: Task -> Bytes, c: State, uid: Uid, bytes: Bytes) {
    uid in c.table.lineage && bytes == exec(c.table.lineage[uid].task)
  }

  ghost predicate IsTaskOf(c: State, uid: Uid, task: Task) {
    uid in c.table.lineage && task == c.table.lineage[uid].task
  }

  // Memory holds nothing but task values, and published sizes fit them.
  ghost predicate Values(exec: Task -> Bytes, c: State) {
    && (forall n, u :: u in StoreOf(c, n).memory ==> IsValueOf(exec, c, u, StoreOf(c, n).memory[u]))
    && (forall n :: Published(StoreOf(c, n)))
    && (forall p :: p in c.returned ==> IsValueOf(exec, c, p.0.uid, p.1))
  }

  ghost predicate GoodMessage(exec: Task -> Bytes, c: State, m: Message) {
    match m
    case Placing(req) => IsTaskOf(c, req.uid, req.task)
    case Registering(_, u, task) => IsTaskOf(c, u, task)
    case Running(_, u, task) => IsTaskOf(c, u, task)
    case Storing(_, u, bytes, _) => IsValueOf(exec, c, u, bytes)
    case Writing(n, u, bytes, _) => IsValueOf(exec, c, u, bytes) && u in StoreOf(c, n).memory
    case Announcing(n, u, _) => Holds(c, n, u)
  }

  ghost predicate Messages(exec: Task -> Bytes, c: State) {
    forall m :: m in c.net ==> GoodMessage(exec, c, m)
  }

  ghost predicate Records(t: Table, u: Uid, n: NodeId) {
    n in Recorded(t, u) || (u, n) in t.rows
  }

  // Every location that is recorded or being told holds the object.
  ghost predicate RealLocations(c: State) {
    && (forall u, n :: Records(c.table, u, n) ==> Holds(c, n, u))
    && (forall b, n :: n in Mail(c.inbox, b) && n != 0 ==> Holds(c, n, b.uid))
    && (forall r :: r in c.gets && c.gets[r].Copying? && c.gets[r].location != 0 ==> Holds(c, c.gets[r].location, r.uid))
  }

  // Uids that clients know are exactly those with a lineage, and the table and
  // the readers deal in no others. A lineage pins no node.
  ghost predicate Closed(c: State) {
    && c.given == c.table.lineage.Keys
    && (forall u :: u in c.table.lineage ==>
          c.table.lineage[u].uid == u && c.table.lineage[u].nodeId == 0 && u < UID_BOUND)
    && Tracked(c.table) <= c.given
    && (forall r :: r in c.gets ==> r.uid in c.given)
    && (forall r :: r in c.requests ==> r.uid in c.given)
  }

  // How many of the things that can wake a reader exist, or have been used up by
  // a disk failure.
  ghost function Account(c: State, r: Reader): nat {
    c.requests[r] + multiset(Waiters(c.table, r.uid))[StoreAddress(r.node)] + |Mail(c.inbox, BoxOf(r))| + c.lost[r]
  }

  ghost predicate Accounted(c: State) {
    forall r :: Account(c, r) == if Blocked(c, r) then 1 else 0
  }

  ghost predicate Inv(exec: Task -> Bytes, c: State) {
    && Values(exec, c) && Messages(exec, c) && RealLocations(c) && Closed(c) && Accounted(c)
    && TableRuns.Inv(c.table)
  }

  // ------------------------------------------------------------------- growth

  // What no step takes away.
  ghost predicate Grows(c: State, d: State) {
    && (forall u :: u in c.table.lineage ==> u in d.table.lineage && d.table.lineage[u] == c.table.lineage[u])
    && (forall n, u :: u in StoreOf(c, n).memory ==> u in StoreOf(d, n).memory)
    && (forall n, u :: Holds(c, n, u) ==> Holds(d, n, u))
  }

  lemma GoodMessageStays(exec: Task -> Bytes, c: State, d: State, m: Message)
    requires Grows(c, d) && GoodMessage(exec, c, m)
    ensures GoodMessage(exec, d, m)
  {
  }

  lemma MessagesStay(exec: Task -> Bytes, c: State, d: State)
    requires Grows(c, d) && Messages(exec, c)
    requires forall m :: m in d.net ==> m in c.net || GoodMessage(exec, d, m)
    ensures Messages(exec, d)
  {
    forall m | m in d.net ensures GoodMessage(exec, d, m) {
      if m in c.net {
        GoodMessageStays(exec, c, d, m);
      }
    }
  }

  // ---------------------------------------------------- what the table records

  lemma RecordsOnlyMore(t: Table, e: Event, u: Uid, n: NodeId)
    requires Possible(t, e) && Records(Step(t, e), u, n)
    ensures Records(t, u, n) || (e.Announce? && e.uid == u && e.node == n)
  {
    match e
    case Announce(_, _, _) =>
    case Lookup(uid, peer, read, pick) =>
      if !LookupFails(t, uid, read) {
        TableRuns.LookupFrame(t, uid, peer, read, pick, u);
        if uid == u && Recorded(t, uid) == [] {
          assert n in Recorded(Step(t, e), u) ==> n in Elements(read.value);
        }
      }
    case Flush(_) =>
    case Lineage(_) =>
    case Generate(_, _) =>
    case Sweep(_, _) =>
  }

  lemma CallbacksAreRecorded(t: Table, e: Event, cb: Callback)
    requires Possible(t, e) && cb in Emits(t, e).callbacks && cb.node != 0
    ensures Records(t, cb.uid, cb.node) || (e.Announce? && e.uid == cb.uid && e.node == cb.node)
  {
    match e
    case Announce(_, _, _) =>
    case Lookup(uid, peer, read, pick) =>
      var nodes := Recorded(Fill(t, uid, read), uid);
      assert cb.node in Candidates(t.live, nodes);
      assert cb.node in nodes;
      if Recorded(t, uid) == [] {
        assert cb.node in Elements(read.value);
      }
    case Flush(_) =>
    case Lineage(_) =>
    case Generate(_, _) =>
    case Sweep(_, _) =>
  }

  lemma TrackedOnlyMore(t: Table, e: Event)
    requires Possible(t, e)
    ensures Tracked(Step(t, e)) <= Tracked(t) + if e.Announce? || e.Lookup? || e.Generate? then {e.uid} else {}
  {
    match e
    case Announce(_, _, _) =>
    case Lookup(_, _, _, _) =>
    case Flush(_) =>
    case Lineage(_) =>
    case Generate(_, _) =>
    case Sweep(_, _) =>
  }

  lemma DispatchesAreLineage(t: Table, e: Event, req: Request)
    requires Possible(t, e) && req in Emits(t, e).dispatches
    ensures exists u :: u in Tracked(t) && req == Resend(t, u)
  {
    match e
    case Announce(_, _, _) =>
    case Lookup(_, _, _, _) =>
    case Flush(_) =>
    case Lineage(_) =>
    case Generate(_, _) =>
    case Sweep(live, order) =>
      var i :| 0 <= i < |order| && req == Resend(t, order[i]);
      assert order[i] in Elements(order);
  }

  // -------------------------------------------------------------- the mailboxes

  lemma {:induction false} PostCounts(inbox: map<Box, seq<NodeId>>, cs: seq<Callback>, b: Box)
    ensures |Mail(Post(inbox, cs), b)| == |Mail(inbox, b)| + TableRuns.AddressesFor(cs, b.uid)[b.addr]
    decreases cs
  {
    if cs != [] {
      var b0 := Box(cs[0].addr, cs[0].uid);
      PostCounts(inbox[b0 := Mail(inbox, b0) + [cs[0].node]], cs[1..], b);
    }
  }

  lemma {:induction false} PostedFrom(inbox: map<Box, seq<NodeId>>, cs: seq<Callback>, b: Box, n: NodeId)
    requires n in Mail(Post(inbox, cs), b)
    ensures n in Mail(inbox, b) || Callback(b.addr, b.uid, n) in cs
    decreases cs
  {
    if cs != [] {
      var b0 := Box(cs[0].addr, cs[0].uid);
      PostedFrom(inbox[b0 := Mail(inbox, b0) + [cs[0].node]], cs[1..], b, n);
    }
  }

  // --------------------------------------------------------- calls of the table

  // What a call of the table has to bring along.
  ghost predicate Justified(c: State, e: Event) {
    match e
    case Announce(u, n, _) => u in c.given && Holds(c, n, u)
    case Lookup(u, _, _, _) => u in c.given
    case Generate(u, _) => u in c.given
    case Lineage(_) => false
    case _ => true
  }

  lemma TableCallGrows(c: State, e: Event)
    requires !e.Lineage?
    ensures Grows(c, OnTable(c, e)) && OnTable(c, e).table.lineage == c.table.lineage
  {
    Sweeps.StepLineage(c.table, e);
  }

  lemma TableCallMessages(exec: Task -> Bytes, c: State, e: Event)
    requires Messages(exec, c) && Closed(c) && Possible(c.table, e) && !e.Lineage?
    ensures Messages(exec, OnTable(c, e))
  {
    var d := OnTable(c, e);
    TableCallGrows(c, e);
    forall m | m in d.net && m !in c.net ensures GoodMessage(exec, d, m) {
      var reqs := Emits(c.table, e).dispatches;
      assert m in Placings(reqs);
      var i :| 0 <= i < |reqs| && m == Placing(reqs[i]);
      DispatchesAreLineage(c.table, e, reqs[i]);
      var u :| u in Tracked(c.table) && reqs[i] == Resend(c.table, u);
      assert u in c.given;
    }
    MessagesStay(exec, c, d);
  }

  lemma TableCallLocations(c: State, e: Event)
    requires RealLocations(c) && Possible(c.table, e) && Justified(c, e)
    ensures RealLocations(OnTable(c, e))
  {
    var d := OnTable(c, e);
    forall u, n | Records(d.table, u, n) ensures Holds(d, n, u) {
      RecordsOnlyMore(c.table, e, u, n);
    }
    var cs := Emits(c.table, e).callbacks;
    forall b, n | n in Mail(d.inbox, b) && n != 0 ensures Holds(d, n, b.uid) {
      PostedFrom(c.inbox, cs, b, n);
      if n !in Mail(c.inbox, b) {
        CallbacksAreRecorded(c.table, e, Callback(b.addr, b.uid, n));
      }
    }
    forall r | r in d.gets && d.gets[r].Copying? && d.gets[r].location != 0 ensures Holds(d, d.gets[r].location, r.uid) {
      assert r in c.gets && c.gets[r] == d.gets[r];
    }
  }

  lemma TableCallClosed(c: State, e: Event)
    requires Closed(c) && Possible(c.table, e) && Justified(c, e)
    ensures Closed(OnTable(c, e))
  {
    TableCallGrows(c, e);
    TrackedOnlyMore(c.table, e);
  }

  // The four parts of the invariant that are about what objects are worth.
  ghost predicate Sound(exec: Task -> Bytes, c: State) {
    Values(exec, c) && Messages(exec, c) && RealLocations(c) && Closed(c)
  }

  lemma TableCallSound(exec: Task -> Bytes, c: State, e: Event)
    requires Sound(exec, c) && Possible(c.table, e) && Justified(c, e)
    ensures Sound(exec, OnTable(c, e))
  {
    TableCallGrows(c, e);
    TableCallMessages(exec, c, e);
    TableCallLocations(c, e);
    TableCallClosed(c, e);
  }

  // ------------------------------------------------------------------- messages

  // d differs from c at most in messages, clocks and liveness, and in readers that
  // are gone.
  ghost predicate OnlyLess(c: State, d: State) {
    && d.table == c.table && d.stores == c.stores && d.inbox == c.inbox && d.given == c.given && d.returned == c.returned
    && (forall r :: r in d.gets ==> r in c.gets && d.gets[r] == c.gets[r])
    && (forall r :: r in d.requests ==> r in c.requests)
  }

  lemma OnlyLessParts(exec: Task -> Bytes, c: State, d: State)
    requires OnlyLess(c, d)
    ensures Values(exec, c) ==> Values(exec, d)
    ensures RealLocations(c) ==> RealLocations(d)
    ensures Closed(c) ==> Closed(d)
    ensures Grows(c, d)
  {
    assert forall n :: StoreOf(d, n) == StoreOf(c, n);
  }

  lemma OnlyLessSound(exec: Task -> Bytes, c: State, d: State)
    requires Sound(exec, c) && OnlyLess(c, d)
    requires forall m :: m in d.net ==> m in c.net || GoodMessage(exec, c, m)
    ensures Sound(exec, d)
  {
    OnlyLessParts(exec, c, d);
    forall m | m in d.net ensures GoodMessage(exec, d, m) {
      GoodMessageStays(exec, c, d, m);
    }
  }

  lemma SendSound(exec: Task -> Bytes, c: State, m: Message)
    requires Sound(exec, c) && GoodMessage(exec, c, m)
    ensures Sound(exec, Send(c, m))
  {
    OnlyLessSound(exec, c, Send(c, m));
  }

  lemma TakeSound(exec: Task -> Bytes, c: State, m: Message)
    requires Sound(exec, c)
    ensures Sound(exec, Take(c, m)) && (m in c.net ==> GoodMessage(exec, Take(c, m), m))
  {
    OnlyLessSound(exec, c, Take(c, m));
    OnlyLessParts(exec, c, Take(c, m));
    if m in c.net {
      GoodMessageStays(exec, c, Take(c, m), m);
    }
  }

  // ---------------------------------------------------------------- other steps

  // The state in which a new task's lineage is registered.
  ghost function Submitted(c: State, uid: Uid, req: ScheduleRequest): State {
    OnTable(c, Lineage(LineageRequest(uid, req))).(given := c.given + {uid})
  }

  lemma SubmittedIs(c: State, uid: Uid, req: ScheduleRequest)
    requires uid !in c.table.lineage
    ensures Submitted(c, uid, req) ==
            c.(table := c.table.(lineage := c.table.lineage[uid := LineageRequest(uid, req)]), given := c.given + {uid})
  {
    assert c.net + multiset(Placings([])) == c.net;
  }

  lemma SubmittedSound(exec: Task -> Bytes, c: State, uid: Uid, req: ScheduleRequest)
    requires Sound(exec, c) && uid !in c.given && uid < UID_BOUND
    ensures Sound(exec, Submitted(c, uid, req)) && IsTaskOf(Submitted(c, uid, req), uid, req.task)
  {
    var d := Submitted(c, uid, req);
    SubmittedIs(c, uid, req);
    assert forall n :: StoreOf(d, n) == StoreOf(c, n);
    assert Grows(c, d);
    MessagesStay(exec, c, d);
    SameStoreValues(exec, c, d);
    SubmittedLocations(c, d);
    SubmittedClosed(c, uid, req);
  }

  lemma SameStoreValues(exec: Task -> Bytes, c: State, d: State)
    requires Values(exec, c) && Grows(c, d) && d.stores == c.stores && d.returned == c.returned
    ensures Values(exec, d)
  {
    assert forall n :: StoreOf(d, n) == StoreOf(c, n);
  }

  lemma SubmittedLocations(c: State, d: State)
    requires RealLocations(c) && d.stores == c.stores && d.inbox == c.inbox && d.gets == c.gets
    requires d.table.locations == c.table.locations && d.table.rows == c.table.rows
    ensures RealLocations(d)
  {
    assert forall n :: StoreOf(d, n) == StoreOf(c, n);
    assert forall u, n :: Records(d.table, u, n) ==> Records(c.table, u, n);
  }

  lemma SubmittedClosed(c: State, uid: Uid, req: ScheduleRequest)
    requires Closed(c) && uid !in c.given && uid < UID_BOUND
    ensures Closed(Submitted(c, uid, req))
  {
    SubmittedIs(c, uid, req);
  }

  lemma SubmitSound(exec: Task -> Bytes, c: State, l: Label)
    requires Sound(exec, c) && Enabled(c, l) && l.Submit?
    ensures Sound(exec, Next(exec, c, l))
  {
    var c1 := Submitted(c, l.uid, l.req);
    SubmittedSound(exec, c, l.uid, l.req);
    match FirstDispatch(l.uid, l.req, l.runningTasks)
    case ToGlobal(r) => SendSound(exec, c1, Placing(r));
    case ToLocalWorker(u, task) => SendSound(exec, c1, Registering(l.node, u, task));
  }

  lemma WriteSound(exec: Task -> Bytes, c: State, n: NodeId, uid: Uid, bytes: Bytes)
    requires Sound(exec, c) && IsValueOf(exec, c, uid, bytes)
    ensures var d := WithStore(c, n, WriteMemory(StoreOf(c, n), uid, bytes));
            Sound(exec, d) && uid in StoreOf(d, n).memory
  {
    assert Published(StoreOf(c, n));
    ReplaceStoreSound(exec, c, n, WriteMemory(StoreOf(c, n), uid, bytes));
  }

  lemma PublishSound(exec: Task -> Bytes, c: State, n: NodeId, uid: Uid, bytes: Bytes)
    requires Sound(exec, c) && IsValueOf(exec, c, uid, bytes) && uid in StoreOf(c, n).memory
    ensures var d := WithStore(c, n, Publish(StoreOf(c, n), uid, |bytes|));
            Sound(exec, d) && Holds(d, n, uid)
  {
    assert Published(StoreOf(c, n));
    assert StoreOf(c, n).memory[uid] == bytes;
    ReplaceStoreSound(exec, c, n, Publish(StoreOf(c, n), uid, |bytes|));
  }

  // A store may be replaced by one that has more and holds task values only.
  lemma ReplaceStoreSound(exec: Task -> Bytes, c: State, n: NodeId, s: NodeStore)
    requires Sound(exec, c) && Published(s)
    requires forall u :: u in s.memory ==> IsValueOf(exec, c, u, s.memory[u])
    requires StoreOf(c, n).memory.Keys <= s.memory.Keys && StoreOf(c, n).sizes.Keys <= s.sizes.Keys
    ensures Sound(exec, WithStore(c, n, s))
  {
    var d := WithStore(c, n, s);
    assert forall k :: StoreOf(d, k) == if k == n then s else StoreOf(c, k);
    assert Grows(c, d);
    MessagesStay(exec, c, d);
    ReplacedValues(exec, c, n, s);
    StoresOnlyGrow(c, d);
  }

  lemma ReplacedValues(exec: Task -> Bytes, c: State, n: NodeId, s: NodeStore)
    requires Values(exec, c) && Published(s)
    requires forall u :: u in s.memory ==> IsValueOf(exec, c, u, s.memory[u])
    ensures Values(exec, WithStore(c, n, s))
  {
    var d := WithStore(c, n, s);
    assert forall k :: StoreOf(d, k) == if k == n then s else StoreOf(c, k);
  }

  // Locations stay real, and uids stay known, when only stores change and grow.
  lemma StoresOnlyGrow(c: State, d: State)
    requires RealLocations(c) && Closed(c) && Grows(c, d)
    requires d.table == c.table && d.inbox == c.inbox && d.gets == c.gets && d.requests == c.requests && d.given == c.given
    ensures RealLocations(d) && Closed(d)
  {
  }

  lemma DeliverSound(exec: Task -> Bytes, c: State, l: Label)
    requires Sound(exec, c) && Enabled(c, l) && l.Deliver?
    ensures Sound(exec, Next(exec, c, l))
  {
    var d := Next(exec, c, l);
    assert forall n :: StoreOf(d, n) == StoreOf(c, n);
    assert Grows(c, d);
    MessagesStay(exec, c, d);
    SameStoreValues(exec, c, d);
    DeliverLocations(exec, c, l);
    DeliverClosed(exec, c, l);
  }

  lemma DeliverLocations(exec: Task -> Bytes, c: State, l: Label)
    requires RealLocations(c) && Enabled(c, l) && l.Deliver?
    ensures RealLocations(Next(exec, c, l))
  {
    var d := Next(exec, c, l);
    var mail := Mail(c.inbox, BoxOf(l.r));
    assert mail[l.i] in mail;
    assert forall n :: StoreOf(d, n) == StoreOf(c, n);
    forall b, n | n in Mail(d.inbox, b) && n != 0 ensures Holds(d, n, b.uid) {
      assert n in Mail(c.inbox, b);
    }
  }

  lemma DeliverClosed(exec: Task -> Bytes, c: State, l: Label)
    requires Closed(c) && Enabled(c, l) && l.Deliver?
    ensures Closed(Next(exec, c, l))
  {
    var d := Next(exec, c, l);
    assert d.table == c.table && d.given == c.given && d.requests == c.requests;
    assert forall r :: r in d.gets ==> r in c.gets;
  }

  lemma ReturnSound(exec: Task -> Bytes, c: State, r: Reader, bytes: Bytes)
    requires Sound(exec, c) && IsValueOf(exec, c, r.uid, bytes)
    ensures Sound(exec, c.(returned := c.returned + {(r, bytes)}))
  {
    var d := c.(returned := c.returned + {(r, bytes)});
    assert forall n :: StoreOf(d, n) == StoreOf(c, n);
    assert Grows(c, d);
    MessagesStay(exec, c, d);
    assert Values(exec, d);
    StoresOnlyGrow(c, d);
  }

  lemma ForgetGetSound(exec: Task -> Bytes, c: State, r: Reader)
    requires Sound(exec, c)
    ensures Sound(exec, c.(gets := c.gets - {r}))
  {
    OnlyLessSound(exec, c, c.(gets := c.gets - {r}));
  }

  // What a copy gives is the value of the object's task.
  lemma CopiedIsValue(exec: Task -> Bytes, c: State, n: NodeId, uid: Uid)
    requires Values(exec, c)
    ensures Holds(c, n, uid) <==> Copied(StoreOf(c, n), uid).Ok?
    ensures Holds(c, n, uid) ==> IsValueOf(exec, c, uid, Copied(StoreOf(c, n), uid).value)
  {
    assert Published(StoreOf(c, n));
    if Holds(c, n, uid) {
      var bytes := StoreOf(c, n).memory[uid];
      assert bytes[..|bytes|] == bytes;
    }
  }

  lemma CopyBackSound(exec: Task -> Bytes, c: State, l: Label)
    requires Sound(exec, c) && Enabled(c, l) && l.CopyBack?
    ensures Sound(exec, Next(exec, c, l))
  {
    var r, loc := l.r, c.gets[l.r].location;
    var done := c.(gets := c.gets - {r});
    ForgetGetSound(exec, c, r);
    CopiedIsValue(exec, c, loc, r.uid);
    if Copied(StoreOf(c, loc), r.uid).Ok? {
      var bytes := Copied(StoreOf(c, loc), r.uid).value;
      var got := done.(returned := done.returned + {(r, bytes)});
      ReturnSound(exec, done, r, bytes);
      if c.gets[r].cache {
        SendSound(exec, got, Storing(r.node, r.uid, bytes, 0));
      }
    }
  }

  lemma LocateSound(exec: Task -> Bytes, c: State, l: Label)
    requires Sound(exec, c) && Enabled(c, l) && l.Locate?
    ensures Sound(exec, Next(exec, c, l))
  {
    TableCallSound(exec, c, LookupEvent(l));
    OnlyLessSound(exec, OnTable(c, LookupEvent(l)), Next(exec, c, l));
  }

  lemma PlaceSound(exec: Task -> Bytes, c: State, req: Request, n: NodeId, locs: Option<map<Uid, LocationByteTuple>>)
    requires Sound(exec, c) && Enabled(c, Place(req, n, locs))
    ensures Sound(exec, Next(exec, c, Place(req, n, locs)))
  {
    TakeSound(exec, c, Placing(req));
    SendSound(exec, Take(c, Placing(req)), Registering(n, req.uid, req.task));
  }

  lemma RegisterSound(exec: Task -> Bytes, c: State, n: NodeId, uid: Uid, task: Task, accepted: bool)
    requires Sound(exec, c) && Enabled(c, Register(n, uid, task, accepted))
    ensures Sound(exec, Next(exec, c, Register(n, uid, task, accepted)))
  {
    var c1 := Take(c, Registering(n, uid, task));
    TakeSound(exec, c, Registering(n, uid, task));
    if accepted {
      TableCallSound(exec, c1, Generate(uid, n));
      TableCallGrows(c1, Generate(uid, n));
      SendSound(exec, OnTable(c1, Generate(uid, n)), Running(n, uid, task));
    } else {
      SendSound(exec, c1, Running(n, uid, task));
    }
  }

  lemma ExecuteSound(exec: Task -> Bytes, c: State, n: NodeId, uid: Uid, task: Task)
    requires Sound(exec, c) && Enabled(c, Execute(n, uid, task))
    ensures Sound(exec, Next(exec, c, Execute(n, uid, task)))
  {
    TakeSound(exec, c, Running(n, uid, task));
    SendSound(exec, Take(c, Running(n, uid, task)), Storing(n, uid, exec(task), |exec(task)|));
  }

  lemma WriteStepSound(exec: Task -> Bytes, c: State, n: NodeId, uid: Uid, bytes: Bytes, size: nat)
    requires Sound(exec, c) && Enabled(c, Write(n, uid, bytes, size))
    ensures Sound(exec, Next(exec, c, Write(n, uid, bytes, size)))
  {
    var c1 := Take(c, Storing(n, uid, bytes, size));
    TakeSound(exec, c, Storing(n, uid, bytes, size));
    WriteSound(exec, c1, n, uid, bytes);
    SendSound(exec, WithStore(c1, n, WriteMemory(StoreOf(c1, n), uid, bytes)), Writing(n, uid, bytes, size));
  }

  lemma FinishSound(exec: Task -> Bytes, c: State, n: NodeId, uid: Uid, bytes: Bytes, size: nat)
    requires Sound(exec, c) && Enabled(c, Finish(n, uid, bytes, size))
    ensures Sound(exec, Next(exec, c, Finish(n, uid, bytes, size)))
  {
    var c1 := Take(c, Writing(n, uid, bytes, size));
    TakeSound(exec, c, Writing(n, uid, bytes, size));
    PublishSound(exec, c1, n, uid, bytes);
    SendSound(exec, WithStore(c1, n, Publish(StoreOf(c1, n), uid, |bytes|)), Announcing(n, uid, size));
  }

  lemma NotifySound(exec: Task -> Bytes, c: State, n: NodeId, uid: Uid, size: nat)
    requires Sound(exec, c) && Enabled(c, Notify(n, uid, size))
    ensures Sound(exec, Next(exec, c, Notify(n, uid, size)))
  {
    var c1 := Take(c, Announcing(n, uid, size));
    TakeSound(exec, c, Announcing(n, uid, size));
    CopiedIsValue(exec, c1, n, uid);
    TableCallSound(exec, c1, Announce(uid, n, size));
  }

  lemma GetRemoteSound(exec: Task -> Bytes, c: State, l: Label)
    requires Sound(exec, c) && Enabled(c, l) && l.GetRemote?
    ensures Sound(exec, Next(exec, c, l))
  {
    var d := Next(exec, c, l);
    assert forall n :: StoreOf(d, n) == StoreOf(c, n);
    assert Grows(c, d);
    MessagesStay(exec, c, d);
    SameStoreValues(exec, c, d);
    GetRemoteParts(exec, c, l);
  }

  lemma GetRemoteParts(exec: Task -> Bytes, c: State, l: Label)
    requires Enabled(c, l) && l.GetRemote?
    ensures RealLocations(c) ==> RealLocations(Next(exec, c, l))
    ensures Closed(c) ==> Closed(Next(exec, c, l))
  {
    var d := Next(exec, c, l);
    assert forall n :: StoreOf(d, n) == StoreOf(c, n);
    assert forall r :: r in d.requests ==> r == l.r || r in c.requests;
  }

  lemma GetLocalSound(exec: Task -> Bytes, c: State, r: Reader)
    requires Sound(exec, c) && Holds(c, r.node, r.uid)
    ensures Sound(exec, Next(exec, c, GetLocal(r)))
  {
    CopiedIsValue(exec, c, r.node, r.uid);
    ReturnSound(exec, c, r, Copied(StoreOf(c, r.node), r.uid).value);
  }

  lemma ReportSound(exec: Task -> Bytes, c: State, order: seq<Uid>)
    requires Sound(exec, c) && Enabled(c, Report(order))
    ensures Sound(exec, Next(exec, c, Report(order)))
  {
    var e := Sweep(LiveNodes(c.now, c.status), order);
    TableCallSound(exec, c, e);
    OnlyLessSound(exec, OnTable(c, e), Next(exec, c, Report(order)));
  }

  lemma QuietSound(exec: Task -> Bytes, c: State, l: Label)
    requires Sound(exec, c) && (l.Beat? || l.SetAlive? || l.Tick?)
    ensures Sound(exec, Next(exec, c, l))
  {
    OnlyLessSound(exec, c, Next(exec, c, l));
  }

  lemma WorkSound(exec: Task -> Bytes, c: State, l: Label)
    requires Sound(exec, c) && Enabled(c, l) && (l.Submit? || l.Place? || l.Register? || l.Execute? || l.Drop?)
    ensures Sound(exec, Next(exec, c, l))
  {
    match l
    case Submit(_, _, _, _) => SubmitSound(exec, c, l);
    case Place(req, n, locs) => PlaceSound(exec, c, req, n, locs);
    case Register(n, uid, task, accepted) => RegisterSound(exec, c, n, uid, task, accepted);
    case Execute(n, uid, task) => ExecuteSound(exec, c, n, uid, task);
    case Drop(m) => TakeSound(exec, c, m);
  }

  lemma StoreSound(exec: Task -> Bytes, c: State, l: Label)
    requires Sound(exec, c) && Enabled(c, l) && (l.Write? || l.Finish? || l.Notify? || l.FlushTable? || l.Report?)
    ensures Sound(exec, Next(exec, c, l))
  {
    match l
    case Write(n, uid, bytes, size) => WriteStepSound(exec, c, n, uid, bytes, size);
    case Finish(n, uid, bytes, size) => FinishSound(exec, c, n, uid, bytes, size);
    case Notify(n, uid, size) => NotifySound(exec, c, n, uid, size);
    case FlushTable(healthy) => TableCallSound(exec, c, Flush(healthy));
    case Report(order) => ReportSound(exec, c, order);
  }

  predicate ReadsObject(l: Label) {
    l.GetLocal? || l.GetRemote? || l.Locate? || l.Deliver? || l.CopyBack? || l.CopyFails?
  }

  lemma ReadSound(exec: Task -> Bytes, c: State, l: Label)
    requires Sound(exec, c) && Enabled(c, l) && ReadsObject(l)
    ensures Sound(exec, Next(exec, c, l))
  {
    match l
    case GetLocal(r) => GetLocalSound(exec, c, r);
    case GetRemote(_, _, _) => GetRemoteSound(exec, c, l);
    case Locate(_, _, _, _) => LocateSound(exec, c, l);
    case Deliver(_, _) => DeliverSound(exec, c, l);
    case CopyBack(_) => CopyBackSound(exec, c, l);
    case CopyFails(r) => ForgetGetSound(exec, c, r);
  }

  // Every step keeps the four parts.
  lemma StepSound(exec: Task -> Bytes, c: State, l: Label)
    requires Sound(exec, c) && Enabled(c, l)
    ensures Sound(exec, Next(exec, c, l))
  {
    if ReadsObject(l) {
      ReadSound(exec, c, l);
    } else if l.Beat? || l.SetAlive? || l.Tick? {
      QuietSound(exec, c, l);
    } else if l.Submit? || l.Place? || l.Register? || l.Execute? || l.Drop? {
      WorkSound(exec, c, l);
    } else {
      StoreSound(exec, c, l);
    }
  }

  // ------------------------------------------------------------ waking readers

  // A call of the table moves no reader's account, except that an accepted
  // request becomes a callback or a place on the waitlist.
  lemma TableCallAccount(c: State, e: Event, r: Reader)
    requires Possible(c.table, e)
    ensures Account(OnTable(c, e), r) == Account(c, r) + TableRuns.AcceptedBy(c.table, e, r.uid)[StoreAddress(r.node)]
  {
    TableRuns.StepConserves(c.table, e, r.uid);
    PostCounts(c.inbox, Emits(c.table, e).callbacks, BoxOf(r));
    CountsAddUp(multiset(Waiters(c.table, r.uid)), TableRuns.AcceptedBy(c.table, e, r.uid),
                TableRuns.AddressesFor(Emits(c.table, e).callbacks, r.uid),
                multiset(Waiters(Step(c.table, e), r.uid)), StoreAddress(r.node));
  }

  lemma CountsAddUp(a: multiset<Address>, b: multiset<Address>, d: multiset<Address>, e: multiset<Address>, x: Address)
    requires a + b == d + e
    ensures a[x] + b[x] == d[x] + e[x]
  {
    assert (a + b)[x] == (d + e)[x];
  }

  // A step that neither starts, locates nor wakes a reader.
  lemma QuietCallAccounted(c: State, d: State, e: Event)
    requires Accounted(c) && Possible(c.table, e) && !e.Lookup?
    requires d.table == Step(c.table, e) && d.inbox == Post(c.inbox, Emits(c.table, e).callbacks)
    requires d.requests == c.requests && d.lost == c.lost
    requires forall r :: Blocked(d, r) <==> Blocked(c, r)
    ensures Accounted(d)
  {
    forall r ensures Account(d, r) == if Blocked(d, r) then 1 else 0 {
      TableCallAccount(c, e, r);
      assert Account(d, r) == Account(OnTable(c, e), r);
      assert Account(c, r) == if Blocked(c, r) then 1 else 0;
    }
  }

  lemma SameAccount(c: State, d: State)
    requires Accounted(c)
    requires d.table.waitlist == c.table.waitlist && d.inbox == c.inbox && d.requests == c.requests && d.lost == c.lost
    requires forall r :: Blocked(d, r) <==> Blocked(c, r)
    ensures Accounted(d)
  {
    forall r ensures Account(d, r) == if Blocked(d, r) then 1 else 0 {
      assert Account(c, r) == if Blocked(c, r) then 1 else 0;
    }
  }

  lemma GetRemoteAccounted(exec: Task -> Bytes, c: State, l: Label)
    requires Accounted(c) && Enabled(c, l) && l.GetRemote?
    ensures Accounted(Next(exec, c, l))
  {
    var d := Next(exec, c, l);
    forall r ensures Account(d, r) == if Blocked(d, r) then 1 else 0 {
      assert Account(c, r) == if Blocked(c, r) then 1 else 0;
      assert d.requests[r] == c.requests[r] + if r == l.r then 1 else 0;
    }
  }

  lemma LocateAccounted(exec: Task -> Bytes, c: State, l: Label)
    requires Accounted(c) && Enabled(c, l) && l.Locate?
    ensures Accounted(Next(exec, c, l))
  {
    var d, e := Next(exec, c, l), LookupEvent(l);
    forall r ensures Account(d, r) == if Blocked(d, r) then 1 else 0 {
      TableCallAccount(c, e, r);
      LocateMovesOne(exec, c, l, r);
      assert Account(c, r) == if Blocked(c, r) then 1 else 0;
    }
  }

  lemma AcceptedIsTheReader(t: Table, q: Reader, port: nat, read: Result<seq<NodeId>>, pick: nat, r: Reader)
    ensures TableRuns.AcceptedBy(t, Lookup(q.uid, Address(q.node, port), read, pick), r.uid)[StoreAddress(r.node)] ==
            if r == q && !LookupFails(t, q.uid, read) then 1 else 0
  {
    assert StoreAddress(r.node) == StoreAddress(q.node) <==> r.node == q.node;
  }

  // The request that is taken up is accepted by the table, or lost at the disk.
  lemma LocateMovesOne(exec: Task -> Bytes, c: State, l: Label, r: Reader)
    requires Enabled(c, l) && l.Locate?
    ensures Account(Next(exec, c, l), r) == Account(OnTable(c, LookupEvent(l)), r) -
              TableRuns.AcceptedBy(c.table, LookupEvent(l), r.uid)[StoreAddress(r.node)]
    ensures Blocked(Next(exec, c, l), r) <==> Blocked(c, r)
  {
    AcceptedIsTheReader(c.table, l.r, l.port, l.read, l.pick, r);
    var d, c1 := Next(exec, c, l), OnTable(c, LookupEvent(l));
    var one := if r == l.r then 1 else 0;
    assert d.requests[r] == c1.requests[r] - one;
    assert d.lost[r] == c1.lost[r] + if LookupFails(c.table, l.r.uid, l.read) then one else 0;
    assert d.table == c1.table && d.inbox == c1.inbox;
  }

  lemma DeliverAccounted(exec: Task -> Bytes, c: State, l: Label)
    requires Accounted(c) && Enabled(c, l) && l.Deliver?
    ensures Accounted(Next(exec, c, l))
  {
    var d := Next(exec, c, l);
    forall r ensures Account(d, r) == if Blocked(d, r) then 1 else 0 {
      assert Account(c, r) == if Blocked(c, r) then 1 else 0;
      assert Account(c, l.r) == 1;
      assert BoxOf(r) == BoxOf(l.r) <==> r == l.r;
      assert |Mail(d.inbox, BoxOf(r))| == |Mail(c.inbox, BoxOf(r))| - if r == l.r then 1 else 0;
    }
  }

  ghost function CallOf(c: State, l: Label): Option<Event> {
    match l
    case Submit(_, uid, req, _) => Some(Lineage(LineageRequest(uid, req)))
    case Register(n, uid, _, true) => Some(Generate(uid, n))
    case Notify(n, uid, size) => Some(Announce(uid, n, size))
    case Locate(_, _, _, _) => Some(LookupEvent(l))
    case FlushTable(healthy) => Some(Flush(healthy))
    case Report(order) => Some(Sweep(LiveNodes(c.now, c.status), order))
    case _ => None
  }

  // The call of the table that a step makes, if it makes one, is all that changes
  // the table.
  lemma TableFollowsCalls(exec: Task -> Bytes, c: State, l: Label)
    requires Enabled(c, l)
    ensures match CallOf(c, l)
            case Some(e) => Possible(c.table, e) && Next(exec, c, l).table == Step(c.table, e)
            case None => Next(exec, c, l).table == c.table
  {
    if CallOf(c, l).None? {
      OthersLeaveTable(exec, c, l);
    } else if l.Submit? {
      SubmitRegistersLineage(exec, c, l);
    } else {
      CallsStepTable(exec, c, l);
    }
  }

  lemma SubmitRegistersLineage(exec: Task -> Bytes, c: State, l: Label)
    requires l.Submit?
    ensures Next(exec, c, l).table == Step(c.table, Lineage(LineageRequest(l.uid, l.req)))
  {
  }

  lemma CallsStepTable(exec: Task -> Bytes, c: State, l: Label)
    requires Enabled(c, l) && CallOf(c, l).Some? && !l.Submit?
    ensures Possible(c.table, CallOf(c, l).value) && Next(exec, c, l).table == Step(c.table, CallOf(c, l).value)
  {
    match l
    case Register(_, _, _, _) =>
    case Notify(_, _, _) =>
    case Locate(_, _, _, _) =>
    case FlushTable(_) =>
    case Report(_) =>
  }

  lemma OthersLeaveTable(exec: Task -> Bytes, c: State, l: Label)
    requires CallOf(c, l).None?
    ensures Next(exec, c, l).table == c.table
  {
  }

  // The steps that leave the readers' channels alone.
  predicate LeavesReaders(l: Label) {
    !l.GetRemote? && !l.Locate? && !l.Deliver?
  }

  ghost predicate ChannelsLeft(c: State, d: State, inbox: map<Box, seq<NodeId>>) {
    && d.requests == c.requests && d.lost == c.lost && d.inbox == inbox
    && (forall r :: Blocked(d, r) <==> Blocked(c, r))
  }

  lemma CallsLeaveReaders(exec: Task -> Bytes, c: State, l: Label)
    requires Enabled(c, l) && LeavesReaders(l) && CallOf(c, l).Some?
    ensures ChannelsLeft(c, Next(exec, c, l), Post(c.inbox, Emits(c.table, CallOf(c, l).value).callbacks))
  {
    if l.Submit? {
      SubmitLeavesReaders(exec, c, l);
    } else {
      var d := Next(exec, c, l);
      assert d.gets == c.gets && d.requests == c.requests && d.lost == c.lost;
    }
  }

  lemma SubmitLeavesReaders(exec: Task -> Bytes, c: State, l: Label)
    requires l.Submit?
    ensures ChannelsLeft(c, Next(exec, c, l), Post(c.inbox, Emits(c.table, Lineage(LineageRequest(l.uid, l.req))).callbacks))
  {
    var d := Next(exec, c, l);
    assert d.gets == c.gets && d.requests == c.requests && d.lost == c.lost;
  }

  lemma CopiesLeaveReaders(exec: Task -> Bytes, c: State, l: Label)
    requires Enabled(c, l) && (l.CopyBack? || l.CopyFails?)
    ensures ChannelsLeft(c, Next(exec, c, l), c.inbox)
  {
    assert Next(exec, c, l).gets == c.gets - {l.r};
  }

  predicate SameReaders(c: State, d: State) {
    d.gets == c.gets && d.requests == c.requests && d.lost == c.lost && d.inbox == c.inbox
  }

  lemma WorkLeavesReaders(exec: Task -> Bytes, c: State, l: Label)
    requires LeavesReaders(l) && CallOf(c, l).None? && !l.CopyBack? && !l.CopyFails?
    ensures ChannelsLeft(c, Next(exec, c, l), c.inbox)
  {
    var d := Next(exec, c, l);
    if l.Place? || l.Register? || l.Execute? || l.Drop? {
      assert SameReaders(c, d);
    } else if l.Write? || l.Finish? || l.GetLocal? {
      assert SameReaders(c, d);
    } else {
      assert SameReaders(c, d);
    }
  }

  lemma OthersLeaveReaders(exec: Task -> Bytes, c: State, l: Label)
    requires Enabled(c, l) && LeavesReaders(l) && CallOf(c, l).None?
    ensures ChannelsLeft(c, Next(exec, c, l), c.inbox)
  {
    if l.CopyBack? || l.CopyFails? {
      CopiesLeaveReaders(exec, c, l);
    } else {
      WorkLeavesReaders(exec, c, l);
    }
  }

  lemma StepAccounted(exec: Task -> Bytes, c: State, l: Label)
    requires Accounted(c) && Enabled(c, l)
    ensures Accounted(Next(exec, c, l))
  {
    var d := Next(exec, c, l);
    if l.GetRemote? {
      GetRemoteAccounted(exec, c, l);
    } else if l.Locate? {
      LocateAccounted(exec, c, l);
    } else if l.Deliver? {
      DeliverAccounted(exec, c, l);
    } else {
      ReadersLeftAccounted(exec, c, l);
    }
  }

  lemma ReadersLeftAccounted(exec: Task -> Bytes, c: State, l: Label)
    requires Accounted(c) && Enabled(c, l) && LeavesReaders(l)
    ensures Accounted(Next(exec, c, l))
  {
    TableFollowsCalls(exec, c, l);
    if CallOf(c, l).Some? {
      CallsLeaveReaders(exec, c, l);
      QuietCallAccounted(c, Next(exec, c, l), CallOf(c, l).value);
    } else {
      OthersLeaveReaders(exec, c, l);
      SameAccount(c, Next(exec, c, l));
    }
  }

  // -------------------------------------------------------------- all of a run

  lemma StartInv(exec: Task -> Bytes)
    ensures Inv(exec, START)
  {
    forall r ensures Account(START, r) == 0 {
      assert Waiters(START.table, r.uid) == [];
    }
  }

  lemma StepInv(exec: Task -> Bytes, c: State, l: Label)
    requires Inv(exec, c) && Enabled(c, l)
    ensures Inv(exec, Next(exec, c, l))
  {
    StepSound(exec, c, l);
    StepAccounted(exec, c, l);
    TableFollowsCalls(exec, c, l);
    if CallOf(c, l).Some? {
      TableRuns.StepInv(c.table, CallOf(c, l).value);
    }
  }

  // The invariant holds in every state of every run.
  lemma {:induction false} RunInv(exec: Task -> Bytes, cs: seq<State>, ls: seq<Label>, k: nat)
    requires IsRun(exec, cs, ls) && k < |cs|
    ensures Inv(exec, cs[k])
  {
    if k == 0 {
      StartInv(exec);
    } else {
      RunInv(exec, cs, ls, k - 1);
      assert StepAt(exec, cs, ls, k - 1);
      StepInv(exec, cs[k - 1], ls[k - 1]);
    }
  }
}
