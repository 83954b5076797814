// go/cmd/globalscheduler/main.go: heartbeats, the live-node report, and the
// choice of a worker. Times are in milliseconds; costs are exact reals.
module GlobalScheduler {
  import opened Types
  import opened Collections

  const LIVE_NODE_TIMEOUT: nat := 400
  const HEARTBEAT_WAIT: nat := 100
  const MAX_CONCURRENT_TASKS: nat := 10

  const TWO_TO_THE_32: nat := 0x1_0000_0000
  const TWO_TO_THE_64: nat := 0x1_0000_0000_0000_0000

  // math.MaxFloat32, the bound that the first cost has to beat.
  const MAX_FLOAT32: real := 340282346638528859811704183484516925440.0

  datatype HeartbeatEntry = HeartbeatEntry(
    timeReceived: nat, numRunningTasks: nat, numQueuedTasks: nat, avgRunningTime: real, avgBandwidth: real)

  type Status = map<NodeId, HeartbeatEntry>

  predicate IsFresh(now: nat, h: HeartbeatEntry) {
    now - h.timeReceived < LIVE_NODE_TIMEOUT
  }

  predicate NodeIsLive(now: nat, status: Status, n: NodeId) {
    n in status && IsFresh(now, status[n])
  }

  function LiveNodes(now: nat, status: Status): map<NodeId, bool> {
    map n | n in status :: IsFresh(now, status[n])
  }

  // ------------------------------------------------------------ bytes by node

  // The bytes that a list of locations accounts for at one node, and in all: the
  // size of the object for each time the node is listed.
  function BytesIn(nodes: seq<NodeId>, bytes: nat, n: NodeId): nat {
    if nodes == [] then 0
    else BytesIn(nodes[..|nodes| - 1], bytes, n) + if nodes[|nodes| - 1] == n then bytes else 0
  }

  function BytesInAll(nodes: seq<NodeId>, bytes: nat): nat {
    if nodes == [] then 0 else BytesInAll(nodes[..|nodes| - 1], bytes) + bytes
  }

  function EntryBytes(locs: map<Uid, LocationByteTuple>, u: Uid, n: NodeId): nat {
    if u in locs then BytesIn(locs[u].locations, locs[u].bytes, n) else 0
  }

  function EntryTotal(locs: map<Uid, LocationByteTuple>, u: Uid): nat {
    if u in locs then BytesInAll(locs[u].locations, locs[u].bytes) else 0
  }

  // The argument bytes recorded at a node, and those recorded anywhere, over the
  // objects in `done`; a node recorded twice counts twice.
  ghost function BytesOver(done: set<Uid>, locs: map<Uid, LocationByteTuple>, n: NodeId): nat {
    Sum(done, u => EntryBytes(locs, u, n))
  }

  ghost function TotalOver(done: set<Uid>, locs: map<Uid, LocationByteTuple>): nat {
    Sum(done, u => EntryTotal(locs, u))
  }

  ghost function BytesAt(locs: map<Uid, LocationByteTuple>, n: NodeId): nat {
    BytesOver(locs.Keys, locs, n)
  }

  ghost function TotalBytes(locs: map<Uid, LocationByteTuple>): nat {
    TotalOver(locs.Keys, locs)
  }

  lemma {:induction false} ListAddsUp(nodes: seq<NodeId>, bytes: nat, all: set<NodeId>)
    requires Elements(nodes) <= all
    ensures Sum(all, n => BytesIn(nodes, bytes, n)) == BytesInAll(nodes, bytes)
  {
    if nodes == [] {
      SumAgree(all, n => BytesIn(nodes, bytes, n), n => 0);
      SumOfZeros(all);
    } else {
      var last, rest := nodes[|nodes| - 1], nodes[..|nodes| - 1];
      assert last in Elements(nodes);
      ListAddsUp(rest, bytes, all);
      SumBump(all, n => BytesIn(rest, bytes, n), n => BytesIn(nodes, bytes, n), last, bytes);
    }
  }

  lemma {:induction false} SumOfZeros<T(!new)>(s: set<T>)
    ensures Sum(s, (x: T) => 0) == 0
    decreases |s|
  {
    if s != {} {
      var x :| x in s;
      SumSplit(s, (x: T) => 0, x);
      SumOfZeros(s - {x});
    }
  }

  lemma {:induction false} SumPlus<T(!new)>(s: set<T>, f: T -> nat, g: T -> nat, h: T -> nat)
    requires forall x :: x in s ==> h(x) == f(x) + g(x)
    ensures Sum(s, h) == Sum(s, f) + Sum(s, g)
    decreases |s|
  {
    if s != {} {
      var x :| x in s;
      SumSplit(s, f, x);
      SumSplit(s, g, x);
      SumSplit(s, h, x);
      SumPlus(s - {x}, f, g, h);
    }
  }

  // The bytes of the nodes add up to the total, counting every node that is
  // recorded, whether or not it has ever sent a heartbeat.
  lemma {:induction false} BytesAddUp(done: set<Uid>, locs: map<Uid, LocationByteTuple>, all: set<NodeId>)
    requires forall u, n :: u in done && u in locs && n in locs[u].locations ==> n in all
    ensures Sum(all, n => BytesOver(done, locs, n)) == TotalOver(done, locs)
    decreases |done|
  {
    if done == {} {
      SumAgree(all, n => BytesOver(done, locs, n), n => 0);
      SumOfZeros(all);
    } else {
      var u :| u in done;
      var rest := done - {u};
      BytesAddUp(rest, locs, all);
      SumSplit(done, v => EntryTotal(locs, v), u);
      forall n | n in all ensures BytesOver(done, locs, n) == EntryBytes(locs, u, n) + BytesOver(rest, locs, n) {
        SumSplit(done, v => EntryBytes(locs, v, n), u);
      }
      SumPlus(all, n => EntryBytes(locs, u, n), n => BytesOver(rest, locs, n), n => BytesOver(done, locs, n));
      EntryAddsUp(locs, u, all);
    }
  }

  lemma EntryAddsUp(locs: map<Uid, LocationByteTuple>, u: Uid, all: set<NodeId>)
    requires u in locs ==> Elements(locs[u].locations) <= all
    ensures Sum(all, n => EntryBytes(locs, u, n)) == EntryTotal(locs, u)
  {
    if u in locs {
      var val := locs[u];
      ListAddsUp(val.locations, val.bytes, all);
      SumAgree(all, n => EntryBytes(locs, u, n), n => BytesIn(val.locations, val.bytes, n));
    } else {
      SumAgree(all, n => EntryBytes(locs, u, n), n => 0);
      SumOfZeros(all);
    }
  }

  ghost function RecordedNodes(locs: map<Uid, LocationByteTuple>): set<NodeId> {
    set u, n | u in locs && n in locs[u].locations :: n
  }

  // A tally that is exact at the nodes it lists, and misses none with bytes, adds
  // up to the total.
  lemma TallyAddsUp(locs: map<Uid, LocationByteTuple>, tally: map<NodeId, nat>)
    requires forall n :: n in tally ==> tally[n] == BytesAt(locs, n)
    requires forall n :: n !in tally ==> BytesAt(locs, n) == 0
    ensures Sum(tally.Keys, n => Tallied(tally, n)) == TotalBytes(locs)
  {
    var all := tally.Keys + RecordedNodes(locs);
    BytesAddUp(locs.Keys, locs, all);
    SumIgnoresZeros(tally.Keys, all, n => BytesOver(locs.Keys, locs, n));
    SumAgree(tally.Keys, n => Tallied(tally, n), n => BytesOver(locs.Keys, locs, n));
  }

  lemma {:induction false} SumIgnoresZeros<T(!new)>(s: set<T>, all: set<T>, f: T -> nat)
    requires s <= all && forall x :: x in all && x !in s ==> f(x) == 0
    ensures Sum(all, f) == Sum(s, f)
    decreases |all|
  {
    if s == all {
    } else {
      var x :| x in all && x !in s;
      SumSplit(all, f, x);
      SumIgnoresZeros(s, all - {x}, f);
    }
  }

  // No node holds more than the total, so what it misses is not negative.
  lemma BytesWithinTotal(locs: map<Uid, LocationByteTuple>, n: NodeId)
    ensures BytesAt(locs, n) <= TotalBytes(locs)
  {
    SumMonotone(locs.Keys, u => EntryBytes(locs, u, n), u => EntryTotal(locs, u), locs, n);
  }

  lemma {:induction false} SumMonotone(s: set<Uid>, f: Uid -> nat, g: Uid -> nat, locs: map<Uid, LocationByteTuple>, n: NodeId)
    requires forall u :: u in s ==> f(u) == EntryBytes(locs, u, n) && g(u) == EntryTotal(locs, u)
    ensures Sum(s, f) <= Sum(s, g)
    decreases |s|
  {
    if s != {} {
      var u :| u in s;
      SumSplit(s, f, u);
      SumSplit(s, g, u);
      if u in locs {
        NodeWithinList(locs[u].locations, locs[u].bytes, n);
      }
      SumMonotone(s - {u}, f, g, locs, n);
    }
  }

  lemma {:induction false} NodeWithinList(nodes: seq<NodeId>, bytes: nat, n: NodeId)
    ensures BytesIn(nodes, bytes, n) <= BytesInAll(nodes, bytes)
  {
    if nodes != [] {
      NodeWithinList(nodes[..|nodes| - 1], bytes, n);
    }
  }

  // -------------------------------------------------------------------- costs

  // uint64 arithmetic.
  function Wrap64(x: int): (r: nat)
    ensures r < TWO_TO_THE_64
  {
    x % TWO_TO_THE_64
  }

  function QueueingTime(h: HeartbeatEntry): real {
    h.numQueuedTasks as real * h.avgRunningTime
  }

  // The bytes a node is taken to miss: the difference of two wrapped sums.
  ghost function MissingBytes(locs: map<Uid, LocationByteTuple>, n: NodeId): nat {
    Wrap64(Wrap64(TotalBytes(locs)) - Wrap64(BytesAt(locs, n)))
  }

  // Below 2^64 the difference does not underflow and is exact; above, it is exact
  // modulo 2^64.
  lemma MissingBytesExact(locs: map<Uid, LocationByteTuple>, n: NodeId)
    ensures BytesAt(locs, n) <= TotalBytes(locs)
    ensures MissingBytes(locs, n) == Wrap64(TotalBytes(locs) - BytesAt(locs, n))
    ensures TotalBytes(locs) < TWO_TO_THE_64 ==> MissingBytes(locs, n) == TotalBytes(locs) - BytesAt(locs, n)
  {
    BytesWithinTotal(locs, n);
    WrapDifference(TotalBytes(locs), BytesAt(locs, n));
  }

  lemma WrapDifference(a: nat, b: nat)
    ensures Wrap64(Wrap64(a) - Wrap64(b)) == Wrap64(a - b)
    ensures b <= a < TWO_TO_THE_64 ==> Wrap64(a - b) == a - b
  {
    var qa, qb := a / TWO_TO_THE_64, b / TWO_TO_THE_64;
    assert a - b == (Wrap64(a) - Wrap64(b)) + (qa - qb) * TWO_TO_THE_64;
    WrapShift(Wrap64(a) - Wrap64(b), qa - qb);
  }

  lemma WrapShift(x: int, k: int)
    ensures Wrap64(x + k * TWO_TO_THE_64) == Wrap64(x)
  {
    var q := x / TWO_TO_THE_64;
    assert x + k * TWO_TO_THE_64 == Wrap64(x) + (q + k) * TWO_TO_THE_64;
  }

  // The sums in other words: what each listing of a node is worth, and all of them.
  lemma {:induction false} BytesInIs(nodes: seq<NodeId>, bytes: nat, n: NodeId)
    ensures BytesIn(nodes, bytes, n) == multiset(nodes)[n] * bytes
    ensures BytesInAll(nodes, bytes) == |nodes| * bytes
  {
    if nodes != [] {
      var rest: seq<NodeId>, last := nodes[..|nodes| - 1], nodes[|nodes| - 1];
      BytesInIs(rest, bytes, n);
      assert nodes == rest + [last];
      assert multiset(nodes)[n] == multiset(rest)[n] + if last == n then 1 else 0;
      Distribute(multiset(rest)[n], if last == n then 1 else 0, bytes);
      Distribute(|rest|, 1, bytes);
    }
  }

  lemma Distribute(a: nat, b: nat, c: nat)
    ensures (a + b) * c == a * c + b * c
  {
  }

  // Each object adds its size once for each time that it is listed.
  lemma BytesAtSplit(locs: map<Uid, LocationByteTuple>, u: Uid, n: NodeId)
    requires u in locs
    ensures BytesAt(locs, n) == multiset(locs[u].locations)[n] * locs[u].bytes + BytesAt(locs - {u}, n)
    ensures TotalBytes(locs) == |locs[u].locations| * locs[u].bytes + TotalBytes(locs - {u})
  {
    var rest := locs - {u};
    assert rest.Keys == locs.Keys - {u};
    SumSplit(locs.Keys, v => EntryBytes(locs, v, n), u);
    SumSplit(locs.Keys, v => EntryTotal(locs, v), u);
    SumAgree(rest.Keys, v => EntryBytes(locs, v, n), v => EntryBytes(rest, v, n));
    SumAgree(rest.Keys, v => EntryTotal(locs, v), v => EntryTotal(rest, v));
    BytesInIs(locs[u].locations, locs[u].bytes, n);
  }

  // A node that is listed for one object only, and once, has that object's bytes.
  lemma ListedOnceCountsOnce(locs: map<Uid, LocationByteTuple>, u: Uid, n: NodeId)
    requires u in locs && multiset(locs[u].locations)[n] == 1
    requires forall v :: v in locs && v != u ==> n !in locs[v].locations
    ensures BytesAt(locs, n) == locs[u].bytes
  {
    BytesAtSplit(locs, u, n);
    UnlistedHasNone(locs - {u}, n);
  }

  lemma {:induction false} UnlistedHasNone(locs: map<Uid, LocationByteTuple>, n: NodeId)
    requires forall v :: v in locs ==> n !in locs[v].locations
    ensures BytesAt(locs, n) == 0
    decreases |locs.Keys|
  {
    if v :| v in locs {
      assert (locs - {v}).Keys == locs.Keys - {v};
      BytesAtSplit(locs, v, n);
      assert multiset(locs[v].locations)[n] == 0;
      UnlistedHasNone(locs - {v}, n);
    } else {
      assert locs.Keys == {};
    }
  }

  // math.MaxFloat32 is (2^24 - 1) * 2^104.
  lemma MaxFloat32Is()
    ensures MAX_FLOAT32 == (0x100_0000 - 1) as real * 0x1_0000_0000_0000_0000_0000_0000_00 as real
  {
  }

  // The waiting time of a node when its argument bytes count. Dividing by a zero
  // bandwidth gives an infinity or no number, neither of which is ever smaller
  // than the best so far.
  function LocalityCost(h: HeartbeatEntry, missing: nat): Option<real> {
    if h.avgBandwidth == 0.0 then None else Some(QueueingTime(h) + missing as real / h.avgBandwidth)
  }

  // The costs of the live nodes; `locs` is the answer of the object table when
  // locality counts.
  ghost function Costs(now: nat, status: Status, locs: Option<map<Uid, LocationByteTuple>>): map<NodeId, real> {
    if locs.None? then
      map n | n in status && IsFresh(now, status[n]) :: QueueingTime(status[n])
    else
      map n | n in status && IsFresh(now, status[n]) && status[n].avgBandwidth != 0.0 ::
        LocalityCost(status[n], MissingBytes(locs.value, n)).value
  }

  // The outcome that is right for a cost table: a cheapest node that beats the
  // initial bound, or a failure when there is none.
  ghost predicate IsBest(costs: map<NodeId, real>, best: Option<NodeId>) {
    match best
    case None => forall n :: n in costs ==> MAX_FLOAT32 <= costs[n]
    case Some(b) => b in costs && costs[b] < MAX_FLOAT32 && forall n :: n in costs ==> costs[b] <= costs[n]
  }

  // The node that Schedule may send a request to: the pinned one, or a best one.
  // The object table is asked when locality counts and there are arguments.
  ghost predicate Chosen(now: nat, status: Status, req: Request, locs: Option<map<Uid, LocationByteTuple>>, n: NodeId) {
    if req.nodeId != 0 then n == req.nodeId
    else
      && (locs.Some? <==> req.localityFlag && req.uids != [])
      && IsBest(Costs(now, status, locs), Some(n))
  }

  // Of the nodes that can be reached at all and were heard of in the last 400 ms,
  // the chosen one has the least queueing time and transfer time of what it misses.
  lemma BestWaitsLeast(now: nat, status: Status, locs: map<Uid, LocationByteTuple>, b: NodeId, n: NodeId)
    requires IsBest(Costs(now, status, Some(locs)), Some(b)) && TotalBytes(locs) < 0x1_0000_0000_0000_0000
    requires n in status && now - status[n].timeReceived < 400 && status[n].avgBandwidth != 0.0
    ensures b in status && now - status[b].timeReceived < 400 && status[b].avgBandwidth != 0.0
    ensures status[b].numQueuedTasks as real * status[b].avgRunningTime
              + (TotalBytes(locs) - BytesAt(locs, b)) as real / status[b].avgBandwidth
            <= status[n].numQueuedTasks as real * status[n].avgRunningTime
               + (TotalBytes(locs) - BytesAt(locs, n)) as real / status[n].avgBandwidth
  {
    var costs := Costs(now, status, Some(locs));
    MissingBytesExact(locs, b);
    MissingBytesExact(locs, n);
    assert b in costs && n in costs && costs[b] <= costs[n];
  }

  // Where no bytes count, the chosen one has the shortest queue in time.
  lemma BestQueuesLeast(now: nat, status: Status, b: NodeId, n: NodeId)
    requires IsBest(Costs(now, status, None), Some(b))
    requires n in status && now - status[n].timeReceived < 400
    ensures b in status && now - status[b].timeReceived < 400
    ensures status[b].numQueuedTasks as real * status[b].avgRunningTime
            <= status[n].numQueuedTasks as real * status[n].avgRunningTime
  {
    var costs := Costs(now, status, None);
    assert b in costs && n in costs && costs[b] <= costs[n];
  }

  // Node b waits no longer than node n would.
  ghost predicate WaitsNoLonger(locs: map<Uid, LocationByteTuple>, status: Status, b: NodeId, n: NodeId)
    requires b in status && status[b].avgBandwidth != 0.0 && n in status && status[n].avgBandwidth != 0.0
  {
    status[b].numQueuedTasks as real * status[b].avgRunningTime
      + (TotalBytes(locs) - BytesAt(locs, b)) as real / status[b].avgBandwidth
    <= status[n].numQueuedTasks as real * status[n].avgRunningTime
       + (TotalBytes(locs) - BytesAt(locs, n)) as real / status[n].avgBandwidth
  }

  ghost predicate WaitsLeast(now: nat, status: Status, locs: map<Uid, LocationByteTuple>, b: NodeId) {
    && b in status && now - status[b].timeReceived < 400 && status[b].avgBandwidth != 0.0
    && forall n :: n in status && now - status[n].timeReceived < 400 && status[n].avgBandwidth != 0.0 ==>
                     WaitsNoLonger(locs, status, b, n)
  }

  ghost predicate QueuesNoLonger(status: Status, b: NodeId, n: NodeId)
    requires b in status && n in status
  {
    status[b].numQueuedTasks as real * status[b].avgRunningTime
    <= status[n].numQueuedTasks as real * status[n].avgRunningTime
  }

  ghost predicate QueuesLeast(now: nat, status: Status, b: NodeId) {
    && b in status && now - status[b].timeReceived < 400
    && forall n :: n in status && now - status[n].timeReceived < 400 ==> QueuesNoLonger(status, b, n)
  }

  lemma LeastOfAll(now: nat, status: Status, locs: map<Uid, LocationByteTuple>, b: NodeId)
    requires IsBest(Costs(now, status, Some(locs)), Some(b)) && TotalBytes(locs) < 0x1_0000_0000_0000_0000
    ensures WaitsLeast(now, status, locs, b)
  {
    assert b in Costs(now, status, Some(locs));
    forall n | n in status && now - status[n].timeReceived < 400 && status[n].avgBandwidth != 0.0
      ensures WaitsNoLonger(locs, status, b, n)
    {
      BestWaitsLeast(now, status, locs, b, n);
    }
  }

  lemma ShortestOfAll(now: nat, status: Status, b: NodeId)
    requires IsBest(Costs(now, status, None), Some(b))
    ensures QueuesLeast(now, status, b)
  {
    assert b in Costs(now, status, None);
    forall n | n in status && now - status[n].timeReceived < 400 ensures QueuesNoLonger(status, b, n) {
      BestQueuesLeast(now, status, b, n);
    }
  }

  // A best node is live, whatever the bandwidths and costs are.
  lemma BestIsLive(now: nat, status: Status, locs: Option<map<Uid, LocationByteTuple>>, n: NodeId)
    requires IsBest(Costs(now, status, locs), Some(n))
    ensures NodeIsLive(now, status, n)
  {
    assert n in Costs(now, status, locs);
  }

  // There is a best node exactly if some cost beats the initial bound.
  lemma BestExistsIff(costs: map<NodeId, real>)
    ensures (exists b :: IsBest(costs, Some(b))) <==> exists n :: n in costs && costs[n] < MAX_FLOAT32
  {
    if n :| n in costs && costs[n] < MAX_FLOAT32 {
      var b := Cheapest(costs, costs.Keys, n);
      assert IsBest(costs, Some(b));
    }
    if b :| IsBest(costs, Some(b)) {
      assert b in costs && costs[b] < MAX_FLOAT32;
    }
  }

  lemma {:induction false} Cheapest(costs: map<NodeId, real>, keys: set<NodeId>, n: NodeId) returns (b: NodeId)
    requires keys <= costs.Keys && n in costs
    ensures b in costs && costs[b] <= costs[n] && forall m :: m in keys ==> costs[b] <= costs[m]
    decreases |keys|
  {
    if keys == {} {
      b := n;
    } else {
      var m :| m in keys;
      b := Cheapest(costs, keys - {m}, n);
      if costs[m] < costs[b] {
        b := m;
      }
    }
  }

  // With positive bandwidths and costs below the bound, scheduling fails exactly
  // when no node is live, and otherwise picks a live node.
  lemma FailsIffNoNodeIsLive(now: nat, status: Status, locs: Option<map<Uid, LocationByteTuple>>, best: Option<NodeId>)
    requires IsBest(Costs(now, status, locs), best)
    requires forall n :: n in status ==> status[n].avgBandwidth > 0.0
    requires forall n :: n in Costs(now, status, locs) ==> Costs(now, status, locs)[n] < MAX_FLOAT32
    ensures best.None? <==> forall n :: !NodeIsLive(now, status, n)
    ensures best.Some? ==> NodeIsLive(now, status, best.value)
  {
    forall n ensures n in Costs(now, status, locs) <==> NodeIsLive(now, status, n) {
    }
    if best.None? {
      forall n ensures !NodeIsLive(now, status, n) {
        assert n !in Costs(now, status, locs);
      }
    }
  }

  // With equal queueing and equal positive bandwidth, the node that is picked has
  // the most argument bytes of all live nodes.
  lemma MostBytesWin(now: nat, status: Status, locs: map<Uid, LocationByteTuple>, b: NodeId, n: NodeId)
    requires IsBest(Costs(now, status, Some(locs)), Some(b)) && NodeIsLive(now, status, n)
    requires TotalBytes(locs) < TWO_TO_THE_64
    requires status[b].avgBandwidth == status[n].avgBandwidth > 0.0
    requires QueueingTime(status[b]) == QueueingTime(status[n])
    ensures BytesAt(locs, n) <= BytesAt(locs, b)
  {
    MissingBytesExact(locs, n);
    MissingBytesExact(locs, b);
    var w := status[b].avgBandwidth;
    assert n in Costs(now, status, Some(locs));
    assert MissingBytes(locs, b) as real / w <= MissingBytes(locs, n) as real / w;
    DivisionOrder(MissingBytes(locs, b) as real, MissingBytes(locs, n) as real, w);
  }

  lemma DivisionOrder(x: real, y: real, w: real)
    requires w > 0.0 && x / w <= y / w
    ensures x <= y
  {
    assert x == (x / w) * w && y == (y / w) * w;
  }

  // When no argument bytes are recorded, counting locality changes no cost.
  lemma BranchesAgreeWithoutBytes(now: nat, status: Status, locs: map<Uid, LocationByteTuple>)
    requires TotalBytes(locs) == 0
    requires forall n :: n in status ==> status[n].avgBandwidth != 0.0
    ensures Costs(now, status, Some(locs)) == Costs(now, status, None)
  {
    forall n | n in status ensures LocalityCost(status[n], MissingBytes(locs, n)) == Some(QueueingTime(status[n])) {
      MissingBytesExact(locs, n);
      ZeroOver(status[n].avgBandwidth);
    }
  }

  lemma ZeroOver(w: real)
    requires w != 0.0
    ensures 0.0 / w == 0.0
  {
  }

  // ------------------------------------------------------------------- server

  class Server {
    var status: Status

    constructor ()
      ensures status == map[]
    {
      status := map[];
    }

    // A full node waits for one task more than it has queued.
    method Heartbeat(now: nat, nodeId: NodeId, runningTasks: nat, queuedTasks: nat, avgRunningTime: real, avgBandwidth: real)
      modifies this
      ensures forall n :: n in status <==> n in old(status) || n == nodeId
      ensures forall n :: n in old(status) && n != nodeId ==> status[n] == old(status)[n]
      ensures NodeIsLive(now, status, nodeId) && status[nodeId].timeReceived == now
      ensures status[nodeId].numQueuedTasks ==
              if runningTasks == 10 then (queuedTasks + 1) % 0x1_0000_0000 else queuedTasks
      ensures QueueingTime(status[nodeId]) == status[nodeId].numQueuedTasks as real * avgRunningTime
      ensures status[nodeId].avgRunningTime == avgRunningTime
      ensures status[nodeId].numRunningTasks == runningTasks && status[nodeId].avgBandwidth == avgBandwidth
    {
      var numQueuedTasks := queuedTasks;
      if runningTasks == MAX_CONCURRENT_TASKS {
        numQueuedTasks := (numQueuedTasks + 1) % TWO_TO_THE_32;
      }
      status := status[nodeId := HeartbeatEntry(now, runningTasks, numQueuedTasks, avgRunningTime, avgBandwidth)];
    }

    method SendLiveNodes(now: nat) returns (liveNodes: map<NodeId, bool>)
      ensures liveNodes == LiveNodes(now, status)
      ensures forall n :: n in liveNodes <==> n in status
      ensures forall n :: n in liveNodes ==> (liveNodes[n] <==> now - status[n].timeReceived < 400)
    {
      liveNodes := map[];
      var todo := status.Keys;
      while todo != {}
        invariant todo <= status.Keys
        invariant liveNodes == map n | n in status && n !in todo :: IsFresh(now, status[n])
      {
        var uid :| uid in todo;
        liveNodes := liveNodes[uid := IsFresh(now, status[uid])];
        todo := todo - {uid};
      }
    }

    // Adds up the bytes of every location of every object.
    method TallyBytes(locs: map<Uid, LocationByteTuple>) returns (locationToBytes: map<NodeId, nat>, total: nat)
      ensures total == Wrap64(TotalBytes(locs))
      ensures forall n :: n in status ==> n in locationToBytes
      ensures forall n :: n in locationToBytes ==> locationToBytes[n] == Wrap64(BytesAt(locs, n))
      ensures forall n :: n !in locationToBytes ==> BytesAt(locs, n) == 0
      ensures TotalBytes(locs) < TWO_TO_THE_64 ==>
                total == TotalBytes(locs) && Sum(locationToBytes.Keys, n => Tallied(locationToBytes, n)) == total
    {
      locationToBytes, total := map n | n in status :: 0, 0;
      ghost var done: set<Uid> := {};
      var todo := locs.Keys;
      while todo != {}
        invariant todo <= locs.Keys && done == locs.Keys - todo
        invariant total == Wrap64(TotalOver(done, locs))
        invariant forall n :: n in status ==> n in locationToBytes
        invariant TallyOver(done, locs, locationToBytes)
      {
        var uid :| uid in todo;
        ghost var before := locationToBytes;
        locationToBytes, total := AddEntry(locationToBytes, total, locs[uid]);
        OneMore(done, uid, locs);
        OneMoreEverywhere(done, uid, locs, before, locationToBytes);
        done, todo := done + {uid}, todo - {uid};
      }
      assert done == locs.Keys;
      forall n | n in locationToBytes ensures locationToBytes[n] == Wrap64(BytesAt(locs, n)) {
        assert Tallied(locationToBytes, n) == locationToBytes[n];
      }
      ExactTally(locs, locationToBytes);
    }

    // One object's share: its bytes are added once for each recorded location.
    method AddEntry(locationToBytes: map<NodeId, nat>, total: nat, val: LocationByteTuple)
      returns (tally: map<NodeId, nat>, sum: nat)
      requires total < TWO_TO_THE_64 && forall n :: Tallied(locationToBytes, n) < TWO_TO_THE_64
      ensures sum == Wrap64(total + BytesInAll(val.locations, val.bytes))
      ensures locationToBytes.Keys <= tally.Keys
      ensures TallyIs(locationToBytes, tally, val.locations, val.bytes)
    {
      tally, sum := locationToBytes, total;
      var locs := val.locations;
      for i := 0 to |locs|
        invariant sum == Wrap64(total + BytesInAll(locs[..i], val.bytes))
        invariant locationToBytes.Keys <= tally.Keys
        invariant TallyIs(locationToBytes, tally, locs[..i], val.bytes)
      {
        assert locs[..i + 1] == locs[..i] + [locs[i]];
        ListGrows(locationToBytes, tally, total, locs[..i], locs[i], val.bytes);
        tally := tally[locs[i] := Wrap64(Tallied(tally, locs[i]) + val.bytes)];
        sum := Wrap64(sum + val.bytes);
      }
      assert locs[..|locs|] == locs;
    }

    // The node that a request goes to; None stands for the scheduler giving up.
    method Schedule(now: nat, req: Request, locs: map<Uid, LocationByteTuple>) returns (node: Option<NodeId>)
      ensures var asked := if req.localityFlag && req.uids != [] then Some(locs) else None;
              match node
              case Some(n) => Chosen(now, status, req, asked, n)
              case None => forall n :: !Chosen(now, status, req, asked, n)
      ensures req.nodeId != 0 ==> node == Some(req.nodeId)
      ensures req.nodeId == 0 && node.Some? && req.localityFlag && req.uids != [] && TotalBytes(locs) < 0x1_0000_0000_0000_0000 ==>
                WaitsLeast(now, status, locs, node.value)
      ensures req.nodeId == 0 && node.Some? && !(req.localityFlag && req.uids != []) ==> QueuesLeast(now, status, node.value)
    {
      if req.nodeId == 0 {
        node := GetBestWorker(now, req.localityFlag, req.uids, locs);
      } else {
        node := Some(req.nodeId);
      }
    }

    // The worker to run a task on; None stands for the scheduler giving up.
    method GetBestWorker(now: nat, localityFlag: bool, uids: seq<Uid>, locs: map<Uid, LocationByteTuple>)
      returns (best: Option<NodeId>)
      ensures IsBest(Costs(now, status, if localityFlag && uids != [] then Some(locs) else None), best)
      ensures best.Some? && localityFlag && uids != [] && TotalBytes(locs) < 0x1_0000_0000_0000_0000 ==>
                WaitsLeast(now, status, locs, best.value)
      ensures best.Some? && !(localityFlag && uids != []) ==> QueuesLeast(now, status, best.value)
    {
      if localityFlag && uids != [] {
        best := CheapestWithLocality(now, locs);
      } else {
        best := CheapestQueue(now);
      }
    }

    // The keys are walked in an arbitrary order, as the shuffle makes them.
    method CheapestWithLocality(now: nat, locs: map<Uid, LocationByteTuple>) returns (best: Option<NodeId>)
      ensures IsBest(Costs(now, status, Some(locs)), best)
      ensures best.Some? && TotalBytes(locs) < 0x1_0000_0000_0000_0000 ==> WaitsLeast(now, status, locs, best.value)
    {
      var minId: NodeId, minTime, foundBest := 0, MAX_FLOAT32, false;
      ghost var costs := Costs(now, status, Some(locs));
      var locationToBytes, total := TallyBytes(locs);
      var keys := status.Keys;
      while keys != {}
        invariant keys <= status.Keys
        invariant if foundBest then minId in costs && costs[minId] == minTime < MAX_FLOAT32 else minTime == MAX_FLOAT32
        invariant forall n :: n in costs && n !in keys ==> minTime <= costs[n]
      {
        var loc :| loc in keys;
        keys := keys - {loc};
        var heartbeat := status[loc];
        if IsFresh(now, heartbeat) {
          var bytes: int := locationToBytes[loc];
          var missing := Wrap64(total - bytes);
          MissingIs(locs, loc, total, bytes);
          var waitingTime := LocalityCost(heartbeat, missing);
          assert loc in costs <==> waitingTime.Some?;
          if waitingTime.Some? && waitingTime.value < minTime {
            minTime, minId, foundBest := waitingTime.value, loc, true;
          }
        }
      }
      best := if foundBest then Some(minId) else None;
      if foundBest && TotalBytes(locs) < 0x1_0000_0000_0000_0000 {
        LeastOfAll(now, status, locs, minId);
      }
    }

    method CheapestQueue(now: nat) returns (best: Option<NodeId>)
      ensures IsBest(Costs(now, status, None), best)
      ensures best.Some? ==> QueuesLeast(now, status, best.value)
    {
      var minId: NodeId, minTime, foundBest := 0, MAX_FLOAT32, false;
      ghost var costs := Costs(now, status, None);
      var keys := status.Keys;
      while keys != {}
        invariant keys <= status.Keys
        invariant if foundBest then minId in costs && costs[minId] == minTime < MAX_FLOAT32 else minTime == MAX_FLOAT32
        invariant forall n :: n in costs && n !in keys ==> minTime <= costs[n]
      {
        var id :| id in keys;
        keys := keys - {id};
        var heartbeat := status[id];
        if IsFresh(now, heartbeat) {
          assert id in costs;
          var queueingTime := QueueingTime(heartbeat);
          if queueingTime < minTime {
            minId, minTime, foundBest := id, queueingTime, true;
          }
        }
      }
      best := if foundBest then Some(minId) else None;
      if foundBest {
        ShortestOfAll(now, status, minId);
      }
    }
  }

  // A missing map entry reads as zero.
  function Tallied(tally: map<NodeId, nat>, n: NodeId): nat {
    if n in tally then tally[n] else 0
  }

  lemma WrapSum(a: nat, b: nat)
    ensures Wrap64(Wrap64(a) + b) == Wrap64(a + b)
    ensures Wrap64(Wrap64(a) + Wrap64(b)) == Wrap64(a + b)
  {
    var qa, qb := a / TWO_TO_THE_64, b / TWO_TO_THE_64;
    assert a + b == Wrap64(a) + b + qa * TWO_TO_THE_64;
    WrapShift(Wrap64(a) + b, qa);
    assert a + b == Wrap64(a) + Wrap64(b) + (qa + qb) * TWO_TO_THE_64;
    WrapShift(Wrap64(a) + Wrap64(b), qa + qb);
  }

  // What a tally has become after the locations in a list have been added to it.
  ghost predicate TallyIs(start: map<NodeId, nat>, tally: map<NodeId, nat>, nodes: seq<NodeId>, bytes: nat) {
    && (forall n :: Tallied(tally, n) == Wrap64(Tallied(start, n) + BytesIn(nodes, bytes, n)))
    && (forall n :: n !in tally ==> BytesIn(nodes, bytes, n) == 0)
  }

  ghost predicate TallyOver(done: set<Uid>, locs: map<Uid, LocationByteTuple>, tally: map<NodeId, nat>) {
    && (forall n :: Tallied(tally, n) == Wrap64(BytesOver(done, locs, n)))
    && (forall n :: n !in tally ==> BytesOver(done, locs, n) == 0)
  }

  lemma ListGrows(start: map<NodeId, nat>, tally: map<NodeId, nat>, total: nat, nodes: seq<NodeId>, loc: NodeId, bytes: nat)
    requires TallyIs(start, tally, nodes, bytes)
    ensures TallyIs(start, tally[loc := Wrap64(Tallied(tally, loc) + bytes)], nodes + [loc], bytes)
    ensures Wrap64(Wrap64(total + BytesInAll(nodes, bytes)) + bytes) == Wrap64(total + BytesInAll(nodes + [loc], bytes))
  {
    var more, after := nodes + [loc], tally[loc := Wrap64(Tallied(tally, loc) + bytes)];
    assert more[..|nodes|] == nodes;
    WrapSum(total + BytesInAll(nodes, bytes), bytes);
    forall n ensures Tallied(after, n) == Wrap64(Tallied(start, n) + BytesIn(more, bytes, n)) {
      NodeGrows(start, tally, nodes, loc, bytes, n);
    }
  }

  lemma NodeGrows(start: map<NodeId, nat>, tally: map<NodeId, nat>, nodes: seq<NodeId>, loc: NodeId, bytes: nat, n: NodeId)
    requires Tallied(tally, n) == Wrap64(Tallied(start, n) + BytesIn(nodes, bytes, n))
    ensures Tallied(tally[loc := Wrap64(Tallied(tally, loc) + bytes)], n) ==
            Wrap64(Tallied(start, n) + BytesIn(nodes + [loc], bytes, n))
  {
    assert (nodes + [loc])[..|nodes|] == nodes;
    WrapSum(Tallied(start, n) + BytesIn(nodes, bytes, n), bytes);
  }

  // Taking one object more into the sums.
  lemma OneMore(done: set<Uid>, uid: Uid, locs: map<Uid, LocationByteTuple>)
    requires uid !in done
    ensures TotalOver(done + {uid}, locs) == TotalOver(done, locs) + EntryTotal(locs, uid)
    ensures Wrap64(Wrap64(TotalOver(done, locs)) + EntryTotal(locs, uid)) == Wrap64(TotalOver(done + {uid}, locs))
  {
    assert done + {uid} - {uid} == done;
    SumSplit(done + {uid}, u => EntryTotal(locs, u), uid);
    WrapSum(TotalOver(done, locs), EntryTotal(locs, uid));
  }

  lemma OneMoreAt(done: set<Uid>, uid: Uid, locs: map<Uid, LocationByteTuple>, n: NodeId)
    requires uid !in done
    ensures BytesOver(done + {uid}, locs, n) == BytesOver(done, locs, n) + EntryBytes(locs, uid, n)
    ensures Wrap64(Wrap64(BytesOver(done, locs, n)) + EntryBytes(locs, uid, n)) == Wrap64(BytesOver(done + {uid}, locs, n))
  {
    assert done + {uid} - {uid} == done;
    SumSplit(done + {uid}, u => EntryBytes(locs, u, n), uid);
    WrapSum(BytesOver(done, locs, n), EntryBytes(locs, uid, n));
  }

  lemma OneMoreEverywhere(done: set<Uid>, uid: Uid, locs: map<Uid, LocationByteTuple>,
                          before: map<NodeId, nat>, after: map<NodeId, nat>)
    requires uid !in done && uid in locs && TallyOver(done, locs, before)
    requires TallyIs(before, after, locs[uid].locations, locs[uid].bytes) && before.Keys <= after.Keys
    ensures TallyOver(done + {uid}, locs, after)
  {
    forall n
      ensures Tallied(after, n) == Wrap64(BytesOver(done + {uid}, locs, n))
      ensures n !in after ==> BytesOver(done + {uid}, locs, n) == 0
    {
      OneMoreAt(done, uid, locs, n);
    }
  }

  // Below 2^64 nothing wraps, and the tally adds up.
  lemma ExactTally(locs: map<Uid, LocationByteTuple>, tally: map<NodeId, nat>)
    requires forall n :: n in tally ==> tally[n] == Wrap64(BytesAt(locs, n))
    requires forall n :: n !in tally ==> BytesAt(locs, n) == 0
    ensures TotalBytes(locs) < TWO_TO_THE_64 ==> Sum(tally.Keys, n => Tallied(tally, n)) == TotalBytes(locs)
  {
    if TotalBytes(locs) < TWO_TO_THE_64 {
      forall n | n in tally ensures tally[n] == BytesAt(locs, n) {
        BytesWithinTotal(locs, n);
      }
      TallyAddsUp(locs, tally);
    }
  }

  lemma MissingIs(locs: map<Uid, LocationByteTuple>, n: NodeId, total: nat, bytes: nat)
    requires total == Wrap64(TotalBytes(locs)) && bytes == Wrap64(BytesAt(locs, n))
    ensures Wrap64(total - bytes) == MissingBytes(locs, n)
  {
  }
}
