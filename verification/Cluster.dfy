// The whole cluster as a state machine: the object table, the object stores of
// the nodes, the schedulers and workers, and everything in flight between them.
// Tasks compute a fixed function `exec` of their fields. A call over the network
// may be lost wherever `Drop` or a failing step says so; location requests and
// callbacks are not lost.
module Cluster {
  import opened Types
  import opened ObjectTable
  import opened LocalObjectStore
  import opened LocalScheduler
  import opened GlobalScheduler

  // A client's Get of one object on one node; at most one is outstanding.
  datatype Reader = Reader(node: NodeId, uid: Uid)

  datatype GetState =
    | Waiting(copy: bool, cache: bool)           // blocked on its channel
    | Copying(location: NodeId, cache: bool)     // its Copy call is in flight

  // Where callbacks about an object to an object store arrive.
  datatype Box = Box(addr: Address, uid: Uid)

  datatype Message =
    | Placing(req: Request)                                        // Schedule, to the global scheduler
    | Registering(node: NodeId, uid: Uid, task: Task)              // RegisterGenerating, before Run
    | Running(node: NodeId, uid: Uid, task: Task)                  // Run, at a worker
    | Storing(node: NodeId, uid: Uid, bytes: Bytes, size: nat)     // bytes on their way into memory
    | Writing(node: NodeId, uid: Uid, bytes: Bytes, size: nat)     // in memory, not yet published
    | Announcing(node: NodeId, uid: Uid, size: nat)                // NotifyOwns, to the object table

  datatype State = State(
    table: Table,
    stores: map<NodeId, NodeStore>,
    status: Status,
    now: nat,
    lastReport: nat,
    silent: set<NodeId>,             // killed local schedulers: no heartbeats
    dropping: set<NodeId>,           // killed workers: results are thrown away
    net: multiset<Message>,
    gets: map<Reader, GetState>,
    requests: multiset<Reader>,      // RequestLocation calls in flight
    inbox: map<Box, seq<NodeId>>,    // LocationFound calls in flight
    lost: multiset<Reader>,          // readers whose lookup failed at the disk
    given: set<Uid>,                 // uids handed to clients
    returned: set<(Reader, Bytes)>)  // what Gets have returned

  const START := State(
    Opened({}), map[], map[], 0, 0, {}, {}, multiset{}, map[], multiset{}, map[], multiset{}, {}, {})

  function StoreOf(c: State, n: NodeId): NodeStore {
    if n in c.stores then c.stores[n] else EMPTY_STORE
  }

  predicate Holds(c: State, n: NodeId, uid: Uid) {
    Has(StoreOf(c, n), uid)
  }

  function BoxOf(r: Reader): Box {
    Box(StoreAddress(r.node), r.uid)
  }

  function Mail(inbox: map<Box, seq<NodeId>>, b: Box): seq<NodeId> {
    if b in inbox then inbox[b] else []
  }

  function Post(inbox: map<Box, seq<NodeId>>, cs: seq<Callback>): map<Box, seq<NodeId>>
    decreases cs
  {
    if cs == [] then inbox
    else
      var b := Box(cs[0].addr, cs[0].uid);
      Post(inbox[b := Mail(inbox, b) + [cs[0].node]], cs[1..])
  }

  function Placings(reqs: seq<Request>): seq<Message> {
    seq(|reqs|, i requires 0 <= i < |reqs| => Placing(reqs[i]))
  }

  function Send(c: State, m: Message): State {
    c.(net := c.net + multiset{m})
  }

  function Take(c: State, m: Message): State {
    c.(net := c.net - multiset{m})
  }

  function WithStore(c: State, n: NodeId, s: NodeStore): State {
    c.(stores := c.stores[n := s])
  }

  // The table handles a call, and what it sends is in flight.
  ghost function OnTable(c: State, e: Event): State {
    c.(table := Step(c.table, e),
       inbox := Post(c.inbox, Emits(c.table, e).callbacks),
       net := c.net + multiset(Placings(Emits(c.table, e).dispatches)))
  }

  predicate Blocked(c: State, r: Reader) {
    r in c.gets && c.gets[r].Waiting?
  }

  // A callback reaches the reader's channel.
  function Delivered(c: State, r: Reader, i: nat): State
    requires Blocked(c, r) && i < |Mail(c.inbox, BoxOf(r))|
  {
    var mail, get := Mail(c.inbox, BoxOf(r)), c.gets[r];
    c.(inbox := c.inbox[BoxOf(r) := mail[..i] + mail[i + 1..]],
       gets := if get.copy then c.gets[r := Copying(mail[i], get.cache)] else c.gets - {r})
  }

  // The Copy call comes back: an error, or the bytes that its node has published.
  function CopyReturned(c: State, r: Reader, location: NodeId, cache: bool): State {
    var answer := Copied(StoreOf(c, location), r.uid);
    c.(gets := c.gets - {r},
       returned := if answer.Ok? then c.returned + {(r, answer.value)} else c.returned,
       net := if answer.Ok? && cache then c.net + multiset{Storing(r.node, r.uid, answer.value, 0)} else c.net)
  }

  datatype Label =
    | Submit(node: NodeId, uid: Uid, req: ScheduleRequest, runningTasks: nat)
    | Place(placed: Request, node: NodeId, locs: Option<map<Uid, LocationByteTuple>>)
    | Register(node: NodeId, uid: Uid, task: Task, accepted: bool)
    | Execute(node: NodeId, uid: Uid, task: Task)
    | Drop(m: Message)
    | Write(node: NodeId, uid: Uid, bytes: Bytes, size: nat)
    | Finish(node: NodeId, uid: Uid, bytes: Bytes, size: nat)
    | Notify(node: NodeId, uid: Uid, size: nat)
    | GetLocal(r: Reader)
    | GetRemote(r: Reader, copy: bool, cache: bool)
    | Locate(r: Reader, port: nat, read: Result<seq<NodeId>>, pick: nat)
    | Deliver(r: Reader, i: nat)
    | CopyBack(r: Reader)
    | CopyFails(r: Reader)
    | FlushTable(healthy: bool)
    | Beat(node: NodeId, entry: HeartbeatEntry)
    | SetAlive(node: NodeId, beating: bool, storing: bool)
    | Tick
    | Report(order: seq<Uid>)

  function LookupEvent(l: Label): Event
    requires l.Locate?
  {
    Lookup(l.r.uid, Address(l.r.node, l.port), l.read, l.pick)
  }

  ghost predicate Enabled(c: State, l: Label) {
    match l
    case Submit(_, uid, _, _) => uid !in c.given && uid < UID_BOUND
    case Place(req, n, locs) => Placing(req) in c.net && Chosen(c.now, c.status, req, locs, n)
    case Register(n, uid, task, _) => Registering(n, uid, task) in c.net
    case Execute(n, uid, task) => Running(n, uid, task) in c.net && n !in c.dropping
    case Drop(m) => m in c.net
    case Write(n, uid, bytes, size) => Storing(n, uid, bytes, size) in c.net
    case Finish(n, uid, bytes, size) => Writing(n, uid, bytes, size) in c.net
    case Notify(n, uid, size) => Announcing(n, uid, size) in c.net
    case GetLocal(r) => Holds(c, r.node, r.uid)
    case GetRemote(r, _, _) => r.uid in c.given && r !in c.gets && !Holds(c, r.node, r.uid)
    case Locate(r, _, _, _) => r in c.requests && Possible(c.table, LookupEvent(l))
    case Deliver(r, i) => Blocked(c, r) && i < |Mail(c.inbox, BoxOf(r))|
    case CopyBack(r) => r in c.gets && c.gets[r].Copying?
    case CopyFails(r) => r in c.gets && c.gets[r].Copying?
    case FlushTable(_) => true
    case Beat(n, entry) => n !in c.silent && entry.timeReceived == c.now
    case SetAlive(_, _, _) => true
    case Tick => true
    case Report(order) => Possible(c.table, Sweep(LiveNodes(c.now, c.status), order))
  }

  ghost function Next(exec: Task -> Bytes, c: State, l: Label): State {
    match l
    case Submit(n, uid, req, running) =>
      var c1 := OnTable(c, Lineage(LineageRequest(uid, req))).(given := c.given + {uid});
      (match FirstDispatch(uid, req, running)
       case ToGlobal(r) => Send(c1, Placing(r))
       case ToLocalWorker(u, task) => Send(c1, Registering(n, u, task)))
    case Place(req, n, _) => Send(Take(c, Placing(req)), Registering(n, req.uid, req.task))
    case Register(n, uid, task, accepted) =>
      var c1 := Take(c, Registering(n, uid, task));
      Send(if accepted then OnTable(c1, Generate(uid, n)) else c1, Running(n, uid, task))
    case Execute(n, uid, task) =>
      Send(Take(c, Running(n, uid, task)), Storing(n, uid, exec(task), |exec(task)|))
    case Drop(m) => Take(c, m)
    case Write(n, uid, bytes, size) =>
      Send(WithStore(Take(c, Storing(n, uid, bytes, size)), n, WriteMemory(StoreOf(c, n), uid, bytes)),
           Writing(n, uid, bytes, size))
    case Finish(n, uid, bytes, size) =>
      Send(WithStore(Take(c, Writing(n, uid, bytes, size)), n, Publish(StoreOf(c, n), uid, |bytes|)),
           Announcing(n, uid, size))
    case Notify(n, uid, size) => OnTable(Take(c, Announcing(n, uid, size)), Announce(uid, n, size))
    case GetLocal(r) =>
      (match Copied(StoreOf(c, r.node), r.uid)
       case Ok(bytes) => c.(returned := c.returned + {(r, bytes)})
       case Err => c)
    case GetRemote(r, copy, cache) =>
      c.(gets := c.gets[r := Waiting(copy, cache)], requests := c.requests + multiset{r})
    case Locate(r, _, read, _) =>
      OnTable(c, LookupEvent(l)).(
        requests := c.requests - multiset{r},
        lost := if LookupFails(c.table, r.uid, read) then c.lost + multiset{r} else c.lost)
    case Deliver(r, i) =>
      if Blocked(c, r) && i < |Mail(c.inbox, BoxOf(r))| then Delivered(c, r, i) else c
    case CopyBack(r) =>
      if r in c.gets && c.gets[r].Copying? then CopyReturned(c, r, c.gets[r].location, c.gets[r].cache) else c
    case CopyFails(r) => c.(gets := c.gets - {r})
    case FlushTable(healthy) => OnTable(c, Flush(healthy))
    case Beat(n, entry) => c.(status := c.status[n := entry])
    case SetAlive(n, beating, storing) =>
      c.(silent := if beating then c.silent - {n} else c.silent + {n},
         dropping := if storing then c.dropping - {n} else c.dropping + {n})
    case Tick => c.(now := c.now + 1)
    case Report(order) =>
      OnTable(c, Sweep(LiveNodes(c.now, c.status), order)).(lastReport := c.now)
  }

  // Step i of `ls` may be taken in state i of `cs` and leads to the next state.
  ghost predicate StepAt(exec: Task -> Bytes, cs: seq<State>, ls: seq<Label>, i: nat)
    requires i < |ls| && i + 1 < |cs|
  {
    Enabled(cs[i], ls[i]) && cs[i + 1] == Next(exec, cs[i], ls[i])
  }

  // A run: the states `cs` that the steps `ls` lead through, from the start.
  ghost predicate IsRun(exec: Task -> Bytes, cs: seq<State>, ls: seq<Label>) {
    && |cs| == |ls| + 1
    && cs[0] == START
    && forall i: nat :: i < |ls| ==> StepAt(exec, cs, ls, i)
  }

  // Nothing but being enabled keeps a step from extending a run.
  lemma RunGoesOnIff(exec: Task -> Bytes, cs: seq<State>, ls: seq<Label>, l: Label)
    requires IsRun(exec, cs, ls)
    ensures IsRun(exec, cs + [Next(exec, cs[|ls|], l)], ls + [l]) <==> Enabled(cs[|ls|], l)
  {
    var cs', ls' := cs + [Next(exec, cs[|ls|], l)], ls + [l];
    forall i: nat | i < |ls| ensures StepAt(exec, cs', ls', i) {
      assert StepAt(exec, cs, ls, i);
    }
    assert StepAt(exec, cs', ls', |ls|) <==> Enabled(cs[|ls|], l);
  }

  // The states that some run leads to.
  ghost predicate Reachable(exec: Task -> Bytes, c: State) {
    exists cs, ls :: IsRun(exec, cs, ls) && cs[|ls|] == c
  }

  lemma StartIsReachable(exec: Task -> Bytes)
    ensures Reachable(exec, START)
  {
    assert IsRun(exec, [START], []);
  }

  lemma ReachFurther(exec: Task -> Bytes, c: State, l: Label)
    requires Reachable(exec, c) && Enabled(c, l)
    ensures Reachable(exec, Next(exec, c, l))
  {
    var cs, ls :| IsRun(exec, cs, ls) && cs[|ls|] == c;
    RunGoesOnIff(exec, cs, ls, l);
    assert IsRun(exec, cs + [Next(exec, c, l)], ls + [l]);
  }
}
