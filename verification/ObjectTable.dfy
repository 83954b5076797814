// go/cmd/gcsobjtable/main.go as functions on values: what each handler makes of
// the state of the GCS object table. GcsServer.dfy proves the imperative
// handlers against these functions; TableRuns.dfy reasons about whole runs.
module ObjectTable {
  import opened Types
  import opened Collections
  import opened LocationDatabase

  datatype Table = Table(
    locations: map<Uid, seq<NodeId>>,
    sizes: map<Uid, nat>,
    waitlist: map<Uid, seq<Address>>,
    lineage: map<Uid, Request>,
    live: map<NodeId, bool>,
    generating: map<Uid, NodeId>,
    rows: set<(Uid, NodeId)>)

  // A call of LocationFound that a handler spawns.
  datatype Callback = Callback(addr: Address, uid: Uid, node: NodeId)

  // What a handler sends: callbacks, and requests to the global scheduler.
  datatype Output = Output(callbacks: seq<Callback>, dispatches: seq<Request>)

  const SILENT := Output([], [])

  // A server that has just opened its database file.
  function Opened(rows: set<(Uid, NodeId)>): Table {
    Table(map[], map[], map[], map[], map[], map[], rows)
  }

  function Recorded(t: Table, uid: Uid): seq<NodeId> {
    if uid in t.locations then t.locations[uid] else []
  }

  function Waiters(t: Table, uid: Uid): seq<Address> {
    if uid in t.waitlist then t.waitlist[uid] else []
  }

  // Memory over disk: what the server knows about where an object is.
  function LocationSet(t: Table, uid: Uid): set<NodeId> {
    if Recorded(t, uid) != [] then Elements(Recorded(t, uid)) else RowsOf(t.rows, uid)
  }

  predicate IsLive(live: map<NodeId, bool>, n: NodeId) {
    n in live && live[n]
  }

  function NotLive(live: map<NodeId, bool>, nodes: seq<NodeId>): (r: seq<NodeId>)
    ensures forall n :: n in r <==> n in nodes && !IsLive(live, n)
  {
    if nodes == [] then []
    else
      var last := nodes[|nodes| - 1];
      NotLive(live, nodes[..|nodes| - 1]) + if IsLive(live, last) then [] else [last]
  }

  // The slice getNodeId picks from: it is created with one element, which is
  // zero, and then gets the nodes that are not live.
  function Candidates(live: map<NodeId, bool>, nodes: seq<NodeId>): seq<NodeId> {
    [0] + NotLive(live, nodes)
  }

  // The table after getNodeId has looked on disk for a uid that memory misses.
  function Fill(t: Table, uid: Uid, read: Result<seq<NodeId>>): Table {
    if Recorded(t, uid) == [] && read.Ok? then t.(locations := t.locations[uid := read.value]) else t
  }

  // The requester's ephemeral port is replaced by that of its object store.
  function ClientAddress(peer: Address): Address {
    StoreAddress(peer.host)
  }

  function Callbacks(addrs: seq<Address>, uid: Uid, node: NodeId): seq<Callback> {
    seq(|addrs|, i requires 0 <= i < |addrs| => Callback(addrs[i], uid, node))
  }

  function NotifyOwns(t: Table, uid: Uid, node: NodeId, size: nat): (Table, Output) {
    (t.(generating := t.generating - {uid},
        locations := t.locations[uid := Recorded(t, uid) + [node]],
        sizes := if uid in t.locations then t.sizes else t.sizes[uid := size],
        waitlist := t.waitlist - {uid}),
     Output(Callbacks(Waiters(t, uid), uid, node), []))
  }

  // A failed disk read is an error reply and changes nothing.
  predicate LookupFails(t: Table, uid: Uid, read: Result<seq<NodeId>>) {
    Recorded(t, uid) == [] && read.Err?
  }

  function RequestLocation(t: Table, uid: Uid, peer: Address, read: Result<seq<NodeId>>, pick: nat): (Table, Output) {
    if LookupFails(t, uid, read) then (t, SILENT)
    else
      var t1 := Fill(t, uid, read);
      if Recorded(t1, uid) == [] then
        (t1.(waitlist := t1.waitlist[uid := Waiters(t1, uid) + [ClientAddress(peer)]]), SILENT)
      else
        var from := Candidates(t1.live, Recorded(t1, uid));
        (t1, Output([Callback(ClientAddress(peer), uid, if pick < |from| then from[pick] else 0)], []))
  }

  ghost function FlushToDisk(t: Table, healthy: bool): Table {
    if Commits(t.locations, healthy) then t.(rows := Override(t.rows, t.locations), locations := map[]) else t
  }

  // A second lineage for the same uid is an error and is not taken.
  function RegisterLineage(t: Table, req: Request): Table {
    if req.uid in t.lineage then t else t.(lineage := t.lineage[req.uid := req])
  }

  function RegisterGenerating(t: Table, uid: Uid, node: NodeId): Table {
    t.(generating := t.generating[uid := node])
  }

  // The sizes known for the arguments that memory has an entry for; an entry
  // without a recorded size counts as zero bytes.
  function ObjectLocations(t: Table, args: seq<Uid>): map<Uid, LocationByteTuple> {
    map u | u in args && u in t.locations ::
      LocationByteTuple(t.locations[u], if u in t.sizes then t.sizes[u] else 0)
  }

  // The nodes that are making an object or are recorded in memory as holding it.
  function GetNodes(t: Table, uid: Uid): seq<NodeId> {
    (if uid in t.generating then [t.generating[uid]] else []) + Recorded(t, uid)
  }

  predicate AllDead(live: map<NodeId, bool>, nodes: seq<NodeId>) {
    forall n :: n in nodes ==> !IsLive(live, n)
  }

  // The uids that a sweep looks at.
  function Tracked(t: Table): set<Uid> {
    t.generating.Keys + t.locations.Keys
  }

  // The uids that a sweep with these live nodes reschedules.
  function Lost(t: Table, live: map<NodeId, bool>): set<Uid> {
    set u | u in Tracked(t) && AllDead(live, GetNodes(t, u))
  }

  // What the sweep sends for a uid; without a lineage entry it sends nil.
  function Resend(t: Table, uid: Uid): Request {
    if uid in t.lineage then t.lineage[uid] else EMPTY_REQUEST
  }

  function Resends(t: Table, order: seq<Uid>): seq<Request> {
    seq(|order|, i requires 0 <= i < |order| => Resend(t, order[i]))
  }

  function RegisterLiveNodes(t: Table, live: map<NodeId, bool>, order: seq<Uid>): (Table, Output) {
    (t.(live := live), Output([], Resends(t, order)))
  }

  // One handler call, with the choices that the environment makes in it: what
  // the disk answers, which candidate is drawn, whether the engine accepts a
  // flush, and the order in which a Go map is walked.
  datatype Event =
    | Announce(uid: Uid, node: NodeId, size: nat)
    | Lookup(uid: Uid, peer: Address, read: Result<seq<NodeId>>, pick: nat)
    | Flush(healthy: bool)
    | Lineage(req: Request)
    | Generate(uid: Uid, node: NodeId)
    | Sweep(live: map<NodeId, bool>, order: seq<Uid>)

  // The choices that are possible in a given state.
  ghost predicate Possible(t: Table, e: Event) {
    match e
    case Lookup(uid, _, read, pick) =>
      && (read.Ok? ==> Listing(t.rows, uid, read.value))
      && pick < |Candidates(t.live, Recorded(Fill(t, uid, read), uid))|
    case Sweep(live, order) => Elements(order) == Lost(t, live) && NoDuplicates(order)
    case _ => true
  }

  ghost function Handle(t: Table, e: Event): (Table, Output) {
    match e
    case Announce(uid, node, size) => NotifyOwns(t, uid, node, size)
    case Lookup(uid, peer, read, pick) => RequestLocation(t, uid, peer, read, pick)
    case Flush(healthy) => (FlushToDisk(t, healthy), SILENT)
    case Lineage(req) => (RegisterLineage(t, req), SILENT)
    case Generate(uid, node) => (RegisterGenerating(t, uid, node), SILENT)
    case Sweep(live, order) => RegisterLiveNodes(t, live, order)
  }

  ghost function Step(t: Table, e: Event): Table {
    Handle(t, e).0
  }

  ghost function Emits(t: Table, e: Event): Output {
    Handle(t, e).1
  }

  // The state after the calls in es, oldest first.
  ghost function After(t: Table, es: seq<Event>): Table {
    if es == [] then t else Step(After(t, Front(es)), Last(es))
  }

  ghost predicate Run(t: Table, es: seq<Event>) {
    es == [] || (Run(t, Front(es)) && Possible(After(t, Front(es)), Last(es)))
  }

  lemma RunOfTwo(t: Table, e1: Event, e2: Event)
    ensures Front([e1, e2]) == [e1] && After(t, [e1]) == Step(t, e1)
    ensures After(t, [e1, e2]) == Step(Step(t, e1), e2)
    ensures Run(t, [e1, e2]) <==> Possible(t, e1) && Possible(Step(t, e1), e2)
  {
    var es1, es2 := [e1], [e1, e2];
    assert Front(es1) == [] && Front(es2) == es1;
    assert After(t, es1) == Step(t, e1);
    assert Run(t, es1) <==> Possible(t, e1);
  }

  lemma RunOfThree(t: Table, e1: Event, e2: Event, e3: Event)
    ensures After(t, [e1, e2, e3]) == Step(Step(Step(t, e1), e2), e3)
    ensures Run(t, [e1, e2, e3]) <==>
            Possible(t, e1) && Possible(Step(t, e1), e2) && Possible(Step(Step(t, e1), e2), e3)
  {
    var es1, es2, es3 := [e1], [e1, e2], [e1, e2, e3];
    assert Front(es1) == [] && Front(es2) == es1 && Front(es3) == es2;
    assert After(t, es1) == Step(t, e1) && After(t, es2) == Step(After(t, es1), e2);
    assert Run(t, es1) <==> Possible(t, e1);
    assert Run(t, es2) <==> Run(t, es1) && Possible(After(t, es1), e2);
  }

  function Front(es: seq<Event>): seq<Event>
    requires es != []
  {
    es[..|es| - 1]
  }

  function Last(es: seq<Event>): Event
    requires es != []
  {
    es[|es| - 1]
  }
}
