// go/cmd/gcsobjtable/main.go: the object table server as it is written, with its
// maps updated in place. Each handler runs as one atomic step and is proved
// against its function in ObjectTable.dfy; the ghost history `calls` makes every
// state of the server a state that TableRuns.dfy and Sweeps.dfy speak about.
module GcsServer {
  import opened Types
  import opened Collections
  import opened LocationDatabase
  import opened ObjectTable
  import TableRuns
  import Sweeps

  lemma NodesMean(t: Table, u: Uid, n: NodeId)
    ensures n in ObjectTable.GetNodes(t, u) <==>
            (u in t.generating && n == t.generating[u]) || (u in t.locations && n in t.locations[u])
  {
  }

  // What the sweep finds lost: what is being made or listed, by and at no live node.
  lemma LostMeans(t: Table, live: map<NodeId, bool>, u: Uid)
    ensures u in Lost(t, live) <==>
            && (u in t.generating || u in t.locations)
            && (u in t.generating && t.generating[u] in live ==> !live[t.generating[u]])
            && (forall n :: u in t.locations && n in t.locations[u] && n in live ==> !live[n])
  {
    var nodes := ObjectTable.GetNodes(t, u);
    forall n ensures n in nodes <==> (u in t.generating && n == t.generating[u]) || (u in t.locations && n in t.locations[u]) {
      NodesMean(t, u, n);
    }
    if !ObjectTable.AllDead(live, nodes) {
      var n :| n in nodes && IsLive(live, n);
      assert n in live && live[n];
    } else if u in t.generating {
      assert t.generating[u] in nodes;
    }
  }

  // What is drawn for an answer: zero, or a listed node that is not live.
  lemma CandidateMeans(live: map<NodeId, bool>, nodes: seq<NodeId>, k: nat)
    requires k < |Candidates(live, nodes)|
    ensures var n := Candidates(live, nodes)[k];
            n == 0 || (n in nodes && (n in live ==> !live[n]))
  {
    if k > 0 {
      assert Candidates(live, nodes)[k] in NotLive(live, nodes);
    }
  }

  // What a request for a location makes of a table and of its sender.
  ghost predicate Answered(t: Table, t': Table, u: Uid, peer: Address, diskFails: bool,
                           found: Result<bool>, spawned: seq<Callback>)
  {
    && (found.Err? <==> diskFails && (u !in t.locations || t.locations[u] == []))
    && t' == t.(locations := t'.locations, waitlist := t'.waitlist)
    && match found
       case Err => spawned == [] && t' == t
       case Ok(false) =>
         && spawned == []
         && t'.locations == t.locations[u := []]
         && t'.waitlist == t.waitlist[u := (if u in t.waitlist then t.waitlist[u] else []) + [Address(peer.host, 50000)]]
       case Ok(true) =>
         && u in t'.locations && t'.locations[u] != []
         && t'.locations == t.locations[u := t'.locations[u]] && t'.waitlist == t.waitlist
         && |spawned| == 1 && spawned[0].addr == Address(peer.host, 50000) && spawned[0].uid == u
         && (spawned[0].node == 0 ||
             (spawned[0].node in t'.locations[u] && (spawned[0].node in t.live ==> !t.live[spawned[0].node])))
  }

  lemma LookupIsAnswered(t: Table, u: Uid, peer: Address, read: Result<seq<NodeId>>, pick: nat)
    requires Possible(t, Lookup(u, peer, read, pick))
    ensures var e := Lookup(u, peer, read, pick);
            var spawned := Emits(t, e).callbacks;
            var found := if LookupFails(t, u, read) then Err else Ok(spawned != []);
            Answered(t, Step(t, e), u, peer, read.Err?, found, spawned)
  {
    if !LookupFails(t, u, read) {
      var t1 := Fill(t, u, read);
      if Recorded(t1, u) != [] {
        CandidateMeans(t.live, Recorded(t1, u), pick);
      }
    }
  }

  // What a report makes of a table: the live nodes are those of the report, and each
  // uid that is made by and listed at no live node is sent for once, with its lineage
  // or, without any, with nothing.
  ghost predicate Swept(t: Table, t': Table, live: map<NodeId, bool>, order: seq<Uid>, sent: seq<Request>) {
    && t' == t.(live := live)
    && |sent| == |order|
    && (forall i :: 0 <= i < |sent| ==>
          sent[i] == if order[i] in t.lineage then t.lineage[order[i]] else Request(0, Task(0, [], []), [], false, 0, false))
    && (forall u :: u in order <==>
          && (u in t.generating || u in t.locations)
          && (u in t.generating && t.generating[u] in live ==> !live[t.generating[u]])
          && (forall n :: u in t.locations && n in t.locations[u] && n in live ==> !live[n]))
    && (forall i, j :: 0 <= i < j < |order| ==> order[i] != order[j])
  }

  lemma SweepSweeps(t: Table, live: map<NodeId, bool>, order: seq<Uid>)
    requires Possible(t, Sweep(live, order))
    ensures var e := Sweep(live, order);
            Swept(t, Step(t, e), live, order, Emits(t, e).dispatches) && Emits(t, e).callbacks == []
  {
    forall u
      ensures u in order <==>
              && (u in t.generating || u in t.locations)
              && (u in t.generating && t.generating[u] in live ==> !live[t.generating[u]])
              && (forall n :: u in t.locations && n in t.locations[u] && n in live ==> !live[n])
    {
      LostMeans(t, live, u);
      assert u in order <==> u in Elements(order);
    }
  }

  class GCSObjServer {
    var objectLocations: map<Uid, seq<NodeId>>
    var waitlist: map<Uid, seq<Address>>
    var objectSizes: map<Uid, nat>
    var lineage: map<Uid, Request>
    var liveNodes: map<NodeId, bool>
    var generating: map<Uid, NodeId>
    const database: Database

    ghost const stored: set<(Uid, NodeId)>  // the rows found when the server started
    ghost var calls: seq<Event>             // the handler calls since, oldest first

    ghost function View(): Table
      reads this, database
    {
      Table(objectLocations, objectSizes, waitlist, lineage, liveNodes, generating, database.rows)
    }

    ghost predicate Valid()
      reads this, database
    {
      Run(Opened(stored), calls) && View() == After(Opened(stored), calls)
    }

    // The server has handled one call more, and its state is what that makes it.
    twostate predicate Handled(e: Event)
      reads this, database
    {
      && calls == old(calls) + [e]
      && View() == Step(old(View()), e)
      && Valid()
    }

    constructor (database: Database)
      ensures Valid() && this.database == database
      ensures calls == [] && View() == Opened(database.rows)
    {
      this.database := database;
      objectLocations, waitlist, objectSizes := map[], map[], map[];
      lineage, liveNodes, generating := map[], map[], map[];
      stored := database.rows;
      calls := [];
    }

    ghost method Record(e: Event, before: Table)
      requires Run(Opened(stored), calls) && before == After(Opened(stored), calls)
      requires Possible(before, e) && View() == Step(before, e)
      modifies this`calls
      ensures calls == old(calls) + [e] && Valid()
    {
      calls := calls + [e];
      assert Front(calls) == old(calls);
    }

    // With nothing to insert, the flush is an error whatever the engine answers, and
    // memory keeps its empty lists.
    method FlushToDisk(engine: Engine) returns (err: bool)
      requires Valid()
      modifies this, database
      ensures Handled(Flush(Healthy(engine)))
      ensures (forall u :: u in old(objectLocations) ==> old(objectLocations)[u] == []) ==> err
      ensures !err <==>
              && engine == Engine(true, true, true, true)
              && (exists u :: u in old(objectLocations) && old(objectLocations)[u] != [])
              && forall u, i, j :: u in old(objectLocations) && 0 <= i < j < |old(objectLocations)[u]| ==>
                                     old(objectLocations)[u][i] != old(objectLocations)[u][j]
      ensures err ==> View() == old(View())
      ensures !err ==> objectLocations == map[] && View() == old(View()).(locations := map[], rows := database.rows)
      ensures forall u, n :: (u, n) in database.rows <==>
                if !err && u in old(objectLocations) then n in old(objectLocations)[u] else (u, n) in old(database.rows)
    {
      ghost var before := View();
      var ok := database.InsertOrUpdateObjectLocations(objectLocations, engine);
      if ok {
        objectLocations := map[];
      }
      err := !ok;
      Record(Flush(Healthy(engine)), before);
    }

    // Memory first, then disk; an empty answer of the disk is kept as well.
    method GetNodeId(uid: Uid, diskFails: bool)
      returns (nodeId: Result<Option<NodeId>>, ghost read: Result<seq<NodeId>>, ghost pick: nat)
      modifies this`objectLocations
      ensures nodeId.Err? <==> diskFails && (uid !in old(objectLocations) || old(objectLocations)[uid] == [])
      ensures read.Ok? ==> Listing(database.rows, uid, read.value)
      ensures View() == if LookupFails(old(View()), uid, read) then old(View()) else Fill(old(View()), uid, read)
      ensures pick < |Candidates(liveNodes, Recorded(Fill(old(View()), uid, read), uid))|
      ensures nodeId ==
              if LookupFails(old(View()), uid, read) then Err
              else if Recorded(View(), uid) == [] then Ok(None)
              else Ok(Some(Candidates(liveNodes, Recorded(View(), uid))[pick]))
    {
      var nodeIds := if uid in objectLocations then objectLocations[uid] else [];
      read, pick := Err, 0;
      if nodeIds == [] {
        var loaded := database.GetObjectLocations(uid, diskFails);
        read := loaded;
        if loaded.Err? {
          return Err, read, pick;
        }
        nodeIds := loaded.value;
        objectLocations := objectLocations[uid := nodeIds];
        if nodeIds == [] {
          return Ok(None), read, pick;
        }
      }
      var nodesToReturn: seq<NodeId> := [0];
      for i := 0 to |nodeIds|
        invariant nodesToReturn == Candidates(liveNodes, nodeIds[..i])
      {
        assert nodeIds[..i + 1][..i] == nodeIds[..i];
        if !IsLive(liveNodes, nodeIds[i]) {
          nodesToReturn := nodesToReturn + [nodeIds[i]];
        }
      }
      assert nodeIds[..|nodeIds|] == nodeIds;
      var randomIndex: nat :| randomIndex < |nodesToReturn|;
      nodeId, pick := Ok(Some(nodesToReturn[randomIndex])), randomIndex;
    }

    method NotifyOwns(uid: Uid, nodeId: NodeId, objectSize: nat) returns (spawned: seq<Callback>)
      requires Valid()
      modifies this
      ensures Handled(Announce(uid, nodeId, objectSize))
      ensures spawned == Emits(old(View()), Announce(uid, nodeId, objectSize)).callbacks
      ensures |spawned| == if uid in old(waitlist) then |old(waitlist)[uid]| else 0
      ensures forall i :: 0 <= i < |spawned| ==>
                spawned[i].addr == old(waitlist)[uid][i] && spawned[i].uid == uid && spawned[i].node == nodeId
      ensures objectLocations ==
              old(objectLocations)[uid := (if uid in old(objectLocations) then old(objectLocations)[uid] else []) + [nodeId]]
      ensures objectSizes == if uid in old(objectLocations) then old(objectSizes) else old(objectSizes)[uid := objectSize]
      ensures waitlist == old(waitlist) - {uid} && generating == old(generating) - {uid}
      ensures lineage == old(lineage) && liveNodes == old(liveNodes)
    {
      ghost var before := View();
      generating := generating - {uid};
      AddOwner(uid, nodeId, objectSize);
      spawned := WakeWaiters(uid, nodeId);
      Record(Announce(uid, nodeId, objectSize), before);
    }

    method AddOwner(uid: Uid, nodeId: NodeId, objectSize: nat)
      modifies `objectLocations, `objectSizes
      ensures objectLocations == old(objectLocations)[uid := Recorded(old(View()), uid) + [nodeId]]
      ensures objectSizes == if uid in old(objectLocations) then old(objectSizes) else old(objectSizes)[uid := objectSize]
    {
      if uid !in objectLocations {
        objectLocations := objectLocations[uid := []];
        objectSizes := objectSizes[uid := objectSize];
      }
      objectLocations := objectLocations[uid := objectLocations[uid] + [nodeId]];
    }

    method WakeWaiters(uid: Uid, nodeId: NodeId) returns (spawned: seq<Callback>)
      modifies this`waitlist
      ensures spawned == Callbacks(Waiters(old(View()), uid), uid, nodeId)
      ensures |spawned| == if uid in old(waitlist) then |old(waitlist)[uid]| else 0
      ensures forall i :: 0 <= i < |spawned| ==>
                spawned[i].addr == old(waitlist)[uid][i] && spawned[i].uid == uid && spawned[i].node == nodeId
      ensures waitlist == old(waitlist) - {uid}
    {
      spawned := [];
      if uid in waitlist {
        var waitingIPs := waitlist[uid];
        for i := 0 to |waitingIPs|
          invariant spawned == Callbacks(waitingIPs[..i], uid, nodeId)
        {
          spawned := spawned + [Callback(waitingIPs[i], uid, nodeId)];
        }
        assert waitingIPs[..|waitingIPs|] == waitingIPs;
        waitlist := waitlist - {uid};
      } else {
        assert waitlist - {uid} == waitlist;
      }
    }

    // The reply says whether a location was found at once.
    method RequestLocation(uid: Uid, peer: Address, diskFails: bool)
      returns (found: Result<bool>, spawned: seq<Callback>, ghost e: Event)
      requires Valid()
      modifies this
      ensures e.Lookup? && e.uid == uid && e.peer == peer && Handled(e)
      ensures spawned == Emits(old(View()), e).callbacks
      ensures found == if LookupFails(old(View()), uid, e.read) then Err else Ok(spawned != [])
      ensures found.Err? <==> diskFails && (uid !in old(objectLocations) || old(objectLocations)[uid] == [])
    {
      ghost var before := View();
      var clientAddress := ClientAddress(peer);
      var nodeId, read, pick := GetNodeId(uid, diskFails);
      e := Lookup(uid, peer, read, pick);
      spawned := [];
      match nodeId {
        case Err =>
          found := Err;
        case Ok(None) =>
          AddWaiter(uid, clientAddress);
          found := Ok(false);
        case Ok(Some(n)) =>
          spawned := [Callback(clientAddress, uid, n)];
          found := Ok(true);
      }
      Record(e, before);
    }

    method AddWaiter(uid: Uid, clientAddress: Address)
      modifies `waitlist
      ensures waitlist == old(waitlist)[uid := Waiters(old(View()), uid) + [clientAddress]]
    {
      if uid !in waitlist {
        waitlist := waitlist[uid := []];
      }
      waitlist := waitlist[uid := waitlist[uid] + [clientAddress]];
    }

    method GetObjectLocations(args: seq<Uid>) returns (locations: map<Uid, LocationByteTuple>)
      ensures locations == ObjectLocations(View(), args)
      ensures forall u :: u in locations <==> u in args && u in objectLocations
      ensures forall u :: u in locations ==>
                && locations[u].locations == objectLocations[u]
                && locations[u].bytes == if u in objectSizes then objectSizes[u] else 0
    {
      locations := map[];
      for i := 0 to |args|
        invariant locations == ObjectLocations(View(), args[..i])
      {
        var u := args[i];
        if u in objectLocations {
          locations := locations[u := LocationByteTuple(objectLocations[u], if u in objectSizes then objectSizes[u] else 0)];
        }
      }
      assert args[..|args|] == args;
    }

    // A second registration for the same uid is refused.
    method RegisterLineage(req: Request) returns (err: bool)
      requires Valid()
      modifies this
      ensures Handled(Lineage(req))
      ensures err <==> req.uid in old(lineage)
      ensures lineage == if err then old(lineage) else old(lineage)[req.uid := req]
      ensures View() == old(View()).(lineage := lineage)
    {
      ghost var before := View();
      err := req.uid in lineage;
      if !err {
        lineage := lineage[req.uid := req];
      }
      Record(Lineage(req), before);
    }

    method RegisterGenerating(uid: Uid, nodeId: NodeId)
      requires Valid()
      modifies this
      ensures Handled(Generate(uid, nodeId))
      ensures View() == old(View()).(generating := old(generating)[uid := nodeId])
    {
      ghost var before := View();
      generating := generating[uid := nodeId];
      Record(Generate(uid, nodeId), before);
    }

    method GetNodes(uid: Uid) returns (nodes: seq<NodeId>)
      ensures nodes == ObjectTable.GetNodes(View(), uid)
      ensures nodes == (if uid in generating then [generating[uid]] else []) +
                       (if uid in objectLocations then objectLocations[uid] else [])
    {
      nodes := [];
      if uid in generating {
        nodes := nodes + [generating[uid]];
      }
      ghost var makers := nodes;
      if uid in objectLocations {
        var objectNodes := objectLocations[uid];
        for i := 0 to |objectNodes|
          invariant nodes == makers + objectNodes[..i]
        {
          nodes := nodes + [objectNodes[i]];
        }
      }
    }

    method AllDead(nodes: seq<NodeId>) returns (dead: bool)
      ensures dead == ObjectTable.AllDead(liveNodes, nodes)
      ensures dead <==> forall n :: n in nodes && n in liveNodes ==> !liveNodes[n]
    {
      for i := 0 to |nodes|
        invariant ObjectTable.AllDead(liveNodes, nodes[..i])
      {
        if IsLive(liveNodes, nodes[i]) {
          assert nodes[i] in nodes;
          return false;
        }
      }
      assert nodes[..|nodes|] == nodes;
      dead := true;
    }

    // The sweep: reschedules every uid none of whose nodes is live, in the order
    // in which it comes across them.
    method RegisterLiveNodes(live: map<NodeId, bool>) returns (sent: seq<Request>, ghost e: Event)
      requires Valid()
      modifies this
      ensures e.Sweep? && e.live == live && Handled(e)
      ensures sent == Emits(old(View()), e).dispatches
    {
      ghost var before := View();
      liveNodes := live;
      var regenerateList := RegenerateList();
      assert View() == before.(live := live);
      assert Lost(View(), live) == Lost(before, live);
      sent := Reschedule(regenerateList);
      assert Resends(View(), regenerateList) == Resends(before, regenerateList);
      e := Sweep(live, regenerateList);
      Record(e, before);
    }

    method RegenerateList() returns (regenerateList: seq<Uid>)
      ensures Elements(regenerateList) == Lost(View(), liveNodes) && NoDuplicates(regenerateList)
    {
      regenerateList := [];
      var allUids := AllUids();
      var todo := allUids;
      while todo != {}
        invariant todo <= allUids
        invariant forall u :: u in regenerateList <==> u in Lost(View(), liveNodes) && u !in todo
        invariant NoDuplicates(regenerateList)
      {
        var uid :| uid in todo;
        var nodes := GetNodes(uid);
        var dead := AllDead(nodes);
        if dead {
          NoDuplicatesAppend(regenerateList, [uid]);
          regenerateList := regenerateList + [uid];
        }
        todo := todo - {uid};
      }
    }

    method Reschedule(regenerateList: seq<Uid>) returns (sent: seq<Request>)
      ensures sent == Resends(View(), regenerateList)
    {
      sent := [];
      for i := 0 to |regenerateList|
        invariant sent == Resends(View(), regenerateList[..i])
      {
        var uid := regenerateList[i];
        sent := sent + [if uid in lineage then lineage[uid] else EMPTY_REQUEST];
      }
      assert regenerateList[..|regenerateList|] == regenerateList;
    }

    method AllUids() returns (allUids: set<Uid>)
      ensures allUids == Tracked(View())
    {
      allUids := {};
      var todo := generating.Keys;
      while todo != {}
        invariant todo <= generating.Keys && allUids == generating.Keys - todo
      {
        var uid :| uid in todo;
        allUids, todo := allUids + {uid}, todo - {uid};
      }
      todo := objectLocations.Keys;
      while todo != {}
        invariant todo <= objectLocations.Keys && allUids == generating.Keys + (objectLocations.Keys - todo)
      {
        var uid :| uid in todo;
        allUids, todo := allUids + {uid}, todo - {uid};
      }
    }

    // What every state of the server satisfies, whatever calls led to it: the
    // view of a uid is made from its announcements, its accepted requesters are
    // those called back and those waiting, and nobody waits once it was announced.
    lemma Guarantees(uid: Uid)
      requires Valid()
      ensures TableRuns.Inv(View())
      ensures TableRuns.FromHistory(RowsOf(stored, uid), LocationSet(View(), uid), TableRuns.History(calls, uid))
      ensures TableRuns.Accepted(Opened(stored), calls, uid) ==
              TableRuns.CalledBack(Opened(stored), calls, uid) + multiset(Waiters(View(), uid))
      ensures TableRuns.History(calls, uid) != [] ==> Waiters(View(), uid) == []
      ensures Sweeps.FirstLineage(calls, uid) == if uid in lineage then Some(lineage[uid]) else None
    {
      TableRuns.RunInv(stored, calls);
      TableRuns.ViewIsSuffixOfHistory(stored, calls, uid);
      TableRuns.WaitlistConservation(stored, calls, uid);
      if TableRuns.History(calls, uid) != [] {
        TableRuns.NobodyWaitsForAnAnnouncedObject(stored, calls, uid);
      }
      Sweeps.LineageIsFirstRegistered(stored, calls, uid);
    }
  }
}
