// When flushing stops for good: a list in memory that repeats a node breaks the
// primary key in every transaction, and nothing ever shortens the list.
module FlushFailures {
  import opened Types
  import opened Collections
  import opened LocationDatabase
  import opened ObjectTable

  ghost predicate RepeatsNode(t: Table, u: Uid) {
    u in t.locations && !NoDuplicates(t.locations[u])
  }

  ghost predicate Stuck(t: Table) {
    exists u :: RepeatsNode(t, u)
  }

  // A node announces an object that memory lists it for already.
  ghost predicate Repeats(t: Table, e: Event) {
    e.Announce? && e.node in Recorded(t, e.uid)
  }

  lemma AnnounceRepeats(t: Table, uid: Uid, node: NodeId, size: nat, u: Uid)
    ensures RepeatsNode(NotifyOwns(t, uid, node, size).0, u) <==>
            RepeatsNode(t, u) || (u == uid && node in Recorded(t, uid))
  {
    NoDuplicatesAppend(Recorded(t, uid), [node]);
    assert NoDuplicates([node]) && forall x :: x in [node] <==> x == node;
  }

  // What the disk answers repeats nothing.
  lemma LookupRepeats(t: Table, uid: Uid, peer: Address, read: Result<seq<NodeId>>, pick: nat, u: Uid)
    requires read.Ok? ==> Listing(t.rows, uid, read.value)
    ensures RepeatsNode(RequestLocation(t, uid, peer, read, pick).0, u) <==> RepeatsNode(t, u)
  {
    assert Fill(t, uid, read).locations == RequestLocation(t, uid, peer, read, pick).0.locations;
  }

  lemma StepRepeats(t: Table, e: Event, u: Uid)
    requires Possible(t, e)
    requires e.Flush? ==> !Commits(t.locations, e.healthy)
    ensures RepeatsNode(Step(t, e), u) <==> RepeatsNode(t, u) || (Repeats(t, e) && e.uid == u)
  {
    match e
    case Announce(uid, node, size) => AnnounceRepeats(t, uid, node, size, u);
    case Lookup(uid, peer, read, pick) => LookupRepeats(t, uid, peer, read, pick, u);
    case Flush(_) =>
    case Lineage(_) =>
    case Generate(_, _) =>
    case Sweep(_, _) =>
  }

  // One call leaves the server stuck exactly if it was, or if the call repeats an
  // announcement.
  lemma StepStuck(t: Table, e: Event)
    requires Possible(t, e)
    ensures Stuck(Step(t, e)) <==> Stuck(t) || Repeats(t, e)
  {
    if e.Flush? && Commits(t.locations, e.healthy) {
      assert Step(t, e).locations == map[];
      assert forall u :: u in t.locations ==> !RepeatsNode(t, u);
    } else {
      forall u ensures RepeatsNode(Step(t, e), u) <==> RepeatsNode(t, u) || (Repeats(t, e) && e.uid == u) {
        StepRepeats(t, e, u);
      }
      if Repeats(t, e) {
        assert RepeatsNode(Step(t, e), e.uid);
      }
    }
  }

  // The rows change only by a flush that commits.
  lemma StepRows(t: Table, e: Event)
    requires !(e.Flush? && Commits(t.locations, e.healthy))
    ensures Step(t, e).rows == t.rows
  {
    match e
    case Announce(_, _, _) =>
    case Lookup(_, _, _, _) =>
    case Flush(_) =>
    case Lineage(_) =>
    case Generate(_, _) =>
    case Sweep(_, _) =>
  }

  // Once stuck, the server never writes to its disk again, however long it runs.
  lemma {:induction false} StuckForever(t: Table, es: seq<Event>)
    requires Run(t, es) && Stuck(t)
    ensures Stuck(After(t, es)) && After(t, es).rows == t.rows
    ensures forall healthy :: !Commits(After(t, es).locations, healthy)
  {
    if es != [] {
      StuckForever(t, Front(es));
      StepStuck(After(t, Front(es)), Last(es));
      StepRows(After(t, Front(es)), Last(es));
    }
    var u :| RepeatsNode(After(t, es), u);
    assert u in After(t, es).locations;
  }

  ghost predicate RepeatedIn(rows: set<(Uid, NodeId)>, es: seq<Event>) {
    es != [] && (RepeatedIn(rows, Front(es)) || Repeats(After(Opened(rows), Front(es)), Last(es)))
  }

  // A server is stuck exactly if, at some point of its run, a node announced an
  // object that memory listed it for already, as a task executed again on the
  // node that had made its object does.
  lemma {:induction false} StuckIffRepeated(rows: set<(Uid, NodeId)>, es: seq<Event>)
    requires Run(Opened(rows), es)
    ensures Stuck(After(Opened(rows), es)) <==> RepeatedIn(rows, es)
  {
    if es != [] {
      StuckIffRepeated(rows, Front(es));
      StepStuck(After(Opened(rows), Front(es)), Last(es));
    }
  }

  // The shortest such run: a node announces an object twice, with no flush between.
  lemma TwoAnnouncementsStick(uid: Uid, n: NodeId, size: nat, size': nat, es: seq<Event>)
    requires es == [Announce(uid, n, size), Announce(uid, n, size')]
    ensures Run(Opened({}), es) && Stuck(After(Opened({}), es))
  {
    RunOfTwo(Opened({}), es[0], es[1]);
    var t1 := Step(Opened({}), es[0]);
    assert Recorded(Opened({}), uid) + [n] == [n];
    assert Recorded(t1, uid) == [n];
    StepStuck(t1, es[1]);
  }
}
