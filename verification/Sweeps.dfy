// Failure recovery at the object table: what the sweep over a live-node report
// reschedules, and for how long an object stays within its reach.
module Sweeps {
  import opened Types
  import opened Collections
  import opened LocationDatabase
  import opened ObjectTable
  import FlushFailures
  import TableRuns

  ghost predicate NoFlush(es: seq<Event>) {
    forall i :: 0 <= i < |es| ==> !es[i].Flush?
  }

  ghost predicate SomeLive(t: Table, live: map<NodeId, bool>, uid: Uid) {
    exists n :: n in GetNodes(t, uid) && IsLive(live, n)
  }

  // ------------------------------------------------------------ sweep's domain

  // A tracked uid leaves the sweep's domain only by a committed flush that finds
  // no generator registered for it.
  lemma UntrackedOnlyByFlush(t: Table, e: Event, uid: Uid)
    requires Possible(t, e) && uid in Tracked(t)
    ensures uid !in Tracked(Step(t, e)) <==>
            e.Flush? && Commits(t.locations, e.healthy) && uid !in t.generating
  {
    match e
    case Announce(_, _, _) =>
    case Lookup(_, _, _, _) =>
    case Flush(_) =>
    case Lineage(_) =>
    case Generate(_, _) =>
    case Sweep(_, _) =>
  }

  // With flushing off, a uid once registered as generating, or announced, or
  // looked up, stays in the sweep's domain forever.
  lemma {:induction false} TrackedForever(t: Table, es: seq<Event>, uid: Uid)
    requires Run(t, es) && NoFlush(es) && uid in Tracked(t)
    ensures uid in Tracked(After(t, es))
  {
    if es != [] {
      TrackedForever(t, Front(es), uid);
      UntrackedOnlyByFlush(After(t, Front(es)), Last(es), uid);
    }
  }

  // In one sweep, a tracked uid is rescheduled once if none of its nodes is live,
  // and not at all otherwise; other uids are not rescheduled.
  lemma SweepDecides(t: Table, live: map<NodeId, bool>, order: seq<Uid>, uid: Uid)
    requires Possible(t, Sweep(live, order))
    ensures multiset(order)[uid] == if uid in Tracked(t) && !SomeLive(t, live, uid) then 1 else 0
  {
    assert uid in order <==> uid in Lost(t, live) by {
      assert uid in Elements(order) <==> uid in Lost(t, live);
    }
    CountOfDistinct(order, uid);
  }

  lemma {:induction false} CountOfDistinct(s: seq<Uid>, x: Uid)
    requires NoDuplicates(s)
    ensures multiset(s)[x] == if x in s then 1 else 0
  {
    if s != [] {
      assert s == [s[0]] + s[1..];
      CountOfDistinct(s[1..], x);
    }
  }

  // ------------------------------------------------------------------- lineage

  // The request that a uid's lineage was first registered with.
  ghost function FirstLineage(es: seq<Event>, uid: Uid): Option<Request> {
    if es == [] then None
    else if FirstLineage(Front(es), uid).Some? then FirstLineage(Front(es), uid)
    else if Last(es).Lineage? && Last(es).req.uid == uid then Some(Last(es).req)
    else None
  }

  // Whatever else happens, the table keeps for each uid the first lineage that
  // was registered for it, unchanged, and nothing else.
  lemma {:induction false} LineageIsFirstRegistered(rows: set<(Uid, NodeId)>, es: seq<Event>, uid: Uid)
    ensures var l := After(Opened(rows), es).lineage;
            FirstLineage(es, uid) == if uid in l then Some(l[uid]) else None
  {
    if es != [] {
      LineageIsFirstRegistered(rows, Front(es), uid);
      StepLineage(After(Opened(rows), Front(es)), Last(es));
    }
  }

  lemma StepLineage(t: Table, e: Event)
    ensures Step(t, e).lineage ==
            if e.Lineage? && e.req.uid !in t.lineage then t.lineage[e.req.uid := e.req] else t.lineage
  {
    match e
    case Announce(_, _, _) =>
    case Lookup(_, _, _, _) =>
    case Flush(_) =>
    case Lineage(_) =>
    case Generate(_, _) =>
    case Sweep(_, _) =>
  }

  lemma {:induction false} FirstLineageIsOwn(es: seq<Event>, uid: Uid)
    requires FirstLineage(es, uid).Some?
    ensures FirstLineage(es, uid).value.uid == uid
  {
    if FirstLineage(Front(es), uid).Some? {
      FirstLineageIsOwn(Front(es), uid);
    }
  }

  // What goes out for a uid: the first-registered request, or without any the
  // empty one.
  ghost function Resent(es: seq<Event>, uid: Uid): Request {
    match FirstLineage(es, uid)
    case Some(req) => req
    case None => EMPTY_REQUEST
  }

  // With flushing off, each report after a uid's generator was first registered
  // finds a live generator or holder, or sends for the uid, once, what was first
  // registered for it; never both and never neither. Among all that is sent, that
  // request is found as often, unless it is no other than the empty one.
  lemma NoObjectIsAbandoned(rows: set<(Uid, NodeId)>, es: seq<Event>, live: map<NodeId, bool>, order: seq<Uid>, uid: Uid)
    requires Run(Opened(rows), es) && NoFlush(es)
    requires exists i, n :: 0 <= i < |es| && es[i] == Generate(uid, n)
    requires Possible(After(Opened(rows), es), Sweep(live, order))
    ensures var t := After(Opened(rows), es);
            var sent := Emits(t, Sweep(live, order)).dispatches;
            var times := if SomeLive(t, live, uid) then 0 else 1;
            && multiset(order)[uid] == times
            && |sent| == |order| && (forall i :: 0 <= i < |order| ==> sent[i] == Resent(es, order[i]))
            && (Resent(es, uid) != EMPTY_REQUEST ==> multiset(sent)[Resent(es, uid)] == times)
  {
    var t := After(Opened(rows), es);
    TrackedSince(rows, es, uid);
    SweepDecides(t, live, order, uid);
    forall u ensures Resend(t, u) == Resent(es, u) {
      LineageIsFirstRegistered(rows, es, u);
    }
    if Resent(es, uid) != EMPTY_REQUEST {
      forall u ensures Resend(t, u) == Resend(t, uid) <==> u == uid {
        LineageIsFirstRegistered(rows, es, uid);
        LineageIsFirstRegistered(rows, es, u);
        FirstLineageIsOwn(es, uid);
        if FirstLineage(es, u).Some? {
          FirstLineageIsOwn(es, u);
        }
      }
      CountOfResends(t, order, uid);
    }
  }

  lemma {:induction false} TrackedSince(rows: set<(Uid, NodeId)>, es: seq<Event>, uid: Uid)
    requires Run(Opened(rows), es) && NoFlush(es)
    requires exists i, n :: 0 <= i < |es| && es[i] == Generate(uid, n)
    ensures uid in Tracked(After(Opened(rows), es))
  {
    var i, n :| 0 <= i < |es| && es[i] == Generate(uid, n);
    var t := After(Opened(rows), Front(es));
    if i < |es| - 1 {
      assert Front(es)[i] == Generate(uid, n);
      TrackedSince(rows, Front(es), uid);
      UntrackedOnlyByFlush(t, Last(es), uid);
    } else {
      assert Last(es) == Generate(uid, n);
    }
  }

  lemma {:induction false} CountOfResends(t: Table, order: seq<Uid>, uid: Uid)
    requires forall u :: u in order && Resend(t, u) == Resend(t, uid) ==> u == uid
    ensures multiset(Resends(t, order))[Resend(t, uid)] == multiset(order)[uid]
  {
    if order != [] {
      CountOfResends(t, order[1..], uid);
      assert Resends(t, order) == [Resend(t, order[0])] + Resends(t, order[1..]);
      assert order == [order[0]] + order[1..];
    }
  }

  // The table after node n has made and announced an object.
  function Made(uid: Uid, n: NodeId, size: nat): Table {
    Table(map[uid := [n]], map[uid := size], map[], map[], map[], map[], {})
  }

  lemma MadeAndAnnounced(uid: Uid, n: NodeId, size: nat)
    ensures Step(Step(Opened({}), Generate(uid, n)), Announce(uid, n, size)) == Made(uid, n, size)
  {
    var t1 := Step(Opened({}), Generate(uid, n));
    assert t1 == Opened({}).(generating := map[uid := n]);
    assert Recorded(t1, uid) + [n] == [n];
    assert t1.generating - {uid} == map[] && t1.waitlist - {uid} == map[];
  }

  // With flushing on the promise fails: the maker's announcement is flushed, the
  // maker dies, and a sweep that reschedules nothing is what the report leads to.
  lemma FlushedObjectIsAbandoned(uid: Uid, n: NodeId, size: nat, es: seq<Event>)
    requires es == [Generate(uid, n), Announce(uid, n, size), Flush(true)]
    ensures Run(Opened({}), es)
    ensures RowsOf(After(Opened({}), es).rows, uid) == {n}
    ensures Lost(After(Opened({}), es), map[n := false]) == {}
  {
    var t := Made(uid, n, size);
    RunOfThree(Opened({}), es[0], es[1], es[2]);
    MadeAndAnnounced(uid, n, size);
    assert Commits(t.locations, true) by { assert uid in t.locations; }
    OverrideRows({}, t.locations, uid);
    assert Tracked(Step(t, es[2])) == {};
  }

  // ----------------------------------------------- the sweep and what is known

  ghost predicate GeneratorIsLive(t: Table, live: map<NodeId, bool>, uid: Uid) {
    uid in t.generating && IsLive(live, t.generating[uid])
  }

  ghost predicate HolderIsLive(live: map<NodeId, bool>, nodes: set<NodeId>) {
    exists n :: n in nodes && IsLive(live, n)
  }

  // What the sweep is for, in terms of all that the server knows, in memory or on
  // disk: an object that is being made or has been looked for or recorded is
  // rescheduled exactly if neither its generator nor any holder is live.
  ghost predicate SweepIsRight(t: Table, live: map<NodeId, bool>, uid: Uid) {
    uid in Lost(t, live) <==>
      && (uid in Tracked(t) || RowsOf(t.rows, uid) != {})
      && !GeneratorIsLive(t, live, uid) && !HolderIsLive(live, LocationSet(t, uid))
  }

  // The sweep reads memory only. It is right about a uid exactly if memory has an
  // entry for it; or else if, being made, its generator is live or no node on disk
  // is; or else if it is not on disk, or some node on disk is live.
  lemma SweepIsRightIff(t: Table, live: map<NodeId, bool>, uid: Uid)
    requires TableRuns.Inv(t)
    ensures SweepIsRight(t, live, uid) <==>
            || uid in t.locations
            || (if uid in t.generating
                then GeneratorIsLive(t, live, uid) || !HolderIsLive(live, RowsOf(t.rows, uid))
                else RowsOf(t.rows, uid) == {} || HolderIsLive(live, RowsOf(t.rows, uid)))
  {
    assert AllDead(live, GetNodes(t, uid)) <==>
           !GeneratorIsLive(t, live, uid) && !HolderIsLive(live, Elements(Recorded(t, uid))) by {
      NodesAreMakerAndHolders(t, live, uid);
    }
    if uid in t.locations && t.locations[uid] == [] {
      assert LocationSet(t, uid) == {};
    }
  }

  lemma NodesAreMakerAndHolders(t: Table, live: map<NodeId, bool>, uid: Uid)
    ensures AllDead(live, GetNodes(t, uid)) <==>
            !GeneratorIsLive(t, live, uid) && !HolderIsLive(live, Elements(Recorded(t, uid)))
  {
    forall n ensures n in GetNodes(t, uid) <==>
                     n in Elements(Recorded(t, uid)) || (uid in t.generating && n == t.generating[uid]) {
    }
    if !AllDead(live, GetNodes(t, uid)) {
      var n :| n in GetNodes(t, uid) && IsLive(live, n);
      assert GeneratorIsLive(t, live, uid) || n in Elements(Recorded(t, uid));
    }
  }

  lemma {:induction false} RowsStayWithoutFlush(rows: set<(Uid, NodeId)>, es: seq<Event>)
    requires NoFlush(es)
    ensures After(Opened(rows), es).rows == rows
  {
    if es != [] {
      RowsStayWithoutFlush(rows, Front(es));
      FlushFailures.StepRows(After(Opened(rows), Front(es)), Last(es));
    }
  }

  // So with flushing off and from an empty database it is always right.
  lemma SweepIsRightWithoutFlush(es: seq<Event>, live: map<NodeId, bool>, uid: Uid)
    requires Run(Opened({}), es) && NoFlush(es)
    ensures SweepIsRight(After(Opened({}), es), live, uid)
  {
    TableRuns.RunInv({}, es);
    RowsStayWithoutFlush({}, es);
    SweepIsRightIff(After(Opened({}), es), live, uid);
  }

  // ------------------------------------------------- objects nobody has made yet

  ghost predicate NeverKnown(es: seq<Event>, uid: Uid) {
    forall i :: 0 <= i < |es| ==> !((es[i].Announce? || es[i].Generate?) && es[i].uid == uid)
  }

  // The uid was looked up after the last flush that committed.
  ghost predicate LookedUpSinceFlush(rows: set<(Uid, NodeId)>, es: seq<Event>, uid: Uid) {
    es != [] && (
      var t, e := After(Opened(rows), Front(es)), Last(es);
      if e.Lookup? && e.uid == uid && !LookupFails(t, uid, e.read) then true
      else if e.Flush? && Commits(t.locations, e.healthy) then false
      else LookedUpSinceFlush(rows, Front(es), uid))
  }

  lemma {:induction false} NeverKnownState(rows: set<(Uid, NodeId)>, es: seq<Event>, uid: Uid)
    requires Run(Opened(rows), es) && NeverKnown(es, uid) && RowsOf(rows, uid) == {}
    ensures var t := After(Opened(rows), es);
            && LocationSet(t, uid) == {} && uid !in t.generating
            && (uid in t.locations <==> LookedUpSinceFlush(rows, es, uid))
  {
    if es != [] {
      var t, e := After(Opened(rows), Front(es)), Last(es);
      NeverKnownState(rows, Front(es), uid);
      TableRuns.RunInv(rows, Front(es));
      TableRuns.StepView(t, e, uid);
      NeverKnownStep(t, e, uid);
    }
  }

  lemma NeverKnownStep(t: Table, e: Event, uid: Uid)
    requires Possible(t, e) && !((e.Announce? || e.Generate?) && e.uid == uid)
    requires uid !in t.generating && LocationSet(t, uid) == {}
    ensures uid !in Step(t, e).generating
    ensures uid in Step(t, e).locations <==>
            || (e.Lookup? && e.uid == uid && !LookupFails(t, uid, e.read))
            || (uid in t.locations && !(e.Flush? && Commits(t.locations, e.healthy)))
  {
    match e
    case Announce(_, _, _) =>
    case Lookup(u, peer, read, pick) =>
      if !LookupFails(t, u, read) {
        TableRuns.LookupFrame(t, u, peer, read, pick, uid);
        if u == uid && Recorded(t, uid) == [] {
          assert read.Ok?;
        }
      }
    case Flush(_) =>
    case Lineage(_) =>
    case Generate(_, _) =>
    case Sweep(_, _) =>
  }

  lemma RecordedIsKnown(t: Table, uid: Uid)
    ensures Recorded(t, uid) != [] ==> LocationSet(t, uid) != {}
  {
    if Recorded(t, uid) != [] {
      assert Recorded(t, uid)[0] in LocationSet(t, uid);
    }
  }

  // A uid that no node was ever known to make or hold is rescheduled exactly if
  // somebody has asked for it since the last flush that committed: for want of a
  // node, all of its nodes count as dead.
  lemma UnmadeObjectIsRescheduledIff(rows: set<(Uid, NodeId)>, es: seq<Event>, live: map<NodeId, bool>, uid: Uid)
    requires Run(Opened(rows), es) && NeverKnown(es, uid) && RowsOf(rows, uid) == {}
    ensures uid in Lost(After(Opened(rows), es), live) <==> LookedUpSinceFlush(rows, es, uid)
  {
    var t := After(Opened(rows), es);
    NeverKnownState(rows, es, uid);
    RecordedIsKnown(t, uid);
    assert GetNodes(t, uid) == [];
  }

  // ---------------------------------------------------------- waiting requesters

  // With flushing off, what is waited for stays within the sweep's reach.
  lemma {:induction false} AwaitedIsTracked(rows: set<(Uid, NodeId)>, es: seq<Event>, uid: Uid)
    requires Run(Opened(rows), es) && NoFlush(es)
    requires uid in After(Opened(rows), es).waitlist
    ensures uid in After(Opened(rows), es).locations
  {
    assert es != [];
    var t, e := After(Opened(rows), Front(es)), Last(es);
    if uid in t.waitlist {
      AwaitedIsTracked(rows, Front(es), uid);
    }
    AwaitedStaysTracked(t, e, uid);
  }

  lemma AwaitedStaysTracked(t: Table, e: Event, uid: Uid)
    requires Possible(t, e) && !e.Flush? && uid in Step(t, e).waitlist
    requires uid in t.waitlist ==> uid in t.locations
    ensures uid in Step(t, e).locations
  {
    match e
    case Announce(_, _, _) =>
    case Lookup(_, _, _, _) =>
    case Lineage(_) =>
    case Generate(_, _) =>
    case Sweep(_, _) =>
  }

  // The other way round: an object is announced and flushed, and then registered at
  // a node that dies. It is rescheduled although a live node holds it.
  lemma HeldObjectIsRescheduled(uid: Uid, a: NodeId, b: NodeId, size: nat, es: seq<Event>, live: map<NodeId, bool>)
    requires a != b && es == [Announce(uid, a, size), Flush(true), Generate(uid, b)]
    requires live == map[a := true, b := false]
    ensures Run(Opened({}), es)
    ensures var t := After(Opened({}), es);
            && HolderIsLive(live, LocationSet(t, uid)) && Lost(t, live) == {uid}
  {
    RunOfThree(Opened({}), es[0], es[1], es[2]);
    var t1 := Step(Opened({}), es[0]);
    assert Recorded(Opened({}), uid) + [a] == [a];
    assert t1.locations == map[uid := [a]];
    assert Commits(t1.locations, true) by { assert uid in t1.locations; }
    OverrideRows({}, t1.locations, uid);
    var t2 := Step(t1, es[1]);
    assert t2.locations == map[] && t2.generating == map[];
    var t := Step(t2, es[2]);
    assert t.generating == map[uid := b] && t.locations == map[] && t.rows == t2.rows;
    assert a in RowsOf(t.rows, uid) && LocationSet(t, uid) == RowsOf(t.rows, uid);
    assert IsLive(live, a);
    assert GetNodes(t, uid) == [b];
    assert Tracked(t) == {uid};
  }

  // ------------------------------------------------------------- re-execution

  // A node stops counting for a uid only when, before it has announced the uid
  // itself, another node announces it or is registered as its generator; or by a
  // committed flush when it is not the generator.
  ghost predicate Displaces(t: Table, e: Event, uid: Uid, n: NodeId) {
    match e
    case Announce(u, m, _) => u == uid && m != n && n !in Recorded(t, uid)
    case Generate(u, m) => u == uid && m != n && n !in Recorded(t, uid)
    case Flush(healthy) => Commits(t.locations, healthy) && !(uid in t.generating && t.generating[uid] == n)
    case _ => false
  }

  lemma AnnounceNodes(t: Table, u: Uid, m: NodeId, size: nat, uid: Uid, n: NodeId)
    ensures n in GetNodes(NotifyOwns(t, u, m, size).0, uid) <==>
            if u == uid then n == m || n in Recorded(t, uid) else n in GetNodes(t, uid)
  {
  }

  lemma LookupNodes(t: Table, u: Uid, peer: Address, read: Result<seq<NodeId>>, pick: nat, uid: Uid, n: NodeId)
    requires n in GetNodes(t, uid)
    ensures n in GetNodes(RequestLocation(t, u, peer, read, pick).0, uid)
  {
    if !LookupFails(t, u, read) {
      assert Recorded(t, uid) != [] ==> Recorded(Fill(t, u, read), uid) == Recorded(t, uid);
    }
  }

  lemma LeavesOnlyWhenDisplaced(t: Table, e: Event, uid: Uid, n: NodeId)
    requires Possible(t, e) && n in GetNodes(t, uid)
    ensures n !in GetNodes(Step(t, e), uid) <==> Displaces(t, e, uid, n)
  {
    match e
    case Announce(u, m, size) => AnnounceNodes(t, u, m, size, uid, n);
    case Lookup(u, peer, read, pick) => LookupNodes(t, u, peer, read, pick, uid, n);
    case Flush(_) =>
    case Lineage(_) =>
    case Generate(_, _) =>
    case Sweep(_, _) =>
  }

  ghost predicate NeverDisplaced(t: Table, es: seq<Event>, uid: Uid, n: NodeId) {
    es == [] || (NeverDisplaced(t, Front(es), uid, n) && !Displaces(After(t, Front(es)), Last(es), uid, n))
  }

  // Once a rescheduled task is registered at a node, no later report that marks
  // the node live reschedules it, as long as the node is not displaced.
  lemma {:induction false} ReexecutionSettles(t: Table, es: seq<Event>, uid: Uid, n: NodeId)
    requires Run(t, es) && uid in t.generating && t.generating[uid] == n
    requires NeverDisplaced(t, es, uid, n)
    ensures n in GetNodes(After(t, es), uid)
    ensures forall live, order: seq<Uid> ::
              IsLive(live, n) && Possible(After(t, es), Sweep(live, order)) ==> uid !in order
  {
    if es != [] {
      ReexecutionSettles(t, Front(es), uid, n);
      LeavesOnlyWhenDisplaced(After(t, Front(es)), Last(es), uid, n);
    }
    forall live, order: seq<Uid> | IsLive(live, n) && Possible(After(t, es), Sweep(live, order)) ensures uid !in order {
      assert uid !in Lost(After(t, es), live);
      assert uid !in Elements(order);
    }
  }
}
