// The object sizes that locality scheduling reads, over every run of the table.
module ObjectSizes {
  import opened Types
  import opened LocationDatabase
  import opened ObjectTable
  import TableRuns

  // A call records a size exactly if it announces an object that memory has no
  // entry for.
  ghost predicate Records(t: Table, e: Event) {
    e.Announce? && e.uid !in t.locations
  }

  lemma StepSizes(t: Table, e: Event)
    ensures Step(t, e).sizes == if Records(t, e) then t.sizes[e.uid := e.size] else t.sizes
  {
    match e
    case Announce(_, _, _) =>
    case Lookup(_, _, _, _) =>
    case Flush(_) =>
    case Lineage(_) =>
    case Generate(_, _) =>
    case Sweep(_, _) =>
  }

  // The size in the last announcement that recorded one.
  ghost function LastSized(rows: set<(Uid, NodeId)>, es: seq<Event>, uid: Uid): Option<nat> {
    if es == [] then None
    else if Records(After(Opened(rows), Front(es)), Last(es)) && Last(es).uid == uid then Some(Last(es).size)
    else LastSized(rows, Front(es), uid)
  }

  // What a scheduler is told of an object's bytes.
  function ToldBytes(t: Table, uid: Uid): Option<nat> {
    var answer := ObjectLocations(t, [uid]);
    if uid in answer then Some(answer[uid].bytes) else None
  }

  // In every run, a scheduler is told a size exactly if memory has an entry for the
  // object; and it is the last one that was recorded, or zero if none was.
  lemma {:induction false} ToldBytesAreLastSized(rows: set<(Uid, NodeId)>, es: seq<Event>, uid: Uid)
    ensures var t := After(Opened(rows), es);
            && (uid in t.sizes <==> LastSized(rows, es, uid).Some?)
            && (uid in t.sizes ==> Some(t.sizes[uid]) == LastSized(rows, es, uid))
            && ToldBytes(t, uid) ==
                 if uid !in t.locations then None
                 else if LastSized(rows, es, uid).None? then Some(0)
                 else LastSized(rows, es, uid)
  {
    if es != [] {
      ToldBytesAreLastSized(rows, Front(es), uid);
      StepSizes(After(Opened(rows), Front(es)), Last(es));
    }
  }

  // --------------------------------------------------------- when it is right

  // A scheduler that asks while memory lists a node for the object is told s.
  ghost predicate Tells(t: Table, uid: Uid, s: nat) {
    Recorded(t, uid) != [] ==> ToldBytes(t, uid) == Some(s)
  }

  // The calls that get the size wrong: an announcement that finds no entry in
  // memory and carries another size; one that finds an entry without a size, as a
  // lookup that missed leaves behind; and a lookup that loads nodes of an object
  // without a size, which an earlier run left on disk.
  ghost predicate Missizes(t: Table, e: Event, uid: Uid, s: nat) {
    match e
    case Announce(u, _, size) => u == uid && if u in t.locations then u !in t.sizes && s != 0 else size != s
    case Lookup(u, _, read, _) =>
      u == uid && Recorded(t, u) == [] && !LookupFails(t, u, read) && read.value != [] && u !in t.sizes && s != 0
    case _ => false
  }

  // No size but s is kept, and one is kept for what memory lists, if it matters.
  ghost predicate SizeIs(t: Table, uid: Uid, s: nat) {
    && (uid in t.sizes ==> t.sizes[uid] == s)
    && (Recorded(t, uid) != [] && s != 0 ==> uid in t.sizes)
  }

  lemma SizeIsTold(t: Table, uid: Uid, s: nat)
    requires SizeIs(t, uid, s)
    ensures Tells(t, uid, s)
  {
  }

  lemma StepRecorded(t: Table, e: Event, uid: Uid)
    requires Possible(t, e)
    ensures Recorded(Step(t, e), uid) != [] ==>
            || Recorded(t, uid) != []
            || (e.Announce? && e.uid == uid)
            || (e.Lookup? && e.uid == uid && !LookupFails(t, uid, e.read) && e.read.value != [])
  {
    match e
    case Announce(_, _, _) =>
    case Lookup(_, _, _, _) =>
    case Flush(_) =>
    case Lineage(_) =>
    case Generate(_, _) =>
    case Sweep(_, _) =>
  }

  lemma AnnouncementTells(t: Table, uid: Uid, node: NodeId, size: nat, s: nat)
    requires SizeIs(t, uid, s)
    ensures var t' := NotifyOwns(t, uid, node, size).0;
            if Missizes(t, Announce(uid, node, size), uid, s) then !Tells(t', uid, s) else SizeIs(t', uid, s)
  {
  }

  lemma LookupTells(t: Table, uid: Uid, peer: Address, read: Result<seq<NodeId>>, pick: nat, s: nat)
    requires SizeIs(t, uid, s)
    ensures var t' := RequestLocation(t, uid, peer, read, pick).0;
            if Missizes(t, Lookup(uid, peer, read, pick), uid, s) then !Tells(t', uid, s) else SizeIs(t', uid, s)
  {
  }

  // One such call makes the size wrong at once, and no other call does.
  lemma StepTells(t: Table, e: Event, uid: Uid, s: nat)
    requires Possible(t, e) && SizeIs(t, uid, s)
    ensures if Missizes(t, e, uid, s) then !Tells(Step(t, e), uid, s) else SizeIs(Step(t, e), uid, s)
  {
    StepSizes(t, e);
    StepRecorded(t, e, uid);
    if e.Announce? && e.uid == uid {
      AnnouncementTells(t, uid, e.node, e.size, s);
    } else if e.Lookup? && e.uid == uid {
      LookupTells(t, uid, e.peer, e.read, e.pick, s);
    }
  }

  // The same of all that is known, so that a lookup loads nothing without a size.
  ghost predicate SizeIsKept(t: Table, uid: Uid, s: nat) {
    && (uid in t.sizes ==> t.sizes[uid] == s)
    && (LocationSet(t, uid) != {} && s != 0 ==> uid in t.sizes)
  }

  lemma KeptIsRecorded(t: Table, uid: Uid, s: nat)
    requires SizeIsKept(t, uid, s)
    ensures SizeIs(t, uid, s)
  {
    if Recorded(t, uid) != [] {
      assert Recorded(t, uid)[0] in LocationSet(t, uid);
    }
  }

  // Then only an announcement gets the size wrong.
  lemma StepKeeps(t: Table, e: Event, uid: Uid, s: nat)
    requires TableRuns.Inv(t) && Possible(t, e) && SizeIsKept(t, uid, s)
    ensures Missizes(t, e, uid, s) ==> e.Announce?
    ensures !Missizes(t, e, uid, s) ==> SizeIsKept(Step(t, e), uid, s)
  {
    TableRuns.StepView(t, e, uid);
    StepSizes(t, e);
    if e.Lookup? && Missizes(t, e, uid, s) {
      LoadedIsKnown(t, uid, e.read);
    }
  }

  lemma LoadedIsKnown(t: Table, uid: Uid, read: Result<seq<NodeId>>)
    requires Recorded(t, uid) == [] && read.Ok? && read.value != [] && Listing(t.rows, uid, read.value)
    ensures LocationSet(t, uid) != {}
  {
    assert read.value[0] in RowsOf(t.rows, uid);
  }

  ghost predicate AlwaysTells(rows: set<(Uid, NodeId)>, es: seq<Event>, uid: Uid, s: nat) {
    Tells(After(Opened(rows), es), uid, s) && (es == [] || AlwaysTells(rows, Front(es), uid, s))
  }

  ghost predicate NeverMissizes(rows: set<(Uid, NodeId)>, es: seq<Event>, uid: Uid, s: nat) {
    es == [] || (NeverMissizes(rows, Front(es), uid, s) && !Missizes(After(Opened(rows), Front(es)), Last(es), uid, s))
  }

  // In every run, and for every size s: a scheduler is told s of the object at every
  // point at which memory lists a node for it, if and only if no call of the run
  // gets the size wrong.
  lemma {:induction false} AlwaysTellsIff(rows: set<(Uid, NodeId)>, es: seq<Event>, uid: Uid, s: nat)
    requires Run(Opened(rows), es)
    ensures AlwaysTells(rows, es, uid, s) <==> NeverMissizes(rows, es, uid, s)
    ensures NeverMissizes(rows, es, uid, s) ==> SizeIs(After(Opened(rows), es), uid, s)
  {
    if es != [] {
      AlwaysTellsIff(rows, Front(es), uid, s);
      if NeverMissizes(rows, Front(es), uid, s) {
        StepTells(After(Opened(rows), Front(es)), Last(es), uid, s);
        if !Missizes(After(Opened(rows), Front(es)), Last(es), uid, s) {
          SizeIsTold(After(Opened(rows), es), uid, s);
        }
      }
    }
  }

  // -------------------------------------------------------------- two wrong runs

  // A lookup that misses leaves an empty list behind, so the announcement that
  // follows records no size: the object counts as having no bytes.
  lemma MissLeavesNoSize(uid: Uid, peer: Address, n: NodeId, size: nat, es: seq<Event>)
    requires es == [Lookup(uid, peer, Ok([]), 0), Announce(uid, n, size)]
    ensures Run(Opened({}), es)
    ensures var t := After(Opened({}), es); LocationSet(t, uid) == {n} && ToldBytes(t, uid) == Some(0)
  {
    RunOfTwo(Opened({}), es[0], es[1]);
    var t1 := Step(Opened({}), es[0]);
    assert Listing({}, uid, []);
    assert t1.locations == map[uid := []] && t1.sizes == map[];
    var t := Step(t1, es[1]);
    assert Recorded(t1, uid) + [n] == [n];
    assert t.locations[uid] == [n] && uid !in t.sizes;
  }

  // After an eviction, the announcement of a cached copy, which carries no size,
  // replaces the size that was recorded by zero.
  lemma CopyErasesSize(uid: Uid, n: NodeId, m: NodeId, size: nat, es: seq<Event>)
    requires es == [Announce(uid, n, size), Flush(true), Announce(uid, m, 0)]
    ensures Run(Opened({}), es)
    ensures ToldBytes(Step(Opened({}), es[0]), uid) == Some(size)
    ensures ToldBytes(After(Opened({}), es), uid) == Some(0)
  {
    RunOfThree(Opened({}), es[0], es[1], es[2]);
    var t1 := Step(Opened({}), es[0]);
    assert Recorded(Opened({}), uid) + [n] == [n];
    assert t1.locations == map[uid := [n]] && t1.sizes == map[uid := size];
    assert Commits(t1.locations, true) by { assert uid in t1.locations; }
    var t2 := Step(t1, es[1]);
    assert t2.locations == map[] && t2.sizes == t1.sizes;
    StepSizes(t2, es[2]);
  }
}
