// What holds of the object table over every run of its handlers.
module TableRuns {
  import opened Types
  import opened Collections
  import opened LocationDatabase
  import opened ObjectTable

  // ---------------------------------------------------------------- invariant

  // An empty list in memory is only ever the answer of a disk that has no rows,
  // and only uids without a known location are waited for.
  ghost predicate Inv(t: Table) {
    && (forall u :: u in t.locations && t.locations[u] == [] ==> RowsOf(t.rows, u) == {})
    && (forall u :: u in t.waitlist ==> t.waitlist[u] != [] && LocationSet(t, u) == {})
  }

  // How one call changes what is known about one uid: nothing but an
  // announcement does, and an announcement forgets the disk when memory has no
  // entry to add to.
  lemma StepView(t: Table, e: Event, uid: Uid)
    requires Inv(t) && Possible(t, e)
    ensures LocationSet(Step(t, e), uid) ==
            if e.Announce? && e.uid == uid
            then (if uid in t.locations then LocationSet(t, uid) else {}) + {e.node}
            else LocationSet(t, uid)
  {
    match e
    case Announce(u, node, size) => AnnounceView(t, u, node, size, uid);
    case Lookup(u, peer, read, pick) => LookupView(t, u, peer, read, pick, uid);
    case Flush(_) => OverrideRows(t.rows, t.locations, uid);
    case Lineage(_) =>
    case Generate(_, _) =>
    case Sweep(_, _) =>
  }

  lemma AnnounceView(t: Table, u: Uid, node: NodeId, size: nat, uid: Uid)
    requires Inv(t)
    ensures LocationSet(NotifyOwns(t, u, node, size).0, uid) ==
            if u == uid
            then (if uid in t.locations then LocationSet(t, uid) else {}) + {node}
            else LocationSet(t, uid)
  {
    ElementsAppend(Recorded(t, u), node);
  }

  // Loading a list from disk changes nothing that is known.
  lemma FillView(t: Table, u: Uid, read: Result<seq<NodeId>>, uid: Uid)
    requires !LookupFails(t, u, read) && (read.Ok? ==> Listing(t.rows, u, read.value))
    ensures LocationSet(Fill(t, u, read), uid) == LocationSet(t, uid)
    ensures Elements(Recorded(Fill(t, u, read), u)) == LocationSet(t, u)
    ensures Recorded(Fill(t, u, read), u) == [] <==> LocationSet(t, u) == {}
  {
    var nodes := Recorded(Fill(t, u, read), u);
    if nodes != [] {
      assert nodes[0] in LocationSet(t, u);
    }
  }

  // What a lookup leaves of the table it has filled.
  lemma LookupFrame(t: Table, u: Uid, peer: Address, read: Result<seq<NodeId>>, pick: nat, uid: Uid)
    requires !LookupFails(t, u, read)
    ensures var t1, t' := Fill(t, u, read), RequestLocation(t, u, peer, read, pick).0;
            && t'.locations == t1.locations && t'.rows == t.rows
            && Waiters(t', uid) == Waiters(t, uid) +
                 if uid == u && Recorded(t1, u) == [] then [ClientAddress(peer)] else []
  {
  }

  lemma SameView(t: Table, t': Table, uid: Uid)
    requires t.locations == t'.locations && t.rows == t'.rows
    ensures LocationSet(t, uid) == LocationSet(t', uid)
  {
  }

  lemma LookupView(t: Table, u: Uid, peer: Address, read: Result<seq<NodeId>>, pick: nat, uid: Uid)
    requires read.Ok? ==> Listing(t.rows, u, read.value)
    ensures var t' := RequestLocation(t, u, peer, read, pick).0;
            && LocationSet(t', uid) == LocationSet(t, uid)
            && t'.rows == t.rows
            && Waiters(t', uid) == Waiters(t, uid) +
                 if uid == u && !LookupFails(t, u, read) && LocationSet(t, u) == {} then [ClientAddress(peer)] else []
  {
    if !LookupFails(t, u, read) {
      FillView(t, u, read, uid);
      LookupFrame(t, u, peer, read, pick, uid);
      SameView(Fill(t, u, read), RequestLocation(t, u, peer, read, pick).0, uid);
    }
  }

  lemma LoadedEmptyListIsBacked(t: Table, uid: Uid, peer: Address, read: Result<seq<NodeId>>, pick: nat, u: Uid)
    requires Inv(t) && (read.Ok? ==> Listing(t.rows, uid, read.value))
    requires var t' := RequestLocation(t, uid, peer, read, pick).0; u in t'.locations && t'.locations[u] == []
    ensures RowsOf(RequestLocation(t, uid, peer, read, pick).0.rows, u) == {}
  {
    if !LookupFails(t, uid, read) {
      LookupFrame(t, uid, peer, read, pick, u);
    }
  }

  lemma EmptyListStaysBacked(t: Table, e: Event, u: Uid)
    requires Inv(t) && Possible(t, e)
    requires u in Step(t, e).locations && Step(t, e).locations[u] == []
    ensures RowsOf(Step(t, e).rows, u) == {}
  {
    match e
    case Announce(_, _, _) =>
    case Lookup(uid, peer, read, pick) => LoadedEmptyListIsBacked(t, uid, peer, read, pick, u);
    case Flush(_) =>
    case Lineage(_) =>
    case Generate(_, _) =>
    case Sweep(_, _) =>
  }

  lemma StepWaiters(t: Table, e: Event, u: Uid)
    requires Possible(t, e)
    ensures u in Step(t, e).waitlist ==>
              || (u in t.waitlist && Step(t, e).waitlist[u] == t.waitlist[u])
              || (e.Lookup? && e.uid == u && Step(t, e).waitlist[u] != [] && LocationSet(t, u) == {})
    ensures e.Announce? ==> e.uid !in Step(t, e).waitlist
  {
    match e
    case Announce(uid, node, size) =>
    case Lookup(uid, peer, read, pick) => LookupView(t, uid, peer, read, pick, u);
    case Flush(_) =>
    case Lineage(_) =>
    case Generate(_, _) =>
    case Sweep(_, _) =>
  }

  lemma WaitersStayIgnorant(t: Table, e: Event, u: Uid)
    requires Inv(t) && Possible(t, e)
    requires u in Step(t, e).waitlist
    ensures Step(t, e).waitlist[u] != [] && LocationSet(Step(t, e), u) == {}
  {
    StepView(t, e, u);
    StepWaiters(t, e, u);
  }

  lemma StepInv(t: Table, e: Event)
    requires Inv(t) && Possible(t, e)
    ensures Inv(Step(t, e))
  {
    var t' := Step(t, e);
    forall u | u in t'.locations && t'.locations[u] == [] ensures RowsOf(t'.rows, u) == {} {
      EmptyListStaysBacked(t, e, u);
    }
    forall u | u in t'.waitlist ensures t'.waitlist[u] != [] && LocationSet(t', u) == {} {
      WaitersStayIgnorant(t, e, u);
    }
  }

  lemma {:induction false} RunInv(rows: set<(Uid, NodeId)>, es: seq<Event>)
    requires Run(Opened(rows), es)
    ensures Inv(After(Opened(rows), es))
  {
    if es != [] {
      RunInv(rows, Front(es));
      StepInv(After(Opened(rows), Front(es)), Last(es));
    }
  }

  // ------------------------------------------------------- what is remembered

  // The announcements of a uid, oldest first.
  ghost function History(es: seq<Event>, uid: Uid): seq<NodeId> {
    if es == [] then []
    else
      History(Front(es), uid) +
      if Last(es).Announce? && Last(es).uid == uid then [Last(es).node] else []
  }

  ghost predicate IsSuffixView(view: set<NodeId>, h: seq<NodeId>, k: nat) {
    k < |h| && view == Elements(h[k..])
  }

  // A view made of what was on disk at the start and the whole history, or of
  // the history from some point on.
  ghost predicate FromHistory(stored: set<NodeId>, view: set<NodeId>, h: seq<NodeId>) {
    view == stored + Elements(h) || exists k: nat :: IsSuffixView(view, h, k)
  }

  lemma FromHistoryGrows(stored: set<NodeId>, view: set<NodeId>, h: seq<NodeId>, known: bool, n: NodeId)
    requires FromHistory(stored, view, h)
    ensures FromHistory(stored, (if known then view else {}) + {n}, h + [n])
  {
    if !known {
      assert (h + [n])[|h|..] == [n];
      assert IsSuffixView({} + {n}, h + [n], |h|);
    } else if view == stored + Elements(h) {
      ElementsAppend(h, n);
    } else {
      var k: nat :| IsSuffixView(view, h, k);
      assert (h + [n])[k..] == h[k..] + [n];
      ElementsAppend(h[k..], n);
      assert IsSuffixView(view + {n}, h + [n], k);
    }
  }

  // In every run the view of a uid is made from its announcement history.
  lemma {:induction false} ViewIsSuffixOfHistory(rows: set<(Uid, NodeId)>, es: seq<Event>, uid: Uid)
    requires Run(Opened(rows), es)
    ensures FromHistory(RowsOf(rows, uid), LocationSet(After(Opened(rows), es), uid), History(es, uid))
  {
    if es != [] {
      var t, e := After(Opened(rows), Front(es)), Last(es);
      ViewIsSuffixOfHistory(rows, Front(es), uid);
      RunInv(rows, Front(es));
      StepView(t, e, uid);
      if e.Announce? && e.uid == uid {
        FromHistoryGrows(RowsOf(rows, uid), LocationSet(t, uid), History(Front(es), uid), uid in t.locations, e.node);
      } else {
        assert History(es, uid) == History(Front(es), uid);
      }
    }
  }

  // An object that has been announced is never unknown again, and its latest
  // announcer is listed, whatever was looked up or flushed since.
  lemma AnnouncedStaysKnown(rows: set<(Uid, NodeId)>, es: seq<Event>, uid: Uid)
    requires Run(Opened(rows), es)
    requires History(es, uid) != []
    ensures var h := History(es, uid); h[|h| - 1] in LocationSet(After(Opened(rows), es), uid)
    ensures rows == {} ==>
            exists k: nat :: IsSuffixView(LocationSet(After(Opened(rows), es), uid), History(es, uid), k)
  {
    ViewIsSuffixOfHistory(rows, es, uid);
    var view, h := LocationSet(After(Opened(rows), es), uid), History(es, uid);
    if view == RowsOf(rows, uid) + Elements(h) {
      if rows == {} {
        assert h[0..] == h;
        assert IsSuffixView(view, h, 0);
      }
    } else {
      var k: nat :| IsSuffixView(view, h, k);
      assert h[k..][|h| - 1 - k] == h[|h| - 1];
    }
  }

  // What is listed was announced, or was on disk at the start.
  lemma OnlyAnnouncedIsListed(rows: set<(Uid, NodeId)>, es: seq<Event>, uid: Uid)
    requires Run(Opened(rows), es)
    ensures LocationSet(After(Opened(rows), es), uid) <= RowsOf(rows, uid) + Elements(History(es, uid))
  {
    ViewIsSuffixOfHistory(rows, es, uid);
  }

  // --------------------------------------------------------- cache refinement

  // The table without a cache: everything ever stored or announced.
  ghost function Plain(rows: set<(Uid, NodeId)>, es: seq<Event>, uid: Uid): set<NodeId> {
    RowsOf(rows, uid) + Elements(History(es, uid))
  }

  // An announcement that the handler gets wrong: memory has no entry for the
  // uid and the disk knows some other holder.
  ghost predicate Forgets(t: Table, e: Event) {
    e.Announce? && e.uid !in t.locations && !(RowsOf(t.rows, e.uid) <= {e.node})
  }

  ghost predicate AnswersAsPlain(rows: set<(Uid, NodeId)>, es: seq<Event>) {
    forall u :: LocationSet(After(Opened(rows), es), u) == Plain(rows, es, u)
  }

  lemma StepRefines(rows: set<(Uid, NodeId)>, es: seq<Event>)
    requires es != [] && Run(Opened(rows), es) && AnswersAsPlain(rows, Front(es))
    ensures AnswersAsPlain(rows, es) <==> !Forgets(After(Opened(rows), Front(es)), Last(es))
  {
    var t, e := After(Opened(rows), Front(es)), Last(es);
    RunInv(rows, Front(es));
    if Forgets(t, e) {
      StepView(t, e, e.uid);
      assert e.uid !in t.locations && LocationSet(t, e.uid) == Plain(rows, Front(es), e.uid);
      assert LocationSet(After(Opened(rows), es), e.uid) == {e.node};
      var n :| n in RowsOf(t.rows, e.uid) && n != e.node;
      assert n in Plain(rows, es, e.uid);
    } else {
      forall u ensures LocationSet(After(Opened(rows), es), u) == Plain(rows, es, u) {
        StepView(t, e, u);
        assert LocationSet(t, u) == Plain(rows, Front(es), u);
      }
    }
  }

  ghost predicate AlwaysAnswersAsPlain(rows: set<(Uid, NodeId)>, es: seq<Event>) {
    AnswersAsPlain(rows, es) && (es == [] || AlwaysAnswersAsPlain(rows, Front(es)))
  }

  ghost predicate NeverForgets(rows: set<(Uid, NodeId)>, es: seq<Event>) {
    es == [] || (NeverForgets(rows, Front(es)) && !Forgets(After(Opened(rows), Front(es)), Last(es)))
  }

  // In every run the cached table with flushing knows, at every point, exactly
  // what a plain table knows, if and only if no announcement in the run finds
  // its uid evicted with another holder on disk.
  lemma {:induction false} CacheRefinesPlainTable(rows: set<(Uid, NodeId)>, es: seq<Event>)
    requires Run(Opened(rows), es)
    ensures AlwaysAnswersAsPlain(rows, es) <==> NeverForgets(rows, es)
  {
    if es != [] {
      CacheRefinesPlainTable(rows, Front(es));
      if AlwaysAnswersAsPlain(rows, Front(es)) {
        AlwaysNow(rows, Front(es));
        StepRefines(rows, es);
      }
    }
  }

  lemma AlwaysNow(rows: set<(Uid, NodeId)>, es: seq<Event>)
    ensures AlwaysAnswersAsPlain(rows, es) ==> AnswersAsPlain(rows, es)
  {
  }

  // The stated assumption is not an invariant: from an empty database, announce,
  // flush, announce elsewhere, and the first holder is no longer known.
  lemma EvictedAnnouncementForgets(uid: Uid, n: NodeId, m: NodeId, es: seq<Event>)
    requires n != m && es == [Announce(uid, n, 5), Flush(true), Announce(uid, m, 0)]
    ensures Run(Opened({}), es)
    ensures LocationSet(After(Opened({}), es), uid) == {m} && Plain({}, es, uid) == {n, m}
  {
    RunOfThree(Opened({}), es[0], es[1], es[2]);
    var t1 := Step(Opened({}), es[0]);
    assert Recorded(Opened({}), uid) == [] && t1.locations[uid] == [n];
    assert Commits(t1.locations, true) by { assert uid in t1.locations; }
    assert uid !in Step(t1, es[1]).locations;
    assert Recorded(Step(Step(t1, es[1]), es[2]), uid) == [m];
    HistoryOfThree(es[0], es[1], es[2], uid);
    assert History(es, uid) == [n, m];
  }

  lemma HistoryOfThree(e1: Event, e2: Event, e3: Event, uid: Uid)
    ensures History([e1, e2, e3], uid) ==
            (if e1.Announce? && e1.uid == uid then [e1.node] else []) +
            (if e2.Announce? && e2.uid == uid then [e2.node] else []) +
            (if e3.Announce? && e3.uid == uid then [e3.node] else [])
  {
    var es1, es2, es3 := [e1], [e1, e2], [e1, e2, e3];
    assert Front(es1) == [] && Front(es2) == es1 && Front(es3) == es2;
    assert History(es1, uid) == if e1.Announce? && e1.uid == uid then [e1.node] else [];
    assert History(es2, uid) == History(es1, uid) + if e2.Announce? && e2.uid == uid then [e2.node] else [];
  }

  // ------------------------------------------------------------ flush, lookup

  // A flush, committed or rolled back, changes no uid's locations; if it commits,
  // everything known is on disk, and memory is empty.
  lemma FlushIsTransparent(t: Table, healthy: bool)
    requires Inv(t)
    ensures var t' := FlushToDisk(t, healthy);
            && (forall u :: LocationSet(t', u) == LocationSet(t, u))
            && (if Commits(t.locations, healthy)
                then t'.locations == map[] && forall u :: RowsOf(t'.rows, u) == LocationSet(t, u)
                else t' == t)
  {
    forall u ensures LocationSet(FlushToDisk(t, healthy), u) == LocationSet(t, u) {
      StepView(t, Flush(healthy), u);
    }
    forall u ensures RowsOf(Override(t.rows, t.locations), u) == LocationSet(t, u) {
      OverrideRows(t.rows, t.locations, u);
    }
  }

  // A lookup that the disk does not fail is answered at once exactly when some
  // location is recorded; the answer is then zero or a recorded node that is not
  // live, and each of these can be drawn.
  lemma LookupAnswers(t: Table, uid: Uid, peer: Address, read: Result<seq<NodeId>>, answer: NodeId)
    requires Inv(t) && !LookupFails(t, uid, read) && (read.Ok? ==> Listing(t.rows, uid, read.value))
    ensures var from := Candidates(t.live, Recorded(Fill(t, uid, read), uid));
            forall pick: nat | pick < |from| ::
              var cs := Emits(t, Lookup(uid, peer, read, pick)).callbacks;
              cs == if LocationSet(t, uid) == {} then [] else [Callback(ClientAddress(peer), uid, from[pick])]
    ensures answer in Candidates(t.live, Recorded(Fill(t, uid, read), uid)) <==>
            answer == 0 || (answer in LocationSet(t, uid) && !IsLive(t.live, answer))
  {
    var t1 := Fill(t, uid, read);
    assert Elements(Recorded(t1, uid)) == LocationSet(t, uid);
    if Recorded(t1, uid) != [] {
      assert Recorded(t1, uid)[0] in LocationSet(t, uid);
    }
  }

  // Whatever the table may answer to a lookup is a node that it has recorded.
  ghost predicate AnswersAreHolders(t: Table, uid: Uid, peer: Address, read: Result<seq<NodeId>>) {
    forall pick: nat, cb ::
      Possible(t, Lookup(uid, peer, read, pick)) && cb in Emits(t, Lookup(uid, peer, read, pick)).callbacks ==>
        cb.node in LocationSet(t, uid)
  }

  // The handler's own description says that the answer is a node that has the
  // object. That holds of every answer exactly when there is none, since nothing is
  // recorded, or when node 0 is recorded.
  lemma EveryAnswerIsAHolderIff(t: Table, uid: Uid, peer: Address, read: Result<seq<NodeId>>)
    requires Inv(t) && !LookupFails(t, uid, read) && (read.Ok? ==> Listing(t.rows, uid, read.value))
    ensures AnswersAreHolders(t, uid, peer, read) <==> LocationSet(t, uid) == {} || 0 in LocationSet(t, uid)
  {
    var from := Candidates(t.live, Recorded(Fill(t, uid, read), uid));
    LookupAnswers(t, uid, peer, read, 0);
    if LocationSet(t, uid) != {} {
      assert from[0] == 0 && Possible(t, Lookup(uid, peer, read, 0));
      var cb := Callback(ClientAddress(peer), uid, 0);
      assert Emits(t, Lookup(uid, peer, read, 0)).callbacks == [cb];
      assert cb in Emits(t, Lookup(uid, peer, read, 0)).callbacks;
      forall pick: nat, c | Possible(t, Lookup(uid, peer, read, pick)) && c in Emits(t, Lookup(uid, peer, read, pick)).callbacks
        ensures c.node == 0 || c.node in LocationSet(t, uid)
      {
        assert c == Callback(ClientAddress(peer), uid, from[pick]);
        LookupAnswers(t, uid, peer, read, from[pick]);
      }
    }
  }

  // From a new server: one node announces an object, and the next lookup of it may
  // be answered with node zero.
  lemma AnswerMayBeNoHolder(uid: Uid, n: NodeId, size: nat, peer: Address, es: seq<Event>)
    requires n != 0 && es == [Announce(uid, n, size), Lookup(uid, peer, Err, 0)]
    ensures Run(Opened({}), es)
    ensures LocationSet(After(Opened({}), es), uid) == {n}
    ensures Emits(After(Opened({}), Front(es)), Last(es)).callbacks == [Callback(ClientAddress(peer), uid, 0)]
  {
    RunOfTwo(Opened({}), es[0], es[1]);
    var t1 := Step(Opened({}), es[0]);
    assert Recorded(Opened({}), uid) + [n] == [n];
    assert Recorded(t1, uid) == [n] && Fill(t1, uid, Err) == t1;
    assert Candidates(t1.live, [n])[0] == 0;
    assert Possible(t1, es[1]);
  }

  // ----------------------------------------------------------------- waitlist

  // An announcement wakes each waiter once, in the order in which they came, and
  // tells each of them the node that announces.
  lemma AnnouncementWakesWaiters(t: Table, u: Uid, n: NodeId, size: nat)
    ensures var woken, e := if u in t.waitlist then t.waitlist[u] else [], Announce(u, n, size);
            var cs := Emits(t, e).callbacks;
            && u !in Step(t, e).waitlist
            && |cs| == |woken|
            && forall i :: 0 <= i < |cs| ==> cs[i].addr == woken[i] && cs[i].uid == u && cs[i].node == n
  {
  }

  // The address whose location request a call accepts.
  ghost function AcceptedBy(t: Table, e: Event, uid: Uid): multiset<Address> {
    if e.Lookup? && e.uid == uid && !LookupFails(t, uid, e.read) then multiset{ClientAddress(e.peer)} else multiset{}
  }

  // The addresses whose location requests the server has accepted for a uid.
  ghost function Accepted(t: Table, es: seq<Event>, uid: Uid): multiset<Address> {
    if es == [] then multiset{}
    else
      Accepted(t, Front(es), uid) + AcceptedBy(After(t, Front(es)), Last(es), uid)
  }

  ghost function AddressesFor(cs: seq<Callback>, uid: Uid): multiset<Address> {
    if cs == [] then multiset{}
    else (if cs[0].uid == uid then multiset{cs[0].addr} else multiset{}) + AddressesFor(cs[1..], uid)
  }

  // The addresses that callbacks about a uid have been spawned to.
  ghost function CalledBack(t: Table, es: seq<Event>, uid: Uid): multiset<Address> {
    if es == [] then multiset{}
    else CalledBack(t, Front(es), uid) + AddressesFor(Emits(After(t, Front(es)), Last(es)).callbacks, uid)
  }

  lemma {:induction false} AddressesOfCallbacks(addrs: seq<Address>, u: Uid, node: NodeId, uid: Uid)
    ensures AddressesFor(Callbacks(addrs, u, node), uid) == if u == uid then multiset(addrs) else multiset{}
  {
    if addrs != [] {
      AddressesOfCallbacks(addrs[1..], u, node, uid);
      assert Callbacks(addrs, u, node)[1..] == Callbacks(addrs[1..], u, node);
      assert addrs == [addrs[0]] + addrs[1..];
    }
  }

  // One call moves addresses: what it accepts is called back or waits, and what
  // waited is called back or still waits.
  lemma LookupConserves(t: Table, u: Uid, peer: Address, read: Result<seq<NodeId>>, pick: nat, uid: Uid)
    requires read.Ok? ==> Listing(t.rows, u, read.value)
    ensures var r := RequestLocation(t, u, peer, read, pick);
            multiset(Waiters(t, uid)) +
            (if u == uid && !LookupFails(t, u, read) then multiset{ClientAddress(peer)} else multiset{})
            == AddressesFor(r.1.callbacks, uid) + multiset(Waiters(r.0, uid))
  {
    LookupView(t, u, peer, read, pick, uid);
    var cs := RequestLocation(t, u, peer, read, pick).1.callbacks;
    if cs != [] {
      assert cs[1..] == [];
    }
  }

  lemma StepConserves(t: Table, e: Event, uid: Uid)
    requires Possible(t, e)
    ensures multiset(Waiters(t, uid)) + AcceptedBy(t, e, uid)
            == AddressesFor(Emits(t, e).callbacks, uid) + multiset(Waiters(Step(t, e), uid))
  {
    match e
    case Announce(u, node, _) => AddressesOfCallbacks(Waiters(t, u), u, node, uid);
    case Lookup(u, peer, read, pick) => LookupConserves(t, u, peer, read, pick, uid);
    case Flush(_) =>
    case Lineage(_) =>
    case Generate(_, _) =>
    case Sweep(_, _) =>
  }

  lemma Regroup<T>(a: multiset<T>, c: multiset<T>, w: multiset<T>, a1: multiset<T>, c1: multiset<T>, w1: multiset<T>)
    requires a == c + w && w + a1 == c1 + w1
    ensures a + a1 == c + c1 + w1
  {
    assert a + a1 == c + (w + a1);
  }

  // Over every run, whatever the database held: the accepted requesters of a uid
  // are those called back plus those waiting, with multiplicity.
  lemma {:induction false} WaitlistConservation(rows: set<(Uid, NodeId)>, es: seq<Event>, uid: Uid)
    requires Run(Opened(rows), es)
    ensures Accepted(Opened(rows), es, uid) ==
            CalledBack(Opened(rows), es, uid) + multiset(Waiters(After(Opened(rows), es), uid))
  {
    if es != [] {
      var t0, t, e := Opened(rows), After(Opened(rows), Front(es)), Last(es);
      WaitlistConservation(rows, Front(es), uid);
      StepConserves(t, e, uid);
      Regroup(Accepted(t0, Front(es), uid), CalledBack(t0, Front(es), uid), multiset(Waiters(t, uid)),
              AcceptedBy(t, e, uid), AddressesFor(Emits(t, e).callbacks, uid), multiset(Waiters(Step(t, e), uid)));
    }
  }

  // A uid is waited for only while it has never been announced nor stored; so
  // once announced, every accepted requester has been called back.
  lemma NobodyWaitsForAnAnnouncedObject(rows: set<(Uid, NodeId)>, es: seq<Event>, uid: Uid)
    requires Run(Opened(rows), es)
    requires History(es, uid) != [] || RowsOf(rows, uid) != {}
    ensures Waiters(After(Opened(rows), es), uid) == []
    ensures Accepted(Opened(rows), es, uid) == CalledBack(Opened(rows), es, uid)
  {
    RunInv(rows, es);
    ViewIsSuffixOfHistory(rows, es, uid);
    if History(es, uid) != [] {
      AnnouncedStaysKnown(rows, es, uid);
    }
    WaitlistConservation(rows, es, uid);
  }
}
