// The sizes that travel through the cluster and end up in the object table.
module ClusterSizes {
  import opened Types
  import opened ObjectTable
  import opened LocalScheduler
  import opened Cluster
  import opened ClusterInvariant
  import opened ClusterTheorems
  import ObjectSizes

  // No size, as for a cached copy, or the length of the task's value.
  ghost predicate SizeFits(exec: Task -> Bytes, c: State, u: Uid, size: nat) {
    size == 0 || (u in c.table.lineage && size == |exec(c.table.lineage[u].task)|)
  }

  ghost predicate SizedMessage(exec: Task -> Bytes, c: State, m: Message) {
    match m
    case Storing(_, u, _, size) => SizeFits(exec, c, u, size)
    case Writing(_, u, _, size) => SizeFits(exec, c, u, size)
    case Announcing(_, u, size) => SizeFits(exec, c, u, size)
    case _ => true
  }

  ghost predicate Sized(exec: Task -> Bytes, c: State) {
    && (forall m :: m in c.net ==> SizedMessage(exec, c, m))
    && (forall u :: u in c.table.sizes ==> SizeFits(exec, c, u, c.table.sizes[u]))
  }

  // What a step adds to the messages in flight carries a size only if it comes from
  // one that did, from a task's execution, or from a copy.
  ghost predicate CarriesOn(exec: Task -> Bytes, c: State, m: Message) {
    match m
    case Storing(n, u, bytes, size) => size == 0 || exists t :: Running(n, u, t) in c.net && size == |exec(t)|
    case Writing(n, u, bytes, size) => Storing(n, u, bytes, size) in c.net
    case Announcing(n, u, size) => exists bytes :: Writing(n, u, bytes, size) in c.net
    case _ => true
  }

  lemma CallsCarryOn(exec: Task -> Bytes, c: State, l: Label, m: Message)
    requires Enabled(c, l) && CallOf(c, l).Some? && m in Next(exec, c, l).net && m !in c.net
    ensures CarriesOn(exec, c, m)
  {
    if l.Submit? {
      SubmitSendsNoSize(exec, c, l, m);
    } else {
      assert m in Placings(Emits(c.table, CallOf(c, l).value).dispatches) || (l.Register? && m == Running(l.node, l.uid, l.task));
    }
  }

  lemma SubmitSendsNoSize(exec: Task -> Bytes, c: State, l: Label, m: Message)
    requires l.Submit? && m in Next(exec, c, l).net && m !in c.net
    ensures m.Placing? || m.Registering?
  {
    assert Emits(c.table, Lineage(LineageRequest(l.uid, l.req))).dispatches == [];
  }

  lemma WorkCarriesOn(exec: Task -> Bytes, c: State, l: Label, m: Message)
    requires Enabled(c, l) && CallOf(c, l).None? && !ReadsObject(l) && m in Next(exec, c, l).net && m !in c.net
    ensures CarriesOn(exec, c, m)
  {
    if l.Execute? || l.Write? || l.Finish? {
      ResultsCarryOn(exec, c, l, m);
    } else {
      assert m.Registering? || m.Running?;
    }
  }

  lemma ResultsCarryOn(exec: Task -> Bytes, c: State, l: Label, m: Message)
    requires Enabled(c, l) && (l.Execute? || l.Write? || l.Finish?) && m in Next(exec, c, l).net && m !in c.net
    ensures CarriesOn(exec, c, m)
  {
    if l.Execute? {
      assert m == Storing(l.node, l.uid, exec(l.task), |exec(l.task)|) && Running(l.node, l.uid, l.task) in c.net;
    } else if l.Write? {
      assert m == Writing(l.node, l.uid, l.bytes, l.size);
    } else {
      assert m == Announcing(l.node, l.uid, l.size) && Writing(l.node, l.uid, l.bytes, l.size) in c.net;
    }
  }

  lemma ReadsCarryOn(exec: Task -> Bytes, c: State, l: Label, m: Message)
    requires Enabled(c, l) && CallOf(c, l).None? && ReadsObject(l) && m in Next(exec, c, l).net && m !in c.net
    ensures CarriesOn(exec, c, m)
  {
  }

  lemma SizeStillFits(exec: Task -> Bytes, c: State, l: Label, u: Uid, size: nat)
    requires Enabled(c, l) && SizeFits(exec, c, u, size)
    ensures SizeFits(exec, Next(exec, c, l), u, size)
  {
    if u in c.table.lineage {
      LineageStays(exec, c, l, u);
    }
  }

  lemma MessageStaysSized(exec: Task -> Bytes, c: State, l: Label, m: Message)
    requires Messages(exec, c) && Sized(exec, c) && Enabled(c, l) && m in Next(exec, c, l).net
    ensures SizedMessage(exec, Next(exec, c, l), m)
  {
    if m !in c.net {
      if CallOf(c, l).Some? {
        CallsCarryOn(exec, c, l, m);
      } else if ReadsObject(l) {
        ReadsCarryOn(exec, c, l, m);
      } else {
        WorkCarriesOn(exec, c, l, m);
      }
      CarriedFits(exec, c, m);
    }
    match m
    case Storing(_, u, _, size) => SizeStillFits(exec, c, l, u, size);
    case Writing(_, u, _, size) => SizeStillFits(exec, c, l, u, size);
    case Announcing(_, u, size) => SizeStillFits(exec, c, l, u, size);
    case _ =>
  }

  lemma CarriedFits(exec: Task -> Bytes, c: State, m: Message)
    requires Messages(exec, c) && Sized(exec, c) && CarriesOn(exec, c, m)
    ensures SizedMessage(exec, c, m)
  {
    match m
    case Storing(n, u, bytes, size) =>
      if size != 0 {
        var t :| Running(n, u, t) in c.net && size == |exec(t)|;
        assert GoodMessage(exec, c, Running(n, u, t));
      }
    case Writing(n, u, bytes, size) => assert SizedMessage(exec, c, Storing(n, u, bytes, size));
    case Announcing(n, u, size) =>
      var bytes :| Writing(n, u, bytes, size) in c.net;
      assert SizedMessage(exec, c, Writing(n, u, bytes, size));
    case _ =>
  }

  lemma TableStaysSized(exec: Task -> Bytes, c: State, l: Label, u: Uid)
    requires Sized(exec, c) && Enabled(c, l) && u in Next(exec, c, l).table.sizes
    ensures SizeFits(exec, Next(exec, c, l), u, Next(exec, c, l).table.sizes[u])
  {
    var d := Next(exec, c, l);
    TableFollowsCalls(exec, c, l);
    if CallOf(c, l).Some? {
      ObjectSizes.StepSizes(c.table, CallOf(c, l).value);
    }
    if u in c.table.sizes && d.table.sizes[u] == c.table.sizes[u] {
      SizeStillFits(exec, c, l, u, c.table.sizes[u]);
    } else {
      assert l.Notify? && l.uid == u && d.table.sizes[u] == l.size;
      assert SizedMessage(exec, c, Announcing(l.node, u, l.size));
      SizeStillFits(exec, c, l, u, l.size);
    }
  }

  lemma {:induction false} RunSized(exec: Task -> Bytes, cs: seq<State>, ls: seq<Label>, k: nat)
    requires IsRun(exec, cs, ls) && k < |cs|
    ensures Sized(exec, cs[k])
  {
    if k > 0 {
      var c, l := cs[k - 1], ls[k - 1];
      RunSized(exec, cs, ls, k - 1);
      RunInv(exec, cs, ls, k - 1);
      assert StepAt(exec, cs, ls, k - 1);
      forall m | m in cs[k].net ensures SizedMessage(exec, cs[k], m) {
        MessageStaysSized(exec, c, l, m);
      }
      forall u | u in cs[k].table.sizes ensures SizeFits(exec, cs[k], u, cs[k].table.sizes[u]) {
        TableStaysSized(exec, c, l, u);
      }
    }
  }

  // What a scheduler is told of a submitted task's object is nothing, no bytes, or
  // the length of the task's value.
  lemma ToldBytesAreZeroOrLength(exec: Task -> Bytes, cs: seq<State>, ls: seq<Label>, i: nat, k: nat)
    requires IsRun(exec, cs, ls) && i < k < |cs| && ls[i].Submit? && ls[i].uid in cs[k].table.locations
    ensures var told := ObjectSizes.ToldBytes(cs[k].table, ls[i].uid);
            told == Some(0) || told == Some(|exec(ls[i].req.task)|)
  {
    var uid := ls[i].uid;
    RunSized(exec, cs, ls, k);
    SubmittedLineage(exec, cs, ls, i, k);
    if uid in cs[k].table.sizes {
      assert SizeFits(exec, cs[k], uid, cs[k].table.sizes[uid]);
    }
  }

  ghost predicate TellsAt(cs: seq<State>, m: nat, uid: Uid, length: nat)
    requires m < |cs|
  {
    ObjectSizes.Tells(cs[m].table, uid, length)
  }

  // Step m announces the object either without a size, when memory has no entry for
  // it, or to an entry without a size; and the object is not empty.
  ghost predicate MissizesAt(cs: seq<State>, ls: seq<Label>, m: nat, uid: Uid, length: nat)
    requires m < |ls| <= |cs|
  {
    && ls[m].Notify? && ls[m].uid == uid && length > 0
    && if uid in cs[m].table.locations then uid !in cs[m].table.sizes else ls[m].size == 0
  }

  ghost predicate SizedAnnouncement(ls: seq<Label>, m: nat, uid: Uid, length: nat)
    requires m < |ls|
  {
    ls[m].Notify? && ls[m].uid == uid ==> ls[m].size == 0 || ls[m].size == length
  }

  lemma {:induction false} LineageStaysFrom(exec: Task -> Bytes, cs: seq<State>, ls: seq<Label>, m: nat, k: nat, uid: Uid)
    requires IsRun(exec, cs, ls) && m <= k < |cs| && uid in cs[m].table.lineage
    ensures uid in cs[k].table.lineage && cs[k].table.lineage[uid] == cs[m].table.lineage[uid]
  {
    if m < k {
      LineageStaysFrom(exec, cs, ls, m, k - 1, uid);
      assert StepAt(exec, cs, ls, k - 1);
      LineageStays(exec, cs[k - 1], ls[k - 1], uid);
    }
  }

  lemma AnnouncementsAreSized(exec: Task -> Bytes, cs: seq<State>, ls: seq<Label>, i: nat, m: nat, k: nat)
    requires IsRun(exec, cs, ls) && i < k < |cs| && m < k && ls[i].Submit?
    ensures SizedAnnouncement(ls, m, ls[i].uid, |exec(ls[i].req.task)|)
  {
    var l := ls[m];
    if l.Notify? && l.uid == ls[i].uid && l.size != 0 {
      RunSized(exec, cs, ls, m);
      assert StepAt(exec, cs, ls, m);
      assert SizedMessage(exec, cs[m], Announcing(l.node, l.uid, l.size));
      LineageStaysFrom(exec, cs, ls, m, k, l.uid);
      SubmittedLineage(exec, cs, ls, i, k);
    }
  }

  // One step gets the size wrong, or keeps it.
  lemma StepTells(exec: Task -> Bytes, cs: seq<State>, ls: seq<Label>, m: nat, uid: Uid, length: nat)
    requires IsRun(exec, cs, ls) && m < |ls| && SizedAnnouncement(ls, m, uid, length)
    requires ObjectSizes.SizeIsKept(cs[m].table, uid, length)
    ensures if MissizesAt(cs, ls, m, uid, length) then !TellsAt(cs, m + 1, uid, length)
            else ObjectSizes.SizeIsKept(cs[m + 1].table, uid, length)
  {
    var t, call := cs[m].table, CallOf(cs[m], ls[m]);
    assert StepAt(exec, cs, ls, m);
    RunInv(exec, cs, ls, m);
    TableFollowsCalls(exec, cs[m], ls[m]);
    ObjectSizes.KeptIsRecorded(t, uid, length);
    if call.Some? {
      ObjectSizes.StepKeeps(t, call.value, uid, length);
      ObjectSizes.StepTells(t, call.value, uid, length);
      assert ObjectSizes.Missizes(t, call.value, uid, length) <==> MissizesAt(cs, ls, m, uid, length);
    }
  }

  lemma {:induction false} TellsSoFarIff(exec: Task -> Bytes, cs: seq<State>, ls: seq<Label>, k: nat, uid: Uid, length: nat)
    requires IsRun(exec, cs, ls) && k < |cs|
    requires forall m: nat :: m < k ==> SizedAnnouncement(ls, m, uid, length)
    ensures (forall m: nat :: m <= k ==> TellsAt(cs, m, uid, length)) <==>
            (forall m: nat :: m < k ==> !MissizesAt(cs, ls, m, uid, length))
    ensures (forall m: nat :: m < k ==> !MissizesAt(cs, ls, m, uid, length)) ==>
              ObjectSizes.SizeIsKept(cs[k].table, uid, length)
  {
    if k > 0 {
      TellsSoFarIff(exec, cs, ls, k - 1, uid, length);
      if forall m: nat :: m < k - 1 ==> !MissizesAt(cs, ls, m, uid, length) {
        StepTells(exec, cs, ls, k - 1, uid, length);
        if !MissizesAt(cs, ls, k - 1, uid, length) {
          ObjectSizes.KeptIsRecorded(cs[k].table, uid, length);
          ObjectSizes.SizeIsTold(cs[k].table, uid, length);
        }
      }
    }
  }

  // In every run: a scheduler that asks for a submitted task's object while memory
  // lists a node for it is always told the length of the task's value, if and only
  // if that is zero or no announcement of the object comes without a size to a table
  // that has no entry for it, or to one that has an entry without a size.
  lemma SizesAreToldIff(exec: Task -> Bytes, cs: seq<State>, ls: seq<Label>, i: nat, k: nat)
    requires IsRun(exec, cs, ls) && i < k < |cs| && ls[i].Submit?
    ensures var uid, length := ls[i].uid, |exec(ls[i].req.task)|;
            (forall m: nat :: m <= k ==> TellsAt(cs, m, uid, length)) <==>
            (forall m: nat :: m < k ==> !MissizesAt(cs, ls, m, uid, length))
  {
    var uid, length := ls[i].uid, |exec(ls[i].req.task)|;
    forall m: nat | m < k ensures SizedAnnouncement(ls, m, uid, length) {
      AnnouncementsAreSized(exec, cs, ls, i, m, k);
    }
    TellsSoFarIff(exec, cs, ls, k, uid, length);
  }
}
