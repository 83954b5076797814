// Where the dispatches in flight come from, and where a pinned task may be placed.
module ClusterDispatch {
  import opened Types
  import opened ObjectTable
  import opened LocalScheduler
  import opened GlobalScheduler
  import opened Cluster
  import opened ClusterInvariant
  import opened ClusterTheorems

  // Step i submitted the task of a request, and the request is its first dispatch to
  // the global scheduler or its lineage.
  ghost predicate StemsFrom(ls: seq<Label>, i: nat, req: Request)
    requires i < |ls|
  {
    && ls[i].Submit? && ls[i].uid == req.uid
    && (req == LineageRequest(ls[i].uid, ls[i].req) || FirstDispatch(ls[i].uid, ls[i].req, ls[i].runningTasks) == ToGlobal(req))
  }

  // The steps that send a request to the global scheduler.
  ghost predicate Sends(c: State, l: Label, req: Request) {
    || (l.Submit? && FirstDispatch(l.uid, l.req, l.runningTasks) == ToGlobal(req))
    || (l.Report? && req in Emits(c.table, SweepOf(c, l.order)).dispatches)
  }

  lemma SubmitSends(exec: Task -> Bytes, c: State, l: Label, req: Request)
    requires l.Submit? && Placing(req) in Next(exec, c, l).net && Placing(req) !in c.net
    ensures Sends(c, l, req)
  {
    assert Emits(c.table, Lineage(LineageRequest(l.uid, l.req))).dispatches == [];
  }

  // What the other calls of the table add to the messages in flight: the requests
  // that a report sends, and a registered task to its worker.
  lemma CallsAdd(exec: Task -> Bytes, c: State, l: Label, m: Message)
    requires CallOf(c, l).Some? && !l.Submit? && m in Next(exec, c, l).net && m !in c.net
    ensures m.Running? || m in Placings(Emits(c.table, CallOf(c, l).value).dispatches)
  {
  }

  lemma OnlyReportsDispatch(c: State, l: Label)
    requires CallOf(c, l).Some? && !l.Report?
    ensures Emits(c.table, CallOf(c, l).value).dispatches == []
  {
  }

  lemma CallsSend(exec: Task -> Bytes, c: State, l: Label, m: Message)
    requires CallOf(c, l).Some? && !l.Submit? && m in Next(exec, c, l).net && m !in c.net
    ensures m.Running? || (m.Placing? && Sends(c, l, m.req))
  {
    CallsAdd(exec, c, l, m);
    if !l.Report? {
      OnlyReportsDispatch(c, l);
    }
  }

  // And what the steps add that make no call.
  lemma ReadsAdd(exec: Task -> Bytes, c: State, l: Label, m: Message)
    requires CallOf(c, l).None? && ReadsObject(l) && m in Next(exec, c, l).net && m !in c.net
    ensures m.Storing?
  {
  }

  lemma ResultsAdd(exec: Task -> Bytes, c: State, l: Label, m: Message)
    requires (l.Execute? || l.Write? || l.Finish?) && m in Next(exec, c, l).net && m !in c.net
    ensures m.Storing? || m.Writing? || m.Announcing?
  {
  }

  lemma WorkAdds(exec: Task -> Bytes, c: State, l: Label, m: Message)
    requires CallOf(c, l).None? && !ReadsObject(l) && !l.Execute? && !l.Write? && !l.Finish?
    requires m in Next(exec, c, l).net && m !in c.net
    ensures m.Running? || (m.Registering? && l.Place? && l.node == m.node && l.placed.uid == m.uid)
  {
  }

  lemma OthersAdd(exec: Task -> Bytes, c: State, l: Label, m: Message)
    requires CallOf(c, l).None? && m in Next(exec, c, l).net && m !in c.net
    ensures !m.Placing? && (m.Registering? ==> l.Place? && l.node == m.node && l.placed.uid == m.uid)
  {
    if ReadsObject(l) {
      ReadsAdd(exec, c, l, m);
    } else if l.Execute? || l.Write? || l.Finish? {
      ResultsAdd(exec, c, l, m);
    } else {
      WorkAdds(exec, c, l, m);
    }
  }

  // Every request on its way to the global scheduler stems from a submission.
  lemma {:induction false} PlacingStemsFrom(exec: Task -> Bytes, cs: seq<State>, ls: seq<Label>, k: nat, req: Request)
    requires IsRun(exec, cs, ls) && k < |cs| && Placing(req) in cs[k].net
    ensures exists i: nat :: i < k && StemsFrom(ls, i, req)
  {
    assert k > 0;
    var c, l := cs[k - 1], ls[k - 1];
    assert StepAt(exec, cs, ls, k - 1);
    if Placing(req) in c.net {
      PlacingStemsFrom(exec, cs, ls, k - 1, req);
    } else if CallOf(c, l).None? {
      OthersAdd(exec, c, l, Placing(req));
    } else if l.Submit? {
      SubmitSends(exec, c, l, req);
      assert StemsFrom(ls, k - 1, req);
    } else {
      CallsSend(exec, c, l, Placing(req));
      ReportedStemsFrom(exec, cs, ls, k - 1, req);
    }
  }

  lemma ReportedStemsFrom(exec: Task -> Bytes, cs: seq<State>, ls: seq<Label>, k: nat, req: Request)
    requires IsRun(exec, cs, ls) && k < |ls| && ls[k].Report? && req in Emits(cs[k].table, SweepOf(cs[k], ls[k].order)).dispatches
    ensures exists i: nat :: i < k && StemsFrom(ls, i, req)
  {
    var order := ls[k].order;
    assert StepAt(exec, cs, ls, k);
    var m :| 0 <= m < |Emits(cs[k].table, SweepOf(cs[k], order)).dispatches|
             && Emits(cs[k].table, SweepOf(cs[k], order)).dispatches[m] == req;
    RunInv(exec, cs, ls, k);
    ReportSendsLineage(cs[k], order, m);
    var i := ReportResendsSubmittedRequests(exec, cs, ls, k, order, m);
    assert StemsFrom(ls, i, req);
  }

  // No uid is submitted twice.
  lemma SubmittedOnce(exec: Task -> Bytes, cs: seq<State>, ls: seq<Label>, i: nat, j: nat)
    requires IsRun(exec, cs, ls) && i < j < |ls| && ls[i].Submit? && ls[j].Submit?
    ensures ls[i].uid != ls[j].uid
  {
    SubmittedLineage(exec, cs, ls, i, j);
    RunInv(exec, cs, ls, j);
    assert StepAt(exec, cs, ls, j);
  }

  // What the global scheduler places of a submitted task is either its first
  // dispatch, which asks for the pinned node if the client pinned one and otherwise
  // has the client's locality flag; or a re-execution, which pins nothing. A pinned
  // first dispatch is placed on its node and nowhere else.
  lemma PinIsKept(exec: Task -> Bytes, cs: seq<State>, ls: seq<Label>, i: nat, k: nat,
                  req: Request, n: NodeId, locs: Option<map<Uid, LocationByteTuple>>)
    requires IsRun(exec, cs, ls) && i < k < |cs| && ls[i].Submit? && ls[i].uid == req.uid
    requires Enabled(cs[k], Place(req, n, locs))
    ensures var asked := ls[i].req;
            && req.task == asked.task && req.uids == asked.uids
            && (req.newObject ==> req.nodeId == asked.nodeId && req.localityFlag == (asked.nodeId == 0 && asked.localityFlag))
            && (req.newObject && asked.nodeId != 0 ==> n == asked.nodeId)
            && (!req.newObject ==> req.nodeId == 0 && !req.localityFlag && NodeIsLive(cs[k].now, cs[k].status, n))
  {
    PlacingStemsFrom(exec, cs, ls, k, req);
    var j: nat :| j < k && StemsFrom(ls, j, req);
    if i < j {
      SubmittedOnce(exec, cs, ls, i, j);
    } else if j < i {
      SubmittedOnce(exec, cs, ls, j, i);
    }
    FirstDispatchIs(ls[i].uid, ls[i].req, ls[i].runningTasks);
    if !req.newObject {
      BestIsLive(cs[k].now, cs[k].status, locs, n);
    }
  }

  // A task that is about to run on a node was placed there, or was submitted there
  // without a pin.
  ghost predicate SentToRun(ls: seq<Label>, i: nat, n: NodeId, uid: Uid)
    requires i < |ls|
  {
    || (ls[i].Place? && ls[i].node == n && ls[i].placed.uid == uid)
    || (ls[i].Submit? && ls[i].node == n && ls[i].uid == uid && ls[i].req.nodeId == 0 && ls[i].runningTasks < 10)
  }

  lemma {:induction false} RegisteringWasSent(exec: Task -> Bytes, cs: seq<State>, ls: seq<Label>, k: nat,
                                              n: NodeId, uid: Uid, task: Task)
    requires IsRun(exec, cs, ls) && k < |cs| && Registering(n, uid, task) in cs[k].net
    ensures exists i: nat :: i < k && SentToRun(ls, i, n, uid)
  {
    assert k > 0;
    assert StepAt(exec, cs, ls, k - 1);
    if Registering(n, uid, task) in cs[k - 1].net {
      RegisteringWasSent(exec, cs, ls, k - 1, n, uid, task);
    } else {
      NewRegistering(exec, cs[k - 1], ls[k - 1], Registering(n, uid, task));
      assert SentToRun(ls, k - 1, n, uid);
    }
  }

  lemma NewRegistering(exec: Task -> Bytes, c: State, l: Label, m: Message)
    requires m.Registering? && m in Next(exec, c, l).net && m !in c.net
    ensures || (l.Place? && l.node == m.node && l.placed.uid == m.uid)
            || (l.Submit? && l.node == m.node && l.uid == m.uid && l.req.nodeId == 0 && l.runningTasks < 10)
  {
    if l.Submit? {
      SubmitAdds(exec, c, l, m);
    } else if CallOf(c, l).Some? {
      CallsSend(exec, c, l, m);
    } else {
      OthersAdd(exec, c, l, m);
    }
  }

  lemma SubmitAdds(exec: Task -> Bytes, c: State, l: Label, m: Message)
    requires l.Submit? && m in Next(exec, c, l).net && m !in c.net
    ensures m.Placing? || (m == Registering(l.node, l.uid, l.req.task) && l.req.nodeId == 0 && l.runningTasks < 10)
  {
    assert Emits(c.table, Lineage(LineageRequest(l.uid, l.req))).dispatches == [];
  }
}
