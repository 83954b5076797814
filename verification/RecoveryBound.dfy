// How fast the cluster notices a dead node, on a clock of milliseconds with
// messages that take no time.
module RecoveryBound {
  import opened Types
  import opened Collections
  import opened ObjectTable
  import opened GlobalScheduler
  import opened Cluster
  import opened ClusterInvariant
  import opened ClusterTheorems
  import opened LocalScheduler
  import ClusterRuns
  import Sweeps

  // The live-node loop has not been late so far.
  predicate Punctual(c: State) {
    c.now <= c.lastReport + HEARTBEAT_WAIT
  }

  ghost predicate OnlyAt(t: Table, uid: Uid, n: NodeId) {
    forall m :: m in GetNodes(t, uid) ==> m == n
  }

  // Step i is a report, in the right span of time, that reschedules the uid.
  ghost predicate ReschedulesAt(cs: seq<State>, ls: seq<Label>, i: nat, uid: Uid, from: nat, to: nat)
    requires i < |ls| <= |cs|
  {
    ls[i].Report? && uid in ls[i].order && from <= cs[i].now < to
  }

  ghost predicate Rescheduled(cs: seq<State>, ls: seq<Label>, j: nat, k: nat, uid: Uid, from: nat, to: nat)
    requires k <= |ls| <= |cs|
  {
    exists i: nat :: j <= i < k && ReschedulesAt(cs, ls, i, uid, from, to)
  }

  // By state k the uid has been rescheduled no sooner than the timeout after the
  // last heartbeat and within one report's wait of it.
  ghost predicate InTime(cs: seq<State>, ls: seq<Label>, j: nat, k: nat, uid: Uid, beat: nat)
    requires k <= |ls| <= |cs|
  {
    Rescheduled(cs, ls, j, k, uid, beat + LIVE_NODE_TIMEOUT, beat + LIVE_NODE_TIMEOUT + HEARTBEAT_WAIT)
  }

  // In state k, reports are on time, and the uid is made or held nowhere but at n
  // unless it has been rescheduled.
  ghost predicate AwaitsRecovery(cs: seq<State>, ls: seq<Label>, j: nat, k: nat, uid: Uid, n: NodeId, beat: nat)
    requires k <= |ls| < |cs|
  {
    Punctual(cs[k]) && (OnlyAt(cs[k].table, uid, n) || InTime(cs, ls, j, k, uid, beat))
  }

  predicate IsSilence(l: Label, n: NodeId) {
    !l.FlushTable? && !(l.Beat? && l.node == n)
  }

  // From state j to state k of the run there is no flush and no heartbeat of n,
  // and recovery is awaited.
  ghost predicate NodeFellSilent(cs: seq<State>, ls: seq<Label>, j: nat, k: nat, uid: Uid, n: NodeId, beat: nat)
    requires k <= |ls| < |cs|
  {
    && (forall i: nat :: j <= i <= k ==> AwaitsRecovery(cs, ls, j, i, uid, n, beat))
    && (forall i: nat :: j <= i < k ==> IsSilence(ls[i], n))
  }

  // What a step does to the clocks: only a tick moves the time, only a report and
  // a heartbeat leave a trace of it, and only a control call starts or stops a node.
  ghost predicate ClockStep(c: State, d: State, l: Label) {
    && c.now <= d.now
    && d.lastReport == (if l.Report? then c.now else c.lastReport)
    && d.status == (if l.Beat? then c.status[l.node := l.entry] else c.status)
    && d.silent == (if !l.SetAlive? then c.silent else if l.beating then c.silent - {l.node} else c.silent + {l.node})
    && d.dropping == if !l.SetAlive? then c.dropping else if l.storing then c.dropping - {l.node} else c.dropping + {l.node}
  }

  lemma SubmitClock(exec: Task -> Bytes, c: State, l: Label)
    requires l.Submit?
    ensures ClockStep(c, Next(exec, c, l), l)
  {
    assert Next(exec, c, l).now == c.now;
  }

  lemma CallClock(exec: Task -> Bytes, c: State, l: Label)
    requires Enabled(c, l) && CallOf(c, l).Some?
    ensures ClockStep(c, Next(exec, c, l), l)
  {
    if l.Submit? {
      SubmitClock(exec, c, l);
    } else {
      assert Next(exec, c, l).now == c.now;
    }
  }

  lemma ReadClock(exec: Task -> Bytes, c: State, l: Label)
    requires Enabled(c, l) && CallOf(c, l).None? && ReadsObject(l)
    ensures ClockStep(c, Next(exec, c, l), l)
  {
  }

  lemma WorkClock(exec: Task -> Bytes, c: State, l: Label)
    requires CallOf(c, l).None? && !ReadsObject(l) && !l.Beat? && !l.Tick? && !l.SetAlive?
    ensures ClockStep(c, Next(exec, c, l), l)
  {
    assert Next(exec, c, l).now == c.now;
  }

  lemma OtherClock(exec: Task -> Bytes, c: State, l: Label)
    requires Enabled(c, l) && CallOf(c, l).None? && !ReadsObject(l)
    ensures ClockStep(c, Next(exec, c, l), l)
  {
    if !l.Beat? && !l.Tick? && !l.SetAlive? {
      WorkClock(exec, c, l);
    }
  }

  lemma StepClock(exec: Task -> Bytes, c: State, l: Label)
    requires Enabled(c, l)
    ensures ClockStep(c, Next(exec, c, l), l)
  {
    if CallOf(c, l).Some? {
      CallClock(exec, c, l);
    } else if ReadsObject(l) {
      ReadClock(exec, c, l);
    } else {
      OtherClock(exec, c, l);
    }
  }

  lemma {:induction false} ReportsAreInThePast(exec: Task -> Bytes, cs: seq<State>, ls: seq<Label>, k: nat)
    requires IsRun(exec, cs, ls) && k < |cs|
    ensures cs[k].lastReport <= cs[k].now
  {
    if k > 0 {
      ReportsAreInThePast(exec, cs, ls, k - 1);
      assert StepAt(exec, cs, ls, k - 1);
      StepClock(exec, cs[k - 1], ls[k - 1]);
    }
  }

  lemma LateReportReschedules(c: State, uid: Uid, n: NodeId, order: seq<Uid>)
    requires Enabled(c, Report(order)) && n in c.status && OnlyAt(c.table, uid, n) && uid in Tracked(c.table)
    requires c.status[n].timeReceived + LIVE_NODE_TIMEOUT <= c.now
    ensures uid in order
  {
    assert !IsLive(LiveNodes(c.now, c.status), n);
    assert uid in Lost(c.table, LiveNodes(c.now, c.status));
    assert uid in Elements(order);
  }

  // The state before the silence: the node is still taken to be live.
  ghost predicate LastBeat(c: State, uid: Uid, n: NodeId, beat: nat) {
    && n in c.status && c.status[n].timeReceived == beat && uid in Tracked(c.table)
  }

  lemma LastBeatStays(exec: Task -> Bytes, c: State, l: Label, uid: Uid, n: NodeId, beat: nat)
    requires Enabled(c, l) && LastBeat(c, uid, n, beat)
    requires IsSilence(l, n)
    ensures LastBeat(Next(exec, c, l), uid, n, beat)
  {
    StepClock(exec, c, l);
    TableFollowsCalls(exec, c, l);
    if CallOf(c, l).Some? {
      Sweeps.UntrackedOnlyByFlush(c.table, CallOf(c, l).value, uid);
    }
  }

  // The first report after the timeout comes in time and reschedules the uid.
  lemma FirstLateReport(exec: Task -> Bytes, cs: seq<State>, ls: seq<Label>, j: nat, k: nat, uid: Uid, n: NodeId, beat: nat)
    requires IsRun(exec, cs, ls) && j <= k < |ls| && ls[k].Report?
    requires LastBeat(cs[k], uid, n, beat) && Punctual(cs[k]) && OnlyAt(cs[k].table, uid, n)
    requires cs[k].lastReport < beat + LIVE_NODE_TIMEOUT <= cs[k].now
    ensures InTime(cs, ls, j, k + 1, uid, beat)
  {
    assert StepAt(exec, cs, ls, k);
    LateReportReschedules(cs[k], uid, n, ls[k].order);
    assert ReschedulesAt(cs, ls, k, uid, beat + LIVE_NODE_TIMEOUT, beat + LIVE_NODE_TIMEOUT + HEARTBEAT_WAIT);
  }

  // In every state since the silence, either no report has come after the timeout
  // or one has rescheduled the uid in time.
  lemma {:induction false} SinceSilence(exec: Task -> Bytes, cs: seq<State>, ls: seq<Label>, j: nat, k: nat,
                                        uid: Uid, n: NodeId, beat: nat)
    requires IsRun(exec, cs, ls) && j <= k < |cs| && NodeFellSilent(cs, ls, j, k, uid, n, beat)
    requires LastBeat(cs[j], uid, n, beat) && cs[j].now < beat + LIVE_NODE_TIMEOUT
    ensures LastBeat(cs[k], uid, n, beat)
    ensures cs[k].lastReport < beat + LIVE_NODE_TIMEOUT || InTime(cs, ls, j, k, uid, beat)
  {
    if k == j {
      ReportsAreInThePast(exec, cs, ls, k);
    } else {
      var c, last := cs[k - 1], ls[k - 1];
      SinceSilence(exec, cs, ls, j, k - 1, uid, n, beat);
      assert StepAt(exec, cs, ls, k - 1) && IsSilence(last, n) && AwaitsRecovery(cs, ls, j, k - 1, uid, n, beat);
      LastBeatStays(exec, c, last, uid, n, beat);
      StepClock(exec, c, last);
      if !InTime(cs, ls, j, k - 1, uid, beat) && last.Report? && beat + LIVE_NODE_TIMEOUT <= c.now {
        FirstLateReport(exec, cs, ls, j, k - 1, uid, n, beat);
      }
    }
  }

  // An object whose only maker or holder last sent a heartbeat at time `beat` is
  // rescheduled by a report at least 400 ms and less than 500 ms later, in every
  // run that gets that far.
  lemma RecoveryIsPrompt(exec: Task -> Bytes, cs: seq<State>, ls: seq<Label>, j: nat, k: nat, uid: Uid, n: NodeId, beat: nat)
    requires IsRun(exec, cs, ls) && j <= k < |cs| && NodeFellSilent(cs, ls, j, k, uid, n, beat)
    requires LastBeat(cs[j], uid, n, beat) && cs[j].now < beat + LIVE_NODE_TIMEOUT
    requires beat + 500 <= cs[k].now
    ensures Rescheduled(cs, ls, j, k, uid, beat + 400, beat + 500)
  {
    SinceSilence(exec, cs, ls, j, k, uid, n, beat);
    assert AwaitsRecovery(cs, ls, j, k, uid, n, beat);
  }

  // And in no run does a report reschedule it earlier, as long as the node counts
  // for it.
  lemma RecoveryIsNotHasty(exec: Task -> Bytes, cs: seq<State>, ls: seq<Label>, j: nat, k: nat, uid: Uid, n: NodeId, beat: nat)
    requires IsRun(exec, cs, ls) && j <= k < |ls| && LastBeat(cs[j], uid, n, beat)
    requires forall i: nat :: j <= i < k ==> IsSilence(ls[i], n)
    requires n in GetNodes(cs[k].table, uid) && ls[k].Report? && uid in ls[k].order
    ensures beat + 400 <= cs[k].now
  {
    BeatIsLast(exec, cs, ls, j, k, uid, n, beat);
    assert StepAt(exec, cs, ls, k);
    LiveNodeKeepsItsObjects(cs[k], uid, n, ls[k].order);
  }

  lemma {:induction false} BeatIsLast(exec: Task -> Bytes, cs: seq<State>, ls: seq<Label>, j: nat, k: nat,
                                      uid: Uid, n: NodeId, beat: nat)
    requires IsRun(exec, cs, ls) && j <= k < |cs| && LastBeat(cs[j], uid, n, beat)
    requires forall i: nat :: j <= i < k ==> IsSilence(ls[i], n)
    ensures LastBeat(cs[k], uid, n, beat)
  {
    if j < k {
      BeatIsLast(exec, cs, ls, j, k - 1, uid, n, beat);
      assert StepAt(exec, cs, ls, k - 1) && IsSilence(ls[k - 1], n);
      LastBeatStays(exec, cs[k - 1], ls[k - 1], uid, n, beat);
    }
  }

  // ----------------------------------------------------------- a run that recovers

  // From state j on nothing has happened that RecoveryIsPrompt excludes.
  ghost predicate Quiet(exec: Task -> Bytes, cs: seq<State>, ls: seq<Label>, j: nat, uid: Uid, n: NodeId) {
    && IsRun(exec, cs, ls)
    && j <= |ls|
    && (forall i: nat :: j <= i <= |ls| ==> Punctual(cs[i]) && OnlyAt(cs[i].table, uid, n))
    && (forall i: nat :: j <= i < |ls| ==> IsSilence(ls[i], n))
  }

  lemma QuietIsSilent(exec: Task -> Bytes, cs: seq<State>, ls: seq<Label>, j: nat, uid: Uid, n: NodeId, beat: nat)
    requires Quiet(exec, cs, ls, j, uid, n)
    ensures NodeFellSilent(cs, ls, j, |ls|, uid, n, beat)
  {
    forall i: nat | j <= i <= |ls| ensures AwaitsRecovery(cs, ls, j, i, uid, n, beat) {
      assert Punctual(cs[i]) && OnlyAt(cs[i].table, uid, n);
    }
  }

  lemma StaysQuiet(exec: Task -> Bytes, cs: seq<State>, ls: seq<Label>, j: nat, uid: Uid, n: NodeId, l: Label)
    requires Quiet(exec, cs, ls, j, uid, n) && Enabled(cs[|ls|], l) && IsSilence(l, n)
    requires var d := Next(exec, cs[|ls|], l); Punctual(d) && OnlyAt(d.table, uid, n)
    ensures Quiet(exec, cs + [Next(exec, cs[|ls|], l)], ls + [l], j, uid, n)
  {
    RunGoesOnIff(exec, cs, ls, l);
  }

  // The state of such a run: the object is listed at its maker, which was heard of
  // at time 0.
  ghost predicate Waits(c: State, uid: Uid, n: NodeId, now: nat, lastReport: nat) {
    && c.table.locations == map[uid := [n]] && c.table.generating == map[]
    && n in c.status && c.status[n].timeReceived == 0
    && c.now == now && c.lastReport == lastReport
  }

  lemma WaitsOnlyAt(c: State, uid: Uid, n: NodeId, now: nat, lastReport: nat)
    requires Waits(c, uid, n, now, lastReport)
    ensures OnlyAt(c.table, uid, n)
  {
    assert GetNodes(c.table, uid) == [n];
  }

  lemma {:induction false} TicksOn(exec: Task -> Bytes, cs: seq<State>, ls: seq<Label>, j: nat, uid: Uid, n: NodeId,
                                   now: nat, lastReport: nat, time: nat)
    returns (cs': seq<State>, ls': seq<Label>)
    requires Quiet(exec, cs, ls, j, uid, n) && Waits(cs[|ls|], uid, n, now, lastReport)
    requires now + time <= lastReport + HEARTBEAT_WAIT
    ensures Quiet(exec, cs', ls', j, uid, n) && Waits(cs'[|ls'|], uid, n, now + time, lastReport)
    ensures cs <= cs'
  {
    cs', ls' := cs, ls;
    if time > 0 {
      cs', ls' := TicksOn(exec, cs, ls, j, uid, n, now, lastReport, time - 1);
      WaitsOnlyAt(cs'[|ls'|], uid, n, now + time - 1, lastReport);
      StaysQuiet(exec, cs', ls', j, uid, n, Tick);
      cs', ls' := cs' + [Next(exec, cs'[|ls'|], Tick)], ls' + [Tick];
    }
  }

  lemma ReportsOn(exec: Task -> Bytes, cs: seq<State>, ls: seq<Label>, j: nat, uid: Uid, n: NodeId, now: nat, lastReport: nat)
    returns (cs': seq<State>, ls': seq<Label>)
    requires Quiet(exec, cs, ls, j, uid, n) && Waits(cs[|ls|], uid, n, now, lastReport)
    ensures Quiet(exec, cs', ls', j, uid, n) && Waits(cs'[|ls'|], uid, n, now, now)
    ensures cs <= cs'
  {
    var c := cs[|ls|];
    var live := LiveNodes(c.now, c.status);
    var l := Report(if IsLive(live, n) then [] else [uid]);
    ClusterRuns.LostWithItsHolder(c.table, n, uid, live);
    assert Enabled(c, l);
    ReportWaits(exec, c, l, uid, n, now, lastReport);
    WaitsOnlyAt(Next(exec, c, l), uid, n, now, now);
    StaysQuiet(exec, cs, ls, j, uid, n, l);
    cs', ls' := cs + [Next(exec, c, l)], ls + [l];
  }

  lemma ReportWaits(exec: Task -> Bytes, c: State, l: Label, uid: Uid, n: NodeId, now: nat, lastReport: nat)
    requires Waits(c, uid, n, now, lastReport) && l.Report?
    ensures Waits(Next(exec, c, l), uid, n, now, now)
  {
  }

  lemma RoundsGoOn(exec: Task -> Bytes, cs: seq<State>, ls: seq<Label>, j: nat, uid: Uid, n: NodeId, rounds: nat)
    returns (cs': seq<State>, ls': seq<Label>)
    requires Quiet(exec, cs, ls, j, uid, n) && Waits(cs[|ls|], uid, n, 0, 0)
    ensures Quiet(exec, cs', ls', j, uid, n)
    ensures Waits(cs'[|ls'|], uid, n, rounds * HEARTBEAT_WAIT, rounds * HEARTBEAT_WAIT)
    ensures cs <= cs'
  {
    cs', ls' := cs, ls;
    if rounds > 0 {
      var now := (rounds - 1) * HEARTBEAT_WAIT;
      cs', ls' := RoundsGoOn(exec, cs, ls, j, uid, n, rounds - 1);
      cs', ls' := TicksOn(exec, cs', ls', j, uid, n, now, now, HEARTBEAT_WAIT);
      cs', ls' := ReportsOn(exec, cs', ls', j, uid, n, now + HEARTBEAT_WAIT, now);
    }
  }

  // Such runs there are: a node makes an object, sends one heartbeat and falls
  // silent, reports come every 100 ms, and 500 ms after the heartbeat the object has
  // been rescheduled.
  lemma RecoveryHappens(exec: Task -> Bytes, n: NodeId, uid: Uid, req: ScheduleRequest)
    returns (cs: seq<State>, ls: seq<Label>, j: nat)
    requires uid < UID_BOUND && req.nodeId == 0
    ensures IsRun(exec, cs, ls) && j <= |ls| && NodeFellSilent(cs, ls, j, |ls|, uid, n, 0)
    ensures LastBeat(cs[j], uid, n, 0) && cs[j].now == 0 && cs[|ls|].now == 500
    ensures Rescheduled(cs, ls, j, |ls|, uid, 400, 500)
  {
    var c1 := ClusterRuns.FirstTaskIsMade(exec, n, uid, req);
    var c := ClusterRuns.Beats(exec, c1, n);
    var cs0, ls0 :| IsRun(exec, cs0, ls0) && cs0[|ls0|] == c;
    j := |ls0|;
    WaitsOnlyAt(c, uid, n, 0, 0);
    assert Quiet(exec, cs0, ls0, j, uid, n);
    cs, ls := RoundsGoOn(exec, cs0, ls0, j, uid, n, 4);
    cs, ls := TicksOn(exec, cs, ls, j, uid, n, 400, 400, HEARTBEAT_WAIT);
    assert cs[j] == c && uid in Tracked(c.table);
    QuietIsSilent(exec, cs, ls, j, uid, n, 0);
    RecoveryIsPrompt(exec, cs, ls, j, |ls|, uid, n, 0);
  }

  // ------------------------------------------------------------- killed nodes

  lemma {:induction false} BeatsAreInThePast(exec: Task -> Bytes, cs: seq<State>, ls: seq<Label>, k: nat, n: NodeId)
    requires IsRun(exec, cs, ls) && k < |cs| && n in cs[k].status
    ensures cs[k].status[n].timeReceived <= cs[k].now
  {
    if k > 0 {
      assert StepAt(exec, cs, ls, k - 1);
      StepClock(exec, cs[k - 1], ls[k - 1]);
      if n in cs[k - 1].status {
        BeatsAreInThePast(exec, cs, ls, k - 1, n);
      }
    }
  }

  predicate Revives(l: Label, n: NodeId) {
    l.SetAlive? && l.node == n && l.beating
  }

  // A killed scheduler is not heard of again before it is revived.
  lemma {:induction false} KilledNodeIsNotHeard(exec: Task -> Bytes, cs: seq<State>, ls: seq<Label>, j: nat, k: nat, n: NodeId)
    requires IsRun(exec, cs, ls) && j <= k < |cs| && n in cs[j].silent
    requires forall i: nat :: j <= i < k ==> !Revives(ls[i], n)
    ensures n in cs[k].silent
    ensures n in cs[k].status <==> n in cs[j].status
    ensures n in cs[j].status ==> cs[k].status[n] == cs[j].status[n]
  {
    if k > j {
      KilledNodeIsNotHeard(exec, cs, ls, j, k - 1, n);
      assert StepAt(exec, cs, ls, k - 1) && !Revives(ls[k - 1], n);
      StepClock(exec, cs[k - 1], ls[k - 1]);
    }
  }

  // So 400 ms after it was killed at the latest, it is taken for dead: no report
  // counts it as a maker or holder, and only a request pinned to it is placed there.
  lemma KilledNodeLooksDead(exec: Task -> Bytes, cs: seq<State>, ls: seq<Label>, j: nat, k: nat, n: NodeId)
    requires IsRun(exec, cs, ls) && j <= k < |cs| && n in cs[j].silent
    requires forall i: nat :: j <= i < k ==> !Revives(ls[i], n)
    requires cs[j].now + 400 <= cs[k].now
    ensures var c := cs[k];
            && !IsLive(LiveNodes(c.now, c.status), n)
            && forall req, locs :: Enabled(c, Place(req, n, locs)) ==> req.nodeId == n
  {
    var c := cs[k];
    KilledNodeIsNotHeard(exec, cs, ls, j, k, n);
    if n in cs[j].status {
      BeatsAreInThePast(exec, cs, ls, j, n);
    }
    assert !NodeIsLive(c.now, c.status, n);
    forall req, locs | Enabled(c, Place(req, n, locs)) ensures req.nodeId == n {
      if req.nodeId == 0 {
        BestIsLive(c.now, c.status, locs, n);
      }
    }
  }

  // A killed worker throws the results of its calls away until it is revived: no call
  // on it ends in a result on its way to the store.
  lemma {:induction false} KilledWorkerStoresNothing(exec: Task -> Bytes, cs: seq<State>, ls: seq<Label>, j: nat, k: nat,
                                                     n: NodeId)
    requires IsRun(exec, cs, ls) && j <= k < |ls| && n in cs[j].dropping
    requires forall i: nat :: j <= i < k ==> !(ls[i].SetAlive? && ls[i].node == n && ls[i].storing)
    ensures n in cs[k].dropping && !(ls[k].Execute? && ls[k].node == n)
  {
    assert StepAt(exec, cs, ls, k);
    if k > j {
      KilledWorkerStoresNothing(exec, cs, ls, j, k - 1, n);
      assert StepAt(exec, cs, ls, k - 1);
      StepClock(exec, cs[k - 1], ls[k - 1]);
    }
  }
}
