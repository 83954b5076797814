// go/cmd/worker/main.go, Run: the counters and the semaphore under every
// interleaving of calls. A call passes its program points one atomic section at a
// time; the deferred sections run whether it returns, fails or is killed.
module WorkerAdmission {

  const MAX_CONCURRENT_TASKS: nat := 10
  const EMA_PARAM: real := 0.9
  const TWO_TO_THE_32: nat := 0x1_0000_0000

  datatype Point =
    | Queued     // counted as queued, waiting for a token
    | Admitted   // has a token, still counted as queued
    | Working    // counted as running
    | Measured   // counted as running, its time already averaged in
    | Leaving    // no longer counted, token not yet returned
    | Gone

  // The counters are uint32; the calls are kept by an identity of their own.
  datatype State = State(
    calls: map<nat, Point>, numQueuedTasks: nat, numRunningTasks: nat, tokens: nat, averageRunningTime: real)

  // The worker when it starts.
  predicate IsIdle(s: State) {
    s.calls == map[] && s.numQueuedTasks == 0 && s.numRunningTasks == 0 && s.tokens == 0 && s.averageRunningTime == 0.1
  }

  datatype Section =
    | Enter(id: nat)
    | Acquire(id: nat)
    | Begin(id: nat)
    | Measure(id: nat, runningTime: real)   // only calls that stored their result
    | End(id: nat)                          // return, error return or Goexit
    | Release(id: nat)

  function Wrap32(x: int): nat {
    x % TWO_TO_THE_32
  }

  predicate IsAt(s: State, id: nat, p: Point) {
    id in s.calls && s.calls[id] == p
  }

  predicate Enabled(s: State, a: Section) {
    match a
    case Enter(id) => id !in s.calls
    case Acquire(id) => IsAt(s, id, Queued) && s.tokens < MAX_CONCURRENT_TASKS
    case Begin(id) => IsAt(s, id, Admitted)
    case Measure(id, runningTime) => IsAt(s, id, Working) && runningTime >= 0.0
    case End(id) => IsAt(s, id, Working) || IsAt(s, id, Measured)
    case Release(id) => IsAt(s, id, Leaving)
  }

  function Average(average: real, runningTime: real): real {
    EMA_PARAM * average + (1.0 - EMA_PARAM) * runningTime
  }

  function Next(s: State, a: Section): State {
    match a
    case Enter(id) => s.(calls := s.calls[id := Queued], numQueuedTasks := Wrap32(s.numQueuedTasks + 1))
    case Acquire(id) => s.(calls := s.calls[id := Admitted], tokens := s.tokens + 1)
    case Begin(id) =>
      s.(calls := s.calls[id := Working],
         numQueuedTasks := Wrap32(s.numQueuedTasks as int - 1), numRunningTasks := Wrap32(s.numRunningTasks + 1))
    case Measure(id, runningTime) =>
      s.(calls := s.calls[id := Measured], averageRunningTime := Average(s.averageRunningTime, runningTime))
    case End(id) =>
      s.(calls := s.calls[id := Leaving], numRunningTasks := Wrap32(s.numRunningTasks as int - 1))
    case Release(id) => s.(calls := s.calls[id := Gone], tokens := if s.tokens == 0 then 0 else s.tokens - 1)
  }

  function CallsAt(s: State, p: Point): set<nat> {
    set id | id in s.calls && s.calls[id] == p
  }

  // The number of calls at a program point.
  function At(s: State, p: Point): nat {
    |CallsAt(s, p)|
  }

  function Outstanding(s: State): nat {
    At(s, Queued) + At(s, Admitted)
  }

  function Running(s: State): nat {
    At(s, Working) + At(s, Measured)
  }

  // Each counter is the number of calls at the matching points, the queue counter
  // modulo 2^32; and the tokens that are out are those of the calls that hold one.
  ghost predicate Inv(s: State) {
    && s.numQueuedTasks == Wrap32(Outstanding(s))
    && s.numRunningTasks == Running(s)
    && s.tokens == At(s, Admitted) + Running(s) + At(s, Leaving)
    && s.tokens <= MAX_CONCURRENT_TASKS
    && s.averageRunningTime >= 0.0
  }

  lemma WrapPlus(a: int, d: int)
    ensures Wrap32(Wrap32(a) + d) == Wrap32(a + d)
  {
    var q := a / TWO_TO_THE_32;
    assert a + d == Wrap32(a) + d + q * TWO_TO_THE_32;
  }

  // Moving one call from one point to another.
  lemma Moves(s: State, t: State, id: nat, p: Point, q: Point)
    requires t.calls == s.calls[id := p]
    ensures At(t, q) == At(s, q) - (if IsAt(s, id, q) then 1 else 0) + (if q == p then 1 else 0)
  {
    var before, after := CallsAt(s, q), CallsAt(t, q);
    assert after == if q == p then before + {id} else before - {id};
    assert id in before <==> IsAt(s, id, q);
  }

  // A call that is at a point is counted there.
  lemma Somebody(s: State, id: nat, p: Point)
    requires IsAt(s, id, p)
    ensures At(s, p) >= 1
  {
    assert id in CallsAt(s, p);
  }

  lemma Nobody(s: State, p: Point)
    requires forall id :: id in s.calls ==> s.calls[id] != p
    ensures At(s, p) == 0
  {
    assert CallsAt(s, p) == {};
  }

  // The counters after one call moved from point `from` to point `to`.
  lemma MoveCounts(s: State, t: State, id: nat, to: Point)
    requires t.calls == s.calls[id := to]
    requires id in s.calls || to == Queued
    ensures var from := if id in s.calls then s.calls[id] else Gone;
            && Outstanding(t) == Outstanding(s) - (if from.Queued? || from.Admitted? then 1 else 0)
                                 + (if to.Queued? || to.Admitted? then 1 else 0)
            && Running(t) == Running(s) - (if from.Working? || from.Measured? then 1 else 0)
                             + (if to.Working? || to.Measured? then 1 else 0)
            && At(t, Admitted) == At(s, Admitted) - (if from.Admitted? then 1 else 0) + (if to.Admitted? then 1 else 0)
            && At(t, Leaving) == At(s, Leaving) - (if from.Leaving? then 1 else 0) + (if to.Leaving? then 1 else 0)
  {
    Moves(s, t, id, to, Queued);
    Moves(s, t, id, to, Admitted);
    Moves(s, t, id, to, Working);
    Moves(s, t, id, to, Measured);
    Moves(s, t, id, to, Leaving);
  }

  // Every section keeps the accounts.
  lemma StepInv(s: State, a: Section)
    requires Inv(s) && Enabled(s, a)
    ensures Inv(Next(s, a))
  {
    var t := Next(s, a);
    match a
    case Enter(id) => EnterInv(s, id);
    case Acquire(id) => MoveCounts(s, t, id, Admitted);
    case Begin(id) => BeginInv(s, id);
    case Measure(id, _) => MoveCounts(s, t, id, Measured);
    case End(id) => MoveCounts(s, t, id, Leaving);
    case Release(id) => MoveCounts(s, t, id, Gone);
  }

  lemma EnterInv(s: State, id: nat)
    requires Inv(s) && Enabled(s, Enter(id))
    ensures Inv(Next(s, Enter(id)))
  {
    MoveCounts(s, Next(s, Enter(id)), id, Queued);
    WrapPlus(Outstanding(s), 1);
  }

  lemma BeginInv(s: State, id: nat)
    requires Inv(s) && Enabled(s, Begin(id))
    ensures Inv(Next(s, Begin(id)))
  {
    MoveCounts(s, Next(s, Begin(id)), id, Working);
    WrapPlus(Outstanding(s), -1);
  }

  lemma IdleInv(s: State)
    requires IsIdle(s)
    ensures Inv(s)
  {
    Nobody(s, Queued);
    Nobody(s, Admitted);
    Nobody(s, Working);
    Nobody(s, Measured);
    Nobody(s, Leaving);
  }

  // `states` is a run of the worker: it starts idle, and `run` leads from each
  // state to the next.
  ghost predicate IsRun(states: seq<State>, run: seq<Section>) {
    && |states| == |run| + 1
    && IsIdle(states[0])
    && forall i :: 0 <= i < |run| ==> Enabled(states[i], run[i]) && states[i + 1] == Next(states[i], run[i])
  }

  lemma {:induction false} RunInv(states: seq<State>, run: seq<Section>, k: nat)
    requires IsRun(states, run) && k < |states|
    ensures Inv(states[k])
  {
    if k == 0 {
      IdleInv(states[0]);
    } else {
      RunInv(states, run, k - 1);
      StepInv(states[k - 1], run[k - 1]);
    }
  }

  // In every interleaving: at most ten calls run, each counter is exact (the queue
  // while fewer than 2^32 calls are queued), and the tokens out cover the calls
  // that run.
  lemma CountersAreExact(states: seq<State>, run: seq<Section>, k: nat)
    requires IsRun(states, run) && k < |states|
    ensures var s := states[k];
            && s.numRunningTasks == Running(s) <= s.tokens <= 10
            && (Outstanding(s) < 0x1_0000_0000 ==> s.numQueuedTasks == Outstanding(s))
  {
    RunInv(states, run, k);
  }

  // A call that waits can take a token exactly while fewer than ten are out.
  lemma AdmittedIff(states: seq<State>, run: seq<Section>, k: nat, id: nat)
    requires IsRun(states, run) && k < |states| && IsAt(states[k], id, Queued)
    ensures Enabled(states[k], Acquire(id)) <==>
            At(states[k], Admitted) + At(states[k], Working) + At(states[k], Measured) + At(states[k], Leaving) < 10
  {
    RunInv(states, run, k);
  }

  // No section takes a counter below zero, and the semaphore is never drained of a
  // token that is not there.
  lemma DecrementsAreCovered(states: seq<State>, run: seq<Section>, k: nat)
    requires IsRun(states, run) && k < |run|
    ensures var s := states[k];
            && (run[k].Begin? ==> Outstanding(s) > 0)
            && (run[k].End? ==> s.numRunningTasks > 0)
            && (run[k].Release? ==> s.tokens > 0)
  {
    RunInv(states, run, k);
    CoveredIn(states[k], run[k]);
  }

  lemma CoveredIn(s: State, a: Section)
    requires Inv(s) && Enabled(s, a)
    ensures a.Begin? ==> Outstanding(s) > 0
    ensures a.End? ==> s.numRunningTasks > 0
    ensures a.Release? ==> s.tokens > 0
  {
    match a
    case Begin(id) => Somebody(s, id, Admitted);
    case End(id) => Somebody(s, id, s.calls[id]);
    case Release(id) => Somebody(s, id, Leaving);
    case _ =>
  }

  // However the calls ended, once all of them are gone nothing is counted and no
  // token is out.
  lemma NothingLeaks(states: seq<State>, run: seq<Section>)
    requires IsRun(states, run)
    requires forall id :: id in states[|run|].calls ==> states[|run|].calls[id] == Gone
    ensures var s := states[|run|]; s.numQueuedTasks == 0 && s.numRunningTasks == 0 && s.tokens == 0
  {
    RunInv(states, run, |run|);
    GoneMeans(states[|run|]);
  }

  lemma GoneMeans(s: State)
    requires Inv(s) && forall id :: id in s.calls ==> s.calls[id] == Gone
    ensures s.numQueuedTasks == 0 && s.numRunningTasks == 0 && s.tokens == 0
  {
    Nobody(s, Queued);
    Nobody(s, Admitted);
    Nobody(s, Working);
    Nobody(s, Measured);
    Nobody(s, Leaving);
  }

  function AfterSections(s: State, sections: seq<Section>): State
    decreases |sections|
  {
    if sections == [] then s else AfterSections(Next(s, sections[0]), sections[1..])
  }

  // What a call that has executed its function has yet to go through.
  function WayOut(id: nat, measured: bool, runningTime: real): seq<Section> {
    if measured then [Measure(id, runningTime), End(id), Release(id)] else [End(id), Release(id)]
  }

  lemma FirstSection(s: State, a: Section, rest: seq<Section>)
    ensures AfterSections(s, [a] + rest) == AfterSections(Next(s, a), rest)
  {
    assert ([a] + rest)[1..] == rest;
  }

  lemma TwoSections(s: State, a: Section, b: Section)
    ensures AfterSections(s, [a, b]) == Next(Next(s, a), b)
  {
    assert [a, b][1..] == [b] && [b][1..] == [];
    assert AfterSections(Next(s, a), [b]) == AfterSections(Next(Next(s, a), b), []);
  }

  lemma ThreeSections(s: State, a: Section, b: Section, c: Section)
    ensures AfterSections(s, [a, b, c]) == Next(Next(Next(s, a), b), c)
  {
    assert [a, b, c][1..] == [b, c];
    TwoSections(Next(s, a), b, c);
  }

  lemma EndsAndReleases(s: State, id: nat)
    requires 0 < s.numRunningTasks < TWO_TO_THE_32 && s.tokens > 0
    ensures AfterSections(s, [End(id), Release(id)]) ==
            s.(calls := s.calls[id := Gone], numRunningTasks := s.numRunningTasks - 1, tokens := s.tokens - 1)
  {
    TwoSections(s, End(id), Release(id));
    assert s.calls[id := Leaving][id := Gone] == s.calls[id := Gone];
  }

  // The same for a call whose time has been averaged in.
  lemma MeasuredEnds(s: State, id: nat, average: real)
    requires 0 < s.numRunningTasks < TWO_TO_THE_32 && s.tokens > 0
    ensures AfterSections(s.(calls := s.calls[id := Measured], averageRunningTime := average), [End(id), Release(id)]) ==
            s.(calls := s.calls[id := Gone], numRunningTasks := s.numRunningTasks - 1, tokens := s.tokens - 1,
               averageRunningTime := average)
  {
    var t := s.(calls := s.calls[id := Measured], averageRunningTime := average);
    EndsAndReleases(t, id);
    assert t.calls[id := Gone] == s.calls[id := Gone];
  }

  lemma WorkingIsCovered(s: State, id: nat)
    requires Inv(s) && IsAt(s, id, Working)
    ensures 0 < s.numRunningTasks <= s.tokens <= MAX_CONCURRENT_TASKS
  {
    Somebody(s, id, Working);
  }

  // It gives its place and its token back, and counts in the average if its time
  // was measured.
  lemma Leaves(s: State, id: nat, measured: bool, runningTime: real)
    requires Inv(s) && IsAt(s, id, Working)
    ensures 0 < s.numRunningTasks <= s.tokens
    ensures AfterSections(s, WayOut(id, measured, runningTime)) ==
            s.(calls := s.calls[id := Gone], numRunningTasks := s.numRunningTasks - 1, tokens := s.tokens - 1,
               averageRunningTime := if measured then Average(s.averageRunningTime, runningTime) else s.averageRunningTime)
  {
    WorkingIsCovered(s, id);
    if measured {
      var first := Measure(id, runningTime);
      FirstSection(s, first, [End(id), Release(id)]);
      assert [first] + [End(id), Release(id)] == WayOut(id, true, runningTime);
      MeasuredEnds(s, id, Average(s.averageRunningTime, runningTime));
    } else {
      EndsAndReleases(s, id);
    }
  }

  // The global variables of the worker, changed by the sections of Run.
  class Worker {
    var numQueuedTasks: nat
    var numRunningTasks: nat
    var averageRunningTime: real
    var semaphore: nat             // tokens in the channel
    var alive: bool
    ghost var calls: map<nat, Point>

    ghost function View(): State
      reads this
    {
      State(calls, numQueuedTasks, numRunningTasks, semaphore, averageRunningTime)
    }

    constructor ()
      ensures alive && averageRunningTime == 0.1
      ensures IsIdle(View())
      ensures Inv(View())
    {
      numQueuedTasks, numRunningTasks, averageRunningTime, semaphore, alive := 0, 0, 0.1, 0, true;
      calls := map[];
      new;
      assert alive && IsIdle(View());
      IdleInv(View());
    }

    method EnterQueue(ghost id: nat)
      requires Inv(View()) && Enabled(View(), Enter(id))
      modifies this
      ensures View() == Next(old(View()), Enter(id)) && Inv(View()) && alive == old(alive)
    {
      StepInv(View(), Enter(id));
      numQueuedTasks := Wrap32(numQueuedTasks + 1);
      calls := calls[id := Queued];
    }

    // The channel takes ten tokens; the send blocks while it is full.
    method TakeToken(ghost id: nat)
      requires Inv(View()) && Enabled(View(), Acquire(id))
      modifies this
      ensures View() == Next(old(View()), Acquire(id)) && Inv(View()) && alive == old(alive)
    {
      StepInv(View(), Acquire(id));
      semaphore := semaphore + 1;
      calls := calls[id := Admitted];
    }

    method StartRunning(ghost id: nat)
      requires Inv(View()) && Enabled(View(), Begin(id))
      modifies this
      ensures View() == Next(old(View()), Begin(id)) && Inv(View()) && alive == old(alive)
    {
      StepInv(View(), Begin(id));
      numQueuedTasks := Wrap32(numQueuedTasks as int - 1);
      numRunningTasks := Wrap32(numRunningTasks + 1);
      calls := calls[id := Working];
    }

    // The end of a call that stored its result.
    method MeasureTime(ghost id: nat, runningTime: real)
      requires Inv(View()) && Enabled(View(), Measure(id, runningTime))
      modifies this
      ensures View() == Next(old(View()), Measure(id, runningTime)) && Inv(View()) && alive == old(alive)
      ensures averageRunningTime == 0.9 * old(averageRunningTime) + 0.1 * runningTime
    {
      StepInv(View(), Measure(id, runningTime));
      averageRunningTime := EMA_PARAM * averageRunningTime + (1.0 - EMA_PARAM) * runningTime;
      calls := calls[id := Measured];
    }

    // The first half of the deferred function, which also runs when the call
    // failed or when it left because the worker is not alive.
    method StopRunning(ghost id: nat)
      requires Inv(View()) && Enabled(View(), End(id))
      modifies this
      ensures View() == Next(old(View()), End(id)) && Inv(View()) && alive == old(alive)
    {
      StepInv(View(), End(id));
      numRunningTasks := Wrap32(numRunningTasks as int - 1);
      calls := calls[id := Leaving];
    }

    method ReturnToken(ghost id: nat)
      requires Inv(View()) && Enabled(View(), Release(id))
      modifies this
      ensures View() == Next(old(View()), Release(id)) && Inv(View()) && alive == old(alive)
    {
      StepInv(View(), Release(id));
      if semaphore != 0 {
        semaphore := semaphore - 1;
      }
      calls := calls[id := Gone];
    }

    // What a call that has executed its function will do: whether it sends the
    // result to the object store, and the sections it has yet to go through.
    ghost function Exit(id: nat, storeFails: bool, runningTime: real): (bool, seq<Section>)
      reads `alive
    {
      (alive, WayOut(id, alive && !storeFails, runningTime))
    }

    // The end of Run: a worker that is not alive leaves without storing, and one
    // whose result cannot be stored without measuring. The sections are gone through
    // here with none of another call between them.
    method LeaveRun(ghost id: nat, storeFails: bool, runningTime: real) returns (sent: bool)
      requires Inv(View()) && IsAt(View(), id, Working) && runningTime >= 0.0
      modifies this
      ensures Inv(View()) && alive == old(alive)
      ensures sent == old(Exit(id, storeFails, runningTime)).0
      ensures View() == AfterSections(old(View()), old(Exit(id, storeFails, runningTime)).1)
    {
      ghost var s0 := View();
      sent := alive;
      if sent && !storeFails {
        ThreeSections(s0, Measure(id, runningTime), End(id), Release(id));
        MeasureTime(id, runningTime);
        StopRunning(id);
        ReturnToken(id);
      } else {
        TwoSections(s0, End(id), Release(id));
        StopRunning(id);
        ReturnToken(id);
      }
    }

    // Until the worker is revived, no call that is still executing its function will
    // store a result or count in the average, and each will leave all the same.
    method KillServer()
      modifies `alive
      ensures !alive && View() == old(View())
      ensures forall id: nat, fails, time :: Exit(id, fails, time) == (false, [End(id), Release(id)])
    {
      alive := false;
    }

    // Calls that end from now on store their results again, also those that were
    // running when the worker was killed.
    method ReviveServer()
      modifies `alive
      ensures alive && View() == old(View())
      ensures forall id: nat, time :: Exit(id, false, time) == (true, [Measure(id, time), End(id), Release(id)])
      ensures forall id: nat, time :: Exit(id, true, time) == (true, [End(id), Release(id)])
    {
      alive := true;
    }
  }
}
