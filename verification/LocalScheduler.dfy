// go/cmd/localscheduler/main.go: a client's task gets its uid, its lineage and its
// first dispatch.
module LocalScheduler {
  import opened Types
  import opened GlobalScheduler
  import opened Heartbeats

  const MAX_TASKS: nat := 10

  // Uids fit in a signed 64-bit column.
  const UID_BOUND: nat := 0x8000_0000_0000_0000

  // The bitwise and of two unsigned integers.
  function And(a: nat, b: nat): nat {
    if a == 0 || b == 0 then 0 else 2 * And(a / 2, b / 2) + (if a % 2 == 1 && b % 2 == 1 then 1 else 0)
  }

  // math.MaxUint64 >> 1
  const MASK: nat := 0xFFFF_FFFF_FFFF_FFFF / 2

  // SQLite cannot take the high bit of a uint64, so it is masked away.
  function TruncateHighBit(u64: nat): Uid {
    And(u64, MASK)
  }

  lemma HalfOfRemainder(a: nat, p: nat)
    requires p > 0
    ensures a % (2 * p) == 2 * (a / 2 % p) + a % 2
  {
    var h, q := a / 2, a / 2 / p;
    assert a == 2 * h + a % 2 && h == q * p + h % p;
    assert a == q * (2 * p) + (2 * (h % p) + a % 2);
    RemainderIs(a, 2 * p, q, 2 * (h % p) + a % 2);
  }

  lemma Times(d: int, n: nat)
    ensures d >= 1 ==> d * n >= n
    ensures d <= -1 ==> d * n <= 0 - n
  {
  }

  lemma RemainderIs(a: nat, n: nat, q: nat, r: nat)
    requires a == q * n + r && r < n
    ensures a % n == r
  {
    var d: int := a / n - q;
    assert a % n == r - d * n;
    Times(d, n);
  }

  lemma OnesHalve(p: nat)
    requires p > 0
    ensures (2 * p - 1) / 2 == p - 1 && (2 * p - 1) % 2 == 1
  {
  }

  // Masking with k ones is the remainder modulo the k-th power of two.
  lemma {:induction false} AndOnes(a: nat, k: nat)
    ensures And(a, Pow2(k) - 1) == a % Pow2(k)
  {
    if k > 0 {
      var p := Pow2(k - 1);
      HalfOfRemainder(a, p);
      AndOnes(a / 2, k - 1);
      OnesHalve(p);
      AndOfOnes(a, p);
    }
  }

  lemma AndOfOnes(a: nat, p: nat)
    requires p > 0 && (2 * p - 1) / 2 == p - 1 && (2 * p - 1) % 2 == 1
    ensures And(a, 2 * p - 1) == 2 * And(a / 2, p - 1) + a % 2
  {
  }

  lemma {:induction false} Pow2Plus(j: nat, k: nat)
    ensures Pow2(j + k) == Pow2(j) * Pow2(k)
  {
    if j > 0 {
      Pow2Plus(j - 1, k);
      Double(Pow2(j - 1), Pow2(k));
    }
  }

  lemma Double(x: nat, y: nat)
    ensures 2 * (x * y) == (2 * x) * y
  {
  }

  lemma Squared(k: nat, v: nat)
    requires Pow2(k) == v
    ensures Pow2(k + k) == v * v
  {
    Pow2Plus(k, k);
  }

  lemma Multiplied(j: nat, v: nat, k: nat, w: nat)
    requires Pow2(j) == v && Pow2(k) == w
    ensures Pow2(j + k) == v * w
  {
    Pow2Plus(j, k);
  }

  // The power is reached by squaring; `one` keeps it from being unfolded step by step.
  lemma UidBoundIsPow2(one: nat)
    requires one == 1
    ensures Pow2(63 * one) == UID_BOUND
  {
    var two := one + one;
    var four, eight := two + two, two + two + two + two;
    var sixteen := eight + eight;
    var thirtyTwo := sixteen + sixteen;
    assert Pow2(one) == 2 * Pow2(one - 1) && Pow2(one - 1) == 1;
    Squared(one, 2);
    Squared(two, 4);
    Squared(four, 16);
    Squared(eight, 256);
    Squared(sixteen, 0x1_0000);
    Multiplied(thirtyTwo, 0x1_0000_0000, sixteen, 0x1_0000);
    Multiplied(thirtyTwo + sixteen, 0x1_0000_0000_0000, eight, 256);
    Multiplied(thirtyTwo + sixteen + eight, 0x100_0000_0000_0000, four, 16);
    Multiplied(thirtyTwo + sixteen + eight + four, 0x1000_0000_0000_0000, two, 4);
    Multiplied(thirtyTwo + sixteen + eight + four + two, 0x4000_0000_0000_0000, one, 2);
    assert 63 * one == thirtyTwo + sixteen + eight + four + two + one;
  }

  lemma Masked(u64: nat, one: nat)
    requires one == 1
    ensures And(u64, MASK) == u64 % UID_BOUND
  {
    UidBoundIsPow2(one);
    AndOnes(u64, 63 * one);
  }

  // Masking takes nothing away from a uint64 but the high bit.
  lemma OnlyHighBitGoes(u64: nat)
    ensures TruncateHighBit(u64) == u64 % UID_BOUND < UID_BOUND
    ensures u64 < 2 * UID_BOUND ==> u64 == TruncateHighBit(u64) || u64 == TruncateHighBit(u64) + UID_BOUND
  {
    Masked(u64, 1);
  }

  // The request kept as lineage: it pins no node and sets no flag.
  function LineageRequest(uid: Uid, req: ScheduleRequest): Request {
    Request(uid, req.task, req.uids, false, 0, false)
  }

  datatype Dispatch =
    | ToGlobal(req: Request)
    | ToLocalWorker(uid: Uid, task: Task)

  // Where the task goes first: to the global scheduler if the client pins a node
  // or the local worker is full, to the local worker otherwise.
  function FirstDispatch(uid: Uid, req: ScheduleRequest, runningTasks: nat): Dispatch {
    if req.nodeId != 0 then ToGlobal(Request(uid, req.task, req.uids, true, req.nodeId, false))
    else if runningTasks < MAX_TASKS then ToLocalWorker(uid, req.task)
    else ToGlobal(Request(uid, req.task, req.uids, true, 0, req.localityFlag))
  }

  // In other words: a pin is passed on as it is, without the locality flag; a task
  // without one stays while fewer than ten run, and otherwise asks for what the
  // client asked for.
  lemma FirstDispatchIs(uid: Uid, req: ScheduleRequest, runningTasks: nat)
    ensures var d := FirstDispatch(uid, req, runningTasks);
            && (d.ToLocalWorker? <==> req.nodeId == 0 && runningTasks < 10)
            && (d.ToLocalWorker? ==> d.uid == uid && d.task == req.task)
            && (d.ToGlobal? ==>
                  && d.req.uid == uid && d.req.task == req.task && d.req.uids == req.uids && d.req.newObject
                  && d.req.nodeId == req.nodeId
                  && d.req.localityFlag == (req.nodeId == 0 && req.localityFlag))
    ensures var l := LineageRequest(uid, req);
            && l.uid == uid && l.task == req.task && l.uids == req.uids
            && !l.newObject && l.nodeId == 0 && !l.localityFlag
  {
  }

  function DispatchedTask(d: Dispatch): (Uid, Task) {
    match d
    case ToGlobal(req) => (req.uid, req.task)
    case ToLocalWorker(uid, task) => (uid, task)
  }

  class Server {
    var alive: bool
    const localNodeID: NodeId

    constructor (nodeId: NodeId)
      ensures alive && localNodeID == nodeId
    {
      alive, localNodeID := true, nodeId;
    }

    // `random` is the draw of rand.Uint64. The lineage is sent before the task.
    method Schedule(req: ScheduleRequest, random: nat, runningTasks: nat)
      returns (uid: Uid, lineage: Request, dispatch: Dispatch)
      ensures uid == TruncateHighBit(random)
      ensures lineage == LineageRequest(uid, req)
      ensures dispatch == FirstDispatch(uid, req, runningTasks)
      ensures DispatchedTask(dispatch) == (lineage.uid, lineage.task)
      ensures lineage == Request(uid, req.task, req.uids, false, 0, false)
      ensures req.nodeId != 0 ==>
              && dispatch.ToGlobal?
              && dispatch.req == Request(uid, req.task, req.uids, true, req.nodeId, false)
      ensures req.nodeId == 0 && runningTasks < 10 ==> dispatch.ToLocalWorker? && dispatch.uid == uid && dispatch.task == req.task
      ensures req.nodeId == 0 && runningTasks >= 10 ==>
              && dispatch.ToGlobal?
              && dispatch.req == Request(uid, req.task, req.uids, true, 0, req.localityFlag)
    {
      uid := TruncateHighBit(random);
      lineage := Request(uid, req.task, req.uids, false, 0, false);
      if req.nodeId != 0 {
        dispatch := ToGlobal(Request(uid, req.task, req.uids, true, req.nodeId, false));
        return;
      }
      if runningTasks < MAX_TASKS {
        dispatch := ToLocalWorker(uid, req.task);
      } else {
        dispatch := ToGlobal(Request(uid, req.task, req.uids, true, 0, req.localityFlag));
      }
    }

    // The heartbeats of a round that begins now, if the calls in it fail so often.
    ghost function NextBeats(workerFailures: nat, storeFailures: nat, now: nat): seq<nat>
      reads this
    {
      Beats([Round(alive, workerFailures, storeFailures)], now)
    }

    // No round that begins before the server is revived sends a heartbeat.
    method KillServer()
      modifies this
      ensures !alive
      ensures forall w: nat, s: nat, now: nat :: NextBeats(w, s, now) == []
    {
      alive := false;
      forall w: nat, s: nat, now: nat ensures NextBeats(w, s, now) == [] {
        BeatOfOneRound(Round(false, w, s), now);
      }
    }

    // The next round sends one, as soon as both of its calls are answered.
    method ReviveServer()
      modifies this
      ensures alive
      ensures forall w: nat, s: nat, now: nat :: NextBeats(w, s, now) == [now + Slept(w) + Slept(s)]
    {
      alive := true;
      forall w: nat, s: nat, now: nat ensures NextBeats(w, s, now) == [now + Slept(w) + Slept(s)] {
        BeatOfOneRound(Round(true, w, s), now);
      }
    }

    // One round of the loop: retries, perhaps a heartbeat, and the fixed wait.
    method HeartbeatRound(workerFailures: nat, storeFailures: nat, now: nat) returns (sentAt: seq<nat>, end: nat)
      ensures sentAt == NextBeats(workerFailures, storeFailures, now)
      ensures sentAt == if alive then [now + Slept(workerFailures) + Slept(storeFailures)] else []
      ensures end == now + (if alive then Slept(workerFailures) + Slept(storeFailures) else 0) + 100
    {
      BeatOfOneRound(Round(alive, workerFailures, storeFailures), now);
      sentAt, end := [], now;
      if alive {
        var slept := RetryUntilAnswered(workerFailures);
        end := end + slept;
        slept := RetryUntilAnswered(storeFailures);
        end := end + slept;
        sentAt := [end];
      }
      end := end + HEARTBEAT_WAIT;
    }

    // A round, after the last call of KillServer or ReviveServer before it.
    method RoundAfterControl(r: Round, now: nat) returns (sentAt: seq<nat>, end: nat)
      modifies this
      ensures sentAt == if r.alive then [now + Retrying(r)] else []
      ensures end == now + Retrying(r) + HEARTBEAT_WAIT
    {
      if r.alive {
        ReviveServer();
      } else {
        KillServer();
      }
      sentAt, end := HeartbeatRound(r.workerFailures, r.storeFailures, now);
    }

    // The loop, over so many rounds. It runs beside KillServer and ReviveServer.
    method SendHeartbeats(rounds: seq<Round>, start: nat) returns (sentAt: seq<nat>)
      modifies this
      ensures sentAt == Beats(rounds, start)
    {
      var now: nat := start;
      sentAt := [];
      for i := 0 to |rounds|
        invariant sentAt + Beats(rounds[i..], now) == Beats(rounds, start)
      {
        var sent, end := RoundAfterControl(rounds[i], now);
        BeatsFrom(rounds, i, now, sentAt);
        sentAt, now := sentAt + sent, end;
      }
    }
  }
}
