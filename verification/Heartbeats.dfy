// go/cmd/localscheduler/main.go, SendHeartbeats: the delays between the heartbeats
// of a node, and what the global scheduler makes of them. Times are in
// milliseconds; the calls themselves take no time.
module Heartbeats {
  import opened GlobalScheduler

  const SECOND: nat := 1000
  const MAX_BACKOFF: nat := 32

  // What one round of the loop met: whether the server was alive, and how often
  // the worker and the object store failed to answer before they did.
  datatype Round = Round(alive: bool, workerFailures: nat, storeFailures: nat)

  function Pow2(k: nat): (r: nat)
    ensures r > k
  {
    if k == 0 then 1 else 2 * Pow2(k - 1)
  }

  // The delay after so many failures in a row have already been slept off.
  function Backoff(failures: nat): nat {
    if Pow2(failures) <= MAX_BACKOFF then Pow2(failures) else MAX_BACKOFF
  }

  // The time slept over so many failures in a row.
  function Slept(failures: nat): nat {
    if failures == 0 then 0 else Slept(failures - 1) + Backoff(failures - 1) * SECOND
  }

  lemma {:induction false} PowMonotone(j: nat, k: nat)
    requires j <= k
    ensures Pow2(j) <= Pow2(k)
  {
    if j < k {
      PowMonotone(j, k - 1);
    }
  }

  // Sleeping doubles up to the cap and is linear from there.
  lemma {:induction false} SleptIs(failures: nat)
    ensures Slept(failures) == 1000 * if failures <= 5 then Pow2(failures) - 1 else 31 + 32 * (failures - 5)
  {
    if failures > 0 {
      SleptIs(failures - 1);
      if failures <= 5 {
        PowMonotone(failures - 1, 5);
      } else {
        PowMonotone(5, failures - 1);
      }
    }
  }

  // The retry loop; `backoff` ends up as it would be for the next failure.
  method RetryUntilAnswered(failures: nat) returns (slept: nat)
    ensures slept == Slept(failures)
  {
    var backoff := 1;
    slept := 0;
    for k := 0 to failures
      invariant slept == Slept(k) && backoff == Backoff(k)
    {
      slept := slept + backoff * SECOND;
      backoff := backoff * 2;
      if backoff > MAX_BACKOFF {
        backoff := MAX_BACKOFF;
      }
    }
  }

  // The time from the start of a round to its heartbeat, if it sends one.
  function Retrying(r: Round): nat {
    if r.alive then Slept(r.workerFailures) + Slept(r.storeFailures) else 0
  }

  // When the heartbeats of a run of rounds are sent, the first round starting at
  // `now`.
  function Beats(rounds: seq<Round>, now: nat): seq<nat> {
    if rounds == [] then []
    else
      var sent := now + Retrying(rounds[0]);
      (if rounds[0].alive then [sent] else []) + Beats(rounds[1..], sent + HEARTBEAT_WAIT)
  }

  lemma BeatOfOneRound(r: Round, now: nat)
    ensures Beats([r], now) == if r.alive then [now + Retrying(r)] else []
  {
    assert [r][1..] == [];
  }

  lemma BeatsFrom(rounds: seq<Round>, i: nat, now: nat, before: seq<nat>)
    requires i < |rounds|
    ensures var end := now + Retrying(rounds[i]);
            var sent := if rounds[i].alive then [end] else [];
            before + Beats(rounds[i..], now) == before + sent + Beats(rounds[i + 1..], end + HEARTBEAT_WAIT)
  {
    assert rounds[i..][1..] == rounds[i + 1..];
  }

  // A node that is answered without fail beats every 100 ms.
  predicate Smooth(r: Round) {
    r.alive && r.workerFailures == 0 && r.storeFailures == 0
  }

  // The global scheduler takes the node for live at every moment from a heartbeat
  // until the next.
  ghost predicate LiveUntil(h: HeartbeatEntry, next: nat) {
    forall now: nat :: h.timeReceived <= now < next ==> IsFresh(now, h)
  }

  lemma {:induction false} FailuresSleepLong(failures: nat)
    requires failures > 0
    ensures Slept(failures) >= SECOND
  {
    if failures > 1 {
      FailuresSleepLong(failures - 1);
    }
  }

  // Rounds in which the server is not alive, and then one that sends.
  predicate SkipsUntilLast(rounds: seq<Round>) {
    && rounds != []
    && rounds[|rounds| - 1].alive
    && forall i :: 0 <= i < |rounds| - 1 ==> !rounds[i].alive
  }

  lemma {:induction false} BeatAfterSkips(rounds: seq<Round>, now: nat)
    requires SkipsUntilLast(rounds)
    ensures Beats(rounds, now) == [now + HEARTBEAT_WAIT * (|rounds| - 1) + Retrying(rounds[|rounds| - 1])]
  {
    if |rounds| > 1 {
      assert forall i :: 0 <= i < |rounds| - 2 ==> rounds[1..][i] == rounds[i + 1];
      BeatAfterSkips(rounds[1..], now + HEARTBEAT_WAIT);
    }
  }

  // Between one heartbeat and the next, the node looks dead exactly when more than
  // three rounds were skipped or a status call failed: the shortest retry outlasts
  // the timeout already.
  lemma LooksDeadIff(h: HeartbeatEntry, rounds: seq<Round>)
    requires SkipsUntilLast(rounds)
    ensures var next := Beats(rounds, h.timeReceived + HEARTBEAT_WAIT);
            |next| == 1 && (LiveUntil(h, next[0]) <==> |rounds| <= 4 && Smooth(rounds[|rounds| - 1]))
  {
    var r, beat := rounds[|rounds| - 1], h.timeReceived;
    BeatAfterSkips(rounds, beat + HEARTBEAT_WAIT);
    if r.workerFailures > 0 {
      FailuresSleepLong(r.workerFailures);
    }
    if r.storeFailures > 0 {
      FailuresSleepLong(r.storeFailures);
    }
    assert !IsFresh(beat + LIVE_NODE_TIMEOUT, h);
  }
}
