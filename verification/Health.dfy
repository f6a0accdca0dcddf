/**
 The health monitor: a streak counter that fires its failure callback at every
 threshold-long streak and its recovery callback once per failed episode.
 */
module Health {
  const DEFAULT_FAIL_THRESHOLD: nat := 3

  datatype Signal = Quiet | OnFail | OnRecover

  /** The monitor's state between checks. */
  datatype Watch = Watch(failures: nat, failFired: bool)

  const FRESH := Watch(0, false)

  function Checked(w: Watch, threshold: nat, ok: bool): Watch {
    if ok then FRESH
    else if w.failures + 1 >= threshold then Watch(0, true)
    else Watch(w.failures + 1, w.failFired)
  }

  function Signalled(w: Watch, threshold: nat, ok: bool): Signal {
    if ok then (if w.failFired then OnRecover else Quiet)
    else if w.failures + 1 >= threshold then OnFail
    else Quiet
  }

  class Monitor {
    const failThreshold: nat
    var failures: nat
    var failFired: bool

    /** A threshold that is not positive falls back to the default. */
    constructor (failThreshold: int)
      ensures this.failThreshold == (if failThreshold <= 0 then DEFAULT_FAIL_THRESHOLD else failThreshold)
      ensures this.failThreshold > 0 && View() == FRESH
    {
      this.failThreshold := if failThreshold <= 0 then DEFAULT_FAIL_THRESHOLD else failThreshold;
      failures, failFired := 0, false;
    }

    function View(): Watch
      reads this
    {
      Watch(failures, failFired)
    }

    /** Counts one check's result and says which callback it starts. */
    method Check(ok: bool) returns (signal: Signal)
      modifies this
      ensures View() == Checked(old(View()), failThreshold, ok)
      ensures signal == Signalled(old(View()), failThreshold, ok)
      ensures ok ==> failures == 0 && !failFired && signal == if old(failFired) then OnRecover else Quiet
      ensures !ok && old(failures) + 1 >= failThreshold ==> failures == 0 && failFired && signal == OnFail
      ensures !ok && old(failures) + 1 < failThreshold ==>
                failures == old(failures) + 1 && failFired == old(failFired) && signal == Quiet
    {
      signal := Quiet;
      if !ok {
        failures := failures + 1;
        if failures >= failThreshold {
          failures := 0;
          failFired := true;
          signal := OnFail;
        }
        return;
      }
      failures := 0;
      if failFired {
        failFired := false;
        signal := OnRecover;
      }
    }
  }

  // ------------------------------------------------------ whole check runs

  function After(threshold: nat, results: seq<bool>): Watch {
    if results == [] then FRESH
    else Checked(After(threshold, results[..|results| - 1]), threshold, results[|results| - 1])
  }

  /** What the check at position `i` fires. */
  function SignalAt(threshold: nat, results: seq<bool>, i: nat): Signal
    requires i < |results|
  {
    Signalled(After(threshold, results[..i]), threshold, results[i])
  }

  /** The failed checks at the end: how long the unhealthy streak is by now. */
  function Streak(results: seq<bool>): (n: nat)
    ensures n <= |results|
    ensures forall i :: |results| - n <= i < |results| ==> !results[i]
    ensures n < |results| ==> results[|results| - n - 1]
  {
    if results == [] || results[|results| - 1] then 0
    else 1 + Streak(results[..|results| - 1])
  }

  /** The lengths of the maximal runs of failed checks, oldest first. */
  function Runs(results: seq<bool>): (runs: seq<nat>)
    ensures Streak(results) > 0 ==> runs != [] && runs[|runs| - 1] == Streak(results)
  {
    if results == [] then []
    else
      var before := Runs(results[..|results| - 1]);
      if results[|results| - 1] then before
      else if Streak(results[..|results| - 1]) == 0 then before + [1]
      else before[..|before| - 1] + [before[|before| - 1] + 1]
  }

  function FullStreaks(runs: seq<nat>, threshold: nat): nat
    requires threshold > 0
  {
    if runs == [] then 0 else FullStreaks(runs[..|runs| - 1], threshold) + runs[|runs| - 1] / threshold
  }

  function Fires(threshold: nat, results: seq<bool>): nat {
    if results == [] then 0
    else
      var n := |results| - 1;
      Fires(threshold, results[..n]) + if SignalAt(threshold, results, n) == OnFail then 1 else 0
  }

  lemma NextMultiple(n: nat, t: nat)
    requires t > 0
    ensures (n + 1) % t == (if n % t + 1 == t then 0 else n % t + 1)
    ensures (n + 1) / t == n / t + (if n % t + 1 == t then 1 else 0)
  {
    var q, r := n / t, n % t;
    assert n == q * t + r;
    if r + 1 == t {
      assert n + 1 == (q + 1) * t;
      DivMod(n + 1, t, q + 1, 0);
    } else {
      DivMod(n + 1, t, q, r + 1);
    }
  }

  /** One more failure: when the counter wraps, and when the streak is long enough. */
  lemma NextFailure(n: nat, t: nat)
    requires t > 0
    ensures (n + 1) % t == if n % t + 1 >= t then 0 else n % t + 1
    ensures n + 1 >= t <==> n >= t || n % t + 1 >= t
  {
    NextMultiple(n, t);
    if n < t {
      DivMod(n, t, 0, n);
    }
  }

  lemma DivMod(n: nat, t: nat, q: nat, r: nat)
    requires t > 0 && n == q * t + r && r < t
    ensures n / t == q && n % t == r
  {
    var d := n / t - q;
    assert n == n / t * t + n % t;
    assert d * t == r - n % t by { assert n / t * t - q * t == d * t; }
    assert d >= 1 ==> d * t >= t;
    assert d <= -1 ==> d * t + t <= 0;
  }

  /** The counter is the streak modulo the threshold, and the flag says whether the
      streak ever reached it. */
  lemma {:induction false} WatchIsStreak(threshold: nat, results: seq<bool>)
    requires threshold > 0
    ensures var w, n := After(threshold, results), Streak(results);
            w.failures == n % threshold && (w.failFired <==> n >= threshold)
  {
    if results != [] {
      var before := results[..|results| - 1];
      WatchIsStreak(threshold, before);
      NextFailure(Streak(before), threshold);
      DivMod(0, threshold, 0, 0);
    }
  }

  /** Exactly when each callback fires: the failure callback at each check that brings
      the streak to a multiple of the threshold, the recovery callback at the first
      good check after a streak that reached the threshold. */
  lemma SignalExact(threshold: nat, results: seq<bool>, i: nat)
    requires threshold > 0 && i < |results|
    ensures SignalAt(threshold, results, i) == OnFail <==> !results[i] && Streak(results[..i + 1]) % threshold == 0
    ensures SignalAt(threshold, results, i) == OnRecover <==> results[i] && Streak(results[..i]) >= threshold
  {
    WatchIsStreak(threshold, results[..i]);
    assert results[..i + 1][..i] == results[..i];
    NextMultiple(Streak(results[..i]), threshold);
  }

  /** The failure callback fires once for every full threshold in every maximal run. */
  lemma {:induction false} FiresCountFullStreaks(threshold: nat, results: seq<bool>)
    requires threshold > 0
    ensures Fires(threshold, results) == FullStreaks(Runs(results), threshold)
  {
    if results != [] {
      var n := |results| - 1;
      FiresCountFullStreaks(threshold, results[..n]);
      SignalExact(threshold, results, n);
      assert results[..n + 1] == results;
      if !results[n] {
        LongerRun(threshold, results);
        NextMultiple(Streak(results[..n]), threshold);
      }
    }
  }

  /** One more failed check brings at most one more full streak. */
  lemma LongerRun(threshold: nat, results: seq<bool>)
    requires threshold > 0 && results != [] && !results[|results| - 1]
    ensures var before := results[..|results| - 1];
            FullStreaks(Runs(results), threshold) ==
            FullStreaks(Runs(before), threshold) - Streak(before) / threshold + Streak(results) / threshold
  {
    var before := results[..|results| - 1];
    var runs, n := Runs(before), |Runs(before)| - 1;
    if Streak(before) == 0 {
      DivMod(0, threshold, 0, 0);
      assert (runs + [1])[..|runs|] == runs;
    } else {
      assert (runs[..n] + [runs[n] + 1])[..n] == runs[..n];
    }
  }

  /** Recoveries alternate with failures: each recovery answers a failure callback that
      no other recovery has answered. */
  lemma RecoverAnswersFail(threshold: nat, results: seq<bool>, i: nat) returns (j: nat)
    requires threshold > 0 && i < |results| && SignalAt(threshold, results, i) == OnRecover
    ensures j < i && SignalAt(threshold, results, j) == OnFail
    ensures forall k :: j < k < i ==> SignalAt(threshold, results, k) != OnRecover
  {
    SignalExact(threshold, results, i);
    var n := Streak(results[..i]);
    j := i - n + threshold - 1;
    StreakWithin(results[..i], threshold);
    assert results[..i][..j + 1] == results[..j + 1];
    DivMod(threshold, threshold, 1, 0);
    SignalExact(threshold, results, j);
    forall k | j < k < i ensures SignalAt(threshold, results, k) != OnRecover {
      SignalExact(threshold, results, k);
      assert !results[..i][k];
    }
  }

  /** A streak passed through every shorter length. */
  lemma {:induction false} StreakWithin(results: seq<bool>, m: nat)
    requires 0 < m <= Streak(results)
    ensures var j := |results| - Streak(results) + m;
            Streak(results[..j]) == m
  {
    if m < Streak(results) {
      var before := results[..|results| - 1];
      StreakWithin(before, m);
      var j := |results| - Streak(results) + m;
      assert before[..j] == results[..j];
    } else {
      assert results[..|results|] == results;
    }
  }
}
