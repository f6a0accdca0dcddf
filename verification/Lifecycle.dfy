/**
 The escalation of health failures: each failed streak of an active module asks for
 a restart until the episode's budget is spent, and then the module is failed.
 */
module Lifecycle {
  import opened ModuleGraph
  import opened Health

  // ------------------------------------------------------------ the class

  /** A module record's live side; `restarts` counts the restarts asked of its
      supervisor. */
  class Entry {
    var state: State
    var monitored: bool
    var supervised: bool
    var restarts: nat

    constructor (state: State, monitored: bool, supervised: bool)
      ensures this.state == state && this.monitored == monitored && this.supervised == supervised && restarts == 0
    {
      this.state, this.monitored, this.supervised, this.restarts := state, monitored, supervised, 0;
    }
  }

  class Coordinator {
    const maxRestarts: int
    /** Restarts spent in each module's unhealthy episode. */
    var healthRestarts: map<string, nat>

    constructor (maxRestarts: int)
      ensures this.maxRestarts == maxRestarts && healthRestarts == map[]
    {
      this.maxRestarts := maxRestarts;
      healthRestarts := map[];
    }

    function Attempts(name: string): nat
      reads this
    {
      if name in healthRestarts then healthRestarts[name] else 0
    }

    function EpisodeOf(name: string, entry: Entry): Episode
      reads this, entry
    {
      Episode.Episode(entry.state, Attempts(name), entry.restarts)
    }

    ghost predicate OthersKept(was: map<string, nat>, name: string)
      reads this
    {
      healthRestarts - {name} == was - {name}
    }

    method OnHealthFail(name: string, entry: Entry)
      modifies this, entry
      ensures EpisodeOf(name, entry) == Escalate(old(EpisodeOf(name, entry)), maxRestarts, old(entry.supervised))
      ensures OthersKept(old(healthRestarts), name)
      ensures entry.state == Failed && old(entry.state) == Active ==> !entry.monitored && !entry.supervised
      ensures entry.state == old(entry.state) ==>
                entry.monitored == old(entry.monitored) && entry.supervised == old(entry.supervised)
      ensures old(entry.state) != Active ==> unchanged(this, entry)
      ensures old(entry.state) == Active && old(Attempts(name)) < maxRestarts ==>
                && entry.state == Active && Attempts(name) == old(Attempts(name)) + 1
                && entry.restarts == old(entry.restarts) + if old(entry.supervised) then 1 else 0
      ensures old(entry.state) == Active && old(Attempts(name)) >= maxRestarts ==>
                && entry.state == Failed && Attempts(name) == 0 && entry.restarts == old(entry.restarts)
                && !entry.monitored && !entry.supervised
    {
      if entry.state != Active {
        return;
      }
      var attempts := Attempts(name);
      if attempts >= maxRestarts {
        FailHealth(name, entry);
        return;
      }
      healthRestarts := healthRestarts[name := attempts + 1];
      if !entry.supervised {
        return;
      }
      entry.restarts := entry.restarts + 1;
    }

    method OnHealthRecover(name: string, entry: Entry)
      modifies this
      ensures EpisodeOf(name, entry) == Recovered(old(EpisodeOf(name, entry)))
      ensures Attempts(name) == 0
      ensures OthersKept(old(healthRestarts), name)
    {
      healthRestarts := healthRestarts - {name};
    }

    method FailHealth(name: string, entry: Entry)
      modifies this, entry
      ensures EpisodeOf(name, entry) == old(EpisodeOf(name, entry)).(state := Failed, attempts := 0)
      ensures !entry.monitored && !entry.supervised && OthersKept(old(healthRestarts), name)
    {
      Teardown(name, entry);
      entry.state := Failed;
    }

    method Teardown(name: string, entry: Entry)
      modifies this, entry
      ensures EpisodeOf(name, entry) == old(EpisodeOf(name, entry)).(state := Ready, attempts := 0)
      ensures !entry.monitored && !entry.supervised && OthersKept(old(healthRestarts), name)
    {
      Deregister(entry);
      StopProcess(name, entry);
    }

    method Deregister(entry: Entry)
      modifies entry
      ensures !entry.monitored && entry.state == Ready
      ensures entry.supervised == old(entry.supervised) && entry.restarts == old(entry.restarts)
    {
      entry.monitored := false;
      entry.state := Ready;
    }

    method StopProcess(name: string, entry: Entry)
      modifies this, entry
      ensures !entry.supervised && Attempts(name) == 0 && OthersKept(old(healthRestarts), name)
      ensures entry.state == old(entry.state) && entry.monitored == old(entry.monitored)
      ensures entry.restarts == old(entry.restarts)
    {
      entry.supervised := false;
      healthRestarts := healthRestarts - {name};
    }
  }

  // ------------------------------------------------- escalation as a function

  datatype Episode = Episode(state: State, attempts: nat, restarts: nat)

  function Escalate(e: Episode, maxRestarts: int, supervised: bool): Episode {
    if e.state != Active then e
    else if e.attempts >= maxRestarts then e.(state := Failed, attempts := 0)
    else e.(attempts := e.attempts + 1, restarts := e.restarts + if supervised then 1 else 0)
  }

  function Recovered(e: Episode): Episode {
    e.(attempts := 0)
  }

  function React(e: Episode, signal: Signal, maxRestarts: int, supervised: bool): Episode {
    match signal
    case Quiet => e
    case OnFail => Escalate(e, maxRestarts, supervised)
    case OnRecover => Recovered(e)
  }

  /** An active module under its monitor, the callbacks running in order;
      a failed module's monitor is stopped. */
  function Watched(threshold: nat, maxRestarts: int, results: seq<bool>, supervised: bool): Episode {
    if results == [] then Episode(Active, 0, 0)
    else
      var n := |results| - 1;
      var e := Watched(threshold, maxRestarts, results[..n], supervised);
      if e.state != Active then e else React(e, SignalAt(threshold, results, n), maxRestarts, supervised)
  }

  /** A budget that is negative is spent at once, like one of zero. */
  function Budget(maxRestarts: int): nat {
    if maxRestarts < 0 then 0 else maxRestarts
  }

  /** The streak reached the length at which a module is given up. */
  predicate GivenUpAt(threshold: nat, maxRestarts: int, results: seq<bool>, i: nat)
    requires i < |results|
  {
    Streak(results[..i + 1]) >= (Budget(maxRestarts) + 1) * threshold
  }

  predicate GivenUp(threshold: nat, maxRestarts: int, results: seq<bool>) {
    exists i :: 0 <= i < |results| && GivenUpAt(threshold, maxRestarts, results, i)
  }

  lemma GivenUpGrows(threshold: nat, maxRestarts: int, results: seq<bool>)
    requires results != []
    ensures GivenUp(threshold, maxRestarts, results) <==>
            GivenUp(threshold, maxRestarts, results[..|results| - 1])
            || GivenUpAt(threshold, maxRestarts, results, |results| - 1)
  {
    var before := results[..|results| - 1];
    forall i | 0 <= i < |before|
      ensures GivenUpAt(threshold, maxRestarts, results, i) <==> GivenUpAt(threshold, maxRestarts, before, i)
    {
      assert before[..i + 1] == results[..i + 1];
    }
  }

  lemma DivBound(n: nat, t: nat, b: nat)
    requires t > 0
    ensures n / t > b <==> n >= (b + 1) * t
  {
    assert n == n / t * t + n % t;
    if n / t > b {
      assert n / t * t >= (b + 1) * t;
    } else {
      assert n / t * t <= b * t;
      assert (b + 1) * t == b * t + t;
    }
  }

  /** While the module is active its attempts are the streak's full thresholds. */
  lemma {:induction false} AttemptsAreStreak(threshold: nat, maxRestarts: int, results: seq<bool>, supervised: bool)
    requires threshold > 0
    ensures var e := Watched(threshold, maxRestarts, results, supervised);
            && (e.state == Active || e.state == Failed)
            && (e.state == Active ==>
                  && e.attempts == Streak(results) / threshold && e.attempts <= Budget(maxRestarts)
                  && e.restarts == if supervised then Fires(threshold, results) else 0)
  {
    DivMod(0, threshold, 0, 0);
    if results != [] {
      var n := |results| - 1;
      var before := results[..n];
      AttemptsAreStreak(threshold, maxRestarts, before, supervised);
      assert results[..n + 1] == results;
      SignalExact(threshold, results, n);
      NextMultiple(Streak(before), threshold);
      if Streak(before) < threshold {
        DivMod(Streak(before), threshold, 0, Streak(before));
      }
    }
  }

  /** An active module fails at the check that brings its streak past the budget. */
  lemma FailsNext(threshold: nat, maxRestarts: int, results: seq<bool>, supervised: bool)
    requires threshold > 0 && results != []
    requires Watched(threshold, maxRestarts, results[..|results| - 1], supervised).state == Active
    ensures Watched(threshold, maxRestarts, results, supervised).state == Failed <==>
            Streak(results) / threshold > Budget(maxRestarts)
  {
    var n := |results| - 1;
    AttemptsAreStreak(threshold, maxRestarts, results[..n], supervised);
    AttemptsAreStreak(threshold, maxRestarts, results, supervised);
    assert results[..n + 1] == results;
    SignalExact(threshold, results, n);
    NextMultiple(Streak(results[..n]), threshold);
  }

  /** A module is failed exactly when some streak of failed checks reached
      (budget + 1) * threshold; until then it asked for one restart at each full
      threshold of each streak, and the attempts counted are the current streak's. */
  lemma {:induction false} FailedIffStreak(threshold: nat, maxRestarts: int, results: seq<bool>, supervised: bool)
    requires threshold > 0
    ensures var e := Watched(threshold, maxRestarts, results, supervised);
            && (e.state == Active || e.state == Failed)
            && (e.state == Failed <==> GivenUp(threshold, maxRestarts, results))
            && (e.state == Active ==>
                  && e.attempts == Streak(results) / threshold
                  && e.restarts == if supervised then FullStreaks(Runs(results), threshold) else 0)
  {
    AttemptsAreStreak(threshold, maxRestarts, results, supervised);
    FiresCountFullStreaks(threshold, results);
    if results != [] {
      var n := |results| - 1;
      var before := results[..n];
      FailedIffStreak(threshold, maxRestarts, before, supervised);
      GivenUpGrows(threshold, maxRestarts, results);
      assert results[..n + 1] == results;
      DivBound(Streak(results), threshold, Budget(maxRestarts));
      if Watched(threshold, maxRestarts, before, supervised).state == Active {
        FailsNext(threshold, maxRestarts, results, supervised);
      }
    }
  }

  function Failures(n: nat): seq<bool> {
    if n == 0 then [] else Failures(n - 1) + [false]
  }

  lemma {:induction false} FailuresStreak(n: nat)
    ensures |Failures(n)| == n && Streak(Failures(n)) == n
  {
    if n > 0 {
      FailuresStreak(n - 1);
      assert Failures(n)[..n - 1] == Failures(n - 1);
    }
  }

  lemma FailuresSignal(threshold: nat, n: nat)
    requires threshold > 0 && n > 0
    ensures |Failures(n)| == n
    ensures SignalAt(threshold, Failures(n), n - 1) == if n % threshold == 0 then OnFail else Quiet
  {
    FailuresStreak(n);
    assert Failures(n)[..n] == Failures(n);
    SignalExact(threshold, Failures(n), n - 1);
  }

  /** Where `full` thresholds of failed checks in a row have led. */
  function Unbroken(full: nat, maxRestarts: int, supervised: bool): Episode {
    var asked := if full > Budget(maxRestarts) then Budget(maxRestarts) else full;
    var restarts := if supervised then asked else 0;
    if full > Budget(maxRestarts) then Episode(Failed, 0, restarts) else Episode(Active, full, restarts)
  }

  lemma {:induction false} UnbrokenEpisode(threshold: nat, maxRestarts: int, n: nat, supervised: bool)
    requires threshold > 0
    ensures Watched(threshold, maxRestarts, Failures(n), supervised) == Unbroken(n / threshold, maxRestarts, supervised)
  {
    if n == 0 {
      DivMod(0, threshold, 0, 0);
    } else {
      UnbrokenEpisode(threshold, maxRestarts, n - 1, supervised);
      UnbrokenStep(threshold, maxRestarts, n, supervised);
      MultipleStep(n, threshold);
      OneMoreFailure((n - 1) / threshold, maxRestarts, n % threshold == 0, supervised);
    }
  }

  lemma UnbrokenStep(threshold: nat, maxRestarts: int, n: nat, supervised: bool)
    requires threshold > 0 && n > 0
    ensures var e := Watched(threshold, maxRestarts, Failures(n - 1), supervised);
            Watched(threshold, maxRestarts, Failures(n), supervised) ==
            if e.state != Active then e
            else React(e, if n % threshold == 0 then OnFail else Quiet, maxRestarts, supervised)
  {
    FailuresSignal(threshold, n);
    assert Failures(n)[..n - 1] == Failures(n - 1);
  }

  lemma MultipleStep(n: nat, t: nat)
    requires t > 0 && n > 0
    ensures n / t == (n - 1) / t + if n % t == 0 then 1 else 0
  {
    NextMultiple(n - 1, t);
  }

  /** A failed check more, with `full` thresholds behind it. */
  lemma OneMoreFailure(full: nat, maxRestarts: int, hit: bool, supervised: bool)
    ensures var e := Unbroken(full, maxRestarts, supervised);
            Unbroken(if hit then full + 1 else full, maxRestarts, supervised) ==
            if e.state != Active then e else React(e, if hit then OnFail else Quiet, maxRestarts, supervised)
  {
  }

  /** An unbroken run of failed checks brings exactly the budget's restarts and then,
      at check (budget + 1) * threshold and not before, the failed state. */
  lemma UnbrokenRun(threshold: nat, maxRestarts: int, n: nat, supervised: bool)
    requires threshold > 0
    ensures var e, b := Watched(threshold, maxRestarts, Failures(n), supervised), Budget(maxRestarts);
            && (e.state == Failed <==> n >= (b + 1) * threshold)
            && e.restarts == if !supervised then 0 else if n / threshold <= b then n / threshold else b
  {
    UnbrokenEpisode(threshold, maxRestarts, n, supervised);
    DivBound(n, threshold, Budget(maxRestarts));
  }
}
