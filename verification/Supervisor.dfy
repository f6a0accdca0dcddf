/**
 The process supervisor's crash-loop guard: the crashes of the recent past are kept
 in a list filtered in place at each crash, and too many of them end the restarts.
 */
module Supervisor {
  datatype Life = Idle | Running | Stopped | Failed

  /** What the supervisor keeps between exits; `stopping` is its closed stop channel. */
  datatype Sup = Sup(life: Life, intentional: bool, stopping: bool, restarts: seq<int>)

  const DEFAULT_MAX_RESTARTS := 3
  /** One minute; times are in nanoseconds. */
  const DEFAULT_RESTART_WINDOW := 60_000_000_000

  /** The times after the cutoff, in order. */
  function Recent(times: seq<int>, cutoff: int): seq<int> {
    if times == [] then []
    else
      var last := times[|times| - 1];
      Recent(times[..|times| - 1], cutoff) + if last > cutoff then [last] else []
  }

  function Exited(s: Sup, now: int, launched: bool, max: nat, window: nat): Sup {
    if s.stopping then s.(life := Stopped)
    else if s.intentional then s.(intentional := false, life := if launched then Running else Failed)
    else
      var kept := Recent(s.restarts, now - window) + [now];
      s.(restarts := kept, life := if |kept| > max || !launched then Failed else Running)
  }

  /** The first launch; one that fails leaves the supervisor idle. */
  function Launched(s: Sup, launched: bool): Sup {
    if launched then s.(life := Running) else s
  }

  /** A restart marks the next exit as wanted, and does nothing unless a process runs. */
  function Wanted(s: Sup): Sup {
    if s.life == Running then s.(intentional := true) else s
  }

  /** A stop tells the monitor not to relaunch, unless nothing was ever started. */
  function Halted(s: Sup): Sup {
    if s.life == Idle then s else s.(stopping := true)
  }

  const UNSTARTED := Sup(Idle, false, false, [])

  class Supervisor {
    const maxRestarts: nat
    const restartWindow: nat
    var life: Life
    var intentional: bool
    var stopping: bool
    var restarts: seq<int>

    /** Settings that are not positive fall back to the defaults. */
    constructor (maxRestarts: int, restartWindow: int)
      ensures this.maxRestarts == (if maxRestarts <= 0 then DEFAULT_MAX_RESTARTS else maxRestarts)
      ensures this.restartWindow == (if restartWindow <= 0 then DEFAULT_RESTART_WINDOW else restartWindow)
      ensures this.maxRestarts > 0 && this.restartWindow > 0 && View() == UNSTARTED
    {
      this.maxRestarts := if maxRestarts <= 0 then DEFAULT_MAX_RESTARTS else maxRestarts;
      this.restartWindow := if restartWindow <= 0 then DEFAULT_RESTART_WINDOW else restartWindow;
      life, intentional, stopping, restarts := Idle, false, false, [];
    }

    function View(): Sup
      reads this
    {
      Sup(life, intentional, stopping, restarts)
    }

    /** Starting the process for the first time; a failed launch leaves it idle. */
    method Start(launched: bool)
      requires life == Idle
      modifies this
      ensures View() == Launched(old(View()), launched)
      ensures life == (if launched then Running else Idle) && intentional == old(intentional)
      ensures stopping == old(stopping) && restarts == old(restarts)
    {
      if launched {
        life := Running;
      }
    }

    /** Marks the next exit as wanted, if the process runs at all. */
    method Restart()
      modifies this
      ensures View() == Wanted(old(View()))
      ensures intentional == (old(intentional) || old(life) == Running)
      ensures life == old(life) && stopping == old(stopping) && restarts == old(restarts)
    {
      if life != Running {
        return;
      }
      intentional := true;
    }

    method Stop()
      modifies this
      ensures View() == Halted(old(View()))
      ensures stopping == (old(stopping) || old(life) != Idle)
      ensures life == old(life) && intentional == old(intentional) && restarts == old(restarts)
    {
      if life == Idle {
        return;
      }
      stopping := true;
    }

    /** One turn of the monitor, once the process has exited; `launched` is whether
        the launch succeeds, if there is one. */
    method Exit(now: int, launched: bool)
      requires life == Running
      modifies this
      ensures View() == Exited(old(View()), now, launched, maxRestarts, restartWindow)
      ensures stopping == old(stopping) && (!stopping ==> !intentional)
      ensures stopping ==> life == Stopped && restarts == old(restarts)
      ensures !stopping && old(intentional) ==>
                life == (if launched then Running else Failed) && restarts == old(restarts)
      ensures !stopping && !old(intentional) ==>
                && |restarts| > 0 && restarts[|restarts| - 1] == now
                && life == if launched && |restarts| <= maxRestarts then Running else Failed
    {
      if stopping {
        life := Stopped;
        return;
      }
      var wanted := intentional;
      intentional := false;
      if wanted {
        if !launched {
          life := Failed;
        }
        return;
      }
      Filter(now - restartWindow);
      restarts := restarts + [now];
      if |restarts| > maxRestarts || !launched {
        life := Failed;
      }
    }

    /** The filter writes the kept times over the front of the list it reads. */
    method Filter(cutoff: int)
      modifies this
      ensures View() == old(View()).(restarts := Recent(old(restarts), cutoff))
    {
      ghost var was := restarts;
      var kept := 0;
      for i := 0 to |restarts|
        invariant life == old(life) && intentional == old(intentional) && stopping == old(stopping)
        invariant |restarts| == |was| && kept <= i && restarts[i..] == was[i..]
        invariant restarts[..kept] == Recent(was[..i], cutoff)
      {
        assert restarts[i] == restarts[i..][0] == was[i];
        assert was[..i + 1][..i] == was[..i];
        assert restarts[i + 1..] == restarts[i..][1..];
        if restarts[i] > cutoff {
          restarts := restarts[kept := restarts[i]];
          kept := kept + 1;
          assert restarts[..kept] == restarts[..kept - 1] + [was[i]];
        }
      }
      assert was[..|was|] == was;
      restarts := restarts[..kept];
    }
  }

  // --------------------------------------------------------- whole histories

  datatype Event = Restart | Stop | Exit(now: int, launched: bool)

  /** The supervisor beside its full history: every unwanted exit, and every launch
      that one led to. */
  datatype Tracked = Tracked(sup: Sup, crashes: seq<int>, relaunches: seq<int>)

  const STARTED := Tracked(Launched(UNSTARTED, true), [], [])

  predicate Enabled(t: Tracked, e: Event) {
    match e
    case Restart => true
    case Stop => true
    case Exit(now, _) => t.sup.life == Running && forall i :: 0 <= i < |t.crashes| ==> t.crashes[i] <= now
  }

  predicate IsCrash(t: Tracked, e: Event) {
    e.Exit? && !t.sup.stopping && !t.sup.intentional
  }

  /** The guard's own verdict on a crash, read off the filtered list. */
  predicate Trips(t: Tracked, now: int, max: nat, window: nat) {
    |Recent(t.sup.restarts, now - window) + [now]| > max
  }

  function Step(t: Tracked, e: Event, max: nat, window: nat): Tracked {
    match e
    case Restart => t.(sup := Wanted(t.sup))
    case Stop => t.(sup := Halted(t.sup))
    case Exit(now, launched) =>
      Tracked(Exited(t.sup, now, launched, max, window),
              if IsCrash(t, e) then t.crashes + [now] else t.crashes,
              if IsCrash(t, e) && !Trips(t, now, max, window) then t.relaunches + [now] else t.relaunches)
  }

  function Run(es: seq<Event>, max: nat, window: nat): Tracked {
    if es == [] then STARTED else Step(Run(es[..|es| - 1], max, window), es[|es| - 1], max, window)
  }

  /** Each event could happen where it does, and time does not run back. */
  predicate Possible(es: seq<Event>, max: nat, window: nat) {
    forall i :: 0 <= i < |es| ==> PossibleAt(es, i, max, window)
  }

  predicate PossibleAt(es: seq<Event>, i: nat, max: nat, window: nat)
    requires i < |es|
  {
    Enabled(Run(es[..i], max, window), es[i])
  }

  lemma {:induction false} RecentTwice(times: seq<int>, a: int, b: int)
    requires a <= b
    ensures Recent(Recent(times, a), b) == Recent(times, b)
  {
    if times != [] {
      var n, last := |times| - 1, times[|times| - 1];
      RecentTwice(times[..n], a, b);
      if last > a {
        assert Recent(times, a)[..|Recent(times, a)| - 1] == Recent(times[..n], a);
      } else {
        assert Recent(times, a) == Recent(times[..n], a);
        assert Recent(times, b) == Recent(times[..n], b);
      }
    }
  }

  lemma RecentAppend(times: seq<int>, now: int, cutoff: int)
    ensures Recent(times + [now], cutoff) == Recent(times, cutoff) + if now > cutoff then [now] else []
  {
    assert (times + [now])[..|times|] == times;
  }

  lemma {:induction false} RecentShrinks(times: seq<int>, a: int, b: int)
    requires a <= b
    ensures |Recent(times, b)| <= |Recent(times, a)|
  {
    if times != [] {
      RecentShrinks(times[..|times| - 1], a, b);
    }
  }

  predicate NonDecreasing(times: seq<int>) {
    forall i, k :: 0 <= i < k < |times| ==> times[i] <= times[k]
  }

  /** The filtered list is the whole history of crashes cut to the window of the last
      one, and no crash that led to a launch found its window overfull. */
  ghost predicate Inv(t: Tracked, max: nat, window: nat) {
    && NonDecreasing(t.crashes)
    && t.sup.restarts == (if t.crashes == [] then [] else Recent(t.crashes, t.crashes[|t.crashes| - 1] - window))
    && |t.relaunches| <= |t.crashes| && (forall k :: 0 <= k < |t.relaunches| ==> t.relaunches[k] == t.crashes[k])
    && (t.sup.life == Running ==> t.relaunches == t.crashes)
    && (forall k :: 0 <= k < |t.relaunches| ==> Allowed(t.crashes, k, max, window))
  }

  /** The window that ends at crash `k` holds no more crashes than the guard allows. */
  predicate Allowed(crashes: seq<int>, k: nat, max: nat, window: nat)
    requires k < |crashes|
  {
    |Recent(crashes[..k + 1], crashes[k] - window)| <= max
  }

  lemma CutTwice(times: seq<int>, cut: seq<int>, last: int, now: int, window: nat)
    requires cut == Recent(times, last - window) && last <= now
    ensures Recent(cut, now - window) == Recent(times, now - window)
  {
    RecentTwice(times, last - window, now - window);
  }

  /** At any later time the list and the whole history agree on the current window. */
  lemma ListIsWindow(t: Tracked, now: int, max: nat, window: nat)
    requires Inv(t, max, window) && forall i :: 0 <= i < |t.crashes| ==> t.crashes[i] <= now
    ensures Recent(t.sup.restarts, now - window) == Recent(t.crashes, now - window)
  {
    if t.crashes == [] {
      assert t.sup.restarts == t.crashes;
    } else {
      var last := t.crashes[|t.crashes| - 1];
      CutTwice(t.crashes, t.sup.restarts, last, now, window);
    }
  }

  lemma AllowedStays(crashes: seq<int>, now: int, k: nat, max: nat, window: nat)
    requires k < |crashes|
    ensures Allowed(crashes + [now], k, max, window) == Allowed(crashes, k, max, window)
  {
    assert (crashes + [now])[..k + 1] == crashes[..k + 1];
  }

  /** A crash's filtered list is the history, the crash included, cut to its window. */
  lemma ListWithCrash(t: Tracked, now: int, max: nat, window: nat)
    requires window > 0 && Inv(t, max, window) && forall i :: 0 <= i < |t.crashes| ==> t.crashes[i] <= now
    ensures Recent(t.sup.restarts, now - window) + [now] == Recent(t.crashes + [now], now - window)
    ensures Trips(t, now, max, window) <==> !Allowed(t.crashes + [now], |t.crashes|, max, window)
  {
    ListIsWindow(t, now, max, window);
    RecentAppend(t.crashes, now, now - window);
    assert (t.crashes + [now])[..|t.crashes| + 1] == t.crashes + [now];
  }

  lemma RelaunchesAllowed(t: Tracked, e: Event, max: nat, window: nat)
    requires window > 0 && Inv(t, max, window) && Enabled(t, e) && IsCrash(t, e)
    ensures var t' := Step(t, e, max, window);
            && |t'.relaunches| <= |t'.crashes|
            && forall k :: 0 <= k < |t'.relaunches| ==> Allowed(t'.crashes, k, max, window)
  {
    var t', n := Step(t, e, max, window), |t.crashes|;
    ListWithCrash(t, e.now, max, window);
    forall k | 0 <= k < |t'.relaunches| ensures Allowed(t'.crashes, k, max, window) {
      if k < n {
        assert Allowed(t.crashes, k, max, window);
        AllowedStays(t.crashes, e.now, k, max, window);
      }
    }
  }

  lemma CrashKeeps(t: Tracked, e: Event, max: nat, window: nat)
    requires window > 0 && Inv(t, max, window) && Enabled(t, e) && IsCrash(t, e)
    ensures Inv(Step(t, e, max, window), max, window)
  {
    var t' := Step(t, e, max, window);
    assert t'.crashes == t.crashes + [e.now] && t'.sup.restarts == Recent(t'.crashes, e.now - window) by {
      ListWithCrash(t, e.now, max, window);
    }
    RelaunchesAllowed(t, e, max, window);
  }

  lemma StepKeeps(t: Tracked, e: Event, max: nat, window: nat)
    requires window > 0 && Inv(t, max, window) && Enabled(t, e)
    ensures Inv(Step(t, e, max, window), max, window)
  {
    if IsCrash(t, e) {
      CrashKeeps(t, e, max, window);
    }
  }

  lemma PossibleSoFar(es: seq<Event>, n: nat, max: nat, window: nat)
    requires Possible(es, max, window) && n <= |es|
    ensures Possible(es[..n], max, window)
  {
    forall i | 0 <= i < n ensures PossibleAt(es[..n], i, max, window) {
      assert es[..n][..i] == es[..i] && PossibleAt(es, i, max, window);
    }
  }

  lemma {:induction false} RunInv(es: seq<Event>, max: nat, window: nat)
    requires window > 0 && Possible(es, max, window)
    ensures Inv(Run(es, max, window), max, window)
  {
    if es != [] {
      var before := es[..|es| - 1];
      PossibleSoFar(es, |before|, max, window);
      RunInv(before, max, window);
      assert PossibleAt(es, |before|, max, window);
      StepKeeps(Run(before, max, window), es[|es| - 1], max, window);
    }
  }

  lemma StepGuard(t: Tracked, e: Event, max: nat, window: nat)
    requires window > 0 && Inv(t, max, window) && Enabled(t, e) && IsCrash(t, e)
    ensures var t' := Step(t, e, max, window);
            && t'.sup.restarts == Recent(t'.crashes, e.now - window)
            && (t'.sup.life == Failed <==> |Recent(t'.crashes, e.now - window)| > max || !e.launched)
  {
    ListWithCrash(t, e.now, max, window);
  }

  /** Over any run: the guard trips at a crash exactly when the window that ends there
      holds more crashes, this one included, than allowed; wanted exits never count. */
  lemma GuardExact(es: seq<Event>, e: Event, max: nat, window: nat)
    requires window > 0 && Possible(es, max, window)
    requires Enabled(Run(es, max, window), e) && IsCrash(Run(es, max, window), e)
    ensures var t := Run(es + [e], max, window);
            && t.sup.restarts == Recent(t.crashes, e.now - window)
            && (t.sup.life == Failed <==> |Recent(t.crashes, e.now - window)| > max || !e.launched)
  {
    assert (es + [e])[..|es|] == es;
    RunInv(es, max, window);
    StepGuard(Run(es, max, window), e, max, window);
  }

  /** The relaunches in the window that ends at `x`. */
  function InWindow(times: seq<int>, x: int, window: nat): seq<int> {
    if times == [] then []
    else
      var last := times[|times| - 1];
      InWindow(times[..|times| - 1], x, window) + if x - window < last <= x then [last] else []
  }

  /** Up to the last time that is not after `x`, the window is what is recent. */
  lemma {:induction false} WindowIsRecent(times: seq<int>, x: int, window: nat) returns (k: nat)
    requires NonDecreasing(times)
    ensures k <= |times| && (k > 0 ==> times[k - 1] <= x)
    ensures InWindow(times, x, window) == Recent(times[..k], x - window)
  {
    if times == [] {
      return 0;
    }
    var n := |times| - 1;
    if times[n] <= x {
      k := n + 1;
      assert times[..k] == times;
      AllInWindow(times, x, window);
    } else {
      k := WindowIsRecent(times[..n], x, window);
      assert times[..n][..k] == times[..k];
    }
  }

  lemma {:induction false} AllInWindow(times: seq<int>, x: int, window: nat)
    requires forall i :: 0 <= i < |times| ==> times[i] <= x
    ensures InWindow(times, x, window) == Recent(times, x - window)
  {
    if times != [] {
      AllInWindow(times[..|times| - 1], x, window);
    }
  }

  lemma AllowedBounds(crashes: seq<int>, k: nat, x: int, max: nat, window: nat)
    requires 0 < k <= |crashes| && crashes[k - 1] <= x && Allowed(crashes, k - 1, max, window)
    ensures |Recent(crashes[..k], x - window)| <= max
  {
    RecentShrinks(crashes[..k], crashes[k - 1] - window, x - window);
  }

  lemma InvBoundsWindows(t: Tracked, x: int, max: nat, window: nat)
    requires Inv(t, max, window)
    ensures |InWindow(t.relaunches, x, window)| <= max
  {
    assert NonDecreasing(t.relaunches);
    var k := WindowIsRecent(t.relaunches, x, window);
    if k > 0 {
      assert t.relaunches[..k] == t.crashes[..k];
      AllowedBounds(t.crashes, k, x, max, window);
    }
  }

  /** No window of that length, wherever it lies, ever holds more crash relaunches
      than the guard allows. */
  lemma NoWindowOverfull(es: seq<Event>, x: int, max: nat, window: nat)
    requires window > 0 && Possible(es, max, window)
    ensures |InWindow(Run(es, max, window).relaunches, x, window)| <= max
  {
    RunInv(es, max, window);
    InvBoundsWindows(Run(es, max, window), x, max, window);
  }

  /** What a stopped supervisor has become since; `exited` is whether it ran out. */
  predicate Ceased(at: Tracked, t: Tracked, exited: bool) {
    && t.sup.stopping && t.crashes == at.crashes && t.relaunches == at.relaunches
    && t.sup.life == if at.sup.life == Running && exited then Stopped else at.sup.life
  }

  lemma CeasedStep(at: Tracked, t: Tracked, exited: bool, e: Event, max: nat, window: nat)
    requires Ceased(at, t, exited) && Enabled(t, e)
    ensures Ceased(at, Step(t, e, max, window), exited || e.Exit?)
  {
  }

  predicate Exits(es: seq<Event>, k: nat, n: nat)
    requires k <= n <= |es|
  {
    exists i :: k <= i < n && es[i].Exit?
  }

  lemma ExitsStep(es: seq<Event>, k: nat, n: nat)
    requires k < n <= |es|
    ensures Exits(es, k, n) <==> Exits(es, k, n - 1) || es[n - 1].Exit?
  {
    if es[n - 1].Exit? {
      assert Exits(es, k, n);
    } else if Exits(es, k, n) {
      assert Exits(es, k, n - 1);
    }
  }

  lemma RunStep(es: seq<Event>, n: nat, max: nat, window: nat)
    requires 0 < n <= |es|
    ensures Run(es[..n], max, window) == Step(Run(es[..n - 1], max, window), es[n - 1], max, window)
  {
    assert es[..n][..n - 1] == es[..n - 1];
  }

  /** A stop lasts: from it on nothing is relaunched, a running process is left alone
      until it exits, and then the supervisor is stopped for good. */
  lemma {:induction false} StopLasts(es: seq<Event>, k: nat, n: nat, max: nat, window: nat)
    requires Possible(es, max, window) && k < n <= |es| && es[k] == Stop
    ensures Ceased(Run(es[..k], max, window), Run(es[..n], max, window), Exits(es, k, n))
    decreases n
  {
    var at, t, e := Run(es[..k], max, window), Run(es[..n - 1], max, window), es[n - 1];
    RunStep(es, n, max, window);
    ExitsStep(es, k, n);
    if n == k + 1 {
      NeverIdle(es[..k], max, window);
    } else {
      StopLasts(es, k, n - 1, max, window);
      assert PossibleAt(es, n - 1, max, window);
      CeasedStep(at, t, Exits(es, k, n - 1), e, max, window);
    }
  }

  lemma {:induction false} NeverIdle(es: seq<Event>, max: nat, window: nat)
    ensures Run(es, max, window).sup.life != Idle
  {
    if es != [] {
      NeverIdle(es[..|es| - 1], max, window);
    }
  }

  // ------------------------------------------------- what makes an exit wanted

  /** A restart was asked for at or after `k`. */
  predicate Asked(es: seq<Event>, k: nat, n: nat)
    requires k <= n <= |es|
  {
    exists i :: k <= i < n && es[i] == Restart
  }

  /** A restart was asked for before `n`, and nothing has exited since. */
  predicate Due(es: seq<Event>, n: nat)
    requires n <= |es|
  {
    exists k :: 0 <= k < n && es[k] == Restart && !Exits(es, k, n)
  }

  lemma DueStep(es: seq<Event>, n: nat)
    requires 0 < n <= |es|
    ensures Due(es, n) <==> es[n - 1] == Restart || (Due(es, n - 1) && !es[n - 1].Exit?)
  {
    if es[n - 1] == Restart {
      ExitsStep(es, n - 1, n);
      assert Due(es, n);
    } else if Due(es, n) {
      var k :| 0 <= k < n && es[k] == Restart && !Exits(es, k, n);
      ExitsStep(es, k, n);
    } else if Due(es, n - 1) {
      var k :| 0 <= k < n - 1 && es[k] == Restart && !Exits(es, k, n - 1);
      ExitsStep(es, k, n);
    }
  }

  /** Until a stop, a running supervisor takes the next exit for wanted exactly when a
      restart is due. */
  lemma {:induction false} IntentIsDue(es: seq<Event>, n: nat, max: nat, window: nat)
    requires Possible(es, max, window) && n <= |es| && Stop !in es[..n]
    ensures var s := Run(es[..n], max, window).sup;
            !s.stopping && (s.life == Running ==> (s.intentional <==> Due(es, n)))
  {
    if n > 0 {
      RunStep(es, n, max, window);
      DueStep(es, n);
      assert es[..n - 1] == es[..n][..n - 1] && es[n - 1] in es[..n];
      IntentIsDue(es, n - 1, max, window);
      assert PossibleAt(es, n - 1, max, window);
    }
  }

  /** An exit that a restart asked for is relaunched and never counts. */
  lemma WantedExit(es: seq<Event>, n: nat, max: nat, window: nat)
    requires Possible(es, max, window) && n < |es| && es[n].Exit? && Stop !in es[..n] && Due(es, n)
    ensures var t, t' := Run(es[..n], max, window), Run(es[..n + 1], max, window);
            && t'.crashes == t.crashes && t'.relaunches == t.relaunches && t'.sup.restarts == t.sup.restarts
            && t'.sup.life == if es[n].launched then Running else Failed
  {
    IntentIsDue(es, n, max, window);
    RunStep(es, n + 1, max, window);
    assert PossibleAt(es, n, max, window);
    StepWanted(Run(es[..n], max, window), es[n], max, window);
  }

  lemma StepWanted(t: Tracked, e: Event, max: nat, window: nat)
    requires e.Exit? && !t.sup.stopping && t.sup.intentional
    ensures var t' := Step(t, e, max, window);
            && t'.crashes == t.crashes && t'.relaunches == t.relaunches && t'.sup.restarts == t.sup.restarts
            && t'.sup.life == if e.launched then Running else Failed
  {
  }

  /** The window that ends at `now` holds more crashes than the guard allows. */
  predicate Overfull(crashes: seq<int>, now: int, max: nat, window: nat) {
    |Recent(crashes, now - window)| > max
  }

  /** Any other exit is a crash, and ends in failure exactly when its window is overfull
      or the launch fails. */
  lemma UnwantedExit(es: seq<Event>, n: nat, max: nat, window: nat)
    requires window > 0 && Possible(es, max, window) && n < |es| && es[n].Exit? && Stop !in es[..n] && !Due(es, n)
    ensures var t, t' := Run(es[..n], max, window), Run(es[..n + 1], max, window);
            && t'.crashes == t.crashes + [es[n].now]
            && (t'.sup.life == Failed <==> Overfull(t'.crashes, es[n].now, max, window) || !es[n].launched)
  {
    var t, e := Run(es[..n], max, window), es[n];
    assert PossibleAt(es, n, max, window);
    assert IsCrash(t, e) by {
      IntentIsDue(es, n, max, window);
    }
    assert Inv(t, max, window) by {
      PossibleSoFar(es, n, max, window);
      RunInv(es[..n], max, window);
    }
    assert Run(es[..n + 1], max, window) == Step(t, e, max, window) by {
      RunStep(es, n + 1, max, window);
    }
    StepUnwanted(t, e, max, window);
  }

  lemma StepUnwanted(t: Tracked, e: Event, max: nat, window: nat)
    requires window > 0 && Inv(t, max, window) && Enabled(t, e) && IsCrash(t, e)
    ensures var t' := Step(t, e, max, window);
            && t'.crashes == t.crashes + [e.now]
            && (t'.sup.life == Failed <==> Overfull(t'.crashes, e.now, max, window) || !e.launched)
  {
    StepGuard(t, e, max, window);
  }

  /** One restart excuses one exit: after an exit, the next with no restart asked for in
      between is a crash. */
  lemma RestartServesOnce(es: seq<Event>, i: nat, n: nat, max: nat, window: nat)
    requires window > 0 && Possible(es, max, window) && i < n < |es| && es[i].Exit? && es[n].Exit?
    requires Stop !in es[..n] && !Asked(es, i, n)
    ensures Run(es[..n + 1], max, window).crashes == Run(es[..n], max, window).crashes + [es[n].now]
  {
    forall k | 0 <= k < n && es[k] == Restart ensures Exits(es, k, n) {
      assert !(k >= i);
    }
    UnwantedExit(es, n, max, window);
  }

  /** The crashes of a run, read off its events: the exits before any stop for which no
      restart was due. */
  ghost function Crashes(es: seq<Event>): seq<int> {
    if es == [] then []
    else
      var n := |es| - 1;
      Crashes(es[..n]) + if es[n].Exit? && Stop !in es[..n] && !Due(es, n) then [es[n].now] else []
  }

  /** The supervisor's history is that, over any run. */
  lemma {:induction false} CrashesExact(es: seq<Event>, max: nat, window: nat)
    requires window > 0 && Possible(es, max, window)
    ensures Run(es, max, window).crashes == Crashes(es)
  {
    if es != [] {
      var n := |es| - 1;
      PossibleSoFar(es, n, max, window);
      CrashesExact(es[..n], max, window);
      assert es[..n + 1] == es;
      if es[n].Exit? && Stop in es[..n] {
        StoppedForGood(es, n, max, window);
      } else if es[n].Exit? && Due(es, n) {
        WantedExit(es, n, max, window);
      } else if es[n].Exit? {
        UnwantedExit(es, n, max, window);
      }
    }
  }

  lemma StoppedForGood(es: seq<Event>, n: nat, max: nat, window: nat)
    requires Possible(es, max, window) && n < |es| && Stop in es[..n]
    ensures Run(es[..n + 1], max, window).crashes == Run(es[..n], max, window).crashes
  {
    var k :| 0 <= k < n && es[..n][k] == Stop;
    StopLasts(es, k, n, max, window);
    StopLasts(es, k, n + 1, max, window);
  }
}
