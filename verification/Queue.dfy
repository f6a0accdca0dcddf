/**
 The admission policy: the gate's two predicates, and the greedy choice the queue
 manager makes among the queued jobs.
 */
module Queue {
  import opened Wrappers
  import opened ModuleGraph

  /** A queued job as the policy sees it. */
  datatype Waiting = Waiting(token: string, root: string, since: nat)

  predicate Admissible(footprint: set<string>, busy: set<string>) {
    forall m :: m in footprint ==> m !in busy
  }

  /** The choice among the first jobs of the queue, and what is then reserved. */
  datatype Choice = Choice(promote: seq<Waiting>, busy: set<string>)

  ghost function Choose(rows: Rows, queue: seq<Waiting>, busy: set<string>, n: nat): Choice
    requires n <= |queue|
  {
    if n == 0 then Choice([], busy)
    else
      var c := Choose(rows, queue, busy, n - 1);
      var f := FootprintOf(rows, queue[n - 1].root);
      if Admissible(f, c.busy) then Choice(c.promote + [queue[n - 1]], c.busy + f) else c
  }

  ghost function Plan(rows: Rows, queue: seq<Waiting>, busy: set<string>): seq<Waiting> {
    Choose(rows, queue, busy, |queue|).promote
  }

  ghost predicate DistinctTokens(queue: seq<Waiting>) {
    forall i, k :: 0 <= i < k < |queue| ==> queue[i].token != queue[k].token
  }

  ghost predicate Covers(rows: Rows, ws: seq<Waiting>, m: string) {
    exists w :: w in ws && m in FootprintOf(rows, w.root)
  }

  /** What is reserved after `n` jobs: the running footprints and those chosen. */
  lemma {:induction false} BusyAfter(rows: Rows, queue: seq<Waiting>, busy: set<string>, n: nat)
    requires n <= |queue|
    ensures var c := Choose(rows, queue, busy, n);
            && (forall m :: m in c.busy <==> m in busy || Covers(rows, c.promote, m))
            && (forall w :: w in c.promote ==> w in queue[..n])
  {
    if n > 0 {
      BusyAfter(rows, queue, busy, n - 1);
      var c, d := Choose(rows, queue, busy, n - 1), Choose(rows, queue, busy, n);
      assert queue[..n] == queue[..n - 1] + [queue[n - 1]];
      if d != c {
        forall m ensures Covers(rows, d.promote, m) <==>
                         Covers(rows, c.promote, m) || m in FootprintOf(rows, queue[n - 1].root)
        {
          assert forall w :: w in d.promote <==> w in c.promote || w == queue[n - 1];
        }
      }
    }
  }

  lemma PrefixOfPrefix(a: seq<Waiting>, b: seq<Waiting>, c: seq<Waiting>)
    requires a <= b <= c
    ensures a <= c
  {
  }

  lemma ChoiceStep(rows: Rows, queue: seq<Waiting>, busy: set<string>, n: nat)
    requires 0 < n <= |queue|
    ensures Choose(rows, queue, busy, n - 1).promote <= Choose(rows, queue, busy, n).promote
  {
  }

  /** The choice among a prefix is a prefix of the whole choice. */
  lemma {:induction false} ChoiceGrows(rows: Rows, queue: seq<Waiting>, busy: set<string>, k: nat, n: nat)
    requires k <= n <= |queue|
    ensures Choose(rows, queue, busy, k).promote <= Choose(rows, queue, busy, n).promote
  {
    if k < n {
      var a, b := Choose(rows, queue, busy, k).promote, Choose(rows, queue, busy, n - 1).promote;
      assert a <= b by {
        ChoiceGrows(rows, queue, busy, k, n - 1);
      }
      ChoiceStep(rows, queue, busy, n);
      PrefixOfPrefix(a, b, Choose(rows, queue, busy, n).promote);
    }
  }

  lemma NotYetChosen(rows: Rows, queue: seq<Waiting>, busy: set<string>, k: nat)
    requires DistinctTokens(queue) && k < |queue|
    ensures queue[k] !in Choose(rows, queue, busy, k).promote
  {
    BusyAfter(rows, queue, busy, k);
    assert forall j :: 0 <= j < k ==> queue[..k][j] == queue[j] && queue[j].token != queue[k].token;
  }

  lemma ChosenStep(rows: Rows, queue: seq<Waiting>, busy: set<string>, n: nat, w: Waiting)
    requires 0 < n <= |queue|
    ensures var c := Choose(rows, queue, busy, n - 1);
            w in Choose(rows, queue, busy, n).promote <==>
            w in c.promote || (w == queue[n - 1] && Admissible(FootprintOf(rows, w.root), c.busy))
  {
  }

  lemma JustChosen(rows: Rows, queue: seq<Waiting>, busy: set<string>, k: nat)
    requires DistinctTokens(queue) && k < |queue|
    ensures queue[k] in Choose(rows, queue, busy, k + 1).promote <==>
            Admissible(FootprintOf(rows, queue[k].root), Choose(rows, queue, busy, k).busy)
  {
    NotYetChosen(rows, queue, busy, k);
    ChosenStep(rows, queue, busy, k + 1, queue[k]);
  }

  lemma OtherStep(rows: Rows, queue: seq<Waiting>, busy: set<string>, n: nat, w: Waiting)
    requires 0 < n <= |queue| && queue[n - 1] != w
    ensures w in Choose(rows, queue, busy, n).promote <==> w in Choose(rows, queue, busy, n - 1).promote
  {
    ChosenStep(rows, queue, busy, n, w);
  }

  lemma {:induction false} PromotedIff(rows: Rows, queue: seq<Waiting>, busy: set<string>, n: nat, k: nat)
    requires DistinctTokens(queue) && k < n <= |queue|
    ensures queue[k] in Choose(rows, queue, busy, n).promote <==>
            Admissible(FootprintOf(rows, queue[k].root), Choose(rows, queue, busy, k).busy)
  {
    if n == k + 1 {
      JustChosen(rows, queue, busy, k);
    } else {
      PromotedIff(rows, queue, busy, n - 1, k);
      assert queue[k].token != queue[n - 1].token;
      OtherStep(rows, queue, busy, n, queue[k]);
    }
  }

  /** The module is running, or reserved by a job promoted before position `i`. */
  ghost predicate Taken(rows: Rows, queue: seq<Waiting>, busy: set<string>, i: nat, m: string)
    requires i <= |queue|
  {
    m in busy || exists k :: 0 <= k < i && queue[k] in Plan(rows, queue, busy) && m in FootprintOf(rows, queue[k].root)
  }

  /** What the choice among the first `i` jobs reserves, by queue position. */
  lemma TakenByPosition(rows: Rows, queue: seq<Waiting>, busy: set<string>, i: nat, m: string)
    requires DistinctTokens(queue) && i <= |queue|
    ensures m in Choose(rows, queue, busy, i).busy <==> Taken(rows, queue, busy, i, m)
  {
    var c := Choose(rows, queue, busy, i);
    BusyAfter(rows, queue, busy, i);
    forall k | 0 <= k < i ensures queue[k] in c.promote <==> queue[k] in Plan(rows, queue, busy) {
      PromotedIff(rows, queue, busy, i, k);
      PromotedIff(rows, queue, busy, |queue|, k);
    }
    if Covers(rows, c.promote, m) {
      var w :| w in c.promote && m in FootprintOf(rows, w.root);
      var k :| 0 <= k < i && queue[..i][k] == w;
      assert queue[k] == w;
    }
  }

  /** The choice is exactly the greedy one: a job is promoted iff its footprint
      meets no running footprint and none promoted before it. */
  lemma PlanIsGreedy(rows: Rows, queue: seq<Waiting>, busy: set<string>, i: nat)
    requires DistinctTokens(queue) && i < |queue|
    ensures queue[i] in Plan(rows, queue, busy) <==>
            forall m :: m in FootprintOf(rows, queue[i].root) ==> !Taken(rows, queue, busy, i, m)
  {
    var f, reserved := FootprintOf(rows, queue[i].root), Choose(rows, queue, busy, i).busy;
    PromotedIff(rows, queue, busy, |queue|, i);
    assert queue[i] in Plan(rows, queue, busy) <==> Admissible(f, reserved);
    if Admissible(f, reserved) {
      forall m | m in f ensures !Taken(rows, queue, busy, i, m) {
        TakenByPosition(rows, queue, busy, i, m);
      }
    } else {
      var m :| m in f && m in reserved;
      TakenByPosition(rows, queue, busy, i, m);
    }
  }

  /** Promoted jobs are queued jobs, once each, with footprints apart from the
      running ones and from each other. */
  lemma PlanApart(rows: Rows, queue: seq<Waiting>, busy: set<string>)
    requires DistinctTokens(queue)
    ensures var p := Plan(rows, queue, busy);
            && DistinctTokens(p)
            && (forall w :: w in p ==> w in queue && FootprintOf(rows, w.root) !! busy)
            && (forall i, k :: 0 <= i < k < |p| ==> FootprintOf(rows, p[i].root) !! FootprintOf(rows, p[k].root))
  {
    ApartAfter(rows, queue, busy, |queue|);
    BusyAfter(rows, queue, busy, |queue|);
    assert queue[..|queue|] == queue;
  }

  lemma {:induction false} ApartAfter(rows: Rows, queue: seq<Waiting>, busy: set<string>, n: nat)
    requires n <= |queue| && DistinctTokens(queue)
    ensures Apart(rows, Choose(rows, queue, busy, n).promote, busy)
  {
    if n > 0 {
      ApartAfter(rows, queue, busy, n - 1);
      var c := Choose(rows, queue, busy, n - 1);
      if Admissible(FootprintOf(rows, queue[n - 1].root), c.busy) {
        NextIsApart(rows, queue, busy, n);
        assert Choose(rows, queue, busy, n).promote == c.promote + [queue[n - 1]];
        ApartPush(rows, c.promote, queue[n - 1], busy);
      }
    }
  }

  /** A job admitted next is apart from what is busy and from all chosen before it. */
  lemma NextIsApart(rows: Rows, queue: seq<Waiting>, busy: set<string>, n: nat)
    requires 0 < n <= |queue| && DistinctTokens(queue)
    requires Admissible(FootprintOf(rows, queue[n - 1].root), Choose(rows, queue, busy, n - 1).busy)
    ensures FootprintOf(rows, queue[n - 1].root) !! busy
    ensures forall v :: v in Choose(rows, queue, busy, n - 1).promote ==>
              v.token != queue[n - 1].token && FootprintOf(rows, v.root) !! FootprintOf(rows, queue[n - 1].root)
  {
    var c, f := Choose(rows, queue, busy, n - 1), FootprintOf(rows, queue[n - 1].root);
    assert f !! c.busy;
    BusyKept(rows, queue, busy, n - 1);
    forall v | v in c.promote
      ensures v.token != queue[n - 1].token && FootprintOf(rows, v.root) !! f
    {
      ChosenIsBusy(rows, queue, busy, n - 1, v);
    }
  }

  lemma BusyKept(rows: Rows, queue: seq<Waiting>, busy: set<string>, n: nat)
    requires n <= |queue|
    ensures busy <= Choose(rows, queue, busy, n).busy
  {
    BusyAfter(rows, queue, busy, n);
  }

  lemma ChosenIsBusy(rows: Rows, queue: seq<Waiting>, busy: set<string>, n: nat, v: Waiting)
    requires n <= |queue| && v in Choose(rows, queue, busy, n).promote
    ensures FootprintOf(rows, v.root) <= Choose(rows, queue, busy, n).busy
    ensures exists i :: 0 <= i < n && queue[i] == v
  {
    var c := Choose(rows, queue, busy, n);
    BusyAfter(rows, queue, busy, n);
    var i :| 0 <= i < n && queue[..n][i] == v;
    assert queue[i] == v;
    forall m | m in FootprintOf(rows, v.root) ensures m in c.busy {
      assert Covers(rows, c.promote, m);
    }
  }

  /** Distinct jobs with footprints apart from `busy` and from each other. */
  ghost predicate Apart(rows: Rows, p: seq<Waiting>, busy: set<string>) {
    && DistinctTokens(p)
    && (forall w :: w in p ==> FootprintOf(rows, w.root) !! busy)
    && (forall i, k :: 0 <= i < k < |p| ==> FootprintOf(rows, p[i].root) !! FootprintOf(rows, p[k].root))
  }

  lemma ApartPush(rows: Rows, p: seq<Waiting>, w: Waiting, busy: set<string>)
    requires Apart(rows, p, busy) && FootprintOf(rows, w.root) !! busy
    requires forall v :: v in p ==> v.token != w.token && FootprintOf(rows, v.root) !! FootprintOf(rows, w.root)
    ensures Apart(rows, p + [w], busy)
  {
    assert forall i :: 0 <= i < |p| ==> p[i] in p;
  }

  /** With nothing running the oldest queued job is promoted. */
  lemma OldestStarts(rows: Rows, queue: seq<Waiting>)
    requires queue != []
    ensures Plan(rows, queue, {}) != [] && Plan(rows, queue, {})[0] == queue[0]
  {
    assert Choose(rows, queue, {}, 1).promote == [queue[0]] by {
      assert Choose(rows, queue, {}, 0) == Choice([], {});
    }
    ChoiceGrows(rows, queue, {}, 1, |queue|);
  }

  /** A queued job that is passed over meets a running footprint or a promoted one. */
  lemma PassedOverIsBlocked(rows: Rows, queue: seq<Waiting>, busy: set<string>, w: Waiting) returns (m: string)
    requires DistinctTokens(queue) && w in queue && w !in Plan(rows, queue, busy)
    ensures m in FootprintOf(rows, w.root) && (m in busy || Covers(rows, Plan(rows, queue, busy), m))
  {
    var i :| 0 <= i < |queue| && queue[i] == w;
    PlanIsGreedy(rows, queue, busy, i);
    m :| m in FootprintOf(rows, w.root) && Taken(rows, queue, busy, i, m);
  }

  // ------------------------------------------------------------- overtaking

  /** Jobs rooted here cannot run together. */
  ghost predicate Conflict(rows: Rows, a: string, b: string) {
    exists m :: m in FootprintOf(rows, a) && m in FootprintOf(rows, b)
  }

  /** The roots that can be routed to and whose jobs cannot run beside one rooted at `a`. */
  ghost function Rivals(rows: Rows, a: string): (r: set<string>)
    ensures forall c :: c in r <==> Routable(rows, c) && Conflict(rows, c, a)
  {
    set c | c in rows && Routable(rows, c) && Conflict(rows, c, a)
  }

  /** Every job of the queue is rooted where a request can be routed. */
  ghost predicate Rooted(rows: Rows, queue: seq<Waiting>) {
    forall w :: w in queue ==> Routable(rows, w.root)
  }

  /** Footprints are reserved whole, from roots that can be routed to. */
  ghost predicate Whole(rows: Rows, busy: set<string>) {
    forall m :: m in busy ==>
      exists c :: Routable(rows, c) && m in FootprintOf(rows, c) && FootprintOf(rows, c) <= busy
  }

  /** What blocks the older job before position `k` blocks the younger one there. */
  lemma BlockedAlike(rows: Rows, queue: seq<Waiting>, busy: set<string>, i: nat, k: nat, c: string) returns (m: string)
    requires i <= k < |queue| && Conflict(rows, c, queue[k].root)
    requires FootprintOf(rows, c) <= busy
             || exists j :: 0 <= j < i && queue[j] in Plan(rows, queue, busy) && queue[j].root == c
    ensures m in FootprintOf(rows, queue[k].root) && Taken(rows, queue, busy, k, m)
  {
    m :| m in FootprintOf(rows, c) && m in FootprintOf(rows, queue[k].root);
  }

  /** A job is never promoted past an older one if whatever conflicts with the older
      conflicts with it. */
  lemma NoOvertaking(rows: Rows, queue: seq<Waiting>, busy: set<string>, i: nat, k: nat)
    requires DistinctTokens(queue) && i < k < |queue| && Rooted(rows, queue) && Whole(rows, busy)
    requires Rivals(rows, queue[i].root) <= Rivals(rows, queue[k].root)
    ensures queue[k] !in Plan(rows, queue, busy)
  {
    var a := queue[i].root;
    PlanIsGreedy(rows, queue, busy, i);
    PlanIsGreedy(rows, queue, busy, k);
    RootInside(rows, a);
    if queue[i] in Plan(rows, queue, busy) {
      assert Conflict(rows, a, a) && queue[i] in queue && a in Rivals(rows, queue[k].root);
      var m := BlockedAlike(rows, queue, busy, i + 1, k, a);
    } else {
      var m :| m in FootprintOf(rows, a) && Taken(rows, queue, busy, i, m);
      var c := BlockedBy(rows, queue, busy, i, m);
      assert Conflict(rows, c, a) && c in Rivals(rows, queue[k].root);
      var m' := BlockedAlike(rows, queue, busy, i, k, c);
    }
  }

  /** A module taken before position `i` is taken by a root, running or promoted. */
  lemma BlockedBy(rows: Rows, queue: seq<Waiting>, busy: set<string>, i: nat, m: string) returns (c: string)
    requires i <= |queue| && Rooted(rows, queue) && Whole(rows, busy) && Taken(rows, queue, busy, i, m)
    ensures Routable(rows, c) && m in FootprintOf(rows, c)
    ensures FootprintOf(rows, c) <= busy
            || exists j :: 0 <= j < i && queue[j] in Plan(rows, queue, busy) && queue[j].root == c
  {
    if m in busy {
      c :| Routable(rows, c) && m in FootprintOf(rows, c) && FootprintOf(rows, c) <= busy;
    } else {
      var j :| 0 <= j < i && queue[j] in Plan(rows, queue, busy) && m in FootprintOf(rows, queue[j].root);
      c := queue[j].root;
      assert queue[j] in queue;
    }
  }

  /** Beside a running job that conflicts with the older of two and not with the younger,
      the younger is planned, and alone. */
  lemma OvertakesBeside(rows: Rows, older: Waiting, younger: Waiting, c: string)
    requires older.token != younger.token
    requires Conflict(rows, c, older.root) && !Conflict(rows, c, younger.root)
    ensures Plan(rows, [older, younger], FootprintOf(rows, c)) == [younger]
  {
    var queue, busy := [older, younger], FootprintOf(rows, c);
    assert !Admissible(FootprintOf(rows, older.root), busy);
    assert Choose(rows, queue, busy, 0) == Choice([], busy);
    assert Choose(rows, queue, busy, 1) == Choice([], busy);
    forall m | m in FootprintOf(rows, younger.root) ensures m !in busy {
      assert m in busy ==> Conflict(rows, c, younger.root);
    }
    assert Admissible(FootprintOf(rows, younger.root), busy);
  }

  /** So it is where the condition fails. */
  lemma Overtakes(rows: Rows, older: Waiting, younger: Waiting) returns (c: string)
    requires older.token != younger.token && !(Rivals(rows, older.root) <= Rivals(rows, younger.root))
    ensures Routable(rows, c) && Plan(rows, [older, younger], FootprintOf(rows, c)) == [younger]
  {
    c :| c in Rivals(rows, older.root) && c !in Rivals(rows, younger.root);
    OvertakesBeside(rows, older, younger, c);
  }

  /** Exactly when no job rooted at `b` is ever promoted past an older one at `a`. */
  lemma NeverOvertakesIff(rows: Rows, a: string, b: string)
    requires Routable(rows, a) && Routable(rows, b)
    ensures Rivals(rows, a) <= Rivals(rows, b) <==>
            forall queue: seq<Waiting>, busy: set<string>, i: nat, k: nat ::
              && DistinctTokens(queue) && Rooted(rows, queue) && Whole(rows, busy)
              && i < k < |queue| && queue[i].root == a && queue[k].root == b
              ==> queue[k] !in Plan(rows, queue, busy)
  {
    if Rivals(rows, a) <= Rivals(rows, b) {
      forall queue: seq<Waiting>, busy: set<string>, i: nat, k: nat |
        && DistinctTokens(queue) && Rooted(rows, queue) && Whole(rows, busy)
        && i < k < |queue| && queue[i].root == a && queue[k].root == b
        ensures queue[k] !in Plan(rows, queue, busy)
      {
        NoOvertaking(rows, queue, busy, i, k);
      }
    } else {
      var queue := [Waiting("a", a, 1), Waiting("b", b, 2)];
      var c := Overtakes(rows, queue[0], queue[1]);
      assert queue[1] in Plan(rows, queue, FootprintOf(rows, c));
    }
  }

  /** Containment is one case of it. */
  lemma InsideSharesRivals(rows: Rows, a: string, b: string)
    requires FootprintOf(rows, a) <= FootprintOf(rows, b)
    ensures Rivals(rows, a) <= Rivals(rows, b)
  {
    forall c | c in Rivals(rows, a) ensures c in Rivals(rows, b) {
      var m :| m in FootprintOf(rows, c) && m in FootprintOf(rows, a);
      assert Conflict(rows, c, b);
    }
  }

  lemma RivalsStateAgnostic(rows: Rows, rows': Rows, a: string)
    requires SameManifests(rows, rows')
    ensures Rivals(rows', a) == Rivals(rows, a)
  {
    forall c
      ensures FootprintOf(rows', c) == FootprintOf(rows, c)
      ensures Routable(rows', c) <==> Routable(rows, c)
    {
      FootprintStateAgnostic(rows, rows', c);
      RoutableStateAgnostic(rows, rows', c);
    }
    assert forall c :: Conflict(rows', c, a) <==> Conflict(rows, c, a);
  }

  /** Two modules that can be routed to; the first requires what the second declares. */
  const CHAIN: Rows := map[
    "a" := Row(Some(Manifest([Capability("y", false)], ["x"])), {}, Active),
    "b" := Row(Some(Manifest([Capability("x", false)], [])), {}, Active)]

  lemma ChainFootprints()
    ensures FootprintOf(CHAIN, "a") == {"a", "b"} && FootprintOf(CHAIN, "b") == {"b"}
    ensures Routable(CHAIN, "a") && Routable(CHAIN, "b")
  {
    var g := Graph(CHAIN, false, {});
    ChainDeclares();
    assert Edge(g, "a", "b") by {
      assert Demands(CHAIN, "a", "x") by { assert "x" in ["x"]; }
    }
    ReachSelf(g, "a");
    ReachSelf(g, "b");
    ReachEdge(g, "a", "a", "b");
    assert Closed(g, {"a", "b"}) && Closed(g, {"b"});
    ReachSetLeast(g, "a", {"a", "b"});
    ReachSetLeast(g, "b", {"b"});
  }

  lemma ChainDeclares()
    ensures Declares(CHAIN, "a", "y") && Declares(CHAIN, "b", "x")
    ensures forall cap :: NoHandler(CHAIN, cap)
  {
    assert [Capability("y", false)][0].name == "y" && [Capability("x", false)][0].name == "x";
  }

  /** But not the only one: a module that alone is required by another is never
      promoted past it, though the other's footprint is the larger. */
  lemma RivalsBeyondInside()
    ensures Routable(CHAIN, "a") && Routable(CHAIN, "b")
    ensures Rivals(CHAIN, "a") <= Rivals(CHAIN, "b") && !(FootprintOf(CHAIN, "a") <= FootprintOf(CHAIN, "b"))
  {
    ChainFootprints();
    forall c | c in Rivals(CHAIN, "a") ensures c in Rivals(CHAIN, "b") {
      assert "b" in FootprintOf(CHAIN, c);
    }
    assert "a" in FootprintOf(CHAIN, "a") && "a" !in FootprintOf(CHAIN, "b");
  }

  /** Two modules that can be routed to and have nothing to do with each other. */
  const LONERS: Rows := map["a" := Row(None, {"x"}, Active), "b" := Row(None, {"y"}, Active)]

  lemma LonersFootprint(a: string)
    ensures FootprintOf(LONERS, a) == {a}
  {
    var g := Graph(LONERS, false, {});
    assert Closed(g, {a});
    ReachSetLeast(g, a, {a});
    ReachSelf(g, a);
  }

  /** The queue is not first in, first out: beside a running job an unrelated younger one
      is planned past a blocked older one. */
  lemma FirstInNotFirstOut()
    ensures exists older: Waiting, younger: Waiting, c: string ::
              && older.since < younger.since && Rooted(LONERS, [older, younger]) && Routable(LONERS, c)
              && Plan(LONERS, [older, younger], FootprintOf(LONERS, c)) == [younger]
  {
    LonersFootprint("a");
    LonersFootprint("b");
    assert "x" in LONERS["a"].handlers && "y" in LONERS["b"].handlers;
    assert Routable(LONERS, "a") && Routable(LONERS, "b");
    assert "a" in FootprintOf(LONERS, "a") && "a" !in FootprintOf(LONERS, "b");
    assert Conflict(LONERS, "a", "a") && !Conflict(LONERS, "a", "b");
    var older, younger := Waiting("s", "a", 1), Waiting("t", "b", 2);
    var c := Overtakes(LONERS, older, younger);
    assert Rooted(LONERS, [older, younger]);
  }
}
