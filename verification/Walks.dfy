/**
 Footprint walks when a capability may have several declarers: each lookup of a
 provider may then answer differently.  This module says exactly when no walk can
 miss a module that the gate lets its members hop to.
 */
module Walks {
  import opened Wrappers
  import opened ModuleGraph

  /** What the lookups of one walk answer, by the module asking and the capability. */
  type Lookup = (string, string) -> string

  /** A lookup finds some declarer whenever there is one. */
  ghost predicate Answers(rows: Rows, pick: Lookup) {
    forall n, cap, m {:trigger Demands(rows, n, cap), Declares(rows, m, cap)} ::
      Demands(rows, n, cap) && Declares(rows, m, cap) ==> Declares(rows, pick(n, cap), cap)
  }

  /** The set follows the lookups of its members. */
  ghost predicate Follows(rows: Rows, pick: Lookup, s: set<string>) {
    forall n, cap :: n in s && Demands(rows, n, cap) && Declares(rows, pick(n, cap), cap) ==> pick(n, cap) in s
  }

  /** What the walk from `root` collects: the least set that holds it and follows. */
  ghost function Walk(rows: Rows, pick: Lookup, root: string): set<string> {
    set x | x in rows.Keys + {root} && forall s: set<string> :: Follows(rows, pick, s) && root in s ==> x in s
  }

  lemma WalkFollows(rows: Rows, pick: Lookup, root: string)
    ensures root in Walk(rows, pick, root) && Follows(rows, pick, Walk(rows, pick, root))
  {
    var w := Walk(rows, pick, root);
    forall n, cap | n in w && Demands(rows, n, cap) && Declares(rows, pick(n, cap), cap)
      ensures pick(n, cap) in w
    {
      assert forall s: set<string> :: Follows(rows, pick, s) && root in s ==> n in s && pick(n, cap) in s;
    }
  }

  lemma WalkLeast(rows: Rows, pick: Lookup, root: string, s: set<string>)
    requires Follows(rows, pick, s) && root in s
    ensures Walk(rows, pick, root) <= s
  {
  }

  // ------------------------------------------------- sets that avoid a module

  /** Each declared capability the module demands has a declarer in the set. */
  ghost predicate Backed(rows: Rows, s: set<string>, n: string) {
    forall cap, m :: Demands(rows, n, cap) && Declares(rows, m, cap) ==> exists d :: d in s && Declares(rows, d, cap)
  }

  ghost predicate Supported(rows: Rows, s: set<string>) {
    forall n :: n in s ==> Backed(rows, s, n)
  }

  /** What is left of a set when members that lack a declarer keep dropping out. */
  ghost function Settled(rows: Rows, s: set<string>): set<string>
    decreases |s|
  {
    var kept := set n | n in s && Backed(rows, s, n);
    if kept == s then s else
      assert kept < s;
      SmallerSet(kept, s);
      Settled(rows, kept)
  }

  lemma SmallerSet(a: set<string>, b: set<string>)
    requires a < b
    ensures |a| < |b|
  {
    var x :| x in b && x !in a;
    assert a <= b - {x};
    SubsetCount(a, b - {x});
  }

  lemma {:induction false} SubsetCount(a: set<string>, b: set<string>)
    requires a <= b
    ensures |a| <= |b|
  {
    if a != {} {
      var x :| x in a;
      SubsetCount(a - {x}, b - {x});
    }
  }

  /** The settled set is the greatest supported subset. */
  lemma {:induction false} SettledIsGreatest(rows: Rows, s: set<string>, c: set<string>)
    ensures Settled(rows, s) <= s && Supported(rows, Settled(rows, s))
    ensures c <= s && Supported(rows, c) ==> c <= Settled(rows, s)
    decreases |s|
  {
    var kept := set n | n in s && Backed(rows, s, n);
    if kept != s {
      assert kept < s;
      SmallerSet(kept, s);
      SettledIsGreatest(rows, kept, c);
      if c <= s && Supported(rows, c) {
        assert forall n :: n in c ==> Backed(rows, c, n) && Backed(rows, s, n);
      }
    }
  }

  /** The modules from which some walk can avoid `m`. */
  ghost function Avoiding(rows: Rows, m: string): set<string> {
    Settled(rows, rows.Keys - {m})
  }

  /** A lookup that stays in a supported set wherever it can. */
  ghost function Inward(rows: Rows, s: set<string>): Lookup {
    (n, cap) =>
      if exists d :: d in s && Declares(rows, d, cap) then var d :| d in s && Declares(rows, d, cap); d
      else if exists d :: Declares(rows, d, cap) then var d :| Declares(rows, d, cap); d
      else ""
  }

  /** From a module of a supported set some walk stays in that set. */
  lemma InwardWalk(rows: Rows, s: set<string>, n: string)
    requires Supported(rows, s) && n in s
    ensures Answers(rows, Inward(rows, s)) && Walk(rows, Inward(rows, s), n) <= s
  {
    var pick := Inward(rows, s);
    forall x, cap | x in s && Demands(rows, x, cap) && Declares(rows, pick(x, cap), cap) ensures pick(x, cap) in s {
      assert Backed(rows, s, x);
    }
    WalkLeast(rows, pick, n, s);
  }

  /** A walk that misses a module stays among those that can avoid it. */
  lemma MissingIsAvoiding(rows: Rows, pick: Lookup, root: string, m: string)
    requires Answers(rows, pick) && m !in Walk(rows, pick, root)
    ensures Walk(rows, pick, root) * rows.Keys <= Avoiding(rows, m)
  {
    var w := Walk(rows, pick, root) * rows.Keys;
    WalkFollows(rows, pick, root);
    forall n | n in w ensures Backed(rows, w, n) {
      forall cap, d {:trigger Demands(rows, n, cap), Declares(rows, d, cap)} |
        Demands(rows, n, cap) && Declares(rows, d, cap)
        ensures exists e :: e in w && Declares(rows, e, cap)
      {
        assert pick(n, cap) in w;
      }
    }
    assert Supported(rows, w);
    SettledIsGreatest(rows, rows.Keys - {m}, w);
  }

  /** Whoever can avoid a module starts a walk that misses it. */
  lemma AvoidersMiss(rows: Rows, n: string, m: string)
    requires n in Avoiding(rows, m)
    ensures exists pick: Lookup :: Answers(rows, pick) && n in Walk(rows, pick, n) && m !in Walk(rows, pick, n)
  {
    var s := Avoiding(rows, m);
    SettledIsGreatest(rows, rows.Keys - {m}, {});
    InwardWalk(rows, s, n);
    WalkFollows(rows, Inward(rows, s), n);
  }

  /** No walk, whatever its lookups answer, is left by an admitted hop. */
  ghost predicate EveryWalkConfines(rows: Rows) {
    forall pick: Lookup, root: string, caller: string, cap: string, m: string ::
      (Answers(rows, pick) && caller in Walk(rows, pick, root) && HopAdmitted(rows, caller, cap, m)) ==>
        m in Walk(rows, pick, root)
  }

  /** No module that may hop to another can avoid it. */
  ghost predicate HopsUnavoidable(rows: Rows) {
    forall caller, cap, m :: HopAdmitted(rows, caller, cap, m) ==> caller !in Avoiding(rows, m)
  }

  /** Exactly when reservations can be trusted whatever the lookups answer. */
  lemma EveryWalkConfinesIff(rows: Rows)
    ensures EveryWalkConfines(rows) <==> HopsUnavoidable(rows)
  {
    forall caller, cap, m | HopAdmitted(rows, caller, cap, m) && caller in Avoiding(rows, m)
      ensures !EveryWalkConfines(rows)
    {
      AvoidersMiss(rows, caller, m);
    }
    forall pick: Lookup, root: string, caller: string, cap: string, m: string |
      && Answers(rows, pick) && caller in Walk(rows, pick, root)
      && HopAdmitted(rows, caller, cap, m) && m !in Walk(rows, pick, root)
      ensures !HopsUnavoidable(rows)
    {
      MissingIsAvoiding(rows, pick, root, m);
      assert caller in Avoiding(rows, m);
    }
  }

  /** One declarer for each capability, and handlers that are declared, are enough. */
  lemma UniqueConfines(rows: Rows)
    requires UniqueProviders(rows) && HandlersDeclared(rows)
    ensures EveryWalkConfines(rows)
  {
    forall caller, cap, m | HopAdmitted(rows, caller, cap, m) ensures caller !in Avoiding(rows, m) {
      SettledIsGreatest(rows, rows.Keys - {m}, {});
      assert Declares(rows, m, cap);
      assert m != caller ==> !Backed(rows, Avoiding(rows, m), caller);
    }
    EveryWalkConfinesIff(rows);
  }

  /** And then every walk is the footprint. */
  lemma WalkIsFootprint(rows: Rows, pick: Lookup, root: string)
    requires UniqueProviders(rows) && Answers(rows, pick)
    ensures Walk(rows, pick, root) == FootprintOf(rows, root)
  {
    var g, w, f := Graph(rows, false, {}), Walk(rows, pick, root), FootprintOf(rows, root);
    WalkFollows(rows, pick, root);
    assert Closed(g, w);
    ReachSetLeast(g, root, w);
    ReachSetClosed(g, root);
    assert Follows(rows, pick, f) by {
      forall n, cap | n in f && Demands(rows, n, cap) && Declares(rows, pick(n, cap), cap) ensures pick(n, cap) in f {
        assert Edge(g, n, pick(n, cap));
      }
    }
    WalkLeast(rows, pick, root, f);
  }

  const FORK: Rows := map[
    "a" := Row(Some(Manifest([], ["c"])), {}, Active),
    "b" := Row(Some(Manifest([Capability("c", false)], [])), {}, Active),
    "d" := Row(Some(Manifest([Capability("c", false)], [])), {}, Active)]

  /** Two providers of one capability break the reservation: the walk may follow the
      one, and the gate let a hop through to the other. */
  lemma AmbiguousProviderEscapes()
    ensures HandlersDeclared(FORK) && !EveryWalkConfines(FORK)
  {
    ForkHops();
    AvoiderFound();
    EveryWalkConfinesIff(FORK);
    ForkHandlers();
  }

  lemma ForkHandlers()
    ensures HandlersDeclared(FORK)
  {
  }

  lemma AvoiderFound()
    ensures "a" in Avoiding(FORK, "d")
  {
    ForkHops();
    assert Supported(FORK, {"a", "b"}) by {
      assert Backed(FORK, {"a", "b"}, "a") && Backed(FORK, {"a", "b"}, "b");
    }
    SettledIsGreatest(FORK, FORK.Keys - {"d"}, {"a", "b"});
  }

  lemma ForkHops()
    ensures HopAdmitted(FORK, "a", "c", "d") && Declares(FORK, "b", "c")
    ensures forall n, cap :: Demands(FORK, n, cap) ==> n == "a" && cap == "c"
  {
    assert FORK["b"].manifest.value.capabilities[0].name == "c";
    assert Declares(FORK, "b", "c") && Declares(FORK, "d", "c");
    assert Demands(FORK, "a", "c") by { assert "c" in ["c"]; }
    assert Routes(FORK, "c", "d", AsyncOf(FORK["d"], "c"));
  }
}
