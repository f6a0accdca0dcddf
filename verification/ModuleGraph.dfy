/**
 The module index as a value, and the graph that `requires.capabilities` spans
 over it: an edge leads from a module to each declarer of a capability it
 requires.  Routing, the requires-gate and the reservation footprint are all
 read off this graph.
 */
module ModuleGraph {
  import opened Wrappers

  datatype State = Ready | Active | Unavailable | Missing | Failed

  datatype Capability = Capability(name: string, async: bool)

  datatype Manifest = Manifest(capabilities: seq<Capability>, needs: seq<string>)

  /** One record: the facets fixed after the scan, and the lifecycle state. */
  datatype Row = Row(manifest: Option<Manifest>, handlers: set<string>, state: State) {
    predicate Inert() {
      state == Unavailable || state == Missing
    }
  }

  type Rows = map<string, Row>

  predicate Declares(rows: Rows, name: string, cap: string) {
    name in rows && rows[name].manifest.Some? && Mentions(rows[name].manifest.value.capabilities, cap)
  }

  predicate Mentions(caps: seq<Capability>, cap: string) {
    exists i :: 0 <= i < |caps| && caps[i].name == cap
  }

  predicate Demands(rows: Rows, name: string, cap: string) {
    name in rows && rows[name].manifest.Some? && cap in rows[name].manifest.value.needs
  }

  /** The declared mode of the first entry for `cap`; false when there is none. */
  function CapAsync(caps: seq<Capability>, cap: string): bool {
    if caps == [] then false
    else if caps[0].name == cap then caps[0].async
    else CapAsync(caps[1..], cap)
  }

  function AsyncOf(row: Row, cap: string): bool {
    row.manifest.Some? && CapAsync(row.manifest.value.capabilities, cap)
  }

  /** A capability's mode is that of its first entry, and off without one. */
  lemma ModeOfFirst(row: Row, cap: string)
    ensures row.manifest.None? ==> !AsyncOf(row, cap)
    ensures row.manifest.Some? ==> ModeIs(row.manifest.value.capabilities, cap, AsyncOf(row, cap))
  {
    if row.manifest.Some? {
      FirstEntryMode(row.manifest.value.capabilities, cap);
    }
  }

  predicate ModeIs(caps: seq<Capability>, cap: string, async: bool) {
    && (!Mentions(caps, cap) ==> !async)
    && forall i :: 0 <= i < |caps| && caps[i].name == cap && (forall k :: 0 <= k < i ==> caps[k].name != cap) ==>
         async == caps[i].async
  }

  lemma {:induction false} FirstEntryMode(caps: seq<Capability>, cap: string)
    ensures ModeIs(caps, cap, CapAsync(caps, cap))
  {
    if caps != [] && caps[0].name != cap {
      var rest := caps[1..];
      FirstEntryMode(rest, cap);
      assert forall i :: 0 < i < |caps| ==> rest[i - 1] == caps[i];
      if Mentions(rest, cap) {
        var i :| 0 <= i < |rest| && rest[i].name == cap;
        assert caps[i + 1].name == cap;
      }
      forall i | 0 <= i < |caps| && caps[i].name == cap && forall k :: 0 <= k < i ==> caps[k].name != cap
        ensures CapAsync(caps, cap) == caps[i].async
      {
        assert rest[i - 1].name == cap && forall k :: 0 <= k < i - 1 ==> rest[k].name == caps[k + 1].name;
      }
    }
  }

  /** No two modules declare one capability, and no module is nameless. */
  ghost predicate UniqueProviders(rows: Rows) {
    && "" !in rows
    && forall cap, a, b :: Declares(rows, a, cap) && Declares(rows, b, cap) ==> a == b
  }

  /** An in-process handler serves only what its module's manifest declares. */
  ghost predicate HandlersDeclared(rows: Rows) {
    forall m, cap :: m in rows && cap in rows[m].handlers ==> Declares(rows, m, cap)
  }

  /** The same modules with the same immutable facets; only states may differ. */
  ghost predicate SameManifests(rows: Rows, rows': Rows) {
    && rows.Keys == rows'.Keys
    && forall n :: n in rows ==>
      rows'[n].manifest == rows[n].manifest && rows'[n].handlers == rows[n].handlers
  }

  /** What Resolve may answer: a handler wins, otherwise an active declarer. */
  ghost predicate Routes(rows: Rows, cap: string, m: string, async: bool) {
    && m in rows
    && async == AsyncOf(rows[m], cap)
    && (|| cap in rows[m].handlers
        || (NoHandler(rows, cap) && rows[m].state == Active && Declares(rows, m, cap)))
  }

  ghost predicate NoHandler(rows: Rows, cap: string) {
    forall n :: n in rows ==> cap !in rows[n].handlers
  }

  /** Some request can be routed here, in some lifecycle states. */
  ghost predicate Routable(rows: Rows, m: string) {
    m in rows && exists cap :: cap in rows[m].handlers || (NoHandler(rows, cap) && Declares(rows, m, cap))
  }

  /** Which module can ever be routed to is settled by the manifests. */
  lemma RoutableIff(rows: Rows, m: string)
    ensures Routable(rows, m) <==>
            exists rows': Rows, cap, async :: SameManifests(rows, rows') && Routes(rows', cap, m, async)
  {
    if Routable(rows, m) {
      var cap :| cap in rows[m].handlers || (NoHandler(rows, cap) && Declares(rows, m, cap));
      var active := rows[m := rows[m].(state := Active)];
      assert NoHandler(rows, cap) ==> NoHandler(active, cap);
      assert SameManifests(rows, active) && Routes(active, cap, m, AsyncOf(active[m], cap));
    }
    forall rows': Rows, cap, async | SameManifests(rows, rows') && Routes(rows', cap, m, async)
      ensures Routable(rows, m)
    {
      RoutesRoutable(rows', cap, m, async);
      RoutableStateAgnostic(rows', rows, m);
    }
  }

  lemma RoutesRoutable(rows: Rows, cap: string, m: string, async: bool)
    requires Routes(rows, cap, m, async)
    ensures Routable(rows, m)
  {
  }

  lemma RoutableStateAgnostic(rows: Rows, rows': Rows, m: string)
    requires SameManifests(rows, rows')
    ensures Routable(rows', m) <==> Routable(rows, m)
  {
    forall cap ensures NoHandler(rows', cap) <==> NoHandler(rows, cap) {
    }
    assert forall cap :: Declares(rows', m, cap) <==> Declares(rows, m, cap);
  }

  // ---------------------------------------------------------------- the graph

  /** The dependency graph, optionally restricted to Ready targets off `avoid`. */
  datatype Graph = Graph(rows: Rows, readyOnly: bool, avoid: set<string>)

  ghost predicate Edge(g: Graph, a: string, b: string) {
    && b !in g.avoid
    && (exists cap :: Demands(g.rows, a, cap) && Declares(g.rows, b, cap))
    && (g.readyOnly ==> g.rows[b].state == Ready)
  }

  ghost predicate Path(g: Graph, p: seq<string>) {
    |p| > 0 && forall i :: 0 <= i < |p| - 1 ==> Edge(g, p[i], p[i + 1])
  }

  ghost predicate Reach(g: Graph, a: string, b: string) {
    exists p :: Path(g, p) && p[0] == a && p[|p| - 1] == b
  }

  ghost predicate Closed(g: Graph, s: set<string>) {
    forall a, b :: a in s && Edge(g, a, b) ==> b in s
  }

  lemma ReachSelf(g: Graph, a: string)
    ensures Reach(g, a, a)
  {
    assert Path(g, [a]);
  }

  lemma ReachEdge(g: Graph, a: string, b: string, c: string)
    requires Reach(g, a, b) && Edge(g, b, c)
    ensures Reach(g, a, c)
  {
    var p :| Path(g, p) && p[0] == a && p[|p| - 1] == b;
    var q := p + [c];
    assert Path(g, q);
  }

  lemma EdgeReach(g: Graph, a: string, b: string, c: string)
    requires Edge(g, a, b) && Reach(g, b, c)
    ensures Reach(g, a, c)
  {
    var p :| Path(g, p) && p[0] == b && p[|p| - 1] == c;
    var q := [a] + p;
    assert forall i :: 0 < i < |q| ==> q[i] == p[i - 1];
    assert Path(g, q);
  }

  lemma {:induction false} PathInClosed(g: Graph, s: set<string>, p: seq<string>)
    requires Closed(g, s) && Path(g, p) && p[0] in s
    ensures p[|p| - 1] in s
  {
    if |p| > 1 {
      assert Edge(g, p[0], p[1]);
      assert forall i :: 0 <= i < |p| - 1 ==> p[1..][i] == p[i + 1];
      PathInClosed(g, s, p[1..]);
    }
  }

  /** A closed set holds everything reachable from its members. */
  lemma ReachInClosed(g: Graph, s: set<string>, a: string, b: string)
    requires Closed(g, s) && a in s && Reach(g, a, b)
    ensures b in s
  {
    var p :| Path(g, p) && p[0] == a && p[|p| - 1] == b;
    PathInClosed(g, s, p);
  }

  /** What can be reached from `a`; mentioning Reach opens the set up, membership does not. */
  ghost predicate IsReachSet(g: Graph, a: string, s: set<string>) {
    forall b {:trigger Reach(g, a, b)} :: b in s <==> Reach(g, a, b)
  }

  ghost function ReachSet(g: Graph, a: string): (s: set<string>)
    ensures forall b {:trigger Reach(g, a, b)} :: b in s <==> Reach(g, a, b)
  {
    ReachSetExists(g, a);
    var s :| IsReachSet(g, a, s);
    s
  }

  lemma ReachSetExists(g: Graph, a: string)
    ensures exists s :: IsReachSet(g, a, s)
  {
    ReachStaysIndexed(g, a);
    var s := set b | b in g.rows.Keys + {a} && Reach(g, a, b);
    assert IsReachSet(g, a, s);
  }

  lemma ReachStaysIndexed(g: Graph, a: string)
    ensures forall b :: Reach(g, a, b) ==> b in g.rows.Keys + {a}
  {
    forall b | Reach(g, a, b) ensures b in g.rows.Keys + {a} {
      ReachInClosed(g, g.rows.Keys + {a}, a, b);
    }
  }

  lemma ReachTransitive(g: Graph, a: string, b: string)
    requires Reach(g, a, b)
    ensures ReachSet(g, b) <= ReachSet(g, a)
  {
    assert Closed(g, ReachSet(g, a)) by { ReachSetClosed(g, a); }
    forall c | c in ReachSet(g, b) ensures c in ReachSet(g, a) {
      ReachInClosed(g, ReachSet(g, a), b, c);
    }
  }

  lemma ReachSetClosed(g: Graph, a: string)
    ensures Closed(g, ReachSet(g, a)) && a in ReachSet(g, a)
  {
    ReachSelf(g, a);
    forall b, c | b in ReachSet(g, a) && Edge(g, b, c) ensures c in ReachSet(g, a) {
      ReachEdge(g, a, b, c);
    }
  }

  /** ReachSet is the least closed set that holds its root. */
  lemma ReachSetLeast(g: Graph, a: string, s: set<string>)
    requires Closed(g, s) && a in s
    ensures ReachSet(g, a) <= s
  {
    forall b | b in ReachSet(g, a) ensures b in s {
      ReachInClosed(g, s, a, b);
    }
  }

  // ------------------------------------------------------------ the footprint

  /** The reservation of a job rooted at `t`: its dependency closure, states ignored. */
  ghost function FootprintOf(rows: Rows, t: string): set<string> {
    ReachSet(Graph(rows, false, {}), t)
  }

  /** A footprint holds its root and the whole footprint of each of its members. */
  lemma FootprintTransitive(rows: Rows, t: string, m: string)
    requires m in FootprintOf(rows, t)
    ensures FootprintOf(rows, m) <= FootprintOf(rows, t)
    ensures t in FootprintOf(rows, t)
  {
    ReachTransitive(Graph(rows, false, {}), t, m);
    ReachSelf(Graph(rows, false, {}), t);
  }

  lemma RootInside(rows: Rows, t: string)
    ensures t in FootprintOf(rows, t)
  {
    ReachSelf(Graph(rows, false, {}), t);
  }

  lemma LastEdge(g: Graph, a: string, b: string) returns (last: string)
    requires Reach(g, a, b) && a != b
    ensures Reach(g, a, last) && Edge(g, last, b)
  {
    var p :| Path(g, p) && p[0] == a && p[|p| - 1] == b;
    var n := |p| - 1;
    last := p[n - 1];
    assert Path(g, p[..n]) && p[..n][0] == a && p[..n][n - 1] == last;
  }

  /** What a footprint is made of: its root, and with each member all declarers of what
      that requires, and nothing that no member requires. */
  lemma FootprintSteps(rows: Rows, t: string)
    ensures t in FootprintOf(rows, t)
    ensures forall a, cap, b :: a in FootprintOf(rows, t) && Demands(rows, a, cap) && Declares(rows, b, cap) ==>
              b in FootprintOf(rows, t)
    ensures forall b :: b in FootprintOf(rows, t) && b != t ==>
              exists a, cap :: a in FootprintOf(rows, t) && Demands(rows, a, cap) && Declares(rows, b, cap)
  {
    var g := Graph(rows, false, {});
    ReachSetClosed(g, t);
    forall a, cap, b | a in FootprintOf(rows, t) && Demands(rows, a, cap) && Declares(rows, b, cap)
      ensures b in FootprintOf(rows, t)
    {
      assert Edge(g, a, b);
    }
    forall b | b in FootprintOf(rows, t) && b != t
      ensures exists a, cap :: a in FootprintOf(rows, t) && Demands(rows, a, cap) && Declares(rows, b, cap)
    {
      var a := LastEdge(g, t, b);
      var cap :| Demands(rows, a, cap) && Declares(rows, b, cap);
    }
  }

  /** Lifecycle states do not enter a footprint. */
  lemma FootprintStateAgnostic(rows: Rows, rows': Rows, t: string)
    requires SameManifests(rows, rows')
    ensures FootprintOf(rows', t) == FootprintOf(rows, t)
  {
    var g, g' := Graph(rows, false, {}), Graph(rows', false, {});
    assert forall n, cap :: Declares(rows', n, cap) <==> Declares(rows, n, cap);
    assert forall n, cap :: Demands(rows', n, cap) <==> Demands(rows, n, cap);
    assert forall a, b :: Edge(g', a, b) <==> Edge(g, a, b);
    ReachSetClosed(g, t);
    ReachSetClosed(g', t);
    ReachSetLeast(g', t, ReachSet(g, t));
    ReachSetLeast(g, t, ReachSet(g', t));
  }

  // --------------------------------------------------------------- hop safety

  /** What the broker lets through: a hop to oneself, or a declared requirement. */
  ghost predicate HopAdmitted(rows: Rows, caller: string, cap: string, m: string) {
    && (exists async :: Routes(rows, cap, m, async))
    && (m == caller || Demands(rows, caller, cap))
  }

  /** A capability some module demands is served in-process only from its footprint. */
  ghost predicate HandlersReserved(rows: Rows) {
    forall n, cap, m ::
      Demands(rows, n, cap) && m in rows && cap in rows[m].handlers ==> m in FootprintOf(rows, n)
  }

  lemma DeclaredHandlersAreReserved(rows: Rows)
    requires HandlersDeclared(rows)
    ensures HandlersReserved(rows)
  {
    forall n, cap, m | Demands(rows, n, cap) && m in rows && cap in rows[m].handlers
      ensures m in FootprintOf(rows, n)
    {
      assert Declares(rows, m, cap);
      assert Edge(Graph(rows, false, {}), n, m);
      ReachSelf(Graph(rows, false, {}), n);
      ReachEdge(Graph(rows, false, {}), n, n, m);
    }
  }

  /** An admitted hop from inside a footprint lands inside that footprint. */
  lemma HopStaysInside(rows: Rows, t: string, caller: string, cap: string, m: string)
    requires HandlersReserved(rows)
    requires caller in FootprintOf(rows, t) && HopAdmitted(rows, caller, cap, m)
    ensures m in FootprintOf(rows, t)
  {
    var g := Graph(rows, false, {});
    if m != caller {
      if cap in rows[m].handlers {
        FootprintTransitive(rows, t, caller);
      } else {
        assert Declares(rows, m, cap);
        assert Edge(g, caller, m);
        ReachEdge(g, t, caller, m);
      }
    }
  }

  /** The footprint can be trusted at the gate exactly under HandlersReserved,
      whatever lifecycle states the modules are in. */
  lemma GateSafeIffHandlersReserved(rows: Rows)
    ensures HandlersReserved(rows) <==>
            forall caller, cap, m ::
              HopAdmitted(rows, caller, cap, m) ==> m in FootprintOf(rows, caller)
  {
    forall caller, cap, m | HandlersReserved(rows) && HopAdmitted(rows, caller, cap, m)
      ensures m in FootprintOf(rows, caller)
    {
      ReachSelf(Graph(rows, false, {}), caller);
      HopStaysInside(rows, caller, caller, cap, m);
    }
    forall n, cap, m |
      && (forall caller, c, p :: HopAdmitted(rows, caller, c, p) ==> p in FootprintOf(rows, caller))
      && Demands(rows, n, cap) && m in rows && cap in rows[m].handlers
      ensures m in FootprintOf(rows, n)
    {
      assert Routes(rows, cap, m, AsyncOf(rows[m], cap));
      assert HopAdmitted(rows, n, cap, m);
    }
  }

  /** The condition can fail: a handler outside every manifest escapes the footprint. */
  lemma UndeclaredHandlerEscapes()
    ensures exists rows: Rows, caller: string, cap: string, m: string ::
      && UniqueProviders(rows)
      && HopAdmitted(rows, caller, cap, m) && m !in FootprintOf(rows, caller)
  {
    var rows: Rows := map[
      "a" := Row(Some(Manifest([], ["c"])), {}, Active),
      "b" := Row(None, {"c"}, Active)];
    assert Routes(rows, "c", "b", false);
    assert Demands(rows, "a", "c") by { assert "c" in ["c"]; }
    var g := Graph(rows, false, {});
    assert Closed(g, {"a"});
    ReachSetLeast(g, "a", {"a"});
    assert HopAdmitted(rows, "a", "c", "b");
  }
}
