/**
 The modules store: records whose state is updated in place, the depth-first
 closures over them, requirement evaluation, routing and the requires-gate.
 */
module ModuleStore {
  import opened Wrappers
  import opened ModuleGraph
  import opened Requirements

  /** One module's row. The manifest and handlers never change after the scan. */
  class Record {
    const manifest: Option<Manifest>
    const handlers: set<string>
    var state: State

    constructor (manifest: Option<Manifest>, handlers: set<string>, state: State)
      ensures View() == Row(manifest, handlers, state)
    {
      this.manifest, this.handlers, this.state := manifest, handlers, state;
    }

    function View(): Row
      reads this
    {
      Row(manifest, handlers, state)
    }

    method SetStatus(st: State)
      modifies this
      ensures View() == old(View()).(state := st)
    {
      state := st;
    }
  }

  /** A set of names that recursive calls share and grow. */
  class NameSet {
    var names: set<string>

    constructor (first: string)
      ensures names == {first}
    {
      names := {first};
    }
  }

  /** A list of names that recursive calls share and append to. */
  class NameList {
    var items: seq<string>

    constructor ()
      ensures items == []
    {
      items := [];
    }
  }

  /** The resolved dispatch target of a capability. */
  datatype Route = Route(name: string, async: bool)

  ghost predicate Distinct(items: seq<string>) {
    forall i, j :: 0 <= i < j < |items| ==> items[i] != items[j]
  }

  /** Every dependency of a listed module stands before it. */
  ghost predicate Ordered(g: Graph, items: seq<string>) {
    forall k, b :: 0 <= k < |items| && Edge(g, items[k], b) ==> b in items[..k]
  }

  ghost predicate AcyclicFrom(g: Graph, t: string) {
    forall a, b :: Reach(g, t, a) && Edge(g, a, b) ==> !Reach(g, b, a)
  }

  /** Some module that declares `cap`, or "" when none does. */
  method FindProvider(cap: string, rows: Rows) returns (prov: string)
    requires "" !in rows
    ensures prov == "" ==> forall n :: !Declares(rows, n, cap)
    ensures prov != "" ==> Declares(rows, prov, cap)
  {
    var todo := rows.Keys;
    while todo != {}
      invariant todo <= rows.Keys
      invariant forall n :: n in rows && n !in todo ==> !Declares(rows, n, cap)
      decreases todo
    {
      var n :| n in todo;
      todo := todo - {n};
      if rows[n].manifest.Some? && Mentions(rows[n].manifest.value.capabilities, cap) {
        return n;
      }
    }
    return "";
  }

  /** Grows `out` by what is newly reached from `name`; nothing it adds, and not
      `name` either, is left with a dependency outside `out`. */
  method CollectFootprint(name: string, rows: Rows, out: NameSet, ghost g: Graph)
    requires UniqueProviders(rows) && g == Graph(rows, false, {}) && name in out.names
    modifies out
    ensures Collected(g, name, old(out.names), out.names)
    ensures forall b :: Edge(g, name, b) ==> b in out.names
    decreases rows.Keys - out.names
  {
    ghost var was := out.names;
    if name !in rows || rows[name].manifest.None? {
      return;
    }
    var needs := rows[name].manifest.value.needs;
    for i := 0 to |needs|
      invariant Collected(g, name, was, out.names)
      invariant forall j, b :: 0 <= j < i && Declares(g.rows, b, needs[j]) ==> b in out.names
    {
      var prov := FindProvider(needs[i], rows);
      if prov == "" || prov in out.names {
        continue;
      }
      assert Demands(g.rows, name, needs[i]);
      assert Edge(g, name, prov);
      ghost var before := out.names;
      out.names := out.names + {prov};
      CollectFootprint(prov, rows, out, g);
      CollectedStep(g, name, was, before, prov, out.names);
    }
  }

  /** Appends what is newly reached from `name`. `stack` holds the modules whose
      collection is still open, each of which reaches `name`. */
  method CollectInactive(name: string, rows: Rows, ghost target: string, visited: NameSet, out: NameList,
                         ghost g: Graph, ghost stack: set<string>)
    requires UniqueProviders(rows) && g == Graph(rows, true, {target})
    requires name in stack && target in stack
    requires forall s :: s in stack ==> Reach(g, s, name)
    requires Listed(g, target, stack, visited.names, out.items)
    modifies visited, out
    ensures Listed(g, target, stack, visited.names, out.items)
    ensures Collected(g, name, old(visited.names), visited.names)
    ensures forall b :: Edge(g, name, b) ==> b in visited.names
    decreases rows.Keys - visited.names
  {
    ghost var was := visited.names;
    if name !in rows || rows[name].manifest.None? {
      return;
    }
    var needs := rows[name].manifest.value.needs;
    assert forall cap :: Demands(g.rows, name, cap) <==> cap in needs;
    for i := 0 to |needs|
      invariant Listed(g, target, stack, visited.names, out.items)
      invariant Collected(g, name, was, visited.names)
      invariant FollowedTo(g, name, needs, i, visited.names)
    {
      var prov := FindProvider(needs[i], rows);
      FollowedStep(g, name, needs, i, visited.names, prov);
      if prov == "" || prov in visited.names || rows[prov].state != Ready {
        continue;
      }
      assert Demands(g.rows, name, needs[i]);
      assert Edge(g, name, prov);
      ghost var before := visited.names;
      visited.names := visited.names + {prov};
      StackReaches(g, stack, name, prov);
      ListedPush(g, target, stack, before, out.items, prov);
      CollectInactive(prov, rows, target, visited, out, g, stack + {prov});
      ListedPop(g, target, stack, visited.names, out.items, prov);
      CollectedStep(g, name, was, before, prov, visited.names);
      out.items := out.items + [prov];
    }
  }

  class Store {
    var records: map<string, Record>

    constructor (records: map<string, Record>)
      ensures this.records == records
    {
      this.records := records;
    }

    /** No nameless record, and no record filed under two names. */
    ghost predicate Valid()
      reads this
    {
      && "" !in records
      && forall a, b :: a in records && b in records && a != b ==> records[a] != records[b]
    }

    function Rows(): Rows
      reads this, records.Values
    {
      map n | n in records :: records[n].View()
    }

    ghost function Deps(): Graph
      reads this, records.Values
    {
      Graph(Rows(), false, {})
    }

    ghost function ReadyDeps(target: string): Graph
      reads this, records.Values
    {
      Graph(Rows(), true, {target})
    }

    // -------------------------------------------------------- the footprint

    method Footprint(target: string) returns (out: NameSet)
      requires Valid() && UniqueProviders(Rows())
      ensures fresh(out) && out.names == FootprintOf(Rows(), target)
    {
      var rows := Rows();
      ghost var g := Deps();
      out := new NameSet(target);
      CollectFootprint(target, rows, out, g);
      ReachSelf(g, target);
      ReachSetLeast(g, target, out.names);
    }

    // ------------------------------------------------- the activation order

    /** The inactive providers `target` needs, each exactly once; the list is an
        activation order exactly when their graph has no cycle. */
    method RequiredInactiveProviders(target: string) returns (out: seq<string>)
      requires Valid() && UniqueProviders(Rows())
      ensures Distinct(out)
      ensures forall b :: b in out <==> b != target && Reach(ReadyDeps(target), target, b)
      ensures Ordered(ReadyDeps(target), out) <==> AcyclicFrom(ReadyDeps(target), target)
      ensures forall b :: b in out ==>
                && b in records && b != target && records[b].state == Ready
                && exists a, cap :: (a == target || a in out) && Demands(Rows(), a, cap) && Declares(Rows(), b, cap)
      ensures forall a, cap, b ::
                && (a == target || a in out) && Demands(Rows(), a, cap)
                && Declares(Rows(), b, cap) && records[b].state == Ready && b != target
                ==> b in out
    {
      var rows := Rows();
      ghost var g := ReadyDeps(target);
      var visited := new NameSet(target);
      var list := new NameList();
      ReachSelf(g, target);
      CollectInactive(target, rows, target, visited, list, g, {target});
      out := list.items;
      InactiveComplete(g, target, out);
      InactiveSteps(target, out);
    }

    lemma InactiveSteps(target: string, out: seq<string>)
      requires forall b :: b in out <==> b != target && Reach(ReadyDeps(target), target, b)
      ensures forall b :: b in out ==>
                && b in records && b != target && records[b].state == Ready
                && exists a, cap :: (a == target || a in out) && Demands(Rows(), a, cap) && Declares(Rows(), b, cap)
      ensures forall a, cap, b ::
                && (a == target || a in out) && Demands(Rows(), a, cap)
                && Declares(Rows(), b, cap) && records[b].state == Ready && b != target
                ==> b in out
    {
      var g := ReadyDeps(target);
      ReachSelf(g, target);
      forall b | b in out
        ensures b in records && records[b].state == Ready
        ensures exists a, cap :: (a == target || a in out) && Demands(Rows(), a, cap) && Declares(Rows(), b, cap)
      {
        var a := LastEdge(g, target, b);
        var cap :| Demands(Rows(), a, cap) && Declares(Rows(), b, cap);
        assert Rows()[b] == records[b].View();
      }
      forall a, cap, b |
        (a == target || a in out) && Demands(Rows(), a, cap) && Declares(Rows(), b, cap)
        && records[b].state == Ready && b != target
        ensures b in out
      {
        assert Rows()[b] == records[b].View() && Edge(g, a, b);
        ReachEdge(g, target, a, b);
      }
    }

    // ------------------------------------------------ requirement evaluation

    /** The capabilities declared by records that are not inert. */
    method ReadySurface() returns (surface: set<string>)
      ensures forall cap :: cap in surface <==> Offered(Rows(), NonInert(Rows()), cap)
      ensures forall cap :: cap in surface <==> exists n :: n in records && Offers(records[n], cap)
    {
      surface := {};
      var todo := records.Keys;
      while todo != {}
        invariant todo <= records.Keys
        invariant forall cap :: cap in surface <==> Offered(Rows(), NonInert(Rows()) - todo, cap)
        decreases todo
      {
        var n :| n in todo;
        ghost var left := NonInert(Rows()) - todo;
        ghost var was := surface;
        todo := todo - {n};
        assert Rows()[n] == records[n].View();
        if !records[n].View().Inert() && records[n].manifest.Some? {
          var caps := records[n].manifest.value.capabilities;
          for i := 0 to |caps|
            invariant forall cap :: cap in surface <==>
              cap in was || exists j :: 0 <= j < i && caps[j].name == cap
          {
            surface := surface + {caps[i].name};
          }
          assert NonInert(Rows()) - todo == left + {n};
          forall cap ensures cap in surface <==> Offered(Rows(), left + {n}, cap) {
            assert Declares(Rows(), n, cap) <==> exists j :: 0 <= j < |caps| && caps[j].name == cap;
          }
        } else {
          forall cap ensures Offered(Rows(), NonInert(Rows()) - todo, cap) <==> Offered(Rows(), left, cap) {
            assert !Declares(Rows(), n, cap) || NonInert(Rows()) - todo == left;
          }
        }
      }
      assert NonInert(Rows()) - todo == NonInert(Rows());
      SurfaceTells(surface);
    }

    lemma SurfaceTells(surface: set<string>)
      requires forall cap :: cap in surface <==> Offered(Rows(), NonInert(Rows()), cap)
      ensures forall cap :: cap in surface <==> exists n :: n in records && Offers(records[n], cap)
    {
      forall n, cap | n in records
        ensures Offers(records[n], cap) <==> n in NonInert(Rows()) && Declares(Rows(), n, cap)
      {
        assert Rows()[n] == records[n].View();
      }
    }

    /** A module that is neither unavailable nor missing declares the capability. */
    predicate Offers(r: Record, cap: string)
      reads r
    {
      r.state != Unavailable && r.state != Missing && r.manifest.Some? && Mentions(r.manifest.value.capabilities, cap)
    }

    /** Both phases: probe the system resources, then eliminate to a fixpoint. */
    method EvaluateRequirements(sysOk: string -> bool)
      requires Valid()
      modifies records.Values
      ensures records == old(records)
      ensures Verdict(SystemPhase(old(Rows()), sysOk), Rows())
      ensures forall n :: n in records ==>
                var r, was := records[n], old(records[n].state);
                r.state == if was != Active && was != Unavailable && r.manifest.Some? && (!sysOk(n) || Lacks(r))
                           then Unavailable else was
    {
      ghost var start := Rows();
      SystemRequirements(sysOk);
      Eliminate();
      VerdictTells(start, sysOk);
    }

    /** Some capability that the module requires is offered by none. */
    ghost predicate Lacks(r: Record)
      reads this, records.Values, r
    {
      r.manifest.Some?
      && exists cap :: cap in r.manifest.value.needs && forall n :: n in records ==> !Offers(records[n], cap)
    }

    lemma LacksUnlessSupported(n: string)
      requires n in records && records[n].manifest.Some?
      ensures Lacks(records[n]) <==> !Supported(Rows(), NonInert(Rows()), n)
    {
      forall m, cap | m in records
        ensures Offers(records[m], cap) <==> m in NonInert(Rows()) && Declares(Rows(), m, cap)
      {
        assert Rows()[m] == records[m].View();
      }
      assert forall cap :: Demands(Rows(), n, cap) <==> cap in records[n].manifest.value.needs;
    }

    lemma VerdictTells(start: Rows, sysOk: string -> bool)
      requires Verdict(SystemPhase(start, sysOk), Rows())
      ensures forall n :: n in records ==>
                && n in start
                && var r, was := records[n], start[n].state;
                r.state == if was != Active && was != Unavailable && r.manifest.Some? && (!sysOk(n) || Lacks(r))
                           then Unavailable else was
    {
      forall n | n in records
        ensures n in start && records[n].manifest == start[n].manifest
        ensures records[n].state == VerdictState(start, sysOk, n, Lacks(records[n]))
      {
        VerdictStates(start, sysOk, Rows(), n);
        assert Rows()[n] == records[n].View();
        assert records[n].manifest == start[n].manifest;
        if records[n].manifest.Some? {
          LacksUnlessSupported(n);
        }
      }
    }

    /** Passes until nothing changes. */
    method Eliminate()
      requires Valid()
      modifies records.Values
      ensures records == old(records)
      ensures Verdict(old(Rows()), Rows())
    {
      ghost var rows, now := Rows(), Rows();
      EliminatingStart(rows);
      var changed := true;
      while changed
        invariant records == old(records) && now == Rows()
        invariant Eliminating(rows, now) && (!changed ==> Pass(now) == now)
        decreases LiveNames(now), changed
      {
        var surface := ReadySurface();
        PassStep(rows, now);
        changed := CapabilityPass(surface);
        now := Rows();
      }
      FixpointIsVerdict(rows, now);
    }

    method SystemRequirements(sysOk: string -> bool)
      requires Valid()
      modifies records.Values
      ensures records == old(records)
      ensures Rows() == SystemPhase(old(Rows()), sysOk)
      ensures forall n :: n in records ==>
                var was := old(records[n].state);
                records[n].state ==
                if was != Active && was != Unavailable && records[n].manifest.Some? && !sysOk(n) then Unavailable
                else was
    {
      ghost var start := Rows();
      var todo := records.Keys;
      while todo != {}
        invariant todo <= records.Keys && records == old(records)
        invariant forall n :: n in records ==>
          records[n].View() == if n in todo then start[n] else Reject(start[n], sysOk(n))
        decreases todo
      {
        var n :| n in todo;
        todo := todo - {n};
        if Judged(records[n].View()) && !sysOk(n) {
          records[n].SetStatus(Unavailable);
        }
      }
      assert Rows() == SystemPhase(start, sysOk);
    }

    /** Marks every judged record that misses a capability of `surface`. */
    method CapabilityPass(surface: set<string>) returns (changed: bool)
      requires Valid()
      requires forall cap :: cap in surface <==> Offered(Rows(), NonInert(Rows()), cap)
      modifies records.Values
      ensures records == old(records)
      ensures Rows() == Pass(old(Rows()))
      ensures changed <==> Rows() != old(Rows())
    {
      ghost var start := Rows();
      ghost var avail := NonInert(start);
      var todo := records.Keys;
      changed := false;
      ghost var judged: set<string> := {};
      PassOnAll(start);
      while todo != {}
        invariant todo <= records.Keys && records == old(records) && judged == records.Keys - todo
        invariant Rows() == PassOn(start, judged) && (changed <==> Rows() != start)
        decreases todo
      {
        var n :| n in todo;
        NeedsOf(start, n, surface, avail);
        PassOneMore(start, judged, n);
        var rejected := JudgeNamed(n, surface, Supported(start, avail, n));
        changed := changed || rejected;
        todo, judged := todo - {n}, judged + {n};
      }
      PassOnAll(start);
    }

    /** Judges one record of the index. */
    method JudgeNamed(n: string, surface: set<string>, ghost ok: bool) returns (rejected: bool)
      requires Valid() && n in records
      requires Judged(Rows()[n]) ==> (ok <==> forall cap :: cap in Rows()[n].manifest.value.needs ==> cap in surface)
      modifies records[n]
      ensures Rows() == old(Rows())[n := Reject(old(Rows())[n], ok)]
      ensures rejected <==> Rows()[n] != old(Rows())[n]
    {
      ghost var was := Rows();
      rejected := Judge(records[n], surface, ok);
      assert forall m :: m in records && m != n ==> Rows()[m] == was[m];
    }

    /** Marks one judged record unavailable unless the surface meets its needs. */
    method Judge(r: Record, surface: set<string>, ghost ok: bool) returns (rejected: bool)
      requires Judged(r.View()) ==> (ok <==> forall cap :: cap in r.manifest.value.needs ==> cap in surface)
      modifies r
      ensures r.View() == Reject(old(r.View()), ok)
      ensures rejected <==> r.View() != old(r.View())
    {
      if Judged(r.View()) {
        var met := Meets(r, surface);
        if !met {
          r.SetStatus(Unavailable);
          return true;
        }
      }
      return false;
    }

    method Meets(r: Record, surface: set<string>) returns (met: bool)
      requires r.manifest.Some?
      ensures met <==> forall cap :: cap in r.manifest.value.needs ==> cap in surface
    {
      var needs := r.manifest.value.needs;
      for i := 0 to |needs|
        invariant forall j :: 0 <= j < i ==> needs[j] in surface
      {
        if needs[i] !in surface {
          return false;
        }
      }
      return true;
    }

    // ---------------------------------------------------- routing and the gate

    /** A handler first, then an active declarer; None when there is neither. */
    method Resolve(cap: string) returns (route: Option<Route>)
      ensures route.Some? ==> Routes(Rows(), cap, route.value.name, route.value.async)
      ensures route.None? ==> forall m, async :: !Routes(Rows(), cap, m, async)
      ensures route.Some? ==>
                && route.value.name in records
                && var r := records[route.value.name];
                && route.value.async == AsyncOf(r.View(), cap)
                && (|| cap in r.handlers
                    || (r.state == Active && r.manifest.Some? && Mentions(r.manifest.value.capabilities, cap)))
      ensures forall n :: n in records && cap in records[n].handlers ==>
                route.Some? && cap in records[route.value.name].handlers
      ensures route.None? ==>
                forall n :: n in records && records[n].state == Active && records[n].manifest.Some? ==>
                  !Mentions(records[n].manifest.value.capabilities, cap)
    {
      var todo := records.Keys;
      while todo != {}
        invariant todo <= records.Keys
        invariant forall n :: n in records && n !in todo ==> cap !in records[n].handlers
        decreases todo
      {
        var n :| n in todo;
        todo := todo - {n};
        if cap in records[n].handlers {
          return Some(Route(n, AsyncOf(records[n].View(), cap)));
        }
      }
      assert NoHandler(Rows(), cap);
      todo := records.Keys;
      while todo != {}
        invariant todo <= records.Keys
        invariant forall n, async :: n in records && n !in todo ==> !Routes(Rows(), cap, n, async)
        invariant forall n :: n in records && n !in todo && records[n].state == Active && records[n].manifest.Some? ==>
          !Mentions(records[n].manifest.value.capabilities, cap)
        decreases todo
      {
        var n :| n in todo;
        todo := todo - {n};
        if records[n].state == Active && records[n].manifest.Some?
           && Mentions(records[n].manifest.value.capabilities, cap) {
          assert Declares(Rows(), n, cap);
          return Some(Route(n, AsyncOf(records[n].View(), cap)));
        }
      }
      return None;
    }

    /** The cross-module call gate: did `name` declare that it requires `cap`? */
    predicate Allows(name: string, cap: string)
      reads this, records.Values
      ensures Allows(name, cap) <==> Demands(Rows(), name, cap)
      ensures Allows(name, cap) <==>
                name in records && records[name].manifest.Some? && cap in records[name].manifest.value.needs
    {
      name in records && records[name].manifest.Some? && cap in records[name].manifest.value.needs
    }
  }

  // ---------------------------------------------------- about the closures

  /** From `was` to `now` only names reached from `name` were added, and all of
      them with their dependencies. */
  ghost predicate Collected(g: Graph, name: string, was: set<string>, now: set<string>) {
    && was <= now
    && (forall b :: b in now && b !in was ==> Reach(g, name, b))
    && (forall a, b :: a in now && a !in was && a != name && Edge(g, a, b) ==> b in now)
  }

  lemma CollectedStep(g: Graph, name: string, was: set<string>, before: set<string>, prov: string, now: set<string>)
    requires Collected(g, name, was, before) && Edge(g, name, prov)
    requires Collected(g, prov, before + {prov}, now)
    requires forall b :: Edge(g, prov, b) ==> b in now
    ensures Collected(g, name, was, now)
  {
    forall b | b in now && b !in was ensures Reach(g, name, b) {
      if b == prov {
        ReachSelf(g, name);
        ReachEdge(g, name, name, prov);
      } else if b !in before {
        EdgeReach(g, name, prov, b);
      }
    }
  }

  /** The edges out of `name` that its first `i` requirements make are followed. */
  ghost predicate FollowedTo(g: Graph, name: string, needs: seq<string>, i: nat, visited: set<string>)
    requires i <= |needs|
  {
    forall cap, b :: cap in needs[..i] && Declares(g.rows, b, cap) && Edge(g, name, b) ==> b in visited
  }

  /** One more requirement is followed once its provider, if it counts, is visited. */
  lemma FollowedStep(g: Graph, name: string, needs: seq<string>, i: nat, visited: set<string>, prov: string)
    requires i < |needs| && FollowedTo(g, name, needs, i, visited) && UniqueProviders(g.rows)
    requires prov == "" ==> forall n :: !Declares(g.rows, n, needs[i])
    requires prov != "" ==> Declares(g.rows, prov, needs[i])
    ensures forall now: set<string> ::
              visited <= now && (prov == "" || prov in now || (g.readyOnly && g.rows[prov].state != Ready))
              ==> FollowedTo(g, name, needs, i + 1, now)
  {
    assert needs[..i + 1] == needs[..i] + [needs[i]];
    assert forall b :: Declares(g.rows, b, needs[i]) ==> b == prov;
  }

  // ------------------------------------------------- about activation orders

  ghost predicate Members(items: seq<string>, stack: set<string>, visited: set<string>) {
    forall b :: b in visited <==> b in items || b in stack
  }

  /** Visited is the list so far plus the stack; the list is in order if any can be. */
  ghost predicate Listed(g: Graph, target: string, stack: set<string>, visited: set<string>, items: seq<string>) {
    && Members(items, stack, visited)
    && Distinct(items)
    && (forall s :: s in stack ==> s !in items)
    && (AcyclicFrom(g, target) ==> Ordered(g, items))
  }

  lemma StackReaches(g: Graph, stack: set<string>, name: string, prov: string)
    requires forall s :: s in stack ==> Reach(g, s, name)
    requires Edge(g, name, prov)
    ensures forall s :: s in stack + {prov} ==> Reach(g, s, prov)
  {
    forall s | s in stack + {prov} ensures Reach(g, s, prov) {
      ReachSelf(g, prov);
      if s != prov {
        ReachEdge(g, s, name, prov);
      }
    }
  }

  lemma ListedPush(g: Graph, target: string, stack: set<string>, visited: set<string>, items: seq<string>, prov: string)
    requires Listed(g, target, stack, visited, items) && prov !in visited
    ensures Listed(g, target, stack + {prov}, visited + {prov}, items)
  {
  }

  /** A module whose dependencies are all collected may follow the list. */
  lemma ListedPop(g: Graph, target: string, stack: set<string>, visited: set<string>, items: seq<string>, prov: string)
    requires Listed(g, target, stack + {prov}, visited, items)
    requires target in stack && prov !in stack
    requires forall s :: s in stack + {prov} ==> Reach(g, s, prov)
    requires forall b :: Edge(g, prov, b) ==> b in visited
    ensures Listed(g, target, stack, visited, items + [prov])
  {
    var more := items + [prov];
    assert forall b :: b in more <==> b in items || b == prov;
    if AcyclicFrom(g, target) {
      forall k, b | 0 <= k < |more| && Edge(g, more[k], b) ensures b in more[..k] {
        if k < |items| {
          assert more[..k] == items[..k];
        } else {
          assert more[..k] == items;
          assert Reach(g, target, prov);
        }
      }
    }
  }

  lemma InactiveComplete(g: Graph, target: string, items: seq<string>)
    requires g.avoid == {target}
    requires Distinct(items) && target !in items
    requires forall b :: b in items ==> Reach(g, target, b)
    requires forall a, b :: (a == target || a in items) && Edge(g, a, b) ==> b == target || b in items
    requires AcyclicFrom(g, target) ==> Ordered(g, items)
    ensures forall b :: b in items <==> b != target && Reach(g, target, b)
    ensures Ordered(g, items) <==> AcyclicFrom(g, target)
  {
    var seen := {target} + set b | b in items;
    assert Closed(g, seen);
    forall b | Reach(g, target, b) ensures b in seen {
      ReachInClosed(g, seen, target, b);
    }
    if Ordered(g, items) {
      OrderedIsAcyclic(g, target, items);
    }
  }

  lemma {:induction false} OrderedPathDescends(g: Graph, items: seq<string>, p: seq<string>, k: nat)
    requires Ordered(g, items) && Distinct(items) && Path(g, p)
    requires k < |items| && items[k] == p[0]
    ensures p[|p| - 1] in items[..k + 1]
  {
    if |p| > 1 {
      assert Edge(g, p[0], p[1]);
      assert p[1] in items[..k];
      var j :| 0 <= j < k && items[j] == p[1];
      assert forall i :: 0 <= i < |p| - 1 ==> p[1..][i] == p[i + 1];
      OrderedPathDescends(g, items, p[1..], j);
      assert items[..j + 1] <= items[..k + 1];
    }
  }

  /** Only an acyclic graph has an activation order. */
  lemma OrderedIsAcyclic(g: Graph, target: string, items: seq<string>)
    requires g.avoid == {target} && Ordered(g, items) && Distinct(items)
    requires forall b :: b != target && Reach(g, target, b) ==> b in items
    ensures AcyclicFrom(g, target)
  {
    forall a, b | Reach(g, target, a) && Edge(g, a, b) && Reach(g, b, a)
      ensures false
    {
      var p :| Path(g, p) && p[0] == b && p[|p| - 1] == a;
      if |p| > 1 {
        assert Edge(g, p[|p| - 2], a);
      }
      assert a != target;
      var k :| 0 <= k < |items| && items[k] == a;
      assert b in items[..k];
      var j :| 0 <= j < k && items[j] == b;
      OrderedPathDescends(g, items, p, j);
    }
  }
}
