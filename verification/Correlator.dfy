/**
 The face's orchestrator as it runs: its maps and the mods it paints are updated in
 place, and each operation is proved to do to them what Correlation says.
 */
module Correlator {
  import opened Wrappers
  import C = Correlation

  /** A module's page; `columns` lists each column's filling capability, "" for none. */
  class Mod {
    const columns: seq<string>
    var loading: bool
    var err: string
    var survey: C.Survey
    var cells: map<string, C.Cell>

    constructor (columns: seq<string>)
      ensures this.columns == columns && View() == C.BLANK
    {
      this.columns := columns;
      loading, err, survey, cells := false, "", C.Survey([], ""), map[];
    }

    function View(): C.View
      reads this
    {
      C.View(loading, err, survey, cells)
    }

    /** Folds one pushed update into the page. */
    method Apply(u: C.Update)
      modifies this
      ensures View() == C.Applied(old(View()), u)
      ensures u.state == "done" ==> !loading && err == "" && survey == u.survey && cells == map[]
      ensures u.state == "failed" ==>
                !loading && err == (if u.err.Some? then u.err.value else "job failed")
                && survey == old(survey) && cells == old(cells)
      ensures u.state != "done" && u.state != "failed" ==> View() == old(View())
    {
      if u.state == "done" {
        Project(C.Loaded(u.survey));
      } else if u.state == "failed" {
        loading := false;
        err := if u.err.Some? then u.err.value else "job failed";
      }
    }

    method Project(result: C.Result)
      modifies this
      ensures View() == C.Projected(old(View()), result)
      ensures !loading
      ensures result.Loaded? ==> err == "" && survey == result.survey && cells == map[]
      ensures result.LoadFailed? ==> err == result.err && survey == old(survey) && cells == old(cells)
    {
      loading := false;
      match result {
        case LoadFailed(e) => err := e;
        case Loaded(s) => survey, err, cells := s, "", map[];
      }
    }

    method ApplyCell(cap: string, u: C.Update)
      modifies this
      ensures View() == C.CellApplied(old(View()), cap, u)
      ensures loading == old(loading) && err == old(err) && survey == old(survey)
      ensures cells - {cap} == old(cells) - {cap}
      ensures u.state == "done" ==> cap in cells && cells[cap] == C.Filled(u.cells)
      ensures u.state == "failed" ==> cap in cells && cells[cap] == C.Errored
      ensures u.state != "done" && u.state != "failed" ==> View() == old(View())
    {
      if u.state == "done" {
        cells := cells[cap := C.Filled(u.cells)];
      } else if u.state == "failed" {
        cells := cells[cap := C.Errored];
      }
    }

    /** The distinct capabilities that fill columns. */
    method FromColumns() returns (caps: seq<string>)
      ensures caps == C.Froms(columns)
    {
      caps := [];
      for i := 0 to |columns|
        invariant caps == C.Froms(columns[..i])
      {
        assert columns[..i + 1][..i] == columns[..i];
        if columns[i] != "" && columns[i] !in caps {
          caps := caps + [columns[i]];
        }
      }
      assert columns[..|columns|] == columns;
    }

    method MarkPending(caps: seq<string>)
      modifies this
      ensures View() == C.Marked(old(View()), caps)
      ensures loading == old(loading) && err == old(err) && survey == old(survey)
      ensures forall c :: c in cells <==> c in old(cells) || c in caps
      ensures forall c :: c in cells ==> cells[c] == if c in caps then C.Pending else old(cells)[c]
    {
      ghost var was := cells;
      for i := 0 to |caps|
        invariant loading == old(loading) && err == old(err) && survey == old(survey)
        invariant cells.Keys == was.Keys + set k | k in caps[..i]
        invariant forall c :: c in cells ==> cells[c] == if c in caps[..i] then C.Pending else was[c]
      {
        assert caps[..i + 1] == caps[..i] + [caps[i]];
        cells := cells[caps[i] := C.Pending];
      }
      assert caps[..|caps|] == caps;
    }
  }

  class Orchestrator {
    var known: map<string, Mod>
    var cellKnown: map<string, C.Target<Mod>>
    var parked: map<string, seq<C.Update>>
    var order: seq<string>
    /** The cell fills requested, oldest first. */
    var fired: seq<C.Target<Mod>>

    constructor ()
      ensures Contents() == C.Desk(map[], map[], map[], []) && fired == [] && Contents().Valid()
    {
      known, cellKnown, parked, order, fired := map[], map[], map[], [], [];
    }

    function Contents(): C.Desk<Mod>
      reads this
    {
      C.Desk(known, cellKnown, parked, order)
    }

    // ---------------------------------------------------- the parking area

    method Park(token: string, u: C.Update)
      requires Contents().Valid()
      modifies this
      ensures Contents() == C.Park(old(Contents()), token, u) && fired == old(fired)
      ensures token in parked && known == old(known) && cellKnown == old(cellKnown)
      ensures token in old(parked) ==> parked == old(parked)[token := old(parked)[token] + [u]] && order == old(order)
      ensures token !in old(parked) ==> parked[token] == [u] && order[|order| - 1] == token
      ensures token !in old(parked) && |old(order)| < C.PARKED_CAP ==>
                parked == old(parked)[token := [u]] && order == old(order) + [token]
      ensures token !in old(parked) && |old(order)| == C.PARKED_CAP ==>
                parked == (old(parked) - {old(order)[0]})[token := [u]] && order == old(order)[1..] + [token]
    {
      if token !in parked {
        ghost var was, first := order, parked;
        order := order + [token];
        while |order| > C.PARKED_CAP
          invariant known == old(known) && cellKnown == old(cellKnown) && fired == old(fired)
          invariant || (order == was + [token] && parked == first)
                    || (|was| == C.PARKED_CAP && order == was[1..] + [token] && parked == first - {was[0]})
        {
          var evict := order[0];
          order := order[1..];
          parked := parked - {evict};
        }
      }
      var waiting := if token in parked then parked[token] else [];
      assert token !in old(parked) ==> waiting + [u] == [u];
      parked := parked[token := waiting + [u]];
    }

    method Unpark(token: string)
      modifies this
      ensures Contents() == C.Unpark(old(Contents()), token) && fired == old(fired)
      ensures parked == old(parked) - {token} && known == old(known) && cellKnown == old(cellKnown)
    {
      parked := parked - {token};
      for i := 0 to |order|
        invariant order == old(order) && token !in order[..i]
        invariant Contents() == old(Contents()).(parked := old(parked) - {token}) && fired == old(fired)
      {
        if order[i] == token {
          WithoutAt(order, token, i);
          order := order[..i] + order[i + 1..];
          return;
        }
        assert order[..i + 1] == order[..i] + [order[i]];
      }
      assert order[..|order|] == order;
      WithoutAbsent(order, token);
    }

    // ------------------------------------------------------- the surveys

    /** Requests the cells of a cleanly resolved survey. */
    method AfterSurvey(mod: Mod)
      modifies this, mod
      ensures Contents() == old(Contents())
      ensures mod.View() == C.Requested(old(mod.View()), C.Froms(mod.columns))
      ensures fired == old(fired) + C.Requests(old(mod.View()), mod, C.Froms(mod.columns))
      ensures var caps := C.Froms(mod.columns);
              if old(mod.loading || mod.err != "" || mod.survey.subjects == []) then unchanged(mod, this)
              else
                && fired == old(fired) + seq(|caps|, i requires 0 <= i < |caps| => C.Target(mod, caps[i]))
                && mod.loading == old(mod.loading) && mod.err == old(mod.err) && mod.survey == old(mod.survey)
                && (forall c :: c in mod.cells <==> c in old(mod.cells) || c in caps)
                && forall c :: c in mod.cells ==>
                     mod.cells[c] == if c in caps then C.Pending else old(mod.cells)[c]
    {
      if mod.loading || mod.err != "" || |mod.survey.subjects| == 0 {
        return;
      }
      var caps := mod.FromColumns();
      if |caps| == 0 {
        return;
      }
      mod.MarkPending(caps);
      for i := 0 to |caps|
        invariant Contents() == old(Contents()) && mod.View() == C.Marked(old(mod.View()), caps)
        invariant fired == old(fired) + C.Targets(mod, caps[..i])
      {
        fired := fired + [C.Target(mod, caps[i])];
        assert C.Targets(mod, caps[..i + 1]) == C.Targets(mod, caps[..i]) + [C.Target(mod, caps[i])];
      }
      assert caps[..|caps|] == caps;
    }

    /** A survey's outcome that is no acceptance. */
    method ApplyLoad(mod: Mod, result: C.Result)
      modifies this, mod
      ensures Contents() == old(Contents())
      ensures var v := C.Projected(old(mod.View()), result);
              && mod.View() == C.Requested(v, C.Froms(mod.columns))
              && fired == old(fired) + C.Requests(v, mod, C.Froms(mod.columns))
    {
      mod.Project(result);
      AfterSurvey(mod);
    }

    /** A survey's acceptance: the token becomes known and what waited is replayed. */
    method AcceptLoad(token: string, mod: Mod)
      requires Contents().Valid()
      modifies this, mod
      ensures Contents() == C.Register(old(Contents()), token, mod) && Contents().Valid()
      ensures var v := C.Replayed(old(mod.View()), old(Contents()).ParkedFor(token));
              && mod.View() == C.Requested(v, C.Froms(mod.columns))
              && fired == old(fired) + C.Requests(v, mod, C.Froms(mod.columns))
    {
      C.DeskKept(Contents(), token, C.Update("", C.Survey([], ""), "", None), mod, C.Target(mod, ""));
      Register(token, mod);
      AfterSurvey(mod);
    }

    method Register(token: string, mod: Mod)
      modifies this, mod
      ensures Contents() == C.Register(old(Contents()), token, mod) && fired == old(fired)
      ensures mod.View() == C.Replayed(old(mod.View()), old(Contents()).ParkedFor(token))
    {
      ghost var was := known;
      known := known[token := mod];
      var us := if token in parked then parked[token] else [];
      for i := 0 to |us|
        invariant parked == old(parked) && order == old(order) && cellKnown == old(cellKnown) && fired == old(fired)
        invariant mod.View() == C.Replayed(old(mod.View()), us[..i])
        invariant known == if C.HasTerminal(us[..i]) then was - {token} else was[token := mod]
      {
        assert us[..i + 1][..i] == us[..i];
        TerminalSoFar(us, i);
        mod.Apply(us[i]);
        if us[i].Terminal() {
          known := known - {token};
        }
      }
      assert us[..|us|] == us;
      Unpark(token);
    }

    // ---------------------------------------------------------- the cells

    /** A cell fill's outcome that is no acceptance; None is an error. */
    method ApplyCellLoad(mod: Mod, cap: string, rows: Option<string>)
      modifies mod
      ensures mod.View() == C.CellSet(old(mod.View()), cap, rows)
      ensures mod.loading == old(mod.loading) && mod.err == old(mod.err) && mod.survey == old(mod.survey)
      ensures mod.cells - {cap} == old(mod.cells) - {cap} && cap in mod.cells
      ensures mod.cells[cap] == if rows.Some? then C.Filled(rows.value) else C.Errored
    {
      mod.cells := mod.cells[cap := if rows.Some? then C.Filled(rows.value) else C.Errored];
    }

    method RegisterCell(token: string, target: C.Target<Mod>)
      modifies this, target.mod
      ensures Contents() == C.RegisterCell(old(Contents()), token, target) && fired == old(fired)
      ensures target.mod.View() ==
              C.CellReplayed(old(target.mod.View()), target.cap, old(Contents()).ParkedFor(token))
    {
      ghost var was := cellKnown;
      cellKnown := cellKnown[token := target];
      var us := if token in parked then parked[token] else [];
      for i := 0 to |us|
        invariant parked == old(parked) && order == old(order) && known == old(known) && fired == old(fired)
        invariant target.mod.View() == C.CellReplayed(old(target.mod.View()), target.cap, us[..i])
        invariant cellKnown == if C.HasTerminal(us[..i]) then was - {token} else was[token := target]
      {
        assert us[..i + 1][..i] == us[..i];
        TerminalSoFar(us, i);
        target.mod.ApplyCell(target.cap, us[i]);
        if us[i].Terminal() {
          cellKnown := cellKnown - {token};
        }
      }
      assert us[..|us|] == us;
      Unpark(token);
    }

    // ------------------------------------------------- the pushed stream

    ghost function Mods(): set<Mod>
      reads this
    {
      known.Values + set t | t in cellKnown :: cellKnown[t].mod
    }

    /** The single sink of pushed updates: apply to whom it is known for, or park. */
    method Ingest(token: string, u: C.Update)
      requires Contents().Valid()
      modifies this, Mods()
      ensures Contents() == C.Ingest(old(Contents()), token, u) && Contents().Valid()
      ensures token in old(known) ==>
                var m := old(known)[token];
                var v := C.Applied(old(m.View()), u);
                if u.Terminal() then
                  && m.View() == C.Requested(v, C.Froms(m.columns))
                  && fired == old(fired) + C.Requests(v, m, C.Froms(m.columns))
                else m.View() == v && fired == old(fired)
      ensures token !in old(known) && token in old(cellKnown) ==>
                var target := old(cellKnown)[token];
                target.mod.View() == C.CellApplied(old(target.mod.View()), target.cap, u) && fired == old(fired)
      ensures known == if token in old(known) && (u.state == "done" || u.state == "failed") then old(known) - {token}
                       else old(known)
      ensures cellKnown ==
              if token !in old(known) && token in old(cellKnown) && (u.state == "done" || u.state == "failed")
              then old(cellKnown) - {token} else old(cellKnown)
      ensures token in old(known) || token in old(cellKnown) ==> parked == old(parked) && order == old(order)
      ensures token !in old(known) && token !in old(cellKnown) ==> fired == old(fired)
      ensures forall m :: m in old(Mods()) ==>
                || (token in old(known) && m == old(known)[token])
                || (token in old(cellKnown) && m == old(cellKnown)[token].mod)
                || m.View() == old(m.View())
    {
      C.IngestKept(Contents(), token, u);
      if token in known {
        var mod := known[token];
        mod.Apply(u);
        if u.Terminal() {
          known := known - {token};
          AfterSurvey(mod);
        }
      } else if token in cellKnown {
        var target := cellKnown[token];
        target.mod.ApplyCell(target.cap, u);
        if u.Terminal() {
          cellKnown := cellKnown - {token};
        }
      } else {
        Park(token, u);
      }
    }

    /** A fresh load supersedes every correlation of its mod. */
    method BeginLoad(mod: Mod)
      requires Contents().Valid()
      modifies this, mod
      ensures Contents() == C.Forget(old(Contents()), mod) && Contents().Valid() && fired == old(fired)
      ensures mod.View() == C.Reset(old(mod.View()))
      ensures mod.loading && mod.err == old(mod.err) && mod.cells == map[]
      ensures mod.survey.subjects == [] && mod.survey.rest == old(mod.survey.rest)
    {
      C.DeskKept(Contents(), "", C.Update("", C.Survey([], ""), "", None), mod, C.Target(mod, ""));
      Forget(mod);
      mod.loading, mod.survey, mod.cells := true, mod.survey.(subjects := []), map[];
    }

    method Forget(mod: Mod)
      modifies this
      ensures Contents() == C.Forget(old(Contents()), mod) && fired == old(fired)
      ensures forall t :: t in known <==> t in old(known) && old(known)[t] != mod
      ensures forall t :: t in known ==> known[t] == old(known)[t]
      ensures forall t :: t in cellKnown <==> t in old(cellKnown) && old(cellKnown)[t].mod != mod
      ensures forall t :: t in cellKnown ==> cellKnown[t] == old(cellKnown)[t]
      ensures parked == old(parked) && order == old(order)
    {
      var todo := known.Keys;
      while todo != {}
        invariant todo <= known.Keys <= old(known).Keys && fired == old(fired)
        invariant cellKnown == old(cellKnown) && parked == old(parked) && order == old(order)
        invariant forall t :: t in old(known) ==>
          (t in known <==> t in todo || old(known)[t] != mod) && (t in known ==> known[t] == old(known)[t])
        decreases todo
      {
        var t :| t in todo;
        todo := todo - {t};
        if known[t] == mod {
          known := known - {t};
        }
      }
      assert known == C.Forget(old(Contents()), mod).known;
      var cells := cellKnown.Keys;
      while cells != {}
        invariant cells <= cellKnown.Keys <= old(cellKnown).Keys && fired == old(fired)
        invariant known == C.Forget(old(Contents()), mod).known && parked == old(parked) && order == old(order)
        invariant forall t :: t in old(cellKnown) ==>
          && (t in cellKnown <==> t in cells || old(cellKnown)[t].mod != mod)
          && (t in cellKnown ==> cellKnown[t] == old(cellKnown)[t])
        decreases cells
      {
        var t :| t in cells;
        cells := cells - {t};
        if cellKnown[t].mod == mod {
          cellKnown := cellKnown - {t};
        }
      }
      assert cellKnown == C.Forget(old(Contents()), mod).cellKnown;
    }
  }

  lemma {:induction false} WithoutAbsent(order: seq<string>, t: string)
    requires t !in order
    ensures C.Without(order, t) == order
  {
    if order != [] {
      WithoutAbsent(order[1..], t);
    }
  }

  lemma {:induction false} WithoutAt(order: seq<string>, t: string, i: nat)
    requires i < |order| && order[i] == t && t !in order[..i]
    ensures C.Without(order, t) == order[..i] + order[i + 1..]
  {
    if i > 0 {
      assert order[0] in order[..i];
      assert forall x :: x in order[1..][..i - 1] ==> x in order[..i];
      WithoutAt(order[1..], t, i - 1);
    }
  }

  lemma TerminalSoFar(us: seq<C.Update>, i: nat)
    requires i < |us|
    ensures C.HasTerminal(us[..i + 1]) <==> C.HasTerminal(us[..i]) || us[i].Terminal()
  {
    if C.HasTerminal(us[..i]) {
      var k :| 0 <= k < i && us[..i][k].Terminal();
      assert us[..i + 1][k].Terminal();
    }
    assert us[..i + 1][i] == us[i];
    if C.HasTerminal(us[..i + 1]) && !us[i].Terminal() {
      var k :| 0 <= k < i + 1 && us[..i + 1][k].Terminal();
      assert us[..i][k].Terminal();
    }
  }
}
