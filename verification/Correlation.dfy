/**
 The face learns a load's job token only when the load is accepted, while updates on
 that token may already have been pushed.  Updates with no known token are parked and
 replayed on the accept.  This module gives the correlation as functions on values,
 and proves that what the face ends up showing does not depend on the arrival order.
 */
module Correlation {
  import opened Wrappers

  const PARKED_CAP: nat := 64

  /** A decoded survey: its rows, and everything else the page takes from it. */
  datatype Survey = Survey(subjects: seq<string>, rest: string)

  /** A pushed report; `survey` and `cells` are what its output decodes to. */
  datatype Update = Update(state: string, survey: Survey, cells: string, err: Option<string>) {
    predicate Terminal() {
      state == "done" || state == "failed"
    }
  }

  datatype Cell = Pending | Filled(rows: string) | Errored

  /** What a mod's page shows; `cells` by the capability that fills the column. */
  datatype View = View(loading: bool, err: string, survey: Survey, cells: map<string, Cell>) {
    /** The survey part of the page. */
    function Face(): View {
      this.(cells := map[])
    }

    /** A survey resolved cleanly, with rows to fill. */
    predicate Fillable() {
      !loading && err == "" && survey.subjects != []
    }
  }

  const BLANK := View(false, "", Survey([], ""), map[])

  /** The mod and column that a cell fill was fired for. */
  datatype Target<M> = Target(mod: M, cap: string)

  /** The correlation in flight. */
  datatype Desk<M> = Desk(known: map<string, M>, cellKnown: map<string, Target<M>>,
                          parked: map<string, seq<Update>>, order: seq<string>) {
    /** The order lists the parked tokens, each once, and no more than the cap; no
        known token is parked. */
    ghost predicate Valid() {
      && (forall i, k :: 0 <= i < k < |order| ==> order[i] != order[k])
      && (forall t :: t in order <==> t in parked)
      && |order| <= PARKED_CAP
      && (forall t :: t in parked ==> t !in known && t !in cellKnown)
    }

    function ParkedFor(t: string): seq<Update> {
      if t in parked then parked[t] else []
    }
  }

  // ------------------------------------------------------------- the folds

  function Applied(v: View, u: Update): View {
    if u.state == "done" then View(false, "", u.survey, map[])
    else if u.state == "failed" then v.(loading := false, err := if u.err.Some? then u.err.value else "job failed")
    else v
  }

  function Replayed(v: View, us: seq<Update>): View {
    if us == [] then v else Applied(Replayed(v, us[..|us| - 1]), us[|us| - 1])
  }

  predicate EndsAt(us: seq<Update>, k: nat)
    requires k < |us|
  {
    us[k].state == "done" || us[k].state == "failed"
  }

  predicate LastEnd(us: seq<Update>, k: nat) {
    k < |us| && EndsAt(us, k) && forall i :: k < i < |us| ==> !EndsAt(us, i)
  }

  /** What a replay leaves on the page, field by field: its last end decides. */
  lemma {:induction false} ReplayShows(v: View, us: seq<Update>, k: nat)
    requires LastEnd(us, k)
    ensures var w := Replayed(v, us);
            && !w.loading
            && (us[k].state == "done" ==> w.err == "" && w.survey == us[k].survey && w.cells == map[])
            && (us[k].state == "failed" ==> w.err == if us[k].err.Some? then us[k].err.value else "job failed")
  {
    var n := |us| - 1;
    if k < n {
      assert forall i :: 0 <= i < n ==> (EndsAt(us[..n], i) <==> EndsAt(us, i));
      ReplayShows(v, us[..n], k);
      assert !EndsAt(us, n);
    }
  }

  /** The rows of a replay are its last survey's, which no failure takes away. */
  lemma {:induction false} ReplayRows(v: View, us: seq<Update>, k: nat)
    requires k < |us| && us[k].state == "done" && forall i :: k < i < |us| ==> us[i].state != "done"
    ensures Replayed(v, us).survey == us[k].survey && Replayed(v, us).cells == map[]
  {
    if k < |us| - 1 {
      ReplayRows(v, us[..|us| - 1], k);
    }
  }

  /** Without a survey a replay leaves the rows, and without an end all of the page. */
  lemma {:induction false} ReplayKeeps(v: View, us: seq<Update>)
    requires forall i :: 0 <= i < |us| ==> us[i].state != "done"
    ensures Replayed(v, us).survey == v.survey && Replayed(v, us).cells == v.cells
    ensures (forall i :: 0 <= i < |us| ==> us[i].state != "failed") ==> Replayed(v, us) == v
  {
    if us != [] {
      ReplayKeeps(v, us[..|us| - 1]);
    }
  }

  function CellApplied(v: View, cap: string, u: Update): View {
    if u.state == "done" then v.(cells := v.cells[cap := Filled(u.cells)])
    else if u.state == "failed" then v.(cells := v.cells[cap := Errored])
    else v
  }

  function CellReplayed(v: View, cap: string, us: seq<Update>): View {
    if us == [] then v else CellApplied(CellReplayed(v, cap, us[..|us| - 1]), cap, us[|us| - 1])
  }

  /** A replay to a column leaves all else. */
  lemma {:induction false} CellReplayKeeps(v: View, cap: string, us: seq<Update>)
    ensures var w := CellReplayed(v, cap, us);
            && w.loading == v.loading && w.err == v.err && w.survey == v.survey
            && w.cells - {cap} == v.cells - {cap}
            && ((forall i :: 0 <= i < |us| ==> !EndsAt(us, i)) ==> w == v)
  {
    if us != [] {
      var before := us[..|us| - 1];
      assert forall i :: 0 <= i < |before| ==> (EndsAt(before, i) <==> EndsAt(us, i));
      CellReplayKeeps(v, cap, before);
      CellAppliedKeeps(CellReplayed(v, cap, before), cap, us[|us| - 1]);
      assert (forall i :: 0 <= i < |us| ==> !EndsAt(us, i)) ==> !EndsAt(us, |us| - 1);
    }
  }

  lemma CellAppliedKeeps(v: View, cap: string, u: Update)
    ensures var w := CellApplied(v, cap, u);
            && w.loading == v.loading && w.err == v.err && w.survey == v.survey
            && w.cells - {cap} == v.cells - {cap}
            && (u.state != "done" && u.state != "failed" ==> w == v)
  {
  }

  /** The column itself shows what the last end says. */
  lemma {:induction false} CellReplayShows(v: View, cap: string, us: seq<Update>, k: nat)
    requires LastEnd(us, k)
    ensures var w := CellReplayed(v, cap, us);
            cap in w.cells && w.cells[cap] == if us[k].state == "done" then Filled(us[k].cells) else Errored
  {
    var n := |us| - 1;
    if k < n {
      assert forall i :: 0 <= i < n ==> (EndsAt(us[..n], i) <==> EndsAt(us, i));
      CellReplayShows(v, cap, us[..n], k);
      assert !EndsAt(us, n);
    }
  }

  /** An inline fill paints its column, an error (None) marks it. */
  function CellSet(v: View, cap: string, rows: Option<string>): View {
    v.(cells := v.cells[cap := if rows.Some? then Filled(rows.value) else Errored])
  }

  /** The page as a fresh load leaves it until its survey resolves. */
  function Reset(v: View): View {
    v.(loading := true, survey := v.survey.(subjects := []), cells := map[])
  }

  function Projected(v: View, result: Result): View {
    match result
    case Loaded(survey) => View(false, "", survey, map[])
    case LoadFailed(err) => v.(loading := false, err := err)
  }

  datatype Result = Loaded(survey: Survey) | LoadFailed(err: string)

  predicate HasTerminal(us: seq<Update>) {
    exists i :: 0 <= i < |us| && us[i].Terminal()
  }

  /** The distinct capabilities that fill columns, in the order they first appear. */
  function Froms(columns: seq<string>): seq<string> {
    if columns == [] then []
    else
      var before, last := Froms(columns[..|columns| - 1]), columns[|columns| - 1];
      if last == "" || last in before then before else before + [last]
  }

  lemma {:induction false} FromsExact(columns: seq<string>)
    ensures forall c :: c in Froms(columns) <==> c != "" && c in columns
    ensures forall i, k :: 0 <= i < k < |Froms(columns)| ==> Froms(columns)[i] != Froms(columns)[k]
  {
    if columns != [] {
      FromsExact(columns[..|columns| - 1]);
      assert columns == columns[..|columns| - 1] + [columns[|columns| - 1]];
    }
  }

  /** They come in the order of their first columns. */
  lemma {:induction false} FromsInOrder(columns: seq<string>, i: nat, k: nat) returns (at: nat)
    requires i < k < |Froms(columns)|
    ensures at < |columns| && columns[at] == Froms(columns)[i] && Froms(columns)[k] !in columns[..at + 1]
  {
    var n := |columns| - 1;
    var before := Froms(columns[..n]);
    if k < |before| {
      at := FromsInOrder(columns[..n], i, k);
      assert columns[..n][..at + 1] == columns[..at + 1];
    } else {
      FromsExact(columns[..n]);
      assert before[i] in columns[..n];
      at :| 0 <= at < n && columns[at] == before[i];
      assert forall c :: c in columns[..at + 1] ==> c in columns[..n];
    }
  }

  function Marked(v: View, caps: seq<string>): View {
    v.(cells := map c | c in v.cells.Keys + (set k | k in caps) :: if c in caps then Pending else v.cells[c])
  }

  // ------------------------------------------------------ the desk's changes

  function Without(order: seq<string>, t: string): seq<string> {
    if order == [] then []
    else if order[0] == t then order[1..]
    else [order[0]] + Without(order[1..], t)
  }

  /** An unclaimed update joins its token; a new token may push out the oldest. */
  function Park<M>(d: Desk<M>, t: string, u: Update): Desk<M> {
    if t in d.parked then d.(parked := d.parked[t := d.parked[t] + [u]])
    else if |d.order| < PARKED_CAP then d.(order := d.order + [t], parked := d.parked[t := [u]])
    else d.(order := d.order[1..] + [t], parked := (d.parked - {d.order[0]})[t := [u]])
  }

  function Unpark<M>(d: Desk<M>, t: string): Desk<M> {
    d.(parked := d.parked - {t}, order := Without(d.order, t))
  }

  function Register<M>(d: Desk<M>, t: string, m: M): Desk<M> {
    Unpark(d.(known := if HasTerminal(d.ParkedFor(t)) then d.known - {t} else d.known[t := m]), t)
  }

  function RegisterCell<M>(d: Desk<M>, t: string, target: Target<M>): Desk<M> {
    Unpark(d.(cellKnown := if HasTerminal(d.ParkedFor(t)) then d.cellKnown - {t} else d.cellKnown[t := target]), t)
  }

  /** Registering makes the token known unless an end waited for it, and takes only its
      own updates from the parking. */
  lemma RegisterTells<M>(d: Desk<M>, t: string, m: M)
    ensures var d' := Register(d, t, m);
            && d'.known - {t} == d.known - {t} && d'.cellKnown == d.cellKnown && d'.parked == d.parked - {t}
            && (t in d'.known ==> d'.known[t] == m)
            && (t in d'.known <==>
                  t !in d.parked || forall u :: u in d.parked[t] ==> u.state != "done" && u.state != "failed")
  {
    TerminalStates(d.ParkedFor(t));
  }

  lemma RegisterCellTells<M>(d: Desk<M>, t: string, target: Target<M>)
    ensures var d' := RegisterCell(d, t, target);
            && d'.cellKnown - {t} == d.cellKnown - {t} && d'.known == d.known && d'.parked == d.parked - {t}
            && (t in d'.cellKnown ==> d'.cellKnown[t] == target)
            && (t in d'.cellKnown <==>
                  t !in d.parked || forall u :: u in d.parked[t] ==> u.state != "done" && u.state != "failed")
  {
    TerminalStates(d.ParkedFor(t));
  }

  lemma TerminalStates(us: seq<Update>)
    ensures !HasTerminal(us) <==> forall u :: u in us ==> u.state != "done" && u.state != "failed"
  {
    if u :| u in us && u.Terminal() {
      var i :| 0 <= i < |us| && us[i] == u;
      assert us[i].Terminal();
    }
  }

  ghost function Forget<M>(d: Desk<M>, m: M): Desk<M> {
    d.(known := map t | t in d.known && d.known[t] != m :: d.known[t],
       cellKnown := map t | t in d.cellKnown && d.cellKnown[t].mod != m :: d.cellKnown[t])
  }

  function Ingest<M>(d: Desk<M>, t: string, u: Update): Desk<M> {
    if t in d.known then (if u.Terminal() then d.(known := d.known - {t}) else d)
    else if t in d.cellKnown then (if u.Terminal() then d.(cellKnown := d.cellKnown - {t}) else d)
    else Park(d, t, u)
  }

  lemma {:induction false} WithoutMembers(order: seq<string>, t: string)
    requires forall i, k :: 0 <= i < k < |order| ==> order[i] != order[k]
    ensures forall x :: x in Without(order, t) <==> x in order && x != t
    ensures forall i, k :: 0 <= i < k < |Without(order, t)| ==> Without(order, t)[i] != Without(order, t)[k]
    ensures |Without(order, t)| <= |order|
  {
    if order != [] {
      WithoutMembers(order[1..], t);
      assert order == [order[0]] + order[1..];
      assert order[0] !in order[1..];
    }
  }

  lemma ParkKept<M>(d: Desk<M>, t: string, u: Update)
    requires d.Valid() && t !in d.known && t !in d.cellKnown
    ensures Park(d, t, u).Valid()
  {
    if t !in d.parked && |d.order| >= PARKED_CAP {
      var first, rest := d.order[0], d.order[1..];
      assert d.order == [first] + rest;
      assert forall x :: x in rest <==> x in d.parked && x != first;
    }
  }

  lemma IngestKept<M>(d: Desk<M>, t: string, u: Update)
    requires d.Valid()
    ensures Ingest(d, t, u).Valid()
  {
    if t !in d.known && t !in d.cellKnown {
      ParkKept(d, t, u);
    }
  }

  /** Every change keeps the desk in order. */
  lemma DeskKept<M>(d: Desk<M>, t: string, u: Update, m: M, target: Target<M>)
    requires d.Valid()
    ensures Ingest(d, t, u).Valid()
    ensures Register(d, t, m).Valid() && RegisterCell(d, t, target).Valid()
    ensures Forget(d, m).Valid()
  {
    IngestKept(d, t, u);
    UnparkKept(d, t);
  }

  lemma UnparkKept<M>(d: Desk<M>, t: string)
    requires d.Valid()
    ensures Unpark(d, t).Valid()
    ensures forall x :: x in Unpark(d, t).parked <==> x in d.parked && x != t
  {
    WithoutMembers(d.order, t);
  }

  /** A parked token is lost exactly when it is the oldest at the cap and a token not
      yet parked is pushed for which nobody waits. */
  lemma EvictedIff<M>(d: Desk<M>, t: string, u: Update, first: string)
    requires d.Valid() && first in d.parked
    ensures first !in Ingest(d, t, u).parked <==>
            && t !in d.known && t !in d.cellKnown && t !in d.parked
            && |d.order| == PARKED_CAP && d.order[0] == first
  {
  }

  // ------------------------------------------------------------- whole runs

  /** Everything the face reacts to. */
  datatype Event =
    | Begin(mod: nat)
    | Inline(mod: nat, result: Result)
    | Accept(token: string, mod: nat)
    | Pushed(token: string, update: Update)
    | CellAccept(token: string, mod: nat, cap: string)
    | CellInline(mod: nat, cap: string, rows: Option<string>)

  /** Mods are numbered; `fired` logs the cell fills requested, oldest first. */
  datatype Sys = Sys(columns: map<nat, seq<string>>, desk: Desk<nat>, views: map<nat, View>, fired: seq<Target<nat>>)

  function ViewOf(s: Sys, m: nat): View {
    if m in s.views then s.views[m] else BLANK
  }

  function FromsOf(s: Sys, m: nat): seq<string> {
    if m in s.columns then Froms(s.columns[m]) else []
  }

  function Targets<M>(m: M, caps: seq<string>): seq<Target<M>> {
    seq(|caps|, i requires 0 <= i < |caps| => Target(m, caps[i]))
  }

  /** A clean survey's view once its cells were requested. */
  function Requested(v: View, caps: seq<string>): View {
    if v.Fillable() && caps != [] then Marked(v, caps) else v
  }

  /** The fills requested for it: one for each capability, none unless it is clean. */
  function Requests<M>(v: View, m: M, caps: seq<string>): seq<Target<M>> {
    if v.Fillable() then Targets(m, caps) else []
  }

  function AfterSurvey(s: Sys, m: nat): Sys {
    var v, caps := ViewOf(s, m), FromsOf(s, m);
    s.(views := s.views[m := Requested(v, caps)], fired := s.fired + Requests(v, m, caps))
  }

  function Painted(s: Sys, m: nat, v: View): Sys {
    s.(views := s.views[m := v])
  }

  ghost function Apply(s: Sys, e: Event): Sys {
    match e
    case Begin(m) =>
      Painted(s.(desk := Forget(s.desk, m)), m, Reset(ViewOf(s, m)))
    case Inline(m, result) => AfterSurvey(Painted(s, m, Projected(ViewOf(s, m), result)), m)
    case Accept(t, m) =>
      AfterSurvey(Painted(s.(desk := Register(s.desk, t, m)), m, Replayed(ViewOf(s, m), s.desk.ParkedFor(t))), m)
    case Pushed(t, u) =>
      var s' := s.(desk := Ingest(s.desk, t, u));
      if t in s.desk.known then
        var m := s.desk.known[t];
        var p := Painted(s', m, Applied(ViewOf(s, m), u));
        if u.Terminal() then AfterSurvey(p, m) else p
      else if t in s.desk.cellKnown then
        var target := s.desk.cellKnown[t];
        Painted(s', target.mod, CellApplied(ViewOf(s, target.mod), target.cap, u))
      else s'
    case CellAccept(t, m, cap) =>
      Painted(s.(desk := RegisterCell(s.desk, t, Target(m, cap))), m,
              CellReplayed(ViewOf(s, m), cap, s.desk.ParkedFor(t)))
    case CellInline(m, cap, rows) => Painted(s, m, CellSet(ViewOf(s, m), cap, rows))
  }

  ghost function Run(s: Sys, es: seq<Event>): Sys {
    if es == [] then s else Apply(Run(s, es[..|es| - 1]), es[|es| - 1])
  }

  function UpdatesOf(es: seq<Event>, t: string): seq<Update> {
    if es == [] then []
    else
      var before, e := UpdatesOf(es[..|es| - 1], t), es[|es| - 1];
      if e.Pushed? && e.token == t then before + [e.update] else before
  }

  function FiredFor(fired: seq<Target<nat>>, m: nat): seq<Target<nat>> {
    if fired == [] then []
    else
      var before, last := FiredFor(fired[..|fired| - 1], m), fired[|fired| - 1];
      if last.mod == m then before + [last] else before
  }

  /** An event that neither carries the token nor repaints the mod's survey. */
  predicate Foreign(e: Event, t: string, m: nat) {
    match e
    case Begin(mod) => mod != m
    case Inline(mod, _) => mod != m
    case Accept(token, mod) => token != t && mod != m
    case Pushed(token, _) => token != t
    case CellAccept(token, _, _) => token != t
    case CellInline(_, _, _) => true
  }

  /** The load of `m` is accepted once, as `t`, and nothing supersedes it. */
  ghost predicate OneLoad(es: seq<Event>, t: string, m: nat) {
    && (forall i :: 0 <= i < |es| ==>
          Foreign(es[i], t, m) || (es[i].Pushed? && es[i].token == t) || es[i] == Accept(t, m))
    && (forall i, k :: 0 <= i < k < |es| ==> !(es[i] == Accept(t, m) && es[k] == Accept(t, m)))
  }

  /** Before: `m` is loading, no token is correlated to it, and `t` is new. */
  ghost predicate Starts(s: Sys, t: string, m: nat) {
    && s.desk.Valid() && ViewOf(s, m).loading
    && t !in s.desk.known && t !in s.desk.cellKnown && t !in s.desk.parked
    && forall k :: k in s.desk.known ==> s.desk.known[k] != m
  }

  /** A terminal update is the last of its token. */
  predicate EndsOnce(us: seq<Update>) {
    forall i :: 0 <= i < |us| - 1 ==> !us[i].Terminal()
  }

  predicate Ended(us: seq<Update>) {
    us != [] && us[|us| - 1].Terminal()
  }

  /** What the updates of a token make of the view it was accepted for. */
  function Outcome(v: View, us: seq<Update>): View {
    if Ended(us) then Applied(v, us[|us| - 1]) else v
  }

  lemma {:induction false} ReplayIsOutcome(v: View, us: seq<Update>)
    requires EndsOnce(us)
    ensures Replayed(v, us) == Outcome(v, us)
    ensures HasTerminal(us) <==> Ended(us)
  {
    if us != [] {
      var before := us[..|us| - 1];
      assert EndsOnce(before) && (before != [] ==> !before[|before| - 1].Terminal());
      ReplayIsOutcome(v, before);
    }
  }

  lemma {:induction false} FiredConcat(a: seq<Target<nat>>, b: seq<Target<nat>>, m: nat)
    ensures FiredFor(a + b, m) == FiredFor(a, m) + FiredFor(b, m)
  {
    if b == [] {
      assert a + b == a;
    } else {
      FiredConcat(a, b[..|b| - 1], m);
      assert (a + b)[..|a + b| - 1] == a + b[..|b| - 1];
    }
  }

  lemma {:induction false} FiredTargets(m: nat, k: nat, caps: seq<string>)
    ensures FiredFor(Targets(k, caps), m) == if k == m then Targets(k, caps) else []
  {
    if caps != [] {
      var n := |caps| - 1;
      FiredTargets(m, k, caps[..n]);
      assert Targets(k, caps)[..n] == Targets(k, caps[..n]);
    }
  }

  function Fills(s: Sys, m: nat, v: View): seq<Target<nat>> {
    Requests(v, m, FromsOf(s, m))
  }

  /** What requesting fills changes: only that mod's cells and that mod's requests. */
  lemma AfterSurveyFires(s: Sys, k: nat, m: nat)
    ensures var s' := AfterSurvey(s, k);
            && s'.desk == s.desk && s'.columns == s.columns
            && ViewOf(s', m).Face() == ViewOf(s, m).Face()
            && FiredFor(s'.fired, m) == FiredFor(s.fired, m) + (if k == m then Fills(s, m, ViewOf(s, m)) else [])
  {
    FiredConcat(s.fired, Requests(ViewOf(s, k), k, FromsOf(s, k)), m);
    FiredTargets(m, k, FromsOf(s, k));
  }

  // ------------------------------------------------------ who gets crowded out

  /** The event parks a token that was not parked. */
  predicate Parks(d: Desk<nat>, e: Event) {
    e.Pushed? && e.token !in d.known && e.token !in d.cellKnown && e.token !in d.parked
  }

  /** The tokens parked since `t` was, less those claimed by an accept. */
  ghost function Newcomers(s: Sys, es: seq<Event>, t: string): set<string> {
    if es == [] then {}
    else
      var n, d, e := Newcomers(s, es[..|es| - 1], t), Run(s, es[..|es| - 1]).desk, es[|es| - 1];
      match e
      case Pushed(x, _) => if !Parks(d, e) then n else if x == t then {} else n + {x}
      case Accept(x, _) => n - {x}
      case CellAccept(x, _, _) => n - {x}
      case _ => n
  }

  /** The tokens behind `t` in the parking order. */
  function After(order: seq<string>, t: string): seq<string> {
    if order == [] then []
    else if order[0] == t then order[1..]
    else After(order[1..], t)
  }

  function Behind(d: Desk<nat>, t: string): set<string> {
    set x | x in After(d.order, t)
  }

  lemma {:induction false} AfterAppend(order: seq<string>, x: string, t: string)
    requires t in order
    ensures After(order + [x], t) == After(order, t) + [x]
  {
    assert (order + [x])[1..] == order[1..] + [x];
    if order[0] != t {
      assert order == [order[0]] + order[1..];
      AfterAppend(order[1..], x, t);
    }
  }

  lemma {:induction false} AfterNew(order: seq<string>, t: string)
    requires t !in order
    ensures After(order + [t], t) == []
  {
    if order != [] {
      assert (order + [t])[1..] == order[1..] + [t];
      AfterNew(order[1..], t);
    }
  }

  lemma {:induction false} AfterWithout(order: seq<string>, x: string, t: string)
    requires t in order && x != t && forall i, k :: 0 <= i < k < |order| ==> order[i] != order[k]
    ensures (set y | y in After(Without(order, x), t)) == (set y | y in After(order, t)) - {x}
  {
    var rest := order[1..];
    assert order == [order[0]] + rest;
    if order[0] == x {
      AfterMembers(rest, t);
    } else if order[0] == t {
      WithoutMembers(rest, x);
    } else {
      AfterWithout(rest, x, t);
    }
  }

  lemma {:induction false} AfterMembers(order: seq<string>, t: string)
    ensures forall y :: y in After(order, t) ==> y in order
    ensures |After(order, t)| <= |order| && (t in order ==> |After(order, t)| < |order|)
    ensures t in order && order[0] != t ==> |After(order, t)| + 1 < |order|
  {
    if order != [] {
      AfterMembers(order[1..], t);
      assert order == [order[0]] + order[1..];
    }
  }

  lemma {:induction false} AfterDistinct(order: seq<string>, t: string)
    requires forall i, k :: 0 <= i < k < |order| ==> order[i] != order[k]
    ensures forall i, k :: 0 <= i < k < |After(order, t)| ==> After(order, t)[i] != After(order, t)[k]
  {
    if order != [] {
      AfterDistinct(order[1..], t);
    }
  }

  lemma {:induction false} DistinctCount(order: seq<string>)
    requires forall i, k :: 0 <= i < k < |order| ==> order[i] != order[k]
    ensures |set x | x in order| == |order|
  {
    if order != [] {
      var rest := order[1..];
      DistinctCount(rest);
      assert order == [order[0]] + rest && order[0] !in rest;
      assert (set x | x in order) == (set x | x in rest) + {order[0]};
    }
  }

  /** Those behind a parked token number less than the cap; they fill the area up to it
      just where the token is the oldest and the area full. */
  lemma BehindCount(d: Desk<nat>, t: string)
    requires d.Valid() && t in d.parked
    ensures |Behind(d, t)| == |After(d.order, t)| < PARKED_CAP
    ensures |Behind(d, t)| == PARKED_CAP - 1 <==> |d.order| == PARKED_CAP && d.order[0] == t
  {
    AfterDistinct(d.order, t);
    DistinctCount(After(d.order, t));
    AfterMembers(d.order, t);
  }

  lemma {:induction false} RunValid(s: Sys, es: seq<Event>)
    requires s.desk.Valid()
    ensures Run(s, es).desk.Valid()
  {
    if es != [] {
      RunValid(s, es[..|es| - 1]);
      DeskAfterKept(Run(s, es[..|es| - 1]).desk, es[|es| - 1]);
      ApplyDesk(Run(s, es[..|es| - 1]), es[|es| - 1]);
    }
  }

  lemma ApplyDesk(s: Sys, e: Event)
    ensures Apply(s, e).desk == DeskAfter(s.desk, e)
  {
  }

  /** No event claims `t`, save perhaps the last accept. */
  predicate Unclaimed(e: Event, t: string) {
    !(e.Accept? && e.token == t) && !(e.CellAccept? && e.token == t)
  }

  /** What one event does to those behind a parked token, and when it pushes it out. */
  lemma BehindStep(d: Desk<nat>, e: Event, t: string)
    requires d.Valid() && t in d.parked && Unclaimed(e, t)
    ensures var d' := DeskAfter(d, e);
            if Parks(d, e) then
              && (t in d'.parked <==> |Behind(d, t) + {e.token}| < PARKED_CAP)
              && (t in d'.parked ==> Behind(d', t) == Behind(d, t) + {e.token})
            else
              && t in d'.parked
              && Behind(d', t) == (if e.Accept? || e.CellAccept? then Behind(d, t) - {e.token} else Behind(d, t))
  {
    if Parks(d, e) {
      ParksBehind(d, e, t);
    } else if e.Accept? || e.CellAccept? {
      WithoutMembers(d.order, e.token);
      AfterWithout(d.order, e.token, t);
    }
  }

  lemma ParksBehind(d: Desk<nat>, e: Event, t: string)
    requires d.Valid() && t in d.parked && Parks(d, e)
    ensures var d' := DeskAfter(d, e);
            && (t in d'.parked <==> |Behind(d, t) + {e.token}| < PARKED_CAP)
            && (t in d'.parked ==> Behind(d', t) == Behind(d, t) + {e.token})
  {
    var x, d' := e.token, Park(d, e.token, e.update);
    assert DeskAfter(d, e) == d';
    assert |Behind(d, t) + {x}| == |Behind(d, t)| + 1 by {
      AfterMembers(d.order, t);
    }
    BehindCount(d, t);
    if |d.order| < PARKED_CAP {
      ParksWithRoom(d, x, e.update, t);
    } else if d.order[0] != t {
      ParksWhenFull(d, x, e.update, t);
    }
  }

  lemma ParksWithRoom(d: Desk<nat>, x: string, u: Update, t: string)
    requires d.Valid() && t in d.parked && x !in d.parked && |d.order| < PARKED_CAP
    ensures t in Park(d, x, u).parked && Behind(Park(d, x, u), t) == Behind(d, t) + {x}
    ensures |Behind(d, t)| < PARKED_CAP - 1
  {
    BehindCount(d, t);
    AfterAppend(d.order, x, t);
    assert After(Park(d, x, u).order, t) == After(d.order, t) + [x];
  }

  lemma ParksWhenFull(d: Desk<nat>, x: string, u: Update, t: string)
    requires d.Valid() && t in d.parked && x !in d.parked
    requires |d.order| == PARKED_CAP && d.order[0] != t
    ensures t in Park(d, x, u).parked && Behind(Park(d, x, u), t) == Behind(d, t) + {x}
  {
    assert d.order == [d.order[0]] + d.order[1..];
    AfterAppend(d.order[1..], x, t);
    assert After(Park(d, x, u).order, t) == After(d.order, t) + [x];
  }

  /** The newcomers are those behind the token, as long as it stays parked. */
  lemma {:induction false} NewcomersAreBehind(s: Sys, es: seq<Event>, t: string)
    requires s.desk.Valid() && t !in s.desk.parked
    requires forall i :: 0 <= i < |es| ==> Unclaimed(es[i], t)
    ensures t in Run(s, es).desk.parked ==> Newcomers(s, es, t) == Behind(Run(s, es).desk, t)
  {
    if es != [] {
      var before, e := es[..|es| - 1], es[|es| - 1];
      NewcomersAreBehind(s, before, t);
      RunValid(s, before);
      ApplyDesk(Run(s, before), e);
      var d := Run(s, before).desk;
      if t in d.parked {
        BehindStep(d, e, t);
      } else if e.Pushed? && e.token == t {
        ParkedLast(d, e.update, t);
      }
    }
  }

  lemma ParkedLast(d: Desk<nat>, u: Update, t: string)
    requires d.Valid() && t !in d.parked
    ensures t in Ingest(d, t, u).parked ==> Behind(Ingest(d, t, u), t) == {}
  {
    AfterNew(d.order, t);
    if d.order != [] {
      AfterNew(d.order[1..], t);
    }
  }

  /** Exactly when an event pushes a parked token out: with it the newcomers reach the
      cap. */
  lemma CrowdedOutIff(s: Sys, es: seq<Event>, e: Event, t: string)
    requires s.desk.Valid() && t !in s.desk.parked
    requires (forall i :: 0 <= i < |es| ==> Unclaimed(es[i], t)) && Unclaimed(e, t)
    requires t in Run(s, es).desk.parked
    ensures t in Run(s, es + [e]).desk.parked <==> |Newcomers(s, es + [e], t)| < PARKED_CAP
  {
    var d := Run(s, es).desk;
    assert (es + [e])[..|es|] == es;
    NewcomersAreBehind(s, es, t);
    RunValid(s, es);
    ApplyDesk(Run(s, es), e);
    BehindStep(d, e, t);
    BehindCount(d, t);
    assert |Behind(d, t) - {if e.Accept? || e.CellAccept? then e.token else t}| <= |Behind(d, t)|;
  }

  /** After the first `k` events the token is parked. */
  ghost predicate ParkedAt(s: Sys, es: seq<Event>, k: nat, t: string)
    requires k <= |es|
  {
    t in Run(s, es[..k]).desk.parked
  }

  /** After the first `k` events fewer newcomers than the cap are unclaimed. */
  ghost predicate FewAt(s: Sys, es: seq<Event>, k: nat, t: string)
    requires k <= |es|
  {
    |Newcomers(s, es[..k], t)| < PARKED_CAP
  }

  lemma StaysStep(s: Sys, es: seq<Event>, k: nat, t: string)
    requires s.desk.Valid() && t !in s.desk.parked && k < |es|
    requires forall j :: 0 <= j <= k ==> Unclaimed(es[j], t)
    requires ParkedAt(s, es, k, t)
    ensures ParkedAt(s, es, k + 1, t) <==> FewAt(s, es, k + 1, t)
  {
    assert es[..k + 1] == es[..k] + [es[k]];
    CrowdedOutIff(s, es[..k], es[k], t);
  }

  lemma ParkedIsFew(s: Sys, es: seq<Event>, t: string)
    requires s.desk.Valid() && t !in s.desk.parked
    requires forall j :: 0 <= j < |es| ==> Unclaimed(es[j], t)
    requires t in Run(s, es).desk.parked
    ensures |Newcomers(s, es, t)| < PARKED_CAP
  {
    NewcomersAreBehind(s, es, t);
    RunValid(s, es);
    BehindCount(Run(s, es).desk, t);
  }

  /** Two properties that agree as long as the first lasts hold throughout together. */
  lemma {:induction false} TogetherThroughout(p: nat -> bool, q: nat -> bool, i: nat, n: nat)
    requires i <= n && p(i) && q(i)
    requires forall k: nat :: i <= k < n && p(k) ==> (p(k + 1) <==> q(k + 1))
    ensures (forall k: nat :: i <= k <= n ==> p(k)) <==> (forall k: nat :: i <= k <= n ==> q(k))
  {
    if i < n {
      TogetherThroughout(p, q, i, n - 1);
      assert p(n - 1) ==> (p(n - 1 + 1) <==> q(n - 1 + 1));
    }
  }

  lemma StaysSteps(s: Sys, es: seq<Event>, i: nat, n: nat, t: string)
    requires s.desk.Valid() && t !in s.desk.parked && i <= n <= |es|
    requires forall j :: 0 <= j < n ==> Unclaimed(es[j], t)
    requires ParkedAt(s, es, i, t)
    ensures FewAt(s, es, i, t)
    ensures forall k: nat :: i <= k < n && ParkedAt(s, es, k, t) ==>
              (ParkedAt(s, es, k + 1, t) <==> FewAt(s, es, k + 1, t))
  {
    assert FewAt(s, es, i, t) by {
      ParkedIsFew(s, es[..i], t);
    }
    forall k: nat | i <= k < n && ParkedAt(s, es, k, t)
      ensures ParkedAt(s, es, k + 1, t) <==> FewAt(s, es, k + 1, t)
    {
      StaysStep(s, es, k, t);
    }
  }

  /** From its park on a token survives exactly as long as fewer newcomers than the cap
      have been parked behind it and not yet claimed. */
  lemma SurvivesWhileFew(s: Sys, es: seq<Event>, i: nat, n: nat, t: string)
    requires s.desk.Valid() && t !in s.desk.parked && i <= n <= |es|
    requires forall j :: 0 <= j < n ==> Unclaimed(es[j], t)
    requires ParkedAt(s, es, i, t)
    ensures (forall k: nat :: i <= k <= n ==> ParkedAt(s, es, k, t)) <==>
            (forall k: nat :: i <= k <= n ==> FewAt(s, es, k, t))
  {
    var p := (k: nat) => k <= |es| && ParkedAt(s, es, k, t);
    var q := (k: nat) => k <= |es| && FewAt(s, es, k, t);
    StaysSteps(s, es, i, n, t);
    TogetherThroughout(p, q, i, n);
    assert forall k: nat :: i <= k <= n ==> (p(k) <==> ParkedAt(s, es, k, t)) && (q(k) <==> FewAt(s, es, k, t));
  }

  /** Until the load is accepted, no crowd pushes its terminal update out: from that
      update on the newcomers stay below the cap. */
  ghost predicate Kept(s: Sys, es: seq<Event>, t: string, m: nat) {
    forall k {:trigger es[..k]} :: 0 <= k <= |es| ==> Uncrowded(s, es[..k], t, m)
  }

  /** If the token has ended and waits for its accept, its newcomers are few. */
  ghost predicate Uncrowded(s: Sys, es: seq<Event>, t: string, m: nat) {
    Accept(t, m) !in es && Ended(UpdatesOf(es, t)) ==> |Newcomers(s, es, t)| < PARKED_CAP
  }

  lemma KeptStep(s: Sys, es: seq<Event>, e: Event, t: string, m: nat)
    ensures Kept(s, es + [e], t, m) <==> Kept(s, es, t, m) && Uncrowded(s, es + [e], t, m)
  {
    var all := es + [e];
    forall k | 0 <= k <= |es| ensures Uncrowded(s, all[..k], t, m) <==> Uncrowded(s, es[..k], t, m) {
      assert all[..k] == es[..k];
    }
    assert all[..|all|] == all;
  }

  /** Without an end there is nothing to be lost. */
  lemma {:induction false} KeptBeforeEnd(s: Sys, es: seq<Event>, t: string, m: nat)
    requires EndsOnce(UpdatesOf(es, t)) && !Ended(UpdatesOf(es, t))
    ensures Kept(s, es, t, m)
  {
    if es != [] {
      var before, e := es[..|es| - 1], es[|es| - 1];
      assert es == before + [e];
      var us, all := UpdatesOf(before, t), UpdatesOf(es, t);
      if all != us {
        OutcomeGrows(BLANK, us, e.update);
      }
      KeptBeforeEnd(s, before, t, m);
      KeptStep(s, before, e, t, m);
    }
  }

  /** The updates that reach the mod: all, unless the end was crowded out. */
  ghost function Got(s: Sys, es: seq<Event>, t: string, m: nat): seq<Update> {
    if Kept(s, es, t, m) then UpdatesOf(es, t) else []
  }

  // ---------------------------------------------------- one load, tracked

  /** What is parked ends as what was got does; the rest was progress only. */
  predicate SameEnd(parked: seq<Update>, got: seq<Update>) {
    && EndsOnce(parked) && (Ended(parked) <==> Ended(got))
    && (Ended(parked) ==> parked[|parked| - 1] == got[|got| - 1])
  }

  /** Before the accept the updates wait; after it the token is known till its end. */
  ghost predicate DeskTracked(d: Desk<nat>, t: string, m: nat, got: seq<Update>, accepted: bool) {
    && d.Valid() && t !in d.cellKnown
    && (forall k :: k in d.known && k != t ==> d.known[k] != m)
    && if accepted then
         t !in d.parked && (if Ended(got) then t !in d.known else t in d.known && d.known[t] == m)
       else t !in d.known && SameEnd(d.ParkedFor(t), got)
  }

  /** Before the accept the mod is as it was; after it all that was got is painted. */
  ghost predicate ViewTracked(s0: Sys, s: Sys, m: nat, got: seq<Update>, accepted: bool) {
    var shown := if accepted then Outcome(ViewOf(s0, m), got) else ViewOf(s0, m);
    && s.columns == s0.columns && ViewOf(s, m).Face() == shown.Face()
    && FiredFor(s.fired, m) == FiredFor(s0.fired, m) + (if accepted then Fills(s0, m, shown) else [])
  }

  ghost predicate Tracked(s0: Sys, s: Sys, t: string, m: nat, got: seq<Update>, accepted: bool) {
    DeskTracked(s.desk, t, m, got, accepted) && ViewTracked(s0, s, m, got, accepted)
  }

  lemma {:induction false} CellReplayedFace(v: View, cap: string, us: seq<Update>)
    ensures CellReplayed(v, cap, us).Face() == v.Face()
  {
    if us != [] {
      CellReplayedFace(v, cap, us[..|us| - 1]);
    }
  }

  /** An update on a known token paints its mod, and no other. */
  lemma KnownPush(s: Sys, x: string, u: Update, m: nat)
    requires x in s.desk.known
    ensures var s', k := Apply(s, Pushed(x, u)), s.desk.known[x];
            var v := if k == m then Applied(ViewOf(s, m), u) else ViewOf(s, m);
            && s'.desk == Ingest(s.desk, x, u) && s'.columns == s.columns
            && ViewOf(s', m).Face() == v.Face()
            && FiredFor(s'.fired, m) == FiredFor(s.fired, m) + (if k == m && u.Terminal() then Fills(s, m, v) else [])
  {
    var k := s.desk.known[x];
    AfterSurveyFires(Painted(s.(desk := Ingest(s.desk, x, u)), k, Applied(ViewOf(s, k), u)), k, m);
  }

  ghost function DeskAfter(d: Desk<nat>, e: Event): Desk<nat> {
    match e
    case Begin(m) => Forget(d, m)
    case Accept(t, m) => Register(d, t, m)
    case Pushed(t, u) => Ingest(d, t, u)
    case CellAccept(t, m, cap) => RegisterCell(d, t, Target(m, cap))
    case Inline(_, _) => d
    case CellInline(_, _, _) => d
  }

  lemma DeskAfterKept(d: Desk<nat>, e: Event)
    requires d.Valid()
    ensures DeskAfter(d, e).Valid()
  {
    var u := Update("", Survey([], ""), "", None);
    match e
    case Begin(m) => DeskKept(d, "", u, m, Target(m, ""));
    case Accept(t, m) => DeskKept(d, t, u, m, Target(m, ""));
    case Pushed(t, u) => DeskKept(d, t, u, 0, Target(0, ""));
    case CellAccept(t, m, cap) => DeskKept(d, t, u, m, Target(m, cap));
    case _ =>
  }

  /** Nothing correlated to the load changed, except perhaps by eviction. */
  ghost predicate DeskUndisturbed(d: Desk<nat>, d': Desk<nat>, t: string, m: nat) {
    && (t in d'.cellKnown ==> t in d.cellKnown)
    && (t in d'.known <==> t in d.known) && (t in d.known ==> d'.known[t] == d.known[t])
    && (forall k :: k in d'.known && d'.known[k] == m ==> k in d.known && d.known[k] == m)
    && (t in d'.parked ==> t in d.parked && d'.parked[t] == d.parked[t])
  }

  lemma ForeignDesk(d: Desk<nat>, t: string, m: nat, e: Event)
    requires d.Valid() && Foreign(e, t, m) && (t in d.known ==> d.known[t] == m)
    ensures DeskUndisturbed(d, DeskAfter(d, e), t, m)
  {
  }

  /** An event paints a mod's survey only through its own tokens and results. */
  lemma ForeignView(s: Sys, t: string, m: nat, e: Event)
    requires Foreign(e, t, m) && forall k :: k in s.desk.known && k != t ==> s.desk.known[k] != m
    ensures var s' := Apply(s, e);
            && s'.columns == s.columns && s'.desk == DeskAfter(s.desk, e)
            && ViewOf(s', m).Face() == ViewOf(s, m).Face() && FiredFor(s'.fired, m) == FiredFor(s.fired, m)
  {
    match e
    case Begin(k) =>
    case Inline(k, result) => AfterSurveyFires(Painted(s, k, Projected(ViewOf(s, k), result)), k, m);
    case Accept(x, k) =>
      var painted := Painted(s.(desk := Register(s.desk, x, k)), k, Replayed(ViewOf(s, k), s.desk.ParkedFor(x)));
      AfterSurveyFires(painted, k, m);
    case Pushed(x, u) =>
      if x in s.desk.known {
        KnownPush(s, x, u, m);
      }
    case CellAccept(x, k, cap) => CellReplayedFace(ViewOf(s, k), cap, s.desk.ParkedFor(x));
    case CellInline(k, cap, rows) =>
  }

  lemma ForeignTracked(s0: Sys, s: Sys, t: string, m: nat, got: seq<Update>, now: seq<Update>, accepted: bool, e: Event)
    requires Tracked(s0, s, t, m, got, accepted) && Foreign(e, t, m)
    requires now == got
             || (!accepted && !Ended(now) && (Ended(got) ==> t !in Apply(s, e).desk.parked))
    requires !accepted && Ended(now) ==> t in Apply(s, e).desk.parked
    ensures Tracked(s0, Apply(s, e), t, m, now, accepted)
  {
    DeskAfterKept(s.desk, e);
    ForeignDesk(s.desk, t, m, e);
    ForeignView(s, t, m, e);
  }

  lemma AcceptDesk(d: Desk<nat>, t: string, m: nat, got: seq<Update>)
    requires DeskTracked(d, t, m, got, false)
    ensures DeskTracked(Register(d, t, m), t, m, got, true)
  {
    ReplayIsOutcome(BLANK, d.ParkedFor(t));
    DeskAfterKept(d, Accept(t, m));
    UnparkKept(d, t);
  }

  /** What is parked shows as what was got, but for the cells. */
  lemma SameOutcome(v: View, w: View, parked: seq<Update>, got: seq<Update>)
    requires SameEnd(parked, got) && v.Face() == w.Face()
    ensures Outcome(v, parked).Face() == Outcome(w, got).Face()
  {
  }

  lemma AcceptTracked(s0: Sys, s: Sys, t: string, m: nat, got: seq<Update>)
    requires Tracked(s0, s, t, m, got, false) && ViewOf(s0, m).loading
    ensures Tracked(s0, Apply(s, Accept(t, m)), t, m, got, true)
  {
    var us, s' := s.desk.ParkedFor(t), Apply(s, Accept(t, m));
    AcceptShows(s, t, m, us);
    assert DeskTracked(s'.desk, t, m, got, true) by {
      AcceptDesk(s.desk, t, m, got);
    }
    SameOutcome(ViewOf(s, m), ViewOf(s0, m), us, got);
    AcceptView(s0, s, s', m, got, Outcome(ViewOf(s, m), us));
  }

  lemma AcceptView(s0: Sys, s: Sys, s': Sys, m: nat, got: seq<Update>, shown: View)
    requires ViewTracked(s0, s, m, got, false) && shown.Face() == Outcome(ViewOf(s0, m), got).Face()
    requires s'.columns == s.columns && ViewOf(s', m).Face() == shown.Face()
    requires FiredFor(s'.fired, m) == FiredFor(s.fired, m) + Fills(s, m, shown)
    ensures ViewTracked(s0, s', m, got, true)
  {
    FaceShows(shown, Outcome(ViewOf(s0, m), got));
  }

  lemma AcceptShows(s: Sys, t: string, m: nat, us: seq<Update>)
    requires s.desk.ParkedFor(t) == us && EndsOnce(us)
    ensures var s', shown := Apply(s, Accept(t, m)), Outcome(ViewOf(s, m), us);
            && s'.desk == Register(s.desk, t, m) && s'.columns == s.columns
            && ViewOf(s', m).Face() == shown.Face()
            && FiredFor(s'.fired, m) == FiredFor(s.fired, m) + Fills(s, m, shown)
            && (HasTerminal(us) <==> Ended(us))
  {
    ReplayIsOutcome(ViewOf(s, m), us);
    AfterSurveyFires(Painted(s.(desk := Register(s.desk, t, m)), m, Replayed(ViewOf(s, m), us)), m, m);
  }

  lemma OutcomeGrows(v: View, us: seq<Update>, u: Update)
    requires EndsOnce(us + [u])
    ensures !HasTerminal(us) && !Ended(us) && EndsOnce(us) && Outcome(v, us) == v
    ensures Outcome(v, us + [u]) == if u.Terminal() then Applied(v, u) else v
    ensures Ended(us + [u]) <==> u.Terminal()
  {
    assert forall i :: 0 <= i < |us| ==> (us + [u])[i] == us[i];
    assert (us + [u])[|us|] == u;
  }

  lemma SameEndGrows(parked: seq<Update>, us: seq<Update>, u: Update)
    requires SameEnd(parked, us) && !Ended(us)
    ensures SameEnd(parked + [u], us + [u])
  {
    assert forall i :: 0 <= i < |parked| ==> (parked + [u])[i] == parked[i] && !parked[i].Terminal();
  }

  lemma EarlyPushDesk(d: Desk<nat>, t: string, m: nat, us: seq<Update>, u: Update)
    requires DeskTracked(d, t, m, us, false) && !Ended(us)
    ensures DeskTracked(Park(d, t, u), t, m, us + [u], false)
  {
    var d' := Park(d, t, u);
    assert !Ended(d.ParkedFor(t)) && t !in d.known && t !in d.cellKnown;
    ParkKept(d, t, u);
    SameEndGrows(d.ParkedFor(t), us, u);
    assert d'.ParkedFor(t) == d.ParkedFor(t) + [u];
    assert d'.known == d.known && d'.cellKnown == d.cellKnown;
  }

  lemma EarlyPushTracked(s0: Sys, s: Sys, t: string, m: nat, us: seq<Update>, u: Update)
    requires Tracked(s0, s, t, m, us, false) && !Ended(us)
    ensures Tracked(s0, Apply(s, Pushed(t, u)), t, m, us + [u], false)
  {
    assert Apply(s, Pushed(t, u)) == s.(desk := Park(s.desk, t, u));
    EarlyPushDesk(s.desk, t, m, us, u);
  }

  lemma LatePushDesk(d: Desk<nat>, t: string, m: nat, us: seq<Update>, u: Update)
    requires DeskTracked(d, t, m, us, true) && !Ended(us) && (Ended(us + [u]) <==> u.Terminal())
    ensures DeskTracked(Ingest(d, t, u), t, m, us + [u], true)
  {
    IngestKept(d, t, u);
  }

  lemma LatePushTracked(s0: Sys, s: Sys, t: string, m: nat, us: seq<Update>, u: Update)
    requires Tracked(s0, s, t, m, us, true) && EndsOnce(us + [u]) && ViewOf(s0, m).loading
    ensures Tracked(s0, Apply(s, Pushed(t, u)), t, m, us + [u], true)
  {
    OutcomeGrows(ViewOf(s0, m), us, u);
    LatePushDesk(s.desk, t, m, us, u);
    KnownPush(s, t, u, m);
    assert Apply(s, Pushed(t, u)).desk == Ingest(s.desk, t, u);
    LatePushView(s0, s, t, m, us, u);
  }

  lemma LatePushView(s0: Sys, s: Sys, t: string, m: nat, us: seq<Update>, u: Update)
    requires ViewTracked(s0, s, m, us, true) && EndsOnce(us + [u]) && ViewOf(s0, m).loading
    requires t in s.desk.known && s.desk.known[t] == m
    ensures ViewTracked(s0, Apply(s, Pushed(t, u)), m, us + [u], true)
  {
    OutcomeGrows(ViewOf(s0, m), us, u);
    assert Fills(s0, m, ViewOf(s0, m)) == [];
    KnownPush(s, t, u, m);
  }

  /** An unclaimed update is parked last, so it is not crowded. */
  lemma FreshlyParked(s: Sys, es: seq<Event>, t: string, m: nat)
    requires Starts(s, t, m) && OneLoad(es, t, m) && Accept(t, m) !in es
    requires t in Run(s, es).desk.parked
    ensures |Newcomers(s, es, t)| < PARKED_CAP
  {
    UnclaimedBefore(es, t, m);
    ParkedIsFew(s, es, t);
  }

  lemma GotPush(s: Sys, before: seq<Event>, t: string, m: nat, u: Update)
    requires Starts(s, t, m) && EndsOnce(UpdatesOf(before, t) + [u]) && OneLoad(before, t, m)
    requires Accept(t, m) !in before ==> t in Run(s, before + [Pushed(t, u)]).desk.parked
    ensures Got(s, before, t, m) == UpdatesOf(before, t)
    ensures Got(s, before + [Pushed(t, u)], t, m) == UpdatesOf(before, t) + [u]
  {
    var us, es := UpdatesOf(before, t), before + [Pushed(t, u)];
    assert es[..|before|] == before && UpdatesOf(es, t) == us + [u];
    OutcomeGrows(BLANK, us, u);
    KeptBeforeEnd(s, before, t, m);
    KeptStep(s, before, Pushed(t, u), t, m);
    if Accept(t, m) !in before {
      FreshlyParked(s, es, t, m);
    }
  }

  /** A push on the token itself: it takes back no end, and nothing was lost before. */
  lemma PushTracked(s: Sys, before: seq<Event>, t: string, m: nat, u: Update)
    requires Starts(s, t, m) && EndsOnce(UpdatesOf(before, t) + [u]) && OneLoad(before, t, m)
    requires Tracked(s, Run(s, before), t, m, Got(s, before, t, m), Accept(t, m) in before)
    ensures var es := before + [Pushed(t, u)];
            Tracked(s, Run(s, es), t, m, Got(s, es, t, m), Accept(t, m) in es)
  {
    var us, es, accepted := UpdatesOf(before, t), before + [Pushed(t, u)], Accept(t, m) in before;
    assert es[..|before|] == before;
    assert Run(s, es) == Apply(Run(s, before), Pushed(t, u));
    OutcomeGrows(BLANK, us, u);
    assert Got(s, before, t, m) == us by {
      KeptBeforeEnd(s, before, t, m);
    }
    OwnPushTracked(s, Run(s, before), t, m, us, u, accepted);
    assert Got(s, es, t, m) == us + [u] by {
      GotPush(s, before, t, m, u);
    }
  }

  lemma OwnPushTracked(s0: Sys, s: Sys, t: string, m: nat, us: seq<Update>, u: Update, accepted: bool)
    requires Tracked(s0, s, t, m, us, accepted) && EndsOnce(us + [u]) && ViewOf(s0, m).loading
    ensures Tracked(s0, Apply(s, Pushed(t, u)), t, m, us + [u], accepted)
    ensures !accepted ==> t in Apply(s, Pushed(t, u)).desk.parked
  {
    OutcomeGrows(BLANK, us, u);
    if accepted {
      LatePushTracked(s0, s, t, m, us, u);
    } else {
      EarlyPushTracked(s0, s, t, m, us, u);
    }
  }

  lemma UnclaimedBefore(es: seq<Event>, t: string, m: nat)
    requires OneLoad(es, t, m) && Accept(t, m) !in es
    ensures forall i :: 0 <= i < |es| ==> Unclaimed(es[i], t)
  {
    assert forall i :: 0 <= i < |es| ==> es[i] in es;
  }

  /** An event of other traffic: it may crowd the token out, and then the end is lost. */
  lemma OtherTracked(s: Sys, before: seq<Event>, t: string, m: nat, e: Event)
    requires Starts(s, t, m) && OneLoad(before, t, m) && Foreign(e, t, m)
    requires Tracked(s, Run(s, before), t, m, Got(s, before, t, m), Accept(t, m) in before)
    ensures var es := before + [e];
            Tracked(s, Run(s, es), t, m, Got(s, es, t, m), Accept(t, m) in es)
  {
    var es, accepted := before + [e], Accept(t, m) in before;
    assert es[..|before|] == before && UpdatesOf(es, t) == UpdatesOf(before, t);
    KeptStep(s, before, e, t, m);
    if !accepted && t in Run(s, before).desk.parked {
      UnclaimedBefore(before, t, m);
      CrowdedOutIff(s, before, e, t);
    }
    ForeignTracked(s, Run(s, before), t, m, Got(s, before, t, m), Got(s, es, t, m), accepted, e);
  }

  lemma {:induction false} RunTracked(s: Sys, es: seq<Event>, t: string, m: nat)
    requires Starts(s, t, m) && OneLoad(es, t, m) && EndsOnce(UpdatesOf(es, t))
    ensures Tracked(s, Run(s, es), t, m, Got(s, es, t, m), Accept(t, m) in es)
  {
    if es != [] {
      var before, e := es[..|es| - 1], es[|es| - 1];
      assert es == before + [e];
      if e.Pushed? && e.token == t {
        OutcomeGrows(BLANK, UpdatesOf(before, t), e.update);
      }
      RunTracked(s, before, t, m);
      if e == Accept(t, m) {
        assert e !in before;
        KeptStep(s, before, e, t, m);
        AcceptTracked(s, Run(s, before), t, m, Got(s, before, t, m));
      } else if e.Pushed? && e.token == t {
        PushTracked(s, before, t, m, e.update);
      } else {
        OtherTracked(s, before, t, m, e);
      }
    }
  }

  /** Whatever the interleaving: once the load was accepted, the mod shows what the
      token's last update says, its cells were requested once if that was a clean
      survey, and of the token nothing is parked and nothing known after its end; unless
      the end was crowded out, and then it is as if it had never come. */
  lemma LoadEndsTheSame(s: Sys, es: seq<Event>, t: string, m: nat)
    requires Starts(s, t, m) && OneLoad(es, t, m) && EndsOnce(UpdatesOf(es, t)) && Accept(t, m) in es
    ensures var s', v := Run(s, es), ViewOf(s, m);
            var shown := if Kept(s, es, t, m) then Outcome(v, UpdatesOf(es, t)) else v;
            && ViewOf(s', m).Face() == shown.Face()
            && FiredFor(s'.fired, m) == FiredFor(s.fired, m) + Fills(s, m, shown)
            && t !in s'.desk.parked
            && (t in s'.desk.known <==> !(Kept(s, es, t, m) && Ended(UpdatesOf(es, t))))
  {
    RunTracked(s, es, t, m);
  }

  /** What the page then shows, field by field. */
  lemma LoadShows(s: Sys, es: seq<Event>, t: string, m: nat, u: Update)
    requires Starts(s, t, m) && OneLoad(es, t, m) && EndsOnce(UpdatesOf(es, t)) && Accept(t, m) in es
    requires Kept(s, es, t, m) && UpdatesOf(es, t) != [] && u == UpdatesOf(es, t)[|UpdatesOf(es, t)| - 1]
    ensures var v, w := ViewOf(s, m), ViewOf(Run(s, es), m);
            && (u.state == "done" ==> !w.loading && w.err == "" && w.survey == u.survey)
            && (u.state == "failed" ==>
                  && !w.loading && w.survey == v.survey
                  && w.err == if u.err.Some? then u.err.value else "job failed")
            && (u.state != "done" && u.state != "failed" ==> w.loading && w.err == v.err && w.survey == v.survey)
  {
    LoadEndsTheSame(s, es, t, m);
    FaceShows(ViewOf(Run(s, es), m), Outcome(ViewOf(s, m), UpdatesOf(es, t)));
  }

  lemma FaceShows(v: View, w: View)
    requires v.Face() == w.Face()
    ensures v.loading == w.loading && v.err == w.err && v.survey == w.survey
  {
    assert v.Face().loading == v.loading && v.Face().err == v.err && v.Face().survey == v.survey;
  }

  /** And what it then requests: a fill of each source column, once, if it ended with rows
      and shows no error, and otherwise nothing. */
  lemma LoadRequests(s: Sys, es: seq<Event>, t: string, m: nat, u: Update)
    requires Starts(s, t, m) && OneLoad(es, t, m) && EndsOnce(UpdatesOf(es, t)) && Accept(t, m) in es
    requires Kept(s, es, t, m) && UpdatesOf(es, t) != [] && u == UpdatesOf(es, t)[|UpdatesOf(es, t)| - 1]
    ensures var w, caps := ViewOf(Run(s, es), m), if m in s.columns then Froms(s.columns[m]) else [];
            FiredFor(Run(s, es).fired, m) == FiredFor(s.fired, m) +
              if (u.state == "done" || u.state == "failed") && w.err == "" && w.survey.subjects != []
              then seq(|caps|, i requires 0 <= i < |caps| => Target(m, caps[i])) else []
  {
    LoadEndsTheSame(s, es, t, m);
    FaceShows(ViewOf(Run(s, es), m), Outcome(ViewOf(s, m), UpdatesOf(es, t)));
  }

  /** Exactly when an ended load stops loading: iff its end was not crowded out. */
  lemma StopsLoadingIff(s: Sys, es: seq<Event>, t: string, m: nat)
    requires Starts(s, t, m) && OneLoad(es, t, m) && EndsOnce(UpdatesOf(es, t)) && Accept(t, m) in es
    requires Ended(UpdatesOf(es, t))
    ensures !ViewOf(Run(s, es), m).loading <==> Kept(s, es, t, m)
  {
    LoadEndsTheSame(s, es, t, m);
    assert ViewOf(Run(s, es), m).Face().loading == ViewOf(Run(s, es), m).loading;
  }

  /** The order independence itself: two runs that push the same updates on the token,
      however they fall before and after the accept, leave the mod the same. */
  lemma ArrivalOrderIsImmaterial(s: Sys, es: seq<Event>, fs: seq<Event>, t: string, m: nat)
    requires Starts(s, t, m) && UpdatesOf(es, t) == UpdatesOf(fs, t) && EndsOnce(UpdatesOf(es, t))
    requires OneLoad(es, t, m) && Kept(s, es, t, m) && Accept(t, m) in es
    requires OneLoad(fs, t, m) && Kept(s, fs, t, m) && Accept(t, m) in fs
    ensures ViewOf(Run(s, es), m).Face() == ViewOf(Run(s, fs), m).Face()
    ensures FiredFor(Run(s, es).fired, m) == FiredFor(Run(s, fs).fired, m)
    ensures t in Run(s, es).desk.known <==> t in Run(s, fs).desk.known
    ensures t !in Run(s, es).desk.parked && t !in Run(s, fs).desk.parked
  {
    LoadEndsTheSame(s, es, t, m);
    LoadEndsTheSame(s, fs, t, m);
  }

  /** An eviction is not harmless: a mod whose terminal update is pushed out before the
      accept goes on loading, and its token is known for good. */
  lemma EvictedTerminalIsLost(s: Sys, t: string, m: nat, x: string, u: Update)
    requires s.desk.Valid() && ViewOf(s, m).loading
    requires |s.desk.order| == PARKED_CAP && s.desk.order[0] == t
    requires x !in s.desk.parked && x !in s.desk.known && x !in s.desk.cellKnown
    ensures var s' := Run(s, [Pushed(x, u), Accept(t, m)]);
            ViewOf(s', m).loading && t in s'.desk.known && s'.desk.known[t] == m
  {
    var es := [Pushed(x, u), Accept(t, m)];
    assert es[..1] == [Pushed(x, u)] && es[..1][..0] == [];
    assert Run(s, es[..1]) == Apply(s, Pushed(x, u));
    EvictedIff(s.desk, x, u, t);
  }

  // -------------------------------------------------------- every split

  function Pushes(t: string, us: seq<Update>): seq<Event> {
    seq(|us|, i requires 0 <= i < |us| => Pushed(t, us[i]))
  }

  /** The first `a` updates beat the accept, the others follow it. */
  function Split(us: seq<Update>, a: nat, t: string, m: nat): seq<Event>
    requires a <= |us|
  {
    Pushes(t, us[..a]) + [Accept(t, m)] + Pushes(t, us[a..])
  }

  /** Alone, a token is not crowded. */
  lemma {:induction false} AloneUncrowded(s: Sys, es: seq<Event>, t: string, m: nat)
    requires forall i :: 0 <= i < |es| ==> (es[i].Pushed? && es[i].token == t) || es[i] == Accept(t, m)
    ensures Newcomers(s, es, t) == {}
  {
    if es != [] {
      AloneUncrowded(s, es[..|es| - 1], t, m);
    }
  }

  lemma {:induction false} UpdatesOfPushes(es: seq<Event>, t: string, us: seq<Update>)
    ensures UpdatesOf(es + Pushes(t, us), t) == UpdatesOf(es, t) + us
  {
    if us == [] {
      assert es + Pushes(t, us) == es;
    } else {
      var n := |us| - 1;
      UpdatesOfPushes(es, t, us[..n]);
      assert (es + Pushes(t, us))[..|es| + n] == es + Pushes(t, us[..n]);
    }
  }

  lemma SplitUpdates(us: seq<Update>, a: nat, t: string, m: nat)
    requires a <= |us|
    ensures UpdatesOf(Split(us, a, t, m), t) == us
  {
    var early, late := Pushes(t, us[..a]), Pushes(t, us[a..]);
    assert UpdatesOf(early, t) == us[..a] by {
      UpdatesOfPushes([], t, us[..a]);
      assert [] + early == early;
    }
    assert (early + [Accept(t, m)])[..a] == early;
    UpdatesOfPushes(early + [Accept(t, m)], t, us[a..]);
    assert us[..a] + us[a..] == us;
  }

  lemma SplitFits(us: seq<Update>, a: nat, t: string, m: nat)
    requires a <= |us|
    ensures OneLoad(Split(us, a, t, m), t, m) && Split(us, a, t, m)[a] == Accept(t, m)
  {
    var es := Split(us, a, t, m);
    assert forall i :: 0 <= i < |es| && i != a ==> es[i].Pushed? && es[i].token == t;
  }

  /** Every split of a token's updates before and after its accept comes to the same:
      the same mod, the same correlation, the same requests, and nothing parked. */
  lemma EverySplitAgrees(s: Sys, us: seq<Update>, a: nat, t: string, m: nat)
    requires Starts(s, t, m) && EndsOnce(us) && a <= |us|
    ensures var s', shown := Run(s, Split(us, a, t, m)), Outcome(ViewOf(s, m), us);
            && ViewOf(s', m).Face() == shown.Face()
            && FiredFor(s'.fired, m) == FiredFor(s.fired, m) + Fills(s, m, shown)
            && t !in s'.desk.parked
            && (t in s'.desk.known <==> !Ended(us))
  {
    var es := Split(us, a, t, m);
    SplitUpdates(us, a, t, m);
    SplitFits(us, a, t, m);
    forall k | 0 <= k <= |es| ensures Newcomers(s, es[..k], t) == {} {
      AloneUncrowded(s, es[..k], t, m);
    }
    LoadEndsTheSame(s, es, t, m);
  }
}
