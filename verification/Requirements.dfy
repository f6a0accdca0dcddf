/**
 What requirement evaluation decides, stated on values: the system-resource
 phase, one elimination pass over the capability requirements, and the verdict
 that repeating the pass arrives at.
 */
module Requirements {
  import opened Wrappers
  import opened ModuleGraph

  /** The records a phase looks at: not active, not yet unavailable, with a manifest. */
  predicate Judged(row: Row) {
    row.state != Active && row.state != Unavailable && row.manifest.Some?
  }

  function Reject(row: Row, keep: bool): Row {
    if Judged(row) && !keep then row.(state := Unavailable) else row
  }

  function SystemPhase(rows: Rows, sysOk: string -> bool): Rows {
    map n | n in rows :: Reject(rows[n], sysOk(n))
  }

  function NonInert(rows: Rows): set<string> {
    set n | n in rows && !rows[n].Inert()
  }

  function LiveNames(rows: Rows): set<string> {
    set n | n in rows && rows[n].state != Unavailable
  }

  ghost predicate Offered(rows: Rows, avail: set<string>, cap: string) {
    exists n :: n in avail && Declares(rows, n, cap)
  }

  /** Every capability `n` requires is declared by a member of `avail`. */
  ghost predicate Supported(rows: Rows, avail: set<string>, n: string) {
    forall cap :: Demands(rows, n, cap) ==> Offered(rows, avail, cap)
  }

  /** One pass against the surface of the records that are not inert at its start. */
  ghost function Pass(rows: Rows): Rows {
    map n | n in rows :: Reject(rows[n], Supported(rows, NonInert(rows), n))
  }

  /** A set of survivors each of which is active or can live off the set. */
  ghost predicate SelfSupporting(rows: Rows, k: set<string>) {
    && k <= NonInert(rows)
    && forall n :: n in k && rows[n].state != Active ==> Supported(rows, k, n)
  }

  /** The verdict: the survivors are the greatest self-supporting set, and exactly
      the judged records it cannot support have turned unavailable. */
  ghost predicate Verdict(rows: Rows, final: Rows) {
    && final.Keys == rows.Keys
    && SelfSupporting(rows, NonInert(final))
    && (forall k :: SelfSupporting(rows, k) ==> k <= NonInert(final))
    && (forall n :: n in rows ==>
          final[n] == Reject(rows[n], Supported(rows, NonInert(final), n)))
  }

  /** The verdict is unique, so no iteration order can change it. */
  lemma VerdictUnique(rows: Rows, one: Rows, two: Rows)
    requires Verdict(rows, one) && Verdict(rows, two)
    ensures one == two
  {
    assert NonInert(one) == NonInert(two);
  }

  /** The state that both phases leave a module in; `lacks` is whether it misses a
      capability then. */
  function VerdictState(start: Rows, sysOk: string -> bool, n: string, lacks: bool): State
    requires n in start
  {
    var was := start[n].state;
    if was != Active && was != Unavailable && start[n].manifest.Some? && (!sysOk(n) || lacks) then Unavailable else was
  }

  lemma VerdictStates(start: Rows, sysOk: string -> bool, final: Rows, n: string)
    requires Verdict(SystemPhase(start, sysOk), final) && n in final
    ensures n in start && final[n].manifest == start[n].manifest
    ensures final[n].state == VerdictState(start, sysOk, n, !Supported(final, NonInert(final), n))
  {
    var rows := SystemPhase(start, sysOk);
    assert rows[n] == Reject(start[n], sysOk(n));
    SameSupport(rows, final, NonInert(final), n);
  }

  lemma SameSupport(rows: Rows, final: Rows, a: set<string>, n: string)
    requires final.Keys == rows.Keys && forall m :: m in rows ==> final[m].manifest == rows[m].manifest
    ensures Supported(rows, a, n) <==> Supported(final, a, n)
  {
    assert forall m, cap :: Declares(final, m, cap) <==> Declares(rows, m, cap);
    assert forall m, cap :: Demands(final, m, cap) <==> Demands(rows, m, cap);
    assert forall cap :: Offered(final, a, cap) <==> Offered(rows, a, cap);
  }

  // -------------------------------------------------- the passes in between

  /** What holds of the records before and after every pass. */
  ghost predicate Eliminating(rows: Rows, now: Rows) {
    && now.Keys == rows.Keys
    && (forall k :: SelfSupporting(rows, k) ==> k <= NonInert(now))
    && (forall n :: n in rows ==>
          || now[n] == rows[n]
          || (now[n] == Reject(rows[n], false) && !Supported(rows, NonInert(now), n)))
  }

  lemma SupportedMonotone(rows: Rows, a: set<string>, b: set<string>, n: string)
    requires a <= b && Supported(rows, a, n)
    ensures Supported(rows, b, n)
  {
    forall cap | Demands(rows, n, cap) ensures Offered(rows, b, cap) {
      var m :| m in a && Declares(rows, m, cap);
      assert m in b && Declares(rows, m, cap);
    }
  }

  lemma SupportedSame(rows: Rows, now: Rows, a: set<string>, n: string)
    requires Eliminating(rows, now)
    ensures Supported(rows, a, n) <==> Supported(now, a, n)
  {
    assert forall m, cap :: Declares(now, m, cap) <==> Declares(rows, m, cap);
    assert forall m, cap :: Demands(now, m, cap) <==> Demands(rows, m, cap);
    assert forall cap :: Offered(now, a, cap) <==> Offered(rows, a, cap);
  }

  /** A module is supported just when the surface has all it needs. */
  lemma NeedsOf(rows: Rows, n: string, surface: set<string>, avail: set<string>)
    requires n in rows && forall cap :: cap in surface <==> Offered(rows, avail, cap)
    ensures Judged(rows[n]) ==>
              (Supported(rows, avail, n) <==> forall cap :: cap in rows[n].manifest.value.needs ==> cap in surface)
  {
    assert Judged(rows[n]) ==> forall cap :: Demands(rows, n, cap) <==> cap in rows[n].manifest.value.needs;
  }

  /** A pass that has come to the records of `judged`. */
  ghost function PassOn(rows: Rows, judged: set<string>): Rows {
    map n | n in rows :: if n in judged then Reject(rows[n], Supported(rows, NonInert(rows), n)) else rows[n]
  }

  lemma PassOneMore(rows: Rows, judged: set<string>, n: string)
    requires n in rows && n !in judged
    ensures PassOn(rows, judged)[n] == rows[n]
    ensures var next := PassOn(rows, judged)[n := Reject(rows[n], Supported(rows, NonInert(rows), n))];
            && PassOn(rows, judged + {n}) == next
            && (next != rows <==> PassOn(rows, judged) != rows || next[n] != rows[n])
  {
  }

  lemma PassOnAll(rows: Rows)
    ensures PassOn(rows, rows.Keys) == Pass(rows) && PassOn(rows, {}) == rows
  {
  }

  /** One more pass keeps what holds, and gets somewhere or stops. */
  lemma PassStep(rows: Rows, now: Rows)
    requires Eliminating(rows, now)
    ensures Eliminating(rows, Pass(now))
    ensures Pass(now) != now ==> LiveNames(Pass(now)) < LiveNames(now)
  {
    PassShrinks(now);
    EliminatingPass(rows, now);
  }

  lemma EliminatingStart(rows: Rows)
    ensures Eliminating(rows, rows)
  {
  }

  lemma EliminatingPass(rows: Rows, now: Rows)
    requires Eliminating(rows, now)
    ensures Eliminating(rows, Pass(now))
  {
    var next := Pass(now);
    assert NonInert(next) <= NonInert(now);
    forall n | n in rows && next[n] != rows[n]
      ensures next[n] == Reject(rows[n], false) && !Supported(rows, NonInert(next), n)
    {
      SupportedSame(rows, now, NonInert(now), n);
      if Supported(rows, NonInert(next), n) {
        SupportedMonotone(rows, NonInert(next), NonInert(now), n);
      }
    }
    forall k | SelfSupporting(rows, k) ensures k <= NonInert(next) {
      forall n | n in k ensures n in NonInert(next) {
        SupportedSame(rows, now, NonInert(now), n);
        if rows[n].state != Active {
          SupportedMonotone(rows, k, NonInert(now), n);
        }
      }
    }
  }

  /** A pass that changes something leaves fewer records short of unavailable. */
  lemma PassShrinks(now: Rows)
    ensures LiveNames(Pass(now)) <= LiveNames(now)
    ensures Pass(now) != now ==> LiveNames(Pass(now)) < LiveNames(now)
  {
    if Pass(now) != now {
      var n :| n in now && Pass(now)[n] != now[n];
      assert n in LiveNames(now) && n !in LiveNames(Pass(now));
    }
  }

  lemma FixpointIsVerdict(rows: Rows, now: Rows)
    requires Eliminating(rows, now) && Pass(now) == now
    ensures Verdict(rows, now)
  {
    var k := NonInert(now);
    forall n | n in rows ensures now[n] == Reject(rows[n], Supported(rows, k, n)) {
      SupportedSame(rows, now, k, n);
      assert Pass(now)[n] == Reject(now[n], Supported(now, k, n));
    }
    forall n | n in k && rows[n].state != Active ensures Supported(rows, k, n) {
      SupportedSame(rows, now, k, n);
      NoManifestSupported(rows, k, n);
      assert Pass(now)[n] == Reject(now[n], Supported(now, k, n));
    }
  }

  lemma NoManifestSupported(rows: Rows, a: set<string>, n: string)
    ensures n in rows && rows[n].manifest.None? ==> Supported(rows, a, n)
  {
  }
}
