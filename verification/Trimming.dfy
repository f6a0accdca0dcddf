/**
 What trimming does to derived jobs.  A live job keeps its place exactly when the
 record of its originating invoke survives.  That record may be evicted, since an
 accepted asynchronous job's record is complete while the job still runs; at the end
 are stores in which a trim loses a running job, and revives an ended one.
 */
module Trimming {
  import opened Wrappers
  import opened Messages
  import opened Jobs

  function Undone(recs: seq<Record>): seq<Record> {
    if recs == [] then []
    else (if recs[0].Done() then [] else [recs[0]]) + Undone(recs[1..])
  }

  lemma {:induction false} GroupConcat(a: seq<string>, b: seq<string>, records: map<string, Record>, token: string)
    ensures Group(a + b, records, token) == Group(a, records, token) + Group(b, records, token)
  {
    if b == [] {
      assert a + b == a;
    } else {
      var c := b[..|b| - 1];
      GroupConcat(a, c, records, token);
      assert (a + b)[..|a + b| - 1] == a + c;
    }
  }

  lemma GroupOne(id: string, records: map<string, Record>, token: string)
    ensures Group([id], records, token) ==
            if id in records && records[id].request.jobToken == token then [records[id]] else []
    ensures Group([], records, token) == []
  {
    assert [id][..0] == [];
  }

  lemma {:induction false} GroupOfOpen(order: seq<string>, records: map<string, Record>, token: string)
    requires forall id :: id in order ==> id in records
    ensures Group(OpenOnly(order, records), records, token) == Undone(Group(order, records, token))
  {
    if order != [] {
      var x, rest := order[0], order[1..];
      GroupOfOpen(rest, records, token);
      assert order == [x] + rest;
      GroupConcat([x], rest, records, token);
      GroupOne(x, records, token);
      if DoneId(records, x) {
        assert OpenOnly(order, records) == OpenOnly(rest, records);
      } else {
        GroupConcat([x], OpenOnly(rest, records), records, token);
      }
      if records[x].request.jobToken == token {
        assert Group(order, records, token) == [records[x]] + Group(rest, records, token);
      } else {
        assert Group(order, records, token) == Group(rest, records, token);
      }
    }
  }

  /** `t` is what a trim of `log` leaves whose eviction stops at position `k`. */
  ghost predicate TrimAt(log: Log, t: Log, k: nat) {
    && log.Valid() && t.Valid() && k <= |log.order|
    && t.order == OpenOnly(log.order[..k], log.records) + log.order[k..]
    && (forall id :: id in t.records <==>
          id in log.records && (!log.records[id].Done() || id in log.order[k..]))
    && (forall id :: id in t.records ==> t.records[id] == log.records[id])
    && (forall tok :: tok in t.started <==> tok in log.started && tok in LiveTokens(t.records))
  }

  lemma TrimmedIsTrimAt(log: Log, cap: nat) returns (k: nat)
    requires log.Valid() && |log.order| >= cap * 2
    ensures TrimAt(log, Trimmed(log, cap), k)
  {
    var excess := |log.order| - cap;
    var t := Trimmed(log, cap);
    k := Cut(log.order, log.records, excess);
    TrimmedMembers(log, cap, k);
    assert t.order == OpenOnly(log.order[..k], log.records) + log.order[k..] by {
      KeptShape(log.order, log.records, excess);
    }
    TrimmedStamps(log, cap);
  }

  lemma TrimmedMembers(log: Log, cap: nat, k: nat)
    requires log.Valid() && |log.order| >= cap * 2 && k == Cut(log.order, log.records, |log.order| - cap)
    ensures var t := Trimmed(log, cap);
            && (forall id :: id in t.records <==>
                  id in log.records && (!log.records[id].Done() || id in log.order[k..]))
            && (forall id :: id in t.records ==> t.records[id] == log.records[id])
  {
    forall id ensures id in Trimmed(log, cap).order <==>
                      id in log.order && (!DoneId(log.records, id) || id in log.order[k..]) {
      KeptMembers(log.order, log.records, |log.order| - cap, id);
    }
  }

  lemma TrimmedStamps(log: Log, cap: nat)
    requires log.Valid() && |log.order| >= cap * 2
    ensures var t := Trimmed(log, cap);
            t.Valid() && forall tok :: tok in t.started <==> tok in log.started && tok in LiveTokens(t.records)
  {
    TrimExact(log, cap);
  }

  /** A trim leaves of each group the open records before the cut and all after it. */
  lemma TrimmedGroup(log: Log, t: Log, k: nat, token: string) returns (front: seq<Record>, back: seq<Record>)
    requires TrimAt(log, t, k)
    ensures front == Group(log.order[..k], log.records, token)
    ensures back == Group(log.order[k..], log.records, token)
    ensures ByToken(log, token) == front + back
    ensures ByToken(t, token) == Undone(front) + back
  {
    front := Group(log.order[..k], log.records, token);
    back := Group(log.order[k..], log.records, token);
    LogGroup(log.order, k, log.records, token);
    assert forall id :: id in log.order[..k] ==> id in log.records;
    SplitGroup(log.order[..k], log.order[k..], log.records, token);
    TrimmedFrame(log, t, k, token);
  }

  lemma LogGroup(order: seq<string>, k: nat, records: map<string, Record>, token: string)
    requires k <= |order|
    ensures Group(order, records, token) == Group(order[..k], records, token) + Group(order[k..], records, token)
  {
    assert order == order[..k] + order[k..];
    GroupConcat(order[..k], order[k..], records, token);
  }

  lemma SplitGroup(a: seq<string>, b: seq<string>, records: map<string, Record>, token: string)
    requires forall id :: id in a ==> id in records
    ensures Group(OpenOnly(a, records) + b, records, token) ==
            Undone(Group(a, records, token)) + Group(b, records, token)
  {
    GroupOfOpen(a, records, token);
    GroupConcat(OpenOnly(a, records), b, records, token);
  }

  lemma TrimmedFrame(log: Log, t: Log, k: nat, token: string)
    requires TrimAt(log, t, k)
    ensures ByToken(t, token) == Group(t.order, log.records, token)
  {
    GroupFrame(t.order, log.records, t.records, token);
  }

  // ---------------------------------------------------------- groups, trimmed

  function FirstOf(recs: seq<Record>): Option<Record> {
    if recs == [] then None
    else if recs[0].request.cmd == "invoke" then Some(recs[0])
    else FirstOf(recs[1..])
  }

  lemma {:induction false} FirstOfConcat(a: seq<Record>, b: seq<Record>)
    ensures FirstOf(a + b) == if FirstOf(a).Some? then FirstOf(a) else FirstOf(b)
  {
    if a == [] {
      assert a + b == b;
    } else {
      assert (a + b)[1..] == a[1..] + b;
      FirstOfConcat(a[1..], b);
    }
  }

  lemma {:induction false} FirstOfMembers(recs: seq<Record>)
    ensures FirstOf(recs).None? <==> forall r :: r in recs ==> r.request.cmd != "invoke"
    ensures FirstOf(recs).Some? ==> FirstOf(recs).value in recs
  {
    if recs != [] {
      FirstOfMembers(recs[1..]);
      assert forall r :: r in recs <==> r == recs[0] || r in recs[1..];
    }
  }

  lemma {:induction false} OriginIsFirst(recs: seq<Record>)
    requires recs != []
    ensures Origin(recs).request.cmd == "invoke" <==> FirstOf(recs).Some?
    ensures FirstOf(recs).Some? ==> Origin(recs) == FirstOf(recs).value
    ensures FirstOf(recs).None? ==> Origin(recs) == recs[0]
  {
    if recs[0].request.cmd != "invoke" && |recs| > 1 {
      OriginIsFirst(recs[1..]);
      var i, j := OriginAt(recs), OriginAt(recs[1..]);
      assert recs[j + 1] == recs[1..][j];
      if i > 0 {
        assert recs[1..][i - 1] == recs[i];
      }
    }
  }

  predicate TerminalReport(r: Record) {
    r.request.cmd == "job_update" && IsTerminal(UpdateReport(r.request).state)
  }

  /** No report of the group is terminal. */
  ghost predicate Quiet(recs: seq<Record>) {
    forall r :: r in recs ==> !TerminalReport(r)
  }

  lemma {:induction false} QuietReported(recs: seq<Record>)
    requires Quiet(recs)
    ensures !IsTerminal(Reported(recs))
  {
    if recs != [] {
      assert forall r :: r in recs[..|recs| - 1] ==> r in recs;
      assert recs[|recs| - 1] in recs;
      QuietReported(recs[..|recs| - 1]);
    }
  }

  /** No report takes back a terminal state reported before it. */
  ghost predicate NoTakeBack(recs: seq<Record>) {
    recs == [] ||
    var init, r := recs[..|recs| - 1], recs[|recs| - 1];
    && NoTakeBack(init)
    && (Quiet(init) || r.request.cmd != "job_update"
        || UpdateReport(r.request).state == "" || IsTerminal(UpdateReport(r.request).state))
  }

  lemma QuietSnoc(recs: seq<Record>, r: Record)
    ensures Quiet(recs + [r]) <==> Quiet(recs) && !TerminalReport(r)
  {
    assert forall x :: x in recs + [r] <==> x in recs || x == r;
  }

  /** Then the last state reported is terminal just if some state reported is. */
  lemma {:induction false} QuietIff(recs: seq<Record>)
    requires NoTakeBack(recs)
    ensures Quiet(recs) <==> !IsTerminal(Reported(recs))
  {
    if recs != [] {
      var init, r := recs[..|recs| - 1], recs[|recs| - 1];
      assert recs == init + [r];
      QuietSnoc(init, r);
      QuietIff(init);
    }
  }

  /** Decided by its originating invoke alone: an invoke origin and no terminal report. */
  ghost predicate Plain(recs: seq<Record>) {
    recs != [] && Origin(recs).request.cmd == "invoke" && Quiet(recs)
  }

  lemma OriginFiled(log: Log, token: string)
    requires log.Valid() && ByToken(log, token) != []
    ensures var o := Origin(ByToken(log, token));
            && o in ByToken(log, token)
            && o.request.id in log.records && log.records[o.request.id] == o && o.request.jobToken == token
  {
    var recs := ByToken(log, token);
    assert recs[OriginAt(recs)] in recs;
    GroupMembers(log.order, log.records, token);
  }

  // -------------------------------------------------- the group that is left

  /** The records of a group that the next trim spares, told by its guard. */
  function Spared(log: Log, cap: nat, recs: seq<Record>): seq<Record> {
    if recs == [] then []
    else
      var last := recs[|recs| - 1];
      Spared(log, cap, recs[..|recs| - 1]) + if Evicts(log, cap, last.request.id) then [] else [last]
  }

  function Left(log: Log, cap: nat, token: string): seq<Record> {
    Spared(log, cap, ByToken(log, token))
  }

  lemma {:induction false} SparedMembers(log: Log, cap: nat, recs: seq<Record>)
    ensures forall r :: r in Spared(log, cap, recs) <==> r in recs && !Evicts(log, cap, r.request.id)
  {
    if recs != [] {
      SparedMembers(log, cap, recs[..|recs| - 1]);
      assert recs == recs[..|recs| - 1] + [recs[|recs| - 1]];
    }
  }

  lemma {:induction false} SparedAll(log: Log, cap: nat, recs: seq<Record>)
    requires forall r :: r in recs ==> !Evicts(log, cap, r.request.id)
    ensures Spared(log, cap, recs) == recs
  {
    if recs != [] {
      assert recs == recs[..|recs| - 1] + [recs[|recs| - 1]];
      SparedAll(log, cap, recs[..|recs| - 1]);
    }
  }

  lemma {:induction false} SparedConcat(log: Log, cap: nat, a: seq<Record>, b: seq<Record>)
    ensures Spared(log, cap, a + b) == Spared(log, cap, a) + Spared(log, cap, b)
  {
    if b == [] {
      assert a + b == a;
    } else {
      SparedConcat(log, cap, a, b[..|b| - 1]);
      assert (a + b)[..|a + b| - 1] == a + b[..|b| - 1];
    }
  }

  lemma {:induction false} UndoneConcat(a: seq<Record>, b: seq<Record>)
    ensures Undone(a + b) == Undone(a) + Undone(b)
  {
    if a == [] {
      assert a + b == b;
    } else {
      assert (a + b)[1..] == a[1..] + b;
      UndoneConcat(a[1..], b);
    }
  }

  /** Where just the done records go, the open ones are left. */
  lemma {:induction false} SparedIsUndone(log: Log, cap: nat, recs: seq<Record>)
    requires forall r :: r in recs ==> (Evicts(log, cap, r.request.id) <==> r.Done())
    ensures Spared(log, cap, recs) == Undone(recs)
  {
    if recs != [] {
      var init, last := recs[..|recs| - 1], recs[|recs| - 1];
      assert recs == init + [last];
      SparedIsUndone(log, cap, init);
      UndoneConcat(init, [last]);
    }
  }

  lemma SplitDistinct(order: seq<string>, k: nat, id: string)
    requires NoDuplicates(order) && k <= |order| && id in order[..k]
    ensures id !in order[k..]
  {
    var i :| 0 <= i < k && order[..k][i] == id;
    assert forall j :: k <= j < |order| ==> order[i] != order[j];
  }

  /** Before the cut just the done records go. */
  lemma FrontGuard(log: Log, cap: nat, k: nat, token: string, r: Record)
    requires TrimAt(log, Trimmed(log, cap), k) && r in Group(log.order[..k], log.records, token)
    ensures Evicts(log, cap, r.request.id) <==> r.Done()
  {
    GroupMembers(log.order[..k], log.records, token);
    var id :| id in log.order[..k] && id in log.records && log.records[id] == r;
    SplitDistinct(log.order, k, id);
    EvictedIff(log, cap, id);
  }

  /** Behind the cut nothing goes. */
  lemma BackGuard(log: Log, cap: nat, k: nat, token: string, r: Record)
    requires TrimAt(log, Trimmed(log, cap), k) && r in Group(log.order[k..], log.records, token)
    ensures !Evicts(log, cap, r.request.id)
  {
    GroupMembers(log.order[k..], log.records, token);
    var id :| id in log.order[k..] && id in log.records && log.records[id] == r;
    EvictedIff(log, cap, id);
  }

  /** The trim leaves of each group exactly what its guard spares. */
  lemma TrimmedIsLeft(log: Log, cap: nat, token: string)
    requires log.Valid()
    ensures ByToken(Trimmed(log, cap), token) == Left(log, cap, token)
  {
    if |log.order| < cap * 2 {
      SparedAll(log, cap, ByToken(log, token));
    } else {
      var k := TrimmedIsTrimAt(log, cap);
      var front, back := TrimmedGroup(log, Trimmed(log, cap), k, token);
      forall r | r in front ensures Evicts(log, cap, r.request.id) <==> r.Done() {
        FrontGuard(log, cap, k, token, r);
      }
      forall r | r in back ensures !Evicts(log, cap, r.request.id) {
        BackGuard(log, cap, k, token, r);
      }
      SparedConcat(log, cap, front, back);
      SparedIsUndone(log, cap, front);
      SparedAll(log, cap, back);
    }
  }

  /** What every job is after the trim, told before it. */
  lemma StageAfterTrim(log: Log, cap: nat, token: string)
    requires log.Valid()
    ensures StageAt(Trimmed(log, cap), token) ==
            if token == "" || Left(log, cap, token) == [] then None
            else Some(StageFrom(Left(log, cap, token), Stamp(log, token)))
  {
    TrimmedIsLeft(log, cap, token);
    if |log.order| >= cap * 2 && token != "" && Left(log, cap, token) != [] {
      TrimExact(log, cap);
      HasJob(Trimmed(log, cap), token);
      assert Stamp(Trimmed(log, cap), token).Some? <==> Stamp(log, token).Some?;
    }
  }

  /** A spared originator is the originator of what is left. */
  lemma SparedOrigin(log: Log, cap: nat, recs: seq<Record>)
    requires recs != [] && !Evicts(log, cap, Origin(recs).request.id)
    ensures Spared(log, cap, recs) != [] && Origin(Spared(log, cap, recs)) == Origin(recs)
  {
    var i := OriginAt(recs);
    var before, tail := recs[..i], [recs[i]] + recs[i + 1..];
    assert recs == before + tail;
    SparedConcat(log, cap, before, tail);
    SparedConcat(log, cap, [recs[i]], recs[i + 1..]);
    SparedAll(log, cap, [recs[i]]);
    var rest := Spared(log, cap, recs[i + 1..]);
    assert Spared(log, cap, recs) == Spared(log, cap, before) + ([recs[i]] + rest);
    SparedMembers(log, cap, before);
    SparedMembers(log, cap, recs[i + 1..]);
    OriginBetween(Spared(log, cap, before), recs[i], rest);
  }

  /** The first invoke is the originator, and a first record where no invoke is. */
  lemma OriginBetween(before: seq<Record>, o: Record, rest: seq<Record>)
    requires forall r :: r in before ==> r.request.cmd != "invoke"
    requires o.request.cmd != "invoke" ==> before == [] && forall r :: r in rest ==> r.request.cmd != "invoke"
    ensures Origin(before + ([o] + rest)) == o
  {
    var all := before + ([o] + rest);
    FirstOfMembers(before);
    FirstOfMembers(rest);
    FirstOfConcat(before, [o] + rest);
    FirstOfConcat([o], rest);
    OriginIsFirst(all);
  }

  lemma {:induction false} SparedTakesNothingBack(log: Log, cap: nat, recs: seq<Record>)
    requires NoTakeBack(recs)
    ensures NoTakeBack(Spared(log, cap, recs))
  {
    if recs != [] {
      var init, last := recs[..|recs| - 1], recs[|recs| - 1];
      SparedTakesNothingBack(log, cap, init);
      SparedMembers(log, cap, init);
      var left := Spared(log, cap, init);
      assert Quiet(init) ==> Quiet(left);
      if Evicts(log, cap, last.request.id) {
        assert Spared(log, cap, recs) == left;
      } else {
        assert (left + [last])[..|left + [last]| - 1] == left;
      }
    }
  }

  // -------------------------------------------------------------- live jobs

  /** The guard spares the originating record of the token's job. */
  predicate OriginSurvives(log: Log, cap: nat, token: string)
    requires ByToken(log, token) != []
  {
    !Evicts(log, cap, Origin(ByToken(log, token)).request.id)
  }

  /** A plain job whose originating record survives stays what and where it was. */
  lemma TrimKeepsJob(log: Log, cap: nat, token: string)
    requires log.Valid() && token != "" && Plain(ByToken(log, token))
    requires OriginSurvives(log, cap, token)
    ensures StageAt(Trimmed(log, cap), token) == StageAt(log, token)
    ensures Plain(ByToken(Trimmed(log, cap), token))
    ensures Origin(ByToken(Trimmed(log, cap), token)) == Origin(ByToken(log, token))
  {
    var recs, left := ByToken(log, token), Left(log, cap, token);
    SparedOrigin(log, cap, recs);
    assert Quiet(left) by {
      SparedMembers(log, cap, recs);
    }
    QuietReported(recs);
    QuietReported(left);
    TrimmedIsLeft(log, cap, token);
    StageAfterTrim(log, cap, token);
  }

  lemma LiveSince(log: Log, token: string)
    requires StageAt(log, token).Some? && StageAt(log, token).value.Live()
    ensures StageAt(log, token).value.since == Origin(ByToken(log, token)).reqReceived
  {
  }

  /** Without its originating record a job is gone, ended, or another job. */
  lemma OriginLost(log: Log, cap: nat, token: string)
    requires log.Valid() && ByToken(log, token) != [] && !OriginSurvives(log, cap, token)
    requires StageAt(log, token).Some? && StageAt(log, token).value.Live()
    requires forall a, b :: a in log.records && b in log.records && a != b
               ==> log.records[a].reqReceived != log.records[b].reqReceived
    ensures StageAt(Trimmed(log, cap), token) != StageAt(log, token)
  {
    var t, recs := Trimmed(log, cap), ByToken(log, token);
    OriginFiled(log, token);
    LiveSince(log, token);
    TrimmedIsLeft(log, cap, token);
    if StageAt(t, token).Some? && StageAt(t, token).value.Live() {
      LiveSince(t, token);
      var o := Origin(Left(log, cap, token));
      assert o in recs && !Evicts(log, cap, o.request.id) by {
        assert Left(log, cap, token)[OriginAt(Left(log, cap, token))] == o;
        SparedMembers(log, cap, recs);
      }
      GroupMembers(log.order, log.records, token);
      assert o.reqReceived != Origin(recs).reqReceived;
    }
  }

  /** Exactly when a trim leaves a live job alone: iff its guard spares the record of
      the originating invoke. */
  lemma TrimKeepsJobIff(log: Log, cap: nat, token: string)
    requires log.Valid() && StageAt(log, token).Some? && StageAt(log, token).value.Live()
    requires Plain(ByToken(log, token))
    requires forall a, b :: a in log.records && b in log.records && a != b
               ==> log.records[a].reqReceived != log.records[b].reqReceived
    ensures StageAt(Trimmed(log, cap), token) == StageAt(log, token) <==>
            !Evicts(log, cap, Origin(ByToken(log, token)).request.id)
  {
    if OriginSurvives(log, cap, token) {
      TrimKeepsJob(log, cap, token);
    } else {
      OriginLost(log, cap, token);
    }
  }

  // ------------------------------------------------------------- ended jobs

  predicate Answered(r: Record) {
    r.Done() && Answers(r.response)
  }

  /** Something of the token is left, but nothing that ended its job. */
  predicate Revives(log: Log, cap: nat, token: string) {
    Left(log, cap, token) != [] && !Settled(Left(log, cap, token))
  }

  /** Exactly when a trim makes an ended job live again. */
  lemma RevivedIff(log: Log, cap: nat, token: string)
    requires log.Valid() && StageAt(log, token) == Some(Ended)
    ensures StageAt(Trimmed(log, cap), token) == Some(Ended) || StageAt(Trimmed(log, cap), token).None?
            <==> !Revives(log, cap, token)
  {
    StageAfterTrim(log, cap, token);
  }

  /** With no terminal state taken back that means: a record of the token is spared,
      no terminal report is, and the first invoke spared, or the first record where
      there is none, has no answer. */
  lemma RevivesIff(log: Log, cap: nat, token: string)
    requires NoTakeBack(ByToken(log, token))
    ensures Revives(log, cap, token) <==>
            && Left(log, cap, token) != [] && !Answered(Origin(Left(log, cap, token)))
            && forall r :: r in ByToken(log, token) && TerminalReport(r) ==> Evicts(log, cap, r.request.id)
  {
    var recs, left := ByToken(log, token), Left(log, cap, token);
    SparedTakesNothingBack(log, cap, recs);
    QuietIff(left);
    SparedMembers(log, cap, recs);
  }

  /** A job ended by the answer to its originating invoke alone: it is revived iff the
      invoke is evicted and an unanswered originator is left. */
  lemma AnsweredRevivesIff(log: Log, cap: nat, token: string)
    requires ByToken(log, token) != [] && Quiet(ByToken(log, token)) && Answered(Origin(ByToken(log, token)))
    ensures Revives(log, cap, token) <==>
            && Evicts(log, cap, Origin(ByToken(log, token)).request.id)
            && Left(log, cap, token) != [] && !Answered(Origin(Left(log, cap, token)))
  {
    var recs, left := ByToken(log, token), Left(log, cap, token);
    assert Quiet(left) by {
      SparedMembers(log, cap, recs);
    }
    QuietReported(left);
    if OriginSurvives(log, cap, token) {
      SparedOrigin(log, cap, recs);
    }
  }

  /** A job ended by a report while its invoke stays open or accepted: if the invoke is
      spared, the job is revived iff every terminal report is evicted. */
  lemma ReportedRevivesIff(log: Log, cap: nat, token: string)
    requires ByToken(log, token) != [] && NoTakeBack(ByToken(log, token)) && !Answered(Origin(ByToken(log, token)))
    requires OriginSurvives(log, cap, token)
    ensures Revives(log, cap, token) <==>
            forall r :: r in ByToken(log, token) && TerminalReport(r) ==> Evicts(log, cap, r.request.id)
  {
    RevivesIff(log, cap, token);
    SparedOrigin(log, cap, ByToken(log, token));
  }

  // ------------------------------------------- what a trim can do to a job

  /** What is left of a token's records, one by one. */
  lemma LeftMembers(log: Log, cap: nat, token: string)
    requires log.Valid()
    ensures forall r :: r in Left(log, cap, token) <==>
              && r.request.id in log.records && log.records[r.request.id] == r && r.request.jobToken == token
              && !Evicts(log, cap, r.request.id)
  {
    GroupMembers(log.order, log.records, token);
    SparedMembers(log, cap, ByToken(log, token));
  }

  /** An open invoke of a stamped token, beside which nothing is left but reports of
      progress, makes the job run, whether it had ended or not. */
  lemma RevivedByTrim(log: Log, cap: nat, o: Record)
    requires log.Valid() && o.request.id in log.records && log.records[o.request.id] == o && !o.Done()
    requires o.request.cmd == "invoke" && o.request.jobToken != "" && o.request.jobToken in log.started
    requires forall k :: k in log.records && k != o.request.id && log.records[k].request.jobToken == o.request.jobToken
               ==> Evicts(log, cap, k)
                   || (log.records[k].request.cmd == "job_update" && !TerminalReport(log.records[k]))
    ensures StageAt(Trimmed(log, cap), o.request.jobToken) == Some(Running(o.target, o.reqReceived))
  {
    var left := Left(log, cap, o.request.jobToken);
    LeftMembers(log, cap, o.request.jobToken);
    assert o in left;
    assert Quiet(left);
    QuietReported(left);
    assert Origin(left) == o by {
      var j :| 0 <= j < |left| && left[j] == o;
      assert left[OriginAt(left)] in left;
    }
    StageAfterTrim(log, cap, o.request.jobToken);
  }

  /** Where of a token's records only answered reports of progress are left, its job is
      taken for over. */
  lemma TakenForOver(log: Log, cap: nat, token: string)
    requires log.Valid() && token != "" && Left(log, cap, token) != []
    requires forall k :: k in log.records && log.records[k].request.jobToken == token ==>
               Evicts(log, cap, k) || (log.records[k].request.cmd == "job_update" && Answered(log.records[k]))
    ensures StageAt(Trimmed(log, cap), token) == Some(Ended)
  {
    var left := Left(log, cap, token);
    LeftMembers(log, cap, token);
    assert left[OriginAt(left)] in left;
    StageAfterTrim(log, cap, token);
  }

  lemma TrimmedShape(log: Log, cap: nat)
    requires log.Valid()
    ensures Trimmed(log, cap).Valid()
  {
    if |log.order| >= cap * 2 {
      TrimExact(log, cap);
    }
  }

  /** A trim leaves something of a token that all records but one carry. */
  lemma SomethingLeft(log: Log, cap: nat, token: string, other: string)
    requires log.Valid() && token != "" && cap >= 2 && |log.order| >= cap * 2
    requires forall k :: k in log.records && k != other ==> log.records[k].request.jobToken == token
    ensures Left(log, cap, token) != []
  {
    var t := Trimmed(log, cap);
    var id := KeptBeside(log, cap, other);
    assert t.records[id].request.jobToken == token;
    TrimmedShape(log, cap);
    HasJob(t, token);
    TrimmedIsLeft(log, cap, token);
  }

  lemma KeptBeside(log: Log, cap: nat, other: string) returns (id: string)
    requires log.Valid() && cap >= 2 && |log.order| >= cap * 2
    ensures var t := Trimmed(log, cap).records;
            id != other && id in t && id in log.records && t[id] == log.records[id]
  {
    var t := Trimmed(log, cap);
    TrimExact(log, cap);
    assert t.order[0] != t.order[1];
    id := if t.order[0] != other then t.order[0] else t.order[1];
    assert id in t.order;
  }

  /** A done record with few done records before it goes. */
  lemma EvictedEarly(log: Log, cap: nat, i: nat)
    requires log.Valid() && i < |log.order| && DoneId(log.records, log.order[i])
    requires |log.order| >= cap * 2 && i + cap < |log.order|
    ensures Evicts(log, cap, log.order[i])
  {
    DoneCountBound(log.order[..i], log.records);
    assert EvictsAt(log, cap, i);
  }

  lemma {:induction false} DoneCountBound(order: seq<string>, records: map<string, Record>)
    ensures DoneCount(order, records) <= |order|
  {
    if order != [] {
      DoneCountBound(order[1..], records);
    }
  }
}
