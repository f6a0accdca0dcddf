/**
 Jobs are not stored: a job is the fold of the records that share its token,
 beside its promotion stamp.  This module gives the fold, abstracts it to an
 explicit three-stage machine (queued, running, ended), and proves that every
 write to the store is one step of that machine on one token.
 */
module Jobs {
  import opened Wrappers
  import opened Messages

  datatype Job = Job(token: string, target: string, capability: string, state: string,
                     queuedAt: Time, startedAt: Time, finishedAt: Time,
                     output: Option<string>, error: Option<string>,
                     message: string, messages: seq<string>, progress: int)

  predicate IsTerminal(state: string) {
    state == "done" || state == "failed"
  }

  // ------------------------------------------------------------- derivation

  /** The records of one token, oldest first. */
  function Group(order: seq<string>, records: map<string, Record>, token: string): seq<Record> {
    if order == [] then []
    else
      var rest := Group(order[..|order| - 1], records, token);
      var id := order[|order| - 1];
      if id in records && records[id].request.jobToken == token then rest + [records[id]] else rest
  }

  function ByToken(log: Log, token: string): seq<Record> {
    Group(log.order, log.records, token)
  }

  function UpdateReport(req: Request): Report {
    if req.params.Update? then req.params.report else EMPTY_REPORT
  }

  function FoldUpdate(j: Job, u: Report, at: Time): Job {
    var state := if u.state != "" then u.state else j.state;
    j.(state := state,
       message := if u.message != "" then u.message else j.message,
       messages := if u.message != "" then j.messages + [u.message] else j.messages,
       progress := if u.progress > 0 then u.progress else j.progress,
       output := if u.output.Some? then u.output else j.output,
       error := if u.error.Some? then u.error else j.error,
       finishedAt := if IsTerminal(state) then at else j.finishedAt)
  }

  function FoldAll(j: Job, recs: seq<Record>): Job {
    if recs == [] then j
    else
      var before := FoldAll(j, recs[..|recs| - 1]);
      var r := recs[|recs| - 1];
      if r.request.cmd == "job_update" then FoldUpdate(before, UpdateReport(r.request), r.reqReceived) else before
  }

  /** The first invoke record of the group, or its first record if it has none. */
  function OriginAt(recs: seq<Record>): (i: nat)
    requires recs != []
    ensures i < |recs|
    ensures forall j :: 0 <= j < i ==> recs[j].request.cmd != "invoke"
    ensures recs[i].request.cmd != "invoke" ==>
              i == 0 && forall j :: 0 <= j < |recs| ==> recs[j].request.cmd != "invoke"
  {
    if exists j :: 0 <= j < |recs| && recs[j].request.cmd == "invoke" then FirstInvoke(recs) else 0
  }

  function FirstInvoke(recs: seq<Record>): (i: nat)
    requires exists j :: 0 <= j < |recs| && recs[j].request.cmd == "invoke"
    ensures i < |recs| && recs[i].request.cmd == "invoke"
    ensures forall j :: 0 <= j < i ==> recs[j].request.cmd != "invoke"
  {
    if recs[0].request.cmd == "invoke" then 0
    else
      assert exists j :: 0 <= j < |recs[1..]| && recs[1..][j].request.cmd == "invoke" by {
        var j :| 0 <= j < |recs| && recs[j].request.cmd == "invoke";
        assert recs[1..][j - 1].request.cmd == "invoke";
      }
      1 + FirstInvoke(recs[1..])
  }

  function Origin(recs: seq<Record>): Record
    requires recs != []
  {
    recs[OriginAt(recs)]
  }

  function Conclude(j: Job, orig: Record, started: bool): Job {
    if IsTerminal(j.state) then j
    else if orig.Done() && orig.response.status == "error" then
      j.(state := "failed", finishedAt := orig.respReceived, error := orig.response.error)
    else if orig.Done() && orig.response.status == "ok" && !orig.response.result.accepted then
      j.(state := "done", finishedAt := orig.respReceived,
         output := Some(if orig.response.result.name != "" then orig.response.result.output
                        else orig.response.result.raw))
    else j.(state := if started then "running" else "queued")
  }

  /** Before any report: the originator's job, and its promotion. */
  function Blank(token: string, orig: Record, stamp: Option<Time>): Job {
    Job(token, orig.target, orig.capability, "", orig.reqReceived, if stamp.Some? then stamp.value else 0, 0,
        None, None, "", [], 0)
  }

  function Derive(token: string, recs: seq<Record>, stamp: Option<Time>): Job
    requires recs != []
  {
    Conclude(FoldAll(Blank(token, Origin(recs), stamp), recs), Origin(recs), stamp.Some?)
  }

  function Stamp(log: Log, token: string): Option<Time> {
    if token in log.started then Some(log.started[token]) else None
  }

  function JobOf(log: Log, token: string): Option<Job> {
    var recs := ByToken(log, token);
    if recs == [] then None else Some(Derive(token, recs, Stamp(log, token)))
  }

  // ------------------------------------------------------ the explicit machine

  /** The lock-relevant part of a job: where it stands, and what it reserves. */
  datatype Stage = Queued(root: string, since: Time) | Running(root: string, since: Time) | Ended {
    predicate Live() {
      !Ended?
    }
  }

  function StageOf(j: Job): Stage {
    if j.state == "queued" then Queued(j.target, j.queuedAt)
    else if j.state == "running" then Running(j.target, j.queuedAt)
    else Ended
  }

  /** The state the reports alone leave: the last one that is not empty. */
  function Reported(recs: seq<Record>): string {
    if recs == [] then ""
    else
      var r := recs[|recs| - 1];
      if r.request.cmd == "job_update" && UpdateReport(r.request).state != "" then UpdateReport(r.request).state
      else Reported(recs[..|recs| - 1])
  }

  /** A response that ends a job: an error, or an ok that is no async acceptance. */
  predicate Answers(resp: Response) {
    resp.status == "error" || (resp.status == "ok" && !resp.result.accepted)
  }

  predicate Settled(recs: seq<Record>)
    requires recs != []
  {
    IsTerminal(Reported(recs)) || (Origin(recs).Done() && Answers(Origin(recs).response))
  }

  function StageFrom(recs: seq<Record>, stamp: Option<Time>): Stage
    requires recs != []
  {
    var orig := Origin(recs);
    if Settled(recs) then Ended
    else if stamp.Some? then Running(orig.target, orig.reqReceived)
    else Queued(orig.target, orig.reqReceived)
  }

  /** The job the store derives for a token, as a stage of the explicit machine. */
  function StageAt(log: Log, token: string): Option<Stage> {
    var recs := ByToken(log, token);
    if token == "" || recs == [] then None else Some(StageFrom(recs, Stamp(log, token)))
  }

  /** Every job the store derives. */
  function View(log: Log): map<string, Stage> {
    map t | t in LiveTokens(log.records) && StageAt(log, t).Some? :: StageAt(log, t).value
  }

  lemma {:induction false} FoldState(j: Job, recs: seq<Record>)
    requires j.state == ""
    ensures FoldAll(j, recs).state == Reported(recs)
    ensures FoldAll(j, recs).target == j.target && FoldAll(j, recs).queuedAt == j.queuedAt
  {
    if recs != [] {
      FoldState(j, recs[..|recs| - 1]);
    }
  }

  /** The derived job, abstracted, is the stage read off its records and stamp. */
  lemma DerivedStage(log: Log, token: string)
    ensures JobOf(log, token).Some? <==> ByToken(log, token) != []
    ensures JobOf(log, token).Some? ==>
              StageOf(JobOf(log, token).value) == StageFrom(ByToken(log, token), Stamp(log, token))
  {
    var recs := ByToken(log, token);
    if recs != [] {
      FoldState(Blank(token, Origin(recs), Stamp(log, token)), recs);
    }
  }

  // ----------------------------------------------- how writes change a group

  lemma {:induction false} GroupMembers(order: seq<string>, records: map<string, Record>, token: string)
    ensures forall r :: r in Group(order, records, token) <==>
              exists id :: id in order && id in records && records[id] == r && r.request.jobToken == token
  {
    if order != [] {
      GroupMembers(order[..|order| - 1], records, token);
      assert order == order[..|order| - 1] + [order[|order| - 1]];
    }
  }

  lemma {:induction false} GroupFrame(order: seq<string>, records: map<string, Record>, records': map<string, Record>,
                                      token: string)
    requires forall id :: id in order ==>
               (id in records <==> id in records') && (id in records ==> records'[id] == records[id])
    ensures Group(order, records', token) == Group(order, records, token)
  {
    if order != [] {
      GroupFrame(order[..|order| - 1], records, records', token);
    }
  }

  /** A token has a job just when some record carries it. */
  lemma HasJob(log: Log, token: string)
    requires log.Valid()
    ensures StageAt(log, token).Some? <==> token in LiveTokens(log.records)
  {
    GroupMembers(log.order, log.records, token);
    var recs := ByToken(log, token);
    if recs != [] {
      assert recs[0] in recs;
    }
    if token in LiveTokens(log.records) {
      var id :| id in log.records && log.records[id].request.jobToken == token;
      assert log.records[id] in recs;
    }
  }

  /** The view, token by token. */
  lemma ViewAt(log: Log)
    requires log.Valid()
    ensures forall t :: t in View(log) <==> StageAt(log, t).Some?
    ensures forall t :: t in View(log) ==> View(log)[t] == StageAt(log, t).value
  {
    forall t ensures StageAt(log, t).Some? ==> t in LiveTokens(log.records) {
      HasJob(log, t);
    }
  }

  /** Opening a new id appends its record to its own token's group only. */
  lemma GroupAdded(log: Log, r: Record, token: string)
    requires log.Valid() && r.request.id !in log.records
    ensures ByToken(Added(log, r), token) ==
            ByToken(log, token) + (if r.request.jobToken == token then [r] else [])
  {
    var order := log.order + [r.request.id];
    assert order[..|order| - 1] == log.order;
    GroupFrame(log.order, log.records, Added(log, r).records, token);
  }

  function Answer(r: Record, id: string, resp: Response, now: Time): Record {
    if r.request.id == id then r.(response := resp, respReceived := now) else r
  }

  lemma {:induction false} GroupAnswered(order: seq<string>, records: map<string, Record>, token: string,
                                         id: string, resp: Response, now: Time)
    requires forall k :: k in records ==> records[k].request.id == k
    requires id in records
    ensures var after := records[id := records[id].(response := resp, respReceived := now)];
            var g := Group(order, records, token);
            var g' := Group(order, after, token);
            |g'| == |g| && forall i :: 0 <= i < |g| ==> g'[i] == Answer(g[i], id, resp, now)
  {
    if order != [] {
      GroupAnswered(order[..|order| - 1], records, token, id, resp, now);
    }
  }

  /** Filing responses changes neither what was reported nor which record is the origin. */
  lemma {:induction false} AnsweredReports(recs: seq<Record>, recs': seq<Record>, id: string, resp: Response, now: Time)
    requires |recs'| == |recs| && forall i :: 0 <= i < |recs| ==> recs'[i] == Answer(recs[i], id, resp, now)
    ensures Reported(recs') == Reported(recs)
    ensures recs != [] ==> OriginAt(recs') == OriginAt(recs)
  {
    if recs != [] {
      AnsweredReports(recs[..|recs| - 1], recs'[..|recs| - 1], id, resp, now);
      assert recs'[OriginAt(recs)].request == recs[OriginAt(recs)].request;
      assert recs[OriginAt(recs')].request == recs'[OriginAt(recs')].request;
    }
  }

  lemma AppendOrigin(recs: seq<Record>, r: Record)
    requires recs != []
    requires r.request.cmd != "invoke" || Origin(recs).request.cmd == "invoke"
    ensures Origin(recs + [r]) == Origin(recs)
  {
    var i, k := OriginAt(recs), OriginAt(recs + [r]);
    assert (recs + [r])[i] == recs[i];
    if k < |recs| {
      assert (recs + [r])[k] == recs[k];
    }
  }

  lemma AppendReported(recs: seq<Record>, r: Record)
    ensures Reported(recs + [r]) ==
            if r.request.cmd == "job_update" && UpdateReport(r.request).state != ""
            then UpdateReport(r.request).state else Reported(recs)
  {
    assert (recs + [r])[..|recs|] == recs;
  }

  // -------------------------------- every write is one step on one token's job

  lemma AddedOther(log: Log, r: Record, t: string)
    requires log.Valid() && r.request.id !in log.records && r.request.jobToken != t
    ensures StageAt(Added(log, r), t) == StageAt(log, t)
  {
    GroupAdded(log, r, t);
    assert ByToken(log, t) + [] == ByToken(log, t);
  }

  lemma FirstRecordWaits(r: Record)
    requires r.request.cmd == "invoke" && !r.Done()
    ensures StageFrom([r], None) == Queued(r.target, r.reqReceived)
  {
    assert Reported([r]) == Reported([r][..0]);
  }

  /** The originating invoke of a fresh token enqueues its job. */
  lemma OpenEnqueues(log: Log, r: Record)
    requires log.Valid() && r.request.id !in log.records && !r.Done()
    requires r.request.cmd == "invoke" && r.request.jobToken != ""
    requires StageAt(log, r.request.jobToken).None? && r.request.jobToken !in log.started
    ensures StageAt(Added(log, r), r.request.jobToken) == Some(Queued(r.target, r.reqReceived))
    ensures ByToken(Added(log, r), r.request.jobToken) == [r]
  {
    GroupAdded(log, r, r.request.jobToken);
    assert ByToken(log, r.request.jobToken) == [];
    assert ByToken(Added(log, r), r.request.jobToken) == [r];
    FirstRecordWaits(r);
  }

  /** A hop's record on a token that has its originating invoke moves its job not. */
  lemma OpenHopMovesNothing(log: Log, r: Record)
    requires log.Valid() && r.request.id !in log.records
    requires r.request.cmd == "invoke" && StageAt(log, r.request.jobToken).Some?
    requires Origin(ByToken(log, r.request.jobToken)).request.cmd == "invoke"
    ensures StageAt(Added(log, r), r.request.jobToken) == StageAt(log, r.request.jobToken)
  {
    GroupAdded(log, r, r.request.jobToken);
    AppendOrigin(ByToken(log, r.request.jobToken), r);
    AppendReported(ByToken(log, r.request.jobToken), r);
  }

  /** A hop opened on these records finds an originator, or a terminal report, on file. */
  predicate KeepsItsJob(recs: seq<Record>) {
    recs != [] && (Origin(recs).request.cmd == "invoke" || IsTerminal(Reported(recs)))
  }

  /** Exactly when a hop leaves the job of its token alone, whether that runs, has ended
      or is forgotten. */
  lemma OpenHopIff(log: Log, r: Record)
    requires log.Valid() && r.request.id !in log.records && !r.Done()
    requires r.request.cmd == "invoke" && r.request.jobToken != ""
    requires var s := StageAt(log, r.request.jobToken);
             s.Some? && s.value.Live() ==> Origin(ByToken(log, r.request.jobToken)).request.cmd == "invoke"
    ensures StageAt(Added(log, r), r.request.jobToken) == StageAt(log, r.request.jobToken) <==>
            KeepsItsJob(ByToken(log, r.request.jobToken))
  {
    var recs := ByToken(log, r.request.jobToken);
    if recs != [] && Origin(recs).request.cmd == "invoke" {
      OpenHopMovesNothing(log, r);
    } else {
      GroupAdded(log, r, r.request.jobToken);
      LateOrigin(recs, r);
      AppendReported(recs, r);
    }
  }

  /** Where no invoke is on file the hop itself becomes the originator. */
  lemma LateOrigin(recs: seq<Record>, r: Record)
    requires r.request.cmd == "invoke" && (recs == [] || Origin(recs).request.cmd != "invoke")
    ensures Origin(recs + [r]) == r
  {
    var all := recs + [r];
    assert all[|recs|] == r;
    assert forall i :: 0 <= i < |recs| ==> all[i] == recs[i] && recs[i].request.cmd != "invoke";
  }

  /** A hop on a token that a trim has forgotten queues a job of its own, rooted where
      the hop goes. */
  lemma ForgottenHopQueues(log: Log, r: Record)
    requires log.Valid() && r.request.id !in log.records && !r.Done()
    requires r.request.cmd == "invoke" && r.request.jobToken != ""
    requires ByToken(log, r.request.jobToken) == [] && r.request.jobToken !in log.started
    ensures StageAt(Added(log, r), r.request.jobToken) == Some(Queued(r.target, r.reqReceived))
  {
    OpenEnqueues(log, r);
  }

  /** A report ends its job when it is terminal and moves it not otherwise, unless
      it takes back a terminal state reported before. */
  lemma OpenReportEnds(log: Log, r: Record)
    requires log.Valid() && r.request.id !in log.records
    requires r.request.cmd == "job_update" && StageAt(log, r.request.jobToken).Some?
    requires var s := UpdateReport(r.request).state;
             s == "" || IsTerminal(s) || !IsTerminal(Reported(ByToken(log, r.request.jobToken)))
    ensures StageAt(Added(log, r), r.request.jobToken) ==
            if IsTerminal(UpdateReport(r.request).state) then Some(Ended) else StageAt(log, r.request.jobToken)
  {
    GroupAdded(log, r, r.request.jobToken);
    AppendOrigin(ByToken(log, r.request.jobToken), r);
    AppendReported(ByToken(log, r.request.jobToken), r);
  }

  /** Is `id` the record that decides its token's job? */
  predicate IsOrigin(log: Log, id: string) {
    && id in log.records
    && var recs := ByToken(log, log.records[id].request.jobToken);
       recs != [] && Origin(recs).request.id == id
  }

  /** A response ends the job of the origin record it answers, if it is terminal,
      and moves no job otherwise. */
  lemma CompleteEnds(log: Log, id: string, resp: Response, now: Time, t: string)
    requires log.Valid() && id in log.records && !log.records[id].Done() && now > 0
    ensures StageAt(Completed(log, id, resp, now), t) ==
            if t != "" && t == log.records[id].request.jobToken && IsOrigin(log, id) && Answers(resp) then Some(Ended)
            else StageAt(log, t)
  {
    var after := Completed(log, id, resp, now);
    var recs, recs' := ByToken(log, t), ByToken(after, t);
    GroupAnswered(log.order, log.records, t, id, resp, now);
    if recs != [] {
      AnsweredReports(recs, recs', id, resp, now);
      assert Origin(recs') == Answer(Origin(recs), id, resp, now);
      OriginOnFile(log, t);
    }
  }

  lemma OriginOnFile(log: Log, t: string)
    requires log.Valid() && ByToken(log, t) != []
    ensures var o := Origin(ByToken(log, t));
            o.request.id in log.records && log.records[o.request.id] == o && o.request.jobToken == t
  {
    var recs := ByToken(log, t);
    GroupMembers(log.order, log.records, t);
    assert recs[OriginAt(recs)] in recs;
  }

  /** A stamp moves exactly its own job from queued to running. */
  lemma StartPromotes(log: Log, token: string, now: Time, t: string)
    ensures StageAt(Started(log, token, now), t) ==
            var s := StageAt(log, t);
            if t == token && s.Some? && s.value.Queued? then Some(Running(s.value.root, s.value.since)) else s
  {
  }

  // ------------------------------------------------ what a derived job says

  predicate IsReport(r: Record) {
    r.request.cmd == "job_update"
  }

  /** `i` is the last of the records that has the property, -1 if none has it. */
  ghost predicate LastWhere(recs: seq<Record>, has: Record -> bool, i: int) {
    -1 <= i < |recs| && (i >= 0 ==> has(recs[i])) && forall j :: i < j < |recs| ==> !has(recs[j])
  }

  lemma LastWherePrefix(recs: seq<Record>, has: Record -> bool, i: int)
    requires recs != [] && LastWhere(recs, has, i)
    ensures has(recs[|recs| - 1]) <==> i == |recs| - 1
    ensures i < |recs| - 1 ==> LastWhere(recs[..|recs| - 1], has, i)
  {
  }

  /** Of any property there is a last. */
  lemma {:induction false} LastExists(recs: seq<Record>, has: Record -> bool) returns (i: int)
    ensures LastWhere(recs, has, i)
  {
    if recs == [] {
      i := -1;
    } else if has(recs[|recs| - 1]) {
      i := |recs| - 1;
    } else {
      i := LastExists(recs[..|recs| - 1], has);
    }
  }

  /** The state reported is that of the last report that names one. */
  lemma {:induction false} ReportedTold(recs: seq<Record>, i: int)
    requires LastWhere(recs, r => IsReport(r) && UpdateReport(r.request).state != "", i)
    ensures Reported(recs) == if i < 0 then "" else UpdateReport(recs[i].request).state
  {
    if recs != [] && i < |recs| - 1 {
      LastWherePrefix(recs, r => IsReport(r) && UpdateReport(r.request).state != "", i);
      ReportedTold(recs[..|recs| - 1], i);
    }
  }

  lemma {:induction false} FoldedError(j: Job, recs: seq<Record>, i: int)
    requires LastWhere(recs, r => IsReport(r) && UpdateReport(r.request).error.Some?, i)
    ensures FoldAll(j, recs).error == if i < 0 then j.error else UpdateReport(recs[i].request).error
  {
    if recs != [] && i < |recs| - 1 {
      LastWherePrefix(recs, r => IsReport(r) && UpdateReport(r.request).error.Some?, i);
      FoldedError(j, recs[..|recs| - 1], i);
    }
  }

  lemma {:induction false} FoldedOutput(j: Job, recs: seq<Record>, i: int)
    requires LastWhere(recs, r => IsReport(r) && UpdateReport(r.request).output.Some?, i)
    ensures FoldAll(j, recs).output == if i < 0 then j.output else UpdateReport(recs[i].request).output
  {
    if recs != [] && i < |recs| - 1 {
      LastWherePrefix(recs, r => IsReport(r) && UpdateReport(r.request).output.Some?, i);
      FoldedOutput(j, recs[..|recs| - 1], i);
    }
  }

  lemma {:induction false} FoldedProgress(j: Job, recs: seq<Record>, i: int)
    requires LastWhere(recs, r => IsReport(r) && UpdateReport(r.request).progress > 0, i)
    ensures FoldAll(j, recs).progress == if i < 0 then j.progress else UpdateReport(recs[i].request).progress
  {
    if recs != [] && i < |recs| - 1 {
      LastWherePrefix(recs, r => IsReport(r) && UpdateReport(r.request).progress > 0, i);
      FoldedProgress(j, recs[..|recs| - 1], i);
    }
  }

  /** `at` are, in order, exactly the records that have the property. */
  ghost predicate AllWhere(recs: seq<Record>, has: Record -> bool, at: seq<nat>) {
    && (forall k :: 0 <= k < |at| ==> at[k] < |recs| && has(recs[at[k]]))
    && (forall k, l :: 0 <= k < l < |at| ==> at[k] < at[l])
    && (forall i: nat :: i < |recs| && has(recs[i]) ==> i in at)
  }

  lemma AllWhereOn(recs: seq<Record>, r: Record, has: Record -> bool, at: seq<nat>)
    requires AllWhere(recs, has, at)
    ensures has(r) ==> AllWhere(recs + [r], has, at + [|recs|])
    ensures !has(r) ==> AllWhere(recs + [r], has, at)
  {
    var all, more := recs + [r], at + [|recs|];
    assert all[|recs|] == r && forall i :: 0 <= i < |recs| ==> all[i] == recs[i];
    assert |recs| in more && forall i :: i in at ==> i in more;
  }

  predicate Speaks(r: Record) {
    IsReport(r) && UpdateReport(r.request).message != ""
  }

  /** The messages of the reports at `at`, and the last of them. */
  ghost predicate Says(recs: seq<Record>, at: seq<nat>, messages: seq<string>, message: string) {
    && |messages| == |at|
    && (forall k :: 0 <= k < |at| ==>
          at[k] < |recs| && messages[k] == UpdateReport(recs[at[k]].request).message)
    && message == if messages == [] then "" else messages[|messages| - 1]
  }

  lemma SaysOn(recs: seq<Record>, r: Record, at: seq<nat>, messages: seq<string>, message: string)
    requires Says(recs, at, messages, message)
    ensures Says(recs + [r], at, messages, message)
    ensures var m := UpdateReport(r.request).message; Says(recs + [r], at + [|recs|], messages + [m], m)
  {
    var all := recs + [r];
    assert all[|recs|] == r && forall i :: 0 <= i < |recs| ==> all[i] == recs[i];
  }

  /** The messages, by the reports at `at` that bring them. */
  lemma {:induction false} FoldedMessages(j: Job, recs: seq<Record>) returns (at: seq<nat>)
    requires j.messages == [] && j.message == ""
    ensures AllWhere(recs, Speaks, at) && Says(recs, at, FoldAll(j, recs).messages, FoldAll(j, recs).message)
  {
    if recs == [] {
      at := [];
    } else {
      var init, last := recs[..|recs| - 1], recs[|recs| - 1];
      assert recs == init + [last];
      at := FoldedMessages(j, init);
      AllWhereOn(init, last, Speaks, at);
      SaysOn(init, last, at, FoldAll(j, init).messages, FoldAll(j, init).message);
      if Speaks(last) {
        at := at + [|init|];
      }
    }
  }

  /** At `i` a report came in and left the state reported terminal; after it none did. */
  ghost predicate LastEnding(recs: seq<Record>, i: int) {
    && -1 <= i < |recs| && (i >= 0 ==> IsReport(recs[i]) && IsTerminal(Reported(recs[..i + 1])))
    && forall j {:trigger recs[j]} :: i < j < |recs| && IsReport(recs[j]) ==> !IsTerminal(Reported(recs[..j + 1]))
  }

  lemma {:induction false} FoldedFinish(j: Job, recs: seq<Record>, i: int)
    requires j.state == "" && LastEnding(recs, i)
    ensures FoldAll(j, recs).finishedAt == if i < 0 then j.finishedAt else recs[i].reqReceived
  {
    if recs != [] {
      var n := |recs| - 1;
      assert recs[..n + 1] == recs;
      FoldState(j, recs);
      if i < n {
        var last := recs[n];
        forall k | 0 <= k < n ensures recs[..n][k] == recs[k] && recs[..n][..k + 1] == recs[..k + 1] {
        }
        FoldedFinish(j, recs[..n], i);
      }
    }
  }

  /** The originating response alone decides: no report is terminal, and there is one. */
  predicate ResponseDecides(recs: seq<Record>)
    requires recs != []
  {
    !IsTerminal(Reported(recs)) && Origin(recs).Done()
  }

  lemma DerivedFrom(log: Log, token: string)
    requires ByToken(log, token) != []
    ensures var recs, stamp := ByToken(log, token), Stamp(log, token);
            var folded := FoldAll(Blank(token, Origin(recs), stamp), recs);
            JobOf(log, token) == Some(Conclude(folded, Origin(recs), stamp.Some?)) && folded.state == Reported(recs)
  {
    FoldState(Blank(token, Origin(ByToken(log, token)), Stamp(log, token)), ByToken(log, token));
  }

  lemma ConcludeKeeps(j: Job, orig: Record, started: bool)
    ensures var c := Conclude(j, orig, started);
            && c.token == j.token && c.target == j.target && c.capability == j.capability
            && c.queuedAt == j.queuedAt && c.startedAt == j.startedAt
            && c.message == j.message && c.messages == j.messages && c.progress == j.progress
  {
  }

  lemma {:induction false} FoldKeeps(j: Job, recs: seq<Record>)
    ensures var f := FoldAll(j, recs);
            && f.token == j.token && f.target == j.target && f.capability == j.capability
            && f.queuedAt == j.queuedAt && f.startedAt == j.startedAt
  {
    if recs != [] {
      FoldKeeps(j, recs[..|recs| - 1]);
    }
  }

  /** Where a derived job comes from, and when it was enqueued and promoted. */
  lemma JobSource(log: Log, token: string)
    requires ByToken(log, token) != []
    ensures JobOf(log, token).Some?
    ensures var o, j := Origin(ByToken(log, token)), JobOf(log, token).value;
            && j.token == token && j.target == o.target && j.capability == o.capability && j.queuedAt == o.reqReceived
            && j.startedAt == if token in log.started then log.started[token] else 0
  {
    var recs := ByToken(log, token);
    var blank := Blank(token, Origin(recs), Stamp(log, token));
    DerivedFrom(log, token);
    FoldKeeps(blank, recs);
    ConcludeKeeps(FoldAll(blank, recs), Origin(recs), Stamp(log, token).Some?);
  }

  /** Its state: a terminal one reported, else what the originating response says, else
      whether it was promoted. */
  lemma JobState(log: Log, token: string)
    requires ByToken(log, token) != []
    ensures JobOf(log, token).Some?
    ensures var recs, j := ByToken(log, token), JobOf(log, token).value;
            && (IsTerminal(Reported(recs)) ==> j.state == Reported(recs))
            && (ResponseDecides(recs) && Origin(recs).response.status == "error" ==> j.state == "failed")
            && (ResponseDecides(recs) && Origin(recs).response.status == "ok" ==>
                  if !Origin(recs).response.result.accepted then j.state == "done" else !IsTerminal(j.state))
            && (!IsTerminal(Reported(recs)) && !(Origin(recs).Done() && Answers(Origin(recs).response)) ==>
                  j.state == if token in log.started then "running" else "queued")
  {
    DerivedFrom(log, token);
  }

  /** Its error: that of an error response that decides it, else the last one reported. */
  lemma JobError(log: Log, token: string, i: int)
    requires ByToken(log, token) != []
    requires LastWhere(ByToken(log, token), r => IsReport(r) && UpdateReport(r.request).error.Some?, i)
    ensures JobOf(log, token).Some?
    ensures var recs := ByToken(log, token);
            JobOf(log, token).value.error ==
            if ResponseDecides(recs) && Origin(recs).response.status == "error" then Origin(recs).response.error
            else if i < 0 then None else UpdateReport(recs[i].request).error
  {
    var recs := ByToken(log, token);
    var blank := Blank(token, Origin(recs), Stamp(log, token));
    DerivedFrom(log, token);
    FoldedError(blank, recs, i);
  }

  /** Its output: that of an ok response that decides it, else the last one reported. */
  lemma JobOutput(log: Log, token: string, i: int)
    requires ByToken(log, token) != []
    requires LastWhere(ByToken(log, token), r => IsReport(r) && UpdateReport(r.request).output.Some?, i)
    ensures JobOf(log, token).Some?
    ensures var recs := ByToken(log, token);
            var result := Origin(recs).response.result;
            JobOf(log, token).value.output ==
            if ResponseDecides(recs) && Origin(recs).response.status == "ok" && !result.accepted then
              Some(if result.name != "" then result.output else result.raw)
            else if i < 0 then None else UpdateReport(recs[i].request).output
  {
    var recs := ByToken(log, token);
    var blank := Blank(token, Origin(recs), Stamp(log, token));
    DerivedFrom(log, token);
    FoldedOutput(blank, recs, i);
  }

  /** Its messages: those reported, in order; and the last of them. */
  lemma JobMessages(log: Log, token: string) returns (at: seq<nat>)
    requires ByToken(log, token) != []
    ensures AllWhere(ByToken(log, token), Speaks, at) && JobOf(log, token).Some?
    ensures var recs, j := ByToken(log, token), JobOf(log, token).value;
            && |j.messages| == |at|
            && (forall k :: 0 <= k < |at| ==>
                  at[k] < |recs| && j.messages[k] == UpdateReport(recs[at[k]].request).message)
            && j.message == if j.messages == [] then "" else j.messages[|j.messages| - 1]
  {
    var recs := ByToken(log, token);
    var blank := Blank(token, Origin(recs), Stamp(log, token));
    DerivedFrom(log, token);
    ConcludeKeeps(FoldAll(blank, recs), Origin(recs), Stamp(log, token).Some?);
    at := FoldedMessages(blank, recs);
  }

  /** Its progress: the last positive one reported. */
  lemma JobProgress(log: Log, token: string, i: int)
    requires ByToken(log, token) != []
    requires LastWhere(ByToken(log, token), r => IsReport(r) && UpdateReport(r.request).progress > 0, i)
    ensures JobOf(log, token).Some?
    ensures JobOf(log, token).value.progress ==
            if i < 0 then 0 else UpdateReport(ByToken(log, token)[i].request).progress
  {
    var recs := ByToken(log, token);
    var blank := Blank(token, Origin(recs), Stamp(log, token));
    DerivedFrom(log, token);
    FoldedProgress(blank, recs, i);
  }

  /** When it finished: with the response that decides it, else with the last report that
      left it in a terminal state. */
  lemma JobFinish(log: Log, token: string, i: int)
    requires ByToken(log, token) != [] && LastEnding(ByToken(log, token), i)
    ensures JobOf(log, token).Some?
    ensures var recs := ByToken(log, token);
            JobOf(log, token).value.finishedAt ==
            if ResponseDecides(recs) && Answers(Origin(recs).response) then Origin(recs).respReceived
            else if i < 0 then 0 else recs[i].reqReceived
  {
    var recs := ByToken(log, token);
    var blank := Blank(token, Origin(recs), Stamp(log, token));
    DerivedFrom(log, token);
    FoldedFinish(blank, recs, i);
  }

  /** What the answer to the originating exchange makes of a job no report has ended: an
      error fails it with that error, an ok that is no acceptance completes it, and an
      acceptance leaves it unfinished. */
  lemma AnswerDecides(log: Log, id: string, resp: Response, now: Time)
    requires log.Valid() && IsOrigin(log, id) && !log.records[id].Done() && now > 0
    requires !IsTerminal(Reported(ByToken(log, log.records[id].request.jobToken)))
    ensures var j := JobOf(Completed(log, id, resp, now), log.records[id].request.jobToken);
            && j.Some?
            && (resp.status == "error" ==>
                  j.value.state == "failed" && j.value.error == resp.error && j.value.finishedAt == now)
            && (resp.status == "ok" && !resp.result.accepted ==>
                  && j.value.state == "done" && j.value.finishedAt == now
                  && j.value.output == Some(if resp.result.name != "" then resp.result.output else resp.result.raw))
            && (resp.status == "ok" && resp.result.accepted ==>
                  j.value.state == "running" || j.value.state == "queued")
  {
    var t, after := log.records[id].request.jobToken, Completed(log, id, resp, now);
    AnswerFiled(log, id, resp, now);
    JobState(after, t);
    var e := LastExists(ByToken(after, t), r => IsReport(r) && UpdateReport(r.request).error.Some?);
    JobError(after, t, e);
    var o := LastExists(ByToken(after, t), r => IsReport(r) && UpdateReport(r.request).output.Some?);
    JobOutput(after, t, o);
    var f := LastEndingExists(ByToken(after, t));
    JobFinish(after, t, f);
  }

  lemma AnswerFiled(log: Log, id: string, resp: Response, now: Time)
    requires log.Valid() && IsOrigin(log, id)
    ensures var t, after := log.records[id].request.jobToken, Completed(log, id, resp, now);
            && ByToken(after, t) != [] && Reported(ByToken(after, t)) == Reported(ByToken(log, t))
            && Origin(ByToken(after, t)).response == resp && Origin(ByToken(after, t)).respReceived == now
  {
    var t, after := log.records[id].request.jobToken, Completed(log, id, resp, now);
    GroupAnswered(log.order, log.records, t, id, resp, now);
    AnsweredReports(ByToken(log, t), ByToken(after, t), id, resp, now);
  }

  lemma {:induction false} LastEndingExists(recs: seq<Record>) returns (i: int)
    ensures LastEnding(recs, i)
  {
    if recs == [] {
      i := -1;
    } else {
      var n := |recs| - 1;
      assert recs[..n + 1] == recs;
      forall k | 0 <= k < n ensures recs[..n][k] == recs[k] && recs[..n][..k + 1] == recs[..k + 1] {
      }
      i := LastEndingExists(recs[..n]);
      if IsReport(recs[n]) && IsTerminal(Reported(recs)) {
        i := n;
      }
    }
  }
}
