/**
 The record log of a run: what holds of it between writes, and how each write, with
 the trim behind it, moves the jobs derived from it.
 */
module JobLog {
  import opened Wrappers
  import opened Messages
  import opened Jobs
  import opened Trimming
  import opened MessageStore
  import opened Queue
  import P = Protocol

  /** The guard of the trim that follows spares the originating record of every live job;
      and of an ended job it spares nothing, or something that ended it. */
  ghost predicate TrimSpares(log: Log) {
    forall t :: StageAt(log, t).Some? ==>
      if StageAt(log, t).value.Live() then OriginSurvives(log, MAX_RECORDS, t) else !Revives(log, MAX_RECORDS, t)
  }

  // --------------------------------------------------- what holds of the log

  /** The job is decided by its originating invoke, the one with the empty caller. */
  ghost predicate Rooted(log: Log, t: string) {
    Plain(ByToken(log, t)) && Origin(ByToken(log, t)).caller == ""
  }

  ghost predicate LiveAt(log: Log, t: string) {
    StageAt(log, t).Some? && StageAt(log, t).value.Live()
  }

  predicate Originates(r: Record) {
    r.request.cmd == "invoke" && r.caller == ""
  }

  ghost predicate Rooting(log: Log) {
    && (forall t :: LiveAt(log, t) ==> Rooted(log, t))
    && (forall a, b :: a in log.records && b in log.records && a != b
          && Originates(log.records[a]) && Originates(log.records[b])
          ==> log.records[a].request.jobToken != log.records[b].request.jobToken)
  }

  ghost predicate OpenIn(log: Log, id: string) {
    id in log.records && !log.records[id].Done()
  }

  // ------------------------------------------------------ equations of views

  lemma SameView(a: Log, b: Log)
    requires a.Valid() && b.Valid() && forall t :: StageAt(b, t) == StageAt(a, t)
    ensures View(b) == View(a)
  {
    ViewAt(a);
    ViewAt(b);
  }

  lemma OneChanged(a: Log, b: Log, tok: string, stage: Stage)
    requires a.Valid() && b.Valid() && tok != ""
    requires forall t :: StageAt(b, t) == if t == tok then Some(stage) else StageAt(a, t)
    ensures View(b) == View(a)[tok := stage]
  {
    ViewAt(a);
    ViewAt(b);
  }

  // ---------------------------------------------------------- write by write

  lemma RootingAdded(log: Log, r: Record)
    requires log.Valid() && Rooting(log) && r.request.id !in log.records
    requires LiveAt(Added(log, r), r.request.jobToken) ==> Rooted(Added(log, r), r.request.jobToken)
    requires Originates(r) ==> forall id :: id in log.records ==> log.records[id].request.jobToken != r.request.jobToken
    ensures Rooting(Added(log, r)) && Added(log, r).Valid()
  {
    forall t | LiveAt(Added(log, r), t) ensures Rooted(Added(log, r), t) {
      if t != r.request.jobToken {
        GroupAdded(log, r, t);
        AddedOther(log, r, t);
        assert ByToken(log, t) + [] == ByToken(log, t);
        assert LiveAt(log, t);
      }
    }
  }

  lemma RootedAnswered(log: Log, id: string, resp: Response, now: Time, t: string)
    requires log.Valid() && id in log.records && Rooted(log, t)
    ensures Rooted(Completed(log, id, resp, now), t)
  {
    var recs, recs' := ByToken(log, t), ByToken(Completed(log, id, resp, now), t);
    GroupAnswered(log.order, log.records, t, id, resp, now);
    AnsweredReports(recs, recs', id, resp, now);
    forall r | r in recs' && r.request.cmd == "job_update" ensures !IsTerminal(UpdateReport(r.request).state) {
      var i :| 0 <= i < |recs'| && recs'[i] == r;
      assert recs[i] in recs && recs[i].request == r.request;
    }
  }

  lemma RootingCompleted(log: Log, id: string, resp: Response, now: Time)
    requires log.Valid() && Rooting(log) && OpenIn(log, id) && now > 0
    ensures Rooting(Completed(log, id, resp, now)) && Completed(log, id, resp, now).Valid()
  {
    forall t | LiveAt(Completed(log, id, resp, now), t) ensures Rooted(Completed(log, id, resp, now), t) {
      CompleteEnds(log, id, resp, now, t);
      RootedAnswered(log, id, resp, now, t);
    }
  }

  lemma RootingStarted(log: Log, token: string, now: Time)
    requires log.Valid() && Rooting(log)
    ensures Rooting(Started(log, token, now)) && Started(log, token, now).Valid()
  {
    forall t | LiveAt(Started(log, token, now), t) ensures Rooted(Started(log, token, now), t) {
      StartPromotes(log, token, now, t);
      assert LiveAt(log, t);
    }
  }

  /** The jobs a trim drops from the view. */
  function Gone(log: Log): set<string> {
    set t | t in View(log) && StageAt(Trimmed(log, MAX_RECORDS), t).None?
  }

  lemma TrimmedValid(log: Log)
    requires log.Valid()
    ensures Trimmed(log, MAX_RECORDS).Valid()
    ensures forall id :: id in Trimmed(log, MAX_RECORDS).records ==>
              id in log.records && Trimmed(log, MAX_RECORDS).records[id] == log.records[id]
    ensures forall id :: OpenIn(log, id) ==> id in Trimmed(log, MAX_RECORDS).records
    ensures forall t :: t in Trimmed(log, MAX_RECORDS).started ==> t in log.started
  {
    if |log.order| >= MAX_RECORDS * 2 {
      TrimExact(log, MAX_RECORDS);
    }
  }

  /** No trim makes up a job. */
  lemma TrimAddsNone(log: Log, t: string)
    requires log.Valid() && StageAt(Trimmed(log, MAX_RECORDS), t).Some?
    ensures StageAt(log, t).Some?
  {
    TrimmedValid(log);
    HasJob(Trimmed(log, MAX_RECORDS), t);
    HasJob(log, t);
  }

  lemma SparedStage(log: Log, t: string)
    requires log.Valid() && Rooting(log) && TrimSpares(log)
    ensures var after := StageAt(Trimmed(log, MAX_RECORDS), t);
            if LiveAt(log, t) then after == StageAt(log, t) && Rooted(Trimmed(log, MAX_RECORDS), t)
            else after.None? || (after == Some(Ended) && StageAt(log, t) == Some(Ended))
  {
    if LiveAt(log, t) {
      TrimKeepsJob(log, MAX_RECORDS, t);
    } else if StageAt(log, t).Some? {
      RevivedIff(log, MAX_RECORDS, t);
    } else if StageAt(Trimmed(log, MAX_RECORDS), t).Some? {
      TrimAddsNone(log, t);
    }
  }

  /** A sparing trim only forgets ended jobs. */
  lemma TrimForgets(log: Log)
    requires log.Valid() && Rooting(log) && TrimSpares(log)
    ensures View(Trimmed(log, MAX_RECORDS)) == View(log) - Gone(log)
    ensures forall t :: t in Gone(log) ==> View(log)[t] == Ended
  {
    var after := Trimmed(log, MAX_RECORDS);
    TrimmedValid(log);
    forall t
      ensures StageAt(after, t).Some? ==> StageAt(after, t) == StageAt(log, t)
      ensures StageAt(after, t).None? ==> StageAt(log, t).None? || StageAt(log, t) == Some(Ended)
    {
      SparedStage(log, t);
    }
    EndedForgotten(log, after, Gone(log));
  }

  lemma EndedForgotten(a: Log, b: Log, gone: set<string>)
    requires a.Valid() && b.Valid()
    requires forall t :: StageAt(b, t).Some? ==> StageAt(b, t) == StageAt(a, t)
    requires forall t :: StageAt(b, t).None? ==> StageAt(a, t).None? || StageAt(a, t) == Some(Ended)
    requires forall t :: t in gone <==> t in View(a) && StageAt(b, t).None?
    ensures View(b) == View(a) - gone
    ensures forall t :: t in gone ==> View(a)[t] == Ended
  {
    ViewAt(a);
    ViewAt(b);
  }

  lemma TrimRoots(log: Log)
    requires log.Valid() && Rooting(log) && TrimSpares(log)
    ensures Rooting(Trimmed(log, MAX_RECORDS))
  {
    TrimmedValid(log);
    forall t | LiveAt(Trimmed(log, MAX_RECORDS), t) ensures Rooted(Trimmed(log, MAX_RECORDS), t) {
      SparedStage(log, t);
    }
  }

  /** `after` is `log` with the open record `r`, less what was done. */
  ghost predicate Grown(log: Log, after: Log, r: Record) {
    && after.Valid() && OpenIn(after, r.request.id) && after.records[r.request.id] == r
    && (forall k :: k in after.records && k != r.request.id ==> k in log.records && after.records[k] == log.records[k])
    && (forall k :: OpenIn(log, k) ==> OpenIn(after, k) && after.records[k] == log.records[k])
    && (forall t :: t in after.started ==> t in log.started)
  }

  lemma OpenedGrows(log: Log, r: Record)
    requires log.Valid() && r.request.id !in log.records && !r.Done() && Added(log, r).Valid()
    ensures Grown(log, Opened(log, r, MAX_RECORDS), r)
  {
    TrimmedValid(Added(log, r));
  }

  /** `after` holds the jobs of `before`, less some that had ended. */
  ghost predicate Lost(before: map<string, Stage>, after: map<string, Stage>) {
    && (forall t :: t in after ==> t in before && after[t] == before[t])
    && (forall t :: t in before && t !in after ==> before[t] == Ended)
  }

  /** A record was opened, and the trim behind it spared every live job. */
  lemma OpenedLog(log: Log, r: Record)
    requires log.Valid() && r.request.id !in log.records && !r.Done()
    requires Added(log, r).Valid() && Rooting(Added(log, r)) && TrimSpares(Added(log, r))
    ensures var after := Opened(log, r, MAX_RECORDS);
            Grown(log, after, r) && Rooting(after) && Lost(View(Added(log, r)), View(after))
  {
    OpenedGrows(log, r);
    TrimRoots(Added(log, r));
    TrimForgets(Added(log, r));
  }

  // -------------------------------------------------------- opening a record

  lemma InvokeAdded(log: Log, r: Record)
    requires log.Valid() && Rooting(log) && r.request.id !in log.records && !r.Done() && Originates(r)
    requires r.request.jobToken != "" && r.request.jobToken !in log.started
    requires StageAt(log, r.request.jobToken).None?
    requires forall id :: id in log.records ==> log.records[id].request.jobToken != r.request.jobToken
    ensures Added(log, r).Valid() && Rooting(Added(log, r))
    ensures View(Added(log, r)) == View(log)[r.request.jobToken := Queued(r.target, r.reqReceived)]
  {
    var added, token := Added(log, r), r.request.jobToken;
    OpenEnqueues(log, r);
    forall t
      ensures StageAt(added, t) == if t == token then Some(Queued(r.target, r.reqReceived)) else StageAt(log, t)
    {
      if t != token {
        AddedOther(log, r, t);
      }
    }
    assert ByToken(added, token) == [r] && Rooted(added, token);
    RootingAdded(log, r);
    OneChanged(log, added, token, Queued(r.target, r.reqReceived));
  }

  /** Opening the originating invoke of a fresh token enqueues its job. */
  lemma InvokeOpened(log: Log, r: Record)
    requires log.Valid() && Rooting(log) && r.request.id !in log.records && !r.Done() && Originates(r)
    requires r.request.jobToken != "" && r.request.jobToken !in log.started
    requires forall id :: id in log.records ==> log.records[id].request.jobToken != r.request.jobToken
    requires TrimSpares(Added(log, r))
    ensures var after := Opened(log, r, MAX_RECORDS);
            && Grown(log, after, r) && Rooting(after)
            && Lost(View(log)[r.request.jobToken := Queued(r.target, r.reqReceived)], View(after))
  {
    HasJob(log, r.request.jobToken);
    InvokeAdded(log, r);
    OpenedLog(log, r);
  }

  lemma HopAdded(log: Log, r: Record)
    requires log.Valid() && Rooting(log) && r.request.id !in log.records
    requires !r.Done() && r.request.cmd == "invoke" && r.caller != "" && r.request.jobToken != ""
    requires KeepsItsJob(ByToken(log, r.request.jobToken))
    ensures Added(log, r).Valid() && Rooting(Added(log, r))
    ensures View(Added(log, r)) == View(log)
  {
    var added, token := Added(log, r), r.request.jobToken;
    HopStage(log, r);
    forall t ensures StageAt(added, t) == StageAt(log, t) {
      if t != token {
        AddedOther(log, r, t);
      }
    }
    RootingAdded(log, r);
    SameView(log, added);
  }

  lemma HopStage(log: Log, r: Record)
    requires log.Valid() && Rooting(log) && r.request.id !in log.records
    requires !r.Done() && r.request.cmd == "invoke" && r.request.jobToken != ""
    ensures var token := r.request.jobToken;
            && (StageAt(Added(log, r), token) == StageAt(log, token) <==> KeepsItsJob(ByToken(log, token)))
            && (LiveAt(log, token) ==> Rooted(Added(log, r), token))
  {
    var token := r.request.jobToken;
    assert LiveAt(log, token) ==> Rooted(log, token);
    OpenHopIff(log, r);
    if LiveAt(log, token) {
      GroupAdded(log, r, token);
      AppendOrigin(ByToken(log, token), r);
    }
  }

  lemma AddedValid(log: Log, r: Record)
    requires log.Valid() && r.request.id !in log.records
    ensures Added(log, r).Valid()
  {
  }

  /** A hop on a forgotten token queues a job, which no invoke of the face asked for. */
  lemma ForgottenHopAdded(log: Log, r: Record)
    requires log.Valid() && r.request.id !in log.records && !r.Done()
    requires r.request.cmd == "invoke" && r.request.jobToken != ""
    requires ByToken(log, r.request.jobToken) == [] && r.request.jobToken !in log.started
    ensures Added(log, r).Valid()
    ensures View(Added(log, r)) == View(log)[r.request.jobToken := Queued(r.target, r.reqReceived)]
  {
    AddedValid(log, r);
    OneChanged(log, Added(log, r), r.request.jobToken, Queued(r.target, r.reqReceived)) by {
      ForgottenHopStages(log, r);
    }
  }

  lemma ForgottenHopStages(log: Log, r: Record)
    requires log.Valid() && r.request.id !in log.records && !r.Done()
    requires r.request.cmd == "invoke" && r.request.jobToken != ""
    requires ByToken(log, r.request.jobToken) == [] && r.request.jobToken !in log.started
    ensures forall t :: StageAt(Added(log, r), t) ==
              if t == r.request.jobToken then Some(Queued(r.target, r.reqReceived)) else StageAt(log, t)
  {
    ForgottenHopQueues(log, r);
    forall t | t != r.request.jobToken ensures StageAt(Added(log, r), t) == StageAt(log, t) {
      AddedOther(log, r, t);
    }
  }

  /** Exactly when opening a hop moves no job: an originator of its token is on file, or
      a terminal report. */
  lemma HopMovesNothingIff(log: Log, r: Record)
    requires log.Valid() && Rooting(log) && r.request.id !in log.records
    requires !r.Done() && r.request.cmd == "invoke" && r.caller != "" && r.request.jobToken != ""
    ensures View(Added(log, r)) == View(log) <==> KeepsItsJob(ByToken(log, r.request.jobToken))
  {
    if KeepsItsJob(ByToken(log, r.request.jobToken)) {
      HopAdded(log, r);
    } else {
      HopStage(log, r);
      ViewAt(log);
      ViewAt(Added(log, r));
    }
  }

  /** Opening a hop, be it of a job that has ended, moves no job. */
  lemma HopOpened(log: Log, r: Record)
    requires log.Valid() && Rooting(log) && r.request.id !in log.records && !r.Done()
    requires r.request.cmd == "invoke" && r.caller != "" && r.request.jobToken != ""
    requires KeepsItsJob(ByToken(log, r.request.jobToken))
    requires TrimSpares(Added(log, r))
    ensures var after := Opened(log, r, MAX_RECORDS);
            Grown(log, after, r) && Rooting(after) && Lost(View(log), View(after))
  {
    HopAdded(log, r);
    OpenedLog(log, r);
  }

  lemma ReportAdded(log: Log, r: Record)
    requires log.Valid() && Rooting(log) && r.request.id !in log.records
    requires r.request.cmd == "job_update" && StageAt(log, r.request.jobToken).Some?
    requires var s := UpdateReport(r.request).state;
             s == "" || IsTerminal(s) || !IsTerminal(Reported(ByToken(log, r.request.jobToken)))
    ensures Added(log, r).Valid() && Rooting(Added(log, r))
    ensures View(Added(log, r)) == P.End(View(log), r.request.jobToken, IsTerminal(UpdateReport(r.request).state))
  {
    var added, token := Added(log, r), r.request.jobToken;
    var ends := IsTerminal(UpdateReport(r.request).state);
    OpenReportEnds(log, r);
    forall t ensures StageAt(added, t) == if t == token && ends then Some(Ended) else StageAt(log, t) {
      if t != token {
        AddedOther(log, r, t);
      }
    }
    if LiveAt(added, token) {
      GroupAdded(log, r, token);
      AppendOrigin(ByToken(log, token), r);
      assert Rooted(log, token);
    }
    RootingAdded(log, r);
    if ends {
      OneChanged(log, added, token, Ended);
    } else {
      SameView(log, added);
    }
  }

  /** Opening a report on a known token ends its job if it is terminal. */
  lemma ReportOpened(log: Log, r: Record)
    requires log.Valid() && Rooting(log) && r.request.id !in log.records && !r.Done()
    requires r.request.cmd == "job_update" && StageAt(log, r.request.jobToken).Some?
    requires var s := UpdateReport(r.request).state;
             s == "" || IsTerminal(s) || !IsTerminal(Reported(ByToken(log, r.request.jobToken)))
    requires TrimSpares(Added(log, r))
    ensures var after := Opened(log, r, MAX_RECORDS);
            && Grown(log, after, r) && Rooting(after)
            && Lost(P.End(View(log), r.request.jobToken, IsTerminal(UpdateReport(r.request).state)), View(after))
  {
    ReportAdded(log, r);
    OpenedLog(log, r);
  }

  // ------------------------------------------------------- filing a response

  /** Filing a response ends the job it originates if it answers it; filed for a
      hop or a report it moves no job. */
  lemma FilingMoves(log: Log, id: string, resp: Response, now: Time)
    requires log.Valid() && Rooting(log) && OpenIn(log, id) && now > 0
    requires log.records[id].request.jobToken != ""
    ensures Completed(log, id, resp, now).Valid()
    ensures View(Completed(log, id, resp, now)) ==
            P.End(View(log), log.records[id].request.jobToken, Originates(log.records[id]) && Answers(resp))
  {
    var tok := log.records[id].request.jobToken;
    var after := Completed(log, id, resp, now);
    var ends := Originates(log.records[id]) && Answers(resp);
    forall t ensures StageAt(after, t) == if t == tok && ends then Some(Ended) else StageAt(log, t) {
      CompleteEnds(log, id, resp, now, t);
      if t == tok {
        OriginOfLive(log, id);
      }
    }
    if ends {
      OneChanged(log, after, tok, Ended);
    } else {
      SameView(log, after);
    }
  }

  /** The record that decides a live job is the one that originates it. */
  lemma OriginOfLive(log: Log, id: string)
    requires log.Valid() && Rooting(log) && id in log.records && log.records[id].request.jobToken != ""
    ensures StageAt(log, log.records[id].request.jobToken).Some?
    ensures LiveAt(log, log.records[id].request.jobToken) ==> (IsOrigin(log, id) <==> Originates(log.records[id]))
  {
    var tok := log.records[id].request.jobToken;
    HasJob(log, tok);
    if LiveAt(log, tok) {
      assert Rooted(log, tok);
      OriginFiled(log, tok);
    }
  }

  /** A response was filed under an open record. */
  lemma ResponseFiled(log: Log, id: string, resp: Response, now: Time)
    requires log.Valid() && Rooting(log) && OpenIn(log, id) && now > 0
    requires log.records[id].request.jobToken != ""
    ensures var after := Completed(log, id, resp, now);
            && after.Valid() && Rooting(after)
            && View(after) ==
               P.End(View(log), log.records[id].request.jobToken, Originates(log.records[id]) && Answers(resp))
  {
    FilingMoves(log, id, resp, now);
    RootingCompleted(log, id, resp, now);
  }

  // ----------------------------------------- stamping, and the derived lists

  lemma PromotedView(log: Log, t: string, now: Time)
    requires log.Valid()
    ensures View(Started(log, t, now)) == P.Promote(View(log), t)
  {
    var s, after := StageAt(log, t), Started(log, t, now);
    ViewAt(log);
    forall u ensures StageAt(after, u) ==
      if u == t && s.Some? && s.value.Queued? then Some(Running(s.value.root, s.value.since)) else StageAt(log, u)
    {
      StartPromotes(log, t, now, u);
    }
    if s.Some? && s.value.Queued? {
      OneChanged(log, after, t, Running(s.value.root, s.value.since));
    } else {
      SameView(log, after);
    }
  }

  /** A promotion was stamped. */
  lemma Stamped(log: Log, t: string, now: Time)
    requires log.Valid() && Rooting(log)
    ensures var after := Started(log, t, now);
            after.Valid() && Rooting(after) && View(after) == P.Promote(View(log), t)
  {
    PromotedView(log, t, now);
    RootingStarted(log, t, now);
  }

  function AsWaiting(js: seq<Job>): seq<Waiting> {
    seq(|js|, i requires 0 <= i < |js| => Waiting(js[i].token, js[i].target, js[i].queuedAt))
  }

  /** The derived list of queued jobs is the protocol's queue. */
  lemma QueuedIsQueue(log: Log, js: seq<Job>)
    requires log.Valid() && ListsJobs(log, js, "queued") && OldestFirst(js)
    ensures P.IsQueue(View(log), AsWaiting(js))
  {
    var view, queue := View(log), AsWaiting(js);
    assert forall x :: x in queue ==> x.token in view && view[x.token] == Queued(x.root, x.since) by {
      forall x | x in queue ensures x.token in view && view[x.token] == Queued(x.root, x.since) {
        var i :| 0 <= i < |queue| && queue[i] == x;
        ListedIsQueued(log, js, i);
      }
    }
    assert forall t :: t in view && view[t].Queued? ==> Waiting(t, view[t].root, view[t].since) in queue by {
      forall t | t in view && view[t].Queued? ensures Waiting(t, view[t].root, view[t].since) in queue {
        QueuedIsListed(log, js, t);
      }
    }
    WaitingInOrder(log, js);
  }

  lemma WaitingInOrder(log: Log, js: seq<Job>)
    requires ListsJobs(log, js, "queued") && OldestFirst(js)
    ensures DistinctTokens(AsWaiting(js)) && P.ByAge(AsWaiting(js))
  {
  }

  lemma ListedIsQueued(log: Log, js: seq<Job>, i: nat)
    requires log.Valid() && ListsJobs(log, js, "queued") && i < |js|
    ensures js[i].token in View(log) && View(log)[js[i].token] == Queued(js[i].target, js[i].queuedAt)
  {
    ViewAt(log);
    assert js[i] in js;
    DerivedStage(log, js[i].token);
  }

  lemma QueuedIsListed(log: Log, js: seq<Job>, t: string)
    requires log.Valid() && ListsJobs(log, js, "queued") && t in View(log) && View(log)[t].Queued?
    ensures Waiting(t, View(log)[t].root, View(log)[t].since) in AsWaiting(js)
  {
    ViewAt(log);
    DerivedStage(log, t);
    var j := JobOf(log, t).value;
    assert j in js;
    JobToken(log, t);
    var i :| 0 <= i < |js| && js[i] == j;
    assert AsWaiting(js)[i] == Waiting(t, j.target, j.queuedAt);
  }

  /** A token runs in the view iff its job is listed, rooted at the job's target. */
  lemma ListedRuns(log: Log, js: seq<Job>, t: string)
    requires log.Valid() && ListsJobs(log, js, "running")
    ensures t in View(log) && View(log)[t].Running? <==> t != "" && JobOf(log, t).Some? && JobOf(log, t).value in js
    ensures t in View(log) && View(log)[t].Running? ==> View(log)[t].root == JobOf(log, t).value.target
  {
    ViewAt(log);
    DerivedStage(log, t);
    JobToken(log, t);
  }
}
