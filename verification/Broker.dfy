/**
 The broker as it runs: it records and routes what it receives, and it is the queue
 manager.  Each method here is one of the steps that a mutex makes atomic; what whole
 runs of these steps keep is proved in QueueTheorems.
 */
module Broker {
  import opened Wrappers
  import opened ModuleGraph
  import opened Messages
  import opened Jobs
  import opened Queue
  import opened JobLog
  import opened QueueRun
  import M = ModuleStore
  import S = MessageStore
  import P = Protocol

  /** What the checks before the queue make of an invoke. */
  datatype Verdict = Refused(code: string) | Admitted(route: M.Route)

  function CapName(req: Request): string {
    if req.params.Name? then req.params.name else ""
  }

  /** The log once each token of `plan` was stamped at `now`, in order. */
  function AllStarted(log: Log, plan: seq<string>, now: Time): Log {
    if plan == [] then log
    else Started(AllStarted(log, plan[..|plan| - 1], now), plan[|plan| - 1], now)
  }

  function Tokens(ws: seq<Waiting>): seq<string> {
    seq(|ws|, i requires 0 <= i < |ws| => ws[i].token)
  }

  /** The choice, one queued job further. */
  lemma ChooseNext(rows: Rows, queue: seq<Waiting>, start: set<string>, i: nat, f: set<string>, busy: set<string>)
    requires i < |queue| && f == FootprintOf(rows, queue[i].root) && busy == Choose(rows, queue, start, i).busy
    ensures Choose(rows, queue, start, i + 1).busy == if Admissible(f, busy) then busy + f else busy
    ensures Tokens(Choose(rows, queue, start, i + 1).promote) ==
            Tokens(Choose(rows, queue, start, i).promote) + if Admissible(f, busy) then [queue[i].token] else []
  {
  }

  /** `after` is `log` after an advance that nobody interferes with. */
  ghost predicate Advanced(rows: Rows, log: Log, after: Log, now: Time) {
    exists plan: seq<string> :: PlannedFrom(rows, log, plan) && after == AllStarted(log, plan, now)
  }

  /** The greedy plan, by token, for the derived queue, oldest first, and running jobs. */
  ghost predicate PlannedFrom(rows: Rows, log: Log, plan: seq<string>) {
    exists queued, running ::
      && S.ListsJobs(log, queued, "queued") && S.OldestFirst(queued) && S.ListsJobs(log, running, "running")
      && plan == Tokens(Plan(rows, AsWaiting(queued), BusyWith(rows, running)))
  }

  lemma AdvancedBy(rows: Rows, log: Log, after: Log, plan: seq<string>, now: Time)
    requires PlannedFrom(rows, log, plan) && after == AllStarted(log, plan, now)
    ensures Advanced(rows, log, after, now)
  {
  }

  /** What the answer to an originating invoke makes of its job. */
  lemma ConcludedTells(was: Log, id: string, async: bool, resp: Response, now: Time)
    requires was.Valid()
    ensures now > 0 && Jobs.IsOrigin(was, id) && !was.records[id].Done()
            && !IsTerminal(Reported(Jobs.ByToken(was, was.records[id].request.jobToken))) ==>
              var after := Completed(was, id, Contract(async, resp).(id := id), now);
              var job := JobOf(after, was.records[id].request.jobToken);
              && job.Some?
              && (resp.status == "error" ==> job.value.state == "failed" && job.value.error == resp.error)
              && (resp.status == "ok" && resp.result.accepted ==> !IsTerminal(job.value.state))
              && (resp.status == "ok" && !resp.result.accepted ==>
                    if async then job.value.state == "failed" && job.value.error == Some("CALLABLE_FAILED")
                    else job.value.state == "done")
  {
    if now > 0 && Jobs.IsOrigin(was, id) && !was.records[id].Done()
       && !IsTerminal(Reported(Jobs.ByToken(was, was.records[id].request.jobToken))) {
      AnswerDecides(was, id, Contract(async, resp).(id := id), now);
    }
  }

  /** The lifecycle's ops-gate: some running job whose footprint covers `name`. */
  method Busy(name: string, running: seq<Job>, store: M.Store) returns (token: Option<string>)
    requires store.Valid() && UniqueProviders(store.Rows())
    ensures token.None? ==> name !in BusyWith(store.Rows(), running)
    ensures token.Some? ==>
            exists j :: j in running && j.token == token.value && name in FootprintOf(store.Rows(), j.target)
  {
    ghost var rows := store.Rows();
    for i := 0 to |running|
      invariant store.Valid() && store.Rows() == rows
      invariant name !in BusyWith(rows, running[..i])
    {
      var f := store.Footprint(running[i].target);
      if name in f.names {
        return Some(running[i].token);
      }
      assert running[..i + 1][..i] == running[..i];
    }
    assert running[..|running|] == running;
    return None;
  }

  class Broker {
    const store: M.Store
    const msgs: S.Store

    constructor (store: M.Store, msgs: S.Store)
      ensures this.store == store && this.msgs == msgs
    {
      this.store, this.msgs := store, msgs;
    }

    ghost predicate Valid()
      reads this, store, store.records.Values, msgs
    {
      store.Valid() && UniqueProviders(store.Rows()) && msgs.Valid()
    }

    // --------------------------------------------------- the queue manager

    /** The greedy choice: each queued job in turn, if its footprint is free. */
    method PlanPromotions(queued: seq<Job>, running: seq<Job>) returns (promote: seq<string>)
      requires store.Valid() && UniqueProviders(store.Rows())
      ensures promote == Tokens(Plan(store.Rows(), AsWaiting(queued), BusyWith(store.Rows(), running)))
    {
      ghost var rows := store.Rows();
      var busy := BusyFootprints(running);
      ghost var queue, start := AsWaiting(queued), busy;
      promote := [];
      for i := 0 to |queued|
        invariant store.Valid() && store.Rows() == rows
        invariant promote == Tokens(Choose(rows, queue, start, i).promote)
        invariant busy == Choose(rows, queue, start, i).busy
      {
        var f := Footprint(queued[i].target, rows);
        ChooseNext(rows, queue, start, i, f, busy);
        if Admissible(f, busy) {
          promote := promote + [queued[i].token];
          busy := busy + f;
        }
      }
    }

    /** The reservation set of a job rooted at `name`, read on demand. */
    method Footprint(name: string, ghost rows: Rows) returns (f: set<string>)
      requires store.Valid() && store.Rows() == rows && UniqueProviders(rows)
      ensures store.Valid() && store.Rows() == rows && f == FootprintOf(rows, name)
    {
      var out := store.Footprint(name);
      return out.names;
    }

    method BusyFootprints(running: seq<Job>) returns (busy: set<string>)
      requires store.Valid() && UniqueProviders(store.Rows())
      ensures busy == BusyWith(store.Rows(), running)
    {
      ghost var rows := store.Rows();
      busy := {};
      for i := 0 to |running|
        invariant store.Valid() && store.Rows() == rows
        invariant busy == BusyWith(rows, running[..i])
      {
        assert running[..i + 1][..i] == running[..i];
        var f := Footprint(running[i].target, rows);
        busy := busy + f;
      }
      assert running[..|running|] == running;
    }

    /** The reconcile step: stamp every queued job the policy admits. */
    method Advance(now: Time)
      requires Valid()
      modifies msgs
      ensures Valid() && Advanced(store.Rows(), old(msgs.Contents()), msgs.Contents(), now)
    {
      ghost var log := msgs.Contents();
      var plan := ChoosePlan();
      StartAll(plan, now);
      AdvancedBy(store.Rows(), log, msgs.Contents(), plan, now);
    }

    /** What the policy makes of the derived queue and running jobs. */
    method ChoosePlan() returns (plan: seq<string>)
      requires Valid()
      ensures PlannedFrom(store.Rows(), msgs.Contents(), plan)
    {
      var queued := msgs.Queued();
      var running := msgs.Running();
      plan := PlanPromotions(queued, running);
    }

    method StartAll(plan: seq<string>, now: Time)
      requires msgs.Valid()
      modifies msgs
      ensures msgs.Valid() && msgs.Contents() == AllStarted(old(msgs.Contents()), plan, now)
      ensures store.Rows() == old(store.Rows()) && (old(Valid()) ==> Valid())
    {
      ghost var log := msgs.Contents();
      for i := 0 to |plan|
        invariant msgs.Contents() == AllStarted(log, plan[..i], now)
      {
        assert plan[..i + 1][..i] == plan[..i];
        msgs.Start(plan[i], now);
      }
      assert plan[..|plan|] == plan;
      AllStartedValid(log, plan, now);
    }

    // ------------------------------------------------------------- an invoke

    /** The checks before the queue, in the order they are made; an admitted invoke
        is recorded, a refused one leaves no trace. */
    method Accept(req: Request, caller: string, now: Time) returns (verdict: Verdict)
      requires Valid()
      modifies msgs
      ensures Valid()
      ensures verdict.Refused? ==> msgs.Contents() == old(msgs.Contents())
      ensures verdict.Admitted? ==>
                msgs.Contents() == Opened(old(msgs.Contents()),
                                          NewRecord(req, verdict.route.name, CapName(req), caller, now), S.MAX_RECORDS)
      ensures verdict.Admitted? ==>
                && req.params.Name? && req.params.name != "" && req.jobToken != ""
                && Routes(store.Rows(), req.params.name, verdict.route.name, verdict.route.async)
                && (caller == "" || verdict.route.name == caller || Demands(store.Rows(), caller, req.params.name))
                && req.id in msgs.records
                && msgs.records[req.id] ==
                   Record(req, NO_RESPONSE, now, 0, verdict.route.name, req.params.name, caller)
      ensures verdict.Refused? && (!req.params.Name? || req.params.name == "") ==> verdict.code == "INVALID_PARAMS"
      ensures verdict.Refused? && req.params.Name? && req.params.name != "" ==>
                var rows, cap := store.Rows(), req.params.name;
                || (verdict.code == "CAPABILITY_NOT_ACTIVE" && forall m, async :: !Routes(rows, cap, m, async))
                || (verdict.code == "CAPABILITY_NOT_DECLARED" && caller != "" && !Demands(rows, caller, cap)
                    && exists m, async :: m != caller && Routes(rows, cap, m, async))
                || (verdict.code == "INVALID_PARAMS" && req.jobToken == ""
                    && exists m, async :: Routes(rows, cap, m, async)
                                          && (caller == "" || m == caller || Demands(rows, caller, cap)))
    {
      if !req.params.Name? || req.params.name == "" {
        return Refused(INVALID_PARAMS);
      }
      var cap := req.params.name;
      var route := store.Resolve(cap);
      if route.None? {
        return Refused(CAPABILITY_NOT_ACTIVE);
      }
      if caller != "" && route.value.name != caller && !store.Allows(caller, cap) {
        return Refused(CAPABILITY_NOT_DECLARED);
      }
      if req.jobToken == "" {
        return Refused(INVALID_PARAMS);
      }
      msgs.Open(req, route.value.name, cap, caller, now);
      return Admitted(route.value);
    }

    /** Has the parked caller's job been promoted?  If so it waits no more; if not it
        cannot run. */
    predicate Promoted(token: string)
      reads this, msgs
      ensures Promoted(token) ==>
                StageAt(msgs.Contents(), token).None? || !StageAt(msgs.Contents(), token).value.Queued?
      ensures !Promoted(token) ==>
                StageAt(msgs.Contents(), token).None? || !StageAt(msgs.Contents(), token).value.Running?
    {
      assert msgs.StartedAt(token).Some? <==> Stamp(msgs.Contents(), token).Some?;
      msgs.StartedAt(token).Some?
    }

    /** Files the terminal response of an invoke, or the acceptance of an async one. */
    method Conclude(id: string, async: bool, originator: bool, resp: Response, now: Time)
      requires Valid()
      modifies msgs
      ensures Valid()
      ensures msgs.Contents() ==
              Completed(old(msgs.Contents()), id, Contract(originator && async, resp).(id := id), now)
      ensures var was, declined := old(msgs.Contents()), async && resp.status == "ok" && !resp.result.accepted;
              id in was.records ==>
                var filed := msgs.Contents().records[id].response;
                if originator && declined then filed.status == "error" && filed.error == Some("CALLABLE_FAILED")
                else filed == resp.(id := id)
      ensures var was, after := old(msgs.Contents()), msgs.Contents();
              now > 0 && originator && Jobs.IsOrigin(was, id) && !was.records[id].Done()
              && !IsTerminal(Reported(Jobs.ByToken(was, was.records[id].request.jobToken))) ==>
                var job := JobOf(after, was.records[id].request.jobToken);
                && job.Some?
                && (resp.status == "error" ==> job.value.state == "failed" && job.value.error == resp.error)
                && (resp.status == "ok" && resp.result.accepted ==> !IsTerminal(job.value.state))
                && (resp.status == "ok" && !resp.result.accepted ==>
                      if async then job.value.state == "failed" && job.value.error == Some("CALLABLE_FAILED")
                      else job.value.state == "done")
    {
      ghost var was := msgs.Contents();
      var final := resp;
      if originator && async && resp.status == "ok" && !resp.result.accepted {
        final := Failure(id, CALLABLE_FAILED);
      }
      var _ := msgs.Complete(id, final.(id := id), now);
      if originator {
        ConcludedTells(was, id, async, resp, now);
      }
    }

    // ------------------------------------------------------------- a report

    /** Records a report on a known job and, when it is terminal, advances the queue.
        `toSurface` tells whether the face that originated the job is told. */
    method HandleJobUpdate(req: Request, caller: string, now: Time) returns (resp: Response, toSurface: bool)
      requires Valid() && req.cmd == "job_update"
      modifies msgs
      ensures Valid()
      ensures var was := old(msgs.Contents());
              if req.jobToken == "" || req.params.Malformed? then
                msgs.Contents() == was && resp == Failure(req.id, INVALID_PARAMS) && !toSurface
              else if Jobs.ByToken(was, req.jobToken) == [] then
                msgs.Contents() == was && resp == Failure(req.id, JOB_NOT_FOUND) && !toSurface
              else
                && resp == NO_RESPONSE.(id := req.id, status := "ok")
                && var filed := Filed(was, req, caller, now);
                && (toSurface <==> exists r :: r in Jobs.ByToken(filed, req.jobToken)
                                               && r.request.cmd == "invoke" && r.caller == "")
                && if req.params.Update? && (req.params.report.state == "done" || req.params.report.state == "failed")
                   then Advanced(store.Rows(), filed, msgs.Contents(), now)
                   else msgs.Contents() == filed
      ensures resp.id == req.id && (resp.status == "ok" || (resp.status == "error" && !toSurface))
    {
      toSurface := false;
      if req.jobToken == "" || req.params.Malformed? {
        return Failure(req.id, INVALID_PARAMS), false;
      }
      var known := msgs.ByToken(req.jobToken);
      if known == [] {
        return Failure(req.id, JOB_NOT_FOUND), false;
      }
      resp, toSurface := Report(req, caller, now);
    }

    method Report(req: Request, caller: string, now: Time) returns (resp: Response, toSurface: bool)
      requires Valid()
      modifies msgs
      ensures Valid()
      ensures resp == NO_RESPONSE.(id := req.id, status := "ok")
      ensures var filed := Filed(old(msgs.Contents()), req, caller, now);
              && (toSurface <==> exists r :: r in Jobs.ByToken(filed, req.jobToken) && Originates(r))
              && if IsTerminal(UpdateReport(req).state) then Advanced(store.Rows(), filed, msgs.Contents(), now)
                 else msgs.Contents() == filed
    {
      ghost var rows, filed := store.Rows(), Filed(msgs.Contents(), req, caller, now);
      resp := File(req, caller, now);
      assert Valid() && store.Rows() == rows && msgs.Contents() == filed;
      toSurface := SurfaceOriginated(req.jobToken);
      var state := UpdateReport(req).state;
      if state == "done" || state == "failed" {
        Advance(now);
      }
    }

    method File(req: Request, caller: string, now: Time) returns (resp: Response)
      requires msgs.Valid()
      modifies msgs
      ensures msgs.Valid() && msgs.Contents() == Filed(old(msgs.Contents()), req, caller, now)
      ensures resp == NO_RESPONSE.(id := req.id, status := "ok")
    {
      msgs.Open(req, caller, "", caller, now);
      resp := NO_RESPONSE.(id := req.id, status := "ok");
      var _ := msgs.Complete(req.id, resp, now);
    }

    method SurfaceOriginated(token: string) returns (yes: bool)
      ensures yes <==> exists r :: r in Jobs.ByToken(msgs.Contents(), token) && Originates(r)
    {
      var recs := msgs.ByToken(token);
      for i := 0 to |recs|
        invariant forall k :: 0 <= k < i ==> !Originates(recs[k])
      {
        if recs[i].request.cmd == "invoke" && recs[i].caller == "" {
          assert recs[i] in recs && Originates(recs[i]);
          return true;
        }
      }
      return false;
    }
  }

  // ------------------------------------------- what one advance achieves

  type JobMap = map<string, Stage>

  ghost predicate RunsIn(jobs: JobMap, t: string) {
    t in jobs && jobs[t].Running?
  }

  ghost predicate WaitsIn(jobs: JobMap, t: string) {
    t in jobs && jobs[t].Queued?
  }

  ghost predicate Apart(rows: Rows, jobs: JobMap) {
    forall t, u :: t != u && RunsIn(jobs, t) && RunsIn(jobs, u) ==> !Conflict(rows, jobs[t].root, jobs[u].root)
  }

  ghost function PromoteAll(jobs: JobMap, plan: seq<string>): JobMap {
    map t | t in jobs ::
      if t in plan && jobs[t].Queued? then Running(jobs[t].root, jobs[t].since) else jobs[t]
  }

  lemma {:induction false} StartedAll(log: Log, plan: seq<string>, now: Time, t: string)
    ensures StageAt(AllStarted(log, plan, now), t) ==
            var s := StageAt(log, t);
            if t in plan && s.Some? && s.value.Queued? then Some(Running(s.value.root, s.value.since)) else s
  {
    if plan != [] {
      var n := |plan| - 1;
      StartedAll(log, plan[..n], now, t);
      StartPromotes(AllStarted(log, plan[..n], now), plan[n], now, t);
      assert t in plan <==> t in plan[..n] || t == plan[n];
    }
  }

  lemma {:induction false} AllStartedValid(log: Log, plan: seq<string>, now: Time)
    requires log.Valid()
    ensures AllStarted(log, plan, now).Valid()
  {
    if plan != [] {
      AllStartedValid(log, plan[..|plan| - 1], now);
    }
  }

  lemma StartedView(log: Log, plan: seq<string>, now: Time)
    requires log.Valid()
    ensures View(AllStarted(log, plan, now)) == PromoteAll(View(log), plan)
  {
    var after, jobs := AllStarted(log, plan, now), PromoteAll(View(log), plan);
    AllStartedValid(log, plan, now);
    ViewAt(log);
    forall t ensures StageAt(after, t) == if t in jobs then Some(jobs[t]) else None {
      StartedAll(log, plan, now, t);
    }
    StagesAreView(after, jobs);
  }

  lemma StagesAreView(log: Log, jobs: JobMap)
    requires log.Valid() && forall t :: StageAt(log, t) == if t in jobs then Some(jobs[t]) else None
    ensures View(log) == jobs
  {
    ViewAt(log);
  }

  /** The plan a lone advance makes of these jobs, and what it had to avoid. */
  ghost predicate Planned(rows: Rows, jobs: JobMap, queue: seq<Waiting>, busy: set<string>) {
    && P.IsQueue(jobs, queue)
    && forall m :: m in busy <==> exists u :: RunsIn(jobs, u) && m in FootprintOf(rows, jobs[u].root)
  }

  lemma AdvancePlans(rows: Rows, log: Log, after: Log, now: Time) returns (queue: seq<Waiting>, busy: set<string>)
    requires log.Valid() && Advanced(rows, log, after, now)
    ensures Planned(rows, View(log), queue, busy)
    ensures View(after) == PromoteAll(View(log), Tokens(Plan(rows, queue, busy)))
  {
    var plan: seq<string> :| PlannedFrom(rows, log, plan) && after == AllStarted(log, plan, now);
    var queued: seq<Job>, running: seq<Job> :|
      && S.ListsJobs(log, queued, "queued") && S.OldestFirst(queued) && S.ListsJobs(log, running, "running")
      && plan == Tokens(Plan(rows, AsWaiting(queued), BusyWith(rows, running)));
    queue, busy := AsWaiting(queued), BusyWith(rows, running);
    QueuedIsQueue(log, queued);
    StartedView(log, Tokens(Plan(rows, queue, busy)), now);
    BusyMembers(rows, running);
    forall m ensures m in busy <==> exists u :: RunsIn(View(log), u) && m in FootprintOf(rows, View(log)[u].root) {
      if m in busy {
        var j: Job :| j in running && m in FootprintOf(rows, j.target);
        ListedRuns(log, running, j.token);
      }
      if u :| RunsIn(View(log), u) && m in FootprintOf(rows, View(log)[u].root) {
        ListedRuns(log, running, u);
      }
    }
  }

  lemma PlannedTokens(plan: seq<Waiting>, t: string)
    ensures t in Tokens(plan) <==> exists x :: x in plan && x.token == t
  {
    if t in Tokens(plan) {
      var i :| 0 <= i < |plan| && Tokens(plan)[i] == t;
      assert plan[i] in plan;
    }
    if x :| x in plan && x.token == t {
      var i :| 0 <= i < |plan| && plan[i] == x;
      assert Tokens(plan)[i] == t;
    }
  }

  /** A job that an advance starts was in its plan. */
  lemma StartedWasPlanned(rows: Rows, jobs: JobMap, queue: seq<Waiting>, busy: set<string>, t: string) returns (i: nat)
    requires Planned(rows, jobs, queue, busy)
    requires !RunsIn(jobs, t) && RunsIn(PromoteAll(jobs, Tokens(Plan(rows, queue, busy))), t)
    ensures var plan := Plan(rows, queue, busy);
            i < |plan| && plan[i].token == t && plan[i].root == jobs[t].root
  {
    var plan := Plan(rows, queue, busy);
    PlanApart(rows, queue, busy);
    PlannedTokens(plan, t);
    var x :| x in plan && x.token == t;
    i :| 0 <= i < |plan| && plan[i] == x;
  }

  lemma StillApart(rows: Rows, jobs: JobMap, queue: seq<Waiting>, busy: set<string>)
    requires Planned(rows, jobs, queue, busy) && Apart(rows, jobs)
    ensures Apart(rows, PromoteAll(jobs, Tokens(Plan(rows, queue, busy))))
  {
    var plan := Plan(rows, queue, busy);
    var after := PromoteAll(jobs, Tokens(plan));
    PlanApart(rows, queue, busy);
    forall t, u | t != u && RunsIn(after, t) && RunsIn(after, u) ensures !Conflict(rows, after[t].root, after[u].root) {
      if !RunsIn(jobs, t) {
        var i := StartedWasPlanned(rows, jobs, queue, busy, t);
        assert plan[i] in plan;
        if !RunsIn(jobs, u) {
          var k := StartedWasPlanned(rows, jobs, queue, busy, u);
          assert i < k || k < i;
        }
      } else if !RunsIn(jobs, u) {
        var k := StartedWasPlanned(rows, jobs, queue, busy, u);
        assert plan[k] in plan;
      }
    }
  }

  lemma StillBlocked(rows: Rows, jobs: JobMap, queue: seq<Waiting>, busy: set<string>, t: string)
    requires Planned(rows, jobs, queue, busy)
    requires WaitsIn(PromoteAll(jobs, Tokens(Plan(rows, queue, busy))), t)
    ensures var after := PromoteAll(jobs, Tokens(Plan(rows, queue, busy)));
            exists u :: RunsIn(after, u) && Conflict(rows, after[t].root, after[u].root)
  {
    var plan := Plan(rows, queue, busy);
    var after := PromoteAll(jobs, Tokens(plan));
    var x := Waiting(t, jobs[t].root, jobs[t].since);
    PlannedTokens(plan, t);
    var m := PassedOverIsBlocked(rows, queue, busy, x);
    if m in busy {
      var u :| RunsIn(jobs, u) && m in FootprintOf(rows, jobs[u].root);
      assert RunsIn(after, u) && Conflict(rows, after[t].root, after[u].root);
    } else {
      var y :| y in plan && m in FootprintOf(rows, y.root);
      PlanApart(rows, queue, busy);
      PlannedTokens(plan, y.token);
      assert RunsIn(after, y.token) && Conflict(rows, after[t].root, after[y.token].root);
    }
  }

  /** From `jobs` to `after` jobs only went from queued to running, running jobs are
      as far apart as they were, and every job still queued meets a running one. */
  ghost predicate Settles(rows: Rows, jobs: JobMap, after: JobMap) {
    && after.Keys == jobs.Keys
    && (forall t :: t in jobs && after[t] != jobs[t] ==>
          jobs[t].Queued? && after[t] == Running(jobs[t].root, jobs[t].since))
    && (Apart(rows, jobs) ==> Apart(rows, after))
    && (forall t :: WaitsIn(after, t) ==> exists u :: RunsIn(after, u) && Conflict(rows, after[t].root, after[u].root))
  }

  lemma PlanSettles(rows: Rows, jobs: JobMap, queue: seq<Waiting>, busy: set<string>)
    requires Planned(rows, jobs, queue, busy)
    ensures Settles(rows, jobs, PromoteAll(jobs, Tokens(Plan(rows, queue, busy))))
  {
    var after := PromoteAll(jobs, Tokens(Plan(rows, queue, busy)));
    if Apart(rows, jobs) {
      StillApart(rows, jobs, queue, busy);
    }
    forall t | WaitsIn(after, t) ensures exists u :: RunsIn(after, u) && Conflict(rows, after[t].root, after[u].root) {
      StillBlocked(rows, jobs, queue, busy, t);
    }
  }

  /** An advance nobody interferes with settles the queue: it starts only queued jobs,
      starts none that meets a running one, and leaves none that could start. */
  lemma AdvanceSettles(rows: Rows, log: Log, after: Log, now: Time)
    requires log.Valid() && Advanced(rows, log, after, now)
    ensures Settles(rows, View(log), View(after))
  {
    var queue, busy := AdvancePlans(rows, log, after, now);
    PlanSettles(rows, View(log), queue, busy);
  }

  /** The log once the report was opened and answered. */
  function Filed(log: Log, req: Request, caller: string, now: Time): Log {
    Completed(Opened(log, NewRecord(req, caller, "", caller, now), S.MAX_RECORDS), req.id,
              NO_RESPONSE.(id := req.id, status := "ok"), now)
  }

  /** The report's own record: from the caller to the caller, answered ok when it came. */
  lemma FiledTells(log: Log, req: Request, caller: string, now: Time)
    requires log.Valid()
    ensures req.id in Filed(log, req, caller, now).records
    ensures Filed(log, req, caller, now).records[req.id] ==
            Record(req, Response(req.id, "ok", Payload("", "", "", false), None), now, now, caller, "", caller)
  {
    var r := NewRecord(req, caller, "", caller, now);
    WritesKeepValid(log, r, "", NO_RESPONSE, "", now, S.MAX_RECORDS);
    assert Added(log, r).Valid();
    UnansweredStays(Added(log, r), S.MAX_RECORDS, req.id);
  }

  /** Nothing else changes where nothing is trimmed. */
  lemma FiledAlone(log: Log, req: Request, caller: string, now: Time)
    requires |log.order| + 1 < S.MAX_RECORDS * 2
    ensures var filed := Filed(log, req, caller, now);
            && req.id in filed.records && filed.records == log.records[req.id := filed.records[req.id]]
            && filed.order == (if req.id in log.records then log.order else log.order + [req.id])
            && filed.started == log.started
  {
    var r := NewRecord(req, caller, "", caller, now);
    var added := Added(log, r);
    assert Trimmed(added, S.MAX_RECORDS) == added;
    assert added.records == log.records[req.id := r];
  }

  /** Starting a plan stamps its tokens, and touches no stamp set before and no record. */
  lemma {:induction false} StampsOfPlan(log: Log, plan: seq<string>, now: Time)
    ensures var after := AllStarted(log, plan, now);
            && after.records == log.records && after.order == log.order
            && (forall t :: t in after.started <==> t in log.started || t in plan)
            && (forall t :: t in after.started ==> after.started[t] == if t in log.started then log.started[t] else now)
  {
    if plan != [] {
      var n := |plan| - 1;
      StampsOfPlan(log, plan[..n], now);
      assert forall t :: t in plan <==> t in plan[..n] || t == plan[n];
    }
  }

  /** An admitted hop is one the requires-gate of a run lets through, and an admitted
      originating invoke one that a run may enqueue. */
  lemma AdmittedIsEnabled(w: World, req: Request, caller: string, route: M.Route)
    requires CapName(req) != "" && req.jobToken != "" && Routes(w.rows, CapName(req), route.name, route.async)
    requires caller == "" || route.name == caller || Demands(w.rows, caller, CapName(req))
    requires req.id !in w.ids && Inv(w)
    requires TrimSpares(Added(w.log, InvokeRecord(req.id, req.jobToken, CapName(req), route.name, caller, w.now + 1)))
    ensures caller != "" && MayHop(w, req.jobToken, caller) ==>
              Enabled(w, HopIn(req.id, req.jobToken, caller, CapName(req), route.name))
    ensures caller == "" && req.jobToken !in w.tokens ==>
              Enabled(w, InvokeIn(req.id, req.jobToken, CapName(req), route.name, route.async))
  {
  }

  /** What Accept writes is what those steps of a run write. */
  lemma AcceptIsStep(w: World, req: Request, caller: string, route: M.Route)
    requires req.cmd == "invoke" && CapName(req) != ""
    ensures caller != "" && Enabled(w, HopIn(req.id, req.jobToken, caller, CapName(req), route.name)) ==>
              Apply(w, HopIn(req.id, req.jobToken, caller, CapName(req), route.name)).log ==
              Opened(w.log, NewRecord(req, route.name, CapName(req), caller, w.now + 1), S.MAX_RECORDS)
    ensures caller == "" && Enabled(w, InvokeIn(req.id, req.jobToken, CapName(req), route.name, route.async)) ==>
              Apply(w, InvokeIn(req.id, req.jobToken, CapName(req), route.name, route.async)).log ==
              Opened(w.log, NewRecord(req, route.name, CapName(req), caller, w.now + 1), S.MAX_RECORDS)
  {
    assert req == Request(req.id, "invoke", req.jobToken, Name(CapName(req)));
  }

  /** What Conclude writes of a routed originating invoke, and of a hop, is what a run's
      steps write. */
  lemma ConcludeIsStep(w: World, id: string, resp: Response)
    ensures Enabled(w, Respond(id, resp)) && w.calls[id].phase == P.Routing ==>
              Apply(w, Respond(id, resp)).log ==
              Completed(w.log, id, Contract(w.calls[id].async, resp).(id := id), w.now + 1)
    ensures Enabled(w, HopOut(id, resp)) ==> Apply(w, HopOut(id, resp)).log == Completed(w.log, id, resp, w.now + 1)
  {
  }

  /** What File writes is what a run's two steps write, each at its own time. */
  lemma FileIsSteps(w: World, req: Request, caller: string)
    requires req.cmd == "job_update" && req.params.Update?
    ensures var e := ReportIn(req.id, req.jobToken, caller, req.params.report);
            Enabled(w, e) ==>
              var now := Apply(w, e);
              var ok := ReportOut(req.id, NO_RESPONSE.(id := req.id, status := "ok"));
              && now.log == Opened(w.log, NewRecord(req, caller, "", caller, w.now + 1), S.MAX_RECORDS)
              && Enabled(now, ok)
              && Apply(now, ok).log ==
                 Completed(now.log, req.id, NO_RESPONSE.(id := req.id, status := "ok"), now.now + 1)
  {
    assert req == Request(req.id, "job_update", req.jobToken, Update(req.params.report));
  }

  /** The caller was called into on this token, of which something is still on file. */
  ghost predicate MayHop(w: World, token: string, caller: string) {
    token in w.exec && caller in w.exec[token].modules && KeepsItsJob(Jobs.ByToken(w.log, token))
  }
}
