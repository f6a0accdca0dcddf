/**
 What holds in every run of the queue manager, stated on the jobs the messages store
 derives: mutual exclusion, confinement of hops and when they intrude, no lost promotion,
 when no job is overtaken, and no way back from a terminal state.
 */
module QueueTheorems {
  import opened Wrappers
  import opened ModuleGraph
  import opened Messages
  import opened Jobs
  import opened MessageStore
  import opened JobLog
  import opened Queue
  import opened QueueRun
  import Trimming
  import Walks
  import P = Protocol

  /** A run: worlds from the empty store on, each step enabled where it is taken. */
  datatype Run = Run(worlds: seq<World>, steps: seq<Step>) {
    ghost predicate Valid(rows: Rows) {
      && HandlersReserved(rows)
      && |worlds| == |steps| + 1 && worlds[0] == Initial(rows)
      && forall i {:trigger steps[i]} :: 0 <= i < |steps| ==>
           Enabled(worlds[i], steps[i]) && worlds[i + 1] == Apply(worlds[i], steps[i])
    }
  }

  lemma {:induction false} EveryWorldInv(rows: Rows, run: Run, k: nat)
    requires run.Valid(rows) && k < |run.worlds|
    ensures Inv(run.worlds[k])
  {
    if k == 0 {
      FirstWorldInv(rows, run);
    } else {
      EveryWorldInv(rows, run, k - 1);
      NextWorldInv(rows, run, k);
    }
  }

  lemma FirstWorldInv(rows: Rows, run: Run)
    requires run.Valid(rows)
    ensures Inv(run.worlds[0])
  {
    InitialInv(rows);
  }

  lemma RunStep(rows: Rows, run: Run, k: nat)
    requires run.Valid(rows) && 0 < k < |run.worlds|
    ensures Enabled(run.worlds[k - 1], run.steps[k - 1])
    ensures run.worlds[k] == Apply(run.worlds[k - 1], run.steps[k - 1])
  {
  }

  lemma NextWorldInv(rows: Rows, run: Run, k: nat)
    requires run.Valid(rows) && 0 < k < |run.worlds| && Inv(run.worlds[k - 1])
    ensures Inv(run.worlds[k])
  {
    RunStep(rows, run, k);
    StepKeeps(run.worlds[k - 1], run.steps[k - 1]);
  }

  /** The job of `t` in state `state`, as the store derives it. */
  ghost predicate JobIs(w: World, t: string, state: string) {
    t != "" && JobOf(w.log, t).Some? && JobOf(w.log, t).value.state == state
  }

  ghost function TargetOf(w: World, t: string): string
    requires JobOf(w.log, t).Some?
  {
    JobOf(w.log, t).value.target
  }

  ghost function SinceOf(w: World, t: string): Time
    requires JobOf(w.log, t).Some?
  {
    JobOf(w.log, t).value.queuedAt
  }

  /** The derived job and the protocol's stage tell the same story. */
  lemma JobIsStage(w: World, t: string)
    requires w.log.Valid()
    ensures JobIs(w, t, "running") <==> P.Runs(Abs(w), t)
    ensures JobIs(w, t, "queued") <==> P.Waits(Abs(w), t)
    ensures P.Live(Abs(w), t) ==>
              (JobOf(w.log, t).Some? && Abs(w).jobs[t].root == TargetOf(w, t) && Abs(w).jobs[t].since == SinceOf(w, t))
    ensures P.Live(Abs(w), t) <==> LiveAt(w.log, t)
    ensures t != "" ==> (JobOf(w.log, t).Some? <==> t in Abs(w).jobs)
  {
    ViewAt(w.log);
    DerivedStage(w.log, t);
  }

  // --------------------------------------------------- mutual exclusion

  /** In every world of every run, two running jobs reserve no module in common,
      each executes only inside its reservation, and so no module executes both. */
  lemma RunningJobsAreApart(rows: Rows, run: Run, k: nat, t: string, u: string)
    requires run.Valid(rows) && k < |run.worlds| && t != u
    requires JobIs(run.worlds[k], t, "running") && JobIs(run.worlds[k], u, "running")
    ensures var w := run.worlds[k];
            && FootprintOf(w.rows, TargetOf(w, t)) !! FootprintOf(w.rows, TargetOf(w, u))
            && (t in w.exec ==> w.exec[t].modules <= FootprintOf(w.rows, TargetOf(w, t)))
            && (t in w.exec && u in w.exec ==> w.exec[t].modules !! w.exec[u].modules)
  {
    var w := run.worlds[k];
    EveryWorldInv(rows, run, k);
    JobIsStage(w, t);
    JobIsStage(w, u);
    P.RunningApart(Abs(w), t, u);
    assert P.Live(Abs(w), t);
  }

  /** A hop the gate lets through, made while its job runs or after its end, lands in
      the footprint of the module its originating invoke was routed to; that is the
      reservation of the job as long as the job lives. */
  lemma HopsAreConfined(rows: Rows, run: Run, k: nat)
    requires run.Valid(rows) && k < |run.steps| && run.steps[k].HopIn?
    ensures var w, e := run.worlds[k], run.steps[k];
            && e.token in w.exec && e.target in FootprintOf(w.rows, w.exec[e.token].root)
            && !JobIs(w, e.token, "queued")
            && (JobIs(w, e.token, "running") ==> w.exec[e.token].root == TargetOf(w, e.token))
  {
    EveryWorldInv(rows, run, k);
    HopIsConfined(run.worlds[k], run.steps[k]);
  }

  lemma HopIsConfined(w: World, e: Step)
    requires Inv(w) && Enabled(w, e) && e.HopIn?
    ensures e.token in w.exec && e.target in FootprintOf(w.rows, w.exec[e.token].root)
    ensures !JobIs(w, e.token, "queued")
    ensures JobIs(w, e.token, "running") ==> w.exec[e.token].root == TargetOf(w, e.token)
  {
    JobIsStage(w, e.token);
    assert P.Runs(Abs(w), e.token) ==> P.Live(Abs(w), e.token);
    HopStaysInside(w.rows, w.exec[e.token].root, e.caller, e.cap, e.target);
  }

  /** Exactly when a hop lands in what another job reserves: its own job no longer runs,
      and the running jobs, as the store lists them, cover the target. */
  lemma HopIntrudesIff(rows: Rows, run: Run, k: nat, running: seq<Job>)
    requires run.Valid(rows) && k < |run.steps| && run.steps[k].HopIn?
    requires ListsJobs(run.worlds[k].log, running, "running")
    ensures var w, e := run.worlds[k], run.steps[k];
            (exists u :: u != e.token && JobIs(w, u, "running") && e.target in FootprintOf(w.rows, TargetOf(w, u)))
            <==> !JobIs(w, e.token, "running") && e.target in BusyWith(w.rows, running)
  {
    EveryWorldInv(rows, run, k);
    HopIntrudesAt(run.worlds[k], run.steps[k], running);
  }

  lemma HopIntrudesAt(w: World, e: Step, running: seq<Job>)
    requires Inv(w) && Enabled(w, e) && e.HopIn? && ListsJobs(w.log, running, "running")
    ensures (exists u :: u != e.token && JobIs(w, u, "running") && e.target in FootprintOf(w.rows, TargetOf(w, u)))
            <==> !JobIs(w, e.token, "running") && e.target in BusyWith(w.rows, running)
  {
    RunningIsReserved(w, running);
    RunsAreJobs(w);
    HopIsEnabled(w, e);
    P.HopIntrudesIff(Abs(w), e.token, e.caller, e.cap, e.target);
  }

  lemma RunsAreJobs(w: World)
    requires w.log.Valid()
    ensures forall u :: JobIs(w, u, "running") <==> P.Runs(Abs(w), u)
    ensures forall u :: P.Runs(Abs(w), u) ==> JobOf(w.log, u).Some? && TargetOf(w, u) == Abs(w).jobs[u].root
  {
    forall u
      ensures JobIs(w, u, "running") <==> P.Runs(Abs(w), u)
      ensures P.Runs(Abs(w), u) ==> JobOf(w.log, u).Some? && TargetOf(w, u) == Abs(w).jobs[u].root
    {
      JobIsStage(w, u);
      assert P.Runs(Abs(w), u) ==> P.Live(Abs(w), u);
    }
  }

  lemma HopIsEnabled(w: World, e: Step)
    requires Enabled(w, e) && e.HopIn?
    ensures P.Enabled(Abs(w), P.Hop(e.token, e.caller, e.cap, e.target))
  {
  }

  /** Where each capability has one declarer, what the run theorems call a footprint is
      what any walk over the modules collects, at every world. */
  lemma ReservedAsWalked(rows: Rows, run: Run, k: nat, pick: Walks.Lookup, root: string)
    requires run.Valid(rows) && k < |run.worlds| && UniqueProviders(rows)
    requires Walks.Answers(run.worlds[k].rows, pick)
    ensures Walks.Walk(run.worlds[k].rows, pick, root) == FootprintOf(rows, root)
    ensures FootprintOf(run.worlds[k].rows, root) == FootprintOf(rows, root)
  {
    var now := run.worlds[k].rows;
    RunKeepsManifests(rows, run, k);
    FootprintStateAgnostic(rows, now, root);
    assert UniqueProviders(now) by {
      assert forall n, cap :: Declares(now, n, cap) <==> Declares(rows, n, cap);
    }
    Walks.WalkIsFootprint(now, pick, root);
  }

  lemma {:induction false} RunKeepsManifests(rows: Rows, run: Run, k: nat)
    requires run.Valid(rows) && k < |run.worlds|
    ensures SameManifests(rows, run.worlds[k].rows)
  {
    if k > 0 {
      RunKeepsManifests(rows, run, k - 1);
      StepKeepsManifests(run.worlds[k - 1], run.steps[k - 1]);
    }
  }

  // ------------------------------------------------- no lost promotion

  /** Whenever nobody still owes an advance, every queued job waits for a module
      that some running job reserves. */
  lemma QueuedJobsAreBlocked(rows: Rows, run: Run, k: nat, t: string)
    requires run.Valid(rows) && k < |run.worlds| && JobIs(run.worlds[k], t, "queued")
    requires forall id :: !P.Owes(Abs(run.worlds[k]), id)
    ensures var w := run.worlds[k];
            exists u, m ::
              && JobIs(w, u, "running")
              && m in FootprintOf(w.rows, TargetOf(w, t)) && m in FootprintOf(w.rows, TargetOf(w, u))
  {
    var w := run.worlds[k];
    EveryWorldInv(rows, run, k);
    JobIsStage(w, t);
    P.NoLostPromotion(Abs(w), t);
    var u :| P.Runs(Abs(w), u) && P.Meet(Abs(w), Abs(w).jobs[t].root, Abs(w).jobs[u].root);
    JobIsStage(w, u);
    var m :| m in FootprintOf(w.rows, Abs(w).jobs[t].root) && m in FootprintOf(w.rows, Abs(w).jobs[u].root);
    assert P.Live(Abs(w), t) && P.Live(Abs(w), u);
  }

  // ------------------------------------------- the life of one token

  /** Where a token stands in a world: has it been used, what is its job, and the jobs of
      which roots cannot run beside it while it lives? */
  datatype Standing = Standing(used: bool, job: Option<Stage>, rivals: set<string>) {
    predicate Waits() {
      job.Some? && job.value.Queued?
    }

    predicate Runs() {
      job.Some? && job.value.Running?
    }

    predicate Live() {
      job.Some? && job.value.Live()
    }

    /** How far the token has come: unused, queued, running, over. */
    function Rank(): nat {
      if !used then 0 else if Waits() then 1 else if Runs() then 2 else 3
    }

    /** Later in the run: no further back, and as long as it lives the same job. */
    predicate LeadsTo(later: Standing) {
      && (used ==> later.used) && Rank() <= later.Rank()
      && (Live() && later.Live() ==>
            && later.job.value.root == job.value.root && later.job.value.since == job.value.since
            && later.rivals == rivals)
    }

    /** Both jobs wait, this one is the older, and all its rivals are the other's too. */
    predicate Shields(other: Standing) {
      Waits() && other.Waits() && job.value.since < other.job.value.since && rivals <= other.rivals
    }

    /** The other job, `next` one step later, was not started past this one. */
    predicate Precedes(other: Standing, next: Standing) {
      Shields(other) ==> !next.Runs()
    }
  }

  ghost function StandingOf(w: World, t: string): Standing {
    if P.Live(Abs(w), t) then
      Standing(t in w.tokens, Some(Abs(w).jobs[t]), Rivals(w.rows, Abs(w).jobs[t].root))
    else Standing(t in w.tokens, if t in Abs(w).jobs then Some(Ended) else None, {})
  }

  ghost function Life(worlds: seq<World>, t: string): seq<Standing> {
    seq(|worlds|, k requires 0 <= k < |worlds| => StandingOf(worlds[k], t))
  }

  ghost predicate SameWhileLive(s: P.Sys, after: P.Sys, t: string) {
    P.Live(s, t) && P.Live(after, t) ==>
      after.jobs[t].root == s.jobs[t].root && after.jobs[t].since == s.jobs[t].since
  }

  lemma RefinedAdvances(s: P.Sys, e: Option<P.Event>, after: P.Sys, t: string)
    requires Refined(s, e, after)
    ensures P.Runs(after, t) ==>
              || P.Runs(s, t)
              || (P.Waits(s, t) && e == Some(P.StartNext) && P.Listed(s.lock) != [] && P.Listed(s.lock)[0].token == t)
    ensures P.Waits(after, t) ==> P.Waits(s, t) || (e.Some? && e.value.Enter? && e.value.token == t)
    ensures SameWhileLive(s, after, t)
  {
    if e.Some? {
      P.StagesAdvance(s, e.value, t);
      var mid := P.Apply(s, e.value);
      var gone := Forgotten(mid, after);
      P.StagesAdvance(mid, P.Forget(gone), t);
    }
  }

  lemma TokensGrow(w: World, e: Step)
    requires Enabled(w, e)
    ensures w.tokens <= Apply(w, e).tokens
    ensures EventOf(w, e).Some? && EventOf(w, e).value.Enter? ==> EventOf(w, e).value.token !in w.tokens
  {
  }

  lemma LiveIsUsed(w: World, t: string)
    requires Inv(w)
    ensures t in Abs(w).jobs ==> t in w.tokens
  {
    ViewAt(w.log);
    HasJob(w.log, t);
  }

  /** A token only ever moves on, keeping its target and enqueue time while it lives. */
  lemma TokenAdvances(w: World, e: Step, t: string)
    requires Inv(w) && Enabled(w, e)
    ensures StandingOf(w, t).LeadsTo(StandingOf(Apply(w, e), t))
  {
    StepRefines(w, e);
    RefinedAdvances(Abs(w), EventOf(w, e), Abs(Apply(w, e)), t);
    TokensGrow(w, e);
    StepKeepsManifests(w, e);
    StandingLeads(w, Apply(w, e), t);
  }

  lemma StandingLeads(w: World, after: World, t: string)
    requires w.tokens <= after.tokens && SameWhileLive(Abs(w), Abs(after), t)
    requires P.Runs(Abs(after), t) ==> P.Runs(Abs(w), t) || P.Waits(Abs(w), t)
    requires P.Waits(Abs(after), t) ==> P.Waits(Abs(w), t) || t !in w.tokens
    requires SameManifests(w.rows, after.rows)
    ensures StandingOf(w, t).LeadsTo(StandingOf(after, t))
  {
    if P.Live(Abs(w), t) {
      RivalsStateAgnostic(w.rows, after.rows, Abs(w).jobs[t].root);
    }
  }

  lemma StepKeepsManifests(w: World, e: Step)
    requires Enabled(w, e)
    ensures SameManifests(w.rows, Apply(w, e).rows)
  {
    if !e.SetState? {
      assert Apply(w, e).rows == w.rows;
    }
  }

  /** Only being first in the plan takes a job from queued to running. */
  lemma OnlyPlannedStart(w: World, e: Step, t: string)
    requires Inv(w) && Enabled(w, e) && P.Waits(Abs(w), t) && P.Runs(Abs(Apply(w, e)), t)
    ensures e.StartNext? && CanStartNext(w) && w.lock.plan[0].token == t
  {
    PlannedEvent(w, e);
    StepRefines(w, e);
    StartedBy(Abs(w), EventOf(w, e), Abs(Apply(w, e)), t);
  }

  lemma StartedBy(s: P.Sys, e: Option<P.Event>, after: P.Sys, t: string)
    requires Refined(s, e, after) && P.Waits(s, t) && P.Runs(after, t)
    ensures e == Some(P.StartNext) && P.Listed(s.lock) != [] && P.Listed(s.lock)[0].token == t
  {
    RefinedAdvances(s, e, after, t);
  }

  lemma PlannedEvent(w: World, e: Step)
    requires Enabled(w, e)
    ensures EventOf(w, e) == Some(P.StartNext) ==>
              e.StartNext? && CanStartNext(w) && P.Listed(w.lock) == w.lock.plan
  {
  }

  /** What a run does to one token, step by step. */
  ghost predicate Steady(life: seq<Standing>) {
    && (forall k :: 0 <= k < |life| ==> (life[k].job.Some? ==> life[k].used))
    && (forall k :: 0 < k < |life| ==> life[k - 1].LeadsTo(life[k]))
  }

  lemma RunIsSteady(rows: Rows, run: Run, t: string)
    requires run.Valid(rows)
    ensures Steady(Life(run.worlds, t))
  {
    forall k | 0 <= k < |run.worlds| ensures t in Abs(run.worlds[k]).jobs ==> t in run.worlds[k].tokens {
      EveryWorldInv(rows, run, k);
      LiveIsUsed(run.worlds[k], t);
    }
    forall k | 0 < k < |run.worlds| ensures Life(run.worlds, t)[k - 1].LeadsTo(Life(run.worlds, t)[k]) {
      StepLeads(rows, run, k, t);
    }
  }

  lemma StepLeads(rows: Rows, run: Run, k: nat, t: string)
    requires run.Valid(rows) && 0 < k < |run.worlds|
    ensures Life(run.worlds, t)[k - 1].LeadsTo(Life(run.worlds, t)[k])
  {
    assert StandingOf(run.worlds[k - 1], t).LeadsTo(StandingOf(run.worlds[k], t)) by {
      EveryWorldInv(rows, run, k - 1);
      RunStep(rows, run, k);
      TokenAdvances(run.worlds[k - 1], run.steps[k - 1], t);
    }
    LifeLeads(run.worlds, k, t);
  }

  lemma LifeLeads(worlds: seq<World>, k: nat, t: string)
    requires 0 < k < |worlds| && StandingOf(worlds[k - 1], t).LeadsTo(StandingOf(worlds[k], t))
    ensures Life(worlds, t)[k - 1].LeadsTo(Life(worlds, t)[k])
  {
    assert Life(worlds, t)[k - 1] == StandingOf(worlds[k - 1], t) && Life(worlds, t)[k] == StandingOf(worlds[k], t);
  }

  /** Over a whole run a token never moves back, and keeps what it was queued with. */
  lemma {:induction false} LifeAdvances(life: seq<Standing>, i: nat, k: nat)
    requires Steady(life) && i <= k < |life|
    ensures life[i].job.Some? ==> life[i].LeadsTo(life[k])
  {
    if i < k {
      LifeAdvances(life, i, k - 1);
      assert life[k - 1].LeadsTo(life[k]);
    }
  }

  /** In every run a token moves from unused to queued, to running, to over, and the job
      it names keeps its root and enqueue time as long as it lives. */
  lemma TokensMoveOn(rows: Rows, run: Run, i: nat, k: nat, t: string)
    requires run.Valid(rows) && i <= k < |run.worlds|
    ensures StandingOf(run.worlds[i], t).job.Some? ==>
              StandingOf(run.worlds[i], t).LeadsTo(StandingOf(run.worlds[k], t))
  {
    RunIsSteady(rows, run, t);
    LifeAdvances(Life(run.worlds, t), i, k);
  }

  lemma DerivedStates(log: Log, t: string)
    ensures JobOf(log, t).Some? ==>
              var state := JobOf(log, t).value.state; IsTerminal(state) || state == "queued" || state == "running"
  {
  }

  /** No run leaves a terminal state: once its job is done or failed, a token has
      such a job or, after a trim, none. */
  lemma TerminalForGood(rows: Rows, run: Run, i: nat, k: nat, t: string)
    requires run.Valid(rows) && i <= k < |run.worlds| && t != ""
    requires JobOf(run.worlds[i].log, t).Some? && IsTerminal(JobOf(run.worlds[i].log, t).value.state)
    ensures JobOf(run.worlds[k].log, t).Some? ==> IsTerminal(JobOf(run.worlds[k].log, t).value.state)
  {
    EveryWorldInv(rows, run, i);
    EveryWorldInv(rows, run, k);
    JobIsStage(run.worlds[i], t);
    JobIsStage(run.worlds[k], t);
    TokensMoveOn(rows, run, i, k, t);
    DerivedStates(run.worlds[k].log, t);
  }

  // ------------------------------------------------------- what answers do

  /** In every run the answer to a live job's originating invoke decides that job: one
      that was never promoted in time fails, an error fails it with that error, an ok
      completes it, but in an asynchronous capability only an acceptance keeps it alive
      and any other ok fails it. */
  lemma AnswersTold(rows: Rows, run: Run, k: nat)
    requires run.Valid(rows) && k < |run.steps| && run.steps[k].Respond?
    requires run.steps[k].id in run.worlds[k].calls
    requires LiveAt(run.worlds[k].log, run.worlds[k].calls[run.steps[k].id].token)
    ensures var c, resp := run.worlds[k].calls[run.steps[k].id], run.steps[k].resp;
            var job := JobOf(run.worlds[k + 1].log, c.token);
            && job.Some?
            && if c.phase == P.Expired then job.value.state == "failed" && job.value.error == Some("INTERNAL_ERROR")
               else
                 && (resp.status == "error" ==> job.value.state == "failed" && job.value.error == resp.error)
                 && (resp.status == "ok" && resp.result.accepted ==> !IsTerminal(job.value.state))
                 && (resp.status == "ok" && !resp.result.accepted ==>
                       if c.async then job.value.state == "failed" && job.value.error == Some("CALLABLE_FAILED")
                       else job.value.state == "done")
  {
    var w, e := run.worlds[k], run.steps[k];
    EveryWorldInv(rows, run, k);
    RunStep(rows, run, k + 1);
    AnswerTold(w, e.id, e.resp);
  }

  lemma AnswerTold(w: World, id: string, resp: Response)
    requires Inv(w) && CanRespond(w, id) && LiveAt(w.log, w.calls[id].token)
    ensures var c, job := w.calls[id], JobOf(Responded(w, id, resp).log, w.calls[id].token);
            && job.Some?
            && if c.phase == P.Expired then job.value.state == "failed" && job.value.error == Some("INTERNAL_ERROR")
               else
                 && (resp.status == "error" ==> job.value.state == "failed" && job.value.error == resp.error)
                 && (resp.status == "ok" && resp.result.accepted ==> !IsTerminal(job.value.state))
                 && (resp.status == "ok" && !resp.result.accepted ==>
                       if c.async then job.value.state == "failed" && job.value.error == Some("CALLABLE_FAILED")
                       else job.value.state == "done")
  {
    var fin := Final(w.calls[id], id, resp);
    AnsweredIsOrigin(w, id);
    FinalRecord(w, id, resp);
    AnswerDecides(w.log, id, fin, w.now + 1);
  }

  /** A call that is out was filed as the originator of its job, if that lives. */
  lemma AnsweredIsOrigin(w: World, id: string)
    requires Inv(w) && CanRespond(w, id) && LiveAt(w.log, w.calls[id].token)
    ensures IsOrigin(w.log, id) && !w.log.records[id].Done()
    ensures w.log.records[id].request.jobToken == w.calls[id].token
    ensures !IsTerminal(Reported(ByToken(w.log, w.calls[id].token)))
  {
    OriginOfLive(w.log, id);
  }

  // ------------------------------------------------------ no overtaking

  /** No step starts a job while an older one is queued all of whose rivals are its own. */
  lemma NotStartedPast(w: World, e: Step, t: string, u: string)
    requires Inv(w) && Enabled(w, e)
    ensures StandingOf(w, t).Precedes(StandingOf(w, u), StandingOf(Apply(w, e), u))
  {
    if P.Waits(Abs(w), u) && P.Runs(Abs(Apply(w, e)), u) {
      OnlyPlannedStart(w, e, u);
      InvPlannedNotPast(w, t, u);
    }
    StandingPrecedes(w, Apply(w, e), t, u);
  }

  lemma StandingPrecedes(w: World, after: World, t: string, u: string)
    requires P.Waits(Abs(w), u) && P.Runs(Abs(after), u) ==> !StandingOf(w, t).Shields(StandingOf(w, u))
    ensures StandingOf(w, t).Precedes(StandingOf(w, u), StandingOf(after, u))
  {
  }

  lemma InvPlannedNotPast(w: World, t: string, u: string)
    requires Inv(w) && CanStartNext(w) && w.lock.plan[0].token == u
    ensures !StandingOf(w, t).Shields(StandingOf(w, u))
  {
    PlannedNotPast(w, t, u);
  }

  /** What the plan starts next passes no older job all of whose rivals are its own. */
  lemma PlannedNotPast(w: World, t: string, u: string)
    requires P.Fair(Abs(w)) && P.LockSound(Abs(w)) && CanStartNext(w) && w.lock.plan[0].token == u
    ensures !StandingOf(w, t).Shields(StandingOf(w, u))
  {
    var a, b := StandingOf(w, t), StandingOf(w, u);
    if a.Waits() && b.Waits() && a.job.value.since < b.job.value.since {
      P.NeverOvertaken(Abs(w), t);
    }
  }

  ghost predicate Unpassed(older: seq<Standing>, younger: seq<Standing>)
    requires |older| == |younger|
  {
    forall k :: 0 < k < |older| ==> older[k - 1].Precedes(younger[k - 1], younger[k])
  }

  lemma NextUnpassed(rows: Rows, run: Run, k: nat, t: string, u: string)
    requires run.Valid(rows) && 0 < k < |run.worlds|
    ensures Life(run.worlds, t)[k - 1].Precedes(Life(run.worlds, u)[k - 1], Life(run.worlds, u)[k])
  {
    StepUnpassed(rows, run, k, t, u);
    LifePrecedes(run.worlds, k, t, u);
  }

  lemma StepUnpassed(rows: Rows, run: Run, k: nat, t: string, u: string)
    requires run.Valid(rows) && 0 < k < |run.worlds|
    ensures StandingOf(run.worlds[k - 1], t).Precedes(StandingOf(run.worlds[k - 1], u), StandingOf(run.worlds[k], u))
  {
    var w, e, after := run.worlds[k - 1], run.steps[k - 1], run.worlds[k];
    EveryWorldInv(rows, run, k - 1);
    RunStep(rows, run, k);
    assert after == Apply(w, e);
    NotStartedPast(w, e, t, u);
  }

  lemma LifePrecedes(worlds: seq<World>, k: nat, t: string, u: string)
    requires 0 < k < |worlds|
    requires StandingOf(worlds[k - 1], t).Precedes(StandingOf(worlds[k - 1], u), StandingOf(worlds[k], u))
    ensures Life(worlds, t)[k - 1].Precedes(Life(worlds, u)[k - 1], Life(worlds, u)[k])
  {
    var older, younger := Life(worlds, t), Life(worlds, u);
    assert older[k - 1] == StandingOf(worlds[k - 1], t);
    assert younger[k - 1] == StandingOf(worlds[k - 1], u) && younger[k] == StandingOf(worlds[k], u);
  }

  lemma RunIsUnpassed(rows: Rows, run: Run, t: string, u: string)
    requires run.Valid(rows)
    ensures Unpassed(Life(run.worlds, t), Life(run.worlds, u))
  {
    var older, younger := Life(run.worlds, t), Life(run.worlds, u);
    forall k | 0 < k < |run.worlds| ensures older[k - 1].Precedes(younger[k - 1], younger[k]) {
      NextUnpassed(rows, run, k, t, u);
    }
  }

  lemma {:induction false} OlderFirst(older: seq<Standing>, younger: seq<Standing>, i: nat, k: nat)
    requires |older| == |younger| && Steady(older) && Steady(younger) && Unpassed(older, younger)
    requires i <= k < |older| && older[i].Shields(younger[i]) && older[k].Waits()
    ensures !younger[k].Runs()
  {
    if i < k {
      LifeAdvances(older, i, k - 1);
      LifeAdvances(younger, i, k - 1);
      assert older[k - 1].LeadsTo(older[k]) && younger[k - 1].LeadsTo(younger[k]);
      assert older[k - 1].Precedes(younger[k - 1], younger[k]);
      OlderFirst(older, younger, i, k - 1);
    }
  }

  /** Over any run: of two jobs queued together, the younger is not started while the
      older is still queued, if whatever conflicts with the older conflicts with it. */
  lemma OlderGoesFirst(rows: Rows, run: Run, i: nat, k: nat, t: string, u: string)
    requires run.Valid(rows) && i <= k < |run.worlds|
    requires JobIs(run.worlds[i], t, "queued") && JobIs(run.worlds[i], u, "queued")
    requires SinceOf(run.worlds[i], t) < SinceOf(run.worlds[i], u)
    requires var w := run.worlds[i]; Rivals(w.rows, TargetOf(w, t)) <= Rivals(w.rows, TargetOf(w, u))
    requires JobIs(run.worlds[k], t, "queued")
    ensures !JobIs(run.worlds[k], u, "running")
  {
    var older, younger := Life(run.worlds, t), Life(run.worlds, u);
    assert older[i].Shields(younger[i]) by {
      EveryWorldInv(rows, run, i);
      JobIsStage(run.worlds[i], t);
      JobIsStage(run.worlds[i], u);
      assert P.Live(Abs(run.worlds[i]), t) && P.Live(Abs(run.worlds[i]), u);
    }
    assert older[k].Waits() && (JobIs(run.worlds[k], u, "running") ==> younger[k].Runs()) by {
      EveryWorldInv(rows, run, k);
      JobIsStage(run.worlds[k], t);
      JobIsStage(run.worlds[k], u);
    }
    RunIsSteady(rows, run, t);
    RunIsSteady(rows, run, u);
    RunIsUnpassed(rows, run, t, u);
    OlderFirst(older, younger, i, k);
  }

  /** So in particular where the younger reserves all that the older reserves. */
  lemma OlderInsideGoesFirst(rows: Rows, run: Run, i: nat, k: nat, t: string, u: string)
    requires run.Valid(rows) && i <= k < |run.worlds|
    requires JobIs(run.worlds[i], t, "queued") && JobIs(run.worlds[i], u, "queued")
    requires SinceOf(run.worlds[i], t) < SinceOf(run.worlds[i], u)
    requires var w := run.worlds[i]; FootprintOf(w.rows, TargetOf(w, t)) <= FootprintOf(w.rows, TargetOf(w, u))
    requires JobIs(run.worlds[k], t, "queued")
    ensures !JobIs(run.worlds[k], u, "running")
  {
    InsideSharesRivals(run.worlds[i].rows, TargetOf(run.worlds[i], t), TargetOf(run.worlds[i], u));
    OlderGoesFirst(rows, run, i, k, t, u);
  }

  /** So the jobs of one module start in the order they were enqueued. */
  lemma OneModuleInOrder(rows: Rows, run: Run, i: nat, k: nat, t: string, u: string)
    requires run.Valid(rows) && i <= k < |run.worlds|
    requires JobIs(run.worlds[i], t, "queued") && JobIs(run.worlds[i], u, "queued")
    requires SinceOf(run.worlds[i], t) < SinceOf(run.worlds[i], u)
    requires TargetOf(run.worlds[i], t) == TargetOf(run.worlds[i], u)
    requires JobIs(run.worlds[k], u, "running")
    ensures !JobIs(run.worlds[k], t, "queued")
  {
    if JobIs(run.worlds[k], t, "queued") {
      OlderGoesFirst(rows, run, i, k, t, u);
    }
  }

  // ------------------------------------------ hops on forgotten tokens

  /** No job runs, and nobody is about to advance the queue. */
  ghost predicate AtRest(w: World) {
    (forall k :: !P.Owes(Abs(w), k)) && (forall t :: !JobIs(w, t, "running"))
  }

  /** Neither a record of the token is left nor its stamp. */
  ghost predicate OffFile(log: Log, token: string) {
    ByToken(log, token) == [] && token !in log.started
  }

  /** The condition on hops is needed: in a world at rest a hop on a token that a trim
      has forgotten, though the gate lets it through, leaves a queued job that nothing
      blocks and that nobody will advance. */
  lemma ForgottenHopStrands(w: World, id: string, token: string, caller: string, cap: string, target: string)
    requires w.log.Valid() && |w.log.order| + 1 < 2 * MAX_RECORDS && AtRest(w)
    requires id !in w.log.records && token != "" && token in w.exec && OffFile(w.log, token)
    ensures var w' := HoppedIn(w, id, token, caller, cap, target);
            JobIs(w', token, "queued") && AtRest(w')
  {
    var r := InvokeRecord(id, token, cap, target, caller, w.now + 1);
    HopRecord(w, id, token, caller, cap, target);
    ForgottenStrands(w, r);
  }

  lemma ForgottenStrands(w: World, r: Record)
    requires w.log.Valid() && r.request.id !in w.log.records && !r.Done() && |w.log.order| + 1 < 2 * MAX_RECORDS
    requires r.request.cmd == "invoke" && r.request.jobToken != "" && r.request.jobToken in w.exec
    requires OffFile(w.log, r.request.jobToken) && AtRest(w)
    ensures var log, token := Opened(w.log, r, MAX_RECORDS), r.request.jobToken;
            var w' := WithHop(w, log, r.request.id, token, r.target);
            JobIs(w', token, "queued") && AtRest(w')
  {
    var log, token := Opened(w.log, r, MAX_RECORDS), r.request.jobToken;
    OpenedForgotten(w.log, r);
    OnlyQueued(w, WithHop(w, log, r.request.id, token, r.target), token, Queued(r.target, r.reqReceived));
    HopOwesNothing(w, log, r.request.id, token, r.target);
  }

  lemma OnlyQueued(w: World, w': World, token: string, stage: Stage)
    requires w.log.Valid() && w'.log.Valid() && forall t :: !JobIs(w, t, "running")
    requires stage.Queued? && View(w'.log) == View(w.log)[token := stage]
    ensures JobIs(w', token, "queued") && forall t :: !JobIs(w', t, "running")
  {
    JobIsStage(w', token);
    forall t ensures !JobIs(w', t, "running") {
      NoneRunsBeside(w, w', token, t);
    }
  }

  lemma OpenedForgotten(log: Log, r: Record)
    requires log.Valid() && r.request.id !in log.records && !r.Done() && |log.order| + 1 < 2 * MAX_RECORDS
    requires r.request.cmd == "invoke" && r.request.jobToken != ""
    requires ByToken(log, r.request.jobToken) == [] && r.request.jobToken !in log.started
    ensures Opened(log, r, MAX_RECORDS).Valid()
    ensures View(Opened(log, r, MAX_RECORDS)) == View(log)[r.request.jobToken := Queued(r.target, r.reqReceived)]
  {
    assert Opened(log, r, MAX_RECORDS) == Added(log, r);
    ForgottenHopAdded(log, r);
  }

  lemma NoneRunsBeside(w: World, w': World, token: string, t: string)
    requires w.log.Valid() && w'.log.Valid() && !JobIs(w, t, "running")
    requires exists stage: Stage :: stage.Queued? && View(w'.log) == View(w.log)[token := stage]
    ensures !JobIs(w', t, "running")
  {
    JobIsStage(w, t);
    JobIsStage(w', t);
  }

  lemma HopOwesNothing(w: World, log: Log, id: string, token: string, target: string)
    requires token in w.exec && forall k :: !P.Owes(Abs(w), k)
    ensures forall k :: !P.Owes(Abs(WithHop(w, log, id, token, target)), k)
  {
    forall k ensures !P.Owes(Abs(WithHop(w, log, id, token, target)), k) {
      assert !P.Owes(Abs(w), k);
    }
  }

  // -------------------------------------------------- when trims are harmless

  /** A store short of twice its cap is not trimmed, so nothing is lost. */
  lemma ShortLogSpared(log: Log)
    requires log.Valid() && |log.order| < 2 * MAX_RECORDS
    ensures TrimSpares(log)
  {
    forall t | StageAt(log, t).Some? && !StageAt(log, t).value.Live() ensures !Trimming.Revives(log, MAX_RECORDS, t) {
      Trimming.SparedAll(log, MAX_RECORDS, ByToken(log, t));
    }
  }
}
