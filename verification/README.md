# suctl orchestrator: a verified model

suctl runs jobs on modules.  A job reserves every module it could reach, and its
state is never stored: it is derived from the messages recorded under its token.
This project models that orchestrator and the two correlation protocols and three
failure counters around it, and proves what they are for.

| files | what they model |
|---|---|
| `ModuleGraph`, `Walks`, `ModuleStore`, `Requirements` | the module index: dependency closures, activation order, requirement evaluation, routing, the requires-gate |
| `Messages`, `MessageStore`, `Jobs`, `Trimming` | the record log with its amortised trim, and the jobs folded from it |
| `Queue`, `Protocol`, `JobLog`, `QueueRun`, `QueueTheorems`, `StoreRuns`, `Broker` | the queue manager: the greedy policy, the lock protocol, its refinement by the real log, the theorems about whole runs, runs that show their limits, and the broker's methods |
| `Wire` | the pending-call table of one module's wire |
| `Correlation`, `Correlator` | the face's park-then-replay correlation |
| `Health`, `Lifecycle`, `Supervisor` | failure streaks, the restart budget, the crash-loop guard |
| `Registration` | the services.d printer and parser |

`dafny verify dfyconfig.toml` checks the whole project.

## How the queue proof is built

`Protocol` is the lock protocol over an explicit machine (queued, running, ended).
One advance is not one step there: its holder lists the tokens, looks at them one by
one for the queued jobs, sorts these, looks at the tokens again for the running ones,
chooses, and stamps one job after the other.  Between any two of these steps other
callers open, answer and report, as they may in the source, where only the admission
mutex is held.  `Jobs` abstracts the derived job to a stage, `JobLog` shows that each
write to the log moves the derived stages as the protocol's step does, and
`QueueRun.StepRefines` shows that every step on the real log is a step of the protocol.
`QueueTheorems` then speaks about runs and about the jobs the store derives, and
`StoreRuns` builds such runs, from the empty store, to where a guarantee ends.

The run-level theorems assume what the code relies on, and no more:

- Request ids and originating job tokens are fresh.  A hop carries the token of a job
  whose invoke was routed and that its caller was called into; the job may have ended,
  as the gate does not look at its state.  Of its token an originating invoke or a
  terminal report is on file (`KeepsItsJob`): `HopMovesNothingIff` shows that a hop
  moves no job exactly then.
- Time stamps are positive and strictly increasing.
- No report takes back a terminal state (`CanReportIn`).
- In-process handlers of required capabilities lie in the requirer's footprint
  (`HandlersReserved`); `GateSafeIffHandlersReserved` shows that hop safety holds
  exactly then, and handlers that serve only declared capabilities qualify.
- No trim evicts the originating record of a live job or revives an ended one
  (`TrimSpares`).  Both are read off the log before the write: `EvictedIff` says which
  records go, `TrimKeepsJobIff` that a live job is kept exactly if its originator is,
  `RevivedIff` and `RevivesIff` when an ended job is revived, and `ShortLogSpared`
  that a store of fewer than twice the cap is safe.

Manifests do not change after the scan; lifecycle states may change at any step.
A footprint is the closure over every declarer of a required capability.  Where each
capability has one declarer that is what the code's walk collects
(`ReservedAsWalked`), and `ModuleStore` assumes as much, as the iteration in
findProvider is otherwise free to answer differently each time.  `Walks` says exactly
when a walk can be trusted without that (`EveryWalkConfinesIff`);
`AmbiguousProviderEscapes` is a store where it cannot.

## Where the code falls short of what one would expect

- Trimming is meant to drop the history of finished jobs only.  The acknowledgement of
  an accepted asynchronous job completes its record while the job runs, so a trim
  may evict it, and the running job is taken for over (`StoreRuns.AcceptedJobLost`).
  `TrimKeepsJobIff` is the exact condition.
- A terminal state need not last across a trim: the answered originating record may go
  while a hop of its token stays open (`StoreRuns.FinishedJobRevived`), or the terminal
  report while the originating invoke stays (`StoreRuns.ReportedJobRevived`).
  `RevivesIff` is the exact condition.
- Neither does it last across a hop on a token that a trim has forgotten: the hop
  derives a queued job that no caller waits for and that nobody advances
  (`StoreRuns.ForgottenHopReached`).  Hops on tokens still on file are harmless, and
  only those (`HopMovesNothingIff`).
- A reservation ends with its job, but the job's modules may go on calling; such a hop
  is let into what another job has reserved by then (`StoreRuns.EndedJobsIntrude`).
  `HopIntrudesIff` is the exact condition: the hop's own job no longer runs, and
  the gate's Busy would find somebody at the target.
- The parking area of the face may push out a terminal update; its mod then goes on
  loading (`Correlation.EvictedTerminalIsLost`).  `StopsLoadingIff` says exactly when.
- First in, first out is not what the queue does: a blocked job reserves nothing, so
  a younger job may pass it (`Queue.FirstInNotFirstOut`).  `NeverOvertakesIff` says of
  plans, and `StoreRuns.FairIffRivals` of runs, exactly between which modules that
  cannot happen.

## Model

| member | source | states |
|---|---|---|
| `QueueTheorems.RunningJobsAreApart` | internal/broker/queue.go:63-70 | In every world of every run, two jobs the store derives as running reserve disjoint footprints; each executes only inside its own; no module executes both |
| `QueueTheorems.HopsAreConfined` | internal/broker/broker.go:189-194 | In every run, a hop the requires-gate lets through, be it after its job has ended, lands in the footprint of the module its originating invoke was routed to, which is the job's own reservation while that runs; no job still queued makes one |
| `QueueTheorems.HopIntrudesIff` | internal/broker/broker.go:184-264 | The exact condition, in every run: a hop lands in what another running job reserves if and only if its own job no longer runs and the listed running jobs' footprints cover the target, which the gate's Busy could tell before the hop is opened |
| `QueueTheorems.ReservedAsWalked` | internal/module/requirements.go:142-162 | Where each capability has one declarer, what the run theorems call a footprint is what any walk collects, at every world of every run |
| `QueueTheorems.QueuedJobsAreBlocked` | internal/broker/broker.go:221-264 | No lost promotion: whenever nobody still owes an advance, every queued job shares a module with a running one, so some job runs |
| `QueueTheorems.OlderGoesFirst` | internal/broker/queue.go:43-51 | Over any run, of two jobs queued together the younger is not running while the older still waits, if every root that can be routed to and whose footprint meets the older's meets the younger's |
| `QueueTheorems.OlderInsideGoesFirst` | internal/broker/queue.go:43-51 | The case where the younger's footprint contains the older's |
| `QueueTheorems.OneModuleInOrder` | internal/broker/queue.go:29-34 | Jobs of one module start in enqueue order |
| `QueueTheorems.TerminalForGood` | internal/messages/jobs.go:42-103 | Once a token's job is done or failed, at every later point of the run, its late hops included, it has a terminal job or, after a trim, none |
| `QueueTheorems.ForgottenHopStrands` | internal/broker/broker.go:184-264 | Why hops need something on file: in any world where nothing runs and no advance is owed, a hop on a forgotten token leaves a queued job, and still nothing runs and no advance is owed |
| `QueueTheorems.TokensMoveOn` | internal/messages/jobs.go:81-102 | In every run a token moves only unused, queued, running, over, and keeps its footprint and enqueue time while it lives |
| `QueueTheorems.AnswersTold` | internal/broker/broker.go:243-307 | In every run the answer to a live job's originating invoke decides what is derived: an invoke never promoted in time fails with INTERNAL_ERROR, an error fails the job with that error, an ok completes it, and of an asynchronous capability an acceptance leaves it unfinished and any other ok fails it with CALLABLE_FAILED |
| `QueueTheorems.OnlyPlannedStart` | internal/broker/queue.go:63-70 | No step but the stamping of the first planned job takes a job from queued to running |
| `QueueTheorems.EveryWorldInv` | internal/broker/broker.go:169-310 | Every world of every run satisfies the invariant, hops of ended jobs among the steps |
| `QueueTheorems.ShortLogSpared` | internal/messages/store.go:173-176 | A store of fewer than twice the cap is not trimmed, so the assumption that no trim loses a live job holds |
| `QueueRun.StepRefines` | internal/broker/broker.go:169-362 | Every step on the real store (open, list the tokens, look at one, sort, choose, stamp, release, check, respond, hop, report) is a step of the lock protocol on the derived jobs, apart from ended jobs forgotten by a trim |
| `QueueRun.StepKeeps` | internal/broker/broker.go:169-362 | Every step keeps the invariant |
| `QueueRun.RunningIsReserved` | internal/broker/queue.go:36-41 | The footprints folded from the derived running list are exactly the modules held by running jobs |
| `QueueRun.LockIsLooked` | internal/messages/jobs.go:136-157 | Looking at one token, at whatever moment, an advance learns from the derived job just what the protocol's job is |
| `StoreRuns.SomeRunStartsAJob` | internal/broker/broker.go:213-260 | Runs do start jobs: there is one in which an invoke is opened, found, planned, stamped and routed, and its job runs |
| `StoreRuns.Plans` | internal/broker/queue.go:63-70 | An advance that nobody interferes with, looking token by token, comes to the greedy plan over the whole queue and all that is reserved |
| `StoreRuns.FairIffRivals` | internal/broker/queue.go:29-53 | The exact condition of fairness over the store's runs: none starts a job rooted at one module past an older queued one rooted at another if and only if one of the two is never routed to, or every root that can be routed to and meets the older's footprint meets the younger's |
| `StoreRuns.YoungerChosenPast` | internal/broker/queue.go:29-53 | Where the condition fails, a run gets to where the next stamp starts the younger while the older waits |
| `StoreRuns.EndedJobsIntrude` | internal/broker/broker.go:184-264 | A reservation ends with its job: for any module that can be routed to, a run gets to where a hop of an ended job is let into a running job's footprint |
| `StoreRuns.ForgottenHopReached` | internal/broker/broker.go:184-264 | A run gets to rest with a job forgotten by a trim whose module is still at work, and the hop that the gate lets through strands a queued job |
| `StoreRuns.AcceptedJobLost` | internal/messages/store.go:180 | In a run an accepted job reports progress until the trim of the next invoke evicts its originating record, and the running job is taken for over |
| `StoreRuns.FinishedJobRevived` | internal/messages/store.go:180 | In a run a job is answered while a hop of its module is out, and the trim of a later invoke makes it run again |
| `StoreRuns.ReportedJobRevived` | internal/messages/store.go:180 | In a run a job is reported done, and the trim of a later invoke evicts the report and makes it run again |
| `Protocol.InvKept` | internal/broker/queue.go:63-99 | Every step of the lock protocol, with jobs entering, ending and reporting between any two looks and stamps of one advance, keeps exclusion, confinement, no lost promotion and fairness |
| `Protocol.StagesAdvance` | internal/messages/jobs.go:81-102 | Each step moves a job only forward: a job is queued by its entry, runs only off the head of the plan, stays ended once ended unless forgotten, and keeps its root and enqueue time while it lives |
| `Protocol.RunningApart` | internal/gate/gate.go:9-11 | Under the invariant two running jobs share no module and no module executes both |
| `Protocol.NoLostPromotion` | internal/broker/broker.go:200-208 | Under the invariant, with no advance owed, a queued job is blocked by a running one |
| `Protocol.NeverOvertaken` | internal/broker/queue.go:43-51 | The job started next passes no older queued job unless some root that can be routed to conflicts with the older and not with it |
| `Protocol.HopIntrudesIff` | internal/broker/broker.go:184-264 | Under the invariant a hop lands in another running job's footprint if and only if its own job does not run and some running footprint has the target |
| `Queue.PlanIsGreedy` | internal/broker/queue.go:35-53 | A queued job is promoted if and only if its footprint meets no running footprint and none promoted before it |
| `Queue.PlanApart` | internal/broker/queue.go:35-53 | Promoted jobs are queued jobs, each once, with footprints disjoint from the running ones and from each other |
| `Queue.OldestStarts` | internal/broker/queue.go:35-53 | With nothing running the oldest queued job is promoted first |
| `Queue.PassedOverIsBlocked` | internal/broker/queue.go:29-34 | A job passed over shares a module with a running or a promoted job |
| `Queue.NoOvertaking` | internal/broker/queue.go:43-51 | A job is not promoted past an older one, promoted or not, if whatever can be routed to and conflicts with the older conflicts with it |
| `Queue.NeverOvertakesIff` | internal/broker/queue.go:35-53 | That condition is exact: it holds of two roots that can be routed to if and only if no plan, whatever the queue and the busy footprints of such roots, promotes the younger root past the older |
| `Queue.Overtakes` | internal/broker/queue.go:35-53 | Where it fails, beside one running job the younger of the two is planned, and alone |
| `Queue.InsideSharesRivals` | internal/broker/queue.go:43-51 | A footprint inside another meets the condition |
| `Queue.RivalsBeyondInside` | internal/broker/queue.go:43-51 | So may one that is not inside: containment is sufficient only |
| `Queue.FirstInNotFirstOut` | internal/broker/queue.go:29-53 | Beside a running job a younger job is planned past a blocked older one |
| `Broker.Broker.PlanPromotions` | internal/broker/queue.go:35-53 | The loop returns the tokens of exactly the greedy plan over the queue and the running footprints |
| `Broker.Broker.Footprint` | internal/broker/queue.go:25-27 | The reservation set is the dependency closure of the module |
| `Broker.Broker.Advance` | internal/broker/queue.go:63-70 | The store ends as before with exactly the planned tokens stamped, in order |
| `Broker.StampsOfPlan` | internal/broker/queue.go:63-70 | Starting a plan stamps its tokens at that moment, keeps every earlier stamp and touches no record |
| `Broker.AdvanceSettles` | internal/broker/queue.go:55-62 | After an advance nobody interferes with: jobs only went from queued to running, running jobs stay apart, and every job still queued meets a running one |
| `Broker.Broker.Accept` | internal/broker/broker.go:169-228 | Each refusal has its code exactly where the check fails, in the source's order, and leaves no record; an admitted invoke is on file unanswered with its target, capability and caller |
| `Broker.AdmittedIsEnabled` | internal/broker/broker.go:184-198 | What Accept admits is what the run's steps allow: a gated hop of a module its token's job was called into, with something of the token on file, or a fresh originating invoke |
| `Broker.AcceptIsStep` | internal/broker/broker.go:213-228 | What Accept writes of a hop or of an originating invoke is what that step of a run writes |
| `Broker.ConcludeIsStep` | internal/broker/broker.go:229-307 | So is what Conclude writes of a routed originating invoke or of a hop |
| `Broker.FileIsSteps` | internal/broker/broker.go:334-345 | And what is filed of a report is what a run writes in two steps, one to open it and one to answer it |
| `Broker.Broker.Promoted` | internal/broker/queue.go:90-92 | The parked caller's check: true means its job no longer waits, false that it does not run |
| `Broker.Broker.Conclude` | internal/broker/broker.go:229-307 | The response is filed under the request's own id, that of a hop as it came; a job that no report ended is then derived failed with the error of an error response, unfinished after an acceptance, and after any other ok done, or failed with CALLABLE_FAILED if the capability is asynchronous |
| `Broker.Broker.HandleJobUpdate` | internal/broker/broker.go:312-362 | INVALID_PARAMS and JOB_NOT_FOUND leave the store alone; else the report is opened and answered, the face told iff some invoke of the job has no caller, and the queue advanced iff the report says done or failed |
| `Broker.FiledTells` | internal/broker/broker.go:336-345 | The report's own record survives the trim of its opening: from and to the caller, received and answered ok at once |
| `Broker.FiledAlone` | internal/broker/broker.go:336-345 | Where nothing is trimmed, filing a report changes nothing else |
| `Broker.Broker.SurfaceOriginated` | internal/broker/broker.go:88-95 | True iff some invoke on the token has the empty caller |
| `Broker.Busy` | internal/gate/gate.go:36-43 | Returns a running job whose footprint covers the module, and none only if no running footprint does |
| `Messages.TrimExact` | internal/messages/store.go:173-202 | A trim leaves max(cap, open records) ids as a subsequence of the old order, loses no open record, alters no survivor, evicts only done records older than every done one kept, and keeps a stamp iff its token keeps a record |
| `Messages.KeptShape` | internal/messages/store.go:178-187 | Exactly the done records before the cut go; the rest stays in order |
| `Messages.KeptCount` | internal/messages/store.go:178-187 | How many ids the eviction loop keeps |
| `Messages.KeptOrder` | internal/messages/store.go:178-187 | Survivors keep their relative order |
| `Messages.EvictedIff` | internal/messages/store.go:173-189 | What goes, told before the write: a record is evicted iff the order is at least twice the cap long, the record is done, and fewer done records stand before it than the order exceeds the cap by |
| `Messages.UnansweredStays` | internal/messages/store.go:173-189 | A record without a response is never evicted or altered by a trim |
| `Messages.WritesKeepValid` | internal/messages/store.go:76-125 | Every write keeps the ids distinct and equal to the record keys |
| `MessageStore.Store.Open` | internal/messages/store.go:97-111 | The request is on file unanswered with its receipt time, target, capability and caller, appended or overwritten under a known id, and the log trimmed; below twice the cap nothing else changes |
| `MessageStore.Store.Complete` | internal/messages/store.go:115-125 | The response and its time are filed under its id and nothing else changes; an unknown id is refused |
| `MessageStore.Store.Start` | internal/messages/store.go:76-82 | The stamp is set once; stamping again changes nothing |
| `MessageStore.Store.TrimLocked` | internal/messages/store.go:173-202 | The in-place loops leave exactly the trimmed log |
| `MessageStore.Store.EvictOldest` | internal/messages/store.go:177-189 | The eviction loop keeps exactly the specified ids and their records |
| `MessageStore.Store.SurvivingTokens` | internal/messages/store.go:192-197 | Exactly the non-empty tokens of the remaining records |
| `MessageStore.Store.ByToken` | internal/messages/store.go:158-168 | The records of the token, oldest first |
| `MessageStore.Store.List` | internal/messages/store.go:140-154 | The latest records, newest first, as many as the limit, or all where it is not positive |
| `MessageStore.Store.JobFor` | internal/messages/jobs.go:42-103 | The loop derives the job of the run theorems, whose every field the lemmas JobSource to JobFinish read off the token's records |
| `MessageStore.Store.JobTokens` | internal/messages/jobs.go:161-173 | Each non-empty token of the store exactly once, the one of the latest record first |
| `MessageStore.Store.Running` | internal/messages/jobs.go:136-144 | Exactly the jobs derived as running, each once |
| `MessageStore.Store.Queued` | internal/messages/jobs.go:148-157 | Exactly the jobs derived as queued, each once, oldest first |
| `MessageStore.Sorted` | internal/messages/jobs.go:155 | A sort by enqueue time keeps the jobs and orders them |
| `MessageStore.JobToken` | internal/messages/jobs.go:42-60 | A derived job carries the token it was derived for |
| `Jobs.DerivedStage` | internal/messages/jobs.go:42-103 | The derived job, abstracted, is the stage read off the reports, the originating record and the stamp |
| `Jobs.FoldState` | internal/messages/jobs.go:177-197 | The fold leaves the last state reported, and neither target nor enqueue time moves |
| `Jobs.JobSource` | internal/messages/jobs.go:42-60 | A derived job has its originator's target, capability and receipt time, and its own token's stamp |
| `Jobs.JobState` | internal/messages/jobs.go:70-102 | It has the terminal state last reported, else failed or done as the originating response says, else running iff stamped |
| `Jobs.JobError` | internal/messages/jobs.go:81-90 | Its error is that of an error response that decides it, else the last error reported, however the reports fall |
| `Jobs.JobOutput` | internal/messages/jobs.go:87-97 | Its output is the decoded or raw result of an ok response that decides it, else the last output reported |
| `Jobs.JobMessages` | internal/messages/jobs.go:177-197 | Its messages are exactly the non-empty ones reported, in order, and its message the last of them |
| `Jobs.JobProgress` | internal/messages/jobs.go:177-197 | Its progress is the last positive one reported, or zero |
| `Jobs.JobFinish` | internal/messages/jobs.go:61-97 | It finished with the response that decides it, else with the last report received while the reported state was terminal |
| `Jobs.AnswerDecides` | internal/messages/jobs.go:79-97 | Filing the answer to the originating exchange of a job no report has ended decides its state, error, output and finish |
| `Jobs.OriginAt` | internal/messages/jobs.go:48-54 | The originator is the first invoke record, or the first record where there is none |
| `Jobs.OpenEnqueues` | internal/messages/store.go:97-111 | Opening the originating invoke of a fresh token derives a queued job |
| `Jobs.OpenHopMovesNothing` | internal/broker/broker.go:200-205 | Opening a hop on a token whose originator is an invoke leaves its job where it is |
| `Jobs.OpenHopIff` | internal/broker/broker.go:200-205 | A hop leaves the job of its token alone, be that ended, forgotten, or live with an invoke for originator, if and only if an originating invoke or a terminal report of the token is on file |
| `Jobs.ForgottenHopQueues` | internal/broker/broker.go:200-205 | A hop on a forgotten token derives a queued job at the hop's target |
| `Jobs.OpenReportEnds` | internal/messages/jobs.go:177-197 | Opening a report ends its job iff it is terminal, given none is taken back |
| `Jobs.CompleteEnds` | internal/messages/jobs.go:81-102 | A response ends exactly the job of the originating record it answers, iff it is an error or an ok that is no acceptance |
| `Jobs.StartPromotes` | internal/messages/store.go:76-82 | A stamp moves exactly its own job from queued to running |
| `Jobs.AddedOther` | internal/messages/store.go:97-111 | Opening a record leaves every other token's job alone |
| `Jobs.HasJob` | internal/messages/jobs.go:161-173 | A token has a job iff some record carries it |
| `Trimming.TrimKeepsJobIff` | internal/messages/store.go:173-202 | A trim leaves a live job unchanged if and only if its guard does not evict the record of the originating invoke |
| `Trimming.TrimKeepsJob` | internal/messages/store.go:173-202 | A job decided by its originating invoke stays what and where it was if that record survives |
| `Trimming.StageAfterTrim` | internal/messages/store.go:173-202 | What any job is after the trim, computed from the records its guard spares, before it runs |
| `Trimming.RevivedIff` | internal/messages/store.go:173-202 | An ended job is ended or forgotten after the trim if and only if not some of its records are spared and none that ended it |
| `Trimming.RevivesIff` | internal/messages/store.go:173-202 | With no terminal state taken back that is: some record is spared, every terminal report evicted, and the spared originator unanswered |
| `Trimming.AnsweredRevivesIff` | internal/messages/store.go:178-200 | A job ended by its answered invoke alone is revived if and only if that record is evicted and the group left is non-empty with an unanswered originator |
| `Trimming.ReportedRevivesIff` | internal/messages/store.go:178-200 | A job ended by report whose invoke is still open or accepted, and spared, is revived if and only if every terminal report is evicted |
| `Trimming.RevivedByTrim` | internal/messages/store.go:178-200 | Where beside an open invoke of a stamped token the trim leaves only reports of progress, the job runs after it, whatever it was before |
| `Trimming.TakenForOver` | internal/messages/store.go:178-200 | Where of a token only answered reports are left, its job is over after the trim, whatever it was before |
| `JobLog.OpenedLog` | internal/messages/store.go:97-111 | An opening whose trim evicts no live job's originator and revives no ended job changes the derived jobs only as the opening does, and otherwise forgets ended ones |
| `JobLog.HopMovesNothingIff` | internal/broker/broker.go:200-205 | In a store as runs keep it, a hop moves no derived job if and only if an originator or a terminal report of its token is on file |
| `JobLog.TrimForgets` | internal/messages/store.go:173-202 | A sparing trim only forgets ended jobs |
| `JobLog.ResponseFiled` | internal/messages/store.go:115-125 | Filing a response ends the job it originates iff it answers it, and moves no other |
| `ModuleGraph.GateSafeIffHandlersReserved` | internal/broker/broker.go:184-194 | The requires-gate confines every hop to the caller's footprint if and only if every in-process handler of a required capability lies in the requirer's footprint |
| `ModuleGraph.RoutableIff` | internal/module/route.go:27-50 | A module has a handler or is the declarer of a capability without one if and only if, in some lifecycle states, a request is routed to it |
| `ModuleGraph.ModeOfFirst` | internal/module/route.go:70-83 | A capability's mode is that of its first entry in the manifest, and synchronous without one |
| `ModuleGraph.HopStaysInside` | internal/broker/broker.go:189-194 | An admitted hop from inside a footprint lands inside it |
| `ModuleGraph.DeclaredHandlersAreReserved` | internal/module/route.go:27-50 | Handlers that serve only declared capabilities meet that condition |
| `ModuleGraph.UndeclaredHandlerEscapes` | internal/module/route.go:29-38 | A handler outside every manifest escapes the footprint |
| `Walks.AmbiguousProviderEscapes` | internal/module/requirements.go:79-91 | With two providers of one capability a walk may follow one while the gate admits a hop to the other |
| `Walks.EveryWalkConfinesIff` | internal/module/requirements.go:79-91 | However the lookups of a walk choose among several providers, every admitted hop from inside a walk stays inside, if and only if no module that may hop to another is in the set that settles once modules without a provider left, the target first, have dropped out |
| `Walks.SettledIsGreatest` | internal/module/requirements.go:149-162 | That set is the greatest in which every module finds a provider of each provided requirement |
| `Walks.UniqueConfines` | internal/module/requirements.go:79-91 | One provider for each capability and declared handlers are enough |
| `Walks.WalkIsFootprint` | internal/module/requirements.go:142-162 | And then every walk collects the footprint |
| `ModuleGraph.FootprintTransitive` | internal/module/requirements.go:129-147 | A footprint contains its root and the whole footprint of each member |
| `ModuleGraph.FootprintSteps` | internal/module/requirements.go:149-162 | A footprint has its root, with each member every declarer of what that requires, and nothing that no member requires |
| `ModuleGraph.FootprintStateAgnostic` | internal/module/requirements.go:129-147 | Lifecycle states do not enter a footprint |
| `ModuleGraph.ReachSet` | internal/module/requirements.go:142-162 | The closure holds exactly what a path of requires-to-provider edges reaches |
| `ModuleGraph.ReachSetLeast` | internal/module/requirements.go:142-162 | It is the least closed set with its root |
| `ModuleStore.FindProvider` | internal/module/requirements.go:79-91 | Returns a module that declares the capability, and none only if none does |
| `ModuleStore.CollectFootprint` | internal/module/requirements.go:149-162 | The recursion over a shared set adds only what is reached, leaves no dependency out, cyclic or not, and terminates |
| `ModuleStore.Store.Footprint` | internal/module/requirements.go:142-147 | Returns exactly the modules reachable from the target, itself included |
| `ModuleStore.CollectInactive` | internal/module/requirements.go:109-127 | The recursion appends each newly reached ready provider once, after its own providers where the graph has no cycle |
| `ModuleStore.Store.RequiredInactiveProviders` | internal/module/requirements.go:101-107 | A duplicate-free list of exactly the ready modules reached through ready providers, without the target, each required by the target or a listed module; every provider precedes its requirer if and only if that graph is acyclic |
| `ModuleStore.OrderedIsAcyclic` | internal/module/requirements.go:93-100 | Only an acyclic graph has an activation order |
| `ModuleStore.Store.ReadySurface` | internal/module/requirements.go:59-70 | Exactly the capabilities declared by modules that are neither unavailable nor missing |
| `ModuleStore.Store.EvaluateRequirements` | internal/module/requirements.go:176-222 | Both phases end in the verdict: the survivors are the greatest set of phase-one survivors that is active or can live off itself, and a module turns unavailable if and only if it was judged and fails its resources or requires what none left offers |
| `ModuleStore.Store.SystemRequirements` | internal/module/requirements.go:184-189 | Phase one turns unavailable exactly the modules with a manifest, neither active nor unavailable, whose system resources fail |
| `ModuleStore.Store.CapabilityPass` | internal/module/requirements.go:193-217 | One pass rejects exactly the judged modules that miss a capability, and reports whether any did |
| `ModuleStore.Store.Meets` | internal/module/requirements.go:199-215 | True iff the surface has every capability required |
| `Requirements.VerdictUnique` | internal/module/requirements.go:191-221 | There is one verdict, so map iteration order cannot change it |
| `Requirements.PassShrinks` | internal/module/requirements.go:191-221 | A pass that changes anything shrinks the available set, which bounds the loop |
| `Requirements.FixpointIsVerdict` | internal/module/requirements.go:191-221 | Where a pass changes nothing the verdict is reached |
| `Requirements.VerdictStates` | internal/module/requirements.go:176-222 | The state each module ends in, read off the verdict: unavailable iff it was, or it was judged and fails its resources or finds some requirement unoffered |
| `ModuleStore.Store.Resolve` | internal/module/route.go:27-50 | A handler wins, then an active declarer; none is found only if there is neither; the mode is the manifest's |
| `ModuleStore.Store.Allows` | internal/module/route.go:85-96 | True iff the module declares that it requires the capability |
| `Wire.OneSendEach` | internal/wire/wire.go:122-149 | Over every interleaving a channel gets at most one send, onto a free slot; an answer has the id asked for, a break the wire's own error |
| `Wire.BrokenForGood` | internal/wire/wire.go:136-149 | Once the wire is broken its first error stays, nobody is pending again, and every live call has its message in its slot or on the way |
| `Wire.WaiterProceeds` | internal/wire/call.go:46-57 | A call that waits is pending on an open wire, or one send and one receive from returning |
| `Wire.RegisterStrandsIff` | internal/wire/call.go:30-37 | A call entering an open wire strands another exactly when it brings an id already pending |
| `Wire.InvKept` | internal/wire/call.go:22-57 | Every step of every interleaving keeps the invariant |
| `Wire.Mux.Register` | internal/wire/call.go:30-37 | The locked entry: refused iff the wire is broken, else pending under a fresh empty channel |
| `Wire.Mux.Withdraw` | internal/wire/call.go:39-44 | The locked exit after a failed write or an elapsed deadline |
| `Wire.Mux.Claim` | internal/wire/wire.go:125-130 | The locked part of a delivery: the waiter leaves the table and its channel, still empty, is handed out |
| `Wire.Mux.Break` | internal/wire/wire.go:139-145 | The locked part of a failure: the error is set unless one is, and the whole table handed over |
| `Wire.Mux.Deliver` | internal/wire/wire.go:124-134 | The response goes to the one call waiting for its id, claimed under the lock and sent to after it; no other channel is touched |
| `Wire.Mux.Fail` | internal/wire/wire.go:138-149 | The first error sticks, the table empties, and every call that waited then gets the sentinel |
| `Wire.Mux.Result` | internal/wire/call.go:61-72 | A response is returned as it is, a sentinel as the sticky error |
| `Correlation.LoadEndsTheSame` | internal/repl/orchestrator.go:208-254 | Whatever the interleaving with other traffic, once the load is accepted the mod shows what the token's last update says, its cells were requested exactly once iff that was a clean survey, nothing of the token is parked, and it is known iff not ended; where the end was crowded out, as if it had never come |
| `Correlation.LoadShows` | internal/repl/orchestrator.go:259-272 | Over every such run whose end is not crowded out, by the token's last update: after done the page shows that survey with no error, after failed its old rows with the reported error or else "job failed", and neither is loading; after any other it still loads, unchanged |
| `Correlation.LoadRequests` | internal/repl/orchestrator.go:282-328 | And it then requests one fill for each distinct column source, in order, iff it ended and shows rows and no error |
| `Correlation.ReplayShows` | internal/repl/orchestrator.go:244-272 | After a replay of parked updates the last end decides the spinner and the error, and a last survey the rows |
| `Correlation.ReplayRows` | internal/repl/orchestrator.go:244-272 | The rows are those of the last survey replayed, which no failure takes away |
| `Correlation.ReplayKeeps` | internal/repl/orchestrator.go:244-272 | A replay without a survey leaves the rows, and one without an end the whole page |
| `Correlation.CellReplayShows` | internal/repl/orchestrator.go:372-394 | A column shows what the last end replayed to it says: its cells after done, an error after failed |
| `Correlation.CellReplayKeeps` | internal/repl/orchestrator.go:372-394 | A replay to one column leaves all else, and without an end that column too |
| `Correlation.RegisterTells` | internal/repl/orchestrator.go:244-253 | Registering makes a token known iff no end waited for it, and unparks that token alone |
| `Correlation.RegisterCellTells` | internal/repl/orchestrator.go:372-381 | So does registering a cell target |
| `Correlation.ArrivalOrderIsImmaterial` | internal/repl/orchestrator.go:208-254 | Two runs that push the same updates on the token, and crowd its end out in neither, end alike, however the updates fall before and after the accept |
| `Correlation.EverySplitAgrees` | internal/repl/orchestrator.go:241-253 | Every split of the updates before and after the accept gives the same mod, correlation and requests |
| `Correlation.EvictedIff` | internal/repl/orchestrator.go:413-425 | A parked token is pushed out exactly when it is the oldest at the cap and an unclaimed new token arrives |
| `Correlation.CrowdedOutIff` | internal/repl/orchestrator.go:413-425 | Over a run: an event pushes a parked token out exactly when with it the tokens newly parked since and not yet claimed reach the cap |
| `Correlation.SurvivesWhileFew` | internal/repl/orchestrator.go:413-425 | So a parked token stays parked throughout iff these stay below the cap throughout |
| `Correlation.StopsLoadingIff` | internal/repl/orchestrator.go:208-254 | An accepted mod whose token has ended stops loading if and only if, from its end to its accept, the newcomers stayed below the cap |
| `Correlation.EvictedTerminalIsLost` | internal/repl/orchestrator.go:413-425 | A mod whose terminal update was pushed out before the accept goes on loading |
| `Correlation.DeskKept` | internal/repl/orchestrator.go:400-436 | Every operation keeps the parking order equal to the parked tokens, within the cap, and no known token parked |
| `Correlation.FromsExact` | internal/repl/orchestrator.go:299-307 | The capabilities requested are exactly the distinct non-empty column sources, each once |
| `Correlation.FromsInOrder` | internal/repl/orchestrator.go:299-307 | They come in the order of their first columns |
| `Correlator.Orchestrator.Park` | internal/repl/orchestrator.go:415-425 | The in-place park, its eviction loop included |
| `Correlator.Orchestrator.Unpark` | internal/repl/orchestrator.go:428-436 | The token's updates and its place in the order go |
| `Correlator.Orchestrator.Register` | internal/repl/orchestrator.go:244-253 | The token becomes known unless a parked update ended it, and the parked updates are replayed in arrival order |
| `Correlator.Orchestrator.AcceptLoad` | internal/repl/orchestrator.go:208-212 | Registration followed by the cell requests of a clean survey |
| `Correlator.Orchestrator.ApplyLoad` | internal/repl/orchestrator.go:213-215 | An inline result is projected and its cells requested |
| `Correlator.Orchestrator.Ingest` | internal/repl/orchestrator.go:221-239 | A known token's mod is painted and the token forgotten iff that was its end, a cell target likewise, else the update is parked; no other mod changes |
| `Correlator.Orchestrator.AfterSurvey` | internal/repl/orchestrator.go:282-328 | A clean survey with rows marks its source columns pending and fires one request each, any other nothing |
| `Correlator.Orchestrator.RegisterCell` | internal/repl/orchestrator.go:372-381 | The cell peer of registration |
| `Correlator.Orchestrator.BeginLoad` | internal/repl/orchestrator.go:108-115 | The mod's correlations are dropped; its page is loading, without rows or cells, and keeps the error shown |
| `Correlator.Orchestrator.Forget` | internal/repl/orchestrator.go:400-411 | Exactly the mod's survey and cell tokens go |
| `Correlator.Mod.Apply` | internal/repl/orchestrator.go:259-272 | Done shows the survey with no error and no cells; failed the reported error, or "job failed", over the old rows and cells; any other update changes nothing |
| `Correlator.Mod.FromColumns` | internal/repl/orchestrator.go:299-307 | The loop returns the distinct column sources in order |
| `Correlator.Orchestrator.ApplyCellLoad` | internal/repl/orchestrator.go:357-367 | Rows fill the one column, an error marks it; all else on the page stays |
| `Correlator.Mod.Project` | internal/repl/orchestrator.go:445-457 | A load error leaves the rows, a survey replaces them and clears the error |
| `Correlator.Mod.ApplyCell` | internal/repl/orchestrator.go:387-394 | Done fills the one column, failed marks it, any other update changes nothing; all else on the page stays |
| `Correlator.Mod.MarkPending` | internal/repl/orchestrator.go:311-322 | Exactly the source columns turn pending |
| `Health.Monitor.Check` | internal/health/health.go:118-158 | Each check moves the counter and flag and says which callback starts |
| `Health.SignalExact` | internal/health/health.go:130-157 | The failure callback fires exactly at the checks that bring the streak to a multiple of the threshold, the recovery callback exactly at the first good check after a streak that reached it |
| `Health.FiresCountFullStreaks` | internal/health/health.go:130-146 | Over any checks the failure callbacks number the sum over maximal failed runs of length divided by threshold, rounded down |
| `Health.RecoverAnswersFail` | internal/health/health.go:148-157 | Each recovery answers a failure callback that no other recovery has answered |
| `Health.WatchIsStreak` | internal/health/health.go:118-158 | The counter is the streak modulo the threshold; the flag says whether the streak reached it |
| `Lifecycle.FailedIffStreak` | internal/startup/lifecycle.go:71-128 | A module, supervised or not, is failed if and only if some streak of failed checks reached (budget + 1) times the threshold; until then a supervised one asked for one restart per full threshold of each streak, any other for none |
| `Lifecycle.UnbrokenRun` | internal/startup/lifecycle.go:71-128 | An unbroken run brings exactly the budget's restarts, none without a supervisor, and either way the failed state exactly at check (budget + 1) times threshold |
| `Lifecycle.Coordinator.OnHealthFail` | internal/startup/lifecycle.go:71-104 | From any state but active nothing changes; within the budget one attempt is counted, and one restart iff the module has a supervisor; past it the module is torn down and failed; other modules' counters stay |
| `Lifecycle.Coordinator.OnHealthRecover` | internal/startup/lifecycle.go:108-115 | The module's attempts are forgotten |
| `Lifecycle.Coordinator.FailHealth` | internal/startup/lifecycle.go:121-128 | Teardown, counter included, then the failed state |
| `Lifecycle.Coordinator.Teardown` | internal/startup/lifecycle.go:139-142 | No monitor, no process, no attempts left; the state for the caller to decide |
| `Lifecycle.Coordinator.Deregister` | internal/startup/lifecycle.go:150-157 | The module leaves the active state; its process stays |
| `Lifecycle.Coordinator.StopProcess` | internal/startup/lifecycle.go:162-176 | The process and the module's attempts go |
| `Health.Monitor.constructor` | internal/health/health.go:64-81 | A threshold that is not positive falls back to three |
| `Supervisor.Supervisor.constructor` | internal/supervisor/supervisor.go:100-112 | Settings that are not positive fall back to three restarts and one minute |
| `Supervisor.Supervisor.Stop` | internal/supervisor/supervisor.go:191-206 | The transition of the run theorems: relaunching ends, unless the process was never started |
| `Supervisor.Supervisor.Start` | internal/supervisor/supervisor.go:334-340 | The first launch is the transition every run starts from; one that fails leaves the supervisor idle |
| `Supervisor.GuardExact` | internal/supervisor/supervisor.go:391-410 | Over any history the guard trips at a crash exactly when the window that ends there holds more crashes than allowed |
| `Supervisor.CrashesExact` | internal/supervisor/supervisor.go:344-410 | Over any history, read off its events alone: the crashes counted are exactly the exits before any stop for which no restart was due, that is, asked for since the exit before |
| `Supervisor.IntentIsDue` | internal/supervisor/supervisor.go:178-186 | Until a stop a running supervisor takes the next exit for wanted if and only if a restart is due |
| `Supervisor.WantedExit` | internal/supervisor/supervisor.go:368-384 | An exit with a restart due counts nowhere; the supervisor runs on iff the launch succeeds, else it is failed |
| `Supervisor.UnwantedExit` | internal/supervisor/supervisor.go:386-422 | Any other exit before a stop is counted, and fails the supervisor iff its window is overfull or the launch fails |
| `Supervisor.RestartServesOnce` | internal/supervisor/supervisor.go:368-384 | One restart excuses one exit: of two exits with no restart asked for in between the second is a crash |
| `Supervisor.NoWindowOverfull` | internal/supervisor/supervisor.go:391-410 | No window, wherever it lies, holds more crash relaunches than allowed |
| `Supervisor.ListIsWindow` | internal/supervisor/supervisor.go:391-400 | The filtered list and the whole crash history agree on the current window at any later time |
| `Supervisor.StopLasts` | internal/supervisor/supervisor.go:344-366 | From a stop on nothing is relaunched or counted; a running process is left alone until it exits, and then the supervisor is stopped for good |
| `Supervisor.Supervisor.Exit` | internal/supervisor/supervisor.go:344-422 | One turn of the monitor is the transition of the run theorems: stopped; a wanted exit relaunched off the record; or a crash counted last in the list, relaunched iff that is within bounds and the launch succeeds |
| `Supervisor.Supervisor.Filter` | internal/supervisor/supervisor.go:394-400 | The in-place filter leaves exactly the times after the cutoff, in order |
| `Supervisor.Supervisor.Restart` | internal/supervisor/supervisor.go:178-186 | The next exit is marked as wanted iff the process runs, and nothing else changes |
| `Registration.RoundTripIff` | modules/suctl-mod-os/svc.go:45-70 | For a newline-free name, parsing gives back what was printed if and only if there are no operations, or each is non-empty, trimmed and free of commas and newlines and both lines fit the scanner |
| `Registration.ParsedClean` | modules/suctl-mod-os/svc.go:49-70 | Whatever the data, every parsed operation is non-empty, trimmed and free of commas and newlines |
| `Registration.TextTells` | modules/suctl-mod-os/svc.go:49-70 | The lines of a file add up one after the other, until one is too long |
| `Registration.LineTells` | modules/suctl-mod-os/svc.go:53-66 | A line that is no comment or header lists operations only if the text before its first equals sign trims to the one key, and then those of its comma-separated list |
| `Registration.KeylessTells` | modules/suctl-mod-os/svc.go:57-60 | A line without an equals sign lists none |
| `Registration.ParseRegistration` | modules/suctl-mod-os/svc.go:49-70 | The scan loop returns the operations of all lines up to one too long |
| `Registration.Allows` | modules/suctl-mod-os/svc.go:24-31 | True iff the operation is listed |

## Left out

- Process spawning, signals, socketpairs, file and D-Bus calls, hooks and their order: their outcomes are inputs or arbitrary steps.
- JSON: envelopes are datatypes, and a payload carries what decoding it yields; a number or a name that fails to decode is its zero value.
- Error messages, reasons and warnings: an error response carries its code.
- Real clocks and condition variables: waiting is a step of its own that may time out at any moment, and wakeups are not counted.
- Each job is derived in one step; the source reads its records first and its stamp right after, each under the store's mutex.
- job_status, the Jobs listing for display and Lookup: read-only projections of what JobFor and List return.
- The Windows and Unix transport, the mint of an id for an id-less request, and inbound dispatch on the wire's own goroutines.
- MessageStore.Sorted: jobs enqueued at the same instant may come in any order; in a run no two are.
- ModuleStore.Store.SystemRequirements: the binary, path, socket and platform probes are one arbitrary predicate per module.
- PendingSurface, the configuration requirements and the display checklist of requirements.go: the same searches over another set of modules.
- Correlator.Mod.Apply: a survey is its rows and an opaque rest, and a cell is kept once per column source, not once per row.
- Correlation.LoadEndsTheSame: speaks of the survey part of the page; fills that arrive for the mod's cells meanwhile change only its cells.
- Health.Monitor.Check: the callbacks are reported as signals; Lifecycle assumes they run in order, though the source starts each on its own goroutine.
- Lifecycle.Coordinator.OnHealthFail: the hooks fired and the warning shown.
- Supervisor.Supervisor.Exit: whether a launch succeeds is an input, and a Stop that races a relaunch is a Stop before the next exit.
- Registration.RoundTripIff: text is a sequence of characters, whose lengths in UTF-8 count towards the scanner's limit; invalid UTF-8 is not modelled.
