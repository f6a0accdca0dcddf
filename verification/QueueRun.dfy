/**
 Whole runs of the queue manager over the real messages store.  A world holds the
 record log, the calls, hops and reports in flight, and the admission mutex; jobs
 are never held, only derived from the log.  Every step of a world is shown to be a
 step of the lock protocol over the derived view, which carries the protocol's
 guarantees over to every run.
 */
module QueueRun {
  import opened Wrappers
  import opened ModuleGraph
  import opened Messages
  import opened Jobs
  import opened Trimming
  import opened MessageStore
  import opened Queue
  import opened JobLog
  import P = Protocol

  datatype World = World(rows: Rows, log: Log, calls: map<string, P.Call>, hops: set<string>,
                         notes: map<string, P.Note>, lock: P.Lock, exec: map<string, P.Execution>,
                         ids: set<string>, tokens: set<string>, clock: Time, now: Time)

  datatype Step =
    | InvokeIn(id: string, token: string, cap: string, target: string, async: bool)
    | Scan(actor: string, tokens: seq<string>)
    | Look
    | Order(queue: seq<Waiting>, tokens: seq<string>)
    | Choosing
    | StartNext
    | Release
    | Check(id: string)
    | Respond(id: string, resp: Response)
    | HopIn(id: string, token: string, caller: string, cap: string, target: string)
    | HopOut(id: string, resp: Response)
    | ReportIn(id: string, token: string, caller: string, report: Report)
    | ReportOut(id: string, resp: Response)
    | SetState(name: string, state: State)

  function Initial(rows: Rows): World {
    World(rows, EMPTY_LOG, map[], {}, map[], P.Free, map[], {}, {}, 0, 0)
  }

  /** What the protocol sees of a world whose log derives these jobs. */
  function AbsAs(w: World, jobs: map<string, Stage>): P.Sys {
    P.Sys(w.rows, jobs, w.calls, w.notes, w.lock, w.exec, w.clock)
  }

  function Abs(w: World): P.Sys {
    AbsAs(w, View(w.log))
  }

  // ------------------------------------------------------------ the steps

  function InvokeRecord(id: string, token: string, cap: string, target: string, caller: string, now: Time): Record {
    NewRecord(Request(id, "invoke", token, Name(cap)), target, cap, caller, now)
  }

  function ReportRecord(id: string, token: string, caller: string, report: Report, now: Time): Record {
    NewRecord(Request(id, "job_update", token, Update(report)), caller, "", caller, now)
  }

  /** The async contract: an ok that is no acceptance becomes an error. */
  function Contract(async: bool, resp: Response): Response {
    if async && resp.status == "ok" && !resp.result.accepted
    then Failure(resp.id, CALLABLE_FAILED)
    else resp
  }

  function Final(c: P.Call, id: string, resp: Response): Response {
    if c.phase == P.Expired then Failure(id, INTERNAL_ERROR) else Contract(c.async, resp).(id := id)
  }

  ghost function BusyWith(rows: Rows, running: seq<Job>): set<string> {
    if running == [] then {}
    else BusyWith(rows, running[..|running| - 1]) + FootprintOf(rows, running[|running| - 1].target)
  }

  // Each step: when it may be taken, and the world it leaves.

  /** An originating invoke passes the broker's checks and is opened. */
  ghost predicate CanInvokeIn(w: World, id: string, token: string, cap: string, target: string, async: bool) {
    && id !in w.ids && token != "" && token !in w.tokens
    && Routes(w.rows, cap, target, async)
    && TrimSpares(Added(w.log, InvokeRecord(id, token, cap, target, "", w.now + 1)))
  }

  function InvokedIn(w: World, id: string, token: string, cap: string, target: string, async: bool): World {
    WithCall(w, Opened(w.log, InvokeRecord(id, token, cap, target, "", w.now + 1), MAX_RECORDS),
             id, token, target, async)
  }

  function WithCall(w: World, log: Log, id: string, token: string, target: string, async: bool): World {
    w.(log := log, calls := w.calls[id := P.Call(token, target, async, P.Entered)],
       ids := w.ids + {id}, tokens := w.tokens + {token}, clock := w.now + 1, now := w.now + 1)
  }

  /** The tokens of the log, each once. */
  ghost predicate ListsTokens(log: Log, tokens: seq<string>) {
    P.Distinct(tokens) && forall t :: t in tokens <==> t in LiveTokens(log.records)
  }

  /** Someone who owes an advance takes the mutex and lists the tokens. */
  ghost predicate CanScan(w: World, actor: string, tokens: seq<string>) {
    w.lock.Free? && P.MayAdvance(Abs(w), actor) && ListsTokens(w.log, tokens)
  }

  function ScannedBy(w: World, actor: string, tokens: seq<string>): World {
    w.(lock := P.Scanning(actor, tokens, []), now := w.now + 1)
  }

  /** It derives the next token's job, from the log as that is by now: a scan keeps it if
      it is queued, a count its footprint if it runs. */
  predicate CanLook(w: World) {
    P.Todo(w.lock) != []
  }

  ghost function LookedAt(w: World): World
    requires CanLook(w)
  {
    w.(lock := LockAfter(w, JobOf(w.log, P.Todo(w.lock)[0])), now := w.now + 1)
  }

  ghost function LockAfter(w: World, job: Option<Job>): P.Lock
    requires CanLook(w)
  {
    var left := P.Todo(w.lock)[1..];
    if w.lock.Scanning? then
      P.Scanning(w.lock.holder, left,
                 if job.Some? && job.value.state == "queued" then w.lock.queue + AsWaiting([job.value])
                 else w.lock.queue)
    else
      P.Counting(w.lock.holder, left, w.lock.queue,
                 if job.Some? && job.value.state == "running"
                 then w.lock.busy + FootprintOf(w.rows, job.value.target) else w.lock.busy)
  }

  /** It sorts what it has found by enqueue time, and lists the tokens afresh. */
  ghost predicate CanOrder(w: World, queue: seq<Waiting>, tokens: seq<string>) {
    && w.lock.Scanning? && w.lock.todo == []
    && multiset(queue) == multiset(w.lock.queue) && P.ByAge(queue) && ListsTokens(w.log, tokens)
  }

  function Ordered(w: World, queue: seq<Waiting>, tokens: seq<string>): World
    requires w.lock.Scanning?
  {
    w.(lock := P.Counting(w.lock.holder, tokens, queue, {}), now := w.now + 1)
  }

  /** It chooses. */
  predicate CanChoose(w: World) {
    w.lock.Counting? && w.lock.todo == []
  }

  ghost function Chosen(w: World): World
    requires CanChoose(w)
  {
    w.(lock := P.Starting(w.lock.holder, Plan(w.rows, w.lock.queue, w.lock.busy)), now := w.now + 1)
  }

  /** It stamps the next job of the plan. */
  predicate CanStartNext(w: World) {
    w.lock.Starting? && w.lock.plan != []
  }

  function NextStarted(w: World): World
    requires CanStartNext(w)
  {
    WithStart(w, Started(w.log, w.lock.plan[0].token, w.now + 1))
  }

  function WithStart(w: World, log: Log): World
    requires CanStartNext(w)
  {
    w.(log := log, lock := P.Starting(w.lock.holder, w.lock.plan[1..]), now := w.now + 1)
  }

  /** The plan is done: the mutex is released, and its holder moves on. */
  predicate CanRelease(w: World) {
    w.lock.Starting? && w.lock.plan == []
  }

  function Released(w: World): World
    requires CanRelease(w)
  {
    var s := P.Leave(Abs(w), w.lock.holder);
    w.(calls := s.calls, notes := s.notes, lock := P.Free, now := w.now + 1)
  }

  /** A parked caller finds its stamp and routes, or finds none and times out. */
  predicate CanCheck(w: World, id: string) {
    w.lock.Free? && id in w.calls && w.calls[id].phase == P.Parked
  }

  function Checked(w: World, id: string): World
    requires CanCheck(w, id)
  {
    var c := w.calls[id];
    if c.token in w.log.started then
      w.(calls := w.calls[id := c.(phase := P.Routing)],
         exec := w.exec[c.token := P.Execution(c.target, {c.target})], now := w.now + 1)
    else w.(calls := w.calls[id := c.(phase := P.Expired)], now := w.now + 1)
  }

  /** The terminal response, or the acceptance, of an originating invoke is filed. */
  predicate CanRespond(w: World, id: string) {
    id in w.calls && (w.calls[id].phase == P.Routing || w.calls[id].phase == P.Expired)
  }

  function Responded(w: World, id: string, resp: Response): World
    requires CanRespond(w, id)
  {
    WithResponse(w, Completed(w.log, id, Final(w.calls[id], id, resp), w.now + 1), id)
  }

  function WithResponse(w: World, log: Log, id: string): World
    requires CanRespond(w, id)
  {
    w.(log := log, calls := w.calls[id := w.calls[id].(phase := P.Finishing)], now := w.now + 1)
  }

  /** A module that a routed job was called into calls across, and the gate lets it.  The
      job may have ended; but of its token something that holds its place is on file. */
  ghost predicate CanHopIn(w: World, id: string, token: string, caller: string, cap: string, target: string) {
    && id !in w.ids && caller != ""
    && token in w.exec && caller in w.exec[token].modules
    && HopAdmitted(w.rows, caller, cap, target)
    && KeepsItsJob(ByToken(w.log, token))
    && TrimSpares(Added(w.log, InvokeRecord(id, token, cap, target, caller, w.now + 1)))
  }

  function HoppedIn(w: World, id: string, token: string, caller: string, cap: string, target: string): World
    requires token in w.exec
  {
    WithHop(w, Opened(w.log, InvokeRecord(id, token, cap, target, caller, w.now + 1), MAX_RECORDS), id, token, target)
  }

  function WithHop(w: World, log: Log, id: string, token: string, target: string): World
    requires token in w.exec
  {
    w.(log := log, hops := w.hops + {id}, ids := w.ids + {id},
       exec := w.exec[token := P.Joined(w.exec[token], target)], now := w.now + 1)
  }

  function HoppedOut(w: World, id: string, resp: Response): World {
    WithoutHop(w, Completed(w.log, id, resp, w.now + 1), id)
  }

  function WithoutHop(w: World, log: Log, id: string): World {
    w.(log := log, hops := w.hops - {id}, now := w.now + 1)
  }

  /** A report on a known token arrives; it takes back no terminal state. */
  ghost predicate CanReportIn(w: World, id: string, token: string, caller: string, report: Report) {
    && id !in w.ids && token != "" && ByToken(w.log, token) != []
    && (report.state == "" || IsTerminal(report.state) || !IsTerminal(Reported(ByToken(w.log, token))))
    && TrimSpares(Added(w.log, ReportRecord(id, token, caller, report, w.now + 1)))
  }

  function ReportedIn(w: World, id: string, token: string, caller: string, report: Report): World {
    WithNote(w, Opened(w.log, ReportRecord(id, token, caller, report, w.now + 1), MAX_RECORDS), id, token,
             IsTerminal(report.state))
  }

  function WithNote(w: World, log: Log, id: string, token: string, ends: bool): World {
    w.(log := log, notes := w.notes[id := P.Note(token, ends, false)], ids := w.ids + {id}, now := w.now + 1)
  }

  predicate CanReportOut(w: World, id: string) {
    id in w.notes && !w.notes[id].answered
  }

  function ReportedOut(w: World, id: string, resp: Response): World
    requires CanReportOut(w, id)
  {
    WithAnswer(w, Completed(w.log, id, resp, w.now + 1), id)
  }

  function WithAnswer(w: World, log: Log, id: string): World
    requires CanReportOut(w, id)
  {
    w.(log := log, now := w.now + 1,
       notes := if w.notes[id].ends then w.notes[id := w.notes[id].(answered := true)] else w.notes - {id})
  }

  function StateSet(w: World, name: string, state: State): World
    requires name in w.rows
  {
    w.(rows := w.rows[name := w.rows[name].(state := state)], now := w.now + 1)
  }

  ghost predicate Enabled(w: World, e: Step) {
    match e
    case InvokeIn(id, token, cap, target, async) => CanInvokeIn(w, id, token, cap, target, async)
    case Scan(actor, tokens) => CanScan(w, actor, tokens)
    case Look => CanLook(w)
    case Order(queue, tokens) => CanOrder(w, queue, tokens)
    case Choosing => CanChoose(w)
    case StartNext => CanStartNext(w)
    case Release => CanRelease(w)
    case Check(id) => CanCheck(w, id)
    case Respond(id, resp) => CanRespond(w, id)
    case HopIn(id, token, caller, cap, target) => CanHopIn(w, id, token, caller, cap, target)
    case HopOut(id, resp) => id in w.hops
    case ReportIn(id, token, caller, report) => CanReportIn(w, id, token, caller, report)
    case ReportOut(id, resp) => CanReportOut(w, id)
    case SetState(name, state) => name in w.rows
  }

  ghost function Apply(w: World, e: Step): World
    requires Enabled(w, e)
  {
    match e
    case InvokeIn(id, token, cap, target, async) => InvokedIn(w, id, token, cap, target, async)
    case Scan(actor, tokens) => ScannedBy(w, actor, tokens)
    case Look => LookedAt(w)
    case Order(queue, tokens) => Ordered(w, queue, tokens)
    case Choosing => Chosen(w)
    case StartNext => NextStarted(w)
    case Release => Released(w)
    case Check(id) => Checked(w, id)
    case Respond(id, resp) => Responded(w, id, resp)
    case HopIn(id, token, caller, cap, target) => HoppedIn(w, id, token, caller, cap, target)
    case HopOut(id, resp) => HoppedOut(w, id, resp)
    case ReportIn(id, token, caller, report) => ReportedIn(w, id, token, caller, report)
    case ReportOut(id, resp) => ReportedOut(w, id, resp)
    case SetState(name, state) => StateSet(w, name, state)
  }

  // ----------------------------------------------- the refinement mapping

  /** The protocol step that a step of the world takes; filing a hop's response takes none. */
  function EventOf(w: World, e: Step): Option<P.Event>
    requires e.Check? || e.Respond? ==> e.id in w.calls
  {
    match e
    case InvokeIn(id, token, cap, target, async) => Some(P.Enter(id, token, target, async, w.now + 1))
    case Scan(actor, tokens) => Some(P.Scan(actor, tokens))
    case Look => Some(P.Look)
    case Order(queue, tokens) => Some(P.Order(queue, tokens))
    case Choosing => Some(P.Choosing)
    case StartNext => Some(P.StartNext)
    case Release => Some(P.Release)
    case Check(id) => Some(if w.calls[id].token in w.log.started then P.Wake(id) else P.Expire(id))
    case Respond(id, resp) => Some(P.Respond(id, Answers(Final(w.calls[id], id, resp))))
    case HopIn(_, token, caller, cap, target) => Some(P.Hop(token, caller, cap, target))
    case HopOut(_, _) => None
    case ReportIn(id, token, _, report) => Some(P.Tell(id, token, IsTerminal(report.state)))
    case ReportOut(id, _) => Some(P.Told(id))
    case SetState(name, state) => Some(P.SetState(name, state))
  }

  /** From `s` the protocol gets to `t` by `e`, forgetting ended jobs on the way. */
  ghost predicate Follows(s: P.Sys, e: P.Event, t: P.Sys) {
    P.Enabled(s, e) && t == P.Apply(s, e).(jobs := t.jobs) && Lost(P.Apply(s, e).jobs, t.jobs)
  }

  ghost predicate Refined(s: P.Sys, e: Option<P.Event>, t: P.Sys) {
    if e.Some? then Follows(s, e.value, t) else t == s
  }

  lemma RefinedKeeps(s: P.Sys, e: Option<P.Event>, t: P.Sys)
    requires P.Inv(s) && Refined(s, e, t)
    ensures P.Inv(t)
  {
    if e.Some? {
      P.InvKept(s, e.value);
      var mid := P.Apply(s, e.value);
      var gone := Forgotten(mid, t);
      P.InvKept(mid, P.Forget(gone));
    }
  }

  /** What was lost on the way, the protocol forgot. */
  lemma Forgotten(s: P.Sys, t: P.Sys) returns (gone: set<string>)
    requires t == s.(jobs := t.jobs) && Lost(s.jobs, t.jobs)
    ensures P.Enabled(s, P.Forget(gone)) && t == P.Apply(s, P.Forget(gone))
  {
    gone := s.jobs.Keys - t.jobs.Keys;
    assert t.jobs == s.jobs - gone;
  }

  // ----------------------------------------------- what holds of a world

  /** Ids and tokens in use were recorded as used. */
  ghost predicate Accounted(w: World) {
    && w.log.Valid()
    && (forall id :: id in w.log.records ==>
          id in w.ids && w.log.records[id].request.jobToken in w.tokens && w.log.records[id].request.jobToken != "")
    && (forall t :: t in w.log.started ==> t in w.tokens)
    && (forall t :: t in w.exec ==> t in w.tokens)
    && (forall id :: id in w.calls ==> id in w.ids && w.calls[id].token in w.tokens)
    && (forall id :: id in w.notes ==> id in w.ids)
    && (forall x :: x in P.Listed(w.lock) ==> x.token in w.tokens)
    && (forall t :: t in P.Todo(w.lock) ==> t in w.tokens)
  }

  /** Every exchange in flight has its open record. */
  ghost predicate InFlight(w: World) {
    && (forall id :: id in w.calls && w.calls[id].phase != P.Finishing ==>
          && OpenIn(w.log, id) && Originates(w.log.records[id])
          && w.log.records[id].request.jobToken == w.calls[id].token)
    && (forall id :: id in w.hops ==>
          OpenIn(w.log, id) && w.log.records[id].caller != "" && w.log.records[id].request.cmd == "invoke")
    && (forall id :: id in w.notes && !w.notes[id].answered ==>
          OpenIn(w.log, id) && w.log.records[id].request.cmd == "job_update")
  }

  /** What holds beside the protocol's own invariant. */
  ghost predicate Carried(w: World) {
    Accounted(w) && InFlight(w) && w.clock <= w.now
  }

  ghost predicate Inv(w: World) {
    P.Inv(Abs(w)) && Carried(w) && Rooting(w.log)
  }

  lemma InitialInv(rows: Rows)
    requires HandlersReserved(rows)
    ensures Inv(Initial(rows))
  {
    assert Abs(Initial(rows)) == P.Initial(rows);
    P.InitialInv(rows);
    EmptyRoots();
  }

  lemma EmptyRoots()
    ensures Rooting(EMPTY_LOG) && EMPTY_LOG.Valid()
  {
    forall t ensures !LiveAt(EMPTY_LOG, t) {
    }
  }

  // ------------------------------------------- every step keeps the invariant

  /** From `w` to `w'` the derived jobs take the protocol's step, or none, and may
      besides forget ended jobs. */
  ghost predicate Taken(w: World, event: Option<P.Event>, w': World) {
    Refined(Abs(w), event, Abs(w')) && Carried(w') && Rooting(w'.log)
  }

  ghost predicate Simulated(w: World, e: Step)
    requires Enabled(w, e)
  {
    Taken(w, EventOf(w, e), Apply(w, e))
  }

  // ---- opening an exchange

  /** A token never used has no job, no stamp, no record. */
  lemma FreshToken(w: World, token: string)
    requires Accounted(w) && token !in w.tokens
    ensures P.Unused(Abs(w), token) && token !in w.log.started
    ensures forall id :: id in w.log.records ==> w.log.records[id].request.jobToken != token
  {
    HasJob(w.log, token);
    ViewAt(w.log);
  }

  /** Opening a record leaves what is in flight in flight. */
  lemma OpeningFlows(w: World, w': World, r: Record)
    requires Accounted(w) && InFlight(w) && Grown(w.log, w'.log, r)
    requires r.request.id !in w.ids && w'.ids == w.ids + {r.request.id}
    requires w.tokens <= w'.tokens && r.request.jobToken in w'.tokens && r.request.jobToken != ""
    requires forall k :: k in w'.calls ==>
               || (k in w.calls && w'.calls[k] == w.calls[k])
               || (k == r.request.id && Originates(r) && w'.calls[k].token == r.request.jobToken)
    requires w'.hops == w.hops || (w'.hops == w.hops + {r.request.id} && r.caller != "" && r.request.cmd == "invoke")
    requires forall k :: k in w'.notes ==>
               (k in w.notes && w'.notes[k] == w.notes[k]) || (k == r.request.id && r.request.cmd == "job_update")
    requires w'.lock == w.lock && forall t :: t in w'.exec ==> t in w'.tokens
    ensures Accounted(w') && InFlight(w')
  {
  }

  lemma CallFollows(w: World, log: Log, jobs: map<string, Stage>, id: string, token: string,
                    target: string, async: bool)
    requires var e := P.Enter(id, token, target, async, w.now + 1);
             P.Enabled(Abs(w), e) && Lost(P.Apply(Abs(w), e).jobs, jobs)
    ensures Follows(Abs(w), P.Enter(id, token, target, async, w.now + 1),
                    AbsAs(WithCall(w, log, id, token, target, async), jobs))
  {
  }

  lemma CallFlows(w: World, log: Log, r: Record, async: bool)
    requires Carried(w) && Grown(w.log, log, r)
    requires r.request.id !in w.ids && Originates(r) && r.request.jobToken != ""
    ensures Carried(WithCall(w, log, r.request.id, r.request.jobToken, r.target, async))
  {
    OpeningFlows(w, WithCall(w, log, r.request.id, r.request.jobToken, r.target, async), r);
  }

  lemma CallTaken(w: World, log: Log, r: Record, async: bool)
    requires Carried(w) && Grown(w.log, log, r) && Rooting(log)
    requires r.request.id !in w.ids && Originates(r) && r.request.jobToken != "" && r.reqReceived == w.now + 1
    requires var e := P.Enter(r.request.id, r.request.jobToken, r.target, async, w.now + 1);
             P.Enabled(Abs(w), e) && Lost(P.Apply(Abs(w), e).jobs, View(log))
    ensures Taken(w, Some(P.Enter(r.request.id, r.request.jobToken, r.target, async, w.now + 1)),
                  WithCall(w, log, r.request.id, r.request.jobToken, r.target, async))
  {
    CallFollows(w, log, View(log), r.request.id, r.request.jobToken, r.target, async);
    CallFlows(w, log, r, async);
  }

  lemma InvokeTaken(w: World, id: string, token: string, cap: string, target: string, async: bool)
    requires Carried(w) && Rooting(w.log) && CanInvokeIn(w, id, token, cap, target, async)
    ensures Taken(w, Some(P.Enter(id, token, target, async, w.now + 1)), InvokedIn(w, id, token, cap, target, async))
  {
    var r := InvokeRecord(id, token, cap, target, "", w.now + 1);
    CallRecord(w, id, token, cap, target, async);
    FreshToken(w, token);
    RoutesRoutable(w.rows, cap, target, async);
    InvokeOpened(w.log, r);
    CallTaken(w, Opened(w.log, r, MAX_RECORDS), r, async);
  }

  lemma CallRecord(w: World, id: string, token: string, cap: string, target: string, async: bool)
    ensures var r := InvokeRecord(id, token, cap, target, "", w.now + 1);
            && r.request.id == id && r.request.jobToken == token && r.target == target && r.reqReceived == w.now + 1
            && Originates(r) && !r.Done()
            && InvokedIn(w, id, token, cap, target, async) ==
               WithCall(w, Opened(w.log, r, MAX_RECORDS), r.request.id, r.request.jobToken, r.target, async)
  {
  }

  lemma InvokeRefines(w: World, id: string, token: string, cap: string, target: string, async: bool)
    requires Carried(w) && Rooting(w.log) && CanInvokeIn(w, id, token, cap, target, async)
    ensures Simulated(w, InvokeIn(id, token, cap, target, async))
  {
    var e := InvokeIn(id, token, cap, target, async);
    assert Apply(w, e) == InvokedIn(w, id, token, cap, target, async)
           && EventOf(w, e) == Some(P.Enter(id, token, target, async, w.now + 1));
    InvokeTaken(w, id, token, cap, target, async);
  }

  lemma HopFollows(w: World, log: Log, jobs: map<string, Stage>, id: string, token: string, caller: string, cap: string,
                   target: string)
    requires P.Enabled(Abs(w), P.Hop(token, caller, cap, target)) && Lost(View(w.log), jobs)
    ensures Follows(Abs(w), P.Hop(token, caller, cap, target), AbsAs(WithHop(w, log, id, token, target), jobs))
  {
  }

  lemma HopFlows(w: World, log: Log, r: Record)
    requires Carried(w) && Grown(w.log, log, r)
    requires r.request.id !in w.ids && r.caller != "" && r.request.cmd == "invoke"
    requires r.request.jobToken in w.exec && r.request.jobToken != ""
    ensures Carried(WithHop(w, log, r.request.id, r.request.jobToken, r.target))
  {
    OpeningFlows(w, WithHop(w, log, r.request.id, r.request.jobToken, r.target), r);
  }

  lemma HopHasToken(w: World, token: string)
    requires Accounted(w) && ByToken(w.log, token) != []
    ensures token != ""
  {
    var recs := ByToken(w.log, token);
    assert recs[0] in recs;
    GroupMembers(w.log.order, w.log.records, token);
  }

  lemma LateHopTaken(w: World, log: Log, r: Record)
    requires Carried(w) && Grown(w.log, log, r) && Rooting(log) && Lost(View(w.log), View(log))
    requires r.request.id !in w.ids && r.request.cmd == "invoke" && r.request.jobToken != ""
    requires r.caller != "" && P.Enabled(Abs(w), P.Hop(r.request.jobToken, r.caller, r.capability, r.target))
    ensures Taken(w, Some(P.Hop(r.request.jobToken, r.caller, r.capability, r.target)),
                  WithHop(w, log, r.request.id, r.request.jobToken, r.target))
  {
    HopFollows(w, log, View(log), r.request.id, r.request.jobToken, r.caller, r.capability, r.target);
    HopFlows(w, log, r);
  }

  lemma HopTaken(w: World, id: string, token: string, caller: string, cap: string, target: string)
    requires Carried(w) && Rooting(w.log) && CanHopIn(w, id, token, caller, cap, target)
    ensures Taken(w, Some(P.Hop(token, caller, cap, target)), HoppedIn(w, id, token, caller, cap, target))
  {
    var r := InvokeRecord(id, token, cap, target, caller, w.now + 1);
    HopRecord(w, id, token, caller, cap, target);
    HopHasToken(w, token);
    HopOpened(w.log, r);
    LateHopTaken(w, Opened(w.log, r, MAX_RECORDS), r);
  }

  lemma HopRecord(w: World, id: string, token: string, caller: string, cap: string, target: string)
    requires token in w.exec
    ensures var r := InvokeRecord(id, token, cap, target, caller, w.now + 1);
            && r.request.id == id && r.request.jobToken == token && r.target == target && r.reqReceived == w.now + 1
            && r.request.cmd == "invoke" && r.caller == caller && r.capability == cap && !r.Done()
            && HoppedIn(w, id, token, caller, cap, target) ==
               WithHop(w, Opened(w.log, r, MAX_RECORDS), r.request.id, r.request.jobToken, r.target)
  {
  }

  lemma HopRefines(w: World, id: string, token: string, caller: string, cap: string, target: string)
    requires Carried(w) && Rooting(w.log) && CanHopIn(w, id, token, caller, cap, target)
    ensures Simulated(w, HopIn(id, token, caller, cap, target))
  {
    var e := HopIn(id, token, caller, cap, target);
    assert Apply(w, e) == HoppedIn(w, id, token, caller, cap, target)
           && EventOf(w, e) == Some(P.Hop(token, caller, cap, target));
    HopTaken(w, id, token, caller, cap, target);
  }

  lemma NoteFollows(w: World, log: Log, jobs: map<string, Stage>, id: string, token: string, ends: bool)
    requires P.Enabled(Abs(w), P.Tell(id, token, ends)) && Lost(P.End(View(w.log), token, ends), jobs)
    ensures Follows(Abs(w), P.Tell(id, token, ends), AbsAs(WithNote(w, log, id, token, ends), jobs))
  {
  }

  lemma NoteFlows(w: World, log: Log, r: Record, ends: bool)
    requires Carried(w) && Grown(w.log, log, r)
    requires r.request.id !in w.ids && r.request.cmd == "job_update"
    requires r.request.jobToken in w.tokens && r.request.jobToken != ""
    ensures Carried(WithNote(w, log, r.request.id, r.request.jobToken, ends))
  {
    OpeningFlows(w, WithNote(w, log, r.request.id, r.request.jobToken, ends), r);
  }

  lemma NoteKnown(w: World, id: string, token: string, ends: bool)
    requires Accounted(w) && id !in w.ids && token != "" && ByToken(w.log, token) != []
    ensures P.Enabled(Abs(w), P.Tell(id, token, ends)) && token in w.tokens && StageAt(w.log, token).Some?
  {
    ViewAt(w.log);
    HasJob(w.log, token);
  }

  lemma NoteTaken(w: World, log: Log, r: Record, ends: bool)
    requires Carried(w) && Grown(w.log, log, r) && Rooting(log)
    requires r.request.id !in w.ids && r.request.cmd == "job_update"
    requires r.request.jobToken in w.tokens && r.request.jobToken != ""
    requires P.Enabled(Abs(w), P.Tell(r.request.id, r.request.jobToken, ends))
    requires Lost(P.End(View(w.log), r.request.jobToken, ends), View(log))
    ensures Taken(w, Some(P.Tell(r.request.id, r.request.jobToken, ends)),
                  WithNote(w, log, r.request.id, r.request.jobToken, ends))
  {
    NoteFollows(w, log, View(log), r.request.id, r.request.jobToken, ends);
    NoteFlows(w, log, r, ends);
  }

  lemma ReportTaken(w: World, id: string, token: string, caller: string, report: Report)
    requires Carried(w) && Rooting(w.log) && CanReportIn(w, id, token, caller, report)
    ensures Taken(w, Some(P.Tell(id, token, IsTerminal(report.state))), ReportedIn(w, id, token, caller, report))
  {
    var r, ends := ReportRecord(id, token, caller, report, w.now + 1), IsTerminal(report.state);
    NoteRecord(w, id, token, caller, report);
    NoteKnown(w, id, token, ends);
    ReportOpened(w.log, r);
    NoteTaken(w, Opened(w.log, r, MAX_RECORDS), r, ends);
  }

  lemma NoteRecord(w: World, id: string, token: string, caller: string, report: Report)
    ensures var r, ends := ReportRecord(id, token, caller, report, w.now + 1), IsTerminal(report.state);
            && r.request.id == id && r.request.jobToken == token && r.request.cmd == "job_update" && !r.Done()
            && UpdateReport(r.request) == report
            && ReportedIn(w, id, token, caller, report) ==
               WithNote(w, Opened(w.log, r, MAX_RECORDS), r.request.id, r.request.jobToken, ends)
  {
  }

  lemma ReportRefines(w: World, id: string, token: string, caller: string, report: Report)
    requires Carried(w) && Rooting(w.log) && CanReportIn(w, id, token, caller, report)
    ensures Simulated(w, ReportIn(id, token, caller, report))
  {
    var e := ReportIn(id, token, caller, report);
    assert Apply(w, e) == ReportedIn(w, id, token, caller, report)
           && EventOf(w, e) == Some(P.Tell(id, token, IsTerminal(report.state)));
    ReportTaken(w, id, token, caller, report);
  }

  // ---- filing a response

  /** From `w` to `w'` the response was filed, and only its own exchange moved on. */
  ghost predicate Files(w: World, w': World, id: string, resp: Response) {
    && w'.log == Completed(w.log, id, resp, w.now + 1)
    && w'.ids == w.ids && w'.tokens == w.tokens && w'.exec == w.exec && w'.lock == w.lock
    && (forall k :: k in w'.calls ==> k in w.calls && w'.calls[k].token == w.calls[k].token)
    && (forall k :: k in w'.calls && w'.calls[k].phase != P.Finishing ==> w'.calls[k] == w.calls[k] && k != id)
    && w'.hops <= w.hops && id !in w'.hops
    && (forall k :: k in w'.notes ==> k in w.notes)
    && (forall k :: k in w'.notes && !w'.notes[k].answered ==> w'.notes[k] == w.notes[k] && k != id)
  }

  lemma FilingAccounted(w: World, w': World, id: string, resp: Response)
    requires Accounted(w) && OpenIn(w.log, id) && Files(w, w', id, resp) && w'.log.Valid()
    ensures Accounted(w')
  {
    assert forall k :: k in w'.log.records ==> w'.log.records[k].request == w.log.records[k].request;
  }

  lemma FilingInFlight(w: World, w': World, id: string, resp: Response)
    requires InFlight(w) && OpenIn(w.log, id) && Files(w, w', id, resp)
    ensures InFlight(w')
  {
  }

  lemma FilingFlows(w: World, w': World, id: string, resp: Response)
    requires Accounted(w) && InFlight(w) && OpenIn(w.log, id) && Files(w, w', id, resp) && w'.log.Valid()
    ensures Accounted(w') && InFlight(w')
  {
    FilingInFlight(w, w', id, resp);
    FilingAccounted(w, w', id, resp);
  }

  lemma RespondFollows(w: World, log: Log, jobs: map<string, Stage>, id: string, ends: bool)
    requires CanRespond(w, id) && (w.calls[id].phase == P.Expired ==> ends)
    requires jobs == P.End(View(w.log), w.calls[id].token, ends)
    ensures Follows(Abs(w), P.Respond(id, ends), AbsAs(WithResponse(w, log, id), jobs))
  {
  }

  lemma RespondFlows(w: World, log: Log, id: string, fin: Response)
    requires Carried(w) && CanRespond(w, id) && log == Completed(w.log, id, fin, w.now + 1) && log.Valid()
    ensures Carried(WithResponse(w, log, id))
  {
    FilingFlows(w, WithResponse(w, log, id), id, fin);
  }

  lemma FiledTaken(w: World, log: Log, id: string, fin: Response)
    requires Carried(w) && CanRespond(w, id) && log == Completed(w.log, id, fin, w.now + 1)
    requires log.Valid() && Rooting(log) && (w.calls[id].phase == P.Expired ==> Answers(fin))
    requires View(log) == P.End(View(w.log), w.calls[id].token, Answers(fin))
    ensures Taken(w, Some(P.Respond(id, Answers(fin))), WithResponse(w, log, id))
  {
    RespondFollows(w, log, View(log), id, Answers(fin));
    RespondFlows(w, log, id, fin);
  }

  lemma RespondTaken(w: World, id: string, resp: Response)
    requires Carried(w) && Rooting(w.log) && CanRespond(w, id)
    ensures Taken(w, Some(P.Respond(id, Answers(Final(w.calls[id], id, resp)))), Responded(w, id, resp))
  {
    var fin := Final(w.calls[id], id, resp);
    FinalRecord(w, id, resp);
    CallFiled(w, id, fin);
    FiledTaken(w, Completed(w.log, id, fin, w.now + 1), id, fin);
  }

  lemma FinalRecord(w: World, id: string, resp: Response)
    requires CanRespond(w, id)
    ensures var fin := Final(w.calls[id], id, resp);
            && (w.calls[id].phase == P.Expired ==> Answers(fin))
            && Responded(w, id, resp) == WithResponse(w, Completed(w.log, id, fin, w.now + 1), id)
  {
  }

  lemma CallFiled(w: World, id: string, fin: Response)
    requires Carried(w) && Rooting(w.log) && CanRespond(w, id)
    ensures var log := Completed(w.log, id, fin, w.now + 1);
            log.Valid() && Rooting(log) && View(log) == P.End(View(w.log), w.calls[id].token, Answers(fin))
  {
    assert OpenIn(w.log, id) && Originates(w.log.records[id]);
    ResponseFiled(w.log, id, fin, w.now + 1);
  }

  lemma RespondRefines(w: World, id: string, resp: Response)
    requires Carried(w) && Rooting(w.log) && CanRespond(w, id)
    ensures Simulated(w, Respond(id, resp))
  {
    var e := Respond(id, resp);
    assert Apply(w, e) == Responded(w, id, resp)
           && EventOf(w, e) == Some(P.Respond(id, Answers(Final(w.calls[id], id, resp))));
    RespondTaken(w, id, resp);
  }

  lemma HopOutFollows(w: World, log: Log, jobs: map<string, Stage>, id: string)
    requires jobs == View(w.log)
    ensures AbsAs(WithoutHop(w, log, id), jobs) == Abs(w)
  {
  }

  lemma HopOutFlows(w: World, log: Log, id: string, resp: Response)
    requires Carried(w) && id in w.hops && log == Completed(w.log, id, resp, w.now + 1) && log.Valid()
    ensures Carried(WithoutHop(w, log, id))
  {
    FilingFlows(w, WithoutHop(w, log, id), id, resp);
  }

  lemma HopOutTaken(w: World, id: string, resp: Response)
    requires Carried(w) && Rooting(w.log) && id in w.hops
    ensures Taken(w, None, HoppedOut(w, id, resp))
  {
    var log := Completed(w.log, id, resp, w.now + 1);
    assert HoppedOut(w, id, resp) == WithoutHop(w, log, id);
    ResponseFiled(w.log, id, resp, w.now + 1);
    HopOutFollows(w, log, View(log), id);
    HopOutFlows(w, log, id, resp);
  }

  lemma HopOutRefines(w: World, id: string, resp: Response)
    requires Carried(w) && Rooting(w.log) && id in w.hops
    ensures Simulated(w, HopOut(id, resp))
  {
    var e := HopOut(id, resp);
    assert Apply(w, e) == HoppedOut(w, id, resp) && EventOf(w, e) == None;
    HopOutTaken(w, id, resp);
  }

  lemma TellFollows(w: World, log: Log, jobs: map<string, Stage>, id: string)
    requires CanReportOut(w, id) && jobs == View(w.log)
    ensures Follows(Abs(w), P.Told(id), AbsAs(WithAnswer(w, log, id), jobs))
  {
  }

  lemma AnswerFlows(w: World, log: Log, id: string, resp: Response)
    requires Carried(w) && CanReportOut(w, id) && log == Completed(w.log, id, resp, w.now + 1) && log.Valid()
    ensures Carried(WithAnswer(w, log, id))
  {
    FilingFlows(w, WithAnswer(w, log, id), id, resp);
  }

  lemma AnswerTaken(w: World, log: Log, id: string, resp: Response)
    requires Carried(w) && CanReportOut(w, id) && log == Completed(w.log, id, resp, w.now + 1)
    requires log.Valid() && Rooting(log) && View(log) == View(w.log)
    ensures Taken(w, Some(P.Told(id)), WithAnswer(w, log, id))
  {
    TellFollows(w, log, View(log), id);
    AnswerFlows(w, log, id, resp);
  }

  lemma ReportOutTaken(w: World, id: string, resp: Response)
    requires Carried(w) && Rooting(w.log) && CanReportOut(w, id)
    ensures Taken(w, Some(P.Told(id)), ReportedOut(w, id, resp))
  {
    AnswerRecord(w, id, resp);
    NoteFiled(w, id, resp);
    AnswerTaken(w, Completed(w.log, id, resp, w.now + 1), id, resp);
  }

  lemma AnswerRecord(w: World, id: string, resp: Response)
    requires CanReportOut(w, id)
    ensures ReportedOut(w, id, resp) == WithAnswer(w, Completed(w.log, id, resp, w.now + 1), id)
  {
  }

  lemma NoteFiled(w: World, id: string, resp: Response)
    requires Carried(w) && Rooting(w.log) && CanReportOut(w, id)
    ensures var log := Completed(w.log, id, resp, w.now + 1);
            log.Valid() && Rooting(log) && View(log) == View(w.log)
  {
    assert OpenIn(w.log, id) && !Originates(w.log.records[id]);
    ResponseFiled(w.log, id, resp, w.now + 1);
  }

  lemma ReportOutRefines(w: World, id: string, resp: Response)
    requires Carried(w) && Rooting(w.log) && CanReportOut(w, id)
    ensures Simulated(w, ReportOut(id, resp))
  {
    var e := ReportOut(id, resp);
    assert Apply(w, e) == ReportedOut(w, id, resp) && EventOf(w, e) == Some(P.Told(id));
    ReportOutTaken(w, id, resp);
  }

  // ---- advancing the queue

  lemma {:induction false} BusyMembers(rows: Rows, js: seq<Job>)
    ensures forall m :: m in BusyWith(rows, js) <==> exists j :: j in js && m in FootprintOf(rows, j.target)
  {
    if js != [] {
      BusyMembers(rows, js[..|js| - 1]);
      assert js == js[..|js| - 1] + [js[|js| - 1]];
    }
  }

  /** The derived list of running jobs reserves exactly the protocol's footprints. */
  lemma RunningIsReserved(w: World, js: seq<Job>)
    requires w.log.Valid() && ListsJobs(w.log, js, "running")
    ensures BusyWith(w.rows, js) == P.Reserved(Abs(w))
  {
    BusyMembers(w.rows, js);
    forall m ensures m in BusyWith(w.rows, js) <==> m in P.Reserved(Abs(w)) {
      if m in BusyWith(w.rows, js) {
        var j :| j in js && m in FootprintOf(w.rows, j.target);
        ListedRuns(w.log, js, j.token);
        assert j.token in Abs(w).jobs && Abs(w).jobs[j.token].Running?;
      }
      if m in P.Reserved(Abs(w)) {
        var t :| t in Abs(w).jobs && Abs(w).jobs[t].Running? && m in FootprintOf(w.rows, Abs(w).jobs[t].root);
        ListedRuns(w.log, js, t);
        assert JobOf(w.log, t).value in js;
      }
    }
  }

  lemma TokensNamed(w: World, tokens: seq<string>)
    requires Accounted(w) && ListsTokens(w.log, tokens)
    ensures P.NamesJobs(View(w.log), tokens) && forall t :: t in tokens ==> t in w.tokens
  {
    ViewAt(w.log);
    forall t ensures t in tokens <==> t in View(w.log) {
      HasJob(w.log, t);
    }
  }

  lemma ScanRefines(w: World, actor: string, tokens: seq<string>)
    requires Carried(w) && Rooting(w.log) && CanScan(w, actor, tokens)
    ensures Simulated(w, Scan(actor, tokens))
  {
    var e := Scan(actor, tokens);
    assert Apply(w, e) == ScannedBy(w, actor, tokens) && EventOf(w, e) == Some(P.Scan(actor, tokens));
    TokensNamed(w, tokens);
    ScanFollows(w, actor, tokens);
    ScanFlows(w, actor, tokens);
  }

  lemma ScanFollows(w: World, actor: string, tokens: seq<string>)
    requires CanScan(w, actor, tokens) && P.NamesJobs(View(w.log), tokens)
    ensures Follows(Abs(w), P.Scan(actor, tokens), Abs(ScannedBy(w, actor, tokens)))
  {
  }

  lemma ScanFlows(w: World, actor: string, tokens: seq<string>)
    requires Carried(w) && forall t :: t in tokens ==> t in w.tokens
    ensures Carried(ScannedBy(w, actor, tokens))
  {
  }

  /** The job derived for a token is the protocol's. */
  lemma DerivedIsSeen(w: World, t: string)
    requires w.log.Valid() && t != ""
    ensures var job := JobOf(w.log, t);
            && (job.Some? && job.value.state == "queued" <==> P.Waits(Abs(w), t))
            && (job.Some? && job.value.state == "running" <==> P.Runs(Abs(w), t))
            && (P.Live(Abs(w), t) ==>
                  Waiting(job.value.token, job.value.target, job.value.queuedAt)
                  == Waiting(t, Abs(w).jobs[t].root, Abs(w).jobs[t].since))
  {
    ViewAt(w.log);
    DerivedStage(w.log, t);
    JobToken(w.log, t);
  }

  /** What a job tells an advance is what the protocol sees. */
  ghost predicate Tells(w: World, job: Option<Job>, t: string) {
    && (job.Some? && job.value.state == "queued" <==> P.Waits(Abs(w), t))
    && (job.Some? && job.value.state == "running" <==> P.Runs(Abs(w), t))
    && (P.Live(Abs(w), t) ==>
          && job.Some? && job.value.token == t
          && job.value.target == Abs(w).jobs[t].root && job.value.queuedAt == Abs(w).jobs[t].since)
  }

  lemma LockIsLooked(w: World)
    requires Accounted(w) && CanLook(w)
    ensures LockAfter(w, JobOf(w.log, P.Todo(w.lock)[0])) == P.Looked(Abs(w))
  {
    var t := P.Todo(w.lock)[0];
    JobTells(w, t);
    ToldIsLooked(w, JobOf(w.log, t));
  }

  lemma ToldIsLooked(w: World, job: Option<Job>)
    requires CanLook(w) && Tells(w, job, P.Todo(w.lock)[0])
    ensures LockAfter(w, job) == P.Looked(Abs(w))
  {
    if job.Some? {
      assert AsWaiting([job.value]) == [Waiting(job.value.token, job.value.target, job.value.queuedAt)];
    }
  }

  lemma JobTells(w: World, t: string)
    requires Accounted(w)
    ensures Tells(w, JobOf(w.log, t), t)
  {
    if t == "" {
      NamelessJob(w);
    } else {
      DerivedIsSeen(w, t);
    }
  }

  lemma NamelessJob(w: World)
    requires Accounted(w)
    ensures JobOf(w.log, "").None? && "" !in View(w.log)
  {
    NoRecords(w.log.order, w.log.records, "");
  }

  lemma {:induction false} NoRecords(order: seq<string>, records: map<string, Record>, token: string)
    requires forall id :: id in records ==> records[id].request.jobToken != token
    ensures Group(order, records, token) == []
  {
    if order != [] {
      NoRecords(order[..|order| - 1], records, token);
    }
  }

  lemma LookRefines(w: World)
    requires Carried(w) && Rooting(w.log) && CanLook(w)
    ensures Simulated(w, Look)
  {
    assert Apply(w, Look) == LookedAt(w) && EventOf(w, Look) == Some(P.Look);
    LookFollows(w);
    LookFlows(w);
  }

  lemma LookFollows(w: World)
    requires Accounted(w) && CanLook(w)
    ensures Follows(Abs(w), P.Look, Abs(LookedAt(w)))
  {
    LockIsLooked(w);
    assert Abs(LookedAt(w)) == P.Apply(Abs(w), P.Look);
  }

  lemma LookFlows(w: World)
    requires Carried(w) && CanLook(w)
    ensures Carried(LookedAt(w))
  {
    LookLists(w);
    LookInFlight(w);
  }

  lemma LookInFlight(w: World)
    requires InFlight(w) && CanLook(w)
    ensures InFlight(LookedAt(w))
  {
  }

  lemma LookLists(w: World)
    requires Accounted(w) && CanLook(w)
    ensures Accounted(LookedAt(w))
  {
    var t, left := P.Todo(w.lock)[0], P.Todo(w.lock)[1..];
    assert P.Todo(w.lock) == [t] + left && P.Todo(LookedAt(w).lock) == left;
    JobToken(w.log, t);
    OneMoreListed(w, t, JobOf(w.log, t));
  }

  lemma OneMoreListed(w: World, t: string, job: Option<Job>)
    requires CanLook(w) && (job.Some? ==> job.value.token == t)
    ensures forall x :: x in P.Listed(LockAfter(w, job)) ==> x in P.Listed(w.lock) || x.token == t
  {
  }

  lemma OrderRefines(w: World, queue: seq<Waiting>, tokens: seq<string>)
    requires Carried(w) && Rooting(w.log) && CanOrder(w, queue, tokens)
    ensures Simulated(w, Order(queue, tokens))
  {
    var e := Order(queue, tokens);
    assert Apply(w, e) == Ordered(w, queue, tokens) && EventOf(w, e) == Some(P.Order(queue, tokens));
    TokensNamed(w, tokens);
    OrderFollows(w, queue, tokens);
    OrderFlows(w, queue, tokens);
  }

  lemma OrderFollows(w: World, queue: seq<Waiting>, tokens: seq<string>)
    requires CanOrder(w, queue, tokens) && P.NamesJobs(View(w.log), tokens)
    ensures Follows(Abs(w), P.Order(queue, tokens), Abs(Ordered(w, queue, tokens)))
  {
  }

  lemma OrderFlows(w: World, queue: seq<Waiting>, tokens: seq<string>)
    requires Carried(w) && CanOrder(w, queue, tokens) && forall t :: t in tokens ==> t in w.tokens
    ensures Carried(Ordered(w, queue, tokens))
  {
    P.Reordered(w.lock.queue, queue);
  }

  lemma ChooseRefines(w: World)
    requires Carried(w) && Rooting(w.log) && CanChoose(w) && P.LockSound(Abs(w))
    ensures Simulated(w, Choosing)
  {
    assert Apply(w, Choosing) == Chosen(w) && EventOf(w, Choosing) == Some(P.Choosing);
    ChooseFollows(w);
    ChooseFlows(w);
  }

  lemma ChooseFollows(w: World)
    requires CanChoose(w)
    ensures Follows(Abs(w), P.Choosing, Abs(Chosen(w)))
  {
  }

  lemma ChooseFlows(w: World)
    requires Carried(w) && CanChoose(w) && DistinctTokens(w.lock.queue)
    ensures Carried(Chosen(w))
  {
    PlanApart(w.rows, w.lock.queue, w.lock.busy);
  }

  lemma StartNextFollows(w: World, log: Log, jobs: map<string, Stage>)
    requires CanStartNext(w) && jobs == P.Promote(View(w.log), w.lock.plan[0].token)
    ensures Follows(Abs(w), P.StartNext, AbsAs(WithStart(w, log), jobs))
  {
  }

  lemma StartNextFlows(w: World, log: Log)
    requires Carried(w) && CanStartNext(w) && log.Valid()
    requires log == Started(w.log, w.lock.plan[0].token, w.now + 1)
    ensures Carried(WithStart(w, log))
  {
    StartNextInFlight(w, log);
    StartNextAccounted(w, log);
  }

  lemma StartNextAccounted(w: World, log: Log)
    requires Accounted(w) && CanStartNext(w) && log.Valid()
    requires log == Started(w.log, w.lock.plan[0].token, w.now + 1)
    ensures Accounted(WithStart(w, log))
  {
    assert w.lock.plan[0] in w.lock.plan;
    assert forall x :: x in w.lock.plan[1..] ==> x in w.lock.plan;
  }

  lemma StartNextInFlight(w: World, log: Log)
    requires InFlight(w) && CanStartNext(w) && log.records == w.log.records
    ensures InFlight(WithStart(w, log))
  {
  }

  lemma StartTaken(w: World, log: Log)
    requires Carried(w) && CanStartNext(w) && log.Valid() && Rooting(log)
    requires log == Started(w.log, w.lock.plan[0].token, w.now + 1)
    requires View(log) == P.Promote(View(w.log), w.lock.plan[0].token)
    ensures Taken(w, Some(P.StartNext), WithStart(w, log))
  {
    StartNextFollows(w, log, View(log));
    StartNextFlows(w, log);
  }

  lemma StartNextRefines(w: World)
    requires Carried(w) && Rooting(w.log) && CanStartNext(w)
    ensures Simulated(w, StartNext)
  {
    var log := Started(w.log, w.lock.plan[0].token, w.now + 1);
    StartRecord(w);
    Stamped(w.log, w.lock.plan[0].token, w.now + 1);
    StartTaken(w, log);
  }

  lemma StartRecord(w: World)
    requires CanStartNext(w)
    ensures Apply(w, StartNext) == WithStart(w, Started(w.log, w.lock.plan[0].token, w.now + 1))
    ensures EventOf(w, StartNext) == Some(P.StartNext)
  {
  }

  lemma ReleaseFollows(w: World)
    requires CanRelease(w)
    ensures Follows(Abs(w), P.Release, Abs(Released(w)))
  {
    assert Abs(Released(w)) == P.Apply(Abs(w), P.Release);
  }

  lemma ReleaseFlows(w: World)
    requires Carried(w) && CanRelease(w)
    ensures Carried(Released(w))
  {
    ReleaseAccounted(w);
    ReleaseInFlight(w);
  }

  lemma ReleaseAccounted(w: World)
    requires Accounted(w) && CanRelease(w)
    ensures Accounted(Released(w))
  {
  }

  lemma ReleaseInFlight(w: World)
    requires InFlight(w) && CanRelease(w)
    ensures InFlight(Released(w))
  {
  }

  lemma ReleaseRefines(w: World)
    requires Carried(w) && Rooting(w.log) && CanRelease(w)
    ensures Simulated(w, Release)
  {
    assert Apply(w, Release) == Released(w) && EventOf(w, Release) == Some(P.Release);
    ReleaseFollows(w);
    ReleaseFlows(w);
  }

  // ---- waking, expiring, and module states

  lemma CheckFollows(w: World, id: string, e: P.Event)
    requires CanCheck(w, id) && e == (if w.calls[id].token in w.log.started then P.Wake(id) else P.Expire(id))
    requires P.Enabled(Abs(w), e)
    ensures Follows(Abs(w), e, Abs(Checked(w, id)))
  {
  }

  /** The stamp decides whether the parked job may still wait, or may already run. */
  lemma CheckEnabled(w: World, id: string)
    requires w.log.Valid() && CanCheck(w, id)
    ensures P.Enabled(Abs(w), if w.calls[id].token in w.log.started then P.Wake(id) else P.Expire(id))
  {
    ViewAt(w.log);
    assert w.calls[id].token in w.log.started <==> Stamp(w.log, w.calls[id].token).Some?;
  }

  lemma CheckAccounted(w: World, id: string)
    requires Accounted(w) && CanCheck(w, id)
    ensures Accounted(Checked(w, id))
  {
  }

  lemma CheckInFlight(w: World, id: string)
    requires InFlight(w) && CanCheck(w, id)
    ensures InFlight(Checked(w, id))
  {
  }

  lemma CheckRefines(w: World, id: string)
    requires Carried(w) && Rooting(w.log) && CanCheck(w, id)
    ensures Simulated(w, Check(id))
  {
    var event := if w.calls[id].token in w.log.started then P.Wake(id) else P.Expire(id);
    assert Apply(w, Check(id)) == Checked(w, id) && EventOf(w, Check(id)) == Some(event);
    CheckEnabled(w, id);
    CheckFollows(w, id, event);
    CheckInFlight(w, id);
    CheckAccounted(w, id);
  }

  lemma SetStateRefines(w: World, name: string, state: State)
    requires Carried(w) && Rooting(w.log) && name in w.rows
    ensures Simulated(w, SetState(name, state))
  {
    var e := SetState(name, state);
    assert Apply(w, e) == StateSet(w, name, state) && EventOf(w, e) == Some(P.SetState(name, state));
    SetStateFollows(w, name, state);
    SetStateFlows(w, name, state);
  }

  lemma SetStateFollows(w: World, name: string, state: State)
    requires name in w.rows
    ensures Follows(Abs(w), P.SetState(name, state), Abs(StateSet(w, name, state)))
  {
  }

  lemma SetStateFlows(w: World, name: string, state: State)
    requires Carried(w) && name in w.rows
    ensures Carried(StateSet(w, name, state))
  {
  }

  /** Every step of a world is a step of the protocol on the derived jobs, and may
      besides forget ended jobs. */
  lemma StepRefines(w: World, e: Step)
    requires Carried(w) && Rooting(w.log) && P.LockSound(Abs(w)) && Enabled(w, e)
    ensures Simulated(w, e)
  {
    match e
    case InvokeIn(id, token, cap, target, async) => InvokeRefines(w, id, token, cap, target, async);
    case HopIn(id, token, caller, cap, target) => HopRefines(w, id, token, caller, cap, target);
    case ReportIn(id, token, caller, report) => ReportRefines(w, id, token, caller, report);
    case Respond(id, resp) => RespondRefines(w, id, resp);
    case HopOut(id, resp) => HopOutRefines(w, id, resp);
    case ReportOut(id, resp) => ReportOutRefines(w, id, resp);
    case Scan(actor, tokens) => ScanRefines(w, actor, tokens);
    case Look => LookRefines(w);
    case Order(queue, tokens) => OrderRefines(w, queue, tokens);
    case Choosing => ChooseRefines(w);
    case StartNext => StartNextRefines(w);
    case Release => ReleaseRefines(w);
    case Check(id) => CheckRefines(w, id);
    case SetState(name, state) => SetStateRefines(w, name, state);
  }

  /** Every step of a world keeps the invariant. */
  lemma StepKeeps(w: World, e: Step)
    requires Inv(w) && Enabled(w, e)
    ensures Inv(Apply(w, e))
  {
    StepRefines(w, e);
    RefinedKeeps(Abs(w), EventOf(w, e), Abs(Apply(w, e)));
  }
}
