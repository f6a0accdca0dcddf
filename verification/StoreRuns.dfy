/**
 Runs of the queue manager that show where its guarantees end: jobs that start out of
 turn, a hop into another job's reservation, and what the amortised trim does to running,
 ended and forgotten jobs.  Every world here is reached from the empty store by steps the
 broker can take.
 */
module StoreRuns {
  import opened Wrappers
  import opened ModuleGraph
  import opened Messages
  import opened Jobs
  import opened MessageStore
  import opened JobLog
  import opened Queue
  import opened QueueRun
  import opened QueueTheorems
  import T = Trimming
  import P = Protocol

  /** Some run gets to the world. */
  ghost predicate Reachable(rows: Rows, w: World) {
    exists run: Run :: run.Valid(rows) && run.worlds[|run.worlds| - 1] == w
  }

  lemma EmptyReachable(rows: Rows)
    requires HandlersReserved(rows)
    ensures Reachable(rows, Initial(rows))
  {
    var run := Run([Initial(rows)], []);
    assert run.Valid(rows);
  }

  /** One more step makes a longer run. */
  lemma Extended(rows: Rows, run: Run, w: World, e: Step) returns (longer: Run)
    requires run.Valid(rows) && w == run.worlds[|run.worlds| - 1] && Enabled(w, e)
    ensures longer.Valid(rows) && longer.worlds[|longer.worlds| - 1] == Apply(w, e)
  {
    longer := Run(run.worlds + [Apply(w, e)], run.steps + [e]);
    forall i | 0 <= i < |longer.steps|
      ensures Enabled(longer.worlds[i], longer.steps[i])
      ensures longer.worlds[i + 1] == Apply(longer.worlds[i], longer.steps[i])
    {
      if i < |run.steps| {
        assert longer.steps[i] == run.steps[i] && longer.worlds[i] == run.worlds[i];
        assert longer.worlds[i + 1] == run.worlds[i + 1];
      } else {
        assert longer.steps[i] == e && longer.worlds[i] == w && longer.worlds[i + 1] == Apply(w, e);
      }
    }
  }

  lemma Next(rows: Rows, w: World, e: Step)
    requires Reachable(rows, w) && Enabled(w, e)
    ensures Reachable(rows, Apply(w, e))
  {
    var run: Run :| run.Valid(rows) && run.worlds[|run.worlds| - 1] == w;
    var longer := Extended(rows, run, w, e);
  }

  lemma ReachableInv(rows: Rows, w: World)
    requires Reachable(rows, w)
    ensures Inv(w) && SameManifests(rows, w.rows)
  {
    var run: Run :| run.Valid(rows) && run.worlds[|run.worlds| - 1] == w;
    EveryWorldInv(rows, run, |run.worlds| - 1);
    RunKeepsManifests(rows, run, |run.worlds| - 1);
  }

  lemma ReachableValid(rows: Rows, w: World)
    requires Reachable(rows, w)
    ensures w.log.Valid()
  {
    ReachableInv(rows, w);
  }

  // ------------------------------------------------ an advance on its own

  lemma {:induction false} Enumerated(s: set<string>) returns (tokens: seq<string>)
    ensures P.Distinct(tokens) && forall t :: t in tokens <==> t in s
    decreases |s|
  {
    if s == {} {
      tokens := [];
    } else {
      var t :| t in s;
      var rest := Enumerated(s - {t});
      tokens := rest + [t];
    }
  }

  /** What looking at the tokens one by one finds queued. */
  function Found(jobs: map<string, Stage>, tokens: seq<string>): seq<Waiting> {
    if tokens == [] then []
    else
      var t := tokens[0];
      (if t in jobs && jobs[t].Queued? then [Waiting(t, jobs[t].root, jobs[t].since)] else [])
      + Found(jobs, tokens[1..])
  }

  /** And what it finds reserved. */
  ghost function Counted(rows: Rows, jobs: map<string, Stage>, tokens: seq<string>): set<string> {
    if tokens == [] then {}
    else
      var t := tokens[0];
      (if t in jobs && jobs[t].Running? then FootprintOf(rows, jobs[t].root) else {}) + Counted(rows, jobs, tokens[1..])
  }

  lemma {:induction false} FoundMembers(jobs: map<string, Stage>, tokens: seq<string>)
    requires P.Distinct(tokens)
    ensures forall w :: w in Found(jobs, tokens) <==>
              w.token in tokens && w.token in jobs && jobs[w.token] == Queued(w.root, w.since)
    ensures DistinctTokens(Found(jobs, tokens))
  {
    if tokens != [] {
      var rest := tokens[1..];
      assert tokens == [tokens[0]] + rest && tokens[0] !in rest;
      FoundMembers(jobs, rest);
      assert forall w :: w in Found(jobs, rest) ==> w.token != tokens[0];
      var rests := Found(jobs, rest);
      assert forall i :: 0 <= i < |rests| ==> rests[i] in rests;
    }
  }

  lemma {:induction false} CountedMembers(rows: Rows, jobs: map<string, Stage>, tokens: seq<string>)
    ensures forall m :: m in Counted(rows, jobs, tokens) <==>
              exists t :: t in tokens && t in jobs && jobs[t].Running? && m in FootprintOf(rows, jobs[t].root)
  {
    if tokens != [] {
      CountedMembers(rows, jobs, tokens[1..]);
      assert tokens == [tokens[0]] + tokens[1..];
    }
  }

  /** Two lists of distinct tokens with the same members are reorderings of each other. */
  lemma SameJobs(a: seq<Waiting>, b: seq<Waiting>)
    requires DistinctTokens(a) && DistinctTokens(b) && forall w :: w in a <==> w in b
    ensures multiset(a) == multiset(b)
  {
    forall w ensures multiset(a)[w] == multiset(b)[w] {
      P.OnceEach(a, w);
      P.OnceEach(b, w);
      assert w in a <==> w in multiset(a);
      assert w in b <==> w in multiset(b);
    }
  }

  /** A world but for its mutex and its time. */
  function Holding(w: World, lock: P.Lock, now: Time): World {
    w.(lock := lock, now := now)
  }

  lemma LooksOnce(rows: Rows, w: World)
    requires Reachable(rows, w) && CanLook(w)
    ensures Reachable(rows, Holding(w, P.Looked(Abs(w)), w.now + 1))
  {
    ReachableInv(rows, w);
    LockIsLooked(w);
    Next(rows, w, Look);
  }

  lemma FoundStep(jobs: map<string, Stage>, queue: seq<Waiting>, one: seq<Waiting>, todo: seq<string>)
    requires todo != [] && Found(jobs, todo) == one + Found(jobs, todo[1..])
    ensures (queue + one) + Found(jobs, todo[1..]) == queue + Found(jobs, todo)
  {
  }

  lemma ScanStep(w: World)
    requires w.lock.Scanning? && w.lock.todo != []
    ensures var lock := P.Looked(Abs(w));
            && lock.Scanning? && lock.holder == w.lock.holder && lock.todo == w.lock.todo[1..]
            && lock.queue + Found(View(w.log), w.lock.todo[1..]) == w.lock.queue + Found(View(w.log), w.lock.todo)
  {
    var jobs, t := View(w.log), w.lock.todo[0];
    var one := if t in jobs && jobs[t].Queued? then [Waiting(t, jobs[t].root, jobs[t].since)] else [];
    FoundStep(jobs, w.lock.queue, one, w.lock.todo);
    assert P.Looked(Abs(w)).queue == w.lock.queue + one;
  }

  lemma CountStep(w: World)
    requires w.lock.Counting? && w.lock.todo != []
    ensures var lock := P.Looked(Abs(w));
            && lock.Counting? && lock.holder == w.lock.holder && lock.todo == w.lock.todo[1..]
            && lock.queue == w.lock.queue
            && lock.busy + Counted(w.rows, View(w.log), w.lock.todo[1..])
               == w.lock.busy + Counted(w.rows, View(w.log), w.lock.todo)
  {
  }

  /** Looking through, nobody interfering, finds what there is. */
  lemma {:induction false} ScansThrough(rows: Rows, w: World, todo: seq<string>) returns (now: Time)
    requires Reachable(rows, w) && w.lock.Scanning? && w.lock.todo == todo
    ensures now >= w.now
    ensures Reachable(rows, Holding(w, P.Scanning(w.lock.holder, [], w.lock.queue + Found(View(w.log), todo)), now))
    decreases |todo|
  {
    if todo == [] {
      now := w.now;
      assert w == Holding(w, P.Scanning(w.lock.holder, [], w.lock.queue + []), now);
    } else {
      LooksOnce(rows, w);
      ScanStep(w);
      now := ScansThrough(rows, Holding(w, P.Looked(Abs(w)), w.now + 1), todo[1..]);
    }
  }

  lemma {:induction false} CountsThrough(rows: Rows, w: World, todo: seq<string>) returns (now: Time)
    requires Reachable(rows, w) && w.lock.Counting? && w.lock.todo == todo
    ensures now >= w.now
    ensures var busy := w.lock.busy + Counted(w.rows, View(w.log), todo);
            Reachable(rows, Holding(w, P.Counting(w.lock.holder, [], w.lock.queue, busy), now))
    decreases |todo|
  {
    if todo == [] {
      now := w.now;
      assert w == Holding(w, P.Counting(w.lock.holder, [], w.lock.queue, w.lock.busy + {}), now);
    } else {
      LooksOnce(rows, w);
      CountStep(w);
      now := CountsThrough(rows, Holding(w, P.Looked(Abs(w)), w.now + 1), todo[1..]);
    }
  }

  lemma TokensListed(w: World) returns (tokens: seq<string>)
    requires Inv(w)
    ensures ListsTokens(w.log, tokens) && P.NamesJobs(View(w.log), tokens)
  {
    tokens := Enumerated(LiveTokens(w.log.records));
    TokensNamed(w, tokens);
  }

  lemma FoundIsQueue(jobs: map<string, Stage>, tokens: seq<string>, queue: seq<Waiting>)
    requires P.NamesJobs(jobs, tokens) && P.IsQueue(jobs, queue)
    ensures multiset(queue) == multiset(Found(jobs, tokens))
  {
    FoundMembers(jobs, tokens);
    SameJobs(queue, Found(jobs, tokens));
  }

  lemma CountedIsReserved(w: World, tokens: seq<string>)
    requires P.NamesJobs(View(w.log), tokens)
    ensures Counted(w.rows, View(w.log), tokens) == P.Reserved(Abs(w))
  {
    CountedMembers(w.rows, View(w.log), tokens);
    forall m ensures m in Counted(w.rows, View(w.log), tokens) <==> m in P.Reserved(Abs(w)) {
    }
  }

  /** An advance that nobody interferes with comes to the greedy plan. */
  lemma Plans(rows: Rows, w: World, actor: string, queue: seq<Waiting>) returns (now: Time)
    requires Reachable(rows, w) && w.lock.Free? && P.MayAdvance(Abs(w), actor) && P.IsQueue(View(w.log), queue)
    ensures now > w.now
    ensures Reachable(rows, Holding(w, P.Starting(actor, Plan(w.rows, queue, P.Reserved(Abs(w)))), now))
  {
    ReachableInv(rows, w);
    var tokens := TokensListed(w);
    Next(rows, w, Scan(actor, tokens));
    var scanning := ScannedBy(w, actor, tokens);
    var at := ScansThrough(rows, scanning, tokens);
    FoundIsQueue(View(w.log), tokens, queue);
    assert [] + Found(View(w.log), tokens) == Found(View(w.log), tokens);
    now := Chooses(rows, w, Holding(w, P.Scanning(actor, [], Found(View(w.log), tokens)), at), actor, queue, tokens);
  }

  lemma Chooses(rows: Rows, w: World, found: World, actor: string, queue: seq<Waiting>, tokens: seq<string>)
    returns (now: Time)
    requires Reachable(rows, found) && found.lock.Scanning? && found.now > w.now
    requires found == Holding(w, P.Scanning(actor, [], found.lock.queue), found.now)
    requires multiset(queue) == multiset(found.lock.queue) && P.IsQueue(View(w.log), queue)
    requires ListsTokens(w.log, tokens) && P.NamesJobs(View(w.log), tokens)
    ensures now > w.now
    ensures Reachable(rows, Holding(w, P.Starting(actor, Plan(w.rows, queue, P.Reserved(Abs(w)))), now))
  {
    Next(rows, found, Order(queue, tokens));
    var counting := Ordered(found, queue, tokens);
    var at := CountsThrough(rows, counting, tokens);
    CountedIsReserved(w, tokens);
    assert {} + Counted(w.rows, View(w.log), tokens) == P.Reserved(Abs(w));
    var counted := Holding(w, P.Counting(actor, [], queue, P.Reserved(Abs(w))), at);
    assert Holding(counting, P.Counting(actor, [], queue, P.Reserved(Abs(w))), at) == counted;
    Next(rows, counted, Choosing);
    now := at + 1;
    assert Chosen(counted) == Holding(w, P.Starting(actor, Plan(w.rows, queue, P.Reserved(Abs(w)))), now);
  }

  // ------------------------------------------------------ single exchanges

  /** The next openings are not followed by a trim. */
  predicate Short(log: Log, n: nat) {
    |log.order| + n < 2 * MAX_RECORDS
  }

  lemma OpenedShort(log: Log, r: Record)
    requires log.Valid() && r.request.id !in log.records && Short(log, 1)
    ensures Opened(log, r, MAX_RECORDS) == Added(log, r) && TrimSpares(Added(log, r))
  {
    AddedValid(log, r);
    ShortLogSpared(Added(log, r));
  }

  /** An originating invoke that the broker admits, with an id and a token of its own. */
  ghost predicate CanEnter(w: World, id: string, token: string, cap: string, target: string, async: bool) {
    && id !in w.ids && token != "" && token !in w.tokens && Routes(w.rows, cap, target, async) && Short(w.log, 1)
  }

  function EnteredBy(w: World, id: string, token: string, cap: string, target: string, async: bool): World {
    WithCall(w, Added(w.log, InvokeRecord(id, token, cap, target, "", w.now + 1)), id, token, target, async)
  }

  lemma Enters(rows: Rows, w: World, id: string, token: string, cap: string, target: string, async: bool)
    requires Reachable(rows, w) && CanEnter(w, id, token, cap, target, async)
    ensures Reachable(rows, EnteredBy(w, id, token, cap, target, async))
    ensures View(EnteredBy(w, id, token, cap, target, async).log)
            == View(w.log)[token := Queued(target, w.now + 1)]
  {
    var r := InvokeRecord(id, token, cap, target, "", w.now + 1);
    ReachableInv(rows, w);
    CallRecord(w, id, token, cap, target, async);
    FreshEnters(w, r);
    Next(rows, w, InvokeIn(id, token, cap, target, async));
  }

  lemma FreshEnters(w: World, r: Record)
    requires Inv(w) && r.request.id !in w.ids && Originates(r) && !r.Done() && Short(w.log, 1)
    requires r.request.jobToken != "" && r.request.jobToken !in w.tokens
    ensures Opened(w.log, r, MAX_RECORDS) == Added(w.log, r) && TrimSpares(Added(w.log, r))
    ensures View(Added(w.log, r)) == View(w.log)[r.request.jobToken := Queued(r.target, r.reqReceived)]
  {
    FreshToken(w, r.request.jobToken);
    HasJob(w.log, r.request.jobToken);
    OpenedShort(w.log, r);
    InvokeAdded(w.log, r);
  }

  ghost predicate NoneLive(jobs: map<string, Stage>) {
    forall t :: t in jobs ==> jobs[t].Ended?
  }

  /** The originating invoke has come to its module: its job runs, and is routed. */
  function Begun(w: World, id: string, token: string, cap: string, target: string, async: bool, at: Time): World {
    RoutedBy(ReleasedBy(PlannedBy(w, id, token, cap, target, async, at), id, token), id)
  }

  function PlannedBy(w: World, id: string, token: string, cap: string, target: string, async: bool, at: Time): World {
    Holding(EnteredBy(w, id, token, cap, target, async), P.Starting(id, [Waiting(token, target, w.now + 1)]), at)
  }

  /** Field by field. */
  lemma BegunFields(w: World, id: string, token: string, cap: string, target: string, async: bool, at: Time)
    ensures var b := Begun(w, id, token, cap, target, async, at);
            && b.log == Started(Added(w.log, InvokeRecord(id, token, cap, target, "", w.now + 1)), token, at + 1)
            && b.rows == w.rows && b.hops == w.hops && b.notes == w.notes && b.lock.Free? && b.now == at + 3
            && b.ids == w.ids + {id} && b.tokens == w.tokens + {token}
            && id in b.calls && b.calls[id] == P.Call(token, target, async, P.Routing)
            && b.calls - {id} == w.calls - {id}
            && b.exec == w.exec[token := P.Execution(target, {target})]
  {
  }

  lemma PlanOfOne(rows: Rows, x: Waiting)
    ensures Plan(rows, [x], {}) == [x]
  {
    assert Choose(rows, [x], {}, 0) == Choice([], {});
  }

  /** With no other job alive an invoke is promoted at once, and routed. */
  lemma Begins(rows: Rows, w: World, id: string, token: string, cap: string, target: string, async: bool)
    returns (at: Time)
    requires Reachable(rows, w) && CanEnter(w, id, token, cap, target, async)
    requires w.lock.Free? && NoneLive(View(w.log))
    ensures at > w.now && Reachable(rows, Begun(w, id, token, cap, target, async, at))
    ensures View(Begun(w, id, token, cap, target, async, at).log) == View(w.log)[token := Running(target, w.now + 1)]
  {
    Enters(rows, w, id, token, cap, target, async);
    at := PlansEntered(rows, w, id, token, cap, target, async);
    StartsPlanned(rows, PlannedBy(w, id, token, cap, target, async, at), id, Waiting(token, target, w.now + 1));
    BegunView(rows, w, id, token, cap, target, async, at);
  }

  lemma PlansEntered(rows: Rows, w: World, id: string, token: string, cap: string, target: string, async: bool)
    returns (at: Time)
    requires var entered := EnteredBy(w, id, token, cap, target, async);
             && Reachable(rows, entered)
             && View(entered.log) == View(w.log)[token := Queued(target, w.now + 1)]
    requires w.lock.Free? && NoneLive(View(w.log))
    ensures at > w.now && Reachable(rows, PlannedBy(w, id, token, cap, target, async, at))
  {
    var entered := EnteredBy(w, id, token, cap, target, async);
    EnteredFields(w, id, token, cap, target, async);
    at := PlansAlone(rows, w, entered, id, Waiting(token, target, w.now + 1));
  }

  lemma EnteredFields(w: World, id: string, token: string, cap: string, target: string, async: bool)
    ensures var entered := EnteredBy(w, id, token, cap, target, async);
            && entered.rows == w.rows && entered.lock == w.lock && entered.now == w.now + 1
            && id in entered.calls && entered.calls[id] == P.Call(token, target, async, P.Entered)
  {
  }

  lemma StartsPlanned(rows: Rows, planned: World, id: string, x: Waiting)
    requires Reachable(rows, planned) && planned.lock == P.Starting(id, [x])
    requires id in planned.calls && planned.calls[id].phase == P.Entered && planned.calls[id].token == x.token
    ensures Reachable(rows, RoutedBy(ReleasedBy(planned, id, x.token), id))
  {
    StartsOne(rows, planned, id, x);
    RoutesOne(rows, ReleasedBy(planned, id, x.token), id);
  }

  lemma PromotesTo(log: Log, before: map<string, Stage>, token: string, target: string, since: Time, now: Time)
    requires log.Valid() && View(log) == before[token := Queued(target, since)]
    ensures View(Started(log, token, now)) == before[token := Running(target, since)]
  {
    PromotedView(log, token, now);
  }

  lemma BegunView(rows: Rows, w: World, id: string, token: string, cap: string, target: string, async: bool, at: Time)
    requires Reachable(rows, EnteredBy(w, id, token, cap, target, async))
    requires View(EnteredBy(w, id, token, cap, target, async).log) == View(w.log)[token := Queued(target, w.now + 1)]
    ensures View(Begun(w, id, token, cap, target, async, at).log) == View(w.log)[token := Running(target, w.now + 1)]
  {
    ReachableValid(rows, EnteredBy(w, id, token, cap, target, async));
    PromotesTo(EnteredBy(w, id, token, cap, target, async).log, View(w.log), token, target, w.now + 1, at + 1);
    assert Begun(w, id, token, cap, target, async, at).log
        == Started(EnteredBy(w, id, token, cap, target, async).log, token, at + 1);
  }

  lemma PlansAlone(rows: Rows, w: World, entered: World, id: string, x: Waiting) returns (at: Time)
    requires Reachable(rows, entered) && entered.lock.Free? && entered.rows == w.rows
    requires NoneLive(View(w.log)) && View(entered.log) == View(w.log)[x.token := Queued(x.root, x.since)]
    requires id in entered.calls && entered.calls[id].phase == P.Entered
    ensures at > entered.now && Reachable(rows, Holding(entered, P.Starting(id, [x]), at))
  {
    ReachableInv(rows, entered);
    AloneInQueue(w, entered, id, x);
    PlanOfOne(w.rows, x);
    at := Plans(rows, entered, id, [x]);
  }

  lemma AloneInQueue(w: World, entered: World, id: string, x: Waiting)
    requires NoneLive(View(w.log)) && View(entered.log) == View(w.log)[x.token := Queued(x.root, x.since)]
    requires id in entered.calls && entered.calls[id].phase == P.Entered && id !in entered.notes
    ensures P.IsQueue(View(entered.log), [x]) && P.Reserved(Abs(entered)) == {} && P.MayAdvance(Abs(entered), id)
  {
  }

  /** The job of `token`, for the caller `id`, was stamped, and the mutex released. */
  function ReleasedBy(w: World, id: string, token: string): World
    requires id in w.calls
  {
    w.(log := Started(w.log, token, w.now + 1), calls := w.calls[id := w.calls[id].(phase := P.Parked)],
       lock := P.Free, now := w.now + 2)
  }

  lemma StartsOne(rows: Rows, w: World, id: string, x: Waiting)
    requires Reachable(rows, w) && w.lock == P.Starting(id, [x])
    requires id in w.calls && w.calls[id].phase == P.Entered
    ensures Reachable(rows, ReleasedBy(w, id, x.token))
  {
    StampsOne(rows, w, id, x);
    ReleasesOne(rows, w, StampedBy(w, id, x), id, x);
  }

  function StampedBy(w: World, id: string, x: Waiting): World {
    w.(log := Started(w.log, x.token, w.now + 1), lock := P.Starting(id, []), now := w.now + 1)
  }

  lemma StampsOne(rows: Rows, w: World, id: string, x: Waiting)
    requires Reachable(rows, w) && w.lock == P.Starting(id, [x])
    ensures Reachable(rows, StampedBy(w, id, x))
  {
    assert [x][1..] == [];
    StartRecord(w);
    Next(rows, w, StartNext);
  }

  lemma ReleasesOne(rows: Rows, w: World, stamped: World, id: string, x: Waiting)
    requires Reachable(rows, stamped) && id in w.calls && w.calls[id].phase == P.Entered
    requires stamped == StampedBy(w, id, x)
    ensures Reachable(rows, ReleasedBy(w, id, x.token))
  {
    Next(rows, stamped, Release);
    assert Released(stamped) == ReleasedBy(w, id, x.token);
  }

  /** The parked caller finds its stamp, and goes on to its module. */
  function RoutedBy(w: World, id: string): World
    requires id in w.calls
  {
    var c := w.calls[id];
    w.(calls := w.calls[id := c.(phase := P.Routing)], exec := w.exec[c.token := P.Execution(c.target, {c.target})],
       now := w.now + 1)
  }

  lemma RoutesOne(rows: Rows, w: World, id: string)
    requires Reachable(rows, w) && CanCheck(w, id) && w.calls[id].token in w.log.started
    ensures Reachable(rows, RoutedBy(w, id))
  {
    Next(rows, w, Check(id));
    assert Checked(w, id) == RoutedBy(w, id);
  }

  /** The response to an originating invoke is filed. */
  lemma Responds(rows: Rows, w: World, id: string, resp: Response)
    requires Reachable(rows, w) && CanRespond(w, id)
    ensures Reachable(rows, Responded(w, id, resp))
    ensures View(Responded(w, id, resp).log)
            == P.End(View(w.log), w.calls[id].token, Answers(Final(w.calls[id], id, resp)))
  {
    ReachableInv(rows, w);
    FinalRecord(w, id, resp);
    CallFiled(w, id, Final(w.calls[id], id, resp));
    Next(rows, w, Respond(id, resp));
  }

  function NotedBy(w: World, id: string, token: string, caller: string, report: Report): World {
    WithNote(w, Added(w.log, ReportRecord(id, token, caller, report, w.now + 1)), id, token, IsTerminal(report.state))
  }

  /** A report on a known token is filed. */
  lemma Reports(rows: Rows, w: World, id: string, token: string, caller: string, report: Report)
    requires Reachable(rows, w) && id !in w.ids && token in LiveTokens(w.log.records) && Short(w.log, 1)
    requires report.state == "" || IsTerminal(report.state)
    ensures Reachable(rows, NotedBy(w, id, token, caller, report))
    ensures View(NotedBy(w, id, token, caller, report).log) == P.End(View(w.log), token, IsTerminal(report.state))
  {
    ReachableInv(rows, w);
    NoteRecord(w, id, token, caller, report);
    ReportSpares(w, ReportRecord(id, token, caller, report, w.now + 1));
    Next(rows, w, ReportIn(id, token, caller, report));
  }

  lemma ReportSpares(w: World, r: Record)
    requires Inv(w) && r.request.id !in w.ids && r.request.jobToken in LiveTokens(w.log.records) && Short(w.log, 1)
    requires r.request.cmd == "job_update"
    requires UpdateReport(r.request).state == "" || IsTerminal(UpdateReport(r.request).state)
    ensures ByToken(w.log, r.request.jobToken) != []
    ensures Opened(w.log, r, MAX_RECORDS) == Added(w.log, r) && TrimSpares(Added(w.log, r))
    ensures View(Added(w.log, r)) ==
            P.End(View(w.log), r.request.jobToken, IsTerminal(UpdateReport(r.request).state))
  {
    HasJob(w.log, r.request.jobToken);
    OpenedShort(w.log, r);
    ReportAdded(w.log, r);
  }

  const THANKS := Response("", "ok", Payload("", "", "", false), None)

  /** And acknowledged. */
  lemma Thanks(rows: Rows, w: World, id: string)
    requires Reachable(rows, w) && CanReportOut(w, id)
    ensures Reachable(rows, ReportedOut(w, id, THANKS)) && View(ReportedOut(w, id, THANKS).log) == View(w.log)
  {
    Next(rows, w, ReportOut(id, THANKS));
    ThanksView(rows, w, id);
  }

  lemma ThanksView(rows: Rows, w: World, id: string)
    requires Reachable(rows, w) && CanReportOut(w, id)
    ensures View(ReportedOut(w, id, THANKS).log) == View(w.log)
  {
    assert ReportedOut(w, id, THANKS).log == Completed(w.log, id, THANKS, w.now + 1);
    assert View(Completed(w.log, id, THANKS, w.now + 1)) == View(w.log) by {
      ReachableInv(rows, w);
      NoteFiled(w, id, THANKS);
    }
  }

  // ---------------------------------------------------- reports of progress

  /** The log has grown by `n` answered reports of progress on `token`. */
  ghost predicate Chattered(a: Log, b: Log, token: string, n: nat) {
    && |b.order| == |a.order| + n && a.order <= b.order && b.started == a.started
    && (forall id :: id in a.records ==> id in b.records && b.records[id] == a.records[id])
    && (forall id :: id in b.records && id !in a.records ==>
          b.records[id].request.jobToken == token && Remark(b.records[id]))
  }

  /** An answered report of progress. */
  predicate Remark(r: Record) {
    r.request.cmd == "job_update" && !T.TerminalReport(r) && T.Answered(r)
  }

  function Remarked(w: World, id: string, token: string): World {
    var noted := Added(w.log, ReportRecord(id, token, "m", EMPTY_REPORT, w.now + 1));
    w.(log := Completed(noted, id, THANKS, w.now + 2), ids := w.ids + {id}, now := w.now + 2)
  }

  lemma Remarks(rows: Rows, w: World, id: string, token: string)
    requires Reachable(rows, w) && id !in w.ids && token in LiveTokens(w.log.records) && Short(w.log, 1)
    ensures Reachable(rows, Remarked(w, id, token)) && View(Remarked(w, id, token).log) == View(w.log)
  {
    var noted := NotedBy(w, id, token, "m", EMPTY_REPORT);
    Reports(rows, w, id, token, "m", EMPTY_REPORT);
    Thanks(rows, noted, id);
    assert id !in w.notes by {
      ReachableInv(rows, w);
    }
    RemarkedStepwise(w, id, token);
  }

  lemma RemarkedStepwise(w: World, id: string, token: string)
    requires id !in w.notes
    ensures CanReportOut(NotedBy(w, id, token, "m", EMPTY_REPORT), id)
    ensures ReportedOut(NotedBy(w, id, token, "m", EMPTY_REPORT), id, THANKS) == Remarked(w, id, token)
  {
    assert w.notes[id := P.Note(token, false, false)] - {id} == w.notes;
  }

  lemma RemarkedLog(w: World, id: string, token: string)
    requires w.log.Valid() && id !in w.log.records
    ensures Chattered(w.log, Remarked(w, id, token).log, token, 1)
  {
  }

  lemma ChatteredOn(a: Log, b: Log, c: Log, token: string, n: nat)
    requires Chattered(a, b, token, n) && Chattered(b, c, token, 1)
    ensures Chattered(a, c, token, n + 1)
  {
  }

  function Numbered(n: nat): string {
    seq(n, i => 'x')
  }

  /** The ids that start otherwise are not numbers. */
  lemma NotNumbered(id: string)
    requires id != "" && id[0] != 'x'
    ensures forall k: nat :: Numbered(k) != id
  {
    assert forall k: nat :: Numbered(k) == "" || Numbered(k)[0] == 'x';
  }

  /** A module reports its progress, over and over. */
  lemma {:induction false} Chatters(rows: Rows, w: World, token: string, n: nat) returns (after: World)
    requires Reachable(rows, w) && token in LiveTokens(w.log.records) && Short(w.log, n)
    requires forall k: nat :: Numbered(k) !in w.ids
    ensures Reachable(rows, after) && View(after.log) == View(w.log) && Chattered(w.log, after.log, token, n)
    ensures after == w.(log := after.log, ids := after.ids, now := after.now) && after.now >= w.now
    ensures w.ids <= after.ids && forall id :: id in after.ids && id !in w.ids ==> |id| <= n && id == Numbered(|id|)
  {
    if n == 0 {
      after := w;
    } else {
      var before := Chatters(rows, w, token, n - 1);
      after := ChattersOnce(rows, w, before, token, n);
    }
  }

  lemma ChattersOnce(rows: Rows, w: World, before: World, token: string, n: nat) returns (after: World)
    requires n > 0 && token in LiveTokens(w.log.records) && Short(w.log, n) && forall k: nat :: Numbered(k) !in w.ids
    requires Reachable(rows, before) && View(before.log) == View(w.log) && Chattered(w.log, before.log, token, n - 1)
    requires before == w.(log := before.log, ids := before.ids, now := before.now) && before.now >= w.now
    requires w.ids <= before.ids
    requires forall id :: id in before.ids && id !in w.ids ==> |id| <= n - 1 && id == Numbered(|id|)
    ensures Reachable(rows, after) && View(after.log) == View(w.log) && Chattered(w.log, after.log, token, n)
    ensures after == w.(log := after.log, ids := after.ids, now := after.now) && after.now >= w.now
    ensures w.ids <= after.ids && forall id :: id in after.ids && id !in w.ids ==> |id| <= n && id == Numbered(|id|)
  {
    var id := Numbered(n);
    assert |id| == n;
    assert id !in before.ids;
    after := Remarked(before, id, token);
    RemarksNext(rows, w, before, token, n);
    OneMoreNumber(w.ids, before.ids, n);
  }

  lemma OneMoreNumber(start: set<string>, before: set<string>, n: nat)
    requires n > 0 && start <= before
    requires forall id :: id in before && id !in start ==> |id| <= n - 1 && id == Numbered(|id|)
    ensures forall id :: id in before + {Numbered(n)} && id !in start ==> |id| <= n && id == Numbered(|id|)
  {
    assert |Numbered(n)| == n;
  }

  lemma RemarksNext(rows: Rows, w: World, before: World, token: string, n: nat)
    requires n > 0 && token in LiveTokens(w.log.records) && Short(w.log, n) && Numbered(n) !in before.ids
    requires Reachable(rows, before) && Chattered(w.log, before.log, token, n - 1)
    ensures var after := Remarked(before, Numbered(n), token);
            && Reachable(rows, after) && View(after.log) == View(before.log)
            && Chattered(w.log, after.log, token, n)
  {
    var id := Numbered(n);
    TokenStays(w.log, before.log, token, n - 1);
    Remarks(rows, before, id, token);
    FreshRecord(rows, before, id);
    RemarkedLog(before, id, token);
    ChatteredOn(w.log, before.log, Remarked(before, id, token).log, token, n - 1);
  }

  lemma FreshRecord(rows: Rows, w: World, id: string)
    requires Reachable(rows, w) && id !in w.ids
    ensures w.log.Valid() && id !in w.log.records
  {
    ReachableInv(rows, w);
  }

  lemma TokenStays(a: Log, b: Log, token: string, n: nat)
    requires Chattered(a, b, token, n) && token in LiveTokens(a.records)
    ensures token in LiveTokens(b.records)
  {
    var id :| id in a.records && a.records[id].request.jobToken == token;
    assert b.records[id].request.jobToken == token;
  }

  // ------------------------------------------------ what trims do in a run

  /** One module with an asynchronous capability and a synchronous one. */
  const CORE: Rows := map["m" := Row(Some(Manifest([Capability("c", true), Capability("d", false)], [])), {}, Active)]

  lemma CoreRoutes()
    ensures HandlersReserved(CORE) && Routes(CORE, "c", "m", true) && Routes(CORE, "d", "m", false)
    ensures HopAdmitted(CORE, "m", "d", "m")
  {
    var caps := CORE["m"].manifest.value.capabilities;
    assert caps[0].name == "c" && caps[1].name == "d";
    assert CapAsync(caps, "c") && caps[1..][0].name == "d" && !CapAsync(caps, "d");
    assert Declares(CORE, "m", "c") && Declares(CORE, "m", "d");
    assert Routes(CORE, "c", "m", true) && Routes(CORE, "d", "m", false);
  }

  /** A job as its derived state shows it: done or failed. */
  ghost predicate Over(w: World, t: string) {
    t != "" && JobOf(w.log, t).Some? && IsTerminal(JobOf(w.log, t).value.state)
  }

  lemma StageTells(w: World, t: string)
    requires w.log.Valid()
    ensures JobIs(w, t, "running") <==> StageAt(w.log, t).Some? && StageAt(w.log, t).value.Running?
    ensures JobIs(w, t, "running") ==> TargetOf(w, t) == StageAt(w.log, t).value.root
    ensures Over(w, t) <==> StageAt(w.log, t) == Some(Ended)
  {
    DerivedStage(w.log, t);
    DerivedStates(w.log, t);
  }

  lemma ViewTells(w: World, t: string)
    requires w.log.Valid() && t in View(w.log)
    ensures StageAt(w.log, t) == Some(View(w.log)[t])
  {
    ViewAt(w.log);
  }

  /** The job of "t" was called into "m", by the invoke "i". */
  lemma FirstBegins(cap: string, async: bool) returns (w: World)
    requires Routes(CORE, cap, "m", async) && HandlersReserved(CORE)
    ensures Reachable(CORE, w) && exists at: Time :: at > 0 && w == Begun(Initial(CORE), "i", "t", cap, "m", async, at)
    ensures View(w.log) == map["t" := Running("m", 1)]
  {
    EmptyReachable(CORE);
    assert View(EMPTY_LOG) == map[];
    var at := Begins(CORE, Initial(CORE), "i", "t", cap, "m", async);
    w := Begun(Initial(CORE), "i", "t", cap, "m", async, at);
  }

  /** The log of that world, and what else it holds. */
  ghost predicate IsFirst(w: World, cap: string, async: bool) {
    && w.log.order == ["i"] && w.log.records == map["i" := InvokeRecord("i", "t", cap, "m", "", 1)]
    && w.log.started.Keys == {"t"} && w.rows == CORE && w.hops == {} && w.notes == map[] && w.lock.Free?
    && w.ids == {"i"} && w.tokens == {"t"}
    && w.calls == map["i" := P.Call("t", "m", async, P.Routing)]
    && w.exec == map["t" := P.Execution("m", {"m"})]
  }

  lemma FirstIs(w: World, cap: string, async: bool, at: Time)
    requires w == Begun(Initial(CORE), "i", "t", cap, "m", async, at)
    ensures IsFirst(w, cap, async)
  {
    BegunFields(Initial(CORE), "i", "t", cap, "m", async, at);
    assert w.calls == map["i" := w.calls["i"]];
  }

  lemma First(cap: string, async: bool) returns (w: World)
    requires Routes(CORE, cap, "m", async)
    ensures Reachable(CORE, w) && IsFirst(w, cap, async) && View(w.log) == map["t" := Running("m", 1)]
  {
    CoreRoutes();
    w := FirstBegins(cap, async);
    var at: Time :| at > 0 && w == Begun(Initial(CORE), "i", "t", cap, "m", async, at);
    FirstIs(w, cap, async, at);
  }

  const ACCEPTED := Response("i", "ok", Payload("", "", "", true), None)
  const REPLY := Response("i", "ok", Payload("", "", "", false), None)

  /** The log of "t" before the crowd: `id` is its only record that is no report. */
  lemma CrowdTrims(a: Log, b: Log, n: nat, next: Record)
    requires Chattered(a, b, "t", n) && b.Valid() && next.request.id !in b.records && next.request.jobToken != "t"
    requires forall id :: id in a.records ==> a.records[id].request.jobToken == "t"
    requires |a.order| + n == 2 * MAX_RECORDS - 1
    ensures var z := Added(b, next);
            && z.Valid() && |z.order| == 2 * MAX_RECORDS && a.order <= z.order && z.started == a.started
            && (forall id :: id in a.records ==> id in z.records && z.records[id] == a.records[id])
            && (forall id :: id in z.records && id !in a.records && id != next.request.id ==>
                  z.records[id].request.jobToken == "t" && Remark(z.records[id]))
            && (forall id :: id in z.records && id != next.request.id ==> z.records[id].request.jobToken == "t")
  {
    AddedValid(b, next);
  }

  lemma OpensAt(w: World, id: string, token: string, cap: string)
    ensures InvokedIn(w, id, token, cap, "m", true).log
            == Trimmed(Added(w.log, InvokeRecord(id, token, cap, "m", "", w.now + 1)), MAX_RECORDS)
  {
  }

  /** An accepted job runs on, and reports its progress. */
  lemma AcceptedRuns() returns (w: World)
    ensures Reachable(CORE, w) && w.log.order == ["i"] && w.log.records.Keys == {"i"}
    ensures w.log.records["i"].request.jobToken == "t" && w.log.records["i"].Done()
    ensures View(w.log) == map["t" := Running("m", 1)]
    ensures w.rows == CORE && w.ids == {"i"} && w.tokens == {"t"}
  {
    CoreRoutes();
    var first := First("c", true);
    Responds(CORE, first, "i", ACCEPTED);
    w := Responded(first, "i", ACCEPTED);
    assert Final(first.calls["i"], "i", ACCEPTED) == ACCEPTED;
  }

  lemma NoNumbers(ids: set<string>)
    requires ids <= {"i", "j", "n"}
    ensures forall k: nat :: Numbered(k) !in ids
  {
    NotNumbered("i");
    NotNumbered("j");
    NotNumbered("n");
  }

  /** An id that is no number stays fresh among numbers. */
  lemma StaysFresh(before: set<string>, after: set<string>, id: string)
    requires forall k :: k in after && k !in before ==> k == Numbered(|k|)
    requires id !in before && id != "" && id[0] != 'x'
    ensures id !in after
  {
    NotNumbered(id);
  }

  /** A crowd of its reports of progress, one short of the next trim. */
  lemma Crowds(w: World) returns (after: World)
    requires Reachable(CORE, w) && w.rows == CORE && 0 < |w.log.order| < MAX_RECORDS
    requires w.ids <= {"i", "n"} && w.tokens == {"t"} && "t" in LiveTokens(w.log.records)
    ensures Reachable(CORE, after) && View(after.log) == View(w.log) && after.rows == CORE && after.tokens == {"t"}
    ensures Chattered(w.log, after.log, "t", 2 * MAX_RECORDS - 1 - |w.log.order|) && "j" !in after.ids
  {
    var n := 2 * MAX_RECORDS - 1 - |w.log.order|;
    assert forall k: nat :: Numbered(k) !in w.ids by {
      NoNumbers(w.ids);
    }
    after := Chatters(CORE, w, "t", n);
    CrowdFresh(w.ids, after.ids, n);
  }

  lemma CrowdFresh(before: set<string>, after: set<string>, n: nat)
    requires before <= {"i", "n"} && forall k :: k in after && k !in before ==> |k| <= n && k == Numbered(|k|)
    ensures "j" !in after
  {
    StaysFresh(before, after, "j");
  }

  /** The cap does not protect running jobs: in a run an accepted job reports its progress
      until the next invoke's trim evicts its originating record, and with that the running
      job is taken for over. */
  lemma AcceptedJobLost() returns (w: World)
    ensures Reachable(CORE, w) && JobIs(w, "t", "running")
    ensures "j" !in w.ids && "u" !in w.tokens && Routes(w.rows, "c", "m", true)
    ensures Over(InvokedIn(w, "j", "u", "c", "m", true), "t")
  {
    CoreRoutes();
    var accepted := AcceptedRuns();
    w := Crowds(accepted);
    var next := InvokeRecord("j", "u", "c", "m", "", w.now + 1);
    FreshRecord(CORE, w, "j");
    CrowdEnds(accepted.log, w.log, next);
    RunsThenEnded(w, next);
  }

  /** One done record of "t", and then the crowd. */
  lemma CrowdEnds(a: Log, b: Log, next: Record)
    requires Chattered(a, b, "t", 2 * MAX_RECORDS - 2) && b.Valid() && a.order == ["i"] && a.records.Keys == {"i"}
    requires next.request.id !in b.records && next.request.jobToken != "t"
    requires a.records["i"].request.jobToken == "t" && a.records["i"].Done()
    ensures Added(b, next).Valid() && StageAt(Trimmed(Added(b, next), MAX_RECORDS), "t") == Some(Ended)
  {
    CrowdTrims(a, b, 2 * MAX_RECORDS - 2, next);
    LostToRemarks(Added(b, next), "i", next.request.id);
  }

  lemma RunsThenEnded(w: World, next: Record)
    requires w.log.Valid() && next == InvokeRecord("j", "u", "c", "m", "", w.now + 1) && Added(w.log, next).Valid()
    requires View(w.log) == map["t" := Running("m", 1)]
    requires StageAt(Trimmed(Added(w.log, next), MAX_RECORDS), "t") == Some(Ended)
    ensures JobIs(w, "t", "running") && Over(InvokedIn(w, "j", "u", "c", "m", true), "t")
  {
    OpensAt(w, "j", "u", "c");
    ViewTells(w, "t");
    StageTells(w, "t");
    T.TrimmedShape(Added(w.log, next), MAX_RECORDS);
    StageTells(InvokedIn(w, "j", "u", "c", "m", true), "t");
  }

  /** The oldest record is done, all else that carries "t" a remark: it is taken for over. */
  lemma LostToRemarks(z: Log, id: string, next: string)
    requires z.Valid() && |z.order| == 2 * MAX_RECORDS && z.order[0] == id && z.records[id].Done()
    requires forall k :: k in z.records && k != next ==> z.records[k].request.jobToken == "t"
    requires next in z.records && z.records[next].request.jobToken != "t"
    requires forall k :: k in z.records && k != id && k != next ==> Remark(z.records[k])
    ensures StageAt(Trimmed(z, MAX_RECORDS), "t") == Some(Ended)
  {
    T.EvictedEarly(z, MAX_RECORDS, 0);
    T.SomethingLeft(z, MAX_RECORDS, "t", next);
    T.TakenForOver(z, MAX_RECORDS, "t");
  }

  function HoppedBy(w: World, id: string, token: string, caller: string, cap: string, target: string): World
    requires token in w.exec
  {
    WithHop(w, Added(w.log, InvokeRecord(id, token, cap, target, caller, w.now + 1)), id, token, target)
  }

  /** A module its job was called into calls on, be it after the job's end. */
  lemma Hops(rows: Rows, w: World, id: string, token: string, caller: string, cap: string, target: string)
    requires Reachable(rows, w) && id !in w.ids && caller != "" && Short(w.log, 1)
    requires token in w.exec && caller in w.exec[token].modules && HopAdmitted(w.rows, caller, cap, target)
    requires KeepsItsJob(ByToken(w.log, token))
    ensures Enabled(w, HopIn(id, token, caller, cap, target))
    ensures Reachable(rows, HoppedBy(w, id, token, caller, cap, target))
    ensures View(HoppedBy(w, id, token, caller, cap, target).log) == View(w.log)
  {
    var r := InvokeRecord(id, token, cap, target, caller, w.now + 1);
    HopRecord(w, id, token, caller, cap, target);
    HopSpares(rows, w, r);
    Next(rows, w, HopIn(id, token, caller, cap, target));
  }

  lemma HopSpares(rows: Rows, w: World, r: Record)
    requires Reachable(rows, w) && r.request.id !in w.ids && r.caller != "" && Short(w.log, 1)
    requires r.request.cmd == "invoke" && !r.Done() && KeepsItsJob(ByToken(w.log, r.request.jobToken))
    ensures Opened(w.log, r, MAX_RECORDS) == Added(w.log, r) && TrimSpares(Added(w.log, r))
    ensures View(Added(w.log, r)) == View(w.log)
  {
    ReachableInv(rows, w);
    HopHasToken(w, r.request.jobToken);
    OpenedShort(w.log, r);
    HopAdded(w.log, r);
  }

  /** A token keeps its job while an invoke of it is on file. */
  lemma InvokeOnFile(log: Log, id: string)
    requires log.Valid() && id in log.records && log.records[id].request.cmd == "invoke"
    ensures KeepsItsJob(ByToken(log, log.records[id].request.jobToken))
  {
    var recs := ByToken(log, log.records[id].request.jobToken);
    GroupMembers(log.order, log.records, log.records[id].request.jobToken);
    assert log.records[id] in recs;
  }

  /** The module of a routed job has called on, and then the job was answered. */
  lemma HopOutlives() returns (w: World)
    ensures Reachable(CORE, w) && w.log.order == ["i", "n"] && w.log.records.Keys == {"i", "n"}
    ensures w.log.records["i"].request.jobToken == "t" && w.log.records["i"].Done()
    ensures w.log.records["n"].request == Request("n", "invoke", "t", Name("d")) && !w.log.records["n"].Done()
    ensures w.log.records["n"].target == "m" && "t" in w.log.started
    ensures View(w.log) == map["t" := Ended]
    ensures w.rows == CORE && w.ids == {"i", "n"} && w.tokens == {"t"}
  {
    CoreRoutes();
    var first := First("d", false);
    HopGoesOut(first);
    var hopped := HoppedBy(first, "n", "t", "m", "d", "m");
    HopOutlivesLog(first, hopped);
    FirstAnswered(hopped);
    w := Responded(hopped, "i", REPLY);
  }

  /** The answer to "i" ends the job of "t". */
  lemma FirstAnswered(w: World)
    requires Reachable(CORE, w) && View(w.log) == map["t" := Running("m", 1)] && CanRespond(w, "i")
    requires w.calls["i"].token == "t" && Final(w.calls["i"], "i", REPLY) == REPLY
    ensures Reachable(CORE, Responded(w, "i", REPLY))
    ensures View(Responded(w, "i", REPLY).log) == map["t" := Ended]
  {
    Responds(CORE, w, "i", REPLY);
  }

  lemma HopGoesOut(first: World)
    requires Reachable(CORE, first) && IsFirst(first, "d", false)
    ensures Reachable(CORE, HoppedBy(first, "n", "t", "m", "d", "m"))
    ensures View(HoppedBy(first, "n", "t", "m", "d", "m").log) == View(first.log)
  {
    CoreRoutes();
    ReachableValid(CORE, first);
    InvokeOnFile(first.log, "i");
    Hops(CORE, first, "n", "t", "m", "d", "m");
  }

  lemma HopOutlivesLog(first: World, hopped: World)
    requires IsFirst(first, "d", false) && hopped == HoppedBy(first, "n", "t", "m", "d", "m")
    ensures CanRespond(hopped, "i") && Final(hopped.calls["i"], "i", REPLY) == REPLY
    ensures hopped.calls["i"].token == "t"
    ensures var w := Responded(hopped, "i", REPLY);
            && w.log.order == ["i", "n"] && w.log.records.Keys == {"i", "n"}
            && w.log.records["i"].request.jobToken == "t" && w.log.records["i"].Done()
            && w.log.records["n"].request == Request("n", "invoke", "t", Name("d")) && !w.log.records["n"].Done()
            && w.log.records["n"].target == "m" && "t" in w.log.started
            && w.rows == CORE && w.ids == {"i", "n"} && w.tokens == {"t"}
  {
    FinalRecord(hopped, "i", REPLY);
  }

  /** Among remarks, with one other record of "t" gone, an open invoke makes it run. */
  lemma RevivedAmongRemarks(z: Log, id: string, gone: nat, next: string)
    requires z.Valid() && |z.order| == 2 * MAX_RECORDS && gone < MAX_RECORDS
    requires DoneId(z.records, z.order[gone]) && "t" in z.started
    requires id in z.records && z.records[id].request.cmd == "invoke" && !z.records[id].Done()
    requires z.records[id].request.jobToken == "t"
    requires next in z.records && z.records[next].request.jobToken != "t"
    requires forall k :: k in z.records && k != id && k != z.order[gone] && k != next ==> Remark(z.records[k])
    ensures StageAt(Trimmed(z, MAX_RECORDS), "t") == Some(Running(z.records[id].target, z.records[id].reqReceived))
  {
    T.EvictedEarly(z, MAX_RECORDS, gone);
    T.RevivedByTrim(z, MAX_RECORDS, z.records[id]);
  }

  /** Nor do terminal states last: in a run a job is answered while a hop of its module is
      still out, and once the trim of a later invoke has evicted the answered record the
      job runs again, now rooted where the hop went. */
  lemma FinishedJobRevived() returns (w: World)
    ensures Reachable(CORE, w) && Over(w, "t")
    ensures "j" !in w.ids && "u" !in w.tokens && Routes(w.rows, "c", "m", true)
    ensures JobIs(InvokedIn(w, "j", "u", "c", "m", true), "t", "running")
  {
    CoreRoutes();
    var ended := HopOutlives();
    w := Crowds(ended);
    var next := InvokeRecord("j", "u", "c", "m", "", w.now + 1);
    assert w.log.Valid() && "j" !in w.log.records by {
      FreshRecord(CORE, w, "j");
    }
    CrowdRevives(ended.log, w.log, next, "n", 0);
    EndedThenRuns(w, next);
  }

  /** Two records of "t", the one done and the other an open invoke, and then the crowd. */
  lemma CrowdRevives(a: Log, b: Log, next: Record, id: string, gone: nat)
    requires Chattered(a, b, "t", 2 * MAX_RECORDS - 3) && b.Valid() && |a.order| == 2 && gone < 2
    requires next.request.id !in b.records && next.request.jobToken != "t"
    requires forall k :: k in a.records ==> a.records[k].request.jobToken == "t" && (k == id || k == a.order[gone])
    requires DoneId(a.records, a.order[gone]) && "t" in a.started
    requires id in a.records && a.records[id].request.cmd == "invoke" && !a.records[id].Done()
    ensures Added(b, next).Valid()
    ensures StageAt(Trimmed(Added(b, next), MAX_RECORDS), "t")
            == Some(Running(a.records[id].target, a.records[id].reqReceived))
  {
    CrowdTrims(a, b, 2 * MAX_RECORDS - 3, next);
    RevivedAmongRemarks(Added(b, next), id, gone, next.request.id);
  }

  lemma EndedThenRuns(w: World, next: Record)
    requires w.log.Valid() && next == InvokeRecord("j", "u", "c", "m", "", w.now + 1) && Added(w.log, next).Valid()
    requires View(w.log) == map["t" := Ended]
    requires var s := StageAt(Trimmed(Added(w.log, next), MAX_RECORDS), "t"); s.Some? && s.value.Running?
    ensures Over(w, "t") && JobIs(InvokedIn(w, "j", "u", "c", "m", true), "t", "running")
  {
    OpensAt(w, "j", "u", "c");
    ViewTells(w, "t");
    StageTells(w, "t");
    T.TrimmedShape(Added(w.log, next), MAX_RECORDS);
    StageTells(InvokedIn(w, "j", "u", "c", "m", true), "t");
  }

  /** The module of a routed job has reported it done, and not yet answered it. */
  lemma ReportedDone() returns (w: World)
    ensures Reachable(CORE, w) && w.log.order == ["i", "n"] && w.log.records.Keys == {"i", "n"}
    ensures w.log.records["i"].request.jobToken == "t" && w.log.records["i"].request.cmd == "invoke"
    ensures !w.log.records["i"].Done() && w.log.records["n"].request.jobToken == "t" && w.log.records["n"].Done()
    ensures "t" in w.log.started && View(w.log) == map["t" := Ended]
    ensures w.rows == CORE && w.ids == {"i", "n"} && w.tokens == {"t"}
  {
    CoreRoutes();
    var first := First("d", false);
    ReportedDoneLog(first);
    ReportEndsFirst(first);
    w := ReportedOut(NotedBy(first, "n", "t", "m", EMPTY_REPORT.(state := "done")), "n", THANKS);
  }

  lemma ReportEndsFirst(first: World)
    requires Reachable(CORE, first) && IsFirst(first, "d", false) && View(first.log) == map["t" := Running("m", 1)]
    requires CanReportOut(NotedBy(first, "n", "t", "m", EMPTY_REPORT.(state := "done")), "n")
    ensures var w := ReportedOut(NotedBy(first, "n", "t", "m", EMPTY_REPORT.(state := "done")), "n", THANKS);
            Reachable(CORE, w) && View(w.log) == map["t" := Ended]
  {
    assert first.log.records["i"].request.jobToken == "t";
    Reports(CORE, first, "n", "t", "m", EMPTY_REPORT.(state := "done"));
    Thanks(CORE, NotedBy(first, "n", "t", "m", EMPTY_REPORT.(state := "done")), "n");
  }

  lemma ReportedDoneLog(first: World)
    requires IsFirst(first, "d", false)
    ensures var noted := NotedBy(first, "n", "t", "m", EMPTY_REPORT.(state := "done"));
            && CanReportOut(noted, "n")
            && var w := ReportedOut(noted, "n", THANKS);
               && w.log.order == ["i", "n"] && w.log.records.Keys == {"i", "n"}
               && w.log.records["i"].request.jobToken == "t" && w.log.records["i"].request.cmd == "invoke"
               && !w.log.records["i"].Done()
               && w.log.records["n"].request.jobToken == "t" && w.log.records["n"].Done()
               && "t" in w.log.started && w.rows == CORE && w.ids == {"i", "n"} && w.tokens == {"t"}
  {
  }

  /** The report that ended a job may go while its open invoke stays: in a run a module
      reports its job done and goes on remarking on it, until the trim of a later invoke
      evicts the report and the job runs again. */
  lemma ReportedJobRevived() returns (w: World)
    ensures Reachable(CORE, w) && Over(w, "t")
    ensures "j" !in w.ids && "u" !in w.tokens && Routes(w.rows, "c", "m", true)
    ensures JobIs(InvokedIn(w, "j", "u", "c", "m", true), "t", "running")
  {
    CoreRoutes();
    var ended := ReportedDone();
    w := Crowds(ended);
    var next := InvokeRecord("j", "u", "c", "m", "", w.now + 1);
    assert w.log.Valid() && "j" !in w.log.records by {
      FreshRecord(CORE, w, "j");
    }
    CrowdRevives(ended.log, w.log, next, "i", 1);
    EndedThenRuns(w, next);
  }

  // -------------------------------------------------- a hop on a forgotten token

  ghost predicate NoneWaits(jobs: map<string, Stage>) {
    forall t :: t in jobs ==> !jobs[t].Queued?
  }

  function SettledBy(w: World, id: string, now: Time): World {
    w.(calls := w.calls - {id}, now := now)
  }

  /** An answered call advances the queue, in which nobody waits, and is gone. */
  lemma Settles(rows: Rows, w: World, id: string) returns (now: Time)
    requires Reachable(rows, w) && w.lock.Free? && NoneWaits(View(w.log))
    requires id in w.calls && w.calls[id].phase == P.Finishing
    ensures now > w.now && Reachable(rows, SettledBy(w, id, now))
  {
    assert id !in w.notes by {
      ReachableInv(rows, w);
    }
    assert P.IsQueue(View(w.log), []);
    var at := Plans(rows, w, id, []);
    assert Choose(w.rows, [], P.Reserved(Abs(w)), 0).promote == [];
    var planned := Holding(w, P.Starting(id, []), at);
    Next(rows, planned, Release);
    now := at + 1;
    ReleasedSettles(w, planned, id);
  }

  lemma ReleasedSettles(w: World, planned: World, id: string)
    requires planned == Holding(w, P.Starting(id, []), planned.now) && w.lock.Free?
    requires id in w.calls && w.calls[id].phase == P.Finishing && id !in w.notes
    ensures Released(planned) == SettledBy(w, id, planned.now + 1)
  {
    assert w.notes - {id} == w.notes;
  }

  /** The job of "t" came and went, and nothing is going on. */
  lemma CameAndWent() returns (w: World)
    ensures Reachable(CORE, w) && View(w.log) == map["t" := Ended] && w.lock.Free?
    ensures w.log.order == ["i"] && w.log.records.Keys == {"i"} && w.log.records["i"].Done()
    ensures w.log.records["i"].request.jobToken == "t" && w.log.started.Keys == {"t"}
    ensures w.rows == CORE && w.ids == {"i"} && w.tokens == {"t"}
    ensures w.calls == map[] && w.notes == map[] && w.exec == map["t" := P.Execution("m", {"m"})]
  {
    CoreRoutes();
    var first := First("d", false);
    assert Final(first.calls["i"], "i", REPLY) == REPLY;
    FirstAnswered(first);
    var answered := Responded(first, "i", REPLY);
    var now := Settles(CORE, answered, "i");
    w := SettledBy(answered, "i", now);
  }

  /** The log of "t" gone by, behind it the open invoke of "u", and remarks on that. */
  ghost predicate Behind(log: Log) {
    && log.order != [] && log.order[0] == "i" && "i" in log.records && "j" in log.records
    && log.records["i"].request.jobToken == "t" && log.records["i"].Done()
    && log.records["j"].request == Request("j", "invoke", "u", Name("d")) && !log.records["j"].Done()
    && (forall k :: k in log.records && k != "i" && k != "j" ==>
          log.records[k].request.jobToken == "u" && Remark(log.records[k]))
  }

  ghost predicate OneGoneOneRuns(jobs: map<string, Stage>) {
    && "t" in jobs && jobs["t"] == Ended && "u" in jobs && jobs["u"].Running?
    && forall t :: t in jobs ==> t == "t" || t == "u"
  }

  /** What else holds then: the call of "u" is out, and "t" has been executed. */
  ghost predicate CallOut(w: World) {
    && w.rows == CORE && w.lock.Free? && w.calls == map["j" := P.Call("u", "m", false, P.Routing)]
    && "t" in w.exec && w.exec["t"] == P.Execution("m", {"m"})
  }

  /** The next job runs, and its open invoke stands behind the one that went. */
  lemma NextBegins() returns (w: World)
    ensures Reachable(CORE, w) && OneGoneOneRuns(View(w.log)) && CallOut(w) && w.notes == map[]
    ensures |w.log.order| == 2 && Behind(w.log) && w.ids == {"i", "j"}
  {
    var calm := CameAndWent();
    var at := SecondBegins(calm);
    w := Begun(calm, "j", "u", "d", "m", false, at);
    BegunFields(calm, "j", "u", "d", "m", false, at);
    NextBehind(calm, w, at);
  }

  lemma SecondBegins(calm: World) returns (at: Time)
    requires Reachable(CORE, calm) && View(calm.log) == map["t" := Ended] && calm.lock.Free? && calm.rows == CORE
    requires calm.ids == {"i"} && calm.tokens == {"t"} && Short(calm.log, 1)
    ensures Reachable(CORE, Begun(calm, "j", "u", "d", "m", false, at))
    ensures OneGoneOneRuns(View(Begun(calm, "j", "u", "d", "m", false, at).log))
  {
    CoreRoutes();
    at := Begins(CORE, calm, "j", "u", "d", "m", false);
  }

  lemma NextBehind(calm: World, w: World, at: Time)
    requires calm.log.order == ["i"] && calm.log.records.Keys == {"i"} && calm.log.records["i"].Done()
    requires calm.log.records["i"].request.jobToken == "t" && calm.rows == CORE && calm.calls == map[]
    requires calm.exec == map["t" := P.Execution("m", {"m"})]
    requires w == Begun(calm, "j", "u", "d", "m", false, at)
    ensures |w.log.order| == 2 && Behind(w.log) && CallOut(w)
  {
    BegunFields(calm, "j", "u", "d", "m", false, at);
    assert w.calls == map["j" := w.calls["j"]];
  }

  lemma BehindStays(a: Log, b: Log, n: nat)
    requires Behind(a) && Chattered(a, b, "u", n)
    ensures Behind(b)
  {
  }

  /** The crowd of its remarks, one short of the next trim. */
  lemma RemarksOnNext() returns (w: World)
    ensures Reachable(CORE, w) && OneGoneOneRuns(View(w.log)) && CallOut(w) && w.notes == map[]
    ensures |w.log.order| == 2 * MAX_RECORDS - 1 && Behind(w.log) && "n" !in w.ids && "h" !in w.ids
  {
    var next := NextBegins();
    w := RemarksOn(next);
    BehindStays(next.log, w.log, 2 * MAX_RECORDS - 3);
    LettersStayFresh(next.ids, w.ids);
  }

  lemma LettersStayFresh(before: set<string>, after: set<string>)
    requires before <= {"i", "j"} && forall k :: k in after && k !in before ==> k == Numbered(|k|)
    ensures "n" !in after && "h" !in after
  {
    StaysFresh(before, after, "n");
    StaysFresh(before, after, "h");
  }

  lemma RemarksOn(next: World) returns (w: World)
    requires Reachable(CORE, next) && |next.log.order| == 2 && Behind(next.log) && next.ids == {"i", "j"}
    ensures Reachable(CORE, w) && View(w.log) == View(next.log)
    ensures Chattered(next.log, w.log, "u", 2 * MAX_RECORDS - 3)
    ensures w == next.(log := w.log, ids := w.ids, now := w.now)
    ensures forall k :: k in w.ids && k !in next.ids ==> k == Numbered(|k|)
  {
    NoNumbers(next.ids);
    assert next.log.records["j"].request.jobToken == "u";
    w := Chatters(CORE, next, "u", 2 * MAX_RECORDS - 3);
  }

  /** What the trim leaves: the second job's invoke, its later remarks, and the report. */
  ghost predicate Trims(z: Log) {
    && z.Valid() && |z.order| == 2 * MAX_RECORDS && z.order[0] == "i"
    && {"i", "j", "n"} <= z.records.Keys
    && z.records["i"].request.jobToken == "t" && z.records["i"].Done()
    && z.records["j"].request == Request("j", "invoke", "u", Name("d")) && !z.records["j"].Done()
    && z.records["n"].request.jobToken == "u" && z.records["n"].request.cmd == "job_update" && !z.records["n"].Done()
    && (forall k :: k in z.records && k != "i" && k != "j" && k != "n" ==>
          z.records[k].request.jobToken == "u" && Remark(z.records[k]))
  }

  lemma FirstForgotten(z: Log)
    requires Trims(z)
    ensures T.Left(z, MAX_RECORDS, "t") == [] && OffFile(Trimmed(z, MAX_RECORDS), "t")
  {
    var after := Trimmed(z, MAX_RECORDS);
    T.EvictedEarly(z, MAX_RECORDS, 0);
    T.LeftMembers(z, MAX_RECORDS, "t");
    var left := T.Left(z, MAX_RECORDS, "t");
    assert left != [] ==> left[0] in left;
    T.TrimmedIsLeft(z, MAX_RECORDS, "t");
    TrimExact(z, MAX_RECORDS);
    HasJob(after, "t");
  }

  lemma SecondSpared(z: Log)
    requires Trims(z)
    ensures ByToken(z, "u") != [] && T.OriginSurvives(z, MAX_RECORDS, "u")
  {
    var recs := ByToken(z, "u");
    GroupMembers(z.order, z.records, "u");
    assert z.records["j"] in recs;
    assert recs[OriginAt(recs)] in recs;
  }

  lemma TrimIsSparing(z: Log)
    requires Trims(z) && OneGoneOneRuns(View(z))
    ensures TrimSpares(z)
  {
    FirstForgotten(z);
    SecondSpared(z);
    ViewAt(z);
  }

  lemma {:induction false} OpenAtMost(order: seq<string>, records: map<string, Record>, open: set<string>)
    requires forall i, k :: 0 <= i < k < |order| ==> order[i] != order[k]
    requires forall id :: id in order && !DoneId(records, id) ==> id in open
    ensures OpenCount(order, records) <= |open|
  {
    if order != [] {
      assert order == [order[0]] + order[1..] && order[0] !in order[1..];
      OpenAtMost(order[1..], records, open - {order[0]});
    }
  }

  lemma TrimShortens(z: Log)
    requires Trims(z)
    ensures Trimmed(z, MAX_RECORDS).Valid() && Short(Trimmed(z, MAX_RECORDS), 1)
  {
    OpenAtMost(z.order, z.records, {"j", "n"});
    TrimExact(z, MAX_RECORDS);
  }

  lemma RemarkTrims(log: Log, r: Record)
    requires log.Valid() && Behind(log) && |log.order| == 2 * MAX_RECORDS - 1 && "n" !in log.records
    requires r.request.id == "n" && r.request.jobToken == "u" && r.request.cmd == "job_update" && !r.Done()
    ensures Trims(Added(log, r))
  {
    AddedValid(log, r);
  }

  /** The opening of one more is followed by a trim, which forgets "t" and harms no other. */
  lemma TrimForgetsFirst() returns (w: World)
    ensures Reachable(CORE, w) && CallOut(w) && w.notes == map["n" := P.Note("u", false, false)]
    ensures "n" in w.log.records && OffFile(w.log, "t") && Short(w.log, 1) && "h" !in w.ids
    ensures forall t :: t in View(w.log) ==> t == "u" || View(w.log)[t].Ended?
  {
    var before := RemarksOnNext();
    var r := ReportRecord("n", "u", "m", EMPTY_REPORT, before.now + 1);
    RemarkForgets(before, r);
    TrimmingReport(before, r);
    TrimmedWorld(before, r);
    w := ReportedIn(before, "n", "u", "m", EMPTY_REPORT);
  }

  lemma RemarkForgets(before: World, r: Record)
    requires Reachable(CORE, before) && OneGoneOneRuns(View(before.log)) && "n" !in before.ids
    requires |before.log.order| == 2 * MAX_RECORDS - 1 && Behind(before.log)
    requires r == ReportRecord("n", "u", "m", EMPTY_REPORT, before.now + 1)
    ensures TrimSpares(Added(before.log, r))
    ensures var after := Trimmed(Added(before.log, r), MAX_RECORDS);
            && "n" in after.records && OffFile(after, "t") && Short(after, 1)
            && forall t :: t in View(after) ==> t == "u" || View(after)[t].Ended?
  {
    assert before.log.Valid() && Rooting(before.log) && "n" !in before.log.records by {
      ReachableInv(CORE, before);
    }
    RemarkTrims(before.log, r);
    RemarkSpares(before.log, r);
  }

  lemma TrimmingReport(before: World, r: Record)
    requires Reachable(CORE, before) && Behind(before.log) && "n" !in before.ids
    requires r == ReportRecord("n", "u", "m", EMPTY_REPORT, before.now + 1) && TrimSpares(Added(before.log, r))
    ensures Reachable(CORE, ReportedIn(before, "n", "u", "m", EMPTY_REPORT))
  {
    ReachableValid(CORE, before);
    assert before.log.records["j"].request.jobToken == "u";
    HasJob(before.log, "u");
    Next(CORE, before, ReportIn("n", "u", "m", EMPTY_REPORT));
  }

  lemma TrimmedWorld(before: World, r: Record)
    requires r == ReportRecord("n", "u", "m", EMPTY_REPORT, before.now + 1) && before.notes == map[]
    ensures var w := ReportedIn(before, "n", "u", "m", EMPTY_REPORT);
            w == before.(log := Trimmed(Added(before.log, r), MAX_RECORDS), now := before.now + 1,
                         notes := map["n" := P.Note("u", false, false)], ids := before.ids + {"n"})
  {
    NoteRecord(before, "n", "u", "m", EMPTY_REPORT);
  }

  /** What that trim does to the log. */
  lemma RemarkSpares(log: Log, r: Record)
    requires log.Valid() && Rooting(log) && OneGoneOneRuns(View(log)) && r.request.id !in log.records
    requires r.request.cmd == "job_update" && UpdateReport(r.request).state == "" && r.request.jobToken == "u"
    requires Trims(Added(log, r))
    ensures TrimSpares(Added(log, r))
    ensures var after := Trimmed(Added(log, r), MAX_RECORDS);
            && "n" in after.records && OffFile(after, "t") && Short(after, 1)
            && forall t :: t in View(after) ==> t == "u" || View(after)[t].Ended?
  {
    var z := Added(log, r);
    RemarkView(log, r);
    TrimIsSparing(z);
    FirstForgotten(z);
    TrimShortens(z);
    TrimForgets(z);
    TrimmedValid(z);
    assert OpenIn(z, "n");
  }

  lemma RemarkView(log: Log, r: Record)
    requires log.Valid() && Rooting(log) && OneGoneOneRuns(View(log)) && r.request.id !in log.records
    requires r.request.cmd == "job_update" && UpdateReport(r.request).state == "" && r.request.jobToken == "u"
    ensures View(Added(log, r)) == View(log) && Rooting(Added(log, r))
  {
    ViewAt(log);
    ReportAdded(log, r);
  }

  /** Then its job is answered, and nothing is going on. */
  lemma AllGone() returns (w: World)
    ensures Reachable(CORE, w) && w.rows == CORE && w.calls == map[] && w.notes == map[]
    ensures "t" in w.exec && w.exec["t"] == P.Execution("m", {"m"})
    ensures OffFile(w.log, "t") && Short(w.log, 1) && "h" !in w.ids && NoneLive(View(w.log))
  {
    var trimmed := TrimForgetsFirst();
    Thanks(CORE, trimmed, "n");
    var thanked := ReportedOut(trimmed, "n", THANKS);
    ThanksLeaves(trimmed);
    Responds(CORE, thanked, "j", REPLY);
    var answered := Responded(thanked, "j", REPLY);
    AnswerLeaves(thanked);
    var now := Settles(CORE, answered, "j");
    w := SettledBy(answered, "j", now);
    StaysOffFile(CORE, trimmed, thanked, "n", THANKS, trimmed.now + 1);
    StaysOffFile(CORE, thanked, answered, "j", REPLY.(id := "j"), thanked.now + 1);
  }

  lemma ThanksLeaves(w: World)
    requires CallOut(w) && w.notes == map["n" := P.Note("u", false, false)]
    ensures var after := ReportedOut(w, "n", THANKS);
            && CallOut(after) && after.notes == map[] && after.ids == w.ids
            && after.log == Completed(w.log, "n", THANKS, w.now + 1)
  {
    assert w.notes - {"n"} == map[];
  }

  lemma AnswerLeaves(w: World)
    requires CallOut(w)
    ensures CanRespond(w, "j") && Answers(Final(w.calls["j"], "j", REPLY))
    ensures var after := Responded(w, "j", REPLY);
            && after.calls == map["j" := P.Call("u", "m", false, P.Finishing)]
            && after.rows == w.rows && after.exec == w.exec && after.ids == w.ids && after.notes == w.notes
            && after.lock.Free? && after.log == Completed(w.log, "j", REPLY.(id := "j"), w.now + 1)
  {
    FinalRecord(w, "j", REPLY);
    assert Final(w.calls["j"], "j", REPLY) == REPLY.(id := "j");
  }

  /** Filing a response brings no token back. */
  lemma StaysOffFile(rows: Rows, w: World, after: World, id: string, resp: Response, now: Time)
    requires Reachable(rows, w) && Reachable(rows, after) && after.log == Completed(w.log, id, resp, now)
    requires OffFile(w.log, "t") && Short(w.log, 1)
    ensures OffFile(after.log, "t") && Short(after.log, 1)
  {
    ReachableValid(rows, w);
    ReachableValid(rows, after);
    HasJob(w.log, "t");
    HasJob(after.log, "t");
    SameTokens(w.log, id, resp, now);
  }

  lemma SameTokens(log: Log, id: string, resp: Response, now: Time)
    ensures LiveTokens(Completed(log, id, resp, now).records) == LiveTokens(log.records)
  {
    var after := Completed(log, id, resp, now).records;
    forall t ensures t in LiveTokens(after) <==> t in LiveTokens(log.records) {
      if t in LiveTokens(log.records) {
        var k :| k in log.records && log.records[k].request.jobToken == t;
        assert after[k].request.jobToken == t;
      }
      if t in LiveTokens(after) {
        var k :| k in after && after[k].request.jobToken == t;
        assert log.records[k].request.jobToken == t;
      }
    }
  }

  lemma RestsWhenGone(w: World)
    requires w.log.Valid() && w.calls == map[] && w.notes == map[] && NoneLive(View(w.log))
    ensures AtRest(w)
  {
    forall t ensures !JobIs(w, t, "running") {
      JobIsStage(w, t);
    }
  }

  /** Hops need something on file: a run gets to rest with a job forgotten whose module is
      still at work, and the hop that the gate then lets through strands a queued job. */
  lemma ForgottenHopReached() returns (w: World)
    ensures Reachable(CORE, w) && AtRest(w) && OffFile(w.log, "t") && "h" !in w.ids
    ensures MayCall(w, "t", "m") && HopAdmitted(w.rows, "m", "d", "m")
    ensures var after := HoppedIn(w, "h", "t", "m", "d", "m"); JobIs(after, "t", "queued") && AtRest(after)
  {
    CoreRoutes();
    w := AllGone();
    ReachableValid(CORE, w);
    FreshRecord(CORE, w, "h");
    RestsWhenGone(w);
    ForgottenHopStrands(w, "h", "t", "m", "d", "m");
  }

  /** A job of the token was routed, and the module was called into for it. */
  ghost predicate MayCall(w: World, token: string, caller: string) {
    caller != "" && token in w.exec && caller in w.exec[token].modules
  }

  // -------------------------------------------------- a hop out of place

  /** A reservation ends with its job: a run gets to where a hop of an ended job is let
      into the footprint of a running one. */
  lemma EndedJobsIntrude(rows: Rows, c: string, cap: string, async: bool) returns (w: World)
    requires HandlersReserved(rows) && c != "" && Routes(rows, cap, c, async)
    ensures Reachable(rows, w) && Over(w, "s") && JobIs(w, "t", "running")
    ensures Enabled(w, HopIn("h", "s", c, cap, c)) && c in FootprintOf(w.rows, TargetOf(w, "t"))
  {
    var ended := EndsByReport(rows, c, cap, async);
    var at := Begins(rows, ended, "j", "t", cap, c, async);
    w := Begun(ended, "j", "t", cap, c, async, at);
    NextBegun(rows, ended, w, c, cap, async, at);
    LateHop(rows, w, c, cap);
    OverAndRunning(rows, w, c);
    RootInside(w.rows, c);
  }

  lemma NextBegun(rows: Rows, ended: World, w: World, c: string, cap: string, async: bool, at: Time)
    requires WasReported(rows, ended, c) && w == Begun(ended, "j", "t", cap, c, async, at)
    ensures w.rows == rows && "h" !in w.ids && Short(w.log, 1) && "s" in w.exec && c in w.exec["s"].modules
    ensures "i" in w.log.records && w.log.records["i"].request.cmd == "invoke"
    ensures w.log.records["i"].request.jobToken == "s"
  {
    BegunFields(ended, "j", "t", cap, c, async, at);
  }

  lemma LateHop(rows: Rows, w: World, c: string, cap: string)
    requires Reachable(rows, w) && "h" !in w.ids && Short(w.log, 1) && "s" in w.exec && c in w.exec["s"].modules
    requires "i" in w.log.records && w.log.records["i"].request.cmd == "invoke" && c != ""
    requires w.log.records["i"].request.jobToken == "s" && HopAdmitted(w.rows, c, cap, c)
    ensures Enabled(w, HopIn("h", "s", c, cap, c))
  {
    ReachableValid(rows, w);
    InvokeOnFile(w.log, "i");
    Hops(rows, w, "h", "s", c, cap, c);
  }

  lemma OverAndRunning(rows: Rows, w: World, c: string)
    requires Reachable(rows, w) && "s" in View(w.log) && View(w.log)["s"] == Ended
    requires "t" in View(w.log) && View(w.log)["t"].Running? && View(w.log)["t"].root == c
    ensures Over(w, "s") && JobIs(w, "t", "running") && TargetOf(w, "t") == c
  {
    ReachableValid(rows, w);
    ViewTells(w, "s");
    ViewTells(w, "t");
    StageTells(w, "s");
    StageTells(w, "t");
  }

  /** The job of "s" was routed, and its module has reported it done. */
  lemma EndsByReport(rows: Rows, c: string, cap: string, async: bool) returns (w: World)
    requires HandlersReserved(rows) && Routes(rows, cap, c, async)
    ensures Reachable(rows, w) && View(w.log) == map["s" := Ended] && WasReported(rows, w, c)
  {
    var begun := BeginsFirst(rows, c, cap, async);
    ReportedWorld(rows, begun, c);
    ReportsDone(rows, begun, c);
    w := ReportedOut(NotedBy(begun, "n", "s", c, EMPTY_REPORT.(state := "done")), "n", THANKS);
  }

  lemma ReportsDone(rows: Rows, begun: World, c: string)
    requires Reachable(rows, begun) && View(begun.log) == map["s" := Running(c, 1)] && "n" !in begun.ids
    requires "i" in begun.log.records && begun.log.records["i"].request.jobToken == "s" && Short(begun.log, 1)
    requires CanReportOut(NotedBy(begun, "n", "s", c, EMPTY_REPORT.(state := "done")), "n")
    ensures var w := ReportedOut(NotedBy(begun, "n", "s", c, EMPTY_REPORT.(state := "done")), "n", THANKS);
            Reachable(rows, w) && View(w.log) == map["s" := Ended]
  {
    Reports(rows, begun, "n", "s", c, EMPTY_REPORT.(state := "done"));
    Thanks(rows, NotedBy(begun, "n", "s", c, EMPTY_REPORT.(state := "done")), "n");
  }

  ghost predicate WasReported(rows: Rows, w: World, c: string) {
    && w.rows == rows && w.lock.Free? && w.ids == {"i", "n"} && w.tokens == {"s"} && |w.log.order| == 2
    && "s" in w.exec && c in w.exec["s"].modules
    && "i" in w.log.records && w.log.records["i"].request.cmd == "invoke"
    && w.log.records["i"].request.jobToken == "s"
  }

  lemma BeginsFirst(rows: Rows, c: string, cap: string, async: bool) returns (w: World)
    requires HandlersReserved(rows) && Routes(rows, cap, c, async)
    ensures Reachable(rows, w) && View(w.log) == map["s" := Running(c, 1)]
    ensures w.rows == rows && w.lock.Free? && w.ids == {"i"} && w.tokens == {"s"} && w.notes == map[]
    ensures w.log.order == ["i"] && w.log.records == map["i" := InvokeRecord("i", "s", cap, c, "", 1)]
    ensures w.exec == map["s" := P.Execution(c, {c})]
  {
    EmptyReachable(rows);
    assert View(EMPTY_LOG) == map[];
    var at := Begins(rows, Initial(rows), "i", "s", cap, c, async);
    w := Begun(Initial(rows), "i", "s", cap, c, async, at);
    BegunFields(Initial(rows), "i", "s", cap, c, async, at);
  }

  lemma ReportedWorld(rows: Rows, begun: World, c: string)
    requires begun.rows == rows && begun.lock.Free? && begun.ids == {"i"} && begun.tokens == {"s"}
    requires begun.log.order == ["i"] && begun.log.records.Keys == {"i"}
    requires begun.log.records["i"].request.cmd == "invoke" && begun.log.records["i"].request.jobToken == "s"
    requires begun.exec == map["s" := P.Execution(c, {c})]
    ensures var noted := NotedBy(begun, "n", "s", c, EMPTY_REPORT.(state := "done"));
            CanReportOut(noted, "n") && WasReported(rows, ReportedOut(noted, "n", THANKS), c)
  {
  }

  // --------------------------------------------------------- out of turn

  /** The next stamp starts the job of `u` past the older queued job of `t`; and these
      are their roots. */
  ghost predicate Passing(w: World, t: string, u: string, a: string, b: string) {
    && CanStartNext(w) && JobIs(w, t, "queued") && JobIs(w, u, "queued")
    && SinceOf(w, t) < SinceOf(w, u) && TargetOf(w, t) == a && TargetOf(w, u) == b
    && JobIs(NextStarted(w), u, "running")
  }

  lemma Activates(rows: Rows, w: World, m: string)
    requires Reachable(rows, w) && m in w.rows
    ensures Reachable(rows, StateSet(w, m, Active))
  {
    Next(rows, w, SetState(m, Active));
  }

  lemma RoutedWhenActive(rows: Rows, now: Rows, m: string) returns (cap: string, async: bool)
    requires SameManifests(rows, now) && Routable(rows, m) && now[m].state == Active
    ensures Routes(now, cap, m, async)
  {
    RoutableStateAgnostic(rows, now, m);
    cap :| cap in now[m].handlers || (NoHandler(now, cap) && Declares(now, m, cap));
    async := AsyncOf(now[m], cap);
  }

  /** Three modules are active, and nothing has happened yet. */
  lemma ThreeActive(rows: Rows, a: string, b: string, c: string) returns (w: World)
    requires HandlersReserved(rows) && a in rows && b in rows && c in rows
    ensures Reachable(rows, w) && SameManifests(rows, w.rows) && w.log == EMPTY_LOG && w.lock.Free?
    ensures w.ids == {} && w.tokens == {} && View(w.log) == map[]
    ensures w.rows[a].state == Active && w.rows[b].state == Active && w.rows[c].state == Active
  {
    EmptyReachable(rows);
    var first := StateSet(Initial(rows), a, Active);
    Activates(rows, Initial(rows), a);
    var second := StateSet(first, b, Active);
    Activates(rows, first, b);
    w := StateSet(second, c, Active);
    Activates(rows, second, c);
  }

  /** One job runs, and two more wait. */
  ghost predicate OneAndTwo(w: World, c: string, a: string, b: string, m: Time, n: Time) {
    && View(w.log) == map["s" := Running(c, m), "t" := Queued(a, n), "u" := Queued(b, n + 1)]
    && w.lock.Free? && "j" in w.calls && w.calls["j"].phase == P.Entered
  }

  lemma OneRunsTwoWait(rows: Rows, a: string, b: string, c: string) returns (w: World, m: Time, n: Time)
    requires HandlersReserved(rows) && Routable(rows, a) && Routable(rows, b) && Routable(rows, c)
    ensures Reachable(rows, w) && OneAndTwo(w, c, a, b, m, n)
  {
    var start := ThreeActive(rows, a, b, c);
    var begun := OneBegins(rows, start, c);
    m, n := start.now + 1, begun.now + 1;
    var entered := OneWaits(rows, start.rows, begun, "j", "t", a);
    w := OneWaits(rows, start.rows, entered, "k", "u", b);
  }

  /** One more job enters the queue. */
  lemma OneWaits(rows: Rows, now: Rows, w: World, id: string, token: string, a: string) returns (after: World)
    requires Reachable(rows, w) && w.rows == now && SameManifests(rows, now)
    requires Routable(rows, a) && now[a].state == Active
    requires id !in w.ids && token != "" && token !in w.tokens && Short(w.log, 1)
    ensures Reachable(rows, after) && View(after.log) == View(w.log)[token := Queued(a, w.now + 1)]
    ensures after.rows == now && after.lock == w.lock && after.now == w.now + 1
    ensures after.ids == w.ids + {id} && after.tokens == w.tokens + {token} && |after.log.order| <= |w.log.order| + 1
    ensures id in after.calls && after.calls[id].phase == P.Entered
    ensures forall k :: k in w.calls && k != id ==> k in after.calls && after.calls[k] == w.calls[k]
  {
    var cap, async := RoutedWhenActive(rows, now, a);
    Enters(rows, w, id, token, cap, a, async);
    after := EnteredBy(w, id, token, cap, a, async);
  }

  lemma OneBegins(rows: Rows, start: World, c: string) returns (w: World)
    requires Reachable(rows, start) && SameManifests(rows, start.rows) && Routable(rows, c)
    requires start.log == EMPTY_LOG && View(start.log) == map[] && start.lock.Free?
    requires start.ids == {} && start.tokens == {} && start.rows[c].state == Active
    ensures Reachable(rows, w) && View(w.log) == map["s" := Running(c, start.now + 1)] && w.rows == start.rows
    ensures w.lock.Free? && w.ids == {"i"} && w.tokens == {"s"} && |w.log.order| == 1 && w.now > 0
  {
    var cap, async := RoutedWhenActive(rows, start.rows, c);
    var at := Begins(rows, start, "i", "s", cap, c, async);
    w := Begun(start, "i", "s", cap, c, async, at);
    BegunFields(start, "i", "s", cap, c, async, at);
  }

  lemma TwoInQueue(w: World, c: string, a: string, b: string, m: Time, n: Time)
    requires OneAndTwo(w, c, a, b, m, n)
    ensures P.IsQueue(View(w.log), [Waiting("t", a, n), Waiting("u", b, n + 1)])
    ensures P.Reserved(Abs(w)) == FootprintOf(w.rows, c)
  {
    QueueOfTwo(View(w.log), c, a, b, m, n);
    OneReserves(w, c, a, b, m, n);
  }

  lemma OneReserves(w: World, c: string, a: string, b: string, m: Time, n: Time)
    requires OneAndTwo(w, c, a, b, m, n)
    ensures P.Reserved(Abs(w)) == FootprintOf(w.rows, c)
  {
    OneOfThree(View(w.log), c, a, b, m, n);
    ReservedByOne(Abs(w), c);
  }

  lemma OneOfThree(jobs: map<string, Stage>, c: string, a: string, b: string, m: Time, n: Time)
    requires jobs == map["s" := Running(c, m), "t" := Queued(a, n), "u" := Queued(b, n + 1)]
    ensures RunsOnly(jobs, c)
  {
  }

  ghost predicate RunsOnly(jobs: map<string, Stage>, c: string) {
    "s" in jobs && jobs["s"].Running? && jobs["s"].root == c && forall t :: t in jobs && jobs[t].Running? ==> t == "s"
  }

  lemma QueueOfTwo(jobs: map<string, Stage>, c: string, a: string, b: string, m: Time, n: Time)
    requires jobs == map["s" := Running(c, m), "t" := Queued(a, n), "u" := Queued(b, n + 1)]
    ensures P.IsQueue(jobs, [Waiting("t", a, n), Waiting("u", b, n + 1)])
  {
  }

  lemma ReservedByOne(s: P.Sys, c: string)
    requires RunsOnly(s.jobs, c)
    ensures P.Reserved(s) == FootprintOf(s.rows, c)
  {
    forall x ensures x in P.Reserved(s) <==> x in FootprintOf(s.rows, c) {
      if x in P.Reserved(s) {
        var t :| t in s.jobs && s.jobs[t].Running? && x in FootprintOf(s.rows, s.jobs[t].root);
      }
    }
  }

  /** Unless whatever conflicts with `a` conflicts with `b`, a run gets to where a job
      rooted at `b` is started while an older one rooted at `a` waits. */
  lemma YoungerChosenPast(rows: Rows, a: string, b: string) returns (w: World)
    requires HandlersReserved(rows) && Routable(rows, a) && Routable(rows, b)
    requires !(Rivals(rows, a) <= Rivals(rows, b))
    ensures Reachable(rows, w) && Passing(w, "t", "u", a, b)
  {
    var c :| c in Rivals(rows, a) && c !in Rivals(rows, b);
    var waiting, m, n := OneRunsTwoWait(rows, a, b, c);
    w := ChoosesYounger(rows, waiting, a, b, c, m, n);
    PassingNow(rows, w, waiting, a, b, c, m, n);
  }

  lemma ChoosesYounger(rows: Rows, waiting: World, a: string, b: string, c: string, m: Time, n: Time)
    returns (w: World)
    requires Reachable(rows, waiting) && OneAndTwo(waiting, c, a, b, m, n)
    requires c in Rivals(rows, a) && c !in Rivals(rows, b)
    ensures Reachable(rows, w)
    ensures w == Holding(waiting, P.Starting("j", [Waiting("u", b, n + 1)]), w.now)
  {
    var older, younger := Waiting("t", a, n), Waiting("u", b, n + 1);
    TwoInQueue(waiting, c, a, b, m, n);
    assert SameManifests(rows, waiting.rows) && P.MayAdvance(Abs(waiting), "j") by {
      ReachableInv(rows, waiting);
    }
    RivalsStateAgnostic(rows, waiting.rows, a);
    RivalsStateAgnostic(rows, waiting.rows, b);
    OvertakesBeside(waiting.rows, older, younger, c);
    var at := Plans(rows, waiting, "j", [older, younger]);
    w := Holding(waiting, P.Starting("j", [younger]), at);
  }

  lemma PassingNow(rows: Rows, w: World, waiting: World, a: string, b: string, c: string, m: Time, n: Time)
    requires Reachable(rows, w) && OneAndTwo(waiting, c, a, b, m, n)
    requires w == Holding(waiting, P.Starting("j", [Waiting("u", b, n + 1)]), w.now)
    ensures Passing(w, "t", "u", a, b)
  {
    ReachableValid(rows, w);
    QueuedTells(w, "t", a, n);
    QueuedTells(w, "u", b, n + 1);
    NextStamps(w, "j", Waiting("u", b, n + 1));
    StampStarts(w, NextStarted(w), Waiting("u", b, n + 1));
  }

  lemma QueuedTells(w: World, t: string, a: string, n: Time)
    requires w.log.Valid() && t != "" && t in View(w.log) && View(w.log)[t] == Queued(a, n)
    ensures JobIs(w, t, "queued") && TargetOf(w, t) == a && SinceOf(w, t) == n
  {
    JobIsStage(w, t);
    assert P.Live(Abs(w), t);
  }

  lemma NextStamps(w: World, id: string, x: Waiting)
    requires w.lock == P.Starting(id, [x])
    ensures CanStartNext(w) && NextStarted(w).log == Started(w.log, x.token, w.now + 1)
  {
  }

  lemma StampStarts(w: World, after: World, x: Waiting)
    requires w.log.Valid() && x.token in View(w.log) && View(w.log)[x.token] == Queued(x.root, x.since)
    requires after.log == Started(w.log, x.token, w.now + 1)
    ensures JobIs(after, x.token, "running")
  {
    StampedStage(w.log, x, w.now + 1);
    StageTells(after, x.token);
  }

  lemma StampedStage(log: Log, x: Waiting, now: Time)
    requires log.Valid() && x.token in View(log) && View(log)[x.token] == Queued(x.root, x.since)
    ensures Started(log, x.token, now).Valid()
    ensures StageAt(Started(log, x.token, now), x.token) == Some(Running(x.root, x.since))
  {
    ViewAt(log);
    StartPromotes(log, x.token, now, x.token);
  }

  /** The condition of fairness is exact over the store's own runs: none starts a job
      rooted at `b` past an older queued one rooted at `a` if and only if one of them is
      never routed to, or whatever conflicts with `a` conflicts with `b`. */
  lemma FairIffRivals(rows: Rows, a: string, b: string)
    requires HandlersReserved(rows)
    ensures (Routable(rows, a) && Routable(rows, b) ==> Rivals(rows, a) <= Rivals(rows, b)) <==>
            forall w, t, u :: Reachable(rows, w) ==> !Passing(w, t, u, a, b)
  {
    if Routable(rows, a) && Routable(rows, b) ==> Rivals(rows, a) <= Rivals(rows, b) {
      forall w, t, u | Reachable(rows, w) ensures !Passing(w, t, u, a, b) {
        NotPassing(rows, w, t, u, a, b);
      }
    } else {
      var w := YoungerChosenPast(rows, a, b);
    }
  }

  lemma NotPassing(rows: Rows, w: World, t: string, u: string, a: string, b: string)
    requires Reachable(rows, w)
    requires Routable(rows, a) && Routable(rows, b) ==> Rivals(rows, a) <= Rivals(rows, b)
    ensures !Passing(w, t, u, a, b)
  {
    ReachableInv(rows, w);
    RivalsStateAgnostic(rows, w.rows, a);
    RivalsStateAgnostic(rows, w.rows, b);
    RoutableStateAgnostic(rows, w.rows, a);
    RoutableStateAgnostic(rows, w.rows, b);
    PassingShielded(w, t, u, a, b);
    if CanStartNext(w) {
      NotStartedPast(w, StartNext, t, u);
      StartedNow(w, u);
    }
  }

  /** Two jobs that wait are rooted where requests are routed. */
  lemma PassingShielded(w: World, t: string, u: string, a: string, b: string)
    requires Inv(w) && (Routable(w.rows, a) && Routable(w.rows, b) ==> Rivals(w.rows, a) <= Rivals(w.rows, b))
    ensures Passing(w, t, u, a, b) ==> StandingOf(w, t).Shields(StandingOf(w, u))
  {
    JobIsStage(w, t);
    JobIsStage(w, u);
    assert P.Waits(Abs(w), t) ==> P.Live(Abs(w), t);
    assert P.Waits(Abs(w), u) ==> P.Live(Abs(w), u);
  }

  lemma StartedNow(w: World, u: string)
    requires Inv(w) && CanStartNext(w)
    ensures JobIs(NextStarted(w), u, "running") ==> StandingOf(Apply(w, StartNext), u).Runs()
  {
    StepKeeps(w, StartNext);
    JobIsStage(Apply(w, StartNext), u);
  }

  // --------------------------------------------------------------- in turn

  /** Runs do start jobs: one invoke on an idle system runs once it is advanced. */
  lemma SomeRunStartsAJob() returns (w: World)
    ensures Reachable(CORE, w) && JobIs(w, "t", "running")
  {
    CoreRoutes();
    w := First("c", true);
    ReachableValid(CORE, w);
    ViewTells(w, "t");
    StageTells(w, "t");
  }
}
