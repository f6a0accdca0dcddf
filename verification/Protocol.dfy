/**
 The footprint lock protocol over the explicit job machine.  No lock table exists:
 a module is held because some running job's footprint covers it.  Every step here
 is atomic at the mutex that guards it in the source.  Advancing the queue is not
 one step: jobs enter, answer and report while one caller looks at token after token,
 chooses, and stamps job after job.
 */
module Protocol {
  import opened ModuleGraph
  import opened Jobs
  import opened Queue

  /** Where an originating invoke stands.  Entered and Finishing owe an advance. */
  datatype Phase = Entered | Parked | Routing | Expired | Finishing

  datatype Call = Call(token: string, target: string, async: bool, phase: Phase)

  /** A job_update in flight; a terminal one owes an advance once it is answered. */
  datatype Note = Note(token: string, ends: bool, answered: bool)

  /** The admission mutex, and how far its holder's advance has come: token by token it
      looks for the queued jobs, then for the running ones, and then starts its plan. */
  datatype Lock =
    | Free
    | Scanning(holder: string, todo: seq<string>, queue: seq<Waiting>)
    | Counting(holder: string, todo: seq<string>, queue: seq<Waiting>, busy: set<string>)
    | Starting(holder: string, plan: seq<Waiting>)

  /** Where a job once routed executes: its root, and every module it was called into. */
  datatype Execution = Execution(root: string, modules: set<string>)

  datatype Sys = Sys(rows: Rows, jobs: map<string, Stage>, calls: map<string, Call>, notes: map<string, Note>,
                     lock: Lock, exec: map<string, Execution>, clock: nat)

  datatype Event =
    | Enter(id: string, token: string, target: string, async: bool, since: nat)
    | Scan(actor: string, tokens: seq<string>)
    | Look
    | Order(queue: seq<Waiting>, tokens: seq<string>)
    | Choosing
    | StartNext
    | Release
    | Wake(id: string)
    | Expire(id: string)
    | Respond(id: string, ends: bool)
    | Hop(token: string, caller: string, cap: string, target: string)
    | Tell(id: string, token: string, ends: bool)
    | Told(id: string)
    | SetState(name: string, state: State)
    | Forget(gone: set<string>)

  function Initial(rows: Rows): Sys {
    Sys(rows, map[], map[], map[], Free, map[], 0)
  }

  // ---------------------------------------------------------------- the steps

  predicate Live(s: Sys, t: string) {
    t in s.jobs && s.jobs[t].Live()
  }

  predicate Waits(s: Sys, t: string) {
    t in s.jobs && s.jobs[t].Queued?
  }

  predicate Runs(s: Sys, t: string) {
    t in s.jobs && s.jobs[t].Running?
  }

  /** This actor still has to advance the queue. */
  predicate Owes(s: Sys, id: string) {
    || (id in s.calls && (s.calls[id].phase == Entered || s.calls[id].phase == Finishing))
    || (id in s.notes && s.notes[id].ends)
  }

  predicate MayAdvance(s: Sys, id: string) {
    Owes(s, id) && (id in s.notes ==> s.notes[id].answered)
  }

  /** What the lock's holder has found queued or still has to start. */
  function Listed(lock: Lock): seq<Waiting> {
    match lock
    case Free => []
    case Scanning(_, _, queue) => queue
    case Counting(_, _, queue, _) => queue
    case Starting(_, plan) => plan
  }

  /** The tokens it still has to look at. */
  function Todo(lock: Lock): seq<string> {
    match lock
    case Scanning(_, todo, _) => todo
    case Counting(_, todo, _, _) => todo
    case _ => []
  }

  predicate Distinct(tokens: seq<string>) {
    forall i, k :: 0 <= i < k < |tokens| ==> tokens[i] != tokens[k]
  }

  /** `tokens` names every job, each once. */
  ghost predicate NamesJobs(jobs: map<string, Stage>, tokens: seq<string>) {
    Distinct(tokens) && forall t :: t in tokens <==> t in jobs
  }

  /** A token nothing in the protocol has ever named. */
  ghost predicate Unused(s: Sys, token: string) {
    && token !in s.jobs && token !in s.exec
    && (forall id :: id in s.calls ==> s.calls[id].token != token)
    && (forall w :: w in Listed(s.lock) ==> w.token != token)
    && token !in Todo(s.lock)
  }

  ghost predicate ByAge(queue: seq<Waiting>) {
    forall i, k :: 0 <= i < k < |queue| ==> queue[i].since <= queue[k].since
  }

  /** `queue` lists the queued jobs, each once, oldest first. */
  ghost predicate IsQueue(jobs: map<string, Stage>, queue: seq<Waiting>) {
    && DistinctTokens(queue) && ByAge(queue)
    && (forall w :: w in queue ==> w.token in jobs && jobs[w.token] == Queued(w.root, w.since))
    && (forall t :: t in jobs && jobs[t].Queued? ==> Waiting(t, jobs[t].root, jobs[t].since) in queue)
  }

  /** The union of the running jobs' footprints. */
  ghost function Reserved(s: Sys): set<string> {
    set t, m | t in s.jobs && s.jobs[t].Running? && m in FootprintOf(s.rows, s.jobs[t].root) :: m
  }

  ghost predicate Enabled(s: Sys, e: Event) {
    match e
    case Enter(id, token, target, async, since) =>
      id !in s.calls && id !in s.notes && Unused(s, token) && Routable(s.rows, target) && since > s.clock
    case Scan(actor, tokens) => s.lock.Free? && MayAdvance(s, actor) && NamesJobs(s.jobs, tokens)
    case Look => Todo(s.lock) != []
    case Order(queue, tokens) =>
      && s.lock.Scanning? && s.lock.todo == []
      && multiset(queue) == multiset(s.lock.queue) && ByAge(queue) && NamesJobs(s.jobs, tokens)
    case Choosing => s.lock.Counting? && s.lock.todo == []
    case StartNext => s.lock.Starting? && s.lock.plan != []
    case Release => s.lock.Starting? && s.lock.plan == []
    case Wake(id) => s.lock.Free? && id in s.calls && s.calls[id].phase == Parked && !Waits(s, s.calls[id].token)
    case Expire(id) => s.lock.Free? && id in s.calls && s.calls[id].phase == Parked && !Runs(s, s.calls[id].token)
    case Respond(id, ends) =>
      && id in s.calls && (s.calls[id].phase == Routing || s.calls[id].phase == Expired)
      && (s.calls[id].phase == Expired ==> ends)
    case Hop(token, caller, cap, target) =>
      && token in s.exec && caller in s.exec[token].modules
      && HopAdmitted(s.rows, caller, cap, target)
    case Tell(id, token, ends) => id !in s.calls && id !in s.notes && token in s.jobs
    case Told(id) => id in s.notes && !s.notes[id].answered
    case SetState(name, state) => name in s.rows
    case Forget(gone) => forall t :: t in gone ==> t in s.jobs && s.jobs[t] == Ended
  }

  function Joined(x: Execution, target: string): Execution {
    x.(modules := x.modules + {target})
  }

  function End(jobs: map<string, Stage>, token: string, ends: bool): map<string, Stage> {
    if ends then jobs[token := Ended] else jobs
  }

  /** The stamp: a queued job runs, any other job is left alone. */
  function Promote(jobs: map<string, Stage>, t: string): map<string, Stage> {
    if t in jobs && jobs[t].Queued? then jobs[t := Running(jobs[t].root, jobs[t].since)] else jobs
  }

  /** After its advance a fresh call parks; a finished call or report is gone. */
  function Leave(s: Sys, id: string): Sys {
    if id in s.calls && s.calls[id].phase == Entered then
      s.(calls := s.calls[id := s.calls[id].(phase := Parked)])
    else s.(calls := s.calls - {id}, notes := s.notes - {id})
  }

  /** The next token's job is listed if it is queued, its footprint if it runs. */
  ghost function Looked(s: Sys): Lock
    requires Todo(s.lock) != []
  {
    var t, left := Todo(s.lock)[0], Todo(s.lock)[1..];
    if s.lock.Scanning? then
      Scanning(s.lock.holder, left,
               if Waits(s, t) then s.lock.queue + [Waiting(t, s.jobs[t].root, s.jobs[t].since)] else s.lock.queue)
    else
      Counting(s.lock.holder, left, s.lock.queue,
               if Runs(s, t) then s.lock.busy + FootprintOf(s.rows, s.jobs[t].root) else s.lock.busy)
  }

  ghost function Apply(s: Sys, e: Event): Sys
    requires Enabled(s, e)
  {
    match e
    case Enter(id, token, target, async, since) =>
      s.(jobs := s.jobs[token := Queued(target, since)], calls := s.calls[id := Call(token, target, async, Entered)],
         clock := since)
    case Scan(actor, tokens) => s.(lock := Scanning(actor, tokens, []))
    case Look => s.(lock := Looked(s))
    case Order(queue, tokens) => s.(lock := Counting(s.lock.holder, tokens, queue, {}))
    case Choosing => s.(lock := Starting(s.lock.holder, Plan(s.rows, s.lock.queue, s.lock.busy)))
    case StartNext =>
      s.(jobs := Promote(s.jobs, s.lock.plan[0].token), lock := Starting(s.lock.holder, s.lock.plan[1..]))
    case Release => Leave(s, s.lock.holder).(lock := Free)
    case Wake(id) =>
      s.(calls := s.calls[id := s.calls[id].(phase := Routing)],
         exec := s.exec[s.calls[id].token := Execution(s.calls[id].target, {s.calls[id].target})])
    case Expire(id) => s.(calls := s.calls[id := s.calls[id].(phase := Expired)])
    case Respond(id, ends) =>
      s.(jobs := End(s.jobs, s.calls[id].token, ends), calls := s.calls[id := s.calls[id].(phase := Finishing)])
    case Hop(token, caller, cap, target) => s.(exec := s.exec[token := Joined(s.exec[token], target)])
    case Tell(id, token, ends) =>
      s.(jobs := End(s.jobs, token, ends), notes := s.notes[id := Note(token, ends, false)])
    case Told(id) =>
      if s.notes[id].ends then s.(notes := s.notes[id := s.notes[id].(answered := true)])
      else s.(notes := s.notes - {id})
    case SetState(name, state) => s.(rows := s.rows[name := s.rows[name].(state := state)])
    case Forget(gone) => s.(jobs := s.jobs - gone)
  }

  // ----------------------------------------------------------- the invariants

  ghost predicate Meet(s: Sys, a: string, b: string) {
    exists m :: m in FootprintOf(s.rows, a) && m in FootprintOf(s.rows, b)
  }

  /** Two distinct running jobs have disjoint footprints. */
  ghost predicate Exclusive(s: Sys) {
    forall t, u :: t != u && Runs(s, t) && Runs(s, u) ==> !Meet(s, s.jobs[t].root, s.jobs[u].root)
  }

  /** An entry of the scan or plan still describes its job, if that has not ended. */
  ghost predicate Fits(s: Sys, w: Waiting) {
    Live(s, w.token) ==> s.jobs[w.token] == Queued(w.root, w.since)
  }

  /** What the admission mutex protects: its holder owes an advance, no job in the
      queue or plan runs yet, no running job is missed, and the plan can be started in
      full. */
  ghost predicate LockSound(s: Sys) {
    match s.lock
    case Free => true
    case Scanning(holder, todo, queue) =>
      && MayAdvance(s, holder) && Distinct(todo) && DistinctTokens(queue)
      && (forall w :: w in queue ==> Fits(s, w) && w.token !in todo)
    case Counting(holder, todo, queue, busy) =>
      && MayAdvance(s, holder) && DistinctTokens(queue) && ByAge(queue)
      && (forall w :: w in queue ==> Fits(s, w))
      && (forall t :: Runs(s, t) ==> t in todo || FootprintOf(s.rows, s.jobs[t].root) <= busy)
    case Starting(holder, plan) =>
      && MayAdvance(s, holder) && DistinctTokens(plan)
      && (forall w :: w in plan ==> Fits(s, w))
      && (forall w, t :: w in plan && Runs(s, t) ==> !Meet(s, w.root, s.jobs[t].root))
      && (forall i, k :: 0 <= i < k < |plan| ==> !Meet(s, plan[i].root, plan[k].root))
  }

  /** A call's target is the root of its job, and so is the root of its execution, which
      stays in that root's footprint even after the job has ended. */
  ghost predicate ExecSound(s: Sys) {
    && HandlersReserved(s.rows)
    && (forall id :: id in s.calls && Live(s, s.calls[id].token) ==>
          s.jobs[s.calls[id].token].root == s.calls[id].target)
    && (forall t :: t in s.exec ==> !Waits(s, t))
    && (forall t :: t in s.exec && Live(s, t) ==> s.exec[t].root == s.jobs[t].root)
    && (forall t :: t in s.exec ==> s.exec[t].modules <= FootprintOf(s.rows, s.exec[t].root))
  }

  /** Some actor other than the holder of the admission mutex owes an advance. */
  ghost predicate OtherOwes(s: Sys) {
    exists id :: Owes(s, id) && (s.lock.Free? || id != s.lock.holder)
  }

  ghost predicate Blocked(s: Sys, t: string)
    requires Waits(s, t)
  {
    exists u :: Runs(s, u) && Meet(s, s.jobs[t].root, s.jobs[u].root)
  }

  /** The job is still to be looked at, or in the queue or plan, or passed over for one
      in the plan. */
  ghost predicate Pending(s: Sys, t: string)
    requires Waits(s, t)
  {
    || (s.lock.Scanning? && t in s.lock.todo)
    || exists w :: w in Listed(s.lock) &&
         (w.token == t || (s.lock.Starting? && Meet(s, s.jobs[t].root, w.root)))
  }

  /** Unless someone else will still advance: what is listed is still queued, what was
      counted still runs, and every queued job is blocked by a running job or is being
      dealt with. */
  ghost predicate NoneForgotten(s: Sys) {
    || OtherOwes(s)
    || (&& (forall w :: w in Listed(s.lock) ==> Waits(s, w.token))
        && (s.lock.Counting? ==> s.lock.busy <= Reserved(s))
        && (forall t :: Waits(s, t) ==> Blocked(s, t) || Pending(s, t)))
  }

  /** The job waits, and the scan under way has missed it. */
  ghost predicate Missed(s: Sys, t: string)
    requires s.lock.Scanning?
  {
    Waits(s, t) && t !in s.lock.todo && forall w :: w in s.lock.queue ==> w.token != t
  }

  /** No promotion under way overtakes an older queued job all of whose rivals are its
      own: a scan misses only jobs younger than all it has found or will find. */
  ghost predicate Fair(s: Sys) {
    match s.lock
    case Free => true
    case Scanning(_, todo, queue) =>
      && (forall t, w :: Missed(s, t) && w in queue ==> w.since <= s.jobs[t].since)
      && (forall t, x :: Missed(s, t) && x in todo && Waits(s, x) ==> s.jobs[x].since <= s.jobs[t].since)
    case Counting(_, _, queue, busy) =>
      && Whole(s.rows, busy)
      && forall t, w :: Waits(s, t) && w in queue && s.jobs[t].since < w.since
           ==> Waiting(t, s.jobs[t].root, s.jobs[t].since) in queue
    case Starting(_, plan) =>
      forall t, w :: Waits(s, t) && w in plan && s.jobs[t].since < w.since
        ==> !(Rivals(s.rows, s.jobs[t].root) <= Rivals(s.rows, w.root))
  }

  /** Every job that lives, or is being dealt with, is rooted where a request can be
      routed. */
  ghost predicate RootsKnown(s: Sys) {
    Rooted(s.rows, Listed(s.lock)) && forall t :: Live(s, t) ==> Routable(s.rows, s.jobs[t].root)
  }

  ghost predicate Clocked(s: Sys) {
    && (forall t :: Live(s, t) ==> s.jobs[t].since <= s.clock)
    && (forall w :: w in Listed(s.lock) ==> w.since <= s.clock)
  }

  /** No id names both a call and a report. */
  ghost predicate IdsApart(s: Sys) {
    s.calls.Keys !! s.notes.Keys
  }

  ghost predicate Inv(s: Sys) {
    && Exclusive(s) && LockSound(s) && ExecSound(s)
    && NoneForgotten(s) && Fair(s) && RootsKnown(s) && Clocked(s) && IdsApart(s)
  }

  lemma InitialInv(rows: Rows)
    requires HandlersReserved(rows)
    ensures Inv(Initial(rows))
  {
  }

  // ------------------------------------------------------ mutual exclusion

  /** Every job that runs after the step ran before it, from the same root. */
  ghost predicate NoneStarts(s: Sys, s': Sys) {
    s'.rows == s.rows && forall t :: Runs(s', t) ==> Runs(s, t) && s'.jobs[t].root == s.jobs[t].root
  }

  lemma ExclusiveShrinks(s: Sys, s': Sys)
    requires Exclusive(s) && NoneStarts(s, s')
    ensures Exclusive(s')
  {
    forall t, u | t != u && Runs(s', t) && Runs(s', u) ensures !Meet(s', s'.jobs[t].root, s'.jobs[u].root) {
      assert !Meet(s, s.jobs[t].root, s.jobs[u].root);
    }
  }

  lemma StartNextExclusive(s: Sys)
    requires Exclusive(s) && LockSound(s) && s.lock.Starting? && s.lock.plan != []
    ensures Exclusive(Apply(s, StartNext))
  {
    var w := s.lock.plan[0];
    var s' := Apply(s, StartNext);
    assert w in s.lock.plan && Fits(s, w);
    forall t, u | t != u && Runs(s', t) && Runs(s', u) ensures !Meet(s', s'.jobs[t].root, s'.jobs[u].root) {
      if t == w.token && !Runs(s, t) {
        assert Runs(s, u) && !Meet(s, w.root, s.jobs[u].root);
      } else if u == w.token && !Runs(s, u) {
        assert Runs(s, t) && !Meet(s, w.root, s.jobs[t].root);
      } else {
        assert !Meet(s, s.jobs[t].root, s.jobs[u].root);
      }
    }
  }

  lemma ExclusiveKept(s: Sys, e: Event)
    requires Exclusive(s) && LockSound(s) && Enabled(s, e) && !e.SetState?
    ensures Exclusive(Apply(s, e))
  {
    if e.StartNext? {
      StartNextExclusive(s);
    } else {
      assert NoneStarts(s, Apply(s, e));
      ExclusiveShrinks(s, Apply(s, e));
    }
  }

  lemma LookLockSound(s: Sys)
    requires LockSound(s) && Enabled(s, Look)
    ensures LockSound(Apply(s, Look))
  {
    if s.lock.Scanning? {
      LookFindsSound(s);
    } else {
      assert Todo(s.lock) == [Todo(s.lock)[0]] + Todo(s.lock)[1..];
    }
  }

  lemma LookFindsSound(s: Sys)
    requires LockSound(s) && Enabled(s, Look) && s.lock.Scanning?
    ensures LockSound(Apply(s, Look))
  {
    var t, left := s.lock.todo[0], s.lock.todo[1..];
    assert s.lock.todo == [t] + left && t !in left && Distinct(left);
    FoundOneMore(s, t);
    var queue := Looked(s).queue;
    assert forall w :: w in queue ==> w in s.lock.queue || (w.token == t && Fits(s, w));
    assert forall w :: w in s.lock.queue ==> w.token !in left;
  }

  lemma FoundOneMore(s: Sys, t: string)
    requires LockSound(s) && s.lock.Scanning? && s.lock.todo != [] && t == s.lock.todo[0]
    ensures DistinctTokens(Looked(s).queue)
  {
    assert forall i :: 0 <= i < |s.lock.queue| ==> s.lock.queue[i] in s.lock.queue;
    assert t in s.lock.todo;
  }

  lemma OrderLockSound(s: Sys, queue: seq<Waiting>, tokens: seq<string>)
    requires LockSound(s) && Enabled(s, Order(queue, tokens))
    ensures LockSound(Apply(s, Order(queue, tokens)))
  {
    Reordered(s.lock.queue, queue);
  }

  /** A reordering has the same members, and distinct tokens if these had. */
  lemma Reordered(a: seq<Waiting>, b: seq<Waiting>)
    requires multiset(a) == multiset(b)
    ensures forall w :: w in a <==> w in b
    ensures DistinctTokens(a) ==> DistinctTokens(b)
  {
    forall w ensures w in a <==> w in b {
      assert w in a <==> w in multiset(a);
      assert w in b <==> w in multiset(b);
    }
    if DistinctTokens(a) {
      forall i, k | 0 <= i < k < |b| && b[i].token == b[k].token ensures false {
        assert b[i] in a && b[k] in a;
        assert b[i] == b[k];
        Twice(b, i, k);
        OnceEach(a, b[i]);
      }
    }
  }

  lemma Twice(a: seq<Waiting>, i: nat, k: nat)
    requires i < k < |a| && a[i] == a[k]
    ensures multiset(a)[a[i]] >= 2
  {
    assert a == a[..k] + a[k..];
    assert a[..k][i] == a[i] && a[k..][0] == a[k];
    assert a[i] in a[..k] && a[k] in a[k..];
  }

  lemma {:induction false} OnceEach(a: seq<Waiting>, w: Waiting)
    requires DistinctTokens(a)
    ensures multiset(a)[w] <= 1
  {
    if a != [] {
      var n := |a| - 1;
      assert a == a[..n] + [a[n]];
      OnceEach(a[..n], w);
      assert a[n] == w ==> w !in a[..n];
    }
  }

  lemma ChoosingLockSound(s: Sys)
    requires LockSound(s) && Enabled(s, Choosing)
    ensures LockSound(Apply(s, Choosing))
  {
    var plan := Plan(s.rows, s.lock.queue, s.lock.busy);
    PlanApart(s.rows, s.lock.queue, s.lock.busy);
    forall w, t | w in plan && Runs(s, t) ensures !Meet(s, w.root, s.jobs[t].root) {
      assert FootprintOf(s.rows, s.jobs[t].root) <= s.lock.busy;
    }
  }

  /** Dropping its first job, once started, leaves a plan that can still be started. */
  lemma StartNextLockSound(s: Sys)
    requires LockSound(s) && s.lock.Starting? && s.lock.plan != []
    ensures LockSound(Apply(s, StartNext))
  {
    var plan, first := s.lock.plan, s.lock.plan[0];
    var s' := Apply(s, StartNext);
    assert first in plan;
    forall w | w in plan[1..]
      ensures w in plan && w.token != first.token && !Meet(s, w.root, first.root)
    {
      var k :| 0 <= k < |plan[1..]| && plan[1..][k] == w;
      assert plan[k + 1] == w;
      assert !Meet(s, plan[0].root, plan[k + 1].root);
      MeetSymmetric(s, first.root, w.root);
    }
    forall w, t | w in plan[1..] && Runs(s', t) ensures !Meet(s', w.root, s'.jobs[t].root) {
      if Runs(s, t) {
        assert !Meet(s, w.root, s.jobs[t].root);
      }
    }
    forall i, k | 0 <= i < k < |plan[1..]| ensures !Meet(s', plan[1..][i].root, plan[1..][k].root) {
      assert !Meet(s, plan[i + 1].root, plan[k + 1].root);
    }
  }

  lemma MeetSymmetric(s: Sys, a: string, b: string)
    ensures Meet(s, a, b) <==> Meet(s, b, a)
  {
  }

  /** A step of anyone but the holder leaves what the mutex protects. */
  lemma LockSoundStays(s: Sys, s': Sys)
    requires LockSound(s) && NoneStarts(s, s') && s'.lock == s.lock
    requires forall w :: w in Listed(s.lock) && Live(s', w.token) ==>
               Live(s, w.token) && s'.jobs[w.token] == s.jobs[w.token]
    requires !s.lock.Free? ==> MayAdvance(s', s.lock.holder)
    ensures LockSound(s')
  {
    match s.lock
    case Free =>
    case Scanning(_, _, queue) =>
      assert forall w :: w in queue ==> w in Listed(s.lock) && Fits(s, w);
    case Counting(_, _, queue, _) =>
      assert forall w :: w in queue ==> w in Listed(s.lock) && Fits(s, w);
    case Starting(_, plan) =>
      assert forall w :: w in plan ==> w in Listed(s.lock) && Fits(s, w);
      forall w, t | w in plan && Runs(s', t) ensures !Meet(s', w.root, s'.jobs[t].root) {
        assert !Meet(s, w.root, s.jobs[t].root);
      }
      forall i, k | 0 <= i < k < |plan| ensures !Meet(s', plan[i].root, plan[k].root) {
        assert !Meet(s, plan[i].root, plan[k].root);
      }
  }

  lemma LockSoundKept(s: Sys, e: Event)
    requires LockSound(s) && Enabled(s, e) && !e.SetState?
    ensures LockSound(Apply(s, e))
  {
    var s' := Apply(s, e);
    match e
    case Scan(_, _) =>
    case Look => LookLockSound(s);
    case Order(queue, tokens) => OrderLockSound(s, queue, tokens);
    case Choosing => ChoosingLockSound(s);
    case StartNext => StartNextLockSound(s);
    case Release =>
    case SetState(_, _) =>
    case _ => OtherLockSound(s, e);
  }

  lemma OtherLockSound(s: Sys, e: Event)
    requires LockSound(s) && Enabled(s, e) && (Writes(e) || e.Wake? || e.Expire? || e.Hop? || e.Told?)
    ensures LockSound(Apply(s, e))
  {
    if Writes(e) {
      WriteLockSound(s, e);
    } else {
      LockSoundStays(s, Apply(s, e));
    }
  }

  lemma WriteLockSound(s: Sys, e: Event)
    requires LockSound(s) && Enabled(s, e) && Writes(e)
    ensures LockSound(Apply(s, e))
  {
    assert NoneStarts(s, Apply(s, e));
    LockSoundStays(s, Apply(s, e));
  }

  // -------------------------------------------------------------- hop safety

  lemma ExecSoundStays(s: Sys, s': Sys)
    requires ExecSound(s) && s'.rows == s.rows
    requires forall t :: Waits(s', t) ==> Waits(s, t) || Unused(s, t)
    requires forall t :: Live(s', t) ==> (Live(s, t) && s'.jobs[t].root == s.jobs[t].root) || Unused(s, t)
    requires forall id :: id in s'.calls && Live(s', s'.calls[id].token) ==>
               || s'.jobs[s'.calls[id].token].root == s'.calls[id].target
               || (&& id in s.calls && s.calls[id].token == s'.calls[id].token
                   && s.calls[id].target == s'.calls[id].target)
    requires s'.exec == s.exec
    ensures ExecSound(s')
  {
  }

  lemma WakeExecSound(s: Sys, id: string)
    requires ExecSound(s) && Enabled(s, Wake(id))
    ensures ExecSound(Apply(s, Wake(id)))
  {
    ReachSelf(Graph(s.rows, false, {}), s.calls[id].target);
  }

  lemma HopExecSound(s: Sys, token: string, caller: string, cap: string, target: string)
    requires ExecSound(s) && Enabled(s, Hop(token, caller, cap, target))
    ensures ExecSound(Apply(s, Hop(token, caller, cap, target)))
  {
    HopStaysInside(s.rows, s.exec[token].root, caller, cap, target);
  }

  lemma ExecSoundKept(s: Sys, e: Event)
    requires ExecSound(s) && Enabled(s, e) && !e.SetState?
    ensures ExecSound(Apply(s, e))
  {
    if e.Wake? {
      WakeExecSound(s, e.id);
    } else if e.Hop? {
      HopExecSound(s, e.token, e.caller, e.cap, e.target);
    } else if Writes(e) {
      WriteExecSound(s, e);
    } else {
      QuietExecSound(s, e);
    }
  }

  lemma QuietExecSound(s: Sys, e: Event)
    requires ExecSound(s) && Enabled(s, e)
    requires e.Scan? || e.Look? || e.Order? || e.Choosing? || e.StartNext? || e.Release? || e.Expire? || e.Told?
    ensures ExecSound(Apply(s, e))
  {
    if e.StartNext? {
      StartNextExecSound(s);
    } else if e.Release? {
      ReleaseExecSound(s);
    } else {
      ExecSoundStays(s, Apply(s, e));
    }
  }

  lemma ReleaseExecSound(s: Sys)
    requires ExecSound(s) && Enabled(s, Release)
    ensures ExecSound(Apply(s, Release))
  {
    var s' := Apply(s, Release);
    assert s'.jobs == s.jobs && s'.exec == s.exec && s'.rows == s.rows;
    assert forall id :: id in s'.calls ==>
        id in s.calls && s'.calls[id].token == s.calls[id].token && s'.calls[id].target == s.calls[id].target;
    ExecSoundStays(s, s');
  }

  lemma StartNextExecSound(s: Sys)
    requires ExecSound(s) && Enabled(s, StartNext)
    ensures ExecSound(Apply(s, StartNext))
  {
    ExecSoundStays(s, Apply(s, StartNext));
  }

  /** The steps that write to the log itself. */
  predicate Writes(e: Event) {
    e.Enter? || e.Respond? || e.Tell? || e.Forget?
  }

  lemma WriteExecSound(s: Sys, e: Event)
    requires ExecSound(s) && Enabled(s, e) && Writes(e)
    ensures ExecSound(Apply(s, e))
  {
    ExecSoundStays(s, Apply(s, e));
  }

  // ------------------------------------------------------- no lost promotion

  lemma NoneForgottenStays(s: Sys, s': Sys)
    requires NoneForgotten(s) && s'.rows == s.rows && s'.lock == s.lock
    requires forall t :: (Waits(s', t) || Runs(s', t) || Waits(s, t) || Runs(s, t)) ==>
               t in s.jobs && t in s'.jobs && s'.jobs[t] == s.jobs[t]
    requires forall id :: Owes(s, id) ==> Owes(s', id)
    ensures NoneForgotten(s')
  {
    if !OtherOwes(s') {
      assert !OtherOwes(s);
      ReservedStays(s, s');
      forall t | Waits(s', t) ensures Blocked(s', t) || Pending(s', t) {
        StillDealtWith(s, s', t);
      }
    }
  }

  lemma ReservedStays(s: Sys, s': Sys)
    requires s'.rows == s.rows
    requires forall t :: Runs(s, t) ==> Runs(s', t) && s'.jobs[t].root == s.jobs[t].root
    ensures Reserved(s) <= Reserved(s')
  {
    forall m | m in Reserved(s) ensures m in Reserved(s') {
      var t :| t in s.jobs && s.jobs[t].Running? && m in FootprintOf(s.rows, s.jobs[t].root);
      assert Runs(s, t) && Runs(s', t);
    }
  }

  lemma StillBlocked(s: Sys, s': Sys, t: string)
    requires s'.rows == s.rows && Waits(s, t) && Waits(s', t) && s'.jobs[t].root == s.jobs[t].root
    requires forall u :: Runs(s, u) ==> Runs(s', u) && s'.jobs[u].root == s.jobs[u].root
    requires Blocked(s, t)
    ensures Blocked(s', t)
  {
    var u :| Runs(s, u) && Meet(s, s.jobs[t].root, s.jobs[u].root);
    assert Runs(s', u) && Meet(s', s'.jobs[t].root, s'.jobs[u].root);
  }

  lemma StillDealtWith(s: Sys, s': Sys, t: string)
    requires s'.rows == s.rows && s'.lock == s.lock
    requires Waits(s, t) && Waits(s', t) && s'.jobs[t].root == s.jobs[t].root
    requires forall u :: Runs(s, u) ==> Runs(s', u) && s'.jobs[u].root == s.jobs[u].root
    requires Blocked(s, t) || Pending(s, t)
    ensures Blocked(s', t) || Pending(s', t)
  {
    if Blocked(s, t) {
      StillBlocked(s, s', t);
    } else if !(s.lock.Scanning? && t in s.lock.todo) {
      var w :| w in Listed(s.lock) &&
        (w.token == t || (s.lock.Starting? && Meet(s, s.jobs[t].root, w.root)));
      assert w.token == t || Meet(s', s'.jobs[t].root, w.root);
    }
  }

  /** The lock's holder moves on, and whoever else owes an advance still does. */
  lemma OthersStillOwe(s: Sys, s': Sys)
    requires OtherOwes(s) && s'.calls == s.calls && s'.notes == s.notes
    requires !s.lock.Free? && !s'.lock.Free? && s'.lock.holder == s.lock.holder
    ensures OtherOwes(s')
  {
    var id :| Owes(s, id) && id != s.lock.holder;
    assert Owes(s', id);
  }

  lemma LookForgetsNone(s: Sys)
    requires NoneForgotten(s) && Enabled(s, Look)
    ensures NoneForgotten(Apply(s, Look))
  {
    var s', t := Apply(s, Look), Todo(s.lock)[0];
    assert Todo(s.lock) == [t] + Todo(s.lock)[1..];
    if OtherOwes(s) {
      OthersStillOwe(s, s');
    } else if s.lock.Scanning? {
      LookFindsQueued(s);
    } else {
      LookCountsRunning(s);
      forall u | Waits(s', u) ensures Blocked(s', u) || Pending(s', u) {
        if Blocked(s, u) {
          StillBlocked(s, s', u);
        }
      }
    }
  }

  lemma LookCountsRunning(s: Sys)
    requires Enabled(s, Look) && s.lock.Counting? && s.lock.busy <= Reserved(s)
    ensures Looked(s).busy <= Reserved(Apply(s, Look))
  {
    var t := Todo(s.lock)[0];
    ReservedStays(s, Apply(s, Look));
    if Runs(s, t) {
      assert forall m :: m in FootprintOf(s.rows, s.jobs[t].root) ==> m in Reserved(s);
    }
  }

  lemma LookFindsQueued(s: Sys)
    requires Enabled(s, Look) && s.lock.Scanning?
    requires forall w :: w in s.lock.queue ==> Waits(s, w.token)
    requires forall u :: Waits(s, u) ==> Blocked(s, u) || Pending(s, u)
    ensures var s' := Apply(s, Look);
            && (forall w :: w in s'.lock.queue ==> Waits(s', w.token))
            && (forall u :: Waits(s', u) ==> Blocked(s', u) || Pending(s', u))
  {
    var s', t := Apply(s, Look), Todo(s.lock)[0];
    var queue' := s'.lock.queue;
    assert Todo(s.lock) == [t] + Todo(s.lock)[1..];
    forall u | Waits(s', u) ensures Blocked(s', u) || Pending(s', u) {
      if Blocked(s, u) {
        StillBlocked(s, s', u);
      } else if u == t {
        assert queue'[|queue'| - 1].token == t && queue'[|queue'| - 1] in queue';
      } else if u !in s.lock.todo {
        var w :| w in s.lock.queue && w.token == u;
        assert w in queue';
      }
    }
  }

  lemma OrderForgetsNone(s: Sys, queue: seq<Waiting>, tokens: seq<string>)
    requires NoneForgotten(s) && Enabled(s, Order(queue, tokens))
    ensures NoneForgotten(Apply(s, Order(queue, tokens)))
  {
    var s' := Apply(s, Order(queue, tokens));
    Reordered(s.lock.queue, queue);
    if OtherOwes(s) {
      OthersStillOwe(s, s');
    } else {
      forall t | Waits(s', t) ensures Blocked(s', t) || Pending(s', t) {
        if Blocked(s, t) {
          StillBlocked(s, s', t);
        } else {
          var w :| w in s.lock.queue && w.token == t;
          assert w in queue;
        }
      }
    }
  }

  lemma ChoosingForgetsNone(s: Sys)
    requires NoneForgotten(s) && LockSound(s) && Enabled(s, Choosing)
    ensures NoneForgotten(Apply(s, Choosing))
  {
    var s' := Apply(s, Choosing);
    PlanApart(s.rows, s.lock.queue, s.lock.busy);
    if OtherOwes(s) {
      OthersStillOwe(s, s');
    } else {
      forall t | Waits(s', t) ensures Blocked(s', t) || Pending(s', t) {
        if Blocked(s, t) {
          StillBlocked(s, s', t);
        } else {
          var w :| w in s.lock.queue && w.token == t;
          assert Fits(s, w);
          ChoosingDealsWith(s, w);
        }
      }
    }
  }

  /** A job of the queue is planned, or blocked by a running job or a planned one. */
  lemma ChoosingDealsWith(s: Sys, w: Waiting)
    requires LockSound(s) && Enabled(s, Choosing) && s.lock.busy <= Reserved(s)
    requires w in s.lock.queue && Waits(s, w.token) && s.jobs[w.token].root == w.root
    ensures Blocked(Apply(s, Choosing), w.token) || Pending(Apply(s, Choosing), w.token)
  {
    var s' := Apply(s, Choosing);
    if w !in s'.lock.plan {
      var m := PassedOverIsBlocked(s.rows, s.lock.queue, s.lock.busy, w);
      if m in s.lock.busy {
        var u :| u in s.jobs && s.jobs[u].Running? && m in FootprintOf(s.rows, s.jobs[u].root);
        assert Runs(s', u) && Meet(s', s'.jobs[w.token].root, s'.jobs[u].root);
      } else {
        var v :| v in s'.lock.plan && m in FootprintOf(s.rows, v.root);
        assert Meet(s', s'.jobs[w.token].root, v.root);
      }
    }
  }

  lemma StartNextForgetsNone(s: Sys)
    requires NoneForgotten(s) && LockSound(s) && s.lock.Starting? && s.lock.plan != []
    ensures NoneForgotten(Apply(s, StartNext))
  {
    var s' := Apply(s, StartNext);
    var plan, first := s.lock.plan, s.lock.plan[0];
    assert first in plan && Fits(s, first);
    if OtherOwes(s) {
      OthersStillOwe(s, s');
    } else {
      assert Waits(s, first.token) && Runs(s', first.token);
      forall w | w in plan[1..] ensures w in plan && w.token != first.token {
        var k :| 0 <= k < |plan[1..]| && plan[1..][k] == w;
        assert plan[k + 1] == w;
      }
      forall t | Waits(s', t) ensures Blocked(s', t) || Pending(s', t) {
        StartNextStillBlocked(s, t);
      }
    }
  }

  /** Starting the first of the plan blocks whom it meets, and leaves others as dealt with. */
  lemma StartNextStillBlocked(s: Sys, t: string)
    requires s.lock.Starting? && s.lock.plan != []
    requires Waits(s, s.lock.plan[0].token) && s.jobs[s.lock.plan[0].token].root == s.lock.plan[0].root
    requires Waits(s, t) && t != s.lock.plan[0].token && (Blocked(s, t) || Pending(s, t))
    ensures var s' := Apply(s, StartNext); Blocked(s', t) || Pending(s', t)
  {
    var s' := Apply(s, StartNext);
    var plan, first := s.lock.plan, s.lock.plan[0];
    if Blocked(s, t) {
      var u :| Runs(s, u) && Meet(s, s.jobs[t].root, s.jobs[u].root);
      assert Runs(s', u) && Meet(s', s'.jobs[t].root, s'.jobs[u].root);
    } else {
      var w :| w in plan && (w.token == t || Meet(s, s.jobs[t].root, w.root));
      if w == first {
        assert Runs(s', first.token) && Meet(s', s'.jobs[t].root, s'.jobs[first.token].root);
      } else {
        assert w in plan[1..];
        assert w.token == t || Meet(s', s'.jobs[t].root, w.root);
      }
    }
  }

  lemma ReleaseForgetsNone(s: Sys)
    requires NoneForgotten(s) && Enabled(s, Release)
    ensures NoneForgotten(Apply(s, Release))
  {
    var s' := Apply(s, Release);
    if OtherOwes(s) {
      OthersOweOn(s);
    } else {
      forall t | Waits(s', t) ensures Blocked(s', t) {
        assert Waits(s, t) && Blocked(s, t);
        StillBlocked(s, s', t);
      }
    }
  }

  lemma OthersOweOn(s: Sys)
    requires OtherOwes(s) && Enabled(s, Release)
    ensures OtherOwes(Apply(s, Release))
  {
    var id :| Owes(s, id) && id != s.lock.holder;
    assert Owes(Apply(s, Release), id);
  }

  lemma NoneForgottenKept(s: Sys, e: Event)
    requires NoneForgotten(s) && LockSound(s) && IdsApart(s) && Enabled(s, e) && !e.SetState?
    ensures NoneForgotten(Apply(s, e))
  {
    var s' := Apply(s, e);
    if e.Scan? {
      assert forall t :: Waits(s', t) ==> t in e.tokens && Pending(s', t);
    } else if e.Look? {
      LookForgetsNone(s);
    } else if e.Order? {
      OrderForgetsNone(s, e.queue, e.tokens);
    } else if e.Choosing? {
      ChoosingForgetsNone(s);
    } else if e.StartNext? {
      StartNextForgetsNone(s);
    } else if e.Release? {
      ReleaseForgetsNone(s);
    } else if e.Enter? || e.Respond? || (e.Tell? && e.ends) {
      NewDebtForgetsNone(s, e);
    } else {
      NoneForgottenStays(s, s');
    }
  }

  /** Whoever enters, answers or reports an end owes an advance from then on. */
  lemma NewDebtForgetsNone(s: Sys, e: Event)
    requires LockSound(s) && IdsApart(s) && Enabled(s, e) && (e.Enter? || e.Respond? || (e.Tell? && e.ends))
    ensures NoneForgotten(Apply(s, e))
  {
    assert Owes(Apply(s, e), e.id);
  }

  // ----------------------------------------------------------------- fairness

  lemma LookFair(s: Sys)
    requires Fair(s) && RootsKnown(s) && Enabled(s, Look)
    ensures Fair(Apply(s, Look))
  {
    var t, left := Todo(s.lock)[0], Todo(s.lock)[1..];
    assert Todo(s.lock) == [t] + left;
    if s.lock.Scanning? {
      LookMisses(s);
    } else if Runs(s, t) {
      WholeGrows(s.rows, s.lock.busy, s.jobs[t].root);
    }
  }

  lemma WholeGrows(rows: Rows, busy: set<string>, c: string)
    requires Whole(rows, busy) && Routable(rows, c)
    ensures Whole(rows, busy + FootprintOf(rows, c))
  {
    var all := busy + FootprintOf(rows, c);
    forall m | m in all
      ensures exists d :: Routable(rows, d) && m in FootprintOf(rows, d) && FootprintOf(rows, d) <= all
    {
      if m in busy {
        var d :| Routable(rows, d) && m in FootprintOf(rows, d) && FootprintOf(rows, d) <= busy;
      }
    }
  }

  lemma LookMisses(s: Sys)
    requires Fair(s) && Enabled(s, Look) && s.lock.Scanning?
    ensures Fair(Apply(s, Look))
  {
    var s', t := Apply(s, Look), Todo(s.lock)[0];
    var queue' := s'.lock.queue;
    assert Todo(s.lock) == [t] + Todo(s.lock)[1..];
    assert forall w :: w in s.lock.queue ==> w in queue';
    assert Waits(s, t) ==> queue'[|queue'| - 1].token == t && queue'[|queue'| - 1] in queue';
    assert forall u :: Missed(s', u) ==> Missed(s, u);
  }

  lemma OrderFair(s: Sys, queue: seq<Waiting>, tokens: seq<string>)
    requires Fair(s) && LockSound(s) && Enabled(s, Order(queue, tokens))
    ensures Fair(Apply(s, Order(queue, tokens)))
  {
    Reordered(s.lock.queue, queue);
    forall t, w | Waits(s, t) && w in queue && s.jobs[t].since < w.since
      ensures Waiting(t, s.jobs[t].root, s.jobs[t].since) in queue
    {
      assert w in s.lock.queue && !Missed(s, t);
      var x :| x in s.lock.queue && x.token == t;
      assert Fits(s, x);
    }
  }

  lemma ChoosingFair(s: Sys)
    requires Fair(s) && LockSound(s) && RootsKnown(s) && Enabled(s, Choosing)
    ensures Fair(Apply(s, Choosing))
  {
    var queue, busy := s.lock.queue, s.lock.busy;
    var plan := Plan(s.rows, queue, busy);
    PlanApart(s.rows, queue, busy);
    forall t, w | Waits(s, t) && w in plan && s.jobs[t].since < w.since
      ensures !(Rivals(s.rows, s.jobs[t].root) <= Rivals(s.rows, w.root))
    {
      var older := Waiting(t, s.jobs[t].root, s.jobs[t].since);
      assert older in queue && w in queue;
      ChoosingPasses(s, older, w);
    }
  }

  lemma ChoosingPasses(s: Sys, older: Waiting, w: Waiting)
    requires Enabled(s, Choosing) && DistinctTokens(s.lock.queue) && ByAge(s.lock.queue)
    requires Whole(s.rows, s.lock.busy) && Rooted(s.rows, s.lock.queue)
    requires older in s.lock.queue && w in Plan(s.rows, s.lock.queue, s.lock.busy) && w in s.lock.queue
    requires older.since < w.since
    ensures !(Rivals(s.rows, older.root) <= Rivals(s.rows, w.root))
  {
    var queue := s.lock.queue;
    var i :| 0 <= i < |queue| && queue[i] == older;
    var k :| 0 <= k < |queue| && queue[k] == w;
    if Rivals(s.rows, older.root) <= Rivals(s.rows, w.root) {
      NoOvertaking(s.rows, queue, s.lock.busy, i, k);
    }
  }

  lemma FairStays(s: Sys, s': Sys)
    requires Fair(s) && Clocked(s) && s'.rows == s.rows && s'.lock == s.lock
    requires forall t :: Waits(s', t) ==> 
               (Waits(s, t) && s'.jobs[t] == s.jobs[t]) || (s'.jobs[t].since > s.clock && t !in Todo(s.lock))
    ensures Fair(s')
  {
    assert forall w :: w in Listed(s.lock) ==> w.since <= s.clock;
    match s.lock
    case Free =>
    case Scanning(_, todo, queue) =>
      assert Listed(s.lock) == queue && Todo(s.lock) == todo;
      assert forall t :: Missed(s', t) ==> Missed(s, t) || s'.jobs[t].since > s.clock;
      assert forall x :: x in todo && Waits(s', x) ==> s'.jobs[x] == s.jobs[x] && Live(s, x);
    case Counting(_, _, queue, _) => assert Listed(s.lock) == queue;
    case Starting(_, plan) => assert Listed(s.lock) == plan;
  }

  lemma StartNextFair(s: Sys)
    requires Fair(s) && Enabled(s, StartNext)
    ensures Fair(Apply(s, StartNext))
  {
    var s' := Apply(s, StartNext);
    assert forall t :: Waits(s', t) ==> Waits(s, t) && s'.jobs[t] == s.jobs[t];
    assert forall w :: w in s'.lock.plan ==> w in s.lock.plan;
  }

  /** The steps of an advance. */
  predicate Advances(e: Event) {
    e.Scan? || e.Look? || e.Order? || e.Choosing? || e.StartNext? || e.Release?
  }

  lemma FairKept(s: Sys, e: Event)
    requires Fair(s) && LockSound(s) && RootsKnown(s) && Clocked(s) && Enabled(s, e) && !e.SetState?
    ensures Fair(Apply(s, e))
  {
    if Advances(e) {
      AdvanceFair(s, e);
    } else {
      FairStays(s, Apply(s, e));
    }
  }

  lemma AdvanceFair(s: Sys, e: Event)
    requires Fair(s) && LockSound(s) && RootsKnown(s) && Enabled(s, e) && Advances(e)
    ensures Fair(Apply(s, e))
  {
    if e.Look? {
      LookFair(s);
    } else if e.Order? {
      OrderFair(s, e.queue, e.tokens);
    } else if e.Choosing? {
      ChoosingFair(s);
    } else if e.StartNext? {
      StartNextFair(s);
    }
  }

  /** An advance lists only what it has found to wait, or has listed before. */
  lemma AdvanceLists(s: Sys, e: Event)
    requires LockSound(s) && Enabled(s, e) && Advances(e)
    ensures forall w :: w in Listed(Apply(s, e).lock) ==>
              w in Listed(s.lock) || (Live(s, w.token) && s.jobs[w.token] == Queued(w.root, w.since))
  {
    if e.Order? {
      Reordered(s.lock.queue, e.queue);
    } else if e.Choosing? {
      PlanApart(s.rows, s.lock.queue, s.lock.busy);
    } else if e.StartNext? {
      assert forall w :: w in s.lock.plan[1..] ==> w in s.lock.plan;
    }
  }

  lemma AdvanceStarts(s: Sys, e: Event)
    requires Enabled(s, e) && Advances(e)
    ensures var s' := Apply(s, e);
            && s'.rows == s.rows && s'.clock == s.clock
            && forall t :: Live(s', t) ==>
                 Live(s, t) && s'.jobs[t].root == s.jobs[t].root && s'.jobs[t].since == s.jobs[t].since
  {
  }

  lemma ClockedKept(s: Sys, e: Event)
    requires Clocked(s) && Enabled(s, e) && LockSound(s)
    ensures Clocked(Apply(s, e))
  {
    if Advances(e) {
      AdvanceLists(s, e);
      AdvanceStarts(s, e);
    } else {
      ClockedStays(s, Apply(s, e));
    }
  }

  lemma ClockedStays(s: Sys, s': Sys)
    requires Clocked(s) && s'.lock == s.lock && s.clock <= s'.clock
    requires forall t :: Live(s', t) ==> (Live(s, t) && s'.jobs[t] == s.jobs[t]) || s'.jobs[t].since <= s'.clock
    ensures Clocked(s')
  {
    assert forall t :: Live(s', t) && Live(s, t) && s'.jobs[t] == s.jobs[t] ==> s'.jobs[t].since <= s.clock;
  }

  lemma RootsKnownKept(s: Sys, e: Event)
    requires RootsKnown(s) && LockSound(s) && Enabled(s, e) && !e.SetState?
    ensures RootsKnown(Apply(s, e))
  {
    if Advances(e) {
      AdvanceLists(s, e);
      AdvanceStarts(s, e);
    } else {
      RootsStayKnown(s, Apply(s, e));
    }
  }

  lemma RootsStayKnown(s: Sys, s': Sys)
    requires RootsKnown(s) && s'.lock == s.lock && s'.rows == s.rows
    requires forall t :: Live(s', t) ==> (Live(s, t) && s'.jobs[t] == s.jobs[t]) || Routable(s.rows, s'.jobs[t].root)
    ensures RootsKnown(s')
  {
    assert forall t :: Live(s', t) && Live(s, t) && s'.jobs[t] == s.jobs[t] ==> Routable(s.rows, s'.jobs[t].root);
  }

  // ------------------------------------------------------- every step, every run

  lemma SetStateKeeps(s: Sys, name: string, state: State)
    requires Inv(s) && name in s.rows
    ensures Inv(Apply(s, SetState(name, state)))
  {
    var s' := Apply(s, SetState(name, state));
    SameReservations(s, s');
    SameExclusive(s, s');
    SameLockSound(s, s');
    SameForgotten(s, s');
    SameFair(s, s');
    HandlersStayReserved(s.rows, s'.rows);
  }

  lemma HandlersStayReserved(rows: Rows, rows': Rows)
    requires HandlersReserved(rows) && SameManifests(rows, rows')
    ensures HandlersReserved(rows')
  {
    forall r ensures FootprintOf(rows', r) == FootprintOf(rows, r) {
      FootprintStateAgnostic(rows, rows', r);
    }
    assert forall n, cap :: Demands(rows', n, cap) <==> Demands(rows, n, cap);
  }

  /** Only lifecycle states differ, so every footprint, meeting and rivalry is the same. */
  ghost predicate SameButStates(s: Sys, s': Sys) {
    && s' == s.(rows := s'.rows)
    && (forall r :: FootprintOf(s'.rows, r) == FootprintOf(s.rows, r))
    && (forall r :: Routable(s'.rows, r) == Routable(s.rows, r))
    && (forall a, b :: Meet(s', a, b) == Meet(s, a, b))
    && (forall a :: Rivals(s'.rows, a) == Rivals(s.rows, a))
  }

  lemma SameReservations(s: Sys, s': Sys)
    requires s' == s.(rows := s'.rows) && SameManifests(s.rows, s'.rows)
    ensures SameButStates(s, s')
  {
    forall r
      ensures FootprintOf(s'.rows, r) == FootprintOf(s.rows, r)
      ensures Routable(s'.rows, r) == Routable(s.rows, r)
      ensures Rivals(s'.rows, r) == Rivals(s.rows, r)
    {
      FootprintStateAgnostic(s.rows, s'.rows, r);
      RoutableStateAgnostic(s.rows, s'.rows, r);
      RivalsStateAgnostic(s.rows, s'.rows, r);
    }
  }

  lemma SameExclusive(s: Sys, s': Sys)
    requires SameButStates(s, s') && Exclusive(s)
    ensures Exclusive(s')
  {
  }

  lemma SameLockSound(s: Sys, s': Sys)
    requires SameButStates(s, s') && LockSound(s)
    ensures LockSound(s')
  {
  }

  lemma SameForgotten(s: Sys, s': Sys)
    requires SameButStates(s, s') && NoneForgotten(s)
    ensures NoneForgotten(s')
  {
    if OtherOwes(s) {
      var id :| Owes(s, id) && (s.lock.Free? || id != s.lock.holder);
      assert Owes(s', id);
    } else {
      assert Reserved(s') == Reserved(s);
      forall t | Waits(s', t) ensures Blocked(s', t) || Pending(s', t) {
        if Blocked(s, t) {
          var u :| Runs(s, u) && Meet(s, s.jobs[t].root, s.jobs[u].root);
          assert Runs(s', u) && Meet(s', s'.jobs[t].root, s'.jobs[u].root);
        } else {
          assert Pending(s, t);
        }
      }
    }
  }

  lemma SameFair(s: Sys, s': Sys)
    requires SameButStates(s, s') && Fair(s)
    ensures Fair(s')
  {
    if s.lock.Counting? {
      forall m | m in s.lock.busy
        ensures exists c ::
                  && Routable(s'.rows, c) && m in FootprintOf(s'.rows, c)
                  && FootprintOf(s'.rows, c) <= s.lock.busy
      {
        var c :| Routable(s.rows, c) && m in FootprintOf(s.rows, c) && FootprintOf(s.rows, c) <= s.lock.busy;
      }
    }
  }

  /** Every step of the protocol keeps the invariant. */
  lemma InvKept(s: Sys, e: Event)
    requires Inv(s) && Enabled(s, e)
    ensures Inv(Apply(s, e))
  {
    if e.SetState? {
      SetStateKeeps(s, e.name, e.state);
    } else {
      ExclusiveKept(s, e);
      LockSoundKept(s, e);
      ExecSoundKept(s, e);
      NoneForgottenKept(s, e);
      FairKept(s, e);
      RootsKnownKept(s, e);
      ClockedKept(s, e);
      IdsStayApart(s, e);
    }
  }

  lemma IdsStayApart(s: Sys, e: Event)
    requires IdsApart(s) && Enabled(s, e)
    ensures IdsApart(Apply(s, e))
  {
  }

  /** Exactly when a hop lands in what another job reserves: its own job no longer runs,
      and some running job has the target in its footprint. */
  lemma HopIntrudesIff(s: Sys, token: string, caller: string, cap: string, target: string)
    requires Inv(s) && Enabled(s, Hop(token, caller, cap, target))
    ensures (exists u :: u != token && Runs(s, u) && target in FootprintOf(s.rows, s.jobs[u].root))
            <==> !Runs(s, token) && target in Reserved(s)
  {
    HopStaysInside(s.rows, s.exec[token].root, caller, cap, target);
    if Runs(s, token) {
      assert Live(s, token) && target in FootprintOf(s.rows, s.jobs[token].root);
      forall u | u != token && Runs(s, u) ensures target !in FootprintOf(s.rows, s.jobs[u].root) {
        assert !Meet(s, s.jobs[token].root, s.jobs[u].root);
      }
    } else if target in Reserved(s) {
      var u :| u in s.jobs && s.jobs[u].Running? && target in FootprintOf(s.rows, s.jobs[u].root);
      assert Runs(s, u);
    }
  }

  /** A job only ever moves forward: from absent to queued, to running, to ended. */
  lemma StagesAdvance(s: Sys, e: Event, t: string)
    requires Enabled(s, e)
    ensures var s' := Apply(s, e);
            && (Runs(s', t) ==> Runs(s, t) || (Waits(s, t) && e.StartNext? && s.lock.plan[0].token == t))
            && (Waits(s', t) ==> Waits(s, t) || (t !in s.jobs && e.Enter? && e.token == t))
            && (t in s.jobs && s.jobs[t] == Ended ==> t !in s'.jobs || s'.jobs[t] == Ended)
            && (Live(s, t) && Live(s', t) ==> s'.jobs[t].root == s.jobs[t].root && s'.jobs[t].since == s.jobs[t].since)
            && (Live(s, t) ==> t in s'.jobs)
  {
  }

  // ------------------------------------------------- what the invariant is for

  /** Two running jobs share no module, and no module both execute in. */
  lemma RunningApart(s: Sys, t: string, u: string)
    requires Inv(s) && t != u && Runs(s, t) && Runs(s, u)
    ensures FootprintOf(s.rows, s.jobs[t].root) !! FootprintOf(s.rows, s.jobs[u].root)
    ensures t in s.exec && u in s.exec ==> s.exec[t].modules !! s.exec[u].modules
  {
    if m :| m in FootprintOf(s.rows, s.jobs[t].root) && m in FootprintOf(s.rows, s.jobs[u].root) {
      assert Meet(s, s.jobs[t].root, s.jobs[u].root);
    }
  }

  /** Once nobody owes an advance, every queued job waits for a running one. */
  lemma NoLostPromotion(s: Sys, t: string)
    requires Inv(s) && (forall id :: !Owes(s, id)) && Waits(s, t)
    ensures Blocked(s, t) && exists u :: Runs(s, u)
  {
    assert s.lock.Free?;
  }

  /** Starting a job never passes an older queued job all of whose rivals are its own. */
  lemma NeverOvertaken(s: Sys, t: string)
    requires LockSound(s) && Fair(s) && Enabled(s, StartNext) && Waits(s, s.lock.plan[0].token)
    requires Waits(s, t) && s.jobs[t].since < s.jobs[s.lock.plan[0].token].since
    ensures !(Rivals(s.rows, s.jobs[t].root) <= Rivals(s.rows, s.jobs[s.lock.plan[0].token].root))
  {
    assert s.lock.plan[0] in s.lock.plan && Fits(s, s.lock.plan[0]);
  }
}
