/**
 One module's wire: calls out register a one-slot channel under their id, and race
 with the read loop that delivers responses, with their own deadline, and with the
 failure of the wire.  The class has the parts that the lock makes atomic; the step
 system beneath it runs any number of calls through all interleavings of them.
 */
module Wire {
  import opened Wrappers

  datatype Response = Response(id: string, body: string)

  /** What a channel carries: a response, or the sentinel of a broken wire. */
  datatype Message = Reply(resp: Response) | Closed

  datatype Outcome = Answer(resp: Response) | WriteError | TimeoutError | Broken(err: string)

  /** What the lock guards: who waits for which id, and the sticky error. */
  datatype Table<!C> = Table(pending: map<string, C>, err: Option<string>) {
    /** A call enters, unless the wire is broken. */
    function Registered(id: string, ch: C): Table<C> {
      if err.Some? then this else this.(pending := pending[id := ch])
    }

    /** A call whose write failed or whose deadline passed leaves. */
    function Withdrawn(id: string): Table<C> {
      this.(pending := pending - {id})
    }

    /** The wire breaks: the first error sticks, and nobody waits any more. */
    function Failed(e: string): Table<C> {
      Table(map[], if err.None? then Some(e) else err)
    }
  }

  // --------------------------------------------------------------- the class

  class Channel {
    var slot: Option<Message>

    constructor ()
      ensures slot == None
    {
      slot := None;
    }

    /** A send on a one-slot channel; with the slot free it cannot block. */
    method Send(m: Message)
      requires slot.None?
      modifies this
      ensures slot == Some(m)
    {
      slot := Some(m);
    }
  }

  class Mux {
    var pending: map<string, Channel>
    var err: Option<string>

    constructor ()
      ensures Contents() == Table(map[], None) && Valid()
    {
      pending, err := map[], None;
    }

    function Contents(): Table<Channel>
      reads this
    {
      Table(pending, err)
    }

    /** Each waiting call has its own channel, still empty; a broken wire has none. */
    ghost predicate Valid()
      reads this, pending.Values
    {
      && (forall a, b :: a in pending && b in pending && a != b ==> pending[a] != pending[b])
      && (forall id :: id in pending ==> pending[id].slot == None)
      && (err.Some? ==> pending == map[])
    }

    /** The locked entry of a round trip; None is the sticky error's early return. */
    method Register(id: string) returns (ch: Option<Channel>)
      requires Valid()
      modifies this
      ensures Valid()
      ensures ch.None? <==> old(err).Some?
      ensures ch.Some? ==> fresh(ch.value) && ch.value.slot == None
                           && Contents() == old(Contents()).Registered(id, ch.value)
      ensures ch.None? ==> Contents() == old(Contents())
      ensures ch.Some? ==> pending == old(pending)[id := ch.value] && err == None
    {
      if err.Some? {
        return None;
      }
      var c := new Channel();
      pending := pending[id := c];
      return Some(c);
    }

    /** The locked exit after a failed write or an elapsed deadline. */
    method Withdraw(id: string)
      requires Valid()
      modifies this
      ensures Valid() && Contents() == old(Contents()).Withdrawn(id)
      ensures pending == old(pending) - {id} && err == old(err)
    {
      pending := pending - {id};
    }

    /** The locked part of a delivery: who waits for the id waits no more. */
    method Claim(id: string) returns (ch: Option<Channel>)
      requires Valid()
      modifies this
      ensures Valid() && Contents() == old(Contents()).Withdrawn(id)
      ensures pending == old(pending) - {id} && err == old(err)
      ensures ch == if id in old(pending) then Some(old(pending)[id]) else None
      ensures ch.Some? ==> ch.value.slot.None? && ch.value !in pending.Values
    {
      if id in pending {
        ch := Some(pending[id]);
        pending := pending - {id};
      } else {
        assert pending - {id} == pending;
        ch := None;
      }
    }

    /** Hands a response to the call that waits for its id, if one still does; the send
        follows the locked part. */
    method Deliver(resp: Response)
      requires Valid()
      modifies this, pending.Values
      ensures Valid() && Contents() == old(Contents()).Withdrawn(resp.id)
      ensures pending == old(pending) - {resp.id} && err == old(err)
      ensures forall id :: id in old(pending) ==>
                old(pending)[id].slot == if id == resp.id then Some(Reply(resp)) else None
    {
      var ch := Claim(resp.id);
      if ch.Some? {
        ch.value.Send(Reply(resp));
      }
    }

    /** The locked part of a failure: the wire is broken, and those that waited are
        handed over to be released. */
    method Break(e: string) returns (waiting: map<string, Channel>)
      requires Valid()
      modifies this
      ensures Valid() && Contents() == old(Contents()).Failed(e) && waiting == old(pending)
      ensures pending == map[] && err == if old(err).Some? then old(err) else Some(e)
    {
      if err.None? {
        err := Some(e);
      }
      waiting := pending;
      pending := map[];
    }

    /** Breaks the wire, and then releases every call that waited with the sentinel. */
    method Fail(e: string)
      requires Valid()
      modifies this, pending.Values
      ensures Valid() && Contents() == old(Contents()).Failed(e)
      ensures pending == map[] && err == if old(err).Some? then old(err) else Some(e)
      ensures forall id :: id in old(pending) ==> old(pending)[id].slot == Some(Closed)
    {
      var waiting := Break(e);
      var todo := waiting.Keys;
      while todo != {}
        invariant todo <= waiting.Keys && Contents() == old(Contents()).Failed(e)
        invariant forall id :: id in waiting ==> waiting[id].slot == if id in todo then None else Some(Closed)
        decreases todo
      {
        var id :| id in todo;
        todo := todo - {id};
        waiting[id].Send(Closed);
      }
    }

    /** What a round trip returns for what it received. */
    method Result(m: Message) returns (r: Outcome)
      ensures m.Reply? ==> r == Answer(m.resp)
      ensures m.Closed? ==> r == Broken(if err.Some? then err.value else "wire: closed")
    {
      match m
      case Reply(resp) => return Answer(resp);
      case Closed =>
        if err.Some? {
          return Broken(err.value);
        }
        return Broken("wire: closed");
    }
  }

  // --------------------------------------------------------- the step system

  /** Where a round trip stands: registered and writing, waiting, or returned. */
  datatype Phase = Writing | Waiting | Returned(outcome: Outcome)

  /** One round trip and its channel; `sends` counts what was ever sent on it. */
  datatype Call = Call(id: string, phase: Phase, slot: Option<Message>, sends: nat) {
    predicate Live() {
      !phase.Returned?
    }
  }

  /** Calls are numbered by their channels.  `outbox` holds the sends that the read
      loop has committed to under the lock and performs after releasing it. */
  datatype Wire = Wire(table: Table<nat>, calls: map<nat, Call>, outbox: map<nat, Message>)

  datatype Step =
    | Register(ch: nat, id: string)
    | Written(ch: nat)
    | WriteFailed(ch: nat)
    | TimeOut(ch: nat)
    | Deliver(resp: Response)
    | Fail(err: string)
    | Send(ch: nat)
    | Receive(ch: nat)

  const FRESH := Wire(Table(map[], None), map[], map[])

  predicate InUse(w: Wire, id: string) {
    exists ch :: ch in w.calls && w.calls[ch].Live() && w.calls[ch].id == id
  }

  predicate In(w: Wire, ch: nat, phase: Phase) {
    ch in w.calls && w.calls[ch].phase == phase
  }

  /** Ids in flight are distinct; nothing else restricts the interleaving. */
  predicate Enabled(w: Wire, e: Step) {
    match e
    case Register(ch, id) => ch !in w.calls && !InUse(w, id)
    case Written(ch) => In(w, ch, Writing)
    case WriteFailed(ch) => In(w, ch, Writing)
    case TimeOut(ch) => In(w, ch, Waiting)
    case Deliver(resp) => true
    case Fail(err) => true
    case Send(ch) => ch in w.outbox && ch in w.calls
    case Receive(ch) => In(w, ch, Waiting) && w.calls[ch].slot.Some?
  }

  function Resolve(table: Table<nat>, m: Message): Outcome {
    match m
    case Reply(resp) => Answer(resp)
    case Closed => Broken(if table.err.Some? then table.err.value else "wire: closed")
  }

  /** The call leaves the table and returns. */
  function Quit(w: Wire, ch: nat, outcome: Outcome): Wire
    requires ch in w.calls
  {
    w.(table := w.table.Withdrawn(w.calls[ch].id), calls := w.calls[ch := w.calls[ch].(phase := Returned(outcome))])
  }

  function Apply(w: Wire, e: Step): Wire
    requires Enabled(w, e)
  {
    match e
    case Register(ch, id) =>
      var phase := if w.table.err.Some? then Returned(Broken(w.table.err.value)) else Writing;
      w.(table := w.table.Registered(id, ch), calls := w.calls[ch := Call(id, phase, None, 0)])
    case Written(ch) => w.(calls := w.calls[ch := w.calls[ch].(phase := Waiting)])
    case WriteFailed(ch) => Quit(w, ch, WriteError)
    case TimeOut(ch) => Quit(w, ch, TimeoutError)
    case Deliver(resp) =>
      if resp.id in w.table.pending then
        w.(table := w.table.Withdrawn(resp.id), outbox := w.outbox[w.table.pending[resp.id] := Reply(resp)])
      else w
    case Fail(err) =>
      w.(table := w.table.Failed(err), outbox := w.outbox + map ch | ch in w.table.pending.Values :: Closed)
    case Send(ch) =>
      w.(calls := w.calls[ch := w.calls[ch].(slot := Some(w.outbox[ch]), sends := w.calls[ch].sends + 1)],
         outbox := w.outbox - {ch})
    case Receive(ch) =>
      w.(calls := w.calls[ch := w.calls[ch].(phase := Returned(Resolve(w.table, w.calls[ch].slot.value)),
                                             slot := None)])
  }

  // ---------------------------------------------------------- the invariants

  /** A message that may lie on the channel of a call with this id. */
  predicate Fits(w: Wire, id: string, m: Message) {
    match m
    case Reply(resp) => resp.id == id
    case Closed => w.table.err.Some?
  }

  /** Who is pending is live, under its own id, and was sent nothing. */
  ghost predicate PendingSound(w: Wire) {
    && (forall id :: id in w.table.pending ==>
          var ch := w.table.pending[id];
          ch in w.calls && w.calls[ch].id == id && w.calls[ch].Live() && ch !in w.outbox && w.calls[ch].sends == 0)
    && (w.table.err.Some? ==> w.table.pending == map[])
  }

  /** A channel is sent to at most once, and never while its slot is taken. */
  ghost predicate SendsSound(w: Wire) {
    && (forall ch :: ch in w.outbox ==>
          ch in w.calls && w.calls[ch].sends == 0 && Fits(w, w.calls[ch].id, w.outbox[ch]))
    && (forall ch :: ch in w.calls ==>
          && w.calls[ch].sends <= 1
          && (w.calls[ch].slot.Some? ==> w.calls[ch].sends == 1 && Fits(w, w.calls[ch].id, w.calls[ch].slot.value)))
  }

  /** A returned answer is the one asked for, and a returned break the wire's own. */
  ghost predicate OutcomesSound(w: Wire) {
    forall ch :: ch in w.calls && w.calls[ch].phase.Returned? ==>
      match w.calls[ch].phase.outcome
      case Answer(resp) => resp.id == w.calls[ch].id
      case Broken(e) => w.table.err == Some(e)
      case _ => true
  }

  /** A live call is pending, or its message is on its way to it. */
  predicate Reached(w: Wire, ch: nat)
    requires ch in w.calls
  {
    || (w.calls[ch].id in w.table.pending && w.table.pending[w.calls[ch].id] == ch)
    || ch in w.outbox || w.calls[ch].slot.Some?
  }

  ghost predicate NoneStranded(w: Wire) {
    forall ch :: ch in w.calls && w.calls[ch].Live() ==> Reached(w, ch)
  }

  ghost predicate DistinctIds(w: Wire) {
    forall a, b :: a in w.calls && b in w.calls && a != b && w.calls[a].Live() && w.calls[b].Live()
      ==> w.calls[a].id != w.calls[b].id
  }

  ghost predicate Inv(w: Wire) {
    PendingSound(w) && SendsSound(w) && OutcomesSound(w) && NoneStranded(w) && DistinctIds(w)
  }

  lemma PendingKept(w: Wire, e: Step)
    requires Inv(w) && Enabled(w, e)
    ensures PendingSound(Apply(w, e))
  {
    var w' := Apply(w, e);
    forall id | id in w'.table.pending
      ensures var ch := w'.table.pending[id];
              && ch in w'.calls && w'.calls[ch].id == id && w'.calls[ch].Live()
              && ch !in w'.outbox && w'.calls[ch].sends == 0
    {
      if !e.Register? || e.id != id {
        assert id in w.table.pending && w'.table.pending[id] == w.table.pending[id];
      }
    }
  }

  lemma SendsKept(w: Wire, e: Step)
    requires Inv(w) && Enabled(w, e)
    ensures SendsSound(Apply(w, e))
  {
    var w' := Apply(w, e);
    assert w.table.err.Some? ==> w'.table.err.Some?;
    forall ch | ch in w'.outbox
      ensures ch in w'.calls && w'.calls[ch].sends == 0 && Fits(w', w'.calls[ch].id, w'.outbox[ch])
    {
      if e.Fail? && ch in w.table.pending.Values {
        var id :| id in w.table.pending && w.table.pending[id] == ch;
      }
    }
  }

  lemma OutcomesKept(w: Wire, e: Step)
    requires Inv(w) && Enabled(w, e)
    ensures OutcomesSound(Apply(w, e))
  {
    var w' := Apply(w, e);
    assert w.table.err.Some? ==> w'.table.err == w.table.err;
  }

  lemma NoneStrandedKept(w: Wire, e: Step)
    requires Inv(w) && Enabled(w, e)
    ensures NoneStranded(Apply(w, e))
  {
    var w' := Apply(w, e);
    forall ch | ch in w'.calls && w'.calls[ch].Live() ensures Reached(w', ch) {
      if ch in w.calls {
        StaysReached(w, e, ch);
      }
    }
  }

  lemma StaysReached(w: Wire, e: Step, ch: nat)
    requires Inv(w) && Enabled(w, e) && ch in w.calls && ch in Apply(w, e).calls && Apply(w, e).calls[ch].Live()
    ensures Reached(Apply(w, e), ch)
  {
    assert Reached(w, ch);
    if e.Fail? && w.calls[ch].id in w.table.pending && w.table.pending[w.calls[ch].id] == ch {
      assert ch in w.table.pending.Values;
    }
  }

  lemma DistinctIdsKept(w: Wire, e: Step)
    requires Inv(w) && Enabled(w, e)
    ensures DistinctIds(Apply(w, e))
  {
  }

  /** Every step of every interleaving keeps the invariant. */
  lemma InvKept(w: Wire, e: Step)
    requires Inv(w) && Enabled(w, e)
    ensures Inv(Apply(w, e))
  {
    PendingKept(w, e);
    SendsKept(w, e);
    OutcomesKept(w, e);
    NoneStrandedKept(w, e);
    DistinctIdsKept(w, e);
  }

  // ------------------------------------------------------------- whole runs

  ghost predicate Run(ws: seq<Wire>, es: seq<Step>) {
    && |ws| == |es| + 1 && ws[0] == FRESH
    && forall i {:trigger es[i]} :: 0 <= i < |es| ==> Enabled(ws[i], es[i]) && ws[i + 1] == Apply(ws[i], es[i])
  }

  lemma {:induction false} RunInv(ws: seq<Wire>, es: seq<Step>, k: nat)
    requires Run(ws, es) && k < |ws|
    ensures Inv(ws[k])
  {
    if k > 0 {
      RunInv(ws, es, k - 1);
      InvKept(ws[k - 1], es[k - 1]);
    }
  }

  /** Each call's channel gets at most one send, and finds its slot free; what a call
      answers with has its id, and what it breaks with is the wire's own error. */
  lemma OneSendEach(ws: seq<Wire>, es: seq<Step>, k: nat, ch: nat)
    requires Run(ws, es) && k < |ws| && ch in ws[k].calls
    ensures ws[k].calls[ch].sends <= 1
    ensures ch in ws[k].outbox ==> ws[k].calls[ch].slot.None?
    ensures ws[k].calls[ch].phase.Returned? ==>
              match ws[k].calls[ch].phase.outcome
              case Answer(resp) => resp.id == ws[k].calls[ch].id
              case Broken(e) => ws[k].table.err == Some(e)
              case _ => true
  {
    RunInv(ws, es, k);
  }

  /** Once the wire is broken it stays so, with its first error and nobody pending;
      and then every call still live has its message in its slot or on the way. */
  lemma BrokenForGood(ws: seq<Wire>, es: seq<Step>, i: nat, k: nat)
    requires Run(ws, es) && i <= k < |ws| && ws[i].table.err.Some?
    ensures ws[k].table == Table(map[], ws[i].table.err)
    ensures forall ch :: ch in ws[k].calls && ws[k].calls[ch].Live() ==>
              ch in ws[k].outbox || ws[k].calls[ch].slot.Some?
  {
    ErrorSticks(ws, es, i, k);
    RunInv(ws, es, k);
    forall ch | ch in ws[k].calls && ws[k].calls[ch].Live() ensures ch in ws[k].outbox || ws[k].calls[ch].slot.Some? {
      assert Reached(ws[k], ch);
    }
  }

  lemma {:induction false} ErrorSticks(ws: seq<Wire>, es: seq<Step>, i: nat, k: nat)
    requires Run(ws, es) && i <= k < |ws| && ws[i].table.err.Some?
    ensures ws[k].table.err == ws[i].table.err
  {
    if i < k {
      ErrorSticks(ws, es, i, k - 1);
      assert ws[k] == Apply(ws[k - 1], es[k - 1]);
    }
  }

  /** A call can always go on: a live one that has written is pending, or one send and
      one receive away from returning. */
  lemma WaiterProceeds(ws: seq<Wire>, es: seq<Step>, k: nat, ch: nat)
    requires Run(ws, es) && k < |ws| && In(ws[k], ch, Waiting)
    ensures var w := ws[k];
            || (w.calls[ch].id in w.table.pending && w.table.pending[w.calls[ch].id] == ch && w.table.err.None?)
            || (Enabled(w, Send(ch)) && Enabled(Apply(w, Send(ch)), Receive(ch)))
            || Enabled(w, Receive(ch))
  {
    RunInv(ws, es, k);
    assert Reached(ws[k], ch);
  }

  /** Distinct ids are needed: a call entering an open wire strands another exactly
      when the id it brings is pending already. */
  lemma RegisterStrandsIff(w: Wire, ch: nat, id: string)
    requires Inv(w) && w.table.err.None? && ch !in w.calls
    ensures var w' := w.(table := w.table.Registered(id, ch), calls := w.calls[ch := Call(id, Writing, None, 0)]);
            NoneStranded(w') <==> id !in w.table.pending
  {
    var w' := w.(table := w.table.Registered(id, ch), calls := w.calls[ch := Call(id, Writing, None, 0)]);
    if id in w.table.pending {
      assert !Reached(w', w.table.pending[id]) && w'.calls[w.table.pending[id]].Live();
    } else {
      forall c | c in w'.calls && w'.calls[c].Live() ensures Reached(w', c) {
        if c in w.calls {
          assert Reached(w, c);
        }
      }
    }
  }
}
