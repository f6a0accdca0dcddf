/**
 The messages store as a value: one record per exchange keyed by request id,
 the ids in insertion order, and the promotion stamps.  Trimming is specified
 here, and what it keeps and evicts is proved.
 */
module Messages {
  import opened Wrappers

  /** Clock readings; 0 is the zero time, which no reading ever equals. */
  type Time = nat

  /** A job_update's report; an empty or absent field means "not reported". */
  datatype Report = Report(state: string, message: string, progress: int,
                           output: Option<string>, error: Option<string>)

  const EMPTY_REPORT := Report("", "", 0, None, None)

  datatype Params = Name(name: string) | Update(report: Report) | Malformed

  datatype Request = Request(id: string, cmd: string, jobToken: string, params: Params)

  /** `name`, `output` and `accepted` are what decoding `raw` yields (zero if it fails). */
  datatype Payload = Payload(raw: string, name: string, output: string, accepted: bool)

  datatype Response = Response(id: string, status: string, result: Payload, error: Option<string>)

  const NO_RESPONSE := Response("", "", Payload("", "", "", false), None)

  const INVALID_PARAMS := "INVALID_PARAMS"
  const CAPABILITY_NOT_ACTIVE := "CAPABILITY_NOT_ACTIVE"
  const CAPABILITY_NOT_DECLARED := "CAPABILITY_NOT_DECLARED"
  const JOB_NOT_FOUND := "JOB_NOT_FOUND"
  const CALLABLE_FAILED := "CALLABLE_FAILED"
  const INTERNAL_ERROR := "INTERNAL_ERROR"

  /** An error response, its message left out. */
  function Failure(id: string, code: string): Response {
    Response(id, "error", NO_RESPONSE.result, Some(code))
  }

  datatype Record = Record(request: Request, response: Response, reqReceived: Time, respReceived: Time,
                           target: string, capability: string, caller: string) {
    predicate Done() {
      respReceived != 0
    }
  }

  datatype Log = Log(records: map<string, Record>, order: seq<string>, started: map<string, Time>) {
    /** The order lists every record's id once, and each record under its own id. */
    ghost predicate Valid() {
      && (forall i, j :: 0 <= i < j < |order| ==> order[i] != order[j])
      && (forall id :: id in order <==> id in records)
      && (forall id :: id in records ==> records[id].request.id == id)
    }
  }

  const EMPTY_LOG := Log(map[], [], map[])

  // ----------------------------------------------------------------- the writes

  function Started(log: Log, token: string, now: Time): Log {
    if token in log.started then log else log.(started := log.started[token := now])
  }

  function NewRecord(req: Request, target: string, cap: string, caller: string, now: Time): Record {
    Record(req, NO_RESPONSE, now, 0, target, cap, caller)
  }

  /** Open before its trim: append a new id, or overwrite the record of a known one. */
  function Added(log: Log, r: Record): Log {
    log.(records := log.records[r.request.id := r],
         order := if r.request.id in log.records then log.order else log.order + [r.request.id])
  }

  function Opened(log: Log, r: Record, cap: nat): Log {
    Trimmed(Added(log, r), cap)
  }

  function Completed(log: Log, id: string, resp: Response, now: Time): Log {
    if id !in log.records then log
    else log.(records := log.records[id := log.records[id].(response := resp, respReceived := now)])
  }

  // ---------------------------------------------------------------- the trimming

  predicate DoneId(records: map<string, Record>, id: string) {
    id in records && records[id].Done()
  }

  /** What survives when up to `excess` done records are dropped from the front. */
  function Kept(order: seq<string>, records: map<string, Record>, excess: nat): seq<string> {
    if order == [] then []
    else if excess > 0 && DoneId(records, order[0]) then Kept(order[1..], records, excess - 1)
    else [order[0]] + Kept(order[1..], records, excess)
  }

  function LiveTokens(records: map<string, Record>): set<string> {
    (set id | id in records :: records[id].request.jobToken) - {""}
  }

  function Trimmed(log: Log, cap: nat): Log {
    if |log.order| < cap * 2 then log
    else
      var keep := Kept(log.order, log.records, |log.order| - cap);
      var records := map id | id in keep && id in log.records :: log.records[id];
      Log(records, keep, map t | t in log.started && t in LiveTokens(records) :: log.started[t])
  }

  function OpenCount(order: seq<string>, records: map<string, Record>): nat {
    if order == [] then 0
    else (if DoneId(records, order[0]) then 0 else 1) + OpenCount(order[1..], records)
  }

  function OpenOnly(order: seq<string>, records: map<string, Record>): seq<string> {
    if order == [] then []
    else (if DoneId(records, order[0]) then [] else [order[0]]) + OpenOnly(order[1..], records)
  }

  /** Where the eviction stops: behind the last done record it drops. */
  function Cut(order: seq<string>, records: map<string, Record>, excess: nat): (k: nat)
    ensures k <= |order|
  {
    if order == [] || excess == 0 then 0
    else 1 + Cut(order[1..], records, if DoneId(records, order[0]) then excess - 1 else excess)
  }

  /** Exactly the done records before the cut go; all else stays, in its old order. */
  lemma {:induction false} KeptShape(order: seq<string>, records: map<string, Record>, excess: nat)
    ensures var k := Cut(order, records, excess);
            Kept(order, records, excess) == OpenOnly(order[..k], records) + order[k..]
  {
    if order != [] {
      if excess > 0 {
        KeptShape(order[1..], records, if DoneId(records, order[0]) then excess - 1 else excess);
        CutFront(order, records, excess);
      } else {
        KeptAll(order, records);
      }
    }
  }

  lemma CutFront(order: seq<string>, records: map<string, Record>, excess: nat)
    requires order != [] && excess > 0
    ensures var k := Cut(order, records, excess);
            var front := if DoneId(records, order[0]) then [] else [order[0]];
            && k > 0 && order[1..][k - 1..] == order[k..]
            && OpenOnly(order[..k], records) == front + OpenOnly(order[1..][..k - 1], records)
  {
    var k := Cut(order, records, excess);
    assert order[..k][1..] == order[1..][..k - 1];
  }

  lemma {:induction false} KeptAll(order: seq<string>, records: map<string, Record>)
    ensures Kept(order, records, 0) == order
  {
    if order != [] {
      KeptAll(order[1..], records);
      assert order == [order[0]] + order[1..];
    }
  }

  /** The trim leaves the cap, or every open record if those are more. */
  lemma {:induction false} KeptCount(order: seq<string>, records: map<string, Record>, excess: nat)
    ensures |Kept(order, records, excess)| ==
            var open := OpenCount(order, records);
            if excess <= |order| - open then |order| - excess else open
    ensures OpenCount(order, records) <= |order|
  {
    if order != [] {
      var drop := excess > 0 && DoneId(records, order[0]);
      KeptCount(order[1..], records, if drop then excess - 1 else excess);
    }
  }

  lemma {:induction false} OpenOnlyMembers(order: seq<string>, records: map<string, Record>, id: string)
    ensures id in OpenOnly(order, records) <==> id in order && !DoneId(records, id)
  {
    if order != [] {
      OpenOnlyMembers(order[1..], records, id);
      assert id in order <==> id == order[0] || id in order[1..];
    }
  }

  /** How many of these ids have a completed record. */
  function DoneCount(order: seq<string>, records: map<string, Record>): nat {
    if order == [] then 0
    else (if DoneId(records, order[0]) then 1 else 0) + DoneCount(order[1..], records)
  }

  /** The guard of the eviction: the trim runs, the record at `i` is done, and fewer
      done records stand before it than are to go. */
  predicate EvictsAt(log: Log, cap: nat, i: nat)
    requires i < |log.order|
  {
    && |log.order| >= cap * 2
    && DoneId(log.records, log.order[i])
    && DoneCount(log.order[..i], log.records) < |log.order| - cap
  }

  predicate Evicts(log: Log, cap: nat, id: string) {
    exists i :: 0 <= i < |log.order| && log.order[i] == id && EvictsAt(log, cap, i)
  }

  lemma {:induction false} KeptAt(order: seq<string>, records: map<string, Record>, excess: nat, i: nat)
    requires NoDuplicates(order) && i < |order|
    ensures order[i] in Kept(order, records, excess) <==>
            !(DoneId(records, order[i]) && DoneCount(order[..i], records) < excess)
  {
    var drop := excess > 0 && DoneId(records, order[0]);
    var e := if drop then excess - 1 else excess;
    KeptMembers(order[1..], records, e, order[i]);
    if i > 0 {
      assert order[i] != order[0] && order[1..][i - 1] == order[i];
      assert order[..i][1..] == order[1..][..i - 1];
      KeptAt(order[1..], records, e, i - 1);
    }
  }

  /** Order positions: `a` was opened before `b`. */
  ghost predicate Older(order: seq<string>, a: string, b: string) {
    exists i, j :: 0 <= i < j < |order| && order[i] == a && order[j] == b
  }

  ghost predicate NoDuplicates(order: seq<string>) {
    forall i, j :: 0 <= i < j < |order| ==> order[i] != order[j]
  }

  /** An id survives unless it is done and stands before the cut. */
  lemma KeptMembers(order: seq<string>, records: map<string, Record>, excess: nat, id: string)
    ensures id in Kept(order, records, excess) <==>
            id in order && (!DoneId(records, id) || id in order[Cut(order, records, excess)..])
  {
    var k := Cut(order, records, excess);
    KeptShape(order, records, excess);
    OpenOnlyMembers(order[..k], records, id);
    assert order == order[..k] + order[k..];
  }

  lemma OlderCons(x: string, rest: seq<string>, a: string, b: string)
    ensures Older([x] + rest, a, b) <==> (x == a && b in rest) || Older(rest, a, b)
  {
    var order := [x] + rest;
    if Older(order, a, b) {
      var i, j :| 0 <= i < j < |order| && order[i] == a && order[j] == b;
      assert rest[j - 1] == b;
      if i > 0 {
        assert rest[i - 1] == a;
      }
    }
    if x == a && b in rest {
      var j :| 0 <= j < |rest| && rest[j] == b;
      assert order[0] == a && order[j + 1] == b;
    }
    if Older(rest, a, b) {
      var i, j :| 0 <= i < j < |rest| && rest[i] == a && rest[j] == b;
      assert order[i + 1] == a && order[j + 1] == b;
    }
  }

  /** Kept is a subsequence: the survivors stand in their old order. */
  lemma {:induction false} KeptOrder(order: seq<string>, records: map<string, Record>, excess: nat,
                                     a: string, b: string)
    requires Older(Kept(order, records, excess), a, b)
    ensures Older(order, a, b)
  {
    if order != [] {
      var drop := excess > 0 && DoneId(records, order[0]);
      var e := if drop then excess - 1 else excess;
      var rest := Kept(order[1..], records, e);
      assert order == [order[0]] + order[1..];
      OlderCons(order[0], order[1..], a, b);
      OlderCons(order[0], rest, a, b);
      KeptMembers(order[1..], records, e, b);
      if drop || Older(rest, a, b) {
        KeptOrder(order[1..], records, e, a, b);
      }
    }
  }

  lemma {:induction false} KeptDistinct(order: seq<string>, records: map<string, Record>, excess: nat)
    requires NoDuplicates(order)
    ensures NoDuplicates(Kept(order, records, excess))
  {
    if order != [] {
      var drop := excess > 0 && DoneId(records, order[0]);
      var e := if drop then excess - 1 else excess;
      KeptDistinct(order[1..], records, e);
      KeptMembers(order[1..], records, e, order[0]);
    }
  }

  lemma EvictedIsOlder(order: seq<string>, k: nat, a: string, b: string)
    requires k <= |order| && a in order && a !in order[k..] && b in order[k..]
    ensures Older(order, a, b)
  {
    var i :| 0 <= i < |order| && order[i] == a;
    var j :| 0 <= j < |order[k..]| && order[k..][j] == b;
    assert forall x :: k <= x < |order| ==> order[k..][x - k] == order[x];
    assert order[k + j] == b;
  }

  /** What a trim that runs keeps: the cap or all open records; no open record is
      lost, no survivor is altered; every evicted record is done and older than
      every done one kept; the order survives; and a stamp survives just where a
      record of its token does. */
  lemma TrimExact(log: Log, cap: nat)
    requires log.Valid() && |log.order| >= cap * 2
    ensures var t := Trimmed(log, cap);
            var open := OpenCount(log.order, log.records);
            && t.Valid()
            && |t.order| == (if cap >= open then cap else open)
            && (forall id :: id in log.records && !log.records[id].Done() ==> id in t.records)
            && (forall id :: id in t.records ==> id in log.records && t.records[id] == log.records[id])
            && (forall a, b :: a in log.records && a !in t.records && b in t.records && t.records[b].Done()
                  ==> log.records[a].Done() && Older(log.order, a, b))
            && (forall a, b :: Older(t.order, a, b) ==> Older(log.order, a, b))
            && (forall tok :: tok in t.started <==>
                  && tok in log.started && tok != ""
                  && exists id :: id in t.records && t.records[id].request.jobToken == tok)
  {
    var excess := |log.order| - cap;
    var t := Trimmed(log, cap);
    var k := Cut(log.order, log.records, excess);
    KeptCount(log.order, log.records, excess);
    KeptDistinct(log.order, log.records, excess);
    forall id ensures id in t.order <==> id in log.order && (!DoneId(log.records, id) || id in log.order[k..]) {
      KeptMembers(log.order, log.records, excess, id);
    }
    forall a, b | Older(t.order, a, b) ensures Older(log.order, a, b) {
      KeptOrder(log.order, log.records, excess, a, b);
    }
    forall a, b | a in log.records && a !in t.records && b in t.records && t.records[b].Done()
      ensures log.records[a].Done() && Older(log.order, a, b)
    {
      EvictedIsOlder(log.order, k, a, b);
    }
  }

  /** The guard, checked before the write that trims, tells exactly what goes. */
  lemma EvictedIff(log: Log, cap: nat, id: string)
    requires log.Valid() && id in log.records
    ensures id !in Trimmed(log, cap).records <==> Evicts(log, cap, id)
  {
    if |log.order| >= cap * 2 {
      var i :| 0 <= i < |log.order| && log.order[i] == id;
      KeptAt(log.order, log.records, |log.order| - cap, i);
      assert Evicts(log, cap, id) <==> EvictsAt(log, cap, i);
    }
  }

  /** A record that has no response is never evicted. */
  lemma UnansweredStays(log: Log, cap: nat, id: string)
    requires log.Valid() && id in log.records && log.records[id].respReceived == 0
    ensures id in Trimmed(log, cap).records && Trimmed(log, cap).records[id] == log.records[id]
  {
    if |log.order| >= cap * 2 {
      TrimExact(log, cap);
    }
  }

  /** Every write keeps the store well formed. */
  lemma WritesKeepValid(log: Log, r: Record, id: string, resp: Response, token: string, now: Time, cap: nat)
    requires log.Valid()
    ensures Opened(log, r, cap).Valid()
    ensures Completed(log, id, resp, now).Valid()
    ensures Started(log, token, now).Valid()
  {
    var added := Added(log, r);
    assert added.Valid();
    if |added.order| >= cap * 2 {
      TrimExact(added, cap);
    }
  }
}
