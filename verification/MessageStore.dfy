/**
 The messages store as it runs: records, order and promotion stamps updated in
 place, each write proved to be the corresponding write on the log, and each
 query proved to return what the log derives.
 */
module MessageStore {
  import opened Wrappers
  import opened Messages
  import opened Jobs

  const MAX_RECORDS: nat := 4096

  /** Exactly the derived jobs in `state`, each once. */
  ghost predicate ListsJobs(log: Log, js: seq<Job>, state: string) {
    && (forall j :: j in js ==> j.token != "" && JobOf(log, j.token) == Some(j) && j.state == state)
    && (forall i, k :: 0 <= i < k < |js| ==> js[i].token != js[k].token)
    && (forall t :: t != "" && JobOf(log, t).Some? && JobOf(log, t).value.state == state
          ==> JobOf(log, t).value in js)
  }

  ghost predicate OldestFirst(js: seq<Job>) {
    forall i, k :: 0 <= i < k < |js| ==> js[i].queuedAt <= js[k].queuedAt
  }

  /** The library sort by enqueue time, as a function. */
  function Sorted(js: seq<Job>): (r: seq<Job>)
    ensures multiset(r) == multiset(js) && OldestFirst(r)
  {
    if js == [] then []
    else
      assert js == js[..|js| - 1] + [js[|js| - 1]];
      Insert(Sorted(js[..|js| - 1]), js[|js| - 1])
  }

  function Insert(js: seq<Job>, j: Job): (r: seq<Job>)
    requires OldestFirst(js)
    ensures multiset(r) == multiset(js) + multiset{j} && OldestFirst(r)
  {
    if js == [] || js[|js| - 1].queuedAt <= j.queuedAt then
      js + [j]
    else
      var n := |js| - 1;
      InsertedFirst(js, j, Insert(js[..n], j));
      Insert(js[..n], j) + [js[n]]
  }

  lemma InsertedFirst(js: seq<Job>, j: Job, r: seq<Job>)
    requires js != [] && OldestFirst(js) && j.queuedAt <= js[|js| - 1].queuedAt
    requires OldestFirst(r) && multiset(r) == multiset(js[..|js| - 1]) + multiset{j}
    ensures OldestFirst(r + [js[|js| - 1]])
    ensures multiset(r + [js[|js| - 1]]) == multiset(js) + multiset{j}
  {
    var n := |js| - 1;
    assert js == js[..n] + [js[n]];
    forall i | 0 <= i < |r| ensures r[i].queuedAt <= js[n].queuedAt {
      assert r[i] in multiset(r);
      assert r[i] == j || r[i] in js[..n];
    }
  }

  /** A reordering of jobs with distinct tokens has distinct tokens. */
  lemma DistinctAfterReorder(js: seq<Job>, r: seq<Job>)
    requires multiset(r) == multiset(js)
    requires forall i, k :: 0 <= i < k < |js| ==> js[i].token != js[k].token
    ensures forall i, k :: 0 <= i < k < |r| ==> r[i].token != r[k].token
  {
    forall i, k | 0 <= i < k < |r| && r[i].token == r[k].token ensures false {
      assert r[i] in multiset(js) && r[k] in multiset(js);
      assert r[i] == r[k];
      TwiceCounts(r, i, k);
      TwiceInSeq(js, r[i]);
    }
  }

  /** Sorting keeps the members, and with them the listing. */
  lemma SortedLists(log: Log, js: seq<Job>, state: string)
    requires ListsJobs(log, js, state)
    ensures ListsJobs(log, Sorted(js), state)
  {
    var r := Sorted(js);
    assert forall j :: j in r <==> j in js by {
      assert forall j :: j in r <==> j in multiset(r);
      assert forall j :: j in js <==> j in multiset(js);
    }
    DistinctAfterReorder(js, r);
  }

  lemma TwiceCounts(r: seq<Job>, i: nat, k: nat)
    requires i < k < |r| && r[i] == r[k]
    ensures multiset(r)[r[i]] >= 2
  {
    assert r == r[..k] + r[k..];
    assert r[i] in r[..k] && r[k] in r[k..] by { assert r[..k][i] == r[i] && r[k..][0] == r[k]; }
  }

  lemma {:induction false} TwiceInSeq(js: seq<Job>, j: Job)
    requires multiset(js)[j] >= 2
    ensures exists i, k :: 0 <= i < k < |js| && js[i] == j && js[k] == j
  {
    var n := |js| - 1;
    assert js == js[..n] + [js[n]];
    if js[n] == j {
      assert j in multiset(js[..n]);
      var i :| 0 <= i < n && js[..n][i] == j;
      assert js[i] == j && js[n] == j;
    } else {
      TwiceInSeq(js[..n], j);
      var i, k :| 0 <= i < k < n && js[..n][i] == j && js[..n][k] == j;
      assert js[i] == j && js[k] == j;
    }
  }

  /** Each token has an earlier occurrence than every one of the tokens after it. */
  ghost predicate SeenInOrder(recs: seq<Record>, tokens: seq<string>) {
    forall i, k, q {:trigger tokens[i], tokens[k], recs[q]} ::
      (0 <= i < k < |tokens| && 0 <= q < |recs| && recs[q].request.jobToken == tokens[k]) ==>
        exists p :: 0 <= p < q && recs[p].request.jobToken == tokens[i]
  }

  /** Each token has a later record than any record of the tokens after it. */
  ghost predicate LatestFirst(log: Log, tokens: seq<string>)
    requires log.Valid()
  {
    forall i, k, q :: 0 <= i < k < |tokens| && 0 <= q < |log.order| && TokenAt(log, q) == tokens[k]
      ==> exists p :: q < p < |log.order| && TokenAt(log, p) == tokens[i]
  }

  function TokenAt(log: Log, q: nat): string
    requires log.Valid() && q < |log.order|
  {
    log.records[log.order[q]].request.jobToken
  }

  /** The distinct tokens of the records, in the order they first occur. */
  ghost predicate Seen(recs: seq<Record>, tokens: seq<string>) {
    && (forall t :: t in tokens <==> t != "" && exists k :: 0 <= k < |recs| && recs[k].request.jobToken == t)
    && (forall i, k :: 0 <= i < k < |tokens| ==> tokens[i] != tokens[k])
    && SeenInOrder(recs, tokens)
  }

  function WithToken(tokens: seq<string>, t: string): seq<string> {
    if t != "" && t !in tokens then tokens + [t] else tokens
  }

  lemma SeenOneMore(recs: seq<Record>, tokens: seq<string>, r: Record)
    requires Seen(recs, tokens)
    ensures Seen(recs + [r], WithToken(tokens, r.request.jobToken))
  {
    TokensOneMore(recs, tokens, r);
    OrderOneMore(recs, tokens, r);
  }

  lemma TokensOneMore(recs: seq<Record>, tokens: seq<string>, r: Record)
    requires forall t :: t in tokens <==> t != "" && exists k :: 0 <= k < |recs| && recs[k].request.jobToken == t
    requires forall i, k :: 0 <= i < k < |tokens| ==> tokens[i] != tokens[k]
    ensures var now, all := WithToken(tokens, r.request.jobToken), recs + [r];
            && (forall t :: t in now <==> t != "" && exists k :: 0 <= k < |all| && all[k].request.jobToken == t)
            && (forall i, k :: 0 <= i < k < |now| ==> now[i] != now[k])
  {
    var now, all := WithToken(tokens, r.request.jobToken), recs + [r];
    forall t ensures t in now <==> t != "" && exists k :: 0 <= k < |all| && all[k].request.jobToken == t {
      CarriedOneMore(recs, r, t);
    }
  }

  lemma CarriedOneMore(recs: seq<Record>, r: Record, x: string)
    ensures (exists k :: 0 <= k < |recs + [r]| && (recs + [r])[k].request.jobToken == x) <==>
            r.request.jobToken == x || exists k :: 0 <= k < |recs| && recs[k].request.jobToken == x
  {
    var all := recs + [r];
    assert all[|recs|] == r;
    forall k | 0 <= k < |recs| ensures all[k] == recs[k] {
    }
  }

  lemma OrderOneMore(recs: seq<Record>, tokens: seq<string>, r: Record)
    requires Seen(recs, tokens)
    ensures SeenInOrder(recs + [r], WithToken(tokens, r.request.jobToken))
  {
    var all, now := recs + [r], WithToken(tokens, r.request.jobToken);
    forall i, k, q | 0 <= i < k < |now| && 0 <= q < |all| && all[q].request.jobToken == now[k]
      ensures exists p :: 0 <= p < q && all[p].request.jobToken == now[i]
    {
      assert now[i] == tokens[i] && tokens[i] in tokens;
      var p :| 0 <= p < |recs| && recs[p].request.jobToken == tokens[i] && p < q;
      assert all[p].request.jobToken == now[i];
    }
    assert SeenInOrder(all, now);
  }

  /** Read newest first, the listing has every token, and in that order. */
  lemma AllListed(log: Log, recs: seq<Record>, tokens: seq<string>)
    requires log.Valid() && |recs| == |log.order|
    requires forall k :: 0 <= k < |recs| ==> recs[k] == log.records[log.order[|recs| - 1 - k]]
    requires Seen(recs, tokens)
    ensures forall t :: t in tokens <==> t in LiveTokens(log.records)
    ensures LatestFirst(log, tokens)
  {
    AllTokens(log, recs, tokens);
    ReadBackwards(log, recs, tokens);
  }

  lemma AllTokens(log: Log, recs: seq<Record>, tokens: seq<string>)
    requires log.Valid() && |recs| == |log.order|
    requires forall k :: 0 <= k < |recs| ==> recs[k] == log.records[log.order[|recs| - 1 - k]]
    requires forall t :: t in tokens <==> t != "" && exists k :: 0 <= k < |recs| && recs[k].request.jobToken == t
    ensures forall t :: t in tokens <==> t in LiveTokens(log.records)
  {
    forall t ensures t in tokens <==> t in LiveTokens(log.records) {
      if t in LiveTokens(log.records) {
        ListedSomewhere(log, recs, t);
      }
      if t in tokens {
        var k :| 0 <= k < |recs| && recs[k].request.jobToken == t;
        assert log.order[|recs| - 1 - k] in log.records;
      }
    }
  }

  lemma ListedSomewhere(log: Log, recs: seq<Record>, t: string)
    requires log.Valid() && |recs| == |log.order| && t in LiveTokens(log.records)
    requires forall k :: 0 <= k < |recs| ==> recs[k] == log.records[log.order[|recs| - 1 - k]]
    ensures t != "" && exists k :: 0 <= k < |recs| && recs[k].request.jobToken == t
  {
    var id :| id in log.records && log.records[id].request.jobToken == t;
    var q :| 0 <= q < |recs| && log.order[q] == id;
    assert recs[|recs| - 1 - q] == log.records[log.order[q]];
  }

  lemma EarlierSeen(recs: seq<Record>, tokens: seq<string>, i: nat, k: nat, q: nat) returns (p: nat)
    requires SeenInOrder(recs, tokens) && i < k < |tokens| && q < |recs| && recs[q].request.jobToken == tokens[k]
    ensures p < q && recs[p].request.jobToken == tokens[i]
  {
    var t, u := tokens[i], tokens[k];
    assert recs[q].request.jobToken == u;
    p :| 0 <= p < q && recs[p].request.jobToken == t;
  }

  lemma ReadBackwards(log: Log, recs: seq<Record>, tokens: seq<string>)
    requires log.Valid() && |recs| == |log.order|
    requires forall k :: 0 <= k < |recs| ==> recs[k] == log.records[log.order[|recs| - 1 - k]]
    requires SeenInOrder(recs, tokens)
    ensures LatestFirst(log, tokens)
  {
    var n := |recs|;
    forall i, k, q | 0 <= i < k < |tokens| && 0 <= q < n && TokenAt(log, q) == tokens[k]
      ensures exists p :: q < p < n && TokenAt(log, p) == tokens[i]
    {
      var back := n - 1 - q;
      assert recs[back] == log.records[log.order[q]] && recs[back].request.jobToken == tokens[k];
      var p := EarlierSeen(recs, tokens, i, k, back);
      assert TokenAt(log, n - 1 - p) == tokens[i];
    }
  }

  class Store {
    var records: map<string, Record>
    var order: seq<string>
    var started: map<string, Time>

    constructor ()
      ensures Contents() == EMPTY_LOG && Valid()
    {
      records, order, started := map[], [], map[];
    }

    function Contents(): Log
      reads this
    {
      Log(records, order, started)
    }

    ghost predicate Valid()
      reads this
    {
      Contents().Valid()
    }

    /** Stamps a promotion once; stamping again changes nothing. */
    method Start(token: string, now: Time)
      modifies this
      ensures Contents() == Started(old(Contents()), token, now)
      ensures started == if token in old(started) then old(started) else old(started)[token := now]
      ensures records == old(records) && order == old(order)
    {
      if token !in started {
        started := started[token := now];
      }
    }

    function StartedAt(token: string): Option<Time>
      reads this
    {
      if token in started then Some(started[token]) else None
    }

    /** Records a request; a known id is overwritten where it stands. */
    method Open(req: Request, target: string, capability: string, caller: string, now: Time)
      requires Valid()
      modifies this
      ensures Contents() == Opened(old(Contents()), NewRecord(req, target, capability, caller, now), MAX_RECORDS)
      ensures Valid()
      ensures req.id in records
              && records[req.id] == Record(req, NO_RESPONSE, now, 0, target, capability, caller)
      ensures |old(order)| + 1 < MAX_RECORDS * 2 ==>
                && records == old(records)[req.id := records[req.id]] && started == old(started)
                && order == if req.id in old(records) then old(order) else old(order) + [req.id]
    {
      ghost var r := NewRecord(req, target, capability, caller, now);
      UnansweredStays(Added(Contents(), r), MAX_RECORDS, req.id);
      WritesKeepValid(Contents(), r, "", NO_RESPONSE, "", now, MAX_RECORDS);
      if req.id !in records {
        order := order + [req.id];
      }
      records := records[req.id := NewRecord(req, target, capability, caller, now)];
      TrimLocked();
    }

    /** Files a response under its request; an unknown id is refused. */
    method Complete(id: string, resp: Response, now: Time) returns (ok: bool)
      requires Valid()
      modifies this
      ensures ok == (id in old(records))
      ensures Contents() == Completed(old(Contents()), id, resp, now)
      ensures Valid()
      ensures order == old(order) && started == old(started)
      ensures !ok ==> records == old(records)
      ensures ok ==>
                records == old(records)[id := old(records)[id].(response := resp, respReceived := now)]
    {
      ghost var r := NewRecord(Request(id, "", "", Malformed), "", "", "", now);
      WritesKeepValid(Contents(), r, id, resp, "", now, MAX_RECORDS);
      if id !in records {
        return false;
      }
      records := records[id := records[id].(response := resp, respReceived := now)];
      return true;
    }

    method TrimLocked()
      requires Valid()
      modifies this
      ensures Contents() == Trimmed(old(Contents()), MAX_RECORDS)
    {
      if |order| < MAX_RECORDS * 2 {
        return;
      }
      ghost var was := Contents();
      EvictOldest();
      var live := SurvivingTokens();
      ghost var left, kept := records, order;
      var tokens := started.Keys;
      while tokens != {}
        invariant records == left && order == kept
        invariant started.Keys <= was.started.Keys && tokens <= started.Keys
        invariant forall t :: t in was.started ==>
          (t in started <==> t in tokens || t in live) && (t in started ==> started[t] == was.started[t])
        decreases tokens
      {
        var t :| t in tokens;
        tokens := tokens - {t};
        if t !in live {
          started := started - {t};
        }
      }
      TrimmedWhole(was, Contents());
    }

    method EvictOldest()
      requires Valid() && |order| >= MAX_RECORDS * 2
      modifies this
      ensures order == Kept(old(order), old(records), |old(order)| - MAX_RECORDS)
      ensures records == map id | id in order && id in old(records) :: old(records)[id]
      ensures started == old(started)
    {
      ghost var was, ids, first := records, order, |order| - MAX_RECORDS;
      ghost var gone: set<string> := {};
      var excess: nat := |order| - MAX_RECORDS;
      var keep := [];
      for i := 0 to |order|
        invariant order == ids && started == old(started)
        invariant Sweep(ids, was, first, i) == Swept(keep, gone, excess) && records == was - gone
      {
        var id := order[i];
        SweepLeaves(ids, was, first, i);
        if excess > 0 && id in records && records[id].Done() {
          records := records - {id};
          excess := excess - 1;
          gone := gone + {id};
        } else {
          keep := keep + [id];
        }
      }
      SweepEnds(ids, was, first);
      order := keep;
    }

    method SurvivingTokens() returns (live: set<string>)
      ensures live == LiveTokens(records)
      ensures forall t :: t in live <==> t != "" && exists id :: id in records && records[id].request.jobToken == t
    {
      live := {};
      var todo := records.Keys;
      while todo != {}
        invariant todo <= records.Keys
        invariant live == (set id | id in records && id !in todo :: records[id].request.jobToken) - {""}
        decreases todo
      {
        var id :| id in todo;
        todo := todo - {id};
        if records[id].request.jobToken != "" {
          live := live + {records[id].request.jobToken};
        }
      }
    }

    /** Copies of the latest records, newest first, up to `limit`; zero is no limit. */
    method List(limit: int) returns (out: seq<Record>)
      requires Valid()
      ensures |out| == if 0 < limit < |order| then limit else |order|
      ensures forall k :: 0 <= k < |out| ==> out[k] == records[order[|order| - 1 - k]]
    {
      var n := |order|;
      if 0 < limit < n {
        n := limit;
      }
      out := [];
      var i := |order| - 1;
      while i >= 0 && |out| < n
        invariant -1 <= i < |order| && |out| == |order| - 1 - i <= n
        invariant forall k :: 0 <= k < |out| ==> out[k] == records[order[|order| - 1 - k]]
      {
        if order[i] in records {
          out := out + [records[order[i]]];
        }
        i := i - 1;
      }
    }

    method ByToken(token: string) returns (out: seq<Record>)
      ensures out == Jobs.ByToken(Contents(), token)
    {
      out := [];
      for i := 0 to |order|
        invariant out == Group(order[..i], records, token)
      {
        assert order[..i + 1][..i] == order[..i];
        if order[i] in records && records[order[i]].request.jobToken == token {
          out := out + [records[order[i]]];
        }
      }
      assert order[..|order|] == order;
    }

    /** Derives the job of `token`; None if no record carries it. */
    method JobFor(token: string) returns (job: Option<Job>)
      ensures job == JobOf(Contents(), token)
    {
      var recs := ByToken(token);
      if recs == [] {
        return None;
      }
      var orig := 0;
      for i := 0 to |recs|
        invariant orig == 0
        invariant forall j :: 0 <= j < i ==> recs[j].request.cmd != "invoke"
      {
        if recs[i].request.cmd == "invoke" {
          orig := i;
          break;
        }
      }
      assert orig == OriginAt(recs);
      var o := recs[orig];
      var stamp := StartedAt(token);
      var at := if stamp.Some? then stamp.value else 0;
      var j := Job(token, o.target, o.capability, "", o.reqReceived, at, 0, None, None, "", [], 0);
      ghost var blank := j;
      for i := 0 to |recs|
        invariant j == FoldAll(blank, recs[..i])
      {
        assert recs[..i + 1][..i] == recs[..i];
        if recs[i].request.cmd == "job_update" {
          j := FoldUpdate(j, UpdateReport(recs[i].request), recs[i].reqReceived);
        }
      }
      assert recs[..|recs|] == recs;
      return Some(Conclude(j, o, stamp.Some?));
    }

    /** Each token in the store once, the one of the latest record first. */
    method JobTokens() returns (tokens: seq<string>)
      requires Valid()
      ensures forall t :: t in tokens <==> t in LiveTokens(records)
      ensures forall i, k :: 0 <= i < k < |tokens| ==> tokens[i] != tokens[k]
      ensures LatestFirst(Contents(), tokens)
    {
      var recs := List(0);
      tokens := [];
      for i := 0 to |recs|
        invariant Seen(recs[..i], tokens)
      {
        var t := recs[i].request.jobToken;
        SeenOneMore(recs[..i], tokens, recs[i]);
        assert recs[..i + 1] == recs[..i] + [recs[i]];
        if t != "" && t !in tokens {
          tokens := tokens + [t];
        }
      }
      assert recs[..|recs|] == recs;
      AllListed(Contents(), recs, tokens);
    }

    /** The jobs in `state`, in the order of their tokens. */
    method InState(state: string) returns (out: seq<Job>)
      requires Valid()
      ensures ListsJobs(Contents(), out, state)
    {
      var tokens := JobTokens();
      ghost var js: seq<Option<Job>> := [];
      out := [];
      for i := 0 to |tokens|
        invariant |js| == i && forall k :: 0 <= k < i ==> js[k] == JobOf(Contents(), tokens[k])
        invariant out == Picked(js, state)
      {
        var j := JobFor(tokens[i]);
        PickedOneMore(js, j, state);
        js := js + [j];
        if j.Some? && j.value.state == state {
          out := out + [j.value];
        }
      }
      PickedLists(Contents(), tokens, js, state);
    }

    method Running() returns (out: seq<Job>)
      requires Valid()
      ensures ListsJobs(Contents(), out, "running")
    {
      out := InState("running");
    }

    /** The jobs awaiting promotion, oldest first. */
    method Queued() returns (out: seq<Job>)
      requires Valid()
      ensures ListsJobs(Contents(), out, "queued") && OldestFirst(out)
    {
      out := InState("queued");
      SortedLists(Contents(), out, "queued");
      out := Sorted(out);
    }
  }

  /** The parts of a trimmed log. */
  lemma TrimmedWhole(log: Log, t: Log)
    requires |log.order| >= MAX_RECORDS * 2
    requires t.order == Kept(log.order, log.records, |log.order| - MAX_RECORDS)
    requires t.records == map id | id in t.order && id in log.records :: log.records[id]
    requires t.started.Keys <= log.started.Keys
    requires forall k :: k in log.started ==>
               (k in t.started <==> k in LiveTokens(t.records)) && (k in t.started ==> t.started[k] == log.started[k])
    ensures t == Trimmed(log, MAX_RECORDS)
  {
    assert t.started == map k | k in log.started && k in LiveTokens(t.records) :: log.started[k];
  }

  /** Where the eviction sweep stands: what it kept and deleted, what it may still drop. */
  datatype Swept = Swept(keep: seq<string>, gone: set<string>, left: nat)

  function Sweep(order: seq<string>, records: map<string, Record>, excess: nat, n: nat): Swept
    requires n <= |order|
  {
    if n == 0 then Swept([], {}, excess)
    else
      var s, id := Sweep(order, records, excess, n - 1), order[n - 1];
      if s.left > 0 && DoneId(records, id) then Swept(s.keep, s.gone + {id}, s.left - 1)
      else Swept(s.keep + [id], s.gone, s.left)
  }

  lemma {:induction false} SweepLeaves(order: seq<string>, records: map<string, Record>, excess: nat, n: nat)
    requires n <= |order| && NoDuplicates(order)
    ensures var s := Sweep(order, records, excess, n);
            && (forall j :: n <= j < |order| ==> order[j] !in s.gone && order[j] !in s.keep)
            && (forall j :: 0 <= j < n ==> (order[j] in s.gone <==> order[j] !in s.keep))
            && (forall id :: id in s.gone ==> id in order)
  {
    if n > 0 {
      SweepLeaves(order, records, excess, n - 1);
    }
  }

  lemma {:induction false} SweepIsKept(order: seq<string>, records: map<string, Record>, excess: nat, n: nat)
    requires n <= |order|
    ensures var s := Sweep(order, records, excess, n);
            s.keep + Kept(order[n..], records, s.left) == Kept(order, records, excess)
  {
    if n == 0 {
      assert order[0..] == order;
    } else {
      SweepIsKept(order, records, excess, n - 1);
      assert order[n - 1..][1..] == order[n..];
    }
  }

  /** The whole sweep keeps what the specification keeps and deletes all else. */
  lemma SweepEnds(order: seq<string>, records: map<string, Record>, excess: nat)
    requires NoDuplicates(order) && forall id :: id in order <==> id in records
    ensures var s := Sweep(order, records, excess, |order|);
            && s.keep == Kept(order, records, excess)
            && records - s.gone == map id | id in s.keep && id in records :: records[id]
  {
    SweepIsKept(order, records, excess, |order|);
    SweepLeaves(order, records, excess, |order|);
    var s := Sweep(order, records, excess, |order|);
    forall id | id in records ensures id in s.gone <==> id !in s.keep {
      var j :| 0 <= j < |order| && order[j] == id;
    }
  }

  /** The jobs of `js` that are in `state`, in order. */
  function Picked(js: seq<Option<Job>>, state: string): seq<Job> {
    if js == [] then []
    else
      var last := js[|js| - 1];
      Picked(js[..|js| - 1], state) + (if last.Some? && last.value.state == state then [last.value] else [])
  }

  ghost predicate DistinctJobs(js: seq<Option<Job>>) {
    forall i, k :: 0 <= i < k < |js| && js[i].Some? && js[k].Some? ==> js[i].value.token != js[k].value.token
  }

  lemma PickedOneMore(js: seq<Option<Job>>, j: Option<Job>, state: string)
    ensures Picked(js + [j], state) ==
            Picked(js, state) + (if j.Some? && j.value.state == state then [j.value] else [])
  {
    assert (js + [j])[..|js|] == js;
  }

  ghost predicate DistinctJobTokens(r: seq<Job>) {
    forall i, k :: 0 <= i < k < |r| ==> r[i].token != r[k].token
  }

  lemma DistinctPush(r: seq<Job>, j: Job)
    requires DistinctJobTokens(r) && forall i :: 0 <= i < |r| ==> r[i].token != j.token
    ensures DistinctJobTokens(r + [j])
  {
  }

  lemma {:induction false} PickedDistinct(js: seq<Option<Job>>, state: string)
    requires DistinctJobs(js)
    ensures DistinctJobTokens(Picked(js, state))
  {
    if js != [] {
      var n := |js| - 1;
      var r := Picked(js[..n], state);
      PickedDistinct(js[..n], state);
      if js[n].Some? && js[n].value.state == state {
        forall i | 0 <= i < |r| ensures r[i].token != js[n].value.token {
          PickedMembers(js[..n], state);
          assert r[i] in r;
          var k :| 0 <= k < n && js[..n][k] == Some(r[i]);
          assert js[k] == Some(r[i]);
        }
        DistinctPush(r, js[n].value);
        assert Picked(js, state) == r + [js[n].value];
      }
    }
  }

  lemma {:induction false} PickedMembers(js: seq<Option<Job>>, state: string)
    ensures forall j :: j in Picked(js, state) <==>
              exists k :: 0 <= k < |js| && js[k] == Some(j) && j.state == state
  {
    if js != [] {
      var n := |js| - 1;
      PickedMembers(js[..n], state);
      forall j | j in Picked(js, state)
        ensures exists k :: 0 <= k < |js| && js[k] == Some(j) && j.state == state
      {
        if j in Picked(js[..n], state) {
          var k :| 0 <= k < n && js[..n][k] == Some(j);
          assert js[k] == Some(j);
        } else {
          assert js[n] == Some(j);
        }
      }
      forall k, j | 0 <= k < |js| && js[k] == Some(j) && j.state == state ensures j in Picked(js, state) {
        if k < n {
          assert js[..n][k] == Some(j);
        }
      }
    }
  }

  /** Picking among every token's job lists the jobs in that state. */
  lemma PickedLists(log: Log, tokens: seq<string>, js: seq<Option<Job>>, state: string)
    requires log.Valid() && |js| == |tokens|
    requires forall t :: t in tokens <==> t in LiveTokens(log.records)
    requires forall i, k :: 0 <= i < k < |tokens| ==> tokens[i] != tokens[k]
    requires forall k :: 0 <= k < |js| ==> js[k] == JobOf(log, tokens[k])
    ensures ListsJobs(log, Picked(js, state), state)
  {
    PickedMembers(js, state);
    forall k | 0 <= k < |js| && js[k].Some? ensures js[k].value.token == tokens[k] != "" {
      JobToken(log, tokens[k]);
      assert tokens[k] in tokens;
    }
    PickedDistinct(js, state);
    forall t | t != "" && JobOf(log, t).Some? && JobOf(log, t).value.state == state
      ensures JobOf(log, t).value in Picked(js, state)
    {
      HasJob(log, t);
      var k :| 0 <= k < |tokens| && tokens[k] == t;
      assert js[k] == JobOf(log, t);
    }
  }

  lemma JobToken(log: Log, token: string)
    ensures JobOf(log, token).Some? ==> JobOf(log, token).value.token == token
  {
    if Jobs.ByToken(log, token) != [] {
      JobSource(log, token);
    }
  }
}
