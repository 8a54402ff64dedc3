/** The telemetry recorder (apps/api/src/observability.rs): a bounded buffer of aggregates between the
    request path and the database. */
module Recorder {
  import opened Latency

  const MAX_PENDING_KEYS: nat := 50_000
  const EVENT_BUFFER: nat := 8_192

  datatype HttpKey = HttpKey(minute: int, project: string, verb: string, route: string, statusClass: int)
  datatype QueryKey = QueryKey(minute: int, project: string, fingerprint: string)
  datatype Profile = Profile(shape: string, kind: string, readOnly: bool)
  datatype QueryTotals = QueryTotals(profile: Profile, latency: Histogram, errors: nat, returned: nat, affected: nat)
  datatype Sample = Sample(bytes: nat, at: int)

  datatype Pending = Pending(
    http: map<HttpKey, Histogram>, queries: map<QueryKey, QueryTotals>, storage: map<string, Sample>)

  datatype Event =
    | Http(httpKey: HttpKey, duration: Duration)
    | Query(queryKey: QueryKey, profile: Profile, duration: Duration, failed: bool, returned: nat, affected: nat)
    | Storage(project: string, sample: Sample)

  const NOTHING: Pending := Pending(map[], map[], map[])

  ghost predicate Valid(p: Pending) {
    && (forall k :: k in p.http ==> Shaped(p.http[k]))
    && (forall k :: k in p.queries ==> Shaped(p.queries[k].latency))
  }

  function KeyCount(p: Pending): nat { |p.http| + |p.queries| + |p.storage| }

  predicate Knows(p: Pending, e: Event) {
    match e
    case Http(k, _) => k in p.http
    case Query(k, _, _, _, _, _) => k in p.queries
    case Storage(k, _) => k in p.storage
  }

  /** An event for a new key is dropped once the limit is reached. */
  predicate Drops(p: Pending, e: Event) { !Knows(p, e) && MAX_PENDING_KEYS <= KeyCount(p) }

  // ---------------------------------------------------------------- one aggregate

  function HttpAt(p: Pending, k: HttpKey): (h: Histogram)
    requires Valid(p)
    ensures Shaped(h)
  {
    if k in p.http then p.http[k] else EMPTY
  }

  function Counted(totals: QueryTotals, e: Event): QueryTotals
    requires e.Query? && Shaped(totals.latency)
  {
    QueryTotals(totals.profile, Observed(totals.latency, e.duration), totals.errors + if e.failed then 1 else 0,
                totals.returned + e.returned, totals.affected + e.affected)
  }

  function QueryAt(p: Pending, k: QueryKey, profile: Profile): (totals: QueryTotals)
    requires Valid(p)
    ensures Shaped(totals.latency)
  {
    if k in p.queries then p.queries[k] else QueryTotals(profile, EMPTY, 0, 0, 0)
  }

  function Combined(a: QueryTotals, b: QueryTotals): QueryTotals
    requires Shaped(a.latency) && Shaped(b.latency)
  {
    QueryTotals(a.profile, Merged(a.latency, b.latency), a.errors + b.errors,
                a.returned + b.returned, a.affected + b.affected)
  }

  /** What one event adds, limit aside. */
  function Added(p: Pending, e: Event): (r: Pending)
    requires Valid(p)
    ensures Valid(r)
  {
    match e
    case Http(k, duration) => p.(http := p.http[k := Observed(HttpAt(p, k), duration)])
    case Query(k, profile, _, _, _, _) => p.(queries := p.queries[k := Counted(QueryAt(p, k, profile), e)])
    case Storage(project, sample) => p.(storage := p.storage[project := sample])
  }

  function Aggregated(p: Pending, e: Event): (r: Pending)
    requires Valid(p)
    ensures Valid(r)
  {
    if Drops(p, e) then p else Added(p, e)
  }

  function Batch(p: Pending, events: seq<Event>): (r: Pending)
    requires Valid(p)
    ensures Valid(r)
  {
    if events == [] then p else Aggregated(Batch(p, events[..|events| - 1]), events[|events| - 1])
  }

  // ---------------------------------------------------------------- merging

  function MergedHttp(a: map<HttpKey, Histogram>, b: map<HttpKey, Histogram>): map<HttpKey, Histogram>
    requires forall k :: k in a ==> Shaped(a[k])
    requires forall k :: k in b ==> Shaped(b[k])
  {
    map k | k in a.Keys + b.Keys :: if k !in b then a[k] else Merged(if k in a then a[k] else EMPTY, b[k])
  }

  function MergedQueries(a: map<QueryKey, QueryTotals>, b: map<QueryKey, QueryTotals>): map<QueryKey, QueryTotals>
    requires forall k :: k in a ==> Shaped(a[k].latency)
    requires forall k :: k in b ==> Shaped(b[k].latency)
  {
    map k | k in a.Keys + b.Keys ::
      if k !in b then a[k]
      else Combined(if k in a then a[k] else QueryTotals(b[k].profile, EMPTY, 0, 0, 0), b[k])
  }

  /** The incoming sample of a project wins unless the current one was taken later. */
  function MergedStorage(a: map<string, Sample>, b: map<string, Sample>): map<string, Sample> {
    map k | k in a.Keys + b.Keys ::
      if k in b && (k !in a || a[k].at <= b[k].at) then b[k] else a[k]
  }

  /** merge_pending; the database's upserts follow the same rules. */
  function MergedPending(a: Pending, b: Pending): (r: Pending)
    requires Valid(a) && Valid(b)
    ensures Valid(r)
  {
    Pending(MergedHttp(a.http, b.http), MergedQueries(a.queries, b.queries), MergedStorage(a.storage, b.storage))
  }

  // ---------------------------------------------------------------- the recorder as it runs

  class Buffer {
    var pending: Pending
    var dropped: nat

    ghost predicate Ready() reads this { Valid(pending) && KeyCount(pending) <= MAX_PENDING_KEYS }

    constructor ()
      ensures Ready() && pending == NOTHING && dropped == 0
    {
      pending, dropped := NOTHING, 0;
    }

    method Aggregate(e: Event)
      requires Ready()
      modifies this
      ensures Ready()
      ensures pending == Aggregated(old(pending), e)
      ensures dropped == old(dropped) + if Drops(old(pending), e) then 1 else 0
    {
      AddedKeys(pending, e);
      if !Knows(pending, e) && MAX_PENDING_KEYS <= KeyCount(pending) {
        dropped := dropped + 1;
        return;
      }
      match e
      case Http(k, duration) =>
        var entry := if k in pending.http then pending.http[k] else EMPTY;
        pending := pending.(http := pending.http[k := Observed(entry, duration)]);
      case Query(k, profile, duration, failed, returned, affected) =>
        var entry := if k in pending.queries then pending.queries[k] else QueryTotals(profile, EMPTY, 0, 0, 0);
        entry := entry.(latency := Observed(entry.latency, duration));
        entry := entry.(errors := entry.errors + if failed then 1 else 0,
                        returned := entry.returned + returned, affected := entry.affected + affected);
        pending := pending.(queries := pending.queries[k := entry]);
      case Storage(project, sample) =>
        pending := pending.(storage := pending.storage[project := sample]);
    }

    /** Key by key, as merge_pending does. */
    method Merge(incoming: Pending)
      requires Valid(pending) && Valid(incoming)
      modifies this`pending
      ensures Valid(pending) && pending == MergedPending(old(pending), incoming)
    {
      MergeHttp(incoming.http);
      MergeQueries(incoming.queries);
      MergeStorage(incoming.storage);
    }

    method MergeStorage(incoming: map<string, Sample>)
      modifies this`pending
      ensures pending == old(pending).(storage := MergedStorage(old(pending).storage, incoming))
    {
      var rest := incoming.Keys;
      while rest != {}
        invariant rest <= incoming.Keys
        invariant pending == old(pending).(storage := MergedStorage(old(pending).storage, incoming - rest))
      {
        var k :| k in rest;
        MergedStorageOneMore(old(pending).storage, incoming, rest, k);
        rest := rest - {k};
        if k !in pending.storage || pending.storage[k].at <= incoming[k].at {
          pending := pending.(storage := pending.storage[k := incoming[k]]);
        }
      }
      assert incoming - rest == incoming;
    }

    method MergeHttp(incoming: map<HttpKey, Histogram>)
      requires Valid(pending) && forall k :: k in incoming ==> Shaped(incoming[k])
      modifies this`pending
      ensures Valid(pending) && pending == old(pending).(http := MergedHttp(old(pending).http, incoming))
    {
      var rest := incoming.Keys;
      MergedHttpNone(pending.http);
      while rest != {}
        invariant rest <= incoming.Keys
        invariant pending == old(pending).(http := MergedHttp(old(pending).http, incoming - rest))
      {
        var k :| k in rest;
        MergedHttpOneMore(old(pending).http, incoming, rest, k);
        var entry := if k in pending.http then pending.http[k] else EMPTY;
        rest := rest - {k};
        pending := pending.(http := pending.http[k := Merged(entry, incoming[k])]);
      }
      assert incoming - rest == incoming;
    }

    method MergeQueries(incoming: map<QueryKey, QueryTotals>)
      requires Valid(pending) && forall k :: k in incoming ==> Shaped(incoming[k].latency)
      modifies this`pending
      ensures Valid(pending) && pending == old(pending).(queries := MergedQueries(old(pending).queries, incoming))
    {
      var rest := incoming.Keys;
      while rest != {}
        invariant rest <= incoming.Keys
        invariant pending == old(pending).(queries := MergedQueries(old(pending).queries, incoming - rest))
      {
        var k :| k in rest;
        MergedQueriesOneMore(old(pending).queries, incoming, rest, k);
        var entry := if k in pending.queries then pending.queries[k]
                     else QueryTotals(incoming[k].profile, EMPTY, 0, 0, 0);
        rest := rest - {k};
        entry := Combined(entry, incoming[k]);
        pending := pending.(queries := pending.queries[k := entry]);
      }
      assert incoming - rest == incoming;
    }

    /** Takes everything pending; puts it back when the database does not accept the batch. */
    method Flush(accepted: bool) returns (batch: Pending)
      requires Ready()
      modifies this`pending
      ensures Ready()
      ensures pending == if accepted then NOTHING else old(pending)
      ensures batch == if accepted then old(pending) else NOTHING
    {
      if pending.http == map[] && pending.queries == map[] && pending.storage == map[] {
        return NOTHING;
      }
      batch := pending;
      pending := NOTHING;
      if !accepted {
        MergeNothing(batch);
        Merge(batch);
        batch := NOTHING;
      }
    }
  }

  // ---------------------------------------------------------------- facts about keys and merging

  lemma SizeAfter<K, V>(m: map<K, V>, k: K, v: V)
    ensures |m[k := v]| == |m| + if k in m then 0 else 1
  {
    assert m[k := v].Keys == m.Keys + {k};
  }

  lemma AddedKeys(p: Pending, e: Event)
    requires Valid(p)
    ensures Knows(Added(p, e), e)
    ensures KeyCount(Added(p, e)) == KeyCount(p) + if Knows(p, e) then 0 else 1
  {
    match e
    case Http(k, duration) => SizeAfter(p.http, k, Observed(HttpAt(p, k), duration));
    case Query(k, profile, _, _, _, _) => SizeAfter(p.queries, k, Counted(QueryAt(p, k, profile), e));
    case Storage(k, sample) => SizeAfter(p.storage, k, sample);
  }

  lemma MergedStorageOneMore(a: map<string, Sample>, b: map<string, Sample>, rest: set<string>, k: string)
    requires k in rest && rest <= b.Keys
    ensures var before := MergedStorage(a, b - rest);
      MergedStorage(a, b - (rest - {k}))
      == if k !in before || before[k].at <= b[k].at then before[k := b[k]] else before
  {
  }

  lemma MergedHttpNone(a: map<HttpKey, Histogram>)
    requires forall k :: k in a ==> Shaped(a[k])
    ensures MergedHttp(a, map[]) == a && MergedHttp(map[], a) == a
  {
    forall k | k in a ensures MergedHttp(map[], a)[k] == a[k] { MergedEmpty(a[k]); }
  }

  lemma MergedHttpOneMore(a: map<HttpKey, Histogram>, b: map<HttpKey, Histogram>, rest: set<HttpKey>, k: HttpKey)
    requires (forall j :: j in a ==> Shaped(a[j])) && forall j :: j in b ==> Shaped(b[j])
    requires k in rest && rest <= b.Keys
    ensures var before := MergedHttp(a, b - rest);
      && (k in before ==> Shaped(before[k]))
      && MergedHttp(a, b - (rest - {k})) == before[k := Merged(if k in before then before[k] else EMPTY, b[k])]
  {
    if k in a { MergedEmpty(a[k]); }
  }

  lemma MergedQueriesOneMore(a: map<QueryKey, QueryTotals>, b: map<QueryKey, QueryTotals>, rest: set<QueryKey>,
                             k: QueryKey)
    requires (forall j :: j in a ==> Shaped(a[j].latency)) && forall j :: j in b ==> Shaped(b[j].latency)
    requires k in rest && rest <= b.Keys
    ensures var before := MergedQueries(a, b - rest);
      && (k in before ==> Shaped(before[k].latency))
      && MergedQueries(a, b - (rest - {k}))
         == before[k := Combined(if k in before then before[k] else QueryTotals(b[k].profile, EMPTY, 0, 0, 0), b[k])]
  {
  }

  lemma MergedQueriesNone(a: map<QueryKey, QueryTotals>)
    requires forall k :: k in a ==> Shaped(a[k].latency)
    ensures MergedQueries(a, map[]) == a && MergedQueries(map[], a) == a
  {
    forall k | k in a ensures MergedQueries(map[], a)[k] == a[k] { MergedEmpty(a[k].latency); }
  }

  lemma MergedStorageNone(a: map<string, Sample>)
    ensures MergedStorage(a, map[]) == a && MergedStorage(map[], a) == a
  {
  }

  /** Merging into an empty buffer gives the batch back unchanged. */
  lemma MergeNothing(p: Pending)
    requires Valid(p)
    ensures Valid(NOTHING) && MergedPending(NOTHING, p) == p && MergedPending(p, NOTHING) == p
  {
    MergedHttpNone(p.http);
    MergedQueriesNone(p.queries);
    MergedStorageNone(p.storage);
  }
}
