/** Nothing the recorder accepts is lost or counted twice, whatever the flushes do. */
module RecorderConservation {
  import opened Sums
  import opened Latency
  import opened Recorder

  // ---------------------------------------------------------------- merging is concatenating batches

  /** The aggregate of one batch after another: like merging, but the later batch's sample always wins. */
  function Joined(a: Pending, b: Pending): (r: Pending)
    requires Valid(a) && Valid(b)
    ensures Valid(r)
  {
    Pending(MergedHttp(a.http, b.http), MergedQueries(a.queries, b.queries), a.storage + b.storage)
  }

  /** No project's current sample was taken after its incoming one. */
  ghost predicate SamplesInOrder(a: Pending, b: Pending) {
    forall k :: k in a.storage && k in b.storage ==> a.storage[k].at <= b.storage[k].at
  }

  lemma MergeIsJoin(a: Pending, b: Pending)
    requires Valid(a) && Valid(b)
    ensures KeyCount(MergedPending(a, b)) == KeyCount(Joined(a, b))
    ensures MergedPending(a, b) == Joined(a, b) <==> SamplesInOrder(a, b)
  {
    assert MergedStorage(a.storage, b.storage).Keys == (a.storage + b.storage).Keys;
    StorageJoin(a.storage, b.storage);
  }

  lemma StorageJoin(a: map<string, Sample>, b: map<string, Sample>)
    ensures |MergedStorage(a, b)| == |a + b|
    ensures MergedStorage(a, b) == a + b <==> forall k :: k in a && k in b ==> a[k].at <= b[k].at
  {
    assert MergedStorage(a, b).Keys == (a + b).Keys;
    if k :| k in a && k in b && b[k].at < a[k].at {
      assert MergedStorage(a, b)[k] == a[k] != (a + b)[k];
    }
  }

  /** Changing the right side at one key changes the merged map at that key only. */
  lemma MergedHttpSet(a: map<HttpKey, Histogram>, b: map<HttpKey, Histogram>, k: HttpKey, v: Histogram)
    requires (forall j :: j in a ==> Shaped(a[j])) && forall j :: j in b ==> Shaped(b[j])
    requires Shaped(v)
    ensures MergedHttp(a, b[k := v]) == MergedHttp(a, b)[k := Merged(if k in a then a[k] else EMPTY, v)]
  {
  }

  lemma MergedQueriesSet(a: map<QueryKey, QueryTotals>, b: map<QueryKey, QueryTotals>, k: QueryKey, v: QueryTotals)
    requires (forall j :: j in a ==> Shaped(a[j].latency)) && forall j :: j in b ==> Shaped(b[j].latency)
    requires Shaped(v.latency)
    ensures MergedQueries(a, b[k := v])
         == MergedQueries(a, b)[k := Combined(if k in a then a[k] else QueryTotals(v.profile, EMPTY, 0, 0, 0), v)]
  {
  }

  lemma MergedHttpAt(a: Pending, b: Pending, k: HttpKey)
    requires Valid(a) && Valid(b)
    ensures var merged := MergedHttp(a.http, b.http);
      Merged(HttpAt(a, k), HttpAt(b, k)) == if k in merged then merged[k] else EMPTY
  {
    MergedEmpty(HttpAt(a, k));
  }

  lemma JoinAddHttp(a: Pending, b: Pending, k: HttpKey, duration: Duration)
    requires Valid(a) && Valid(b)
    ensures Joined(a, Added(b, Http(k, duration))).http == Added(Joined(a, b), Http(k, duration)).http
  {
    MergedHttpSet(a.http, b.http, k, Observed(HttpAt(b, k), duration));
    MergedObserved(HttpAt(a, k), HttpAt(b, k), duration);
    MergedHttpAt(a, b, k);
  }

  lemma CombinedCounted(left: QueryTotals, entry: QueryTotals, e: Event)
    requires Shaped(left.latency) && Shaped(entry.latency) && e.Query?
    ensures Combined(left, Counted(entry, e)) == Counted(Combined(left, entry), e)
  {
    MergedObserved(left.latency, entry.latency, e.duration);
  }

  lemma CombinedNone(left: QueryTotals, profile: Profile)
    requires Shaped(left.latency)
    ensures Combined(left, QueryTotals(profile, EMPTY, 0, 0, 0)) == left
  {
    MergedEmpty(left.latency);
  }

  lemma MergedQueryAt(a: Pending, b: Pending, k: QueryKey, profile: Profile)
    requires Valid(a) && Valid(b)
    ensures var merged, right := MergedQueries(a.queries, b.queries), QueryAt(b, k, profile);
      var both := Combined(QueryAt(a, k, right.profile), right);
      both == if k in merged then merged[k] else QueryTotals(profile, EMPTY, 0, 0, 0)
  {
    CombinedNone(QueryAt(a, k, profile), profile);
  }

  lemma JoinAddQuery(a: Pending, b: Pending, e: Event)
    requires Valid(a) && Valid(b) && e.Query?
    ensures Joined(a, Added(b, e)).queries == Added(Joined(a, b), e).queries
  {
    var k := e.queryKey;
    var right := QueryAt(b, k, e.profile);
    MergedQueriesSet(a.queries, b.queries, k, Counted(right, e));
    CombinedCounted(QueryAt(a, k, right.profile), right, e);
    MergedQueryAt(a, b, k, e.profile);
  }

  lemma JoinAdd(a: Pending, b: Pending, e: Event)
    requires Valid(a) && Valid(b)
    ensures Joined(a, Added(b, e)) == Added(Joined(a, b), e)
  {
    match e
    case Http(k, duration) => JoinAddHttp(a, b, k, duration);
    case Query(k, _, _, _, _, _) => JoinAddQuery(a, b, e);
    case Storage(k, sample) => assert a.storage + b.storage[k := sample] == (a.storage + b.storage)[k := sample];
  }

  lemma UnionSize<T>(a: set<T>, b: set<T>)
    ensures |b| <= |a + b| && (|a + b| == |b| ==> a <= b)
  {
    assert a + b == b + (a - b);
    assert |b + (a - b)| == |b| + |a - b|;
    if |a - b| == 0 { assert forall x :: x in a ==> x in b || x in a - b; }
  }

  lemma JoinedDomains(a: Pending, b: Pending)
    requires Valid(a) && Valid(b)
    ensures Joined(a, b).http.Keys == a.http.Keys + b.http.Keys
    ensures Joined(a, b).queries.Keys == a.queries.Keys + b.queries.Keys
    ensures Joined(a, b).storage.Keys == a.storage.Keys + b.storage.Keys
  {
  }

  ghost predicate Knowledge(a: Pending, b: Pending, joined: Pending, e: Event) {
    && (Knows(joined, e) <==> Knows(a, e) || Knows(b, e))
    && KeyCount(b) <= KeyCount(joined)
    && (KeyCount(joined) == KeyCount(b) ==> (Knows(joined, e) <==> Knows(b, e)))
  }

  lemma DomainsDecide(a: Pending, b: Pending, joined: Pending, e: Event)
    requires joined.http.Keys == a.http.Keys + b.http.Keys
    requires joined.queries.Keys == a.queries.Keys + b.queries.Keys
    requires joined.storage.Keys == a.storage.Keys + b.storage.Keys
    ensures Knowledge(a, b, joined, e)
  {
    UnionSize(a.http.Keys, b.http.Keys);
    UnionSize(a.queries.Keys, b.queries.Keys);
    UnionSize(a.storage.Keys, b.storage.Keys);
  }

  /** The join knows the keys of both sides; if it is no larger than its right side it has the same keys. */
  lemma JoinedKeys(a: Pending, b: Pending, e: Event)
    requires Valid(a) && Valid(b)
    ensures Knowledge(a, b, Joined(a, b), e)
  {
    JoinedDomains(a, b);
    DomainsDecide(a, b, Joined(a, b), e);
  }

  lemma {:induction false} BatchBounded(p: Pending, events: seq<Event>)
    requires Valid(p) && KeyCount(p) <= MAX_PENDING_KEYS
    ensures KeyCount(Batch(p, events)) <= MAX_PENDING_KEYS
  {
    if events == [] {
    } else {
      var n := |events| - 1;
      BatchBounded(p, events[..n]);
      AddedKeys(Batch(p, events[..n]), events[n]);
    }
  }

  lemma {:induction false} BatchConcat(p: Pending, s: seq<Event>, t: seq<Event>)
    requires Valid(p)
    ensures Batch(p, s + t) == Batch(Batch(p, s), t)
  {
    if t == [] {
      assert s + t == s;
    } else {
      BatchConcat(p, s, t[..|t| - 1]);
      assert (s + t)[..|s + t| - 1] == s + t[..|t| - 1];
    }
  }

  lemma JoinedGrows(a: Pending, b: Pending, e: Event)
    requires Valid(a) && Valid(b)
    ensures KeyCount(Joined(a, b)) <= KeyCount(Joined(a, Added(b, e)))
    ensures !Knows(Joined(a, b), e) ==> KeyCount(Joined(a, Added(b, e))) == KeyCount(Joined(a, b)) + 1
  {
    JoinAdd(a, b, e);
    AddedKeys(Joined(a, b), e);
  }

  /** As long as the join fits, continuing from `a` is joining `a` with a separate batch; the same
      events are dropped. */
  lemma {:induction false} BatchIsJoin(a: Pending, events: seq<Event>)
    requires Valid(a) && Valid(NOTHING)
    requires KeyCount(Joined(a, Batch(NOTHING, events))) <= MAX_PENDING_KEYS
    ensures Batch(a, events) == Joined(a, Batch(NOTHING, events))
  {
    if events == [] {
      MergeNothing(a);
      assert a.storage + map[] == a.storage;
    } else {
      var n, last := |events| - 1, events[|events| - 1];
      var b := Batch(NOTHING, events[..n]);
      JoinedGrows(a, b, last);
      assert KeyCount(Joined(a, b)) <= MAX_PENDING_KEYS;
      BatchIsJoin(a, events[..n]);
      JoinedKeys(a, b, last);
      JoinAdd(a, b, last);
      assert Drops(b, last) <==> Drops(Joined(a, b), last);
    }
  }

  /** Aggregating two batches apart and merging them equals aggregating their concatenation exactly
      when the merged keys fit the limit and no project's sample in the first batch is later than its
      sample in the second. */
  lemma MergeIsConcatenation(first: seq<Event>, second: seq<Event>)
    ensures Valid(NOTHING)
    ensures var a, b := Batch(NOTHING, first), Batch(NOTHING, second);
      MergedPending(a, b) == Batch(NOTHING, first + second)
      <==> KeyCount(MergedPending(a, b)) <= MAX_PENDING_KEYS && SamplesInOrder(a, b)
  {
    var a, b := Batch(NOTHING, first), Batch(NOTHING, second);
    MergeIsJoin(a, b);
    BatchConcat(NOTHING, first, second);
    BatchBounded(NOTHING, first + second);
    if KeyCount(MergedPending(a, b)) <= MAX_PENDING_KEYS { BatchIsJoin(a, second); }
  }

  /** Two storage samples of one project, the later one first: merging keeps it, one batch after the other
      ends with the earlier one. */
  lemma MergeKeepsLaterSample()
    ensures Valid(NOTHING)
    ensures var first, second := [Storage("p", Sample(1, 5))], [Storage("p", Sample(2, 3))];
      MergedPending(Batch(NOTHING, first), Batch(NOTHING, second)) != Batch(NOTHING, first + second)
  {
    var first, second := Storage("p", Sample(1, 5)), Storage("p", Sample(2, 3));
    OneEvent(NOTHING, first);
    OneEvent(NOTHING, second);
    assert !SamplesInOrder(Batch(NOTHING, [first]), Batch(NOTHING, [second])) by {
      assert "p" in Batch(NOTHING, [first]).storage && "p" in Batch(NOTHING, [second]).storage;
    }
    MergeIsConcatenation([first], [second]);
  }

  lemma OneEvent(p: Pending, e: Event)
    requires Valid(p)
    ensures Batch(p, [e]) == Aggregated(p, e)
  {
    assert [e][..0] == [];
  }

  // ---------------------------------------------------------------- the whole recorder

  /** The channel, the buffer, the database tables, and the events received, taken in and dropped so far. */
  datatype State = State(
    queue: seq<Event>, pending: Pending, tables: Pending, received: seq<Event>, accepted: seq<Event>,
    dropped: seq<Event>)

  datatype Step = Send(event: Event) | Take | Flush(succeeds: bool)

  ghost predicate Sane(s: State) { Valid(s.pending) && Valid(s.tables) }

  /** A full channel drops on sending, a full buffer on taking; a flush persists all or nothing. */
  function Next(s: State, step: Step): (r: State)
    requires Sane(s)
    ensures Sane(r)
  {
    match step
    case Send(event) =>
      var heard := s.(received := s.received + [event]);
      if |s.queue| < EVENT_BUFFER then heard.(queue := s.queue + [event]) else heard.(dropped := s.dropped + [event])
    case Take =>
      if s.queue == [] then s
      else
        var event, rest := s.queue[0], s.(queue := s.queue[1..]);
        if Drops(s.pending, event) then rest.(dropped := s.dropped + [event])
        else rest.(pending := Aggregated(s.pending, event), accepted := s.accepted + [event])
    case Flush(succeeds) =>
      MergeNothing(s.pending);
      if succeeds then s.(tables := MergedPending(s.tables, s.pending), pending := NOTHING)
      else s.(pending := MergedPending(NOTHING, s.pending))
  }

  const START: State := State([], NOTHING, NOTHING, [], [], [])

  function Run(steps: seq<Step>): (s: State)
    ensures Sane(s)
  {
    if steps == [] then START else Next(Run(steps[..|steps| - 1]), steps[|steps| - 1])
  }

  /** Everything the events add up to, with no limit and no flushing. */
  function Everything(events: seq<Event>): (p: Pending)
    ensures Valid(p)
  {
    if events == [] then NOTHING else Added(Everything(events[..|events| - 1]), events[|events| - 1])
  }

  predicate IsHttp(e: Event) { e.Http? }
  predicate IsQuery(e: Event) { e.Query? }

  function Count(events: seq<Event>, which: Event -> bool): nat {
    if events == [] then 0
    else Count(events[..|events| - 1], which) + if which(events[|events| - 1]) then 1 else 0
  }

  lemma {:induction false} CountConcat(s: seq<Event>, t: seq<Event>, which: Event -> bool)
    ensures Count(s + t, which) == Count(s, which) + Count(t, which)
  {
    if t == [] {
      assert s + t == s;
    } else {
      CountConcat(s, t[..|t| - 1], which);
      assert (s + t)[..|s + t| - 1] == s + t[..|t| - 1];
    }
  }

  /** Every received event of a kind waits, was taken in, or was dropped. */
  ghost predicate Tallied(received: seq<Event>, queue: seq<Event>, accepted: seq<Event>, dropped: seq<Event>,
                          which: Event -> bool) {
    Count(received, which) == Count(queue, which) + Count(accepted, which) + Count(dropped, which)
  }

  ghost predicate Conserved(s: State, which: Event -> bool) {
    && Sane(s)
    && KeyCount(s.pending) <= MAX_PENDING_KEYS
    && |s.queue| <= EVENT_BUFFER
    && Tallied(s.received, s.queue, s.accepted, s.dropped, which)
    && Exact(s.tables, s.pending, s.accepted)
  }

  /** What is stored and what is pending add up to the accepted events. */
  ghost predicate Exact(tables: Pending, pending: Pending, accepted: seq<Event>)
    requires Valid(tables) && Valid(pending)
  {
    && MergedHttp(tables.http, pending.http) == Everything(accepted).http
    && MergedQueries(tables.queries, pending.queries) == Everything(accepted).queries
  }

  lemma AddKeepsExact(tables: Pending, pending: Pending, events: seq<Event>, e: Event)
    requires Valid(tables) && Valid(pending) && Exact(tables, pending, events)
    ensures Exact(tables, Added(pending, e), events + [e])
  {
    assert (events + [e])[..|events|] == events;
    JoinAdd(tables, pending, e);
    assert Joined(tables, Added(pending, e)) == Added(Joined(tables, pending), e);
  }

  lemma PersistKeepsExact(tables: Pending, pending: Pending, events: seq<Event>)
    requires Valid(tables) && Valid(pending) && Exact(tables, pending, events)
    ensures Valid(NOTHING) && Exact(MergedPending(tables, pending), NOTHING, events)
  {
    MergeNothing(MergedPending(tables, pending));
  }

  lemma CountAppend(s: seq<Event>, e: Event, which: Event -> bool)
    ensures Count(s + [e], which) == Count(s, which) + if which(e) then 1 else 0
  {
    assert (s + [e])[..|s|] == s;
  }

  lemma CountTail(s: seq<Event>, which: Event -> bool)
    requires s != []
    ensures Count(s, which) == (if which(s[0]) then 1 else 0) + Count(s[1..], which)
  {
    assert s == [s[0]] + s[1..];
    CountConcat([s[0]], s[1..], which);
    CountAppend([], s[0], which);
    assert [] + [s[0]] == [s[0]];
  }

  lemma SendTallied(received: seq<Event>, queue: seq<Event>, accepted: seq<Event>, dropped: seq<Event>, e: Event,
                    which: Event -> bool)
    requires Tallied(received, queue, accepted, dropped, which)
    ensures Tallied(received + [e], queue + [e], accepted, dropped, which)
    ensures Tallied(received + [e], queue, accepted, dropped + [e], which)
  {
    CountAppend(received, e, which);
    CountAppend(queue, e, which);
    CountAppend(dropped, e, which);
  }

  lemma TakeTallied(received: seq<Event>, queue: seq<Event>, accepted: seq<Event>, dropped: seq<Event>,
                    which: Event -> bool)
    requires Tallied(received, queue, accepted, dropped, which) && queue != []
    ensures Tallied(received, queue[1..], accepted + [queue[0]], dropped, which)
    ensures Tallied(received, queue[1..], accepted, dropped + [queue[0]], which)
  {
    CountTail(queue, which);
    CountAppend(accepted, queue[0], which);
    CountAppend(dropped, queue[0], which);
  }

  lemma SendConserves(s: State, event: Event, which: Event -> bool)
    requires Conserved(s, which)
    ensures Conserved(Next(s, Send(event)), which)
  {
    SendTallied(s.received, s.queue, s.accepted, s.dropped, event, which);
  }

  lemma TakeConserves(s: State, which: Event -> bool)
    requires Conserved(s, which)
    ensures Conserved(Next(s, Take), which)
  {
    if s.queue != [] {
      TakeTallied(s.received, s.queue, s.accepted, s.dropped, which);
      if !Drops(s.pending, s.queue[0]) {
        AddedKeys(s.pending, s.queue[0]);
        AddKeepsExact(s.tables, s.pending, s.accepted, s.queue[0]);
      }
    }
  }

  lemma FlushConserves(s: State, succeeds: bool, which: Event -> bool)
    requires Conserved(s, which)
    ensures Conserved(Next(s, Flush(succeeds)), which)
  {
    MergeNothing(s.pending);
    PersistKeepsExact(s.tables, s.pending, s.accepted);
  }

  lemma StepConserves(s: State, step: Step, which: Event -> bool)
    requires Conserved(s, which)
    ensures Conserved(Next(s, step), which)
  {
    match step
    case Send(event) => SendConserves(s, event, which);
    case Take => TakeConserves(s, which);
    case Flush(succeeds) => FlushConserves(s, succeeds, which);
  }

  lemma {:induction false} RunConserves(steps: seq<Step>, which: Event -> bool)
    ensures Conserved(Run(steps), which)
  {
    if steps == [] {
    } else {
      var n := |steps| - 1;
      RunConserves(steps[..n], which);
      StepConserves(Run(steps[..n]), steps[n], which);
    }
  }

  /** A flush that fails changes nothing. */
  lemma FailedFlushIsHarmless(s: State)
    requires Sane(s)
    ensures Next(s, Flush(false)) == s
  {
    MergeNothing(s.pending);
  }

  // ---------------------------------------------------------------- per key

  /** The recorded durations of one HTTP key, in order. */
  function HttpSamples(events: seq<Event>, k: HttpKey): seq<real> {
    if events == [] then []
    else
      var e := events[|events| - 1];
      HttpSamples(events[..|events| - 1], k) + if e.Http? && e.httpKey == k then [Clamped(e.duration)] else []
  }

  /** What the events say about one statement fingerprint; the first profile seen names it. */
  datatype QueryStory = QueryStory(samples: seq<real>, profiles: seq<Profile>, errors: nat, returned: nat,
                                   affected: nat)

  const NO_STORY: QueryStory := QueryStory([], [], 0, 0, 0)

  function Told(story: QueryStory, e: Event): QueryStory requires e.Query? {
    QueryStory(story.samples + [Clamped(e.duration)], story.profiles + [e.profile],
               story.errors + (if e.failed then 1 else 0), story.returned + e.returned, story.affected + e.affected)
  }

  function QueryStoryOf(events: seq<Event>, k: QueryKey): QueryStory {
    if events == [] then NO_STORY
    else
      var e, story := events[|events| - 1], QueryStoryOf(events[..|events| - 1], k);
      if e.Query? && e.queryKey == k then Told(story, e) else story
  }

  /** The totals a story amounts to. */
  function TotalsOf(story: QueryStory): QueryTotals requires story.profiles != [] {
    QueryTotals(story.profiles[0], Of(story.samples), story.errors, story.returned, story.affected)
  }

  lemma CountedTold(story: QueryStory, e: Event)
    requires e.Query? && (story.profiles == [] ==> story == NO_STORY)
    ensures var totals := if story.profiles == [] then QueryTotals(e.profile, EMPTY, 0, 0, 0) else TotalsOf(story);
      Shaped(totals.latency) && Counted(totals, e) == TotalsOf(Told(story, e))
  {
    EmptyOf();
    ObservedOf(story.samples, e.duration);
  }

  lemma {:induction false} EverythingHttp(events: seq<Event>, k: HttpKey)
    ensures k in Everything(events).http <==> HttpSamples(events, k) != []
    ensures k in Everything(events).http ==> Everything(events).http[k] == Of(HttpSamples(events, k))
  {
    EmptyOf();
    if events == [] {
    } else {
      var n := |events| - 1;
      EverythingHttp(events[..n], k);
      var e := events[n];
      assert HttpSamples(events[..n], k) + [] == HttpSamples(events[..n], k);
      if e.Http? && e.httpKey == k { ObservedOf(HttpSamples(events[..n], k), e.duration); }
    }
  }

  lemma {:induction false} EverythingQueries(events: seq<Event>, k: QueryKey)
    ensures var story, totals := QueryStoryOf(events, k), Everything(events).queries;
      && (story.profiles == [] ==> story == NO_STORY)
      && (k in totals <==> story.profiles != [])
      && (k in totals ==> totals[k] == TotalsOf(story))
  {
    if events == [] {
    } else {
      var n := |events| - 1;
      EverythingQueries(events[..n], k);
      var e := events[n];
      if e.Query? && e.queryKey == k { CountedTold(QueryStoryOf(events[..n], k), e); }
    }
  }

  /** In every run, what the database holds for an HTTP key merged with what is pending is exactly the
      histogram of that key's accepted samples. */
  lemma HttpExact(steps: seq<Step>, k: HttpKey)
    ensures var s := Run(steps);
      Merged(HttpAt(s.tables, k), HttpAt(s.pending, k)) == Of(HttpSamples(s.accepted, k))
  {
    var s := Run(steps);
    RunConserves(steps, IsHttp);
    EverythingHttp(s.accepted, k);
    EmptyOf();
    MergedHttpAt(s.tables, s.pending, k);
  }

  /** The same for a statement fingerprint: latency, errors, rows and the first profile seen. */
  lemma QueryExact(steps: seq<Step>, k: QueryKey)
    ensures var s := Run(steps);
      var story, merged := QueryStoryOf(s.accepted, k), MergedQueries(s.tables.queries, s.pending.queries);
      && (k in merged <==> story.profiles != [])
      && (k in merged ==> merged[k] == TotalsOf(story))
  {
    RunConserves(steps, IsQuery);
    EverythingQueries(Run(steps).accepted, k);
  }

  // ---------------------------------------------------------------- totals

  function HttpTally(m: map<HttpKey, Histogram>): HttpKey -> int { k => if k in m then m[k].count else 0 }
  function QueryTally(m: map<QueryKey, QueryTotals>): QueryKey -> int { k => if k in m then m[k].latency.count else 0 }

  ghost function HttpTotal(p: Pending): int { Sum(p.http.Keys, HttpTally(p.http)) }
  ghost function QueryTotal(p: Pending): int { Sum(p.queries.Keys, QueryTally(p.queries)) }

  /** Two tallies over their own keys add up to the joint tally over the joint keys. */
  lemma TallyUnion<K(!new)>(a: set<K>, b: set<K>, f: K -> int, g: K -> int, h: K -> int)
    requires forall k :: k !in a ==> f(k) == 0
    requires forall k :: k !in b ==> g(k) == 0
    requires forall k :: k in a + b ==> h(k) == f(k) + g(k)
    ensures Sum(a + b, h) == Sum(a, f) + Sum(b, g)
  {
    SumPlus(a + b, f, g, h);
    SumExtend(a, b, f);
    SumExtend(b, a, g);
    assert b + a == a + b;
  }

  lemma MergedHttpTotal(a: map<HttpKey, Histogram>, b: map<HttpKey, Histogram>)
    requires (forall k :: k in a ==> Shaped(a[k])) && forall k :: k in b ==> Shaped(b[k])
    ensures var m := MergedHttp(a, b);
      Sum(m.Keys, HttpTally(m)) == Sum(a.Keys, HttpTally(a)) + Sum(b.Keys, HttpTally(b))
  {
    var m := MergedHttp(a, b);
    assert m.Keys == a.Keys + b.Keys;
    TallyUnion(a.Keys, b.Keys, HttpTally(a), HttpTally(b), HttpTally(m));
  }

  lemma MergedQueryTotal(a: map<QueryKey, QueryTotals>, b: map<QueryKey, QueryTotals>)
    requires (forall k :: k in a ==> Shaped(a[k].latency)) && forall k :: k in b ==> Shaped(b[k].latency)
    ensures var m := MergedQueries(a, b);
      Sum(m.Keys, QueryTally(m)) == Sum(a.Keys, QueryTally(a)) + Sum(b.Keys, QueryTally(b))
  {
    var m := MergedQueries(a, b);
    assert m.Keys == a.Keys + b.Keys;
    TallyUnion(a.Keys, b.Keys, QueryTally(a), QueryTally(b), QueryTally(m));
  }

  lemma MergedTotals(a: Pending, b: Pending)
    requires Valid(a) && Valid(b)
    ensures HttpTotal(Joined(a, b)) == HttpTotal(a) + HttpTotal(b)
    ensures QueryTotal(Joined(a, b)) == QueryTotal(a) + QueryTotal(b)
  {
    MergedHttpTotal(a.http, b.http);
    MergedQueryTotal(a.queries, b.queries);
  }

  lemma TallyStep<K(!new)>(keys: set<K>, k: K, f: K -> int, g: K -> int)
    requires forall j :: j !in keys ==> f(j) == 0
    requires forall j :: j in keys && j != k ==> f(j) == g(j)
    requires g(k) == f(k) + 1
    ensures Sum(keys + {k}, g) == Sum(keys, f) + 1
  {
    if k in keys {
      SumChange(keys, f, g, k);
      assert keys + {k} == keys;
    } else {
      SumInsert(keys, f, g, k);
    }
  }

  lemma {:induction false} EverythingTotals(events: seq<Event>)
    ensures HttpTotal(Everything(events)) == Count(events, IsHttp)
    ensures QueryTotal(Everything(events)) == Count(events, IsQuery)
  {
    if events == [] {
    } else {
      var n, last := |events| - 1, events[|events| - 1];
      EverythingTotals(events[..n]);
      var before, after := Everything(events[..n]), Everything(events);
      match last
      case Http(k, _) =>
        assert after.http.Keys == before.http.Keys + {k};
        TallyStep(before.http.Keys, k, HttpTally(before.http), HttpTally(after.http));
      case Query(k, _, _, _, _, _) =>
        assert after.queries.Keys == before.queries.Keys + {k};
        TallyStep(before.queries.Keys, k, QueryTally(before.queries), QueryTally(after.queries));
      case Storage(_, _) =>
    }
  }

  /** In every run, HTTP events received are those persisted, pending, queued or dropped; so are query events;
      the buffer and the channel keep their bounds. */
  lemma ReceivedIsAccountedFor(steps: seq<Step>)
    ensures var s := Run(steps);
      && Count(s.received, IsHttp)
         == HttpTotal(s.tables) + HttpTotal(s.pending) + Count(s.queue, IsHttp) + Count(s.dropped, IsHttp)
      && Count(s.received, IsQuery)
         == QueryTotal(s.tables) + QueryTotal(s.pending) + Count(s.queue, IsQuery) + Count(s.dropped, IsQuery)
      && KeyCount(s.pending) <= MAX_PENDING_KEYS && |s.queue| <= EVENT_BUFFER
  {
    var s := Run(steps);
    RunConserves(steps, IsHttp);
    RunConserves(steps, IsQuery);
    EverythingTotals(s.accepted);
    MergedTotals(s.tables, s.pending);
    assert HttpTotal(Joined(s.tables, s.pending)) == HttpTotal(Everything(s.accepted));
    assert QueryTotal(Joined(s.tables, s.pending)) == QueryTotal(Everything(s.accepted));
  }
}
