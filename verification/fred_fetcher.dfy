/** The scheduled FRED job (backend/fetchers/fred_fetcher.py): for each
    default series, fetch its observations, write the latest value as a
    metric, cache the whole series, and keep going when any of these raises.

    The three collaborators are not modelled. What each of them does for a
    series is given as a `SeriesOutcome`, and the job's observable behaviour is
    the trace of calls it makes to them and of the lines it logs, in order. */
module FredFetcher {
  import opened Wrappers
  import opened Seqs
  import opened IndicatorModels

  const DefaultSeries: seq<string> := ["GDP", "CPIAUCSL", "UNRATE", "FEDFUNDS"]
  const Measurement := "fred"
  const CachePrefix := "fred:"
  /** Expiry of the cached series, in seconds. */
  const CacheTtl := 900

  /** What the collaborators do for one series: the fetched series (`None`
      when the fetch raises), whether the metric write raises, and whether
      the cache write raises. */
  datatype SeriesOutcome = SeriesOutcome(fetched: Option<IndicatorSeries>, writeFails: bool, cacheFails: bool)

  /** A call the job makes, or a line it logs. */
  datatype Action =
    | FetchObservations(seriesId: string)
    | WriteMetric(measurement: string, tagSeriesId: string, value: Option<real>)
    | CacheSet(key: string, series: IndicatorSeries, ttl: int)
    | LogInfo(seriesId: string, points: nat)
    | LogFailure(seriesId: string)

  function CacheKey(seriesId: string): (k: string)
    ensures |k| == |CachePrefix| + |seriesId|
    ensures k[..|CachePrefix|] == CachePrefix && k[|CachePrefix|..] == seriesId
  {
    CachePrefix + seriesId
  }

  /** The fetch succeeded with at least one point, so a metric is written. */
  predicate WritesMetric(o: SeriesOutcome) {
    o.fetched.Some? && |o.fetched.value.data| > 0
  }

  /** The fetch succeeded and no metric write raised, so the cache write is attempted. */
  predicate CachesSeries(o: SeriesOutcome) {
    o.fetched.Some? && !(WritesMetric(o) && o.writeFails)
  }

  /** `WritesMetric` and `CachesSeries` as filters over series ids. */
  function WritesFor(outcome: string -> SeriesOutcome): string -> bool {
    id => WritesMetric(outcome(id))
  }

  function CachesFor(outcome: string -> SeriesOutcome): string -> bool {
    id => CachesSeries(outcome(id))
  }

  /** Every step for the series went through. */
  predicate Succeeds(o: SeriesOutcome) {
    CachesSeries(o) && !o.cacheFails
  }

  /** The calls and log lines of one pass of the loop body. */
  function SeriesTrace(seriesId: string, o: SeriesOutcome): seq<Action> {
    var fetch := [FetchObservations(seriesId)];
    match o.fetched
    case None => fetch + [LogFailure(seriesId)]
    case Some(s) =>
      var write := if |s.data| > 0 then [WriteMetric(Measurement, seriesId, s.data[|s.data| - 1].value)] else [];
      if |s.data| > 0 && o.writeFails then fetch + write + [LogFailure(seriesId)]
      else
        var log := if o.cacheFails then LogFailure(seriesId) else LogInfo(seriesId, |s.data|);
        fetch + write + [CacheSet(CacheKey(seriesId), s, CacheTtl), log]
  }

  /** The trace of the whole loop over `ids`: the passes one after the other. */
  function Run(ids: seq<string>, outcome: string -> SeriesOutcome): seq<Action> {
    if |ids| == 0 then []
    else Run(ids[..|ids| - 1], outcome) + SeriesTrace(ids[|ids| - 1], outcome(ids[|ids| - 1]))
  }

  /** `fetch_fred_indicators`, generalised over the list of series: the loop
      itself, whose trace is the passes of `Run`. Any `Exception` a collaborator
      raises ends only the pass of its own series. */
  method FetchAll(ids: seq<string>, outcome: string -> SeriesOutcome) returns (trace: seq<Action>)
    ensures trace == Run(ids, outcome)
    ensures Requested(trace) == ids
    ensures Written(trace) == Filter(ids, WritesFor(outcome))
    ensures CachedKeys(trace) == CacheKeys(Filter(ids, CachesFor(outcome)))
  {
    trace := [];
    var i := 0;
    while i < |ids|
      invariant 0 <= i <= |ids|
      invariant trace == Run(ids[..i], outcome)
    {
      var id := ids[i];
      assert ids[..i + 1][..i] == ids[..i];
      trace := trace + SeriesTrace(id, outcome(id));
      i := i + 1;
    }
    assert ids[..|ids|] == ids;
    RunRequests(ids, outcome);
    RunWrites(ids, outcome);
    RunCaches(ids, outcome);
  }

  /** `fetch_fred_indicators` itself. */
  method FetchFredIndicators(outcome: string -> SeriesOutcome) returns (trace: seq<Action>)
    ensures trace == Run(DefaultSeries, outcome)
    ensures Requested(trace) == DefaultSeries
    ensures Written(trace) == Filter(DefaultSeries, WritesFor(outcome))
    ensures CachedKeys(trace) == CacheKeys(Filter(DefaultSeries, CachesFor(outcome)))
    ensures forall c :: c in trace && c.WriteMetric? ==>
      && c.measurement == Measurement
      && WritesMetric(outcome(c.tagSeriesId))
      && c.value == LastValue(outcome(c.tagSeriesId).fetched.value)
    ensures forall c :: c in trace && c.CacheSet? ==> c.ttl == CacheTtl
    ensures forall id :: id in Written(trace) <==> id in DefaultSeries && WritesMetric(outcome(id))
    ensures forall id :: CacheKey(id) in CachedKeys(trace) <==> id in DefaultSeries && CachesSeries(outcome(id))
  {
    trace := FetchAll(DefaultSeries, outcome);
    WhoIsWrittenAndCached(DefaultSeries, outcome, trace);
    RunWriteValues(DefaultSeries, outcome);
    RunCacheValues(DefaultSeries, outcome);
  }

  /** Reads the two filters of `FetchAll` as membership conditions. */
  lemma WhoIsWrittenAndCached(ids: seq<string>, outcome: string -> SeriesOutcome, trace: seq<Action>)
    requires Written(trace) == Filter(ids, WritesFor(outcome))
    requires CachedKeys(trace) == CacheKeys(Filter(ids, CachesFor(outcome)))
    ensures forall id :: id in Written(trace) <==> id in ids && WritesMetric(outcome(id))
    ensures forall id :: CacheKey(id) in CachedKeys(trace) <==> id in ids && CachesSeries(outcome(id))
  {
    FilterMembers(ids, WritesFor(outcome));
    var p := CachesFor(outcome);
    FilterMembers(ids, p);
    forall id ensures CacheKey(id) in CachedKeys(trace) <==> id in ids && CachesSeries(outcome(id)) {
      CacheKeysMembership(Filter(ids, p), id);
    }
  }

  // ---------------------------------------------------------------------
  // Reading a trace

  /** The values `sel` picks out of the calls of `trace`, in order. */
  function Picked(trace: seq<Action>, sel: Action -> Option<string>): (r: seq<string>)
    ensures |r| <= |trace|
  {
    if |trace| == 0 then []
    else Picks(sel(trace[0])) + Picked(trace[1..], sel)
  }

  function Picks(x: Option<string>): seq<string> {
    if x.Some? then [x.value] else []
  }

  function RequestedId(c: Action): Option<string> {
    if c.FetchObservations? then Some(c.seriesId) else None
  }

  function WrittenId(c: Action): Option<string> {
    if c.WriteMetric? then Some(c.tagSeriesId) else None
  }

  function CachedKey(c: Action): Option<string> {
    if c.CacheSet? then Some(c.key) else None
  }

  /** The series ids whose observations were requested, in order. */
  function Requested(trace: seq<Action>): seq<string> {
    Picked(trace, RequestedId)
  }

  /** The series ids a metric was written for, in order. */
  function Written(trace: seq<Action>): seq<string> {
    Picked(trace, WrittenId)
  }

  /** The cache keys written, in order. */
  function CachedKeys(trace: seq<Action>): seq<string> {
    Picked(trace, CachedKey)
  }

  /** The cache key of each id, in order. */
  function CacheKeys(ids: seq<string>): (r: seq<string>)
    ensures |r| == |ids|
    ensures forall i :: 0 <= i < |ids| ==> r[i] == CacheKey(ids[i])
  {
    if |ids| == 0 then [] else CacheKeys(ids[..|ids| - 1]) + [CacheKey(ids[|ids| - 1])]
  }

  lemma {:induction false} PickedConcat(a: seq<Action>, b: seq<Action>, sel: Action -> Option<string>)
    ensures Picked(a + b, sel) == Picked(a, sel) + Picked(b, sel)
  {
    if |a| == 0 {
      assert a + b == b;
    } else {
      assert (a + b)[1..] == a[1..] + b;
      PickedConcat(a[1..], b, sel);
    }
  }

  lemma PickedTwo(c1: Action, c2: Action, sel: Action -> Option<string>)
    ensures Picked([c1, c2], sel) == Picks(sel(c1)) + Picks(sel(c2))
  {
    assert [c1, c2][1..] == [c2];
    assert [c2][1..] == [];
  }

  lemma PickedThree(c1: Action, c2: Action, c3: Action, sel: Action -> Option<string>)
    ensures Picked([c1, c2, c3], sel) == Picks(sel(c1)) + Picks(sel(c2)) + Picks(sel(c3))
  {
    assert [c1, c2, c3][1..] == [c2, c3];
    PickedTwo(c2, c3, sel);
  }

  lemma PickedFour(c1: Action, c2: Action, c3: Action, c4: Action, sel: Action -> Option<string>)
    ensures Picked([c1, c2, c3, c4], sel) == Picks(sel(c1)) + Picks(sel(c2)) + Picks(sel(c3)) + Picks(sel(c4))
  {
    assert [c1, c2, c3, c4][1..] == [c2, c3, c4];
    PickedThree(c2, c3, c4, sel);
  }

  /** What one pass contributes to each reading of the trace. */
  lemma SeriesTracePicks(id: string, o: SeriesOutcome)
    ensures Picked(SeriesTrace(id, o), RequestedId) == [id]
    ensures Picked(SeriesTrace(id, o), WrittenId) == if WritesMetric(o) then [id] else []
    ensures Picked(SeriesTrace(id, o), CachedKey) == if CachesSeries(o) then [CacheKey(id)] else []
  {
    PassPicks(id, o, RequestedId);
    PassPicks(id, o, WrittenId);
    PassPicks(id, o, CachedKey);
  }

  /** What `sel` picks out of one pass, call by call. */
  lemma PassPicks(id: string, o: SeriesOutcome, sel: Action -> Option<string>)
    ensures Picked(SeriesTrace(id, o), sel) ==
      Picks(sel(FetchObservations(id)))
      + (if WritesMetric(o) then Picks(sel(WriteMetric(Measurement, id, LastValue(o.fetched.value)))) else [])
      + (if CachesSeries(o) then Picks(sel(CacheSet(CacheKey(id), o.fetched.value, CacheTtl))) else [])
      + Picks(sel(if Succeeds(o) then LogInfo(id, |o.fetched.value.data|) else LogFailure(id)))
  {
    if o.fetched.None? {
      PickedTwo(FetchObservations(id), LogFailure(id), sel);
    } else if WritesMetric(o) {
      FetchedPicks(id, o, sel);
    } else {
      var log := if o.cacheFails then LogFailure(id) else LogInfo(id, 0);
      PickedThree(FetchObservations(id), CacheSet(CacheKey(id), o.fetched.value, CacheTtl), log, sel);
    }
  }

  /** `PassPicks` for a series fetched with data. */
  lemma FetchedPicks(id: string, o: SeriesOutcome, sel: Action -> Option<string>)
    requires WritesMetric(o)
    ensures Picked(SeriesTrace(id, o), sel) ==
      Picks(sel(FetchObservations(id)))
      + Picks(sel(WriteMetric(Measurement, id, LastValue(o.fetched.value))))
      + (if CachesSeries(o) then Picks(sel(CacheSet(CacheKey(id), o.fetched.value, CacheTtl))) else [])
      + Picks(sel(if Succeeds(o) then LogInfo(id, |o.fetched.value.data|) else LogFailure(id)))
  {
    var s := o.fetched.value;
    var fetch := FetchObservations(id);
    var write := WriteMetric(Measurement, id, LastValue(s));
    if o.writeFails {
      PickedThree(fetch, write, LogFailure(id), sel);
    } else {
      var log := if o.cacheFails then LogFailure(id) else LogInfo(id, |s.data|);
      PickedFour(fetch, write, CacheSet(CacheKey(id), s, CacheTtl), log, sel);
    }
  }

  // ---------------------------------------------------------------------
  // Properties of the loop

  /** Every id is requested exactly once, in list order, whatever fails. */
  lemma {:induction false} RunRequests(ids: seq<string>, outcome: string -> SeriesOutcome)
    ensures Requested(Run(ids, outcome)) == ids
  {
    if |ids| > 0 {
      var init := ids[..|ids| - 1];
      var last := ids[|ids| - 1];
      var a := Run(init, outcome);
      var b := SeriesTrace(last, outcome(last));
      assert Picked(a, RequestedId) == init by { RunRequests(init, outcome); }
      assert Picked(b, RequestedId) == [last] by { SeriesTracePicks(last, outcome(last)); }
      PickedConcat(a, b, RequestedId);
      assert ids == init + [last];
    }
  }

  /** A metric is written, once and in list order, for exactly the ids whose
      fetch returned data. */
  lemma {:induction false} RunWrites(ids: seq<string>, outcome: string -> SeriesOutcome)
    ensures Written(Run(ids, outcome)) == Filter(ids, WritesFor(outcome))
  {
    if |ids| > 0 {
      var init := ids[..|ids| - 1];
      var last := ids[|ids| - 1];
      RunWrites(init, outcome);
      PickedConcat(Run(init, outcome), SeriesTrace(last, outcome(last)), WrittenId);
      SeriesTracePicks(last, outcome(last));
    }
  }

  /** The series is cached, once and in list order, for exactly the ids whose
      fetch succeeded and whose metric write, if any, did not raise. */
  lemma {:induction false} RunCaches(ids: seq<string>, outcome: string -> SeriesOutcome)
    ensures CachedKeys(Run(ids, outcome)) == CacheKeys(Filter(ids, CachesFor(outcome)))
  {
    var p := CachesFor(outcome);
    if |ids| > 0 {
      var init := ids[..|ids| - 1];
      var last := ids[|ids| - 1];
      RunCaches(init, outcome);
      PickedConcat(Run(init, outcome), SeriesTrace(last, outcome(last)), CachedKey);
      SeriesTracePicks(last, outcome(last));
      if p(last) {
        var f := Filter(ids, p);
        assert f[..|f| - 1] == Filter(init, p);
      }
    }
  }

  /** Every metric write in the trace is a "fred" measurement tagged with a
      listed id whose fetch succeeded, carrying the value of its last point. */
  lemma {:induction false} RunWriteValues(ids: seq<string>, outcome: string -> SeriesOutcome)
    ensures forall c :: c in Run(ids, outcome) && c.WriteMetric? ==>
      && c.measurement == Measurement
      && c.tagSeriesId in ids
      && WritesMetric(outcome(c.tagSeriesId))
      && c.value == LastValue(outcome(c.tagSeriesId).fetched.value)
  {
    if |ids| > 0 {
      var init := ids[..|ids| - 1];
      var last := ids[|ids| - 1];
      RunWriteValues(init, outcome);
      assert forall id :: id in init ==> id in ids;
    }
  }

  /** Every cache write in the trace stores a fetched series, under its
      "fred:" key, for 900 seconds. */
  lemma {:induction false} RunCacheValues(ids: seq<string>, outcome: string -> SeriesOutcome)
    ensures forall c :: c in Run(ids, outcome) && c.CacheSet? ==>
      && c.ttl == CacheTtl
      && exists id :: id in ids && c.key == CacheKey(id) && outcome(id).fetched == Some(c.series)
  {
    if |ids| > 0 {
      var init := ids[..|ids| - 1];
      var last := ids[|ids| - 1];
      RunCacheValues(init, outcome);
      assert forall id :: id in init ==> id in ids;
    }
  }

  /** The value a metric write carries: that of the series' last point. */
  function LastValue(s: IndicatorSeries): Option<real>
    requires |s.data| > 0
  {
    s.data[|s.data| - 1].value
  }

  /** Different series are cached under different keys. */
  lemma CacheKeyInjective(a: string, b: string)
    requires CacheKey(a) == CacheKey(b)
    ensures a == b
  {
    assert a == CacheKey(a)[|CachePrefix|..];
  }

  lemma CacheKeysMembership(ids: seq<string>, id: string)
    ensures CacheKey(id) in CacheKeys(ids) <==> id in ids
  {
    if CacheKey(id) in CacheKeys(ids) {
      var i :| 0 <= i < |ids| && CacheKeys(ids)[i] == CacheKey(id);
      CacheKeyInjective(ids[i], id);
    }
    if id in ids {
      var i :| 0 <= i < |ids| && ids[i] == id;
      assert CacheKeys(ids)[i] == CacheKey(id);
    }
  }

  // ---------------------------------------------------------------------
  // The job's test scenarios

  /** A pass that goes through ends with the info line; any failure ends it
      with the failure line instead, and the loop still moves on. */
  lemma PassEndsWithLog(id: string, o: SeriesOutcome)
    ensures var t := SeriesTrace(id, o);
      && t[0] == FetchObservations(id)
      && (Succeeds(o) ==> t[|t| - 1] == LogInfo(id, |o.fetched.value.data|))
      && (!Succeeds(o) ==> t[|t| - 1] == LogFailure(id))
  {
  }

  /** Every fetch returned data: a metric is written for every series. */
  lemma AllWritten(ids: seq<string>, outcome: string -> SeriesOutcome)
    requires forall i :: 0 <= i < |ids| ==> WritesMetric(outcome(ids[i]))
    ensures Written(Run(ids, outcome)) == ids
  {
    RunWrites(ids, outcome);
    FilterAll(ids, WritesFor(outcome));
  }

  /** The first metric is not written and the others are. */
  lemma AllButFirstWritten(ids: seq<string>, outcome: string -> SeriesOutcome)
    requires |ids| > 0 && !WritesMetric(outcome(ids[0]))
    requires forall i :: 1 <= i < |ids| ==> WritesMetric(outcome(ids[i]))
    ensures Written(Run(ids, outcome)) == ids[1..]
  {
    RunWrites(ids, outcome);
    FilterSkipsFirst(ids, WritesFor(outcome));
  }

  /** Every series reaches the cache write. */
  lemma AllCached(ids: seq<string>, outcome: string -> SeriesOutcome)
    requires forall i :: 0 <= i < |ids| ==> CachesSeries(outcome(ids[i]))
    ensures CachedKeys(Run(ids, outcome)) == CacheKeys(ids)
  {
    RunCaches(ids, outcome);
    FilterAll(ids, CachesFor(outcome));
  }

  /** Every series but the first reaches the cache write. */
  lemma AllButFirstCached(ids: seq<string>, outcome: string -> SeriesOutcome)
    requires |ids| > 0 && !CachesSeries(outcome(ids[0]))
    requires forall i :: 1 <= i < |ids| ==> CachesSeries(outcome(ids[i]))
    ensures CachedKeys(Run(ids, outcome)) == CacheKeys(ids[1..])
  {
    RunCaches(ids, outcome);
    FilterSkipsFirst(ids, CachesFor(outcome));
  }

  /** Every series fetched with data: four writes and four cache entries. */
  lemma AllSeriesSucceed(outcome: string -> SeriesOutcome)
    requires forall i :: 0 <= i < |DefaultSeries| ==> Succeeds(outcome(DefaultSeries[i])) && WritesMetric(outcome(DefaultSeries[i]))
    ensures var t := Run(DefaultSeries, outcome);
      && Requested(t) == DefaultSeries
      && Written(t) == DefaultSeries
      && CachedKeys(t) == CacheKeys(DefaultSeries)
  {
    RunRequests(DefaultSeries, outcome);
    AllWritten(DefaultSeries, outcome);
    AllCached(DefaultSeries, outcome);
  }

  /** The fetch of GDP raises: all four are still requested, the other
      three are written and cached, GDP is neither. */
  lemma FirstSeriesFails(outcome: string -> SeriesOutcome)
    requires outcome(DefaultSeries[0]).fetched.None?
    requires forall i :: 1 <= i < |DefaultSeries| ==> Succeeds(outcome(DefaultSeries[i])) && WritesMetric(outcome(DefaultSeries[i]))
    ensures var t := Run(DefaultSeries, outcome);
      && Requested(t) == DefaultSeries
      && Written(t) == DefaultSeries[1..]
      && CachedKeys(t) == CacheKeys(DefaultSeries[1..])
  {
    RunRequests(DefaultSeries, outcome);
    AllButFirstWritten(DefaultSeries, outcome);
    AllButFirstCached(DefaultSeries, outcome);
  }

  /** GDP comes back with no points: no metric for it, but it is still cached. */
  lemma EmptySeriesStillCached(outcome: string -> SeriesOutcome)
    requires outcome(DefaultSeries[0]).fetched.Some? && |outcome(DefaultSeries[0]).fetched.value.data| == 0
    requires forall i :: 0 <= i < |DefaultSeries| ==> Succeeds(outcome(DefaultSeries[i]))
    requires forall i :: 1 <= i < |DefaultSeries| ==> WritesMetric(outcome(DefaultSeries[i]))
    ensures var t := Run(DefaultSeries, outcome);
      && Written(t) == DefaultSeries[1..]
      && CachedKeys(t) == CacheKeys(DefaultSeries)
  {
    AllButFirstWritten(DefaultSeries, outcome);
    AllCached(DefaultSeries, outcome);
  }

  /** A metric write that raises skips that series' cache write, and only that one. */
  lemma WriteFailureSkipsCache(outcome: string -> SeriesOutcome)
    requires WritesMetric(outcome(DefaultSeries[0])) && outcome(DefaultSeries[0]).writeFails
    requires forall i :: 1 <= i < |DefaultSeries| ==> Succeeds(outcome(DefaultSeries[i])) && WritesMetric(outcome(DefaultSeries[i]))
    ensures var t := Run(DefaultSeries, outcome);
      && Written(t) == DefaultSeries
      && CachedKeys(t) == CacheKeys(DefaultSeries[1..])
  {
    AllWritten(DefaultSeries, outcome);
    AllButFirstCached(DefaultSeries, outcome);
  }

  /** The keys the job caches under. */
  lemma DefaultCacheKeys()
    ensures CacheKeys(DefaultSeries) == ["fred:GDP", "fred:CPIAUCSL", "fred:UNRATE", "fred:FEDFUNDS"]
  {
    var r := CacheKeys(DefaultSeries);
    assert r[0] == "fred:GDP";
    assert r[1] == "fred:CPIAUCSL";
    assert r[2] == "fred:UNRATE";
    assert r[3] == "fred:FEDFUNDS";
  }
}
