# Supply-chain risk dashboard: the computational core in Dafny

This project models the six self-contained pieces of logic behind the
supply-chain risk dashboard, and proves what their code and tests promise:

- **Risk normaliser** (`RiskEngine`, with `Rounding` and `RiskModels`). Four raw
  regional signals are each clamped to a fixed domain and rescaled to
  [0, 100]; shipping uses the negated BDI change. Each component is rounded to
  one decimal, and the four are combined with the weights 0.30 / 0.25 / 0.25 /
  0.20 into an overall score.
- **Streaming anomaly detector** (`AnomalyDetector`). Each key has a
  (count, mean, m2) state updated with Welford's recurrence. Each new value is
  classified by its z-score against the updated state as none, low, medium or
  critical.
- **Two-tier cache** (`RedisCache`). `set` writes the payload under the key
  and under `"stale:" + key`. `get_with_stale` falls back to the stale copy
  when the primary copy has expired. `delete` removes both copies.
- **FRED adapter** (`FredClient`, with `IndicatorModels`). It builds the
  request parameters and picks the first series record. It also turns raw
  observations into indicator points, dropping the ones whose value is the
  missing-data sentinel `"."`.
- **FRED fetch job** (`FredFetcher`). A loop over four series ids: fetch, write
  the latest value as a metric, cache the series. Each series' failure is
  isolated from the others.
- **Time-of-day focus** (`TimezoneFocus`, with `RegionConfig`). This maps a UTC
  hour to the region the map focuses on.

`Wrappers` (Option, Result) and `Seqs` (order-preserving filter, subsequence)
are shared helpers.

Modelling conventions:

- Floating point is exact `real` arithmetic.
- Python's `round(x, 1)` is `Rounding.Round1`: exact round-half-to-even on
  tenths.
- There is no square root. Each anomaly result carries the variance instead of
  the standard deviation, and the squared z-score instead of the z-score. The
  thresholds 1.5, 2 and 3 become 2.25, 4 and 9, and a lemma ties the squared
  ladder to the source's ladder on z itself.
- External collaborators become parameters. These are the HTTP responses,
  `float()`, and the fetch job's fred / influx / cache objects.
- Time becomes either an explicit step (cache expiry) or a parameter (the UTC
  hour).

## Model

| member | source | states |
|---|---|---|
| `RiskEngine.Normalize` | backend/services/risk_engine.py:11-14 | for low < high the result lies in [0, 100]; it is exactly 0 at or below low and exactly 100 at or above high; in between it is the linear rescaling (r·(high−low) = (x−low)·100) |
| `RiskEngine.NormalizeMonotone` | backend/services/risk_engine.py:11-14 | the normaliser never decreases as x grows, and strictly increases inside [low, high] |
| `RiskEngine.WeightsAreConvex` | backend/services/risk_engine.py:3-8 | the weight table covers exactly the four breakdown keys; every weight is non-negative; the weights sum to exactly 1.0 |
| `RiskEngine.Breakdown` | backend/services/risk_engine.py:19-32 | the breakdown has exactly the keys inflation, unemployment, shipping, port_congestion, each in [0, 100] after rounding |
| `RiskEngine.Calculate` | backend/services/risk_engine.py:18-40 | region code copied unchanged; breakdown keys and ranges as above; overall in [0, 100] for every real input, out-of-domain ones included |
| `RiskEngine.WeightedSumBounds` | backend/services/risk_engine.py:34 | a weighted sum of scores in [0, 100] lies between 0 and 100 × the total weight of the keys summed |
| `RiskEngine.WeightedSumMonotone` | backend/services/risk_engine.py:34 | raising the component scores pointwise never lowers the weighted sum |
| `RiskEngine.OverallMonotone` | backend/services/risk_engine.py:34-38 | an input whose breakdown is pointwise no larger has no larger overall score |
| `RiskEngine.CpiChangeMonotone` | backend/services/risk_engine.py:19-38 | a larger CPI change never lowers the inflation component nor the overall score |
| `RiskEngine.BdiChangeAntitone` | backend/services/risk_engine.py:21-38 | shipping uses the negated BDI change, so a smaller BDI change never lowers the shipping component nor the overall score |
| `RiskEngine.HighInflationScoresHigher` | backend/tests/test_risk_engine.py:36-41 | with all else equal, CPI 8.0 gives a strictly higher inflation component and overall score than CPI 1.0 |
| `RiskEngine.AllBadSignalsScoreHigh` | backend/tests/test_risk_engine.py:44-53 | the all-bad input (14, 22, −40, 0.95) scores at least 70 |
| `RiskEngine.AllGoodSignalsScoreLow` | backend/tests/test_risk_engine.py:56-65 | the all-good input (1, 3, 10, 0.05) scores at most 30 |
| `RiskEngine.OverallTracksExactScore` | backend/services/risk_engine.py:24-38 | the two roundings move the overall score at most 0.1 from the exact weighted sum of the unrounded components |
| `Rounding.RoundHalfEven` | backend/services/risk_engine.py:25 | the result is an integer within 0.5 of the argument, and an exact tie goes to the even neighbour |
| `Rounding.Round1` | backend/services/risk_engine.py:24-38 | the result is a whole number of tenths within 0.05 of the argument |
| `Rounding.Round1Monotone` | backend/services/risk_engine.py:24-38 | rounding to tenths never reverses the order of two values |
| `Rounding.Round1Separates` | backend/services/risk_engine.py:24-38 | values more than 0.1 apart stay strictly ordered after rounding |
| `Rounding.Round1InScoreRange` | backend/services/risk_engine.py:24-38 | rounding maps [0, 100] into itself |
| `AnomalyDetector.NewDetector` | backend/services/anomaly_detector.py:34-36 | a new detector keeps the given min_samples (10 when none is given) and holds no streams |
| `AnomalyDetector.DefaultMinimumScenario` | backend/services/anomaly_detector.py:34-61 | with the default minimum of 10, the first value of any new stream is not an anomaly |
| `AnomalyDetector.Variance` | backend/services/anomaly_detector.py:22-26 | the population variance: 0 below two samples, otherwise variance × count = m2; it is non-negative when m2 is |
| `AnomalyDetector.Welford` | backend/services/anomaly_detector.py:44-49 | one step of the recurrence adds exactly one to the count and never lowers m2 |
| `AnomalyDetector.SeverityOf` | backend/services/anomaly_detector.py:63-72 | on the squared z-score: critical iff z² ≥ 9, medium iff 4 ≤ z² < 9, low iff 2.25 ≤ z² < 4, none iff z² < 2.25 |
| `AnomalyDetector.SeverityMatchesZScore` | backend/services/anomaly_detector.py:63-74 | for z ≥ 0, the ladder on z² gives the same severity as the source's if-chain on z |
| `AnomalyDetector.Classify` | backend/services/anomaly_detector.py:52-84 | when count < min_samples or the variance is 0: z 0, not an anomaly, severity none; otherwise z²·variance = (v − mean)². Always: severity is the ladder of z², and is_anomaly iff z² ≥ 2.25 iff severity ≠ none |
| `AnomalyDetector.Lookup` | backend/services/anomaly_detector.py:39-42 | an unseen key reads as count 0, mean 0, m2 0 |
| `AnomalyDetector.Update` | backend/services/anomaly_detector.py:38-84 | the key's state becomes the Welford step of its old state, count one higher; every other key's state is unchanged; all m2 stay non-negative; the result carries key, value and the new mean; a below-minimum count gives no anomaly; is_anomaly iff z² ≥ 2.25 |
| `AnomalyDetector.StreamM2NonNegative` | backend/services/anomaly_detector.py:45-49 | along any stream of updates m2 never decreases, so it stays non-negative |
| `AnomalyDetector.StreamMoments` | backend/services/anomaly_detector.py:44-49 | after any stream from the fresh state, count, mean and m2 satisfy the batch identities count·mean = Σx and count·m2 = count·Σx² − (Σx)² |
| `AnomalyDetector.BatchStatistics` | backend/services/anomaly_detector.py:44-49 | Welford's running mean is the arithmetic mean of the stream, and m2 is the sum of squared deviations from it |
| `AnomalyDetector.UpdateZScore` | backend/services/anomaly_detector.py:44-63 | past the minimum, the squared z-score of v against a state of n samples is d²n² / (m2·(n+1) + d²n), where d = v − old mean |
| `AnomalyDetector.SpikeAfterConstantRun` | backend/services/anomaly_detector.py:44-74 | after n samples of constant value, any different value has z² = n: an anomaly iff n ≥ 3, critical iff n ≥ 9 |
| `AnomalyDetector.SpikeOverBaseline` | backend/services/anomaly_detector.py:44-63 | over n samples with mean a and population variance s², the value a + k·s has z² = k²n / (n + 1 + k²) |
| `AnomalyDetector.RepeatedValueNeverAnomalous` | backend/services/anomaly_detector.py:45-61 | a value equal to the mean of a zero-m2 stream keeps the mean, keeps m2 at 0, and gives z 0, no anomaly, severity none |
| `AnomalyDetector.Feed` | backend/services/anomaly_detector.py:38-49 | a sequence of updates keeps every m2 non-negative and adds exactly the updated keys to the detector |
| `AnomalyDetector.FeedIsolation` | backend/services/anomaly_detector.py:39-49 | a key's state after any interleaving of updates is its own values, in order, folded into its starting state; the other keys' updates play no part |
| `AnomalyDetector.FeedMatchesBatch` | backend/services/anomaly_detector.py:38-49 | from a new detector, each key's count, mean and m2 are the batch count, arithmetic mean and squared deviations of that key's values |
| `AnomalyDetector.ConstantStream` | backend/services/anomaly_detector.py:45-49 | n ≥ 1 identical values c leave count n, mean c, m2 0 |
| `AnomalyDetector.IdenticalValuesNeverAnomalous` | backend/tests/test_anomaly_detector.py:5-12 | after any number of identical values, one more is not an anomaly, has z 0 and severity none |
| `AnomalyDetector.SpikeAfterIdenticalValues` | backend/tests/test_anomaly_detector.py:15-24 | after n ≥ 9 identical values, past the minimum, any other value is a critical anomaly |
| `AnomalyDetector.PairsState` | backend/tests/test_anomaly_detector.py:44-53 | j ≥ 1 pairs a + s, a − s leave mean a and population variance s² |
| `AnomalyDetector.BaselineBands` | backend/services/anomaly_detector.py:63-74 | with at least 158 samples, values 1.4, 1.6, 2.1 and 3.1 baseline deviations out fall in the none, low, medium and critical bands |
| `AnomalyDetector.SeverityLevels` | backend/tests/test_anomaly_detector.py:55-80 | a key holding n ≥ 158 samples with mean a and variance s² classifies a + 1.4s, a + 1.6s, a + 2.1s, a + 3.1s as none, low, medium, critical |
| `AnomalyDetector.IndependentStreams` | backend/tests/test_anomaly_detector.py:83-95 | after n ≥ 3 rounds of one value on two keys, a spike on the first is an anomaly and the repeated value on the second is not, with severity none |
| `RedisCache.StaleKey` | backend/storage/redis_cache.py:8-27 | the stale key is "stale:" followed by the key |
| `RedisCache.Get` | backend/storage/redis_cache.py:14-19 | a miss gives None; a hit gives the stored payload |
| `RedisCache.Set` | backend/storage/redis_cache.py:21-27 | writes the payload under the key with the caller's ttl (default 300) and under the stale key with ttl 86400; no other key changes |
| `RedisCache.GetWithStale` | backend/storage/redis_cache.py:29-39 | a primary hit answers (payload, not stale) after reading only the key; otherwise it reads the stale key too, answering (stale payload, stale) or (None, not stale) |
| `RedisCache.Delete` | backend/storage/redis_cache.py:41-43 | removes the key and its stale key and leaves every other entry unchanged |
| `RedisCache.Expire` | backend/storage/redis_cache.py:21-27 | the ttl of one key running out removes only that key |
| `RedisCache.StaleKeyIsNotKey` | backend/storage/redis_cache.py:8-27 | the stale copy never overwrites the primary copy |
| `RedisCache.StaleKeyInjective` | backend/storage/redis_cache.py:8-27 | different keys have different stale copies |
| `RedisCache.SetThenGet` | backend/storage/redis_cache.py:14-27 | get right after set returns the payload, from either copy |
| `RedisCache.SetThenGetWithStale` | backend/storage/redis_cache.py:21-33 | get_with_stale right after set answers from the primary copy, not stale |
| `RedisCache.ExpiredPrimaryServesStale` | backend/storage/redis_cache.py:21-37 | after set and the expiry of the primary copy, get misses but get_with_stale returns the payload flagged stale |
| `RedisCache.DeleteThenRead` | backend/storage/redis_cache.py:14-43 | after delete, get misses and get_with_stale answers (None, not stale) |
| `RedisCache.GetWithStaleByGet` | backend/storage/redis_cache.py:29-39 | get_with_stale is get on the key falling back to get on the stale key; it is stale iff the first misses and the second hits |
| `RedisCache.OtherKeysUntouched` | backend/storage/redis_cache.py:21-43 | set and delete on one key leave reads of every unrelated key as they were |
| `RedisCache.SetOverwrites` | backend/storage/redis_cache.py:21-27 | a later set of a key replaces both copies of an earlier one |
| `RedisCache.DeleteUndoesSet` | backend/storage/redis_cache.py:21-43 | delete after set leaves the store as delete alone would |
| `RedisCache.RoundTripScenario` | backend/tests/test_redis_cache.py:34-53 | set with ttl 600 writes ("trade:1", 600) and ("stale:trade:1", 86400), and get returns the payload |
| `RedisCache.DefaultTtlScenario` | backend/storage/redis_cache.py:9-27 | without a ttl the primary copy expires after 300 seconds, the stale one after 86400 |
| `FredClient.SeriesRequest` | backend/services/fred_client.py:30 | the series request goes to "series" with the single parameter series_id |
| `FredClient.GetSeriesInfo` | backend/services/fred_client.py:29-31 | exactly one request is made; the result is the first record of "seriess", and an empty list is an error |
| `FredClient.ObservationParams` | backend/services/fred_client.py:41-45 | series_id is always present; observation_start and observation_end are present iff the date is given and non-empty, with that date as the value; no other parameter appears |
| `FredClient.Kept` | backend/services/fred_client.py:49-53 | the kept observations are exactly the input's non-sentinel ones, never more than the input |
| `FredClient.ParsePoints` | backend/services/fred_client.py:49-53 | succeeds iff every non-sentinel value parses; then the points are the kept observations one for one, same date, parsed value; a failure names a non-sentinel value that does not parse |
| `FredClient.GetObservations` | backend/services/fred_client.py:33-60 | requests the series, then (only when it exists) the observations with the built parameters; on success the series id, title, units and frequency are copied from the record and the data are the converted kept observations |
| `FredClient.NoSentinelKept` | backend/services/fred_client.py:49-53 | every output point comes from an input observation whose raw value is not "." |
| `FredClient.PointsKeepOrder` | backend/services/fred_client.py:49-53 | the kept observations are a subsequence of the input (order kept), and the output length is the number of non-"." inputs |
| `FredClient.EmptyObservations` | backend/tests/test_fred_client.py:72-96 | an empty observation list gives an empty data list, with the series id copied |
| `FredClient.FilterScenario` | backend/tests/test_fred_client.py:34-69 | three observations with "." in the middle give the two points 2024-01-01 and 2024-07-01, in order, with their values |
| `FredClient.SeriesInfoScenario` | backend/tests/test_fred_client.py:13-31 | the lookup of "GDP" asks for "series" with series_id "GDP" once and returns the first record |
| `FredClient.DatesAreOptional` | backend/services/fred_client.py:41-45 | without dates, or with empty dates, the observations request carries only series_id |
| `FredFetcher.CacheKey` | backend/fetchers/fred_fetcher.py:29 | the cache key is "fred:" followed by the series id |
| `FredFetcher.FetchAll` | backend/fetchers/fred_fetcher.py:19-32 | the loop's trace is the passes over the ids in order; each id is requested exactly once, in order; metrics are written for exactly the ids fetched with data, in order; a cache write is attempted for exactly the ids fetched whose metric write did not raise, in order |
| `FredFetcher.FetchFredIndicators` | backend/fetchers/fred_fetcher.py:9-32 | the trace is the passes over GDP, CPIAUCSL, UNRATE, FEDFUNDS in that order, each requested once; the metrics written are, in order, exactly the ids fetched with data, and the cache writes attempted are, in order, exactly the ids fetched whose metric write did not raise; every metric write is measurement "fred" carrying the value of that series' last point, and every cache write has ttl 900 |
| `FredFetcher.RunRequests` | backend/fetchers/fred_fetcher.py:19-32 | whatever fails, the requested ids are exactly the list, in order |
| `FredFetcher.RunWrites` | backend/fetchers/fred_fetcher.py:22-28 | the written ids are the list filtered by "fetch succeeded with non-empty data" |
| `FredFetcher.RunCaches` | backend/fetchers/fred_fetcher.py:20-32 | the keys of the attempted cache writes are "fred:" + each id filtered by "fetch succeeded and no metric write raised" |
| `FredFetcher.RunWriteValues` | backend/fetchers/fred_fetcher.py:22-28 | every metric write is measurement "fred", tagged with a listed id fetched with data, carrying the value of that series' last point |
| `FredFetcher.RunCacheValues` | backend/fetchers/fred_fetcher.py:29 | every cache write stores a fetched series under its "fred:" key with ttl 900 |
| `FredFetcher.CacheKeyInjective` | backend/fetchers/fred_fetcher.py:29 | different series are cached under different keys |
| `FredFetcher.PassEndsWithLog` | backend/fetchers/fred_fetcher.py:21-32 | each pass starts with the fetch and ends with the info line when every step went through, with the failure line otherwise |
| `FredFetcher.AllSeriesSucceed` | backend/tests/test_fred_fetcher.py:22-51 | when every fetch returns data, all four ids are requested, written and cached |
| `FredFetcher.FirstSeriesFails` | backend/tests/test_fred_fetcher.py:54-77 | when the GDP fetch raises, all four are still requested and only the other three are written and cached |
| `FredFetcher.EmptySeriesStillCached` | backend/tests/test_fred_fetcher.py:80-107 | when GDP comes back empty it gets no metric but is still cached, like the other three |
| `FredFetcher.WriteFailureSkipsCache` | backend/fetchers/fred_fetcher.py:22-32 | when GDP's metric write raises, GDP is not cached but every later series is written and cached |
| `FredFetcher.DefaultCacheKeys` | backend/tests/test_fred_fetcher.py:44-51 | the four cache keys are fred:GDP, fred:CPIAUCSL, fred:UNRATE, fred:FEDFUNDS |
| `TimezoneFocus.ActiveRegion` | frontend/src/services/timezone-focus.ts:3-10 | the region is a key of the region table; apac iff hour < 8; europe iff 8 ≤ hour < 16; americas iff 16 ≤ hour < 22; global iff hour ≥ 22 |
| `TimezoneFocus.OverlapsGoToTheEarlierRange` | frontend/src/services/timezone-focus.ts:6-8 | hour 7 goes to apac and hours 13–15 to europe, although the later ranges also contain them |
| `TimezoneFocus.FocusMovesForward` | frontend/src/services/timezone-focus.ts:6-9 | over the day the focus only moves forward through apac, europe, americas, global |
| `TimezoneFocus.FourFocusRegions` | frontend/src/services/timezone-focus.ts:6-9 | every hour maps to one of the four focus regions, and each of the four occurs |
| `RegionConfig.RegionKeys` | frontend/src/config/regions.ts:7-16 | the region table has exactly the keys global, apac, europe, americas, mena, africa, seasia, latam |
| `Seqs.FilterMembers` | backend/services/fred_client.py:49-53 | the filter keeps exactly the elements satisfying the predicate |
| `Seqs.FilterIsSubsequence` | backend/services/fred_client.py:49-53 | the filter's result is a subsequence of its input |
| `Seqs.FilterLength` | backend/services/fred_client.py:49-53 | the filter's result has as many elements as satisfy the predicate |

## Left out

- HTTP and its parameters. `FredClient._get` is not modelled. The request URL,
  the `api_key` and `file_type` parameters it adds, and `raise_for_status`
  are not modelled either. Responses are parameters of the model.
- JSON responses missing a field (`KeyError`) are not modelled. The records
  are typed datatypes, so every field is present.
- `float()` is the `parse` parameter, which yields None where `float()`
  raises. Which strings parse, and to what, is not modelled.
- The Redis client is not modelled. So are its errors and its refusal of a
  non-positive expiry. JSON encoding is the identity on payloads. Real TTL
  timing is replaced by the explicit `Expire` step. `close()` has no effect
  on the model.
- InfluxDB, the scheduler, the scraper store, the LLM client, FastAPI routing
  and the frontend UI are outside this model. The metric write and the cache
  write of the fetch job are events in its trace, and their failures are
  inputs.
- The `TimezoneFocus` timer class is not modelled (its interval, its
  pause/resume and its idle timeout). `Date.getUTCHours` is replaced by the
  hour parameter.
- Coroutines are modelled as sequential calls.
- IEEE floating point is not modelled; the model computes in exact reals.
- `AnomalyDetector.Classify`: the result carries the variance and the squared
  z-score in place of `stddev` and `z_score`, because there is no square root
  over the reals.
- `AnomalyDetector.SeverityLevels`: proved for any key holding n ≥ 158 samples
  with the test's mean and spread, rather than for the 10000-sample history of
  the tests. `AnomalyDetector.PairsState` shows that the tests' history is such
  a state.
- The severity labels ("none", "low", "medium", "critical") are a
  `Severity.Label` function with no properties proved.
- The region preset values (centres, zoom levels, labels) are transcribed
  into `RegionConfig.Regions`, with no properties proved beyond its key set.
