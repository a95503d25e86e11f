/** The streaming anomaly detector (backend/services/anomaly_detector.py).
    Each key owns a running (count, mean, m2) updated with Welford's online
    recurrence; after each update the value's deviation is classified.

    There is no square root over exact reals, so a result carries the
    variance (the square of the source's `stddev`) and the squared z-score;
    every threshold `z >= t` is compared as `z * z >= t * t`, which is the
    same test because z is never negative. */
module AnomalyDetector {

  /** Samples a stream needs before any value can be an anomaly, when the caller gives no number. */
  const DefaultMinSamples := 10

  datatype StreamState = StreamState(count: nat, mean: real, m2: real)

  /** The state a key starts from on its first update. */
  const Fresh := StreamState(0, 0.0, 0.0)

  datatype Severity = None | Low | Medium | Critical {
    /** The label the source reports. */
    function Label(): string {
      match this
      case None => "none"
      case Low => "low"
      case Medium => "medium"
      case Critical => "critical"
    }
  }

  /** `stddev` is the square root of `variance`; `zSquared` is the square of `z_score`. */
  datatype AnomalyResult = AnomalyResult(
    key: string,
    value: real,
    mean: real,
    variance: real,
    zSquared: real,
    isAnomaly: bool,
    severity: Severity)

  datatype Detector = Detector(minSamples: int, streams: map<string, StreamState>)

  /** The detector before any update; `min_samples` defaults to 10. */
  function NewDetector(minSamples: int := DefaultMinSamples): (d: Detector)
    ensures d.minSamples == minSamples && d.streams == map[]
  {
    Detector(minSamples, map[])
  }

  /** With the default minimum, the first value of a new stream is never an anomaly. */
  lemma DefaultMinimumScenario(key: string, v: real)
    ensures NewDetector().minSamples == 10
    ensures !Update(NewDetector(), key, v).result.isAnomaly
  {
  }

  /** Every stored sum of squared deviations is non-negative. */
  ghost predicate Valid(d: Detector)
  {
    forall k :: k in d.streams ==> d.streams[k].m2 >= 0.0
  }

  /** The population variance: zero below two samples, `m2 / count` otherwise. */
  function Variance(s: StreamState): (v: real)
    ensures s.count < 2 ==> v == 0.0
    ensures s.count >= 2 ==> v * (s.count as real) == s.m2
    ensures s.m2 >= 0.0 ==> v >= 0.0
  {
    if s.count < 2 then 0.0 else s.m2 / s.count as real
  }

  /** One step of Welford's recurrence. */
  function Welford(s: StreamState, v: real): (t: StreamState)
    ensures t.count == s.count + 1
    ensures t.m2 >= s.m2
  {
    var n := s.count + 1;
    var delta := v - s.mean;
    var mean := s.mean + delta / n as real;
    var delta2 := v - mean;
    // delta2 is delta scaled by (n - 1) / n, so delta * delta2 is never negative
    assert delta2 * n as real == delta * (n - 1) as real;
    assert delta * delta2 * n as real == delta * delta * (n - 1) as real;
    StreamState(n, mean, s.m2 + delta * delta2)
  }

  /** The severity ladder as the source writes it, on the z-score itself. */
  function SeverityByZ(z: real): Severity
  {
    if z >= 3.0 then Critical
    else if z >= 2.0 then Medium
    else if z >= 1.5 then Low
    else None
  }

  /** The same ladder on the squared z-score. */
  function SeverityOf(zSquared: real): (sev: Severity)
    ensures sev == Critical <==> zSquared >= 9.0
    ensures sev == Medium <==> 4.0 <= zSquared < 9.0
    ensures sev == Low <==> 2.25 <= zSquared < 4.0
    ensures sev == None <==> zSquared < 2.25
  {
    if zSquared >= 9.0 then Critical
    else if zSquared >= 4.0 then Medium
    else if zSquared >= 2.25 then Low
    else None
  }

  /** Classification of `v` against the already-updated state `s`. */
  function Classify(minSamples: int, key: string, v: real, s: StreamState): (r: AnomalyResult)
    requires s.m2 >= 0.0
    ensures r.key == key && r.value == v && r.mean == s.mean && r.variance == Variance(s)
    ensures s.count < minSamples || Variance(s) == 0.0 ==>
              r.zSquared == 0.0 && !r.isAnomaly && r.severity == None
    ensures s.count >= minSamples && Variance(s) > 0.0 ==>
              r.zSquared * Variance(s) == (v - s.mean) * (v - s.mean)
    ensures r.zSquared >= 0.0
    ensures r.severity == SeverityOf(r.zSquared)
    ensures r.isAnomaly <==> r.zSquared >= 2.25
    ensures r.isAnomaly <==> r.severity != None
  {
    var variance := Variance(s);
    if s.count < minSamples || variance == 0.0 then
      AnomalyResult(key, v, s.mean, variance, 0.0, false, None)
    else
      var zSquared := (v - s.mean) * (v - s.mean) / variance;
      AnomalyResult(key, v, s.mean, variance, zSquared, zSquared >= 2.25, SeverityOf(zSquared))
  }

  /** The state of `key`, or the fresh state if it was never updated. */
  function Lookup(d: Detector, key: string): (s: StreamState)
    ensures key !in d.streams ==> s == Fresh
    ensures key in d.streams ==> s == d.streams[key]
  {
    if key in d.streams then d.streams[key] else Fresh
  }

  datatype Step = Step(detector: Detector, result: AnomalyResult)

  /** `WelfordDetector.update`: fold `v` into the stream of `key`, then classify it. */
  function Update(d: Detector, key: string, v: real): (r: Step)
    requires Valid(d)
    ensures Valid(r.detector)
    ensures r.detector.minSamples == d.minSamples
    ensures r.detector.streams.Keys == d.streams.Keys + {key}
    ensures r.detector.streams[key] == Welford(Lookup(d, key), v)
    ensures r.detector.streams[key].count == Lookup(d, key).count + 1
    ensures forall k :: k in d.streams && k != key ==> r.detector.streams[k] == d.streams[k]
    ensures forall k :: Lookup(r.detector, k) == if k == key then Welford(Lookup(d, key), v) else Lookup(d, k)
    ensures r.result.key == key && r.result.value == v
    ensures r.result.mean == r.detector.streams[key].mean
    ensures r.detector.streams[key].count < d.minSamples ==>
              r.result.zSquared == 0.0 && !r.result.isAnomaly && r.result.severity == None
    ensures r.result.severity == SeverityOf(r.result.zSquared)
    ensures r.result.isAnomaly <==> r.result.zSquared >= 2.25
  {
    var s := Welford(Lookup(d, key), v);
    Step(Detector(d.minSamples, d.streams[key := s]), Classify(d.minSamples, key, v, s))
  }

  /** The squared ladder agrees with the source's ladder on the z-score. */
  lemma SeverityMatchesZScore(z: real)
    requires z >= 0.0
    ensures SeverityOf(z * z) == SeverityByZ(z)
  {
    if z >= 3.0 { assert z * z >= 3.0 * z >= 9.0; }
    else if z >= 2.0 { assert z * z >= 2.0 * z >= 4.0; assert z * z < 3.0 * z < 9.0; }
    else if z >= 1.5 { assert z * z >= 1.5 * z >= 2.25; assert z * z < 2.0 * z < 4.0; }
    else { assert z * z <= 1.5 * z < 2.25; }
  }

  // ---------------------------------------------------------------------
  // Welford's recurrence against the batch statistics of the whole stream

  /** The state after folding `xs`, in order, into `s`. */
  function Stream(s: StreamState, xs: seq<real>): StreamState
  {
    if |xs| == 0 then s else Welford(Stream(s, xs[..|xs| - 1]), xs[|xs| - 1])
  }

  function Sum(xs: seq<real>): real
  {
    if |xs| == 0 then 0.0 else Sum(xs[..|xs| - 1]) + xs[|xs| - 1]
  }

  function SumOfSquares(xs: seq<real>): real
  {
    if |xs| == 0 then 0.0 else SumOfSquares(xs[..|xs| - 1]) + xs[|xs| - 1] * xs[|xs| - 1]
  }

  /** Sum of squared deviations of `xs` from `c`. */
  function SquaredDeviations(xs: seq<real>, c: real): real
  {
    if |xs| == 0 then 0.0
    else SquaredDeviations(xs[..|xs| - 1], c) + (xs[|xs| - 1] - c) * (xs[|xs| - 1] - c)
  }

  lemma {:induction false} SquaredDeviationsExpand(xs: seq<real>, c: real)
    ensures SquaredDeviations(xs, c) == SumOfSquares(xs) - 2.0 * c * Sum(xs) + (|xs| as real) * c * c
  {
    if |xs| > 0 {
      SquaredDeviationsExpand(xs[..|xs| - 1], c);
    }
  }

  ghost predicate Summarizes(t: StreamState, n: real, S: real, Q: real)
  {
    t.count as real == n && t.mean * n == S && t.m2 * n == n * Q - S * S
  }

  /** `t` is the state Welford's update reaches after exactly the values `ys`. */
  ghost predicate Moments(t: StreamState, ys: seq<real>)
  {
    && Summarizes(t, |ys| as real, Sum(ys), SumOfSquares(ys))
    && (|ys| == 0 ==> t == Fresh)
  }

  lemma {:induction false} StreamInvariant(inv: (StreamState, seq<real>) -> bool, xs: seq<real>)
    requires inv(Fresh, [])
    requires forall u, ys, v :: inv(u, ys) ==> inv(Welford(u, v), ys + [v])
    ensures inv(Stream(Fresh, xs), xs)
  {
    if |xs| > 0 {
      var init := xs[..|xs| - 1];
      StreamInvariant(inv, init);
      assert init + [xs[|xs| - 1]] == xs;
    }
  }

  lemma MomentsStep(u: StreamState, ys: seq<real>, v: real)
    requires Moments(u, ys)
    ensures Moments(Welford(u, v), ys + [v])
  {
    var zs := ys + [v];
    assert zs[..|zs| - 1] == ys;
    var n, S, Q := |ys| as real, Sum(ys), SumOfSquares(ys);
    var N, S', Q' := |zs| as real, Sum(zs), SumOfSquares(zs);
    assert N == n + 1.0 && S' == S + v && Q' == Q + v * v;
    if |ys| == 0 {
      FirstStep(v);
    } else {
      NextStep(u, v, n, S, Q, N, S', Q');
    }
  }

  lemma StreamMoments(xs: seq<real>)
    ensures Moments(Stream(Fresh, xs), xs)
  {
    forall u, ys, v | Moments(u, ys)
      ensures Moments(Welford(u, v), ys + [v])
    {
      MomentsStep(u, ys, v);
    }
    StreamInvariant((u, ys) => Moments(u, ys), xs);
  }

  lemma NextStep(u: StreamState, v: real, n: real, S: real, Q: real, N: real, S': real, Q': real)
    requires n > 0.0 && Summarizes(u, n, S, Q)
    requires N == n + 1.0 && S' == S + v && Q' == Q + v * v
    ensures Summarizes(Welford(u, v), N, S', Q')
  {
    MeanStep(u, v, n, S, N, S');
    M2Step(u, v, n, S, Q, N, S', Q');
  }

  lemma FirstStep(v: real)
    ensures Welford(Fresh, v) == StreamState(1, v, 0.0)
  {
    var t := Welford(Fresh, v);
    assert t.mean == v;
  }

  lemma MeanStep(u: StreamState, v: real, n: real, S: real, N: real, S': real)
    requires u.count as real == n && u.mean * n == S
    requires N == n + 1.0 && S' == S + v
    ensures Welford(u, v).mean * N == S'
  {
    var t := Welford(u, v);
    var d := v - u.mean;
    assert t.mean == u.mean + d / N;
    assert t.mean * N == u.mean * N + d;
  }

  lemma M2Step(u: StreamState, v: real, n: real, S: real, Q: real, N: real, S': real, Q': real)
    requires n > 0.0 && Summarizes(u, n, S, Q)
    requires N == n + 1.0 && S' == S + v && Q' == Q + v * v
    ensures Welford(u, v).m2 * N == N * Q' - S' * S'
  {
    var t := Welford(u, v);
    var d, e := v - u.mean, v - t.mean;
    MeanStep(u, v, n, S, N, S');
    assert e * N == d * n;
    assert t.m2 == u.m2 + d * e;
    var lhs := t.m2 * N;
    assert lhs == u.m2 * N + d * d * n by {
      assert d * e * N == d * (d * n);
    }
    assert n * d == n * v - S;
    PolynomialStep(n, N, S, Q, v, u.m2, d, lhs);
  }

  /** The polynomial identity behind `MomentsStep`. */
  lemma PolynomialStep(n: real, N: real, S: real, Q: real, v: real, m2: real, d: real, lhs: real)
    requires n > 0.0 && N == n + 1.0
    requires m2 * n == n * Q - S * S
    requires n * d == n * v - S
    requires lhs == m2 * N + d * d * n
    ensures lhs == N * (Q + v * v) - (S + v) * (S + v)
  {
    var a, b := m2 * n, n * d;
    assert n * lhs == a * N + b * b;
    assert a * N + b * b == (n * Q - S * S) * N + (n * v - S) * (n * v - S);
    Expansion(n, N, S, Q, v);
    Cancel(n, lhs, N * (Q + v * v) - (S + v) * (S + v));
  }

  lemma Expansion(n: real, N: real, S: real, Q: real, v: real)
    requires N == n + 1.0
    ensures (n * Q - S * S) * N + (n * v - S) * (n * v - S) == n * (N * (Q + v * v) - (S + v) * (S + v))
  {
  }

  lemma Cancel(n: real, x: real, y: real)
    requires n > 0.0 && n * x == n * y
    ensures x == y
  {
  }

  /** Welford's running mean is the arithmetic mean of the stream, and its
      running m2 is the sum of squared deviations from that mean. */
  lemma BatchStatistics(xs: seq<real>)
    requires |xs| > 0
    ensures Stream(Fresh, xs).count == |xs|
    ensures Stream(Fresh, xs).mean == Sum(xs) / (|xs| as real)
    ensures Stream(Fresh, xs).m2 == SquaredDeviations(xs, Stream(Fresh, xs).mean)
  {
    StreamMoments(xs);
    MomentsAreBatch(Stream(Fresh, xs), xs);
  }

  lemma MomentsAreBatch(t: StreamState, xs: seq<real>)
    requires |xs| > 0 && Moments(t, xs)
    ensures t.count == |xs|
    ensures t.mean == Sum(xs) / (|xs| as real)
    ensures t.m2 == SquaredDeviations(xs, t.mean)
  {
    var n, S, Q := |xs| as real, Sum(xs), SumOfSquares(xs);
    var dev := SquaredDeviations(xs, t.mean);
    ExpandAt(xs, t.mean, dev, Q, S, n);
    DeviationAlgebra(t, n, S, Q, dev);
  }

  lemma ExpandAt(xs: seq<real>, c: real, dev: real, Q: real, S: real, n: real)
    requires dev == SquaredDeviations(xs, c) && Q == SumOfSquares(xs) && S == Sum(xs) && n == |xs| as real
    ensures dev == Q - 2.0 * c * S + n * c * c
  {
    SquaredDeviationsExpand(xs, c);
  }

  lemma DeviationAlgebra(t: StreamState, n: real, S: real, Q: real, dev: real)
    requires n > 0.0 && Summarizes(t, n, S, Q)
    requires dev == Q - 2.0 * t.mean * S + n * t.mean * t.mean
    ensures t.mean == S / n && t.m2 == dev
  {
    var mean, m2 := t.mean, t.m2;
    assert n * mean * mean == mean * S;
    assert m2 * n == dev * n;
  }

  /** One Welford step, seen from the old state: the new deviation `v - t.mean` is
      the old one scaled by n / (n + 1), and m2 grows by d * d * n / (n + 1). */
  lemma WelfordShift(u: StreamState, v: real)
    ensures var t, n, d := Welford(u, v), u.count as real, v - u.mean;
      && (v - t.mean) * (n + 1.0) == d * n
      && t.m2 * (n + 1.0) == u.m2 * (n + 1.0) + d * d * n
  {
    var t, n, d := Welford(u, v), u.count as real, v - u.mean;
    var N, e := n + 1.0, v - t.mean;
    assert t.mean == u.mean + d / N;
    assert t.mean * N == u.mean * N + d;
    assert e * N == d * n;
    assert t.m2 == u.m2 + d * e;
    assert t.m2 * N == u.m2 * N + d * (e * N);
  }

  lemma ZScoreAlgebra(z: real, variance: real, e: real, N: real, m2t: real, m2u: real, d: real, n: real)
    requires N > 0.0 && z * variance == e * e && variance * N == m2t
    requires e * N == d * n && m2t * N == m2u * N + d * d * n
    ensures z * (m2u * N + d * d * n) == d * d * n * n
  {
    assert z * m2t == (z * variance) * N;
    assert z * (m2u * N + d * d * n) == (z * m2t) * N;
    assert (e * e) * N * N == (e * N) * (e * N);
  }

  /** The squared z-score of `r`, the classification of `v` against the state
      after `u`: with n earlier samples, sum of squared deviations m and
      deviation d = v - mean, z² · (m · (n + 1) + d² · n) = d² · n². */
  ghost predicate ZScoreLaw(u: StreamState, v: real, r: AnomalyResult)
  {
    var n, d := u.count as real, v - u.mean;
    && u.m2 * (n + 1.0) + d * d * n > 0.0
    && r.zSquared * (u.m2 * (n + 1.0) + d * d * n) == d * d * n * n
  }

  lemma UpdateZScore(dt: Detector, key: string, v: real)
    requires Valid(dt)
    requires Lookup(dt, key).count >= 1 && Lookup(dt, key).count + 1 >= dt.minSamples
    requires Lookup(dt, key).m2 > 0.0 || v != Lookup(dt, key).mean
    ensures ZScoreLaw(Lookup(dt, key), v, Update(dt, key, v).result)
  {
    var u := Lookup(dt, key);
    ClassifyZScore(dt.minSamples, key, v, u, Welford(u, v), Update(dt, key, v).result);
  }

  lemma ClassifyZScore(minSamples: int, key: string, v: real, u: StreamState, t: StreamState, r: AnomalyResult)
    requires u.m2 >= 0.0 && t == Welford(u, v) && r == Classify(minSamples, key, v, t)
    requires u.count >= 1 && u.count + 1 >= minSamples
    requires u.m2 > 0.0 || v != u.mean
    ensures ZScoreLaw(u, v, r)
  {
    var n, d := u.count as real, v - u.mean;
    var N := n + 1.0;
    WelfordShift(u, v);
    assert d * d * n > 0.0 || u.m2 * N > 0.0;
    var variance := Variance(t);
    assert variance * N == t.m2;
    ZScoreAlgebra(r.zSquared, variance, v - t.mean, N, t.m2, u.m2, d, n);
  }

  /** After a run whose values all equal the mean (m2 = 0), any other value
      scores z² = n, the number of earlier samples. */
  lemma ConstantRunLaw(u: StreamState, v: real, r: AnomalyResult)
    requires ZScoreLaw(u, v, r) && u.count >= 1 && u.m2 == 0.0 && v != u.mean
    ensures r.zSquared == u.count as real
  {
    var n, d := u.count as real, v - u.mean;
    var w := d * d * n;
    assert r.zSquared * w == n * w;
  }

  /** z² = k² · n / (n + 1 + k²): the squared score of the value a + k·s after
      n samples with mean a and population variance s². */
  function BaselineZSquared(n: real, k: real): real
    requires n >= 0.0
  {
    k * k * n / (n + 1.0 + k * k)
  }

  /** `u` holds at least one sample, and its population variance is s² > 0. */
  ghost predicate Baseline(u: StreamState, s: real)
  {
    u.count >= 1 && s > 0.0 && u.m2 == u.count as real * s * s
  }

  lemma BaselineLaw(u: StreamState, v: real, r: AnomalyResult, s: real, k: real)
    requires ZScoreLaw(u, v, r) && Baseline(u, s) && v == u.mean + k * s
    ensures r.zSquared == BaselineZSquared(u.count as real, k)
  {
    var n, d := u.count as real, v - u.mean;
    var w := n * s * s;
    assert d * d == k * k * (s * s);
    assert u.m2 * (n + 1.0) + d * d * n == w * (n + 1.0 + k * k);
    assert d * d * n * n == w * (k * k * n);
    assert (r.zSquared * (n + 1.0 + k * k)) * w == (k * k * n) * w;
  }

  /** m2 never decreases along a stream, so it stays non-negative. */
  lemma {:induction false} StreamM2NonNegative(s: StreamState, xs: seq<real>)
    requires s.m2 >= 0.0
    ensures Stream(s, xs).m2 >= s.m2
  {
    if |xs| > 0 {
      StreamM2NonNegative(s, xs[..|xs| - 1]);
    }
  }

  // ---------------------------------------------------------------------
  // What one update reports, in terms of the state before it

  /** After a run whose values all equal the mean (m2 = 0), any other value
      scores z² = n, so it is an anomaly from n = 3 on and critical from n = 9 on. */
  lemma SpikeAfterConstantRun(dt: Detector, key: string, v: real)
    requires Valid(dt)
    requires Lookup(dt, key).count >= 1 && Lookup(dt, key).count + 1 >= dt.minSamples
    requires Lookup(dt, key).m2 == 0.0 && v != Lookup(dt, key).mean
    ensures var n, r := Lookup(dt, key).count, Update(dt, key, v).result;
      && r.zSquared == n as real
      && (r.isAnomaly <==> n >= 3)
      && (r.severity == Critical <==> n >= 9)
  {
    UpdateZScore(dt, key, v);
    ConstantRunLaw(Lookup(dt, key), v, Update(dt, key, v).result);
  }

  /** Over n samples with mean a and population variance s², the value a + k·s
      scores `BaselineZSquared(n, k)`. */
  lemma SpikeOverBaseline(dt: Detector, key: string, v: real, s: real, k: real)
    requires Valid(dt)
    requires Baseline(Lookup(dt, key), s) && Lookup(dt, key).count + 1 >= dt.minSamples
    requires v == Lookup(dt, key).mean + k * s
    ensures Update(dt, key, v).result.zSquared == BaselineZSquared(Lookup(dt, key).count as real, k)
  {
    var u := Lookup(dt, key);
    BaselinePositive(u.count as real, s, u.m2);
    UpdateZScore(dt, key, v);
    BaselineLaw(u, v, Update(dt, key, v).result, s, k);
  }

  lemma BaselinePositive(n: real, s: real, m2: real)
    requires n >= 1.0 && s > 0.0 && m2 == n * s * s
    ensures m2 > 0.0
  {
    var p := n * s;
    assert p - s == (n - 1.0) * s;
    assert (n - 1.0) * s >= 0.0;
    assert p * s - s * s == (p - s) * s;
    assert (p - s) * s >= 0.0;
    assert s * s > 0.0;
  }

  /** A value equal to the mean of a stream with m2 = 0 keeps m2 at 0 and the
      mean where it was, and is never an anomaly. A fresh key qualifies
      whatever the value. */
  lemma RepeatedValueNeverAnomalous(dt: Detector, key: string, c: real)
    requires Valid(dt)
    requires Lookup(dt, key).m2 == 0.0
    requires Lookup(dt, key).count == 0 || Lookup(dt, key).mean == c
    ensures var r := Update(dt, key, c);
      && r.detector.streams[key].mean == c
      && r.detector.streams[key].m2 == 0.0
      && r.result.zSquared == 0.0 && !r.result.isAnomaly && r.result.severity == None
  {
    var u := Lookup(dt, key);
    if u.count == 0 {
      FirstOfStream(u, c);
    } else {
      RepeatStep(u, c);
    }
  }

  lemma FirstOfStream(u: StreamState, c: real)
    requires u.count == 0
    ensures Welford(u, c) == StreamState(1, c, u.m2)
  {
    var t := Welford(u, c);
    assert t.mean == c;
  }

  lemma RepeatStep(u: StreamState, c: real)
    requires u.mean == c && u.m2 == 0.0
    ensures Welford(u, c) == StreamState(u.count + 1, c, 0.0)
  {
    var t := Welford(u, c);
    assert t.mean == c;
  }

  // ---------------------------------------------------------------------
  // Feeding a sequence of updates

  datatype Event = Event(key: string, value: real)

  /** The detector after the updates `evs`, applied in order. */
  function Feed(d: Detector, evs: seq<Event>): (r: Detector)
    requires Valid(d)
    ensures Valid(r) && r.minSamples == d.minSamples
    ensures r.streams.Keys == d.streams.Keys + set e | e in evs :: e.key
  {
    if |evs| == 0 then d
    else
      var init, e := evs[..|evs| - 1], evs[|evs| - 1];
      assert evs == init + [e];
      Update(Feed(d, init), e.key, e.value).detector
  }

  /** The values of the events on `key`, in order. */
  function ValuesOf(evs: seq<Event>, key: string): (vs: seq<real>)
    ensures |vs| <= |evs|
  {
    if |evs| == 0 then []
    else
      var e := evs[|evs| - 1];
      ValuesOf(evs[..|evs| - 1], key) + (if e.key == key then [e.value] else [])
  }

  lemma StreamSnoc(s: StreamState, vs: seq<real>, v: real)
    ensures Stream(s, vs + [v]) == Welford(Stream(s, vs), v)
  {
    assert (vs + [v])[..|vs|] == vs;
  }

  lemma IsolationStep(prev: Detector, e: Event, key: string, s: StreamState, vs: seq<real>)
    requires Valid(prev) && Lookup(prev, key) == Stream(s, vs)
    ensures Lookup(Update(prev, e.key, e.value).detector, key)
         == Stream(s, vs + (if e.key == key then [e.value] else []))
  {
    if e.key == key {
      StreamSnoc(s, vs, e.value);
    } else {
      assert vs + [] == vs;
    }
  }

  /** A key's state after a sequence of updates depends on that key's values
      alone: it is Welford's fold of exactly those values, in order. */
  lemma {:induction false} FeedIsolation(d: Detector, evs: seq<Event>, key: string)
    requires Valid(d)
    ensures Lookup(Feed(d, evs), key) == Stream(Lookup(d, key), ValuesOf(evs, key))
  {
    if |evs| > 0 {
      var init, e := evs[..|evs| - 1], evs[|evs| - 1];
      FeedIsolation(d, init, key);
      IsolationStep(Feed(d, init), e, key, Lookup(d, key), ValuesOf(init, key));
    }
  }

  /** From a new detector, each key's running mean is the arithmetic mean of
      its values and its m2 is their sum of squared deviations from it. */
  lemma FeedMatchesBatch(minSamples: int, evs: seq<Event>, key: string)
    requires ValuesOf(evs, key) != []
    ensures var t, vs := Lookup(Feed(NewDetector(minSamples), evs), key), ValuesOf(evs, key);
      && t.count == |vs|
      && t.mean == Sum(vs) / (|vs| as real)
      && t.m2 == SquaredDeviations(vs, t.mean)
  {
    FeedIsolation(NewDetector(minSamples), evs, key);
    BatchStatistics(ValuesOf(evs, key));
  }

  // ---------------------------------------------------------------------
  // The detector's test scenarios, for every run length

  function Repeat(c: real, n: nat): (xs: seq<real>)
    ensures |xs| == n
  {
    if n == 0 then [] else Repeat(c, n - 1) + [c]
  }

  /** The events that update `key` with the values `xs`, in order. */
  function Tagged(key: string, xs: seq<real>): (evs: seq<Event>)
    ensures |evs| == |xs|
  {
    if |xs| == 0 then [] else Tagged(key, xs[..|xs| - 1]) + [Event(key, xs[|xs| - 1])]
  }

  lemma {:induction false} ValuesOfTagged(key: string, xs: seq<real>)
    ensures ValuesOf(Tagged(key, xs), key) == xs
  {
    if |xs| > 0 {
      var evs := Tagged(key, xs);
      ValuesOfTagged(key, xs[..|xs| - 1]);
      assert evs[..|evs| - 1] == Tagged(key, xs[..|xs| - 1]);
      assert xs == xs[..|xs| - 1] + [xs[|xs| - 1]];
    }
  }

  /** A run of n identical values leaves the mean at that value and m2 at 0. */
  lemma {:induction false} ConstantStream(c: real, n: nat)
    requires n >= 1
    ensures Stream(Fresh, Repeat(c, n)) == StreamState(n, c, 0.0)
  {
    var xs := Repeat(c, n);
    assert xs[..n - 1] == Repeat(c, n - 1);
    if n == 1 {
      FirstStep(c);
    } else {
      ConstantStream(c, n - 1);
      RepeatStep(StreamState(n - 1, c, 0.0), c);
    }
  }

  lemma FedConstant(minSamples: int, key: string, c: real, n: nat)
    ensures var d := Feed(NewDetector(minSamples), Tagged(key, Repeat(c, n)));
      Lookup(d, key) == if n == 0 then Fresh else StreamState(n, c, 0.0)
  {
    FeedIsolation(NewDetector(minSamples), Tagged(key, Repeat(c, n)), key);
    ValuesOfTagged(key, Repeat(c, n));
    if n >= 1 {
      ConstantStream(c, n);
    }
  }

  /** After any number of identical values, one more is not an anomaly. */
  lemma IdenticalValuesNeverAnomalous(minSamples: int, key: string, c: real, n: nat)
    ensures var d := Feed(NewDetector(minSamples), Tagged(key, Repeat(c, n)));
      var r := Update(d, key, c).result;
      r.zSquared == 0.0 && !r.isAnomaly && r.severity == None
  {
    FedConstant(minSamples, key, c, n);
    RepeatedValueNeverAnomalous(Feed(NewDetector(minSamples), Tagged(key, Repeat(c, n))), key, c);
  }

  /** After n >= 9 identical values, with enough samples, any other value is a
      critical anomaly. */
  lemma SpikeAfterIdenticalValues(minSamples: int, key: string, c: real, n: nat, v: real)
    requires n >= 9 && n + 1 >= minSamples && v != c
    ensures var d := Feed(NewDetector(minSamples), Tagged(key, Repeat(c, n)));
      var r := Update(d, key, v).result;
      r.isAnomaly && r.severity == Critical
  {
    FedConstant(minSamples, key, c, n);
    SpikeAfterConstantRun(Feed(NewDetector(minSamples), Tagged(key, Repeat(c, n))), key, v);
  }

  /** j pairs of values a + s, a - s, the way the severity tests build their baseline. */
  function Pairs(a: real, s: real, j: nat): (xs: seq<real>)
    ensures |xs| == 2 * j
  {
    if j == 0 then [] else Pairs(a, s, j - 1) + [a + s, a - s]
  }

  lemma SumsSnoc2(xs: seq<real>, x: real, y: real)
    ensures Sum(xs + [x, y]) == Sum(xs) + x + y
    ensures SumOfSquares(xs + [x, y]) == SumOfSquares(xs) + x * x + y * y
  {
    assert (xs + [x, y])[..|xs| + 1] == xs + [x];
    assert (xs + [x])[..|xs|] == xs;
  }

  lemma {:induction false} PairSums(a: real, s: real, j: nat)
    ensures Sum(Pairs(a, s, j)) == (2 * j) as real * a
    ensures SumOfSquares(Pairs(a, s, j)) == (2 * j) as real * (a * a + s * s)
  {
    if j > 0 {
      PairSums(a, s, j - 1);
      SumsSnoc2(Pairs(a, s, j - 1), a + s, a - s);
      assert (a + s) * (a + s) + (a - s) * (a - s) == 2.0 * (a * a + s * s);
    }
  }

  lemma PairsAlgebra(t: StreamState, n: real, a: real, s: real)
    requires n > 0.0 && Summarizes(t, n, n * a, n * (a * a + s * s))
    ensures t.mean == a && t.m2 == n * s * s
  {
    Cancel(n, t.mean, a);
    assert (n * a) * (n * a) == n * (n * (a * a));
    assert n * t.m2 == n * (n * s * s);
    Cancel(n, t.m2, n * s * s);
  }

  /** j >= 1 pairs a + s, a - s leave mean a and population variance s². */
  lemma PairsState(a: real, s: real, j: nat)
    requires j >= 1
    ensures Stream(Fresh, Pairs(a, s, j)) == StreamState(2 * j, a, (2 * j) as real * s * s)
  {
    var xs := Pairs(a, s, j);
    StreamMoments(xs);
    PairSums(a, s, j);
    PairsAlgebra(Stream(Fresh, xs), (2 * j) as real, a, s);
  }

  /** With n >= 158 samples of population variance s² around a, the values
      a + 1.4s, a + 1.6s, a + 2.1s and a + 3.1s fall in the four severity bands. */
  lemma BaselineBands(n: real)
    requires n >= 158.0
    ensures SeverityOf(BaselineZSquared(n, 1.4)) == None
    ensures SeverityOf(BaselineZSquared(n, 1.6)) == Low
    ensures SeverityOf(BaselineZSquared(n, 2.1)) == Medium
    ensures SeverityOf(BaselineZSquared(n, 3.1)) == Critical
  {
    var z1, z2, z3, z4 := BaselineZSquared(n, 1.4), BaselineZSquared(n, 1.6), BaselineZSquared(n, 2.1), BaselineZSquared(n, 3.1);
    assert z1 * (n + 2.96) == 1.96 * n;
    assert z2 * (n + 3.56) == 2.56 * n;
    assert z3 * (n + 5.41) == 4.41 * n;
    assert z4 * (n + 10.61) == 9.61 * n;
    Band(z1, n + 2.96, 1.96 * n, 0.0, 2.25);
    Band(z2, n + 3.56, 2.56 * n, 2.25, 4.0);
    Band(z3, n + 5.41, 4.41 * n, 4.0, 9.0);
    Band(z4, n + 10.61, 9.61 * n, 9.0, 10.0);
  }

  lemma Band(z: real, den: real, num: real, lo: real, hi: real)
    requires den > 0.0 && z * den == num && lo * den <= num < hi * den
    ensures lo <= z < hi
  {
  }

  lemma FedPairs(minSamples: int, key: string, a: real, s: real, j: nat)
    requires j >= 1
    ensures var d := Feed(NewDetector(minSamples), Tagged(key, Pairs(a, s, j)));
      Lookup(d, key) == StreamState(2 * j, a, (2 * j) as real * s * s)
  {
    FeedIsolation(NewDetector(minSamples), Tagged(key, Pairs(a, s, j)), key);
    ValuesOfTagged(key, Pairs(a, s, j));
    PairsState(a, s, j);
  }

  /** Over n samples with mean a and population variance s², the value a + k·s
      lands in the band of `BaselineZSquared(n, k)`. */
  lemma BaselineSeverity(d: Detector, key: string, a: real, s: real, n: nat, k: real, v: real)
    requires Valid(d) && n >= 1 && n + 1 >= d.minSamples && s > 0.0
    requires Lookup(d, key) == StreamState(n, a, n as real * s * s) && v == a + k * s
    ensures Update(d, key, v).result.severity == SeverityOf(BaselineZSquared(n as real, k))
  {
    BaselineOfState(Lookup(d, key), n, a, s);
    SpikeOverBaseline(d, key, v, s, k);
  }

  lemma BaselineOfState(u: StreamState, n: nat, a: real, s: real)
    requires n >= 1 && s > 0.0 && u == StreamState(n, a, n as real * s * s)
    ensures Baseline(u, s)
  {
  }

  lemma BandAt(d: Detector, key: string, a: real, s: real, n: nat, k: real, v: real, sev: Severity)
    requires Valid(d) && n >= 158 && n + 1 >= d.minSamples && s > 0.0
    requires Lookup(d, key) == StreamState(n, a, n as real * s * s) && v == a + k * s
    requires || (k == 1.4 && sev == None) || (k == 1.6 && sev == Low)
             || (k == 2.1 && sev == Medium) || (k == 3.1 && sev == Critical)
    ensures Update(d, key, v).result.severity == sev
  {
    BaselineSeverity(d, key, a, s, n, k, v);
    BaselineBands(n as real);
  }

  lemma LowerBands(d: Detector, key: string, a: real, s: real, n: nat)
    requires Valid(d) && n >= 158 && n + 1 >= d.minSamples && s > 0.0
    requires Lookup(d, key) == StreamState(n, a, n as real * s * s)
    ensures Update(d, key, a + 1.4 * s).result.severity == None
    ensures Update(d, key, a + 1.6 * s).result.severity == Low
  {
    BandAt(d, key, a, s, n, 1.4, a + 1.4 * s, None);
    BandAt(d, key, a, s, n, 1.6, a + 1.6 * s, Low);
  }

  lemma UpperBands(d: Detector, key: string, a: real, s: real, n: nat)
    requires Valid(d) && n >= 158 && n + 1 >= d.minSamples && s > 0.0
    requires Lookup(d, key) == StreamState(n, a, n as real * s * s)
    ensures Update(d, key, a + 2.1 * s).result.severity == Medium
    ensures Update(d, key, a + 3.1 * s).result.severity == Critical
  {
    BandAt(d, key, a, s, n, 2.1, a + 2.1 * s, Medium);
    BandAt(d, key, a, s, n, 3.1, a + 3.1 * s, Critical);
  }

  /** The severity tests: once a key holds n >= 158 samples with mean a and
      population variance s² (`FedPairs`: the tests' 5000 pairs a ± s leave
      it so), the values a + 1.4s, a + 1.6s, a + 2.1s and a + 3.1s are
      classified none, low, medium and critical. */
  lemma SeverityLevels(d: Detector, key: string, a: real, s: real, n: nat)
    requires Valid(d) && n >= 158 && n + 1 >= d.minSamples && s > 0.0
    requires Lookup(d, key) == StreamState(n, a, n as real * s * s)
    ensures && Update(d, key, a + 1.4 * s).result.severity == None
            && Update(d, key, a + 1.6 * s).result.severity == Low
            && Update(d, key, a + 2.1 * s).result.severity == Medium
            && Update(d, key, a + 3.1 * s).result.severity == Critical
  {
    LowerBands(d, key, a, s, n);
    UpperBands(d, key, a, s, n);
  }

  /** n rounds of one update on `a` then one on `b`, all with the value c. */
  function Interleaved(a: string, b: string, c: real, n: nat): (evs: seq<Event>)
    ensures |evs| == 2 * n
  {
    if n == 0 then [] else Interleaved(a, b, c, n - 1) + [Event(a, c), Event(b, c)]
  }

  lemma ValuesOfSnoc2(evs: seq<Event>, e1: Event, e2: Event, key: string)
    ensures ValuesOf(evs + [e1, e2], key)
         == ValuesOf(evs, key) + (if e1.key == key then [e1.value] else []) + (if e2.key == key then [e2.value] else [])
  {
    assert (evs + [e1, e2])[..|evs| + 1] == evs + [e1];
    assert (evs + [e1])[..|evs|] == evs;
  }

  lemma {:induction false} ValuesOfInterleaved(a: string, b: string, c: real, n: nat)
    requires a != b
    ensures ValuesOf(Interleaved(a, b, c, n), a) == Repeat(c, n)
    ensures ValuesOf(Interleaved(a, b, c, n), b) == Repeat(c, n)
  {
    if n > 0 {
      ValuesOfInterleaved(a, b, c, n - 1);
      ValuesOfSnoc2(Interleaved(a, b, c, n - 1), Event(a, c), Event(b, c), a);
      ValuesOfSnoc2(Interleaved(a, b, c, n - 1), Event(a, c), Event(b, c), b);
    }
  }

  lemma FedInterleaved(minSamples: int, a: string, b: string, c: real, n: nat)
    requires a != b && n >= 1
    ensures var d := Feed(NewDetector(minSamples), Interleaved(a, b, c, n));
      Lookup(d, a) == StreamState(n, c, 0.0) && Lookup(d, b) == StreamState(n, c, 0.0)
  {
    var evs := Interleaved(a, b, c, n);
    FeedIsolation(NewDetector(minSamples), evs, a);
    FeedIsolation(NewDetector(minSamples), evs, b);
    ValuesOfInterleaved(a, b, c, n);
    ConstantStream(c, n);
  }

  /** The independence test: after n >= 3 rounds of the same value c on two
      keys, a different value on the first key is an anomaly, and the value c
      on the second key right after it is not. */
  lemma IndependentStreams(minSamples: int, a: string, b: string, c: real, n: nat, spike: real)
    requires a != b && n >= 3 && n + 1 >= minSamples && spike != c
    ensures var d := Feed(NewDetector(minSamples), Interleaved(a, b, c, n));
      var stepA := Update(d, a, spike);
      var resultB := Update(stepA.detector, b, c).result;
      && stepA.result.isAnomaly
      && !resultB.isAnomaly && resultB.severity == None
  {
    var d := Feed(NewDetector(minSamples), Interleaved(a, b, c, n));
    FedInterleaved(minSamples, a, b, c, n);
    SpikeAfterConstantRun(d, a, spike);
    var stepA := Update(d, a, spike);
    assert Lookup(stepA.detector, b) == StreamState(n, c, 0.0);
    RepeatedValueNeverAnomalous(stepA.detector, b, c);
  }
}
