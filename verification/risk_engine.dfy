/** The regional risk normaliser (backend/services/risk_engine.py): four raw
    signals are clamped to fixed domains, rescaled to [0, 100], rounded to
    one decimal, and combined with fixed weights into an overall score. */
module RiskEngine {
  import opened RiskModels
  import opened Rounding

  /** Breakdown keys, in the iteration order of the weight table. */
  const Signals: seq<string> := ["inflation", "unemployment", "shipping", "port_congestion"]

  const Weights: map<string, real> := map[
    "inflation" := 0.30,
    "unemployment" := 0.25,
    "shipping" := 0.25,
    "port_congestion" := 0.20]

  /** Fixed clamping domain of each signal. */
  const InflationLow := 0.0
  const InflationHigh := 15.0
  const UnemploymentLow := 0.0
  const UnemploymentHigh := 25.0
  const ShippingLow := -20.0
  const ShippingHigh := 50.0
  const PortLow := 0.0
  const PortHigh := 1.0

  function Clamp(x: real, low: real, high: real): real
    requires low < high
  {
    if x < low then low else if x > high then high else x
  }

  /** Clamp `x` to [low, high] and rescale linearly to [0, 100]. */
  function Normalize(x: real, low: real, high: real): (r: real)
    requires low < high
    ensures 0.0 <= r <= 100.0
    ensures x <= low ==> r == 0.0
    ensures x >= high ==> r == 100.0
    ensures low <= x <= high ==> r * (high - low) == (x - low) * 100.0
  {
    ((Clamp(x, low, high) - low) / (high - low)) * 100.0
  }

  /** Sum of `values[k] * Weights[k]` over `keys`. */
  function WeightedSum(keys: seq<string>, values: map<string, real>): real
    requires forall i :: 0 <= i < |keys| ==> keys[i] in values && keys[i] in Weights
  {
    if |keys| == 0 then 0.0
    else WeightedSum(keys[..|keys| - 1], values) + values[keys[|keys| - 1]] * Weights[keys[|keys| - 1]]
  }

  /** Sum of the weights of `keys`. */
  function WeightTotal(keys: seq<string>): real
    requires forall i :: 0 <= i < |keys| ==> keys[i] in Weights
  {
    if |keys| == 0 then 0.0 else WeightTotal(keys[..|keys| - 1]) + Weights[keys[|keys| - 1]]
  }

  ghost predicate InScoreRange(values: map<string, real>)
  {
    forall k :: k in values ==> 0.0 <= values[k] <= 100.0
  }

  /** The rounded breakdown of the four normalised signals. */
  function Breakdown(inp: RegionRiskInput): (b: map<string, real>)
    ensures b.Keys == {"inflation", "unemployment", "shipping", "port_congestion"}
    ensures InScoreRange(b)
  {
    var inflation := Normalize(inp.cpiChange, InflationLow, InflationHigh);
    var unemployment := Normalize(inp.unemploymentRate, UnemploymentLow, UnemploymentHigh);
    var shipping := Normalize(-inp.bdiChange, ShippingLow, ShippingHigh);
    var port := Normalize(inp.portCongestion, PortLow, PortHigh);
    Round1InScoreRange(inflation);
    Round1InScoreRange(unemployment);
    Round1InScoreRange(shipping);
    Round1InScoreRange(port);
    map[
      "inflation" := Round1(inflation),
      "unemployment" := Round1(unemployment),
      "shipping" := Round1(shipping),
      "port_congestion" := Round1(port)]
  }

  /** `RiskEngine.calculate`. */
  function Calculate(inp: RegionRiskInput): (r: RiskScore)
    ensures r.regionCode == inp.regionCode
    ensures r.breakdown.Keys == {"inflation", "unemployment", "shipping", "port_congestion"}
    ensures InScoreRange(r.breakdown)
    ensures 0.0 <= r.overall <= 100.0
  {
    var b := Breakdown(inp);
    var overall := WeightedSum(Signals, b);
    WeightedSumBounds(Signals, b);
    WeightsAreConvex();
    Round1InScoreRange(overall);
    RiskScore(inp.regionCode, Round1(overall), b)
  }

  /** The weights are non-negative, cover exactly the breakdown keys and sum to one. */
  lemma WeightsAreConvex()
    ensures Weights.Keys == set k | k in Signals
    ensures forall k :: k in Weights ==> Weights[k] >= 0.0
    ensures WeightTotal(Signals) == 1.0
  {
    var s1, s2, s3 := SignalPrefixes();
    assert WeightTotal(s1) == 0.30 by { assert s1[..0] == []; }
    assert WeightTotal(s2) == 0.55;
    assert WeightTotal(s3) == 0.80;
  }

  /** The proper prefixes of `Signals`, for unfolding the recursive sums. */
  lemma SignalPrefixes() returns (s1: seq<string>, s2: seq<string>, s3: seq<string>)
    ensures s1 == ["inflation"] && s2 == ["inflation", "unemployment"]
    ensures s3 == ["inflation", "unemployment", "shipping"]
    ensures Signals[..3] == s3 && s3[..2] == s2 && s2[..1] == s1 && s1[..0] == []
  {
    s1, s2, s3 := ["inflation"], ["inflation", "unemployment"], ["inflation", "unemployment", "shipping"];
  }

  /** A weighted sum of scores in [0, 100] lies in [0, 100 * total weight]. */
  lemma {:induction false} WeightedSumBounds(keys: seq<string>, values: map<string, real>)
    requires forall i :: 0 <= i < |keys| ==> keys[i] in values && keys[i] in Weights
    requires InScoreRange(values)
    ensures 0.0 <= WeightedSum(keys, values) <= 100.0 * WeightTotal(keys)
  {
    if |keys| > 0 {
      WeightedSumBounds(keys[..|keys| - 1], values);
      var k := keys[|keys| - 1];
      WeightsAreConvex();
      assert Weights[k] >= 0.0;
      ScaleMonotone(0.0, values[k], Weights[k]);
      ScaleMonotone(values[k], 100.0, Weights[k]);
    }
  }

  /** Raising scores pointwise never lowers the weighted sum. */
  lemma {:induction false} WeightedSumMonotone(keys: seq<string>, lo: map<string, real>, hi: map<string, real>)
    requires forall i :: 0 <= i < |keys| ==> keys[i] in lo && keys[i] in hi && keys[i] in Weights
    requires forall i :: 0 <= i < |keys| ==> lo[keys[i]] <= hi[keys[i]]
    ensures WeightedSum(keys, lo) <= WeightedSum(keys, hi)
  {
    if |keys| > 0 {
      var init, k := keys[..|keys| - 1], keys[|keys| - 1];
      WeightedSumMonotone(init, lo, hi);
      WeightsAreConvex();
      assert Weights[k] >= 0.0;
      ScaleMonotone(lo[k], hi[k], Weights[k]);
      AddMonotone(WeightedSum(init, lo), WeightedSum(init, hi), lo[k] * Weights[k], hi[k] * Weights[k]);
      assert WeightedSum(keys, lo) == WeightedSum(init, lo) + lo[k] * Weights[k];
      assert WeightedSum(keys, hi) == WeightedSum(init, hi) + hi[k] * Weights[k];
    }
  }

  /** The weighted sum over the four signals, written out. */
  lemma WeightedSumOfSignals(values: map<string, real>)
    requires forall k :: k in Signals ==> k in values
    ensures WeightedSum(Signals, values)
      == values["inflation"] * 0.30 + values["unemployment"] * 0.25
       + values["shipping"] * 0.25 + values["port_congestion"] * 0.20
  {
    var s1, s2, s3 := SignalPrefixes();
    assert WeightedSum(s1, values) == values["inflation"] * 0.30;
    assert WeightedSum(s2, values) == WeightedSum(s1, values) + values["unemployment"] * 0.25;
    assert WeightedSum(s3, values) == WeightedSum(s2, values) + values["shipping"] * 0.25;
  }

  /** `Normalize` is non-decreasing everywhere and strictly increasing on [low, high]. */
  lemma NormalizeMonotone(x: real, y: real, low: real, high: real)
    requires low < high && x <= y
    ensures Normalize(x, low, high) <= Normalize(y, low, high)
    ensures low <= x < y <= high ==> Normalize(x, low, high) < Normalize(y, low, high)
  {
    var d := high - low;
    var cx, cy := Clamp(x, low, high), Clamp(y, low, high);
    assert cx <= cy;
    DivideMonotone(cx - low, cy - low, d);
  }

  /** Dividing by a positive number keeps the order of two reals. */
  lemma DivideMonotone(a: real, b: real, d: real)
    requires 0.0 < d && a <= b
    ensures a / d <= b / d
    ensures a < b ==> a / d < b / d
  {
    assert b / d - a / d == (b - a) / d;
  }

  /** Adding ordered pairs keeps the order. */
  lemma AddMonotone(a: real, b: real, c: real, d: real)
    requires a <= b && c <= d
    ensures a + c <= b + d
  {
  }

  /** Scaling by a non-negative weight keeps the order of two reals. */
  lemma ScaleMonotone(a: real, b: real, w: real)
    requires 0.0 <= w && a <= b
    ensures a * w <= b * w
  {
    assert b * w - a * w == (b - a) * w;
  }

  /** A score whose breakdown is pointwise no larger has no larger overall score. */
  lemma OverallMonotone(a: RegionRiskInput, b: RegionRiskInput)
    requires forall k :: k in Signals ==> Breakdown(a)[k] <= Breakdown(b)[k]
    ensures Calculate(a).overall <= Calculate(b).overall
  {
    WeightedSumMonotone(Signals, Breakdown(a), Breakdown(b));
    Round1Monotone(WeightedSum(Signals, Breakdown(a)), WeightedSum(Signals, Breakdown(b)));
  }

  /** A larger CPI change never lowers the inflation component nor the overall score. */
  lemma CpiChangeMonotone(inp: RegionRiskInput, cpi: real)
    requires inp.cpiChange <= cpi
    ensures Calculate(inp).breakdown["inflation"] <= Calculate(inp.(cpiChange := cpi)).breakdown["inflation"]
    ensures Calculate(inp).overall <= Calculate(inp.(cpiChange := cpi)).overall
  {
    var hi := inp.(cpiChange := cpi);
    NormalizeMonotone(inp.cpiChange, cpi, InflationLow, InflationHigh);
    Round1Monotone(Normalize(inp.cpiChange, InflationLow, InflationHigh), Normalize(cpi, InflationLow, InflationHigh));
    OverallMonotone(inp, hi);
  }

  /** The shipping signal is the negated BDI change: a smaller BDI change never
      yields a smaller shipping component nor a smaller overall score. */
  lemma BdiChangeAntitone(inp: RegionRiskInput, bdi: real)
    requires bdi <= inp.bdiChange
    ensures Calculate(inp).breakdown["shipping"] <= Calculate(inp.(bdiChange := bdi)).breakdown["shipping"]
    ensures Calculate(inp).overall <= Calculate(inp.(bdiChange := bdi)).overall
  {
    var hi := inp.(bdiChange := bdi);
    NormalizeMonotone(-inp.bdiChange, -bdi, ShippingLow, ShippingHigh);
    Round1Monotone(Normalize(-inp.bdiChange, ShippingLow, ShippingHigh), Normalize(-bdi, ShippingLow, ShippingHigh));
    OverallMonotone(inp, hi);
  }

  /** With every other signal fixed, CPI 8.0 scores strictly higher than CPI 1.0,
      both in the inflation component and overall. */
  lemma HighInflationScoresHigher(inp: RegionRiskInput)
    ensures Calculate(inp.(cpiChange := 1.0)).breakdown["inflation"]
          < Calculate(inp.(cpiChange := 8.0)).breakdown["inflation"]
    ensures Calculate(inp.(cpiChange := 1.0)).overall < Calculate(inp.(cpiChange := 8.0)).overall
  {
    var lo, hi := inp.(cpiChange := 1.0), inp.(cpiChange := 8.0);
    var bl, bh := Breakdown(lo), Breakdown(hi);
    // The inflation components round from 6.66.. and 53.33..
    assert 6.6 <= bl["inflation"] <= 6.8;
    assert 53.2 <= bh["inflation"] <= 53.4;
    WeightedSumOfSignals(bl);
    WeightedSumOfSignals(bh);
    Round1Separates(WeightedSum(Signals, bl), WeightedSum(Signals, bh));
  }

  /** Uniformly bad signals give an overall score of at least 70. */
  lemma AllBadSignalsScoreHigh(region: string)
    ensures Calculate(RegionRiskInput(region, 14.0, 22.0, -40.0, 0.95)).overall >= 70.0
  {
    var b := Breakdown(RegionRiskInput(region, 14.0, 22.0, -40.0, 0.95));
    WeightedSumOfSignals(b);
    assert b["inflation"] >= 93.28 && b["unemployment"] >= 87.95;
    assert b["shipping"] >= 85.66 && b["port_congestion"] >= 94.95;
  }

  /** Uniformly healthy signals give an overall score of at most 30. */
  lemma AllGoodSignalsScoreLow(region: string)
    ensures Calculate(RegionRiskInput(region, 1.0, 3.0, 10.0, 0.05)).overall <= 30.0
  {
    var b := Breakdown(RegionRiskInput(region, 1.0, 3.0, 10.0, 0.05));
    WeightedSumOfSignals(b);
    assert b["inflation"] <= 6.72 && b["unemployment"] <= 12.05;
    assert b["shipping"] <= 14.34 && b["port_congestion"] <= 5.05;
  }

  /** Rounding moves the overall score at most 0.1 away from the exact weighted
      sum of the unrounded normalised signals. */
  lemma OverallTracksExactScore(inp: RegionRiskInput)
    ensures var exact := Normalize(inp.cpiChange, InflationLow, InflationHigh) * 0.30
                       + Normalize(inp.unemploymentRate, UnemploymentLow, UnemploymentHigh) * 0.25
                       + Normalize(-inp.bdiChange, ShippingLow, ShippingHigh) * 0.25
                       + Normalize(inp.portCongestion, PortLow, PortHigh) * 0.20;
            exact - 0.1 <= Calculate(inp).overall <= exact + 0.1
  {
    WeightedSumOfSignals(Breakdown(inp));
  }
}
