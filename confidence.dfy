/**
  The advanced-confidence estimator of the crash-game predictor (app.py,
  compute_advanced_confidence).

  A chronological series of observed multipliers is scored against a
  threshold: the long-run share of observations strictly above the threshold
  is nudged by a short-term trend bias (over a window of the most recent
  observations) and by a streak-reversal bias (over the trailing run of
  observations on one side of the threshold), clamped to [0,1], and turned
  into a three-tier risk label.  Observations and the threshold are modelled
  as reals; floating point and NaN are not modelled.
 */
module Confidence {

  /** The four label strings the estimator can return. */
  datatype Risk = Neutral | LowRiskAbove | LowRiskUnder | Uncertain {
    /** The exact text the source returns for each label. */
    function Text(): string {
      match this
      case Neutral => "Neutral"
      case LowRiskAbove => "Low risk for Above 2"
      case LowRiskUnder => "Low risk for Under 2"
      case Uncertain => "High risk / uncertain"
    }
  }

  /** The estimator's result triple (above_conf, under_conf, risk). */
  datatype Forecast = Forecast(aboveConf: real, underConf: real, risk: Risk)

  /** The bias magnitudes and label cut-offs, as fixed in the source. */
  const TrendStep: real := 0.05
  const StreakStep: real := 0.08
  const StreakMin: nat := 3
  const HighCut: real := 0.65
  const LowCut: real := 0.35

  // ---------------------------------------------------------------------
  // Counting observations on each side of the threshold
  // ---------------------------------------------------------------------

  /** Number of observations strictly above the threshold. */
  function CountAbove(s: seq<real>, threshold: real): (n: nat)
    ensures n <= |s|
    ensures n == |s| <==> forall i :: 0 <= i < |s| ==> s[i] > threshold
  {
    if s == [] then 0
    else CountAbove(s[..|s| - 1], threshold) + (if s[|s| - 1] > threshold then 1 else 0)
  }

  /** Number of observations at or below the threshold. */
  function CountUnder(s: seq<real>, threshold: real): (n: nat)
    ensures n <= |s|
    ensures n == |s| <==> forall i :: 0 <= i < |s| ==> s[i] <= threshold
  {
    if s == [] then 0
    else CountUnder(s[..|s| - 1], threshold) + (if s[|s| - 1] <= threshold then 1 else 0)
  }

  /** Every real observation is on exactly one side: the two counts cover the series. */
  lemma {:induction false} CountsPartition(s: seq<real>, threshold: real)
    ensures CountAbove(s, threshold) + CountUnder(s, threshold) == |s|
  {
    if s != [] {
      CountsPartition(s[..|s| - 1], threshold);
    }
  }

  /** Appending one observation adds one to exactly the count of its side. */
  lemma CountsAppend(s: seq<real>, x: real, threshold: real)
    ensures CountAbove(s + [x], threshold) == CountAbove(s, threshold) + (if x > threshold then 1 else 0)
    ensures CountUnder(s + [x], threshold) == CountUnder(s, threshold) + (if x <= threshold then 1 else 0)
  {
    assert (s + [x])[..|s|] == s;
  }

  // ---------------------------------------------------------------------
  // Base frequency
  // ---------------------------------------------------------------------

  /** A proper fraction a / n lies in [0,1]. */
  lemma RatioBounds(a: real, n: real)
    requires 0.0 <= a <= n && n > 0.0
    ensures 0.0 <= a / n <= 1.0
    ensures a == n ==> a / n == 1.0
    ensures a == 0.0 ==> a / n == 0.0
  {
  }

  lemma NonNegativeFactor(d: real, m: real)
    requires m > 0.0 && d * m >= 0.0
    ensures d >= 0.0
  {
  }

  /** Adding one to both numerator and denominator of a proper fraction does not lower it. */
  lemma RatioGrows(a: real, n: real)
    requires 0.0 <= a <= n && n > 0.0
    ensures a / n <= (a + 1.0) / (n + 1.0)
  {
    var r1, r2 := a / n, (a + 1.0) / (n + 1.0);
    var m := n * (n + 1.0);
    assert m > 0.0;
    assert (r2 - r1) * m == n - a;
    NonNegativeFactor(r2 - r1, m);
  }

  /** Adding one to the denominator of a non-negative fraction does not raise it. */
  lemma RatioShrinks(a: real, n: real)
    requires 0.0 <= a <= n && n > 0.0
    ensures a / (n + 1.0) <= a / n
  {
    var r1, r2 := a / n, a / (n + 1.0);
    var m := n * (n + 1.0);
    assert m > 0.0;
    assert (r1 - r2) * m == a;
    NonNegativeFactor(r1 - r2, m);
  }

  /** above / (above + under): the long-run share of observations above the threshold. */
  function BaseAbove(s: seq<real>, threshold: real): (r: real)
    requires |s| > 0
    ensures 0.0 <= r <= 1.0
    ensures r == (CountAbove(s, threshold) as real) / (|s| as real)
    ensures r == 1.0 <==> forall i :: 0 <= i < |s| ==> s[i] > threshold
    ensures r == 0.0 <==> forall i :: 0 <= i < |s| ==> s[i] <= threshold
  {
    CountsPartition(s, threshold);
    var total := CountAbove(s, threshold) + CountUnder(s, threshold);
    RatioBounds(CountAbove(s, threshold) as real, total as real);
    (CountAbove(s, threshold) as real) / (total as real)
  }

  /** Appending an observation above the threshold never lowers the base frequency. */
  lemma AppendAboveRaisesBase(s: seq<real>, x: real, threshold: real)
    requires |s| > 0 && x > threshold
    ensures BaseAbove(s + [x], threshold) >= BaseAbove(s, threshold)
  {
    CountsAppend(s, x, threshold);
    RatioGrows(CountAbove(s, threshold) as real, |s| as real);
  }

  /** Appending an observation at or below the threshold never raises the base frequency. */
  lemma AppendUnderLowersBase(s: seq<real>, x: real, threshold: real)
    requires |s| > 0 && x <= threshold
    ensures BaseAbove(s + [x], threshold) <= BaseAbove(s, threshold)
  {
    CountsAppend(s, x, threshold);
    RatioShrinks(CountAbove(s, threshold) as real, |s| as real);
  }

  // ---------------------------------------------------------------------
  // Trend bias over the recent window
  // ---------------------------------------------------------------------

  function Min(a: int, b: int): int {
    if a <= b then a else b
  }

  /** The last trendWindow observations, or the whole series when it is shorter. */
  function Recent(s: seq<real>, trendWindow: int): (r: seq<real>)
    requires trendWindow >= 1
    ensures |r| == Min(trendWindow, |s|)
    ensures s[|s| - |r|..] == r
  {
    if |s| >= trendWindow then s[|s| - trendWindow..] else s
  }

  /** +0.05 when the window leans under, -0.05 when it leans above, 0 when balanced. */
  function TrendBias(recent: seq<real>, threshold: real): (b: real)
    ensures b == TrendStep <==> CountUnder(recent, threshold) > CountAbove(recent, threshold)
    ensures b == -TrendStep <==> CountAbove(recent, threshold) > CountUnder(recent, threshold)
    ensures b == 0.0 <==> CountAbove(recent, threshold) == CountUnder(recent, threshold)
  {
    var recentAbove := CountAbove(recent, threshold);
    var recentUnder := CountUnder(recent, threshold);
    if recentUnder > recentAbove then TrendStep
    else if recentAbove > recentUnder then -TrendStep
    else 0.0
  }

  // ---------------------------------------------------------------------
  // Streak: the trailing run on one side of the threshold
  // ---------------------------------------------------------------------

  /** The pair test of the backward scan: both above, or both at-or-below. */
  predicate SameSide(x: real, y: real, threshold: real)
    ensures SameSide(x, y, threshold) <==> ((x > threshold) <==> (y > threshold))
  {
    (x > threshold && y > threshold) || (x <= threshold && y <= threshold)
  }

  /** Length of the trailing run of observations on the last observation's side. */
  function TrailingRun(s: seq<real>, threshold: real): (n: nat)
    requires |s| > 0
    ensures 1 <= n <= |s|
  {
    if |s| == 1 then 1
    else if SameSide(s[|s| - 2], s[|s| - 1], threshold) then TrailingRun(s[..|s| - 1], threshold) + 1
    else 1
  }

  /**
    k is the length of the maximal trailing run: the last k observations are all
    on the side of the last one, and the observation just before them (if any) is not.
   */
  ghost predicate IsTrailingRun(s: seq<real>, threshold: real, k: int) {
    1 <= k <= |s| &&
    (forall j :: |s| - k <= j < |s| ==> SameSide(s[j], s[|s| - 1], threshold)) &&
    (k < |s| ==> !SameSide(s[|s| - k - 1], s[|s| - 1], threshold))
  }

  /** TrailingRun computes the maximal trailing run. */
  lemma {:induction false} TrailingRunIsMaximal(s: seq<real>, threshold: real)
    requires |s| > 0
    ensures IsTrailingRun(s, threshold, TrailingRun(s, threshold))
  {
    if |s| > 1 && SameSide(s[|s| - 2], s[|s| - 1], threshold) {
      var p := s[..|s| - 1];
      TrailingRunIsMaximal(p, threshold);
      var m := TrailingRun(p, threshold);
      forall j | |s| - (m + 1) <= j < |s|
        ensures SameSide(s[j], s[|s| - 1], threshold)
      {
        if j < |s| - 1 {
          assert s[j] == p[j] && SameSide(p[j], p[|p| - 1], threshold);
        }
      }
      if m + 1 < |s| {
        assert s[|s| - (m + 1) - 1] == p[|p| - m - 1];
      }
    }
  }

  /** The maximal trailing run is unique, so any length with that property is TrailingRun. */
  lemma TrailingRunUnique(s: seq<real>, threshold: real, k: int)
    requires |s| > 0 && IsTrailingRun(s, threshold, k)
    ensures k == TrailingRun(s, threshold)
  {
    TrailingRunIsMaximal(s, threshold);
  }

  /** The backward scan of the source: extend the streak while adjacent pairs agree. */
  method Streak(data: seq<real>, threshold: real) returns (streak: nat)
    requires |data| > 0
    ensures 1 <= streak <= |data|
    ensures IsTrailingRun(data, threshold, streak)
    ensures streak == TrailingRun(data, threshold)
  {
    streak := 1;
    for i := |data| - 1 downto 0
      invariant streak == |data| - i
      invariant forall j :: i <= j < |data| ==> SameSide(data[j], data[|data| - 1], threshold)
    {
      if SameSide(data[i], data[i + 1], threshold) {
        streak := streak + 1;
      } else {
        break;
      }
    }
    TrailingRunUnique(data, threshold, streak);
  }

  /** +0.08 after an under streak of 3 or more, -0.08 after such an above streak, else 0. */
  function StreakBias(s: seq<real>, threshold: real, streak: nat): (b: real)
    requires |s| > 0
    ensures b != 0.0 <==> streak >= StreakMin
    ensures b == StreakStep <==> streak >= StreakMin && s[|s| - 1] <= threshold
    ensures b == -StreakStep <==> streak >= StreakMin && s[|s| - 1] > threshold
  {
    if streak >= StreakMin then
      (if s[|s| - 1] <= threshold then StreakStep else -StreakStep)
    else 0.0
  }

  // ---------------------------------------------------------------------
  // Clamp, label, and the whole estimator
  // ---------------------------------------------------------------------

  /** min(max(x, 0), 1). */
  function Clamp(x: real): (r: real)
    ensures 0.0 <= r <= 1.0
    ensures 0.0 <= x <= 1.0 ==> r == x
    ensures x < 0.0 ==> r == 0.0
    ensures x > 1.0 ==> r == 1.0
  {
    var lower := if x >= 0.0 then x else 0.0;
    if lower <= 1.0 then lower else 1.0
  }

  /** The three-tier label with strict cut-offs at 0.65 and 0.35. */
  function RiskOf(aboveConf: real): (tier: Risk)
    ensures tier != Neutral
    ensures tier == LowRiskAbove <==> aboveConf > HighCut
    ensures tier == LowRiskUnder <==> aboveConf < LowCut
    ensures tier == Uncertain <==> LowCut <= aboveConf <= HighCut
    ensures tier.Text() == "Low risk for Above 2" <==> aboveConf > HighCut
    ensures tier.Text() == "Low risk for Under 2" <==> aboveConf < LowCut
    ensures tier.Text() == "High risk / uncertain" <==> LowCut <= aboveConf <= HighCut
  {
    if aboveConf > HighCut then LowRiskAbove
    else if aboveConf < LowCut then LowRiskUnder
    else Uncertain
  }

  /** The clamped sum of the three signals, for a non-empty series. */
  function AboveConfidence(data: seq<real>, threshold: real, trendWindow: int): (c: real)
    requires |data| > 0 && trendWindow >= 1
    ensures 0.0 <= c <= 1.0
    ensures BaseAbove(data, threshold) - (TrendStep + StreakStep) <= c <= BaseAbove(data, threshold) + (TrendStep + StreakStep)
  {
    var trendBias := TrendBias(Recent(data, trendWindow), threshold);
    var streakBias := StreakBias(data, threshold, TrailingRun(data, threshold));
    Clamp(BaseAbove(data, threshold) + trendBias + streakBias)
  }

  /** The estimator as a function of the series, the threshold and the trend window. */
  function Confidence(data: seq<real>, threshold: real := 2.0, trendWindow: int := 5): (r: Forecast)
    requires trendWindow >= 1
    ensures |data| == 0 ==> r == Forecast(0.5, 0.5, Neutral)
    ensures r.risk == Neutral <==> |data| == 0
    ensures r.risk.Text() == "Neutral" <==> |data| == 0
    ensures 0.0 <= r.aboveConf <= 1.0 && 0.0 <= r.underConf <= 1.0
    ensures r.aboveConf + r.underConf == 1.0
    ensures r.risk == LowRiskAbove <==> r.aboveConf > HighCut
    ensures r.risk == LowRiskUnder <==> r.aboveConf < LowCut
    ensures r.risk == LowRiskUnder <==> r.underConf > HighCut
    ensures r.risk == Uncertain <==> |data| > 0 && LowCut <= r.aboveConf <= HighCut
  {
    if |data| == 0 then Forecast(0.5, 0.5, Neutral)
    else
      var aboveConf := AboveConfidence(data, threshold, trendWindow);
      Forecast(aboveConf, 1.0 - aboveConf, RiskOf(aboveConf))
  }

  /** compute_advanced_confidence, step by step, with the streak found by the backward scan. */
  method ComputeAdvancedConfidence(data: seq<real>, threshold: real := 2.0, trendWindow: int := 5) returns (r: Forecast)
    requires trendWindow >= 1
    ensures r == Confidence(data, threshold, trendWindow)
  {
    if |data| == 0 {
      return Forecast(0.5, 0.5, Neutral);
    }
    var baseAbove := BaseAbove(data, threshold);
    var recent := Recent(data, trendWindow);
    var trendBias := TrendBias(recent, threshold);
    var streak := Streak(data, threshold);
    var streakBias := StreakBias(data, threshold, streak);
    var aboveConf := Clamp(baseAbove + trendBias + streakBias);
    var underConf := 1.0 - aboveConf;
    r := Forecast(aboveConf, underConf, RiskOf(aboveConf));
  }

  // ---------------------------------------------------------------------
  // Whole-series consequences
  // ---------------------------------------------------------------------

  /**
    The three signals of a series whose observations all lie on one side of the
    threshold: base frequency 1 or 0, a trend bias and a streak bias both
    pointing to the other side (the streak bias once the series has three or
    more observations).
   */
  lemma OneSidedSignals(data: seq<real>, threshold: real, trendWindow: int, above: bool)
    requires trendWindow >= 1 && |data| > 0
    requires forall i :: 0 <= i < |data| ==> (data[i] > threshold <==> above)
    ensures BaseAbove(data, threshold) == if above then 1.0 else 0.0
    ensures TrendBias(Recent(data, trendWindow), threshold) == if above then -TrendStep else TrendStep
    ensures TrailingRun(data, threshold) == |data|
  {
    assert BaseAbove(data, threshold) == if above then 1.0 else 0.0 by {
      CountsPartition(data, threshold);
      assert CountAbove(data, threshold) == if above then |data| else 0;
    }
    var recent := Recent(data, trendWindow);
    assert TrendBias(recent, threshold) == if above then -TrendStep else TrendStep by {
      assert forall i :: 0 <= i < |recent| ==> recent[i] == data[|data| - |recent| + i];
      CountsPartition(recent, threshold);
      assert CountAbove(recent, threshold) == if above then |recent| else 0;
    }
    TrailingRunUnique(data, threshold, |data|);
  }

  /** A series of three or more observations, all above the threshold, scores 0.87 / 0.13. */
  lemma AllAboveForecast(data: seq<real>, threshold: real, trendWindow: int)
    requires trendWindow >= 1 && |data| >= StreakMin
    requires forall i :: 0 <= i < |data| ==> data[i] > threshold
    ensures Confidence(data, threshold, trendWindow) == Forecast(0.87, 0.13, LowRiskAbove)
  {
    OneSidedSignals(data, threshold, trendWindow, true);
  }

  /** A series of three or more observations, all at or below the threshold, scores 0.13 / 0.87. */
  lemma AllUnderForecast(data: seq<real>, threshold: real, trendWindow: int)
    requires trendWindow >= 1 && |data| >= StreakMin
    requires forall i :: 0 <= i < |data| ==> data[i] <= threshold
    ensures Confidence(data, threshold, trendWindow) == Forecast(0.13, 0.87, LowRiskUnder)
  {
    OneSidedSignals(data, threshold, trendWindow, false);
  }

  /** Four observations under 2 then one above: 0.2 + 0.05 + 0 gives 0.25 / 0.75. */
  lemma MostlyUnderExample()
    ensures Confidence([1.0, 1.0, 1.0, 1.0, 3.0], 2.0, 5) == Forecast(0.25, 0.75, LowRiskUnder)
  {
    var data := [1.0, 1.0, 1.0, 1.0, 3.0];
    assert CountAbove(data, 2.0) == 1 by {
      var prefix := data[..4];
      assert CountUnder(prefix, 2.0) == 4;
      CountsPartition(prefix, 2.0);
    }
    CountsPartition(data, 2.0);
    assert Recent(data, 5) == data;
    assert TrailingRun(data, 2.0) == 1;
  }

  /** A series whose trailing run is shorter than three gets no streak bias. */
  lemma ShortRunNoStreakBias(data: seq<real>, threshold: real)
    requires |data| >= 2 && !SameSide(data[|data| - 2], data[|data| - 1], threshold)
    ensures TrailingRun(data, threshold) == 1
    ensures StreakBias(data, threshold, TrailingRun(data, threshold)) == 0.0
  {
  }
}
