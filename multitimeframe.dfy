/**
 * The multi-timeframe analyzer: per-frame momentum and volume trend, the
 * weighted overall trend, entry timing, the risk/reward ratio, the
 * confidence level and the overall 0-100 score. Support, resistance and
 * volatility of a frame are inputs (they come from percentile and
 * standard-deviation numerics).
 */
module MultiTimeframe {
  import opened Common

  // ---------------------------------------------------------------------------
  // Timeframes and their weights

  datatype Timeframe = H1 | H4 | H12 | H24 | D3

  /** The frames in the order the analysis builds them. */
  const Frames: seq<Timeframe> := [H1, H4, H12, H24, D3]

  function Weight(tf: Timeframe): (w: real)
    ensures 0.0 < w <= 0.25
  {
    match tf
    case H1 => 0.15
    case H4 => 0.25
    case H12 => 0.25
    case H24 => 0.20
    case D3 => 0.15
  }

  function WeightSum(fs: seq<Timeframe>): (r: real)
    ensures r >= 0.0
    decreases |fs|
  {
    if fs == [] then 0.0 else WeightSum(fs[..|fs| - 1]) + Weight(fs[|fs| - 1])
  }

  /** The five weights add up to one. */
  lemma WeightsSumToOne()
    ensures WeightSum(Frames) == 1.0
  {
    assert [H1][..0] == [];
    assert WeightSum([H1]) == 0.15;
    assert [H1, H4][..1] == [H1];
    assert WeightSum([H1, H4]) == 0.40;
    assert [H1, H4, H12][..2] == [H1, H4];
    assert WeightSum([H1, H4, H12]) == 0.65;
    assert [H1, H4, H12, H24][..3] == [H1, H4, H12];
    assert WeightSum([H1, H4, H12, H24]) == 0.85;
    assert Frames[..4] == [H1, H4, H12, H24];
  }

  // ---------------------------------------------------------------------------
  // Momentum and trend

  /** The five momentum labels, also used for the overall trend. */
  datatype Trend = StrongBullish | Bullish | Neutral | Bearish | StrongBearish

  function TrendScore(t: Trend): int
  {
    match t
    case StrongBullish => 2
    case Bullish => 1
    case Neutral => 0
    case Bearish => -1
    case StrongBearish => -2
  }

  predicate IsBullish(t: Trend)
  {
    t == Bullish || t == StrongBullish
  }

  /** Buckets a percent price change at 50, 20, -10 and -30. */
  function MomentumOf(priceChange: real): (m: Trend)
    ensures m == StrongBullish <==> priceChange > 50.0
    ensures m == Bullish <==> 20.0 < priceChange <= 50.0
    ensures m == Neutral <==> -10.0 < priceChange <= 20.0
    ensures m == Bearish <==> -30.0 < priceChange <= -10.0
    ensures m == StrongBearish <==> priceChange <= -30.0
  {
    if priceChange > 50.0 then StrongBullish
    else if priceChange > 20.0 then Bullish
    else if priceChange > -10.0 then Neutral
    else if priceChange > -30.0 then Bearish
    else StrongBearish
  }

  /** A larger price change never gives a weaker momentum. */
  lemma MomentumMonotone(a: real, b: real)
    requires a <= b
    ensures TrendScore(MomentumOf(a)) <= TrendScore(MomentumOf(b))
  {
  }

  /** Buckets a weighted momentum score at 1.5, 0.5, -0.5 and -1.5. */
  function TrendOf(weighted: real): (t: Trend)
    ensures t == StrongBullish <==> weighted > 1.5
    ensures t == Bullish <==> 0.5 < weighted <= 1.5
    ensures t == Neutral <==> -0.5 < weighted <= 0.5
    ensures t == Bearish <==> -1.5 < weighted <= -0.5
    ensures t == StrongBearish <==> weighted <= -1.5
  {
    if weighted > 1.5 then StrongBullish
    else if weighted > 0.5 then Bullish
    else if weighted > -0.5 then Neutral
    else if weighted > -1.5 then Bearish
    else StrongBearish
  }

  /** Bucketing the score of a label gives the label back. */
  lemma TrendOfScore(t: Trend)
    ensures TrendOf(TrendScore(t) as real) == t
  {
  }

  // ---------------------------------------------------------------------------
  // Volume trend

  datatype VolumeTrend = Increasing | Stable | Decreasing

  function Total(s: seq<real>): real
    decreases |s|
  {
    if s == [] then 0.0 else Total(s[..|s| - 1]) + s[|s| - 1]
  }

  lemma {:induction false} TotalNonNegative(s: seq<real>)
    requires forall i :: 0 <= i < |s| ==> s[i] >= 0.0
    ensures Total(s) >= 0.0
    decreases |s|
  {
    if s != [] {
      TotalNonNegative(s[..|s| - 1]);
    }
  }

  lemma {:induction false} TotalConstant(s: seq<real>, v: real)
    requires forall i :: 0 <= i < |s| ==> s[i] == v
    ensures Total(s) == |s| as real * v
    decreases |s|
  {
    if s != [] {
      TotalConstant(s[..|s| - 1], v);
    }
  }

  function Mean(s: seq<real>): real
    requires |s| > 0
  {
    Total(s) / |s| as real
  }

  /** Mean volume of the later half over the mean of the earlier half plus one. */
  function HalvesRatio(volumes: seq<Amount>): (ratio: real)
    requires |volumes| >= 2
    ensures ratio >= 0.0
  {
    var half := |volumes| / 2;
    var first, second := volumes[..half], volumes[half..];
    TotalNonNegative(first);
    TotalNonNegative(second);
    assert Mean(first) >= 0.0 && Mean(second) >= 0.0;
    Mean(second) / (Mean(first) + 1.0)
  }

  function VolumeTrendOf(volumes: seq<Amount>): (v: VolumeTrend)
    ensures |volumes| < 2 ==> v == Stable
    ensures |volumes| >= 2 ==> (v == Increasing <==> HalvesRatio(volumes) > 1.3)
    ensures |volumes| >= 2 ==> (v == Decreasing <==> HalvesRatio(volumes) < 0.7)
  {
    if |volumes| < 2 then Stable
    else
      var ratio := HalvesRatio(volumes);
      if ratio > 1.3 then Increasing
      else if ratio < 0.7 then Decreasing
      else Stable
  }

  lemma MeanConstant(s: seq<real>, v: real)
    requires |s| > 0
    requires forall i :: 0 <= i < |s| ==> s[i] == v
    ensures Mean(s) == v
  {
    TotalConstant(s, v);
    var n := |s| as real;
    assert Total(s) == n * v;
    assert n * v / n == v;
  }

  lemma FlatRatio(v: real)
    requires v >= 0.0
    ensures v / (v + 1.0) < 1.0
    ensures v / (v + 1.0) < 0.7 <==> v < 7.0 / 3.0
  {
    var d := v + 1.0;
    var ratio := v / d;
    assert ratio * d == v;
    if ratio < 0.7 {
      assert (0.7 - ratio) * d > 0.0;
    } else {
      var x := ratio - 0.7;
      assert x >= 0.0 && d > 0.0;
      assert x * d >= 0.0;
      assert x * d == v - 0.7 * d;
    }
  }

  /**
   * Flat volume is never read as increasing, and because of the added one
   * in the divisor a flat volume below 7/3 reads as decreasing.
   */
  lemma FlatVolumeTrend(volumes: seq<Amount>, v: Amount)
    requires |volumes| >= 2
    requires forall i :: 0 <= i < |volumes| ==> volumes[i] == v
    ensures VolumeTrendOf(volumes) == if v < 7.0 / 3.0 then Decreasing else Stable
  {
    var half := |volumes| / 2;
    MeanConstant(volumes[..half], v);
    MeanConstant(volumes[half..], v);
    assert HalvesRatio(volumes) == v / (v + 1.0);
    FlatRatio(v);
  }

  // ---------------------------------------------------------------------------
  // One timeframe

  datatype TimeframeData = TimeframeData(
    timeframe: Timeframe,
    priceChange: real,
    volumeAvg: real,
    volumeTrend: VolumeTrend,
    priceMomentum: Trend,
    supportLevel: real,
    resistanceLevel: real,
    volatility: real)

  /**
   * Builds one frame from its price and volume samples, falling back to the
   * 24h change and volume when there are none. A series whose first price is
   * zero would divide by zero.
   */
  function AnalyzeTimeframe(token: TokenData, tf: Timeframe, prices: seq<real>, volumes: seq<Amount>,
                            support: real, resistance: real, volatility: real): (d: TimeframeData)
    requires prices == [] || prices[0] != 0.0
    ensures d.timeframe == tf
    ensures prices == [] ==> d.priceChange == token.priceChange24h
    ensures prices != [] ==> d.priceChange * prices[0] == (prices[|prices| - 1] - prices[0]) * 100.0
    ensures d.priceMomentum == MomentumOf(d.priceChange)
    ensures d.volumeTrend == VolumeTrendOf(volumes)
    ensures volumes == [] ==> d.volumeAvg == token.volume24h
    ensures volumes != [] ==> d.volumeAvg == Mean(volumes)
    ensures d.supportLevel == support && d.resistanceLevel == resistance && d.volatility == volatility
  {
    var change := if prices == [] then token.priceChange24h
                  else (prices[|prices| - 1] - prices[0]) / prices[0] * 100.0;
    var avg := if volumes == [] then token.volume24h else Mean(volumes);
    TimeframeData(tf, change, avg, VolumeTrendOf(volumes), MomentumOf(change), support, resistance, volatility)
  }

  // ---------------------------------------------------------------------------
  // Overall trend

  /** The weighted momentum score of the frames in `fs` that are present. */
  function WeightedScore(tfs: map<Timeframe, TimeframeData>, fs: seq<Timeframe>): real
    decreases |fs|
  {
    if fs == [] then 0.0
    else
      var f := fs[|fs| - 1];
      WeightedScore(tfs, fs[..|fs| - 1])
        + (if f in tfs then TrendScore(tfs[f].priceMomentum) as real * Weight(f) else 0.0)
  }

  lemma {:induction false} WeightedScoreBounds(tfs: map<Timeframe, TimeframeData>, fs: seq<Timeframe>)
    ensures -2.0 * WeightSum(fs) <= WeightedScore(tfs, fs) <= 2.0 * WeightSum(fs)
    decreases |fs|
  {
    if fs != [] {
      WeightedScoreBounds(tfs, fs[..|fs| - 1]);
    }
  }

  /** Since the weights sum to one, the weighted score lies in [-2, 2]. */
  lemma OverallScoreRange(tfs: map<Timeframe, TimeframeData>)
    ensures -2.0 <= WeightedScore(tfs, Frames) <= 2.0
  {
    WeightedScoreBounds(tfs, Frames);
    WeightsSumToOne();
  }

  lemma {:induction false} UnanimousScore(tfs: map<Timeframe, TimeframeData>, fs: seq<Timeframe>, m: Trend)
    requires forall i :: 0 <= i < |fs| ==> fs[i] in tfs && tfs[fs[i]].priceMomentum == m
    ensures WeightedScore(tfs, fs) == TrendScore(m) as real * WeightSum(fs)
    decreases |fs|
  {
    if fs != [] {
      UnanimousScore(tfs, fs[..|fs| - 1], m);
    }
  }

  /** When all five frames agree on a momentum, the overall trend is that momentum. */
  lemma UnanimousTrend(tfs: map<Timeframe, TimeframeData>, m: Trend)
    requires forall f :: f in tfs ==> tfs[f].priceMomentum == m
    requires forall i :: 0 <= i < |Frames| ==> Frames[i] in tfs
    ensures TrendOf(WeightedScore(tfs, Frames)) == m
  {
    UnanimousScore(tfs, Frames, m);
    WeightsSumToOne();
    TrendOfScore(m);
  }

  /** Accumulates the weighted score frame by frame, then buckets it. */
  method CalculateOverallTrend(tfs: map<Timeframe, TimeframeData>) returns (trend: Trend)
    ensures trend == TrendOf(WeightedScore(tfs, Frames))
  {
    var weighted := 0.0;
    for i := 0 to |Frames|
      invariant weighted == WeightedScore(tfs, Frames[..i])
    {
      var tf := Frames[i];
      assert Frames[..i + 1][..i] == Frames[..i];
      if tf in tfs {
        weighted := weighted + TrendScore(tfs[tf].priceMomentum) as real * Weight(tf);
      }
    }
    assert Frames[..|Frames|] == Frames;
    if weighted > 1.5 {
      trend := StrongBullish;
    } else if weighted > 0.5 {
      trend := Bullish;
    } else if weighted > -0.5 {
      trend := Neutral;
    } else if weighted > -1.5 {
      trend := Bearish;
    } else {
      trend := StrongBearish;
    }
  }

  // ---------------------------------------------------------------------------
  // Entry timing

  datatype Timing = Immediate | WaitDip | WaitBreakout | Avoid

  function EntryTiming(token: TokenData, tfs: map<Timeframe, TimeframeData>, overall: Trend): (r: Timing)
    ensures r == WaitDip <==>
              || H1 !in tfs || H4 !in tfs
              || (IsBullish(overall) && tfs[H1].priceChange > 30.0 && tfs[H1].volatility > 10.0)
    ensures r == Avoid <==> H1 in tfs && H4 in tfs && !IsBullish(overall)
    ensures r == Immediate ==> IsBullish(overall) && H1 in tfs && H4 in tfs
    ensures r == WaitBreakout <==>
              H1 in tfs && H4 in tfs && IsBullish(overall)
              && !(tfs[H1].priceChange > 30.0 && tfs[H1].volatility > 10.0)
              && token.priceUsd >= tfs[H1].supportLevel * 1.1
              && token.priceUsd > tfs[H1].resistanceLevel * 0.95
  {
    if H1 !in tfs || H4 !in tfs then WaitDip
    else
      var shortTerm := tfs[H1];
      if IsBullish(overall) then
        if shortTerm.priceChange > 30.0 && shortTerm.volatility > 10.0 then WaitDip
        else if token.priceUsd < shortTerm.supportLevel * 1.1 then Immediate
        else if token.priceUsd > shortTerm.resistanceLevel * 0.95 then WaitBreakout
        else Immediate
      else Avoid
  }

  // ---------------------------------------------------------------------------
  // Risk/reward

  /** The support levels of the present frames, in frame order. */
  function SupportLevels(tfs: map<Timeframe, TimeframeData>, fs: seq<Timeframe>): seq<real>
    decreases |fs|
  {
    if fs == [] then []
    else
      var f := fs[|fs| - 1];
      SupportLevels(tfs, fs[..|fs| - 1]) + (if f in tfs then [tfs[f].supportLevel] else [])
  }

  function ResistanceLevels(tfs: map<Timeframe, TimeframeData>, fs: seq<Timeframe>): seq<real>
    decreases |fs|
  {
    if fs == [] then []
    else
      var f := fs[|fs| - 1];
      ResistanceLevels(tfs, fs[..|fs| - 1]) + (if f in tfs then [tfs[f].resistanceLevel] else [])
  }

  /** The positive entries of `s`, in order. */
  function Positive(s: seq<real>): (r: seq<real>)
    ensures forall x :: x in r ==> x > 0.0 && x in s
    ensures forall x :: x in s && x > 0.0 ==> x in r
    decreases |s|
  {
    if s == [] then []
    else Positive(s[..|s| - 1]) + (if s[|s| - 1] > 0.0 then [s[|s| - 1]] else [])
  }

  /** The positive support levels, in frame order. */
  function Supports(tfs: map<Timeframe, TimeframeData>): seq<real>
  {
    Positive(SupportLevels(tfs, Frames))
  }

  function Resistances(tfs: map<Timeframe, TimeframeData>): seq<real>
  {
    Positive(ResistanceLevels(tfs, Frames))
  }

  /**
   * Reward per unit of risk against the mean positive support and
   * resistance, capped at 3; 1 when either side has no positive level.
   */
  function RiskReward(token: TokenData, tfs: map<Timeframe, TimeframeData>): (r: real)
    ensures 0.0 <= r <= 3.0
    ensures Supports(tfs) == [] || Resistances(tfs) == [] ==> r == 1.0
  {
    if Supports(tfs) == [] || Resistances(tfs) == [] then 1.0
    else
      var loss := Abs(token.priceUsd - Mean(Supports(tfs)));
      var gain := Abs(Mean(Resistances(tfs)) - token.priceUsd);
      RatioCapped(gain, loss)
  }

  /** A price sitting exactly on the mean support risks nothing and gets the top ratio of 3. */
  lemma RiskRewardAtSupport(token: TokenData, tfs: map<Timeframe, TimeframeData>)
    requires Supports(tfs) != [] && Resistances(tfs) != []
    requires token.priceUsd == Mean(Supports(tfs))
    ensures RiskReward(token, tfs) == 3.0
  {
    assert Abs(token.priceUsd - Mean(Supports(tfs))) == 0.0;
  }

  /** Otherwise the ratio is the potential gain over the potential loss, capped at 3. */
  lemma RiskRewardRatio(token: TokenData, tfs: map<Timeframe, TimeframeData>)
    requires Supports(tfs) != [] && Resistances(tfs) != []
    requires token.priceUsd != Mean(Supports(tfs))
    ensures RiskReward(token, tfs) * Abs(token.priceUsd - Mean(Supports(tfs)))
            == Min(Abs(Mean(Resistances(tfs)) - token.priceUsd), 3.0 * Abs(token.priceUsd - Mean(Supports(tfs))))
  {
  }

  /** `gain / loss` capped at 3, and 3 when nothing can be lost. */
  function RatioCapped(gain: real, loss: real): (r: real)
    requires gain >= 0.0 && loss >= 0.0
    ensures 0.0 <= r <= 3.0
    ensures loss == 0.0 ==> r == 3.0
    ensures loss > 0.0 ==> r * loss == Min(gain, 3.0 * loss)
  {
    if loss == 0.0 then 3.0
    else
      var q := gain / loss;
      assert q * loss == gain;
      assert q < 3.0 <==> gain < 3.0 * loss;
      Min(q, 3.0)
  }

  // ---------------------------------------------------------------------------
  // Confidence

  function BullishCount(tfs: map<Timeframe, TimeframeData>, fs: seq<Timeframe>): (n: nat)
    ensures n <= |fs|
    decreases |fs|
  {
    if fs == [] then 0
    else
      var f := fs[|fs| - 1];
      BullishCount(tfs, fs[..|fs| - 1]) + (if f in tfs && IsBullish(tfs[f].priceMomentum) then 1 else 0)
  }

  function IncreasingCount(tfs: map<Timeframe, TimeframeData>, fs: seq<Timeframe>): (n: nat)
    ensures n <= |fs|
    decreases |fs|
  {
    if fs == [] then 0
    else
      var f := fs[|fs| - 1];
      IncreasingCount(tfs, fs[..|fs| - 1]) + (if f in tfs && tfs[f].volumeTrend == Increasing then 1 else 0)
  }

  function VolatilityTotal(tfs: map<Timeframe, TimeframeData>, fs: seq<Timeframe>): real
    decreases |fs|
  {
    if fs == [] then 0.0
    else
      var f := fs[|fs| - 1];
      VolatilityTotal(tfs, fs[..|fs| - 1]) + (if f in tfs then tfs[f].volatility else 0.0)
  }

  /** Mean volatility over the frames; every frame appears once in `Frames`. */
  function MeanVolatility(tfs: map<Timeframe, TimeframeData>): real
    requires tfs != map[]
  {
    VolatilityTotal(tfs, Frames) / |tfs| as real
  }

  function RiskRewardBonus(rr: real): (b: real)
    ensures rr > 2.0 ==> b == 15.0
    ensures 1.5 < rr <= 2.0 ==> b == 10.0
    ensures 1.0 < rr <= 1.5 ==> b == 5.0
    ensures rr <= 1.0 ==> b == 0.0
  {
    if rr > 2.0 then 15.0 else if rr > 1.5 then 10.0 else if rr > 1.0 then 5.0 else 0.0
  }

  /** The mean of no frames is not a number, which compares false: no penalty. */
  function VolatilityPenalty(tfs: map<Timeframe, TimeframeData>): (p: real)
    ensures tfs == map[] ==> p == 0.0
    ensures tfs != map[] ==> p == (if MeanVolatility(tfs) > 20.0 then 10.0
                                   else if MeanVolatility(tfs) > 15.0 then 5.0 else 0.0)
  {
    if tfs == map[] then 0.0
    else
      var avg := MeanVolatility(tfs);
      if avg > 20.0 then 10.0 else if avg > 15.0 then 5.0 else 0.0
  }

  /** Confidence before clamping: base 50, five points per bullish or volume-rising frame. */
  function RawConfidence(tfs: map<Timeframe, TimeframeData>, rr: real): real
  {
    50.0 + 5.0 * BullishCount(tfs, Frames) as real + 5.0 * IncreasingCount(tfs, Frames) as real
      + RiskRewardBonus(rr) - VolatilityPenalty(tfs)
  }

  function ConfidenceOf(tfs: map<Timeframe, TimeframeData>, rr: real): (c: real)
    ensures 0.0 <= c <= 100.0
    ensures 0.0 <= RawConfidence(tfs, rr) <= 100.0 ==> c == RawConfidence(tfs, rr)
    ensures RawConfidence(tfs, rr) > 100.0 ==> c == 100.0
  {
    Min(Max(RawConfidence(tfs, rr), 0.0), 100.0)
  }

  /** The lower clamp never bites: raw confidence is at least 40 and at most 115. */
  lemma RawConfidenceRange(tfs: map<Timeframe, TimeframeData>, rr: real)
    ensures 40.0 <= RawConfidence(tfs, rr) <= 115.0
    ensures ConfidenceOf(tfs, rr) >= 40.0
  {
  }

  /** A better risk/reward never lowers confidence. */
  lemma ConfidenceMonotoneInRiskReward(tfs: map<Timeframe, TimeframeData>, rr1: real, rr2: real)
    requires rr1 <= rr2
    ensures ConfidenceOf(tfs, rr1) <= ConfidenceOf(tfs, rr2)
  {
  }

  /** Builds the confidence step by step from the frames, then clamps it to [0, 100]. */
  method CalculateConfidence(tfs: map<Timeframe, TimeframeData>, overall: Trend, rr: real) returns (confidence: real)
    ensures confidence == ConfidenceOf(tfs, rr)
    ensures 0.0 <= confidence <= 100.0
  {
    var aligned, rising, volatility := 0, 0, 0.0;
    for i := 0 to |Frames|
      invariant aligned == BullishCount(tfs, Frames[..i])
      invariant rising == IncreasingCount(tfs, Frames[..i])
      invariant volatility == VolatilityTotal(tfs, Frames[..i])
    {
      var tf := Frames[i];
      assert Frames[..i + 1][..i] == Frames[..i];
      if tf in tfs {
        if IsBullish(tfs[tf].priceMomentum) {
          aligned := aligned + 1;
        }
        if tfs[tf].volumeTrend == Increasing {
          rising := rising + 1;
        }
        volatility := volatility + tfs[tf].volatility;
      }
    }
    assert Frames[..|Frames|] == Frames;
    confidence := 50.0;
    confidence := confidence + aligned as real * 5.0;
    confidence := confidence + rising as real * 5.0;
    if rr > 2.0 {
      confidence := confidence + 15.0;
    } else if rr > 1.5 {
      confidence := confidence + 10.0;
    } else if rr > 1.0 {
      confidence := confidence + 5.0;
    }
    if |tfs| > 0 {
      var avgVolatility := volatility / |tfs| as real;
      if avgVolatility > 20.0 {
        confidence := confidence - 10.0;
      } else if avgVolatility > 15.0 {
        confidence := confidence - 5.0;
      }
    }
    assert confidence == RawConfidence(tfs, rr);
    confidence := Min(Max(confidence, 0.0), 100.0);
  }

  // ---------------------------------------------------------------------------
  // Overall score

  function TrendPoints(t: Trend): (p: real)
    ensures 0.0 <= p <= 30.0
  {
    match t
    case StrongBullish => 30.0
    case Bullish => 20.0
    case Neutral => 10.0
    case _ => 0.0
  }

  /** Volume-to-cap ratio points at 2, 1, 0.5 and 0.2. */
  function VolumePoints(token: TokenData): (p: real)
    ensures 0.0 <= p <= 20.0
  {
    var ratio := token.volume24h / (token.marketCap + 1.0);
    if ratio > 2.0 then 20.0
    else if ratio > 1.0 then 15.0
    else if ratio > 0.5 then 10.0
    else if ratio > 0.2 then 5.0
    else 0.0
  }

  /** Market-cap points for the 1M-10M, 500k-20M and 100k-50M bands. */
  function CapPoints(token: TokenData): (p: real)
    ensures 0.0 <= p <= 20.0
  {
    if 1_000_000.0 <= token.marketCap <= 10_000_000.0 then 20.0
    else if 500_000.0 <= token.marketCap <= 20_000_000.0 then 15.0
    else if 100_000.0 <= token.marketCap <= 50_000_000.0 then 10.0
    else 0.0
  }

  function RawOverallScore(token: TokenData, overall: Trend, rr: real, confidence: real): real
  {
    TrendPoints(overall) + VolumePoints(token) + CapPoints(token) + Min(rr * 5.0, 15.0) + confidence * 0.15
  }

  function OverallScoreOf(token: TokenData, overall: Trend, rr: real, confidence: real): (s: real)
    ensures s <= 100.0
    ensures rr >= 0.0 && confidence >= 0.0 ==> s >= 0.0
  {
    Min(RawOverallScore(token, overall, rr, confidence), 100.0)
  }

  /**
   * With a confidence of at most 100 the parts add up to at most 100, so the
   * cap at 100 never bites.
   */
  lemma OverallScoreCapInactive(token: TokenData, overall: Trend, rr: real, confidence: real)
    requires confidence <= 100.0
    ensures RawOverallScore(token, overall, rr, confidence) <= 100.0
    ensures OverallScoreOf(token, overall, rr, confidence) == RawOverallScore(token, overall, rr, confidence)
  {
  }

  /** Adds trend, volume, cap, risk/reward and confidence points, then caps at 100. */
  method CalculateOverallScore(token: TokenData, tfs: map<Timeframe, TimeframeData>, overall: Trend,
                               rr: real, confidence: real) returns (score: real)
    ensures score == OverallScoreOf(token, overall, rr, confidence)
    ensures score <= 100.0
    ensures rr >= 0.0 && confidence >= 0.0 ==> score >= 0.0
  {
    score := 0.0;
    if overall == StrongBullish {
      score := score + 30.0;
    } else if overall == Bullish {
      score := score + 20.0;
    } else if overall == Neutral {
      score := score + 10.0;
    }
    assert score == TrendPoints(overall);
    var volumeRatio := token.volume24h / (token.marketCap + 1.0);
    if volumeRatio > 2.0 {
      score := score + 20.0;
    } else if volumeRatio > 1.0 {
      score := score + 15.0;
    } else if volumeRatio > 0.5 {
      score := score + 10.0;
    } else if volumeRatio > 0.2 {
      score := score + 5.0;
    }
    assert score == TrendPoints(overall) + VolumePoints(token);
    if 1_000_000.0 <= token.marketCap <= 10_000_000.0 {
      score := score + 20.0;
    } else if 500_000.0 <= token.marketCap <= 20_000_000.0 {
      score := score + 15.0;
    } else if 100_000.0 <= token.marketCap <= 50_000_000.0 {
      score := score + 10.0;
    }
    assert score == TrendPoints(overall) + VolumePoints(token) + CapPoints(token);
    score := score + Min(rr * 5.0, 15.0);
    score := score + confidence * 0.15;
    score := Min(score, 100.0);
  }

  // ---------------------------------------------------------------------------
  // The whole analysis

  datatype Analysis = Analysis(
    token: TokenData,
    timeframes: map<Timeframe, TimeframeData>,
    overallTrend: Trend,
    overallScore: real,
    entryTiming: Timing,
    riskReward: real,
    confidence: real)

  /** Aggregates the frames of one token into trend, timing, risk/reward, confidence and score. */
  method AnalyzeToken(token: TokenData, tfs: map<Timeframe, TimeframeData>) returns (a: Analysis)
    ensures a.token == token && a.timeframes == tfs
    ensures a.overallTrend == TrendOf(WeightedScore(tfs, Frames))
    ensures a.entryTiming == EntryTiming(token, tfs, a.overallTrend)
    ensures a.riskReward == RiskReward(token, tfs)
    ensures a.confidence == ConfidenceOf(tfs, a.riskReward)
    ensures a.overallScore == OverallScoreOf(token, a.overallTrend, a.riskReward, a.confidence)
    ensures 0.0 <= a.riskReward <= 3.0 && 40.0 <= a.confidence <= 100.0 && 0.0 <= a.overallScore <= 100.0
  {
    var trend := CalculateOverallTrend(tfs);
    var timing := EntryTiming(token, tfs, trend);
    var rr := RiskReward(token, tfs);
    var confidence := CalculateConfidence(tfs, trend, rr);
    RawConfidenceRange(tfs, rr);
    var score := CalculateOverallScore(token, tfs, trend, rr, confidence);
    a := Analysis(token, tfs, trend, score, timing, rr, confidence);
  }
}
