/**
 * The token similarity detector's threshold classifiers (market-cap tier,
 * volume rating, liquidity health, momentum, risk level), its 0-100
 * opportunity score, and the DUST and PRICELESS profile filters that select
 * candidates and rank them by opportunity.
 */
module TokenSimilarity {
  import opened Common
  import opened Ranking

  // ---------------------------------------------------------------------------
  // Market-cap tier

  datatype McapTier = Nano | Micro | Small | Mid | Large

  function TierRank(t: McapTier): nat
  {
    match t
    case Nano => 0
    case Micro => 1
    case Small => 2
    case Mid => 3
    case Large => 4
  }

  /** Buckets a market cap at 100k, 1M, 10M and 100M dollars. */
  function GetMcapTier(marketCap: real): (tier: McapTier)
    ensures tier == Nano <==> marketCap < 100_000.0
    ensures tier == Micro <==> 100_000.0 <= marketCap < 1_000_000.0
    ensures tier == Small <==> 1_000_000.0 <= marketCap < 10_000_000.0
    ensures tier == Mid <==> 10_000_000.0 <= marketCap < 100_000_000.0
    ensures tier == Large <==> 100_000_000.0 <= marketCap
  {
    if marketCap < 100_000.0 then Nano
    else if marketCap < 1_000_000.0 then Micro
    else if marketCap < 10_000_000.0 then Small
    else if marketCap < 100_000_000.0 then Mid
    else Large
  }

  /** A larger market cap never lands in a lower tier. */
  lemma McapTierMonotone(a: real, b: real)
    requires a <= b
    ensures TierRank(GetMcapTier(a)) <= TierRank(GetMcapTier(b))
  {
  }

  // ---------------------------------------------------------------------------
  // Volume activity and liquidity health

  /** 24h volume over market cap (plus one dollar, so a zero cap never divides by zero). */
  function VolumeToMcap(t: TokenData): (ratio: real)
    ensures ratio >= 0.0
  {
    t.volume24h / (t.marketCap + 1.0)
  }

  /** The ratio times the (shifted) market cap gives back the volume. */
  lemma VolumeRatioScales(t: TokenData)
    ensures VolumeToMcap(t) * (t.marketCap + 1.0) == t.volume24h
  {
  }

  datatype VolumeRating = VeryHighVolume | HighVolume | ModerateVolume | LowVolume | VeryLowVolume

  /** Buckets the volume ratio at 2, 1, 0.5 and 0.1. */
  function RateVolume(ratio: real): (rating: VolumeRating)
    ensures rating == VeryHighVolume <==> ratio > 2.0
    ensures rating == HighVolume <==> 1.0 < ratio <= 2.0
    ensures rating == ModerateVolume <==> 0.5 < ratio <= 1.0
    ensures rating == LowVolume <==> 0.1 < ratio <= 0.5
    ensures rating == VeryLowVolume <==> ratio <= 0.1
  {
    if ratio > 2.0 then VeryHighVolume
    else if ratio > 1.0 then HighVolume
    else if ratio > 0.5 then ModerateVolume
    else if ratio > 0.1 then LowVolume
    else VeryLowVolume
  }

  datatype VolumeActivity = VolumeActivity(ratio: real, rating: VolumeRating, dollarVolume: real)

  function AnalyzeVolume(t: TokenData): VolumeActivity
  {
    var ratio := VolumeToMcap(t);
    VolumeActivity(ratio, RateVolume(ratio), t.volume24h)
  }

  /** Liquidity over market cap (plus one dollar). */
  function LiquidityToMcap(t: TokenData): (ratio: real)
    ensures ratio >= 0.0
  {
    t.liquidityUsd / (t.marketCap + 1.0)
  }

  /** The ratio times the (shifted) market cap gives back the liquidity. */
  lemma LiquidityRatioScales(t: TokenData)
    ensures LiquidityToMcap(t) * (t.marketCap + 1.0) == t.liquidityUsd
  {
  }

  datatype LiquidityHealth = Excellent | Good | Fair | Poor | Critical

  /** Buckets the liquidity ratio at 0.5, 0.2, 0.1 and 0.05. */
  function RateLiquidity(ratio: real): (health: LiquidityHealth)
    ensures health == Excellent <==> ratio > 0.5
    ensures health == Good <==> 0.2 < ratio <= 0.5
    ensures health == Fair <==> 0.1 < ratio <= 0.2
    ensures health == Poor <==> 0.05 < ratio <= 0.1
    ensures health == Critical <==> ratio <= 0.05
  {
    if ratio > 0.5 then Excellent
    else if ratio > 0.2 then Good
    else if ratio > 0.1 then Fair
    else if ratio > 0.05 then Poor
    else Critical
  }

  datatype LiquidityAnalysis = LiquidityAnalysis(liquidityUsd: real, ratio: real, health: LiquidityHealth)

  function AnalyzeLiquidity(t: TokenData): LiquidityAnalysis
  {
    var ratio := LiquidityToMcap(t);
    LiquidityAnalysis(t.liquidityUsd, ratio, RateLiquidity(ratio))
  }

  // ---------------------------------------------------------------------------
  // Price momentum

  datatype Momentum =
    | Explosive | StrongBullish | Bullish | MildBullish
    | Neutral | MildBearish | Bearish | StrongBearish

  function MomentumRank(m: Momentum): nat
  {
    match m
    case StrongBearish => 0
    case Bearish => 1
    case MildBearish => 2
    case Neutral => 3
    case MildBullish => 4
    case Bullish => 5
    case StrongBullish => 6
    case Explosive => 7
  }

  /** Buckets the 24h change at 100, 50, 20, 5, -5, -20 and -50 percent. */
  function MomentumOf(change24h: real): (m: Momentum)
    ensures m == Neutral <==> Abs(change24h) <= 5.0
    ensures m == Explosive <==> change24h > 100.0
    ensures m == StrongBullish <==> 50.0 < change24h <= 100.0
    ensures m == Bullish <==> 20.0 < change24h <= 50.0
    ensures m == MildBullish <==> 5.0 < change24h <= 20.0
    ensures m == MildBearish <==> -20.0 < change24h < -5.0
    ensures m == Bearish <==> -50.0 < change24h <= -20.0
    ensures m == StrongBearish <==> change24h <= -50.0
  {
    if change24h > 100.0 then Explosive
    else if change24h > 50.0 then StrongBullish
    else if change24h > 20.0 then Bullish
    else if change24h > 5.0 then MildBullish
    else if Abs(change24h) <= 5.0 then Neutral
    else if change24h > -20.0 then MildBearish
    else if change24h > -50.0 then Bearish
    else StrongBearish
  }

  /** A larger change never gives a weaker momentum bucket. */
  lemma MomentumMonotone(a: real, b: real)
    requires a <= b
    ensures MomentumRank(MomentumOf(a)) <= MomentumRank(MomentumOf(b))
  {
  }

  datatype PriceAction = PriceAction(change24h: real, momentum: Momentum)

  function AnalyzePriceAction(t: TokenData): PriceAction
  {
    PriceAction(t.priceChange24h, MomentumOf(t.priceChange24h))
  }

  // ---------------------------------------------------------------------------
  // Risk level

  datatype RiskLevel = LowRisk | ModerateRisk | HighRisk | ExtremeRisk

  /** Thin liquidity: 2 factors under 50k dollars, 1 under 100k. */
  function LiquidityFactor(liquidityUsd: real): nat
  {
    if liquidityUsd < 50_000.0 then 2 else if liquidityUsd < 100_000.0 then 1 else 0
  }

  /** A 24h swing beyond 50% in either direction. */
  function VolatilityFactor(change24h: real): nat
  {
    if Abs(change24h) > 50.0 then 1 else 0
  }

  /** Youth: 2 factors under a day, 1 under three days, 1 when the age is unknown. */
  function AgeFactor(ageHours: Option<real>): nat
  {
    match ageHours
    case None => 1
    case Some(h) => if h < 24.0 then 2 else if h < 72.0 then 1 else 0
  }

  /** A market cap under 1M dollars. */
  function CapFactor(marketCap: real): nat
  {
    if marketCap < 1_000_000.0 then 1 else 0
  }

  function RiskFactors(t: TokenData): nat
  {
    LiquidityFactor(t.liquidityUsd) + VolatilityFactor(t.priceChange24h)
      + AgeFactor(t.ageHours) + CapFactor(t.marketCap)
  }

  /** Maps a count of risk factors to a level: 4 or more extreme, 3 high, 2 moderate, else low. */
  function RiskOf(factors: nat): (level: RiskLevel)
    ensures level == ExtremeRisk <==> factors >= 4
    ensures level == HighRisk <==> factors == 3
    ensures level == ModerateRisk <==> factors == 2
    ensures level == LowRisk <==> factors <= 1
  {
    if factors >= 4 then ExtremeRisk
    else if factors >= 3 then HighRisk
    else if factors >= 2 then ModerateRisk
    else LowRisk
  }

  function RiskLevelOf(t: TokenData): RiskLevel
  {
    RiskOf(RiskFactors(t))
  }

  /** Counts the risk factors one by one and maps the count to a level. */
  method CalculateRisk(t: TokenData) returns (level: RiskLevel)
    ensures level == RiskLevelOf(t)
    ensures level == ExtremeRisk <==> RiskFactors(t) >= 4
    ensures RiskFactors(t) <= 6
  {
    var riskFactors := 0;
    if t.liquidityUsd < 50_000.0 {
      riskFactors := riskFactors + 2;
    } else if t.liquidityUsd < 100_000.0 {
      riskFactors := riskFactors + 1;
    }
    if Abs(t.priceChange24h) > 50.0 {
      riskFactors := riskFactors + 1;
    }
    match t.ageHours {
      case Some(ageHours) =>
        if ageHours < 24.0 {
          riskFactors := riskFactors + 2;
        } else if ageHours < 72.0 {
          riskFactors := riskFactors + 1;
        }
      case None =>
        riskFactors := riskFactors + 1;
    }
    if t.marketCap < 1_000_000.0 {
      riskFactors := riskFactors + 1;
    }
    if riskFactors >= 4 {
      level := ExtremeRisk;
    } else if riskFactors >= 3 {
      level := HighRisk;
    } else if riskFactors >= 2 {
      level := ModerateRisk;
    } else {
      level := LowRisk;
    }
  }

  /** A token whose age cannot be determined carries exactly one more factor than one at least three days old. */
  lemma UnknownAgeAddsOneFactor(t: TokenData, hours: real)
    requires hours >= 72.0
    ensures RiskFactors(t.(ageHours := None)) == RiskFactors(t.(ageHours := Some(hours))) + 1
  {
  }

  // ---------------------------------------------------------------------------
  // Opportunity score

  /** Volume activity: up to 30 points. */
  function VolumePoints(ratio: real): nat
  {
    if ratio > 2.0 then 30 else if ratio > 1.0 then 20 else if ratio > 0.5 then 10 else 0
  }

  /** Price momentum: up to 20 points, for a 24h gain between 5% and 100%. */
  function MomentumPoints(change24h: real): nat
  {
    if 20.0 <= change24h <= 100.0 then 20
    else if 10.0 <= change24h < 20.0 then 15
    else if 5.0 <= change24h < 10.0 then 10
    else 0
  }

  /** Liquidity: up to 20 points. */
  function LiquidityPoints(liquidityUsd: real): nat
  {
    if liquidityUsd > 200_000.0 then 20
    else if liquidityUsd > 100_000.0 then 15
    else if liquidityUsd > 50_000.0 then 10
    else 0
  }

  /** Market-cap sweet spot: up to 30 points, best between 1M and 10M. */
  function CapPoints(marketCap: real): nat
  {
    if 1_000_000.0 <= marketCap <= 10_000_000.0 then 30
    else if 500_000.0 <= marketCap < 1_000_000.0 then 20
    else if 10_000_000.0 < marketCap <= 50_000_000.0 then 15
    else 0
  }

  /**
   * The four parts capped at 100. The parts never add up to more than 100,
   * so the cap never changes the score.
   */
  function OpportunityScore(t: TokenData): (score: nat)
    ensures score <= 100
    ensures score == VolumePoints(VolumeToMcap(t)) + MomentumPoints(t.priceChange24h)
                     + LiquidityPoints(t.liquidityUsd) + CapPoints(t.marketCap)
  {
    var sum := VolumePoints(VolumeToMcap(t)) + MomentumPoints(t.priceChange24h)
               + LiquidityPoints(t.liquidityUsd) + CapPoints(t.marketCap);
    if sum < 100 then sum else 100
  }

  /** Adds up the opportunity points part by part and caps the total at 100. */
  method CalculateOpportunity(t: TokenData) returns (score: nat)
    ensures score == OpportunityScore(t)
    ensures 0 <= score <= 100
  {
    var total := 0;
    var volumeRatio := t.volume24h / (t.marketCap + 1.0);
    if volumeRatio > 2.0 {
      total := total + 30;
    } else if volumeRatio > 1.0 {
      total := total + 20;
    } else if volumeRatio > 0.5 {
      total := total + 10;
    }
    assert total == VolumePoints(VolumeToMcap(t));
    if 20.0 <= t.priceChange24h <= 100.0 {
      total := total + 20;
    } else if 10.0 <= t.priceChange24h < 20.0 {
      total := total + 15;
    } else if 5.0 <= t.priceChange24h < 10.0 {
      total := total + 10;
    }
    assert total == VolumePoints(VolumeToMcap(t)) + MomentumPoints(t.priceChange24h);
    if t.liquidityUsd > 200_000.0 {
      total := total + 20;
    } else if t.liquidityUsd > 100_000.0 {
      total := total + 15;
    } else if t.liquidityUsd > 50_000.0 {
      total := total + 10;
    }
    assert total == VolumePoints(VolumeToMcap(t)) + MomentumPoints(t.priceChange24h) + LiquidityPoints(t.liquidityUsd);
    if 1_000_000.0 <= t.marketCap <= 10_000_000.0 {
      total := total + 30;
    } else if 500_000.0 <= t.marketCap < 1_000_000.0 {
      total := total + 20;
    } else if 10_000_000.0 < t.marketCap <= 50_000_000.0 {
      total := total + 15;
    }
    score := if total < 100 then total else 100;
  }

  // ---------------------------------------------------------------------------
  // Whole-token analysis

  datatype DetectorAnalysis = DetectorAnalysis(
    marketCapTier: McapTier,
    volumeActivity: VolumeActivity,
    liquidityHealth: LiquidityAnalysis,
    priceMomentum: PriceAction,
    riskLevel: RiskLevel,
    opportunityScore: nat)

  /** The detector's view of one token: each field is the result of its own classifier. */
  function AnalyzeToken(t: TokenData): (a: DetectorAnalysis)
    ensures a.marketCapTier == GetMcapTier(t.marketCap)
    ensures a.volumeActivity.ratio == VolumeToMcap(t) && a.volumeActivity.rating == RateVolume(VolumeToMcap(t))
    ensures a.volumeActivity.dollarVolume == t.volume24h
    ensures a.liquidityHealth.liquidityUsd == t.liquidityUsd && a.liquidityHealth.ratio == LiquidityToMcap(t)
    ensures a.liquidityHealth.health == RateLiquidity(LiquidityToMcap(t))
    ensures a.priceMomentum.change24h == t.priceChange24h && a.priceMomentum.momentum == MomentumOf(t.priceChange24h)
    ensures a.riskLevel == RiskOf(RiskFactors(t))
    ensures a.opportunityScore == OpportunityScore(t) && a.opportunityScore <= 100
  {
    DetectorAnalysis(GetMcapTier(t.marketCap), AnalyzeVolume(t), AnalyzeLiquidity(t),
                     AnalyzePriceAction(t), RiskLevelOf(t), OpportunityScore(t))
  }

  // ---------------------------------------------------------------------------
  // Reference profiles and ranked candidate lists

  /** Inclusive market-cap and volume-ratio ranges and a liquidity floor. */
  datatype Profile = Profile(capMin: real, capMax: real, ratioMin: real, ratioMax: real, minLiquidity: real)

  const Dust := Profile(1_000_000.0, 50_000_000.0, 0.5, 3.0, 100_000.0)
  const Priceless := Profile(500_000.0, 20_000_000.0, 1.0, 5.0, 50_000.0)

  predicate Fits(t: TokenData, p: Profile)
  {
    && p.capMin <= t.marketCap <= p.capMax
    && p.ratioMin <= VolumeToMcap(t) <= p.ratioMax
    && t.liquidityUsd >= p.minLiquidity
  }

  datatype SimilarityMatch = SimilarityMatch(token: TokenData, similarityScore: real, analysis: DetectorAnalysis)

  /** A candidate scored by its opportunity score as a fraction. */
  function MatchOf(t: TokenData): (m: SimilarityMatch)
    ensures 0.0 <= m.similarityScore <= 1.0
  {
    SimilarityMatch(t, OpportunityScore(t) as real / 100.0, AnalyzeToken(t))
  }

  /** The candidates that fit the profile, in their original order. */
  function Matches(candidates: seq<TokenData>, p: Profile): (r: seq<SimilarityMatch>)
    ensures |r| <= |candidates|
    ensures forall m :: m in r ==> m.token in candidates && Fits(m.token, p) && m == MatchOf(m.token)
    decreases |candidates|
  {
    if candidates == [] then []
    else
      var init := candidates[..|candidates| - 1];
      var last := candidates[|candidates| - 1];
      assert candidates == init + [last];
      Matches(init, p) + (if Fits(last, p) then [MatchOf(last)] else [])
  }

  /** Every candidate that fits the profile has its match in the list. */
  lemma {:induction false} MatchesComplete(candidates: seq<TokenData>, p: Profile, t: TokenData)
    requires t in candidates && Fits(t, p)
    ensures MatchOf(t) in Matches(candidates, p)
    decreases |candidates|
  {
    var init := candidates[..|candidates| - 1];
    assert candidates == init + [candidates[|candidates| - 1]];
    if t != candidates[|candidates| - 1] {
      MatchesComplete(init, p, t);
    }
  }

  lemma {:induction false} MatchesStep(s: seq<TokenData>, t: TokenData, p: Profile)
    ensures Matches(s + [t], p) == Matches(s, p) + (if Fits(t, p) then [MatchOf(t)] else [])
  {
    assert (s + [t])[..|s + [t]| - 1] == s;
  }

  /** The key the candidate lists are ranked by. */
  function Score(m: SimilarityMatch): real
  {
    m.similarityScore
  }

  /** Filters the candidates through the profile, then ranks them by opportunity. */
  method FindProfileMatches(candidates: seq<TokenData>, profile: Profile) returns (r: seq<SimilarityMatch>)
    ensures r == SortDesc(Matches(candidates, profile), Score)
  {
    var filtered: seq<SimilarityMatch> := [];
    for i := 0 to |candidates|
      invariant filtered == Matches(candidates[..i], profile)
    {
      var token := candidates[i];
      MatchesStep(candidates[..i], token, profile);
      assert candidates[..i + 1] == candidates[..i] + [token];
      var before := filtered;
      if profile.capMin <= token.marketCap <= profile.capMax {
        var volumeRatio := token.volume24h / (token.marketCap + 1.0);
        assert volumeRatio == VolumeToMcap(token);
        if profile.ratioMin <= volumeRatio <= profile.ratioMax {
          if !(token.liquidityUsd < profile.minLiquidity) {
            var analysis := AnalyzeToken(token);
            var m := SimilarityMatch(token, analysis.opportunityScore as real / 100.0, analysis);
            assert m == MatchOf(token);
            filtered := filtered + [m];
          }
        }
      }
      assert filtered == before + (if Fits(token, profile) then [MatchOf(token)] else []);
    }
    assert candidates[..|candidates|] == candidates;
    r := SortDesc(filtered, Score);
  }

  /** Candidates with a 1M-50M cap, a volume ratio in [0.5, 3] and at least 100k liquidity, best first. */
  method FindDustLikeTokens(candidates: seq<TokenData>) returns (r: seq<SimilarityMatch>)
    ensures r == SortDesc(Matches(candidates, Dust), Score)
    ensures SortedDesc(r, Score)
    ensures multiset(r) == multiset(Matches(candidates, Dust))
  {
    r := FindProfileMatches(candidates, Dust);
  }

  /** Candidates with a 500k-20M cap, a volume ratio in [1, 5] and at least 50k liquidity, best first. */
  method FindPricelessLikeTokens(candidates: seq<TokenData>) returns (r: seq<SimilarityMatch>)
    ensures r == SortDesc(Matches(candidates, Priceless), Score)
    ensures SortedDesc(r, Score)
    ensures multiset(r) == multiset(Matches(candidates, Priceless))
  {
    r := FindProfileMatches(candidates, Priceless);
  }

  /**
   * A ranked match list holds exactly the candidates that fit the profile:
   * every element fits and comes from the candidates, and every fitting
   * candidate is present.
   */
  lemma RankedMatchesExact(candidates: seq<TokenData>, p: Profile, t: TokenData)
    requires t in candidates
    ensures MatchOf(t) in SortDesc(Matches(candidates, p), Score) <==> Fits(t, p)
  {
    var m := Matches(candidates, p);
    var r := SortDesc(m, Score);
    assert MatchOf(t) in r <==> MatchOf(t) in m by {
      assert MatchOf(t) in r <==> MatchOf(t) in multiset(r);
      assert MatchOf(t) in m <==> MatchOf(t) in multiset(m);
    }
    if Fits(t, p) {
      MatchesComplete(candidates, p, t);
    }
  }
}
