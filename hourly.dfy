/**
 * The hourly analyzer: per-token price tier, liquidity, volatility and age
 * risks, the recommendation, the new-gem filter, the market summary, and the
 * hourly report built from the fetched token lists.
 */
module HourlyAnalysis {
  import opened Common
  import opened Ranking
  import opened TokenSimilarity
  import PriceTracking

  // ---------------------------------------------------------------------------
  // Price tier

  datatype PriceTier = UltraMicroPrice | MicroPrice | MiniPrice | SmallPrice | MediumPrice | LargePrice | MegaPrice

  function PriceTierRank(t: PriceTier): nat
  {
    match t
    case UltraMicroPrice => 0
    case MicroPrice => 1
    case MiniPrice => 2
    case SmallPrice => 3
    case MediumPrice => 4
    case LargePrice => 5
    case MegaPrice => 6
  }

  /** Buckets a unit price at 0.00001, 0.0001, 0.001, 0.01, 0.1 and 1 dollar. */
  function GetPriceTier(price: real): (tier: PriceTier)
    ensures tier == UltraMicroPrice <==> price < 0.00001
    ensures tier == MicroPrice <==> 0.00001 <= price < 0.0001
    ensures tier == MiniPrice <==> 0.0001 <= price < 0.001
    ensures tier == SmallPrice <==> 0.001 <= price < 0.01
    ensures tier == MediumPrice <==> 0.01 <= price < 0.1
    ensures tier == LargePrice <==> 0.1 <= price < 1.0
    ensures tier == MegaPrice <==> 1.0 <= price
  {
    if price < 0.00001 then UltraMicroPrice
    else if price < 0.0001 then MicroPrice
    else if price < 0.001 then MiniPrice
    else if price < 0.01 then SmallPrice
    else if price < 0.1 then MediumPrice
    else if price < 1.0 then LargePrice
    else MegaPrice
  }

  /** A higher price never lands in a lower tier. */
  lemma PriceTierMonotone(a: real, b: real)
    requires a <= b
    ensures PriceTierRank(GetPriceTier(a)) <= PriceTierRank(GetPriceTier(b))
  {
  }

  // ---------------------------------------------------------------------------
  // Risk assessment

  datatype Exposure = HighExposure | MediumExposure | LowExposure

  datatype AgeRisk = AgeExtreme | AgeHigh | AgeMedium | AgeLow | AgeUnknown

  /** Liquidity under 50k dollars is a high risk, under 100k a medium one. */
  function LiquidityRisk(liquidityUsd: real): (e: Exposure)
    ensures e == HighExposure <==> liquidityUsd < 50_000.0
    ensures e == MediumExposure <==> 50_000.0 <= liquidityUsd < 100_000.0
    ensures e == LowExposure <==> 100_000.0 <= liquidityUsd
  {
    if liquidityUsd < 50_000.0 then HighExposure
    else if liquidityUsd < 100_000.0 then MediumExposure
    else LowExposure
  }

  /** A 24h move beyond 50% either way is a high risk, beyond 25% a medium one. */
  function VolatilityRisk(change24h: real): (e: Exposure)
    ensures e == HighExposure <==> Abs(change24h) > 50.0
    ensures e == MediumExposure <==> 25.0 < Abs(change24h) <= 50.0
    ensures e == LowExposure <==> Abs(change24h) <= 25.0
  {
    if Abs(change24h) > 50.0 then HighExposure
    else if Abs(change24h) > 25.0 then MediumExposure
    else LowExposure
  }

  /** Under 1 hour extreme, under 24 high, under 72 medium, else low; unknown when the age is unknown. */
  function AssessAgeRisk(ageHours: Option<real>): (r: AgeRisk)
    ensures r == AgeUnknown <==> ageHours == None
    ensures r == AgeExtreme <==> ageHours != None && ageHours.value < 1.0
    ensures r == AgeHigh <==> ageHours != None && 1.0 <= ageHours.value < 24.0
    ensures r == AgeMedium <==> ageHours != None && 24.0 <= ageHours.value < 72.0
    ensures r == AgeLow <==> ageHours != None && 72.0 <= ageHours.value
  {
    match ageHours
    case None => AgeUnknown
    case Some(h) =>
      if h < 1.0 then AgeExtreme
      else if h < 24.0 then AgeHigh
      else if h < 72.0 then AgeMedium
      else AgeLow
  }

  datatype RiskAssessment = RiskAssessment(
    riskLevel: RiskLevel,
    liquidityRisk: Exposure,
    volatilityRisk: Exposure,
    ageRisk: AgeRisk)

  function AssessRisks(t: TokenData): (r: RiskAssessment)
    ensures r.riskLevel == RiskLevelOf(t)
    ensures r.liquidityRisk == LiquidityRisk(t.liquidityUsd)
    ensures r.volatilityRisk == VolatilityRisk(t.priceChange24h)
    ensures r.ageRisk == AssessAgeRisk(t.ageHours)
  {
    RiskAssessment(RiskLevelOf(t), LiquidityRisk(t.liquidityUsd), VolatilityRisk(t.priceChange24h),
                   AssessAgeRisk(t.ageHours))
  }

  /** How many of the four assessments read 'high' or 'extreme'. */
  function HighRiskCount(r: RiskAssessment): (n: nat)
    ensures n <= 4
  {
    (if r.riskLevel == HighRisk || r.riskLevel == ExtremeRisk then 1 else 0)
    + (if r.liquidityRisk == HighExposure then 1 else 0)
    + (if r.volatilityRisk == HighExposure then 1 else 0)
    + (if r.ageRisk == AgeExtreme || r.ageRisk == AgeHigh then 1 else 0)
  }

  /** An age that cannot be read never counts as a high risk. */
  lemma UnknownAgeIsNotHighRisk(r: RiskAssessment)
    requires r.ageRisk == AgeUnknown
    ensures HighRiskCount(r) <= 3
  {
  }

  // ---------------------------------------------------------------------------
  // Recommendation

  datatype Recommendation = StrongBuy | Buy | Consider | Watch | Avoid | Pass

  function RecommendationText(r: Recommendation): string
  {
    match r
    case StrongBuy => "Strong Buy - High opportunity with manageable risk"
    case Buy => "Buy - Good opportunity, monitor closely"
    case Consider => "Consider - Moderate opportunity, research further"
    case Watch => "Watch - Potential opportunity developing"
    case Avoid => "Avoid - High risk outweighs potential"
    case Pass => "Pass - Better opportunities available"
  }

  function RecommendationRank(r: Recommendation): nat
  {
    match r
    case Avoid => 0
    case Pass => 1
    case Watch => 2
    case Consider => 3
    case Buy => 4
    case StrongBuy => 5
  }

  /** Score thresholds 80, 70, 60 and 50, each tolerating a number of high risks, checked in that order. */
  function RecommendationFor(score: real, highRisks: nat): (r: Recommendation)
    ensures r == StrongBuy <==> score >= 80.0 && highRisks <= 1
    ensures r == Buy <==> score >= 70.0 && highRisks <= 2 && !(score >= 80.0 && highRisks <= 1)
    ensures r == Consider <==> 60.0 <= score < 70.0 && highRisks <= 2
    ensures r == Watch <==> score >= 50.0 && !(score >= 60.0 && highRisks <= 2)
    ensures r == Avoid <==> score < 50.0 && highRisks >= 3
    ensures r == Pass <==> score < 50.0 && highRisks < 3
  {
    if score >= 80.0 && highRisks <= 1 then StrongBuy
    else if score >= 70.0 && highRisks <= 2 then Buy
    else if score >= 60.0 && highRisks <= 2 then Consider
    else if score >= 50.0 then Watch
    else if highRisks >= 3 then Avoid
    else Pass
  }

  /** A higher score never gives a worse recommendation. */
  lemma RecommendationMonotoneInScore(a: real, b: real, highRisks: nat)
    requires a <= b
    ensures RecommendationRank(RecommendationFor(a, highRisks)) <= RecommendationRank(RecommendationFor(b, highRisks))
  {
  }

  /** More high risks never give a better recommendation. */
  lemma RecommendationAntitoneInRisks(score: real, m: nat, n: nat)
    requires m <= n
    ensures RecommendationRank(RecommendationFor(score, n)) <= RecommendationRank(RecommendationFor(score, m))
  {
  }

  function GenerateRecommendation(score: real, risks: RiskAssessment): (r: Recommendation)
    ensures r == RecommendationFor(score, HighRiskCount(risks))
    ensures r == StrongBuy ==> score >= 80.0
    ensures HighRiskCount(risks) >= 3 ==> r != StrongBuy && r != Buy && r != Consider
  {
    RecommendationFor(score, HighRiskCount(risks))
  }

  // ---------------------------------------------------------------------------
  // One token's analysis

  datatype Category = DustReference | PricelessReference | DustLike | PricelessLike | TrendingToken | NewGem | TopGainer

  datatype TokenAnalysis = TokenAnalysis(
    timestamp: real,
    token: TokenData,
    category: Category,
    similarityScore: real,
    priceTier: PriceTier,
    momentum: Momentum,
    volumeToMcap: real,
    volumeRating: VolumeRating,
    liquidityHealth: LiquidityHealth,
    risks: RiskAssessment,
    opportunityScore: nat,
    recommendation: Recommendation)

  function CreateTokenAnalysis(t: TokenData, category: Category, similarity: real, now: real): (a: TokenAnalysis)
    ensures a.token == t && a.category == category && a.similarityScore == similarity && a.timestamp == now
    ensures a.priceTier == GetPriceTier(t.priceUsd) && a.momentum == MomentumOf(t.priceChange24h)
    ensures a.volumeToMcap == VolumeToMcap(t) && a.volumeRating == RateVolume(VolumeToMcap(t))
    ensures a.liquidityHealth == RateLiquidity(LiquidityToMcap(t))
    ensures a.risks == AssessRisks(t)
    ensures a.opportunityScore == OpportunityScore(t) && a.opportunityScore <= 100
    ensures a.recommendation == RecommendationFor(a.opportunityScore as real, HighRiskCount(a.risks))
  {
    var detector := AnalyzeToken(t);
    var risks := AssessRisks(t);
    TokenAnalysis(now, t, category, similarity, GetPriceTier(t.priceUsd), detector.priceMomentum.momentum,
                  detector.volumeActivity.ratio, detector.volumeActivity.rating, detector.liquidityHealth.health,
                  risks, detector.opportunityScore,
                  GenerateRecommendation(detector.opportunityScore as real, risks))
  }

  /** `f` applied to each element, in order. */
  function MapSeq<A, B>(s: seq<A>, f: A -> B): (r: seq<B>)
    ensures |r| == |s|
    decreases |s|
  {
    if s == [] then [] else MapSeq(s[..|s| - 1], f) + [f(s[|s| - 1])]
  }

  lemma {:induction false} MapSeqAt<A, B>(s: seq<A>, f: A -> B, i: nat)
    requires i < |s|
    ensures MapSeq(s, f)[i] == f(s[i])
    decreases |s|
  {
    var init := s[..|s| - 1];
    if i < |init| {
      assert init[i] == s[i];
      MapSeqAt(init, f, i);
    }
  }

  lemma {:induction false} MapSeqStep<A, B>(s: seq<A>, x: A, f: A -> B)
    ensures MapSeq(s + [x], f) == MapSeq(s, f) + [f(x)]
  {
    assert (s + [x])[..|s + [x]| - 1] == s;
  }

  /** Analyses of the tokens, in order, all with one category and one similarity score. */
  function AnalyzeAll(tokens: seq<TokenData>, category: Category, similarity: real, now: real): (r: seq<TokenAnalysis>)
    ensures |r| == |tokens|
  {
    MapSeq(tokens, t => CreateTokenAnalysis(t, category, similarity, now))
  }

  /** The `i`-th analysis is that of the `i`-th token. */
  lemma AnalyzeAllAt(tokens: seq<TokenData>, category: Category, similarity: real, now: real, i: nat)
    requires i < |tokens|
    ensures AnalyzeAll(tokens, category, similarity, now)[i] == CreateTokenAnalysis(tokens[i], category, similarity, now)
  {
    MapSeqAt(tokens, t => CreateTokenAnalysis(t, category, similarity, now), i);
  }

  /** Analyses of ranked matches, each with its own similarity score. */
  function AnalyzeMatches(ms: seq<SimilarityMatch>, category: Category, now: real): (r: seq<TokenAnalysis>)
    ensures |r| == |ms|
  {
    MapSeq(ms, (m: SimilarityMatch) => CreateTokenAnalysis(m.token, category, m.similarityScore, now))
  }

  /** The `i`-th analysis is that of the `i`-th match's token, with the match's score. */
  lemma AnalyzeMatchesAt(ms: seq<SimilarityMatch>, category: Category, now: real, i: nat)
    requires i < |ms|
    ensures AnalyzeMatches(ms, category, now)[i] == CreateTokenAnalysis(ms[i].token, category, ms[i].similarityScore, now)
  {
    MapSeqAt(ms, (m: SimilarityMatch) => CreateTokenAnalysis(m.token, category, m.similarityScore, now), i);
  }

  /** The first `n` elements, or all of them when there are fewer. */
  function Take<T>(s: seq<T>, n: nat): (r: seq<T>)
    ensures |r| == if |s| < n then |s| else n
    ensures r == s[..|r|]
  {
    if |s| <= n then s else s[..n]
  }

  // ---------------------------------------------------------------------------
  // New gems

  /** A new pair's analysis as a gem: its opportunity score, out of 1, is its similarity score. */
  function GemOf(t: TokenData, now: real): (a: TokenAnalysis)
    ensures a.token == t && a.category == NewGem && a.opportunityScore == OpportunityScore(t)
  {
    CreateTokenAnalysis(t, NewGem, OpportunityScore(t) as real / 100.0, now)
  }

  /** The new pairs whose opportunity score is above 70, in order. */
  function GemTokens(newPairs: seq<TokenData>): (r: seq<TokenData>)
    ensures |r| <= |newPairs|
    ensures forall t :: t in r ==> t in newPairs && OpportunityScore(t) > 70
    decreases |newPairs|
  {
    if newPairs == [] then []
    else
      var t := newPairs[|newPairs| - 1];
      var init := newPairs[..|newPairs| - 1];
      assert newPairs == init + [t];
      GemTokens(init) + (if OpportunityScore(t) > 70 then [t] else [])
  }

  /** No new pair scoring above 70 is missed. */
  lemma {:induction false} GemTokensComplete(newPairs: seq<TokenData>, t: TokenData)
    requires t in newPairs && OpportunityScore(t) > 70
    ensures t in GemTokens(newPairs)
    decreases |newPairs|
  {
    var init := newPairs[..|newPairs| - 1];
    assert newPairs == init + [newPairs[|newPairs| - 1]];
    if t != newPairs[|newPairs| - 1] {
      GemTokensComplete(init, t);
    }
  }

  /** One more new pair adds itself when it scores above 70, and nothing else. */
  lemma {:induction false} GemTokensStep(newPairs: seq<TokenData>, i: nat)
    requires i < |newPairs|
    ensures GemTokens(newPairs[..i + 1])
            == GemTokens(newPairs[..i]) + (if OpportunityScore(newPairs[i]) > 70 then [newPairs[i]] else [])
  {
    assert newPairs[..i + 1][..i] == newPairs[..i];
  }

  /** The gems' analyses, in order. */
  function AnalyzeGems(tokens: seq<TokenData>, now: real): (r: seq<TokenAnalysis>)
    ensures |r| == |tokens|
  {
    MapSeq(tokens, t => GemOf(t, now))
  }

  /** The `i`-th gem analysis is that of the `i`-th token. */
  lemma AnalyzeGemsAt(tokens: seq<TokenData>, now: real, i: nat)
    requires i < |tokens|
    ensures AnalyzeGems(tokens, now)[i] == GemOf(tokens[i], now)
  {
    MapSeqAt(tokens, t => GemOf(t, now), i);
  }

  /** Every reported gem is a new pair, categorised as a gem, with an opportunity score above 70. */
  lemma GemsQualify(newPairs: seq<TokenData>, now: real, i: nat)
    requires i < |GemTokens(newPairs)|
    ensures AnalyzeGems(GemTokens(newPairs), now)[i].token in newPairs
    ensures AnalyzeGems(GemTokens(newPairs), now)[i].category == NewGem
    ensures AnalyzeGems(GemTokens(newPairs), now)[i].opportunityScore > 70
  {
    var found := GemTokens(newPairs);
    AnalyzeGemsAt(found, now, i);
    assert found[i] in found;
  }

  /** Loops over the new pairs, keeping those the detector scores above 70. */
  method FindNewGems(newPairs: seq<TokenData>, now: real) returns (gems: seq<TokenAnalysis>)
    ensures gems == AnalyzeGems(GemTokens(newPairs), now)
  {
    gems := [];
    ghost var found: seq<TokenData> := [];
    for i := 0 to |newPairs|
      invariant found == GemTokens(newPairs[..i])
      invariant gems == AnalyzeGems(found, now)
    {
      var token := newPairs[i];
      GemTokensStep(newPairs, i);
      var detector := AnalyzeToken(token);
      if detector.opportunityScore > 70 {
        MapSeqStep(found, token, t => GemOf(t, now));
        found := found + [token];
        gems := gems + [GemOf(token, now)];
      }
    }
    assert newPairs[..|newPairs|] == newPairs;
  }

  // ---------------------------------------------------------------------------
  // Market summary

  datatype Sentiment = MarketBullish | MarketNeutral | MarketBearish

  /** Bullish above a 10% average change, neutral above -10%, else bearish. */
  function SentimentOf(averageChange: real): (s: Sentiment)
    ensures s == MarketBullish <==> averageChange > 10.0
    ensures s == MarketNeutral <==> -10.0 < averageChange <= 10.0
    ensures s == MarketBearish <==> averageChange <= -10.0
  {
    if averageChange > 10.0 then MarketBullish
    else if averageChange > -10.0 then MarketNeutral
    else MarketBearish
  }

  datatype MarketSummary = MarketSummary(
    timestamp: real,
    totalTokens: nat,
    totalVolume: real,
    averageChange: real,
    gainersCount: nat,
    losersCount: nat,
    tierCounts: map<McapTier, nat>,
    sentiment: Sentiment)

  function VolumeSum(tokens: seq<TokenData>): (r: real)
    ensures r >= 0.0
    decreases |tokens|
  {
    if tokens == [] then 0.0 else VolumeSum(tokens[..|tokens| - 1]) + tokens[|tokens| - 1].volume24h
  }

  function ChangeSum(tokens: seq<TokenData>): real
    decreases |tokens|
  {
    if tokens == [] then 0.0 else ChangeSum(tokens[..|tokens| - 1]) + tokens[|tokens| - 1].priceChange24h
  }

  /** How many of the tokens fall in the market-cap tier. */
  function TierCount(tokens: seq<TokenData>, tier: McapTier): (n: nat)
    ensures n <= |tokens|
    decreases |tokens|
  {
    if tokens == [] then 0
    else TierCount(tokens[..|tokens| - 1], tier) + (if GetMcapTier(tokens[|tokens| - 1].marketCap) == tier then 1 else 0)
  }

  /** Every token lands in exactly one tier, so the five counts add up to the number of tokens. */
  lemma {:induction false} TierCountsSum(tokens: seq<TokenData>)
    ensures TierCount(tokens, Nano) + TierCount(tokens, Micro) + TierCount(tokens, Small)
            + TierCount(tokens, Mid) + TierCount(tokens, Large) == |tokens|
    decreases |tokens|
  {
    if tokens != [] {
      TierCountsSum(tokens[..|tokens| - 1]);
    }
  }

  /** The summary the report carries for a list of tokens. */
  function SummaryOf(tokens: seq<TokenData>, gainersCount: nat, losersCount: nat, now: real): (s: MarketSummary)
    ensures s.totalTokens == |tokens| && s.totalVolume == VolumeSum(tokens)
    ensures tokens == [] ==> s.averageChange == 0.0
    ensures tokens != [] ==> s.averageChange * |tokens| as real == ChangeSum(tokens)
    ensures s.sentiment == SentimentOf(s.averageChange)
    ensures forall tier :: tier in s.tierCounts && s.tierCounts[tier] == TierCount(tokens, tier)
  {
    var average := if tokens == [] then 0.0 else ChangeSum(tokens) / |tokens| as real;
    MarketSummary(now, |tokens|, VolumeSum(tokens), average, gainersCount, losersCount,
                  map tier: McapTier | true :: TierCount(tokens, tier), SentimentOf(average))
  }

  /** Counts the tokens per tier and totals volume and change in one pass. */
  method CreateMarketSummary(tokens: seq<TokenData>, gainers: seq<TokenData>, losers: seq<TokenData>, now: real)
    returns (summary: MarketSummary)
    ensures summary == SummaryOf(tokens, |gainers|, |losers|, now)
  {
    var totalVolume, changeTotal := 0.0, 0.0;
    var tiers: map<McapTier, nat> := map[Nano := 0, Micro := 0, Small := 0, Mid := 0, Large := 0];
    forall tier: McapTier ensures tier in tiers && tiers[tier] == TierCount(tokens[..0], tier) {
      assert tier.Nano? || tier.Micro? || tier.Small? || tier.Mid? || tier.Large?;
    }
    for i := 0 to |tokens|
      invariant totalVolume == VolumeSum(tokens[..i])
      invariant changeTotal == ChangeSum(tokens[..i])
      invariant forall tier :: tier in tiers && tiers[tier] == TierCount(tokens[..i], tier)
    {
      var token := tokens[i];
      assert tokens[..i + 1][..i] == tokens[..i];
      totalVolume := totalVolume + token.volume24h;
      changeTotal := changeTotal + token.priceChange24h;
      var tier := GetMcapTier(token.marketCap);
      if tier in tiers {
        tiers := tiers[tier := tiers[tier] + 1];
      }
    }
    assert tokens[..|tokens|] == tokens;
    var average := if |tokens| > 0 then changeTotal / |tokens| as real else 0.0;
    var sentiment := if average > 10.0 then MarketBullish else if average > -10.0 then MarketNeutral else MarketBearish;
    assert tiers == map tier: McapTier | true :: TierCount(tokens, tier);
    summary := MarketSummary(now, |tokens|, totalVolume, average, |gainers|, |losers|, tiers, sentiment);
  }

  // ---------------------------------------------------------------------------
  // The hourly report

  datatype HourlyReport = HourlyReport(
    timestamp: real,
    dustLike: seq<TokenAnalysis>,
    pricelessLike: seq<TokenAnalysis>,
    trending: seq<TokenAnalysis>,
    newGems: seq<TokenAnalysis>,
    topGainers: seq<TokenAnalysis>,
    priceAlerts: seq<PriceTracking.Alert>,
    summary: MarketSummary)

  /** A similarity section: the reference token, then the ten best-ranked matches of the profile. */
  function SimilarSection(found: seq<TokenData>, refCategory: Category, candidates: seq<TokenData>,
                          profile: Profile, category: Category, now: real): (r: seq<TokenAnalysis>)
    ensures |r| <= 11
  {
    var ranked := Take(SortDesc(Matches(candidates, profile), Score), 10);
    assert |ranked| <= 10;
    Reference(found, refCategory, now) + AnalyzeMatches(ranked, category, now)
  }

  /** The reference token's analysis (the first search result), if the search found one. */
  function Reference(found: seq<TokenData>, category: Category, now: real): (r: seq<TokenAnalysis>)
    ensures found == [] ==> r == []
    ensures found != [] ==> r == [CreateTokenAnalysis(found[0], category, 1.0, now)]
  {
    if found == [] then [] else [CreateTokenAnalysis(found[0], category, 1.0, now)]
  }

  class HourlyAnalyzer {
    const tracker: PriceTracking.LivePriceTracker
    var history: seq<HourlyReport>

    constructor (t: PriceTracking.LivePriceTracker)
      ensures tracker == t && history == []
    {
      tracker := t;
      history := [];
    }

    /** The report for the fetched lists and the tracker's current alerts. */
    ghost function ReportOf(trending: seq<TokenData>, newPairs: seq<TokenData>,
                            gainers: seq<TokenData>, losers: seq<TokenData>,
                            dustData: seq<TokenData>, pricelessData: seq<TokenData>, now: real): (r: HourlyReport)
      reads tracker, tracker.tracked.Values
      ensures r.timestamp == now
      ensures |r.trending| <= 10 && |r.topGainers| <= 5
      ensures |r.dustLike| <= 11 && |r.pricelessLike| <= 11
      ensures |r.newGems| <= |newPairs|
    {
      var all := trending + newPairs + gainers;
      HourlyReport(now,
                   SimilarSection(dustData, DustReference, all, Dust, DustLike, now),
                   SimilarSection(pricelessData, PricelessReference, all, Priceless, PricelessLike, now),
                   AnalyzeAll(Take(trending, 10), TrendingToken, 0.8, now),
                   AnalyzeGems(GemTokens(newPairs), now),
                   AnalyzeAll(Take(gainers, 5), TopGainer, 0.9, now),
                   tracker.AlertsOver(tracker.order, now),
                   SummaryOf(all, |gainers|, |losers|, now))
    }

    /**
     * Builds the report from the fetched lists: each reference token first,
     * then the ten best profile matches; the first ten trending tokens; the
     * new gems; the first five gainers; the tracker's alerts; the summary of
     * trending, new and gaining tokens.
     */
    method BuildReport(trending: seq<TokenData>, newPairs: seq<TokenData>,
                       gainers: seq<TokenData>, losers: seq<TokenData>,
                       dustData: seq<TokenData>, pricelessData: seq<TokenData>, now: real)
      returns (report: HourlyReport)
      requires tracker.Valid()
      ensures report == ReportOf(trending, newPairs, gainers, losers, dustData, pricelessData, now)
    {
      var dustLike := Reference(dustData, DustReference, now);
      var pricelessLike := Reference(pricelessData, PricelessReference, now);
      var all := trending + newPairs + gainers;
      var dustSimilar := FindDustLikeTokens(all);
      dustLike := dustLike + AnalyzeMatches(Take(dustSimilar, 10), DustLike, now);
      var pricelessSimilar := FindPricelessLikeTokens(all);
      pricelessLike := pricelessLike + AnalyzeMatches(Take(pricelessSimilar, 10), PricelessLike, now);
      var trendingAnalyzed := AnalyzeAll(Take(trending, 10), TrendingToken, 0.8, now);
      var gems := FindNewGems(newPairs, now);
      var gainersAnalyzed := AnalyzeAll(Take(gainers, 5), TopGainer, 0.9, now);
      var summary := CreateMarketSummary(all, gainers, losers, now);
      var alerts := tracker.GetAlerts(now);
      report := HourlyReport(now, dustLike, pricelessLike, trendingAnalyzed, gems, gainersAnalyzed, alerts, summary);
    }

    /** The hourly analysis: builds the report and appends it to the history. */
    method PerformHourlyAnalysis(trending: seq<TokenData>, newPairs: seq<TokenData>,
                                 gainers: seq<TokenData>, losers: seq<TokenData>,
                                 dustData: seq<TokenData>, pricelessData: seq<TokenData>, now: real)
      returns (report: HourlyReport)
      requires tracker.Valid()
      modifies this`history
      ensures report == ReportOf(trending, newPairs, gainers, losers, dustData, pricelessData, now)
      ensures history == old(history) + [report]
    {
      report := BuildReport(trending, newPairs, gainers, losers, dustData, pricelessData, now);
      history := history + [report];
    }
  }
}
