# DEX token analysis and paper trading, modelled in Dafny

This project models the analysis and paper-trading layer of a DexScreener
token scanner. That layer has six parts, and each is one Dafny module:

- `Ledger` (`ledger.dfy`) is the paper portfolio. It covers positions marked to a price, and
  a portfolio with a cash balance, positions keyed by token address, an
  append-only trade history, realized and unrealized P&L and win/loss
  counters. It also has the portfolio manager's buy, sell and sizing rules.
- `TokenSimilarity` (`similarity.dfy`) holds the token classifiers: market-cap tier,
  volume rating, liquidity health, momentum, risk level and the 0-100
  opportunity score. It also holds the DUST and PRICELESS profile filters, which rank
  candidates by opportunity. `Ranking` (`ranking.dfy`) is the stable
  descending sort they use.
- `MultiTimeframe` (`multitimeframe.dfy`) covers per-frame momentum and volume trend, the
  weighted overall trend, entry timing, the risk/reward ratio capped at 3,
  the confidence clamped to [0, 100] and the overall score.
- `TradingAgent` (`agent.dfy`) is the AI trading agent. It covers the capital reserve, position
  gating, confidence-scaled sizing, entry rules and the watchlist, exit rules
  in their fixed precedence, and strategy choice. It also executes buy and sell
  decisions against the portfolio and the agent's counters.
- `HourlyAnalysis` (`hourly.dfy`) is the hourly report. It covers price tier, liquidity,
  volatility and age risks, the recommendation, the new-gem filter, the
  market summary, and the report that is appended to the analysis history.
- `PriceTracking` (`prices.dfy`) is the live price tracker. It keeps a 24-hour window of price
  points per token. It computes the percent change against the latest point at or before a
  cutoff and the volume trend over recent points, and it raises pump, dump and
  volume-spike alerts.

`Common` (`common.dfy`) holds the token snapshot (`TokenData`), `Option`
and the non-negative `Amount` type for feed figures.

Objects whose fields the program updates in place are classes:
- `Position`
- `Portfolio`
- `PortfolioManager`
- the agent
- `PriceHistory`
- `LivePriceTracker`
- the hourly analyzer

Their methods state the whole new state. Loops that accumulate a value are
methods proved against a specification function, for example:
- the risk and opportunity counters
- the weighted trend
- the confidence and overall score
- the profile filters
- the market summary
- the new-gem scan
- the alert collection
- the price update of all positions

The properties the program promises are proved as lemmas about those functions.

Prices and amounts are `real`. Time is a number of hours. The current time is
always a parameter `now`. A token's age is an `Option<real>` parameter, and it is
`None` when the creation time cannot be read.

## Model

| member | source | states |
|---|---|---|
| Ledger.PnlPercent | public/portfolio_tracker.py:27-29 | P&L percent is 0 without a positive cost basis; otherwise it has the sign of the P&L and is 0 exactly when the P&L is 0 |
| Ledger.PnlPercentScales | public/portfolio_tracker.py:29 | the percentage times the cost basis is 100 times the P&L |
| Ledger.Position.constructor | public/portfolio_tracker.py:11-21 | a new position carries the given fields, with value, P&L and P&L percent 0 until its first price update |
| Ledger.Position.UpdatePrice | public/portfolio_tracker.py:23-29 | after marking to p: current price p, value quantity·p, P&L quantity·p − quantity·entry; for a positive quantity the P&L is positive iff p exceeds the entry price |
| Ledger.SumPeel | public/portfolio_tracker.py:113-116 | the sum of position values does not depend on the order of the addresses |
| Ledger.SumAdd | public/portfolio_tracker.py:104-111 | adding one more position's P&L adds exactly that amount to the total |
| Ledger.Portfolio.constructor | public/portfolio_tracker.py:42-51 | a new portfolio holds the starting balance in cash, no positions, no trades, zero P&L and zero counters |
| Ledger.Portfolio.AddPosition | public/portfolio_tracker.py:53-68 | `Opened`: stores the position under its address, lowers cash by quantity·entry price, appends exactly one buy trade of that value and keeps the starting balance, both P&L totals and the win/loss counts; also records the position's value in the value map |
| Ledger.Portfolio.Detach | public/portfolio_tracker.py:100-101 | removing an address leaves every other position, whose values stay as they were, and the removed position is no longer reachable from the map |
| Ledger.Portfolio.RecordSale | public/portfolio_tracker.py:78-98 | a sale adds the position value to cash and the P&L to realized P&L, counts a win iff the P&L is positive and a loss otherwise, and appends one sell trade |
| Ledger.Portfolio.ClosePosition | public/portfolio_tracker.py:70-102 | an address not held returns false and changes nothing; otherwise the position is marked to the sell price and `Closed` holds: cash rises by quantity·sell price, realized P&L rises by its P&L, exactly one counter moves (win iff P&L > 0), one sell trade is appended, the address is removed, and the starting balance and unrealized P&L stay |
| Ledger.Portfolio.MarkPosition | public/portfolio_tracker.py:108-110 | marks one held position to its new price and leaves every other position unchanged |
| Ledger.Portfolio.UpdateAllPrices | public/portfolio_tracker.py:104-111 | marks exactly the positions named in the update map, leaves the others unchanged, and sets unrealized P&L to the sum of the marked positions' P&L |
| Ledger.Portfolio.GetTotalValue | public/portfolio_tracker.py:113-116 | total value is cash plus the sum of the recorded position values |
| Ledger.Portfolio.WinRate | public/portfolio_tracker.py:126-129 | win rate is 0 before any close, otherwise wins·100 / closes, and it always lies in [0, 100] |
| Ledger.RoundTripAtEntry | public/portfolio_tracker.py:53-102 | buying a position and closing it at its entry price restores the cash balance, leaves realized P&L unchanged, counts one loss, removes the address and adds two trades |
| Ledger.PortfolioManager.constructor | public/portfolio_tracker.py:131-135 | a manager starts with a fresh portfolio at the starting balance, at most 10 positions, 10% sizing |
| Ledger.PortfolioManager.ShouldBuy | public/portfolio_tracker.py:180-193 | never buys at the position limit or at extreme risk; otherwise buys iff score ≥ 85, or score ≥ 75 with low risk |
| Ledger.PortfolioManager.ShouldSell | public/portfolio_tracker.py:195-212 | marks the position, then the −20% stop wins over the +50% take profit, which wins over the 24-hour exit on gains below 10%; a hold comes with an empty reason |
| Ledger.PortfolioManager.CalculatePositionSize | public/portfolio_tracker.py:214-218 | size is 0 for a non-positive price; otherwise its cost is 10% of the cash balance |
| TokenSimilarity.GetMcapTier | public/token_similarity.py:95-105 | each tier holds exactly its market-cap band, with bounds at 100k, 1M, 10M and 100M |
| TokenSimilarity.McapTierMonotone | public/token_similarity.py:95-105 | a larger market cap never gets a lower tier |
| TokenSimilarity.VolumeToMcap | public/token_similarity.py:108 | the volume ratio is never negative |
| TokenSimilarity.VolumeRatioScales | public/token_similarity.py:108 | the ratio times market cap plus one gives back the 24h volume |
| TokenSimilarity.RateVolume | public/token_similarity.py:107-117 | each volume rating holds exactly its ratio band, at 2, 1, 0.5 and 0.1 |
| TokenSimilarity.LiquidityToMcap | public/token_similarity.py:120 | the liquidity ratio is never negative |
| TokenSimilarity.LiquidityRatioScales | public/token_similarity.py:120 | the ratio times market cap plus one gives back the liquidity |
| TokenSimilarity.RateLiquidity | public/token_similarity.py:119-129 | each liquidity health holds exactly its ratio band, at 0.5, 0.2, 0.1 and 0.05 |
| TokenSimilarity.MomentumOf | public/token_similarity.py:131-143 | neutral exactly when the absolute change is at most 5; each other bucket holds exactly its band at 100, 50, 20, 5, −20 and −50 |
| TokenSimilarity.MomentumMonotone | public/token_similarity.py:131-143 | the buckets are ordered: a larger change never gives a weaker momentum |
| TokenSimilarity.RiskOf | public/token_similarity.py:173-180 | extreme iff at least 4 factors, high at 3, moderate at 2, low otherwise |
| TokenSimilarity.CalculateRisk | public/token_similarity.py:145-180 | counting the liquidity, volatility, age and market-cap factors gives the level of the factor count; extreme iff at least 4 factors; never more than 6 factors |
| TokenSimilarity.UnknownAgeAddsOneFactor | public/token_similarity.py:158-167 | an age that cannot be determined adds exactly one factor compared with an age of three days or more |
| TokenSimilarity.OpportunityScore | public/token_similarity.py:182-219 | the score lies in [0, 100] and equals the sum of the volume, momentum, liquidity and market-cap parts, so the cap at 100 never changes it |
| TokenSimilarity.CalculateOpportunity | public/token_similarity.py:182-219 | adding the points block by block gives the opportunity score, in [0, 100] |
| TokenSimilarity.AnalyzeToken | public/token_similarity.py:82-93 | each field is its classifier's result: the market-cap tier, the volume ratio and its rating, the liquidity ratio and its health, the 24h momentum, the risk level of the counted factors, and the opportunity score (at most 100) |
| TokenSimilarity.MatchOf | public/token_similarity.py:273-284 | a match's similarity score is its opportunity score over 100, so it lies in [0, 1] |
| TokenSimilarity.Matches | public/token_similarity.py:259-284 | the filtered list holds only candidates that fit the profile, each with its own match, and is no longer than the candidates |
| TokenSimilarity.MatchesComplete | public/token_similarity.py:259-271 | every candidate that fits the profile has its match in the filtered list |
| TokenSimilarity.MatchesStep | public/token_similarity.py:259-284 | one more candidate adds its match iff it fits the profile, and nothing else |
| TokenSimilarity.FindProfileMatches | public/token_similarity.py:254-287 | the loop's output is the filtered list, in candidate order, sorted by similarity score |
| TokenSimilarity.FindDustLikeTokens | public/token_similarity.py:254-287 | the result is sorted by score descending and is a permutation of the candidates with cap in [1M, 50M], volume ratio in [0.5, 3] and liquidity of at least 100k |
| TokenSimilarity.FindPricelessLikeTokens | public/token_similarity.py:289-322 | the same with cap in [500k, 20M], volume ratio in [1, 5] and liquidity of at least 50k |
| TokenSimilarity.RankedMatchesExact | public/token_similarity.py:254-287 | a candidate's match is in the ranked list iff the candidate fits the profile |
| Ranking.SortDesc | public/token_similarity.py:286 | the sorted list is in descending key order and is a permutation of its input |
| Ranking.SortDescStable | public/token_similarity.py:286 | for every key value, the elements with that key keep their original order (the sort is stable) |
| MultiTimeframe.Weight | public/multi_timeframe_analyzer.py:36-42 | every frame weight lies in (0, 0.25] |
| MultiTimeframe.WeightSum | public/multi_timeframe_analyzer.py:36-42 | helper bound used by the weighted-score lemmas (a sum of weights is never negative); the weight table's property is `WeightsSumToOne` |
| MultiTimeframe.WeightsSumToOne | public/multi_timeframe_analyzer.py:36-42 | the five frame weights add up to 1 |
| MultiTimeframe.MomentumOf | public/multi_timeframe_analyzer.py:44-55 | each momentum holds exactly its band, at 50, 20, −10 and −30 |
| MultiTimeframe.MomentumMonotone | public/multi_timeframe_analyzer.py:44-55 | a larger price change never gives a weaker momentum |
| MultiTimeframe.HalvesRatio | public/multi_timeframe_analyzer.py:62-66 | the later-half over earlier-half volume ratio is never negative |
| MultiTimeframe.VolumeTrendOf | public/multi_timeframe_analyzer.py:57-73 | stable with fewer than 2 samples; otherwise increasing iff the halves ratio exceeds 1.3 and decreasing iff it is below 0.7 |
| MultiTimeframe.FlatVolumeTrend | public/multi_timeframe_analyzer.py:57-73 | a constant volume v is never read as increasing; because of the added 1 in the divisor it reads as decreasing exactly when v < 7/3 |
| MultiTimeframe.AnalyzeTimeframe | public/multi_timeframe_analyzer.py:94-120 | a frame's change is the first-to-last percent move, or the 24h change without samples; its average volume is the mean of the samples, or the 24h volume without samples; its momentum and volume trend are those of its data; support, resistance and volatility are the given ones |
| MultiTimeframe.TrendOf | public/multi_timeframe_analyzer.py:138-147 | each overall trend holds exactly its band of weighted score, at 1.5, 0.5, −0.5 and −1.5 |
| MultiTimeframe.TrendOfScore | public/multi_timeframe_analyzer.py:124-147 | bucketing a momentum's own score gives that momentum back |
| MultiTimeframe.WeightedScoreBounds | public/multi_timeframe_analyzer.py:132-136 | the weighted score lies within ±2 times the weight sum |
| MultiTimeframe.OverallScoreRange | public/multi_timeframe_analyzer.py:122-147 | since the weights sum to 1, the weighted momentum score lies in [−2, 2] |
| MultiTimeframe.UnanimousTrend | public/multi_timeframe_analyzer.py:122-147 | when all five frames share a momentum, the overall trend is that momentum |
| MultiTimeframe.CalculateOverallTrend | public/multi_timeframe_analyzer.py:122-147 | the accumulating loop gives the bucket of the weighted momentum score over the frames present |
| MultiTimeframe.EntryTiming | public/multi_timeframe_analyzer.py:149-171 | wait for a dip iff the 1h or 4h frame is missing or, in a bullish trend, the 1h frame is up more than 30% with volatility above 10; avoid iff both frames exist and the trend is not bullish; wait for a breakout iff otherwise bullish, at least 10% above support and above 95% of resistance; immediate in every remaining case |
| MultiTimeframe.Positive | public/multi_timeframe_analyzer.py:176-177 | the kept levels are exactly the positive ones |
| MultiTimeframe.RiskReward | public/multi_timeframe_analyzer.py:173-192 | the ratio lies in [0, 3], and it is 1 when there is no positive support or no positive resistance |
| MultiTimeframe.RiskRewardAtSupport | public/multi_timeframe_analyzer.py:186-190 | a price on the mean support, with nothing to lose, gets the maximum ratio 3 |
| MultiTimeframe.RiskRewardRatio | public/multi_timeframe_analyzer.py:182-192 | otherwise the ratio times the potential loss is the potential gain, capped at 3 times the loss |
| MultiTimeframe.RatioCapped | public/multi_timeframe_analyzer.py:189-192 | gain over loss capped at 3; 3 when the loss is 0 |
| MultiTimeframe.BullishCount | public/multi_timeframe_analyzer.py:200-202 | at most one aligned frame per frame |
| MultiTimeframe.IncreasingCount | public/multi_timeframe_analyzer.py:205-207 | at most one volume-rising frame per frame |
| MultiTimeframe.RiskRewardBonus | public/multi_timeframe_analyzer.py:209-215 | bonus 15 above 2, 10 above 1.5, 5 above 1, else 0 |
| MultiTimeframe.VolatilityPenalty | public/multi_timeframe_analyzer.py:217-222 | no penalty without frames (the mean of nothing compares false); otherwise 10 above a mean volatility of 20, 5 above 15 |
| MultiTimeframe.ConfidenceOf | public/multi_timeframe_analyzer.py:194-224 | confidence lies in [0, 100]; it equals the raw confidence when that is in range and is 100 above it |
| MultiTimeframe.RawConfidenceRange | public/multi_timeframe_analyzer.py:196-224 | raw confidence lies in [40, 115], so the lower clamp never applies |
| MultiTimeframe.ConfidenceMonotoneInRiskReward | public/multi_timeframe_analyzer.py:209-224 | a better risk/reward never lowers confidence |
| MultiTimeframe.CalculateConfidence | public/multi_timeframe_analyzer.py:194-224 | the step-by-step build gives the clamped confidence, in [0, 100] |
| MultiTimeframe.TrendPoints | public/multi_timeframe_analyzer.py:231-237 | trend points lie in [0, 30] |
| MultiTimeframe.VolumePoints | public/multi_timeframe_analyzer.py:239-248 | volume points lie in [0, 20] |
| MultiTimeframe.CapPoints | public/multi_timeframe_analyzer.py:250-256 | market-cap points lie in [0, 20] |
| MultiTimeframe.OverallScoreOf | public/multi_timeframe_analyzer.py:226-264 | the score is never above 100, and never negative for non-negative risk/reward and confidence |
| MultiTimeframe.OverallScoreCapInactive | public/multi_timeframe_analyzer.py:258-264 | with confidence at most 100 the parts sum to at most 100, so the cap never changes the score |
| MultiTimeframe.CalculateOverallScore | public/multi_timeframe_analyzer.py:226-264 | the step-by-step build gives the capped overall score: at most 100, never negative for non-negative inputs |
| MultiTimeframe.AnalyzeToken | public/multi_timeframe_analyzer.py:287-304 | the aggregate carries the trend, timing, risk/reward, confidence and score of its frames, with risk/reward in [0, 3], confidence in [40, 100] and score in [0, 100] |
| TradingAgent.TakeProfitTarget | public/ai_trading_agent.py:57-61 | take-profit targets lie between 25% and 100% |
| TradingAgent.CapitalAfterReserve | public/ai_trading_agent.py:67-70 | available capital is the value above the 500 reserve, never negative |
| TradingAgent.SizeFor | public/ai_trading_agent.py:77-86 | size is 0 for a non-positive price; otherwise its cost is the confidence-scaled share of available capital |
| TradingAgent.SizeWithinBand | public/ai_trading_agent.py:81-86 | for confidence in [50, 100] a position costs between 10% and 20% of available capital |
| TradingAgent.EntryOf | public/ai_trading_agent.py:99-130 | buy iff confidence ≥ 65, score ≥ 80 and timing immediate; watch iff confidence ≥ 65, score ≥ 70 and timing wait-dip |
| TradingAgent.BuyOnlyInBullishTrend | public/ai_trading_agent.py:111-123 | with the analyzer's own entry timing, a buy happens only in a bullish or strongly bullish trend |
| TradingAgent.SelectStrategy | public/ai_trading_agent.py:183-196 | scalping iff mean volatility > 15; position trading iff not scalping, trend strong bullish and risk/reward > 2; otherwise swing |
| TradingAgent.ExitReason | public/ai_trading_agent.py:144-168 | each exit holds iff its rule fires and no earlier rule does: the −15% stop, then the strategy's take profit, then the bearish reversal with P&L > 10%, then the scalping exit after 4 hours with P&L > 5%; no exit iff none fires |
| TradingAgent.HoldBand | public/ai_trading_agent.py:148-168 | a P&L above the stop and at most 5% never triggers an exit |
| TradingAgent.NoExitInsideBand | public/ai_trading_agent.py:148-156 | no exit implies the P&L lies strictly between the stop and the take-profit target |
| TradingAgent.Agent.constructor | public/ai_trading_agent.py:41-65 | a new agent has a fresh portfolio at the starting balance, zero counters, swing preference and an empty watchlist |
| TradingAgent.Agent.GetAvailableCapital | public/ai_trading_agent.py:67-70 | the available capital is the portfolio's total value above the reserve |
| TradingAgent.Agent.CanOpenPosition | public/ai_trading_agent.py:72-75 | true iff fewer than 5 positions are open and available capital exceeds 50 |
| TradingAgent.Agent.CalculatePositionSize | public/ai_trading_agent.py:77-86 | the size is the confidence-scaled share of the available capital over the price |
| TradingAgent.Agent.AnalyzeExistingPosition | public/ai_trading_agent.py:132-181 | no decision for an address not held; otherwise the position is marked to the token price and a sell decision of its whole quantity comes exactly when an exit rule fires |
| TradingAgent.Agent.AnalyzeTokenOpportunity | public/ai_trading_agent.py:88-130 | a held token goes to the exit rules; otherwise the analysis is recorded, a buy is proposed iff the entry rules say buy, and a wait-dip token joins the watchlist at most once; counters never change |
| TradingAgent.Agent.ExecuteBuy | public/ai_trading_agent.py:201-228 | fails with no state change unless a slot and capital are available and the cash covers the cost; a success (`Bought`) stores a fresh position at the token's price valued at 0, leaves the ledger as `Portfolio.Opened` says (cost paid, one buy trade appended, P&L totals, win/loss counts and starting balance kept), adds 1 to the trade count and keeps the other counters, analyses and watchlist |
| TradingAgent.Agent.ExecuteSell | public/ai_trading_agent.py:230-253 | succeeds iff the address is held; a success (`Sold`) marks the position to the token price, leaves the ledger as `Portfolio.Closed` says (value credited, P&L realized, one win/loss count and one sell trade), moves exactly one of the successful/failed counters (successful iff P&L > 0), adds the P&L to the total profit and keeps the trade count |
| TradingAgent.Agent.RecordOutcome | public/ai_trading_agent.py:243-249 | a positive P&L counts a success, any other a failure, and the P&L is added to the profit |
| TradingAgent.Agent.ExecuteDecision | public/ai_trading_agent.py:198-257 | a buy succeeds under the same conditions as `ExecuteBuy` and then `Bought` holds; a sell succeeds iff the address is held and then `Sold` holds; a hold does nothing and reports failure; a failure never changes state |
| HourlyAnalysis.GetPriceTier | public/hourly_analyzer.py:177-191 | each price tier holds exactly its band, at 0.00001, 0.0001, 0.001, 0.01, 0.1 and 1 |
| HourlyAnalysis.PriceTierMonotone | public/hourly_analyzer.py:177-191 | a higher price never lands in a lower tier |
| HourlyAnalysis.LiquidityRisk | public/hourly_analyzer.py:154 | high below 50k, medium below 100k, low otherwise |
| HourlyAnalysis.VolatilityRisk | public/hourly_analyzer.py:155 | high beyond a 50% move either way, medium beyond 25%, low otherwise |
| HourlyAnalysis.AssessAgeRisk | public/hourly_analyzer.py:193-207 | unknown iff the age is unknown; extreme under 1 hour, high under 24, medium under 72, low otherwise |
| HourlyAnalysis.AssessRisks | public/hourly_analyzer.py:151-157 | the assessment holds the risk level, liquidity, volatility and age risks of the token |
| HourlyAnalysis.HighRiskCount | public/hourly_analyzer.py:213 | at most four assessments count as high risks |
| HourlyAnalysis.UnknownAgeIsNotHighRisk | public/hourly_analyzer.py:206-213 | an unreadable age never counts as a high risk |
| HourlyAnalysis.RecommendationFor | public/hourly_analyzer.py:215-226 | each recommendation holds exactly its region of score and high-risk count; avoid only with at least 3 high risks and a score below 50 |
| HourlyAnalysis.RecommendationMonotoneInScore | public/hourly_analyzer.py:215-226 | a higher score never gives a worse recommendation |
| HourlyAnalysis.RecommendationAntitoneInRisks | public/hourly_analyzer.py:215-226 | more high risks never give a better recommendation |
| HourlyAnalysis.GenerateRecommendation | public/hourly_analyzer.py:209-226 | the recommendation follows the precedence over the counted high risks; a strong buy needs a score of 80; 3 or more high risks rule out strong buy, buy and consider |
| HourlyAnalysis.CreateTokenAnalysis | public/hourly_analyzer.py:130-175 | the analysis carries the token's price tier, momentum, volume-to-cap ratio and its rating, liquidity health, risks, opportunity score (at most 100) and the recommendation for them |
| HourlyAnalysis.AnalyzeAll | public/hourly_analyzer.py:89-93 | one analysis per token |
| HourlyAnalysis.AnalyzeAllAt | public/hourly_analyzer.py:89-93 | the i-th analysis is that of the i-th token |
| HourlyAnalysis.AnalyzeMatches | public/hourly_analyzer.py:77-81 | one analysis per ranked match |
| HourlyAnalysis.AnalyzeMatchesAt | public/hourly_analyzer.py:77-81 | the i-th analysis is that of the i-th match, with the match's similarity score |
| HourlyAnalysis.GemOf | public/hourly_analyzer.py:98-102 | a gem's analysis is categorised as a new gem and carries the token's opportunity score |
| HourlyAnalysis.GemTokens | public/hourly_analyzer.py:95-102 | the gems are new pairs scoring above 70 |
| HourlyAnalysis.GemTokensComplete | public/hourly_analyzer.py:97-99 | no new pair scoring above 70 is missed |
| HourlyAnalysis.GemTokensStep | public/hourly_analyzer.py:97-102 | one more new pair adds itself iff it scores above 70 |
| HourlyAnalysis.AnalyzeGems | public/hourly_analyzer.py:96-102 | one analysis per gem |
| HourlyAnalysis.AnalyzeGemsAt | public/hourly_analyzer.py:96-102 | the i-th gem analysis is that of the i-th gem token |
| HourlyAnalysis.GemsQualify | public/hourly_analyzer.py:96-102 | every reported gem is a new pair, categorised as a new gem, with opportunity score above 70 |
| HourlyAnalysis.FindNewGems | public/hourly_analyzer.py:95-102 | the loop reports the analyses of exactly the new pairs scoring above 70, in order |
| HourlyAnalysis.SentimentOf | public/hourly_analyzer.py:256 | bullish above a 10% average change, neutral above −10%, bearish otherwise |
| HourlyAnalysis.VolumeSum | public/hourly_analyzer.py:231 | the total volume is never negative |
| HourlyAnalysis.TierCount | public/hourly_analyzer.py:243-246 | a tier count never exceeds the number of tokens |
| HourlyAnalysis.TierCountsSum | public/hourly_analyzer.py:235-246 | the five tier counts add up to the number of tokens |
| HourlyAnalysis.SummaryOf | public/hourly_analyzer.py:228-257 | the summary counts the tokens and totals their volume; the average change is 0 for no tokens and otherwise times the count gives the change total; its sentiment follows the average; every tier has its count |
| HourlyAnalysis.CreateMarketSummary | public/hourly_analyzer.py:228-257 | the one-pass loop produces that summary |
| HourlyAnalysis.Reference | public/hourly_analyzer.py:63-73 | no reference entry when the search found nothing; otherwise the first result analysed with similarity 1 |
| HourlyAnalysis.SimilarSection | public/hourly_analyzer.py:63-87 | a similarity section holds at most the reference plus ten matches |
| HourlyAnalysis.HourlyAnalyzer.constructor | public/hourly_analyzer.py:39-44 | a new analyzer uses the given tracker and has an empty history |
| HourlyAnalysis.HourlyAnalyzer.ReportOf | public/hourly_analyzer.py:46-126 | the report is stamped now and holds at most 10 trending tokens, 5 gainers, 11 entries per similarity section and no more gems than new pairs |
| HourlyAnalysis.HourlyAnalyzer.BuildReport | public/hourly_analyzer.py:46-126 | assembling the report section by section gives that report |
| HourlyAnalysis.HourlyAnalyzer.PerformHourlyAnalysis | public/hourly_analyzer.py:46-128 | the report is that report and it is appended to the history |
| PriceTracking.Recent | public/price_tracker.py:31 | filtering never lengthens the list |
| PriceTracking.RecentMembers | public/price_tracker.py:31 | exactly the points stamped after the cutoff are kept |
| PriceTracking.AtOrBefore | public/price_tracker.py:38 | filtering never lengthens the list |
| PriceTracking.AtOrBeforeMembers | public/price_tracker.py:38 | exactly the points stamped at or before the cutoff are kept |
| PriceTracking.LatestAtOrBefore | public/price_tracker.py:38-43 | the old point used is the last one at or before the cutoff: every later point is stamped after it |
| PriceTracking.VolumeTotal | public/price_tracker.py:64-65 | a volume total is never negative |
| PriceTracking.HalvesRatio | public/price_tracker.py:62-67 | the halves ratio is never negative, and neither divisor can be 0 |
| PriceTracking.PriceHistory.constructor | public/price_tracker.py:22-25 | a new history holds the token and no points |
| PriceTracking.PriceHistory.AddPoint | public/price_tracker.py:27-31 | the new point is appended, then only points stamped after now − 24h remain; the new point is last when it is itself recent |
| PriceTracking.PriceHistory.GetPriceChange | public/price_tracker.py:33-49 | none with fewer than 2 points, no point at or before the cutoff, or an old price of 0, and a change in every other case |
| PriceTracking.PriceHistory.PriceChangeScales | public/price_tracker.py:43-49 | the change applied to the old price gives 100 times the move to the newest price |
| PriceTracking.PriceHistory.GetVolumeTrend | public/price_tracker.py:51-74 | insufficient data iff fewer than 2 points or fewer than 2 recent points; otherwise increasing iff the halves ratio exceeds 1.5 and decreasing iff it is below 0.7 |
| PriceTracking.IncreasingMeansHigherLaterVolume | public/price_tracker.py:62-70 | an increasing reading means the later half really has the higher mean volume |
| PriceTracking.MoveAlert | public/price_tracker.py:212-220 | a pump or dump alert iff the move exceeds 20% either way; pump iff it is positive; high severity iff it exceeds 50% |
| PriceTracking.SpikeAlert | public/price_tracker.py:222-230 | a medium volume-spike alert iff the volume trend is increasing and the change exceeds 10% |
| PriceTracking.TokenAlerts | public/price_tracker.py:206-230 | no alerts without a one-hour change; at most two alerts, all about the token and its change |
| PriceTracking.CheckTokenAlerts | public/price_tracker.py:207-230 | the step-by-step checks give the token's alerts |
| PriceTracking.LivePriceTracker.constructor | public/price_tracker.py:76-82 | a new tracker tracks nothing |
| PriceTracking.LivePriceTracker.AddToken | public/price_tracker.py:84-88 | an address already tracked keeps its history; a new one gets a fresh empty history, last in order |
| PriceTracking.LivePriceTracker.RemoveToken | public/price_tracker.py:90-93 | removing an untracked address changes nothing; otherwise exactly that address is dropped and the order becomes `Without(order, address)`, the others in their previous order |
| PriceTracking.LivePriceTracker.AlertsAreSignificant | public/price_tracker.py:202-232 | every alert reports a one-hour move of more than 10% |
| PriceTracking.LivePriceTracker.GetAlerts | public/price_tracker.py:202-232 | the alerts are those of every tracked token in tracking order (each token's `TokenAlerts` of its one-hour change and volume trend), tokens without a one-hour change contributing none |

## Left out

- The DexScreener HTTP client and `TokenData.from_dict` (`public/dexscreener_api.py`) are left out: they are network I/O and dict lookups. The token snapshot keeps only the fields the core reads, and the feed's figures are taken as non-negative.
- The feature-vector similarity (`extract_features`, `calculate_similarity`, `find_similar_tokens`) is left out, because it is log10, scikit-learn scaling and cosine similarity. The constant `matching_features` dictionaries of the profile matches are not modelled either.
- Support, resistance and volatility of a frame come from numpy percentiles and standard deviation. They are inputs to `MultiTimeframe.AnalyzeTimeframe`. The random mock histories are not modelled. The agent therefore receives the multi-timeframe analysis of a token as a parameter.
- Async orchestration is not modelled: `scan_market`, `update_prices`, `start_tracking` with its callbacks, the continuous trader loops and the hourly scheduling. The network fetches inside `perform_hourly_analysis` become parameters of `PerformHourlyAnalysis`.
- The notifier, the live dashboard, the entry script and the demo scripts are not modelled: they are console, file and webhook I/O and random fake data.
- All `save_*` writers and `format_*` renderers are left out, and so are the display-only queries: `get_portfolio_summary`, `get_total_pnl`, `get_roi`, `get_tracked_summary` and `initialize_demo_positions`.
- The wall clock is a parameter. Trade and report timestamps are `now`, and ages are `Option<real>` hours. ISO date parsing is not modelled: its failure is the `None` age.
- Floating-point rounding is not modelled: amounts are exact reals.
- Reason texts carry no figures. The agent's buy and exit reasons are a `Reason` value and a fixed text, without the formatted percentages.
- Ledger.Portfolio.ClosePosition takes the entry out of the map before marking the position to the sell price. The program marks first and deletes last. The final state is the same.
- Ledger.Portfolio.UpdateAllPrices visits the held addresses in an unspecified order, not dict insertion order. With exact reals the total does not depend on the order.
- MultiTimeframe.AnalyzeTimeframe requires a first sample price other than 0. The program would raise a division error there.
- TradingAgent.SelectStrategy requires at least one frame, because the program divides by the number of frames. For the same reason, TradingAgent.Agent.AnalyzeTokenOpportunity requires frames when it proposes a buy. The program's analysis always builds five.
- TradingAgent.Agent.ExecuteDecision does not model the program's catch-all exception handler: none of the modelled steps can raise. A hold decision, which the program answers with `None`, reports failure.
- TradingAgent.Agent.ExecuteBuy does not state the portfolio's total value after a buy. It states the new position's value (0 until its next price update) and every ledger field, from which the total follows.
- The agent's `best_trade`, `worst_trade` and `max_position_size` are left out: the program never uses them. The watchlist is only ever appended to.
- HourlyAnalysis.HourlyAnalyzer.ReportOf states only the report's timestamp and the section sizes. The content of each section is stated by the lemmas about the functions it is built from.
- HourlyAnalysis.SimilarSection states only that a section holds at most eleven entries. Its content (the reference token first, then the analyses of the ten best-ranked matches) is carried by its body and stated by `Reference`, `SortDesc`, `RankedMatchesExact` and `AnalyzeMatchesAt`.
- HourlyAnalysis.CreateTokenAnalysis keeps only the figures the report derives. The raw price, change and volume stay reachable through the token.
