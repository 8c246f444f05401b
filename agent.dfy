/**
 * The AI trading agent: capital reserve, position gating, confidence-scaled
 * sizing, entry and exit rules, strategy choice, and execution of decisions
 * against the paper portfolio. The multi-timeframe analysis of a token is an
 * input, and so is the current time (in hours).
 */
module TradingAgent {
  import opened Common
  import opened Ledger
  import opened MultiTimeframe

  datatype Strategy = Scalping | Swing | PositionTrading

  datatype Action = Buy | Sell | Hold

  /** Why a decision was taken; the texts carry no figures. */
  datatype Reason = HighScoreEntry | StopLoss | TakeProfit | TrendReversal | ScalpingTimeLimit

  function ReasonText(r: Reason): (text: string)
    ensures text != []
  {
    match r
    case HighScoreEntry => "High score, good entry"
    case StopLoss => "Stop loss triggered"
    case TakeProfit => "Take profit target reached"
    case TrendReversal => "Trend reversal detected"
    case ScalpingTimeLimit => "Scalping time limit reached"
  }

  datatype TradingDecision = TradingDecision(
    action: Action,
    token: TokenData,
    reason: Reason,
    confidence: real,
    suggestedAmount: real,
    strategy: Strategy,
    analysis: Analysis)

  const MinCapitalReserve: real := 500.0
  const MinPositionCapital: real := 50.0
  const MaxPositions: nat := 5
  const MinConfidence: real := 65.0
  const StopLossPercent: real := 15.0
  const ExitConfidence: real := 90.0

  function TakeProfitTarget(s: Strategy): (target: real)
    ensures 25.0 <= target <= 100.0
  {
    match s
    case Scalping => 25.0
    case Swing => 50.0
    case PositionTrading => 100.0
  }

  // ---------------------------------------------------------------------------
  // Capital and sizing

  /** The portfolio value above the 500-dollar reserve, never negative. */
  function CapitalAfterReserve(totalValue: real): (available: real)
    ensures available >= 0.0
    ensures totalValue > MinCapitalReserve ==> available == totalValue - MinCapitalReserve
    ensures totalValue <= MinCapitalReserve ==> available == 0.0
  {
    Max(0.0, totalValue - MinCapitalReserve)
  }

  /** Quantity worth 10% of the available capital, plus up to 10% more scaled by confidence above 50. */
  function SizeFor(available: real, price: real, confidence: real): (quantity: real)
    ensures price <= 0.0 ==> quantity == 0.0
    ensures price > 0.0 ==> quantity * price == available * (0.1 + 0.1 * ((confidence - 50.0) / 50.0))
  {
    if price > 0.0 then available * (0.1 + 0.1 * ((confidence - 50.0) / 50.0)) / price else 0.0
  }

  /** For confidence between 50 and 100 a position is worth 10% to 20% of the available capital. */
  lemma SizeWithinBand(available: real, price: real, confidence: real)
    requires available >= 0.0 && price > 0.0
    requires 50.0 <= confidence <= 100.0
    ensures 0.1 * available <= SizeFor(available, price, confidence) * price <= 0.2 * available
  {
    var pct := 0.1 + 0.1 * ((confidence - 50.0) / 50.0);
    assert 0.1 <= pct <= 0.2;
    assert SizeFor(available, price, confidence) * price == available * pct;
    MulNonNegative(available, pct - 0.1);
    MulNonNegative(available, 0.2 - pct);
    assert available * pct - 0.1 * available == available * (pct - 0.1);
    assert 0.2 * available - available * pct == available * (0.2 - pct);
  }

  lemma MulNonNegative(a: real, b: real)
    requires a >= 0.0 && b >= 0.0
    ensures a * b >= 0.0
  {
  }

  // ---------------------------------------------------------------------------
  // Entry rules

  datatype Entry = NoTrade | BuyNow | WatchForDip

  /**
   * Skip below 65 confidence or with 'avoid' timing; buy at score 80 with
   * immediate timing; watch for a dip at score 70 with 'wait_dip' timing.
   */
  function EntryOf(a: Analysis): (e: Entry)
    ensures e == BuyNow <==> a.confidence >= MinConfidence && a.overallScore >= 80.0 && a.entryTiming == Immediate
    ensures e == WatchForDip <==> a.confidence >= MinConfidence && a.overallScore >= 70.0 && a.entryTiming == WaitDip
  {
    if a.confidence < MinConfidence then NoTrade
    else if a.entryTiming == Avoid then NoTrade
    else if a.overallScore >= 80.0 && a.entryTiming == Immediate then BuyNow
    else if a.overallScore >= 70.0 && a.entryTiming == WaitDip then WatchForDip
    else NoTrade
  }

  /** The agent only buys into a bullish or strongly bullish overall trend. */
  lemma BuyOnlyInBullishTrend(a: Analysis)
    requires a.entryTiming == EntryTiming(a.token, a.timeframes, a.overallTrend)
    requires EntryOf(a) == BuyNow
    ensures IsBullish(a.overallTrend)
  {
  }

  /** Average volatility above 15 picks scalping; a strong bullish trend with risk/reward above 2 picks position trading. */
  function SelectStrategy(a: Analysis): (s: Strategy)
    requires a.timeframes != map[]
    ensures s == Scalping <==> MeanVolatility(a.timeframes) > 15.0
    ensures s == PositionTrading <==>
              MeanVolatility(a.timeframes) <= 15.0 && a.overallTrend == StrongBullish && a.riskReward > 2.0
  {
    if MeanVolatility(a.timeframes) > 15.0 then Scalping
    else if a.overallTrend == StrongBullish && a.riskReward > 2.0 then PositionTrading
    else Swing
  }

  // ---------------------------------------------------------------------------
  // Exit rules

  predicate IsBearish(t: Trend)
  {
    t == Bearish || t == StrongBearish
  }

  /** Stop loss, then take profit for the strategy, then trend reversal, then the scalping time limit. */
  function ExitReason(pnlPercent: real, preference: Strategy, trend: Trend, hoursHeld: real): (r: Option<Reason>)
    ensures r == Some(StopLoss) <==> pnlPercent <= -StopLossPercent
    ensures r == Some(TakeProfit) <==> -StopLossPercent < pnlPercent && pnlPercent >= TakeProfitTarget(preference)
    ensures r == Some(TrendReversal) <==>
              -StopLossPercent < pnlPercent < TakeProfitTarget(preference) && IsBearish(trend) && pnlPercent > 10.0
    ensures r == Some(ScalpingTimeLimit) <==>
              && -StopLossPercent < pnlPercent < TakeProfitTarget(preference)
              && !(IsBearish(trend) && pnlPercent > 10.0)
              && preference == Scalping && hoursHeld > 4.0 && pnlPercent > 5.0
    ensures r == None <==>
              && -StopLossPercent < pnlPercent < TakeProfitTarget(preference)
              && !(IsBearish(trend) && pnlPercent > 10.0)
              && !(preference == Scalping && hoursHeld > 4.0 && pnlPercent > 5.0)
  {
    if pnlPercent <= -StopLossPercent then Some(StopLoss)
    else if pnlPercent >= TakeProfitTarget(preference) then Some(TakeProfit)
    else if IsBearish(trend) && pnlPercent > 10.0 then Some(TrendReversal)
    else if preference == Scalping && hoursHeld > 4.0 && pnlPercent > 5.0 then Some(ScalpingTimeLimit)
    else None
  }

  /** A position is held whenever its P&L lies strictly between the stop and at most 5%. */
  lemma HoldBand(pnlPercent: real, preference: Strategy, trend: Trend, hoursHeld: real)
    requires -StopLossPercent < pnlPercent <= 5.0
    ensures ExitReason(pnlPercent, preference, trend, hoursHeld) == None
  {
  }

  /** No exit means the P&L is strictly inside the stop and take-profit band. */
  lemma NoExitInsideBand(pnlPercent: real, preference: Strategy, trend: Trend, hoursHeld: real)
    requires ExitReason(pnlPercent, preference, trend, hoursHeld) == None
    ensures -StopLossPercent < pnlPercent < TakeProfitTarget(preference)
  {
  }

  // ---------------------------------------------------------------------------
  // The agent

  class Agent {
    const portfolio: Portfolio
    var totalTrades: nat
    var successfulTrades: nat
    var failedTrades: nat
    var totalProfit: real
    var strategyPreference: Strategy
    var analyzedTokens: map<string, Analysis>
    var watchlist: seq<string>

    /** The portfolio is consistent and no address is on the watchlist twice. */
    ghost predicate Valid()
      reads this, portfolio
    {
      && portfolio.Valid()
      && forall a :: multiset(watchlist)[a] <= 1
    }

    constructor (startingBalance: real)
      ensures Valid() && fresh(portfolio)
      ensures portfolio.currentBalance == startingBalance && portfolio.positions == map[]
      ensures totalTrades == 0 && successfulTrades == 0 && failedTrades == 0 && totalProfit == 0.0
      ensures strategyPreference == Swing
      ensures analyzedTokens == map[] && watchlist == []
    {
      portfolio := new Portfolio(startingBalance);
      totalTrades, successfulTrades, failedTrades, totalProfit := 0, 0, 0, 0.0;
      strategyPreference := Swing;
      analyzedTokens, watchlist := map[], [];
    }

    method GetAvailableCapital() returns (available: real)
      requires Valid()
      ensures available == CapitalAfterReserve(portfolio.TotalValue())
    {
      var totalValue := portfolio.GetTotalValue();
      available := Max(0.0, totalValue - MinCapitalReserve);
    }

    /** Fewer than five positions and more than 50 dollars above the reserve. */
    method CanOpenPosition() returns (ok: bool)
      requires Valid()
      ensures ok <==> |portfolio.positions| < MaxPositions
                      && CapitalAfterReserve(portfolio.TotalValue()) > MinPositionCapital
    {
      var available := GetAvailableCapital();
      ok := |portfolio.positions| < MaxPositions && available > MinPositionCapital;
    }

    method CalculatePositionSize(price: real, confidence: real) returns (quantity: real)
      requires Valid()
      ensures quantity == SizeFor(CapitalAfterReserve(portfolio.TotalValue()), price, confidence)
    {
      var available := GetAvailableCapital();
      var confidenceFactor := (confidence - 50.0) / 50.0;
      var positionPct := 0.1 + 0.1 * confidenceFactor;
      var positionValue := available * positionPct;
      quantity := if price > 0.0 then positionValue / price else 0.0;
    }

    /** Marks a held position to the token's price and applies the exit rules. */
    method AnalyzeExistingPosition(token: TokenData, analysis: Analysis, now: real)
      returns (d: Option<TradingDecision>)
      requires Valid()
      modifies if token.address in portfolio.positions then {portfolio.positions[token.address]} else {}
      ensures Valid()
      ensures token.address !in portfolio.positions ==> d == None
      ensures token.address in portfolio.positions ==>
                var p := portfolio.positions[token.address];
                var reason := ExitReason(p.pnlPercent, strategyPreference, analysis.overallTrend, now - p.entryTime);
                && p.currentPrice == token.priceUsd && p.Priced()
                && (d == None <==> reason == None)
                && (d != None ==> d.value == TradingDecision(Sell, token, reason.value, ExitConfidence, p.quantity,
                                                             strategyPreference, analysis))
    {
      if token.address !in portfolio.positions {
        return None;
      }
      var position := portfolio.positions[token.address];
      position.UpdatePrice(token.priceUsd);
      var reason: Option<Reason> := None;
      if position.pnlPercent <= -StopLossPercent {
        reason := Some(StopLoss);
      } else if position.pnlPercent >= TakeProfitTarget(strategyPreference) {
        reason := Some(TakeProfit);
      } else if (analysis.overallTrend == Bearish || analysis.overallTrend == StrongBearish)
                && position.pnlPercent > 10.0 {
        reason := Some(TrendReversal);
      } else if strategyPreference == Scalping {
        var hoursHeld := now - position.entryTime;
        if hoursHeld > 4.0 && position.pnlPercent > 5.0 {
          reason := Some(ScalpingTimeLimit);
        }
      }
      if reason.Some? {
        d := Some(TradingDecision(Sell, token, reason.value, ExitConfidence, position.quantity,
                                  strategyPreference, analysis));
      } else {
        d := None;
      }
    }

    /**
     * A held token goes to the exit rules. Otherwise the analysis is
     * recorded, and the entry rules either propose a buy or put the token on
     * the watchlist once.
     */
    method AnalyzeTokenOpportunity(token: TokenData, analysis: Analysis, now: real)
      returns (d: Option<TradingDecision>)
      requires Valid()
      requires token.address !in portfolio.positions && EntryOf(analysis) == BuyNow ==> analysis.timeframes != map[]
      modifies this, if token.address in portfolio.positions then {portfolio.positions[token.address]} else {}
      ensures Valid()
      ensures totalTrades == old(totalTrades) && successfulTrades == old(successfulTrades)
      ensures failedTrades == old(failedTrades) && totalProfit == old(totalProfit)
      ensures strategyPreference == old(strategyPreference)
      ensures token.address in old(portfolio.positions) ==>
                var p := portfolio.positions[token.address];
                var reason := ExitReason(p.pnlPercent, strategyPreference, analysis.overallTrend, now - p.entryTime);
                && analyzedTokens == old(analyzedTokens) && watchlist == old(watchlist)
                && p.currentPrice == token.priceUsd && p.Priced()
                && (d == None <==> reason == None)
                && (d != None ==> d.value == TradingDecision(Sell, token, reason.value, ExitConfidence, p.quantity,
                                                             strategyPreference, analysis))
      ensures token.address !in old(portfolio.positions) ==>
                && analyzedTokens == old(analyzedTokens)[token.address := analysis]
                && watchlist == (if EntryOf(analysis) == WatchForDip && token.address !in old(watchlist)
                                 then old(watchlist) + [token.address] else old(watchlist))
                && (d != None <==> EntryOf(analysis) == BuyNow)
                && (d != None ==> d.value == TradingDecision(
                                    Buy, token, HighScoreEntry, analysis.confidence,
                                    SizeFor(CapitalAfterReserve(portfolio.TotalValue()), token.priceUsd, analysis.confidence),
                                    SelectStrategy(analysis), analysis))
    {
      if token.address in portfolio.positions {
        d := AnalyzeExistingPosition(token, analysis, now);
        return;
      }
      analyzedTokens := analyzedTokens[token.address := analysis];
      if analysis.confidence < MinConfidence {
        return None;
      }
      if analysis.entryTiming == Avoid {
        return None;
      }
      if analysis.overallScore >= 80.0 && analysis.entryTiming == Immediate {
        var strategy := SelectStrategy(analysis);
        var size := CalculatePositionSize(token.priceUsd, analysis.confidence);
        d := Some(TradingDecision(Buy, token, HighScoreEntry, analysis.confidence, size, strategy, analysis));
      } else if analysis.overallScore >= 70.0 && analysis.entryTiming == WaitDip {
        if token.address !in watchlist {
          watchlist := watchlist + [token.address];
        }
        d := None;
      } else {
        d := None;
      }
    }

    /**
     * The state after a buy: a fresh position at the token's price for the
     * suggested quantity, opened in the ledger as `Portfolio.Opened` says,
     * and one more trade on the agent's count.
     */
    twostate predicate Bought(d: TradingDecision, now: real)
      reads this, portfolio, portfolio.positions.Values
    {
      && d.token.address in portfolio.positions
      && var p := portfolio.positions[d.token.address];
      && fresh(p)
      && p.tokenSymbol == d.token.symbol && p.tokenAddress == d.token.address
      && p.entryPrice == d.token.priceUsd && p.currentPrice == d.token.priceUsd
      && p.quantity == d.suggestedAmount && p.entryTime == now
      && p.positionValueUsd == 0.0 && p.pnlUsd == 0.0 && p.pnlPercent == 0.0
      && portfolio.Opened(p)
      && totalTrades == old(totalTrades) + 1
      && successfulTrades == old(successfulTrades) && failedTrades == old(failedTrades)
      && totalProfit == old(totalProfit)
    }

    /**
     * The state after a sell of `p`, the position held under the token's
     * address: marked to the token's price, closed in the ledger as
     * `Portfolio.Closed` says, and its P&L scored as a win (positive) or a
     * loss and added to the profit.
     */
    twostate predicate Sold(d: TradingDecision, p: Position, now: real)
      reads this, portfolio, p
    {
      && d.token.address in old(portfolio.positions) && p == old(portfolio.positions)[d.token.address]
      && p.currentPrice == d.token.priceUsd && p.Priced()
      && portfolio.Closed(d.token.address, p, d.token.priceUsd, ReasonText(d.reason), now)
      && totalTrades == old(totalTrades)
      && (p.pnlUsd > 0.0 ==> successfulTrades == old(successfulTrades) + 1 && failedTrades == old(failedTrades))
      && (p.pnlUsd <= 0.0 ==> failedTrades == old(failedTrades) + 1 && successfulTrades == old(successfulTrades))
      && totalProfit == old(totalProfit) + p.pnlUsd
    }

    /**
     * A buy opens a position (value 0 until its next price update) when a
     * slot and the capital are there and the cash covers the cost.
     */
    method ExecuteBuy(d: TradingDecision, now: real) returns (ok: bool)
      requires Valid()
      modifies this, portfolio
      ensures Valid()
      ensures !ok ==> unchanged(this) && unchanged(portfolio)
      ensures analyzedTokens == old(analyzedTokens) && watchlist == old(watchlist)
      ensures strategyPreference == old(strategyPreference)
      ensures ok <==> && old(|portfolio.positions|) < MaxPositions
                      && CapitalAfterReserve(old(portfolio.TotalValue())) > MinPositionCapital
                      && d.token.priceUsd * d.suggestedAmount <= old(portfolio.currentBalance)
      ensures ok ==> Bought(d, now)
    {
      var canOpen := CanOpenPosition();
      if !canOpen {
        return false;
      }
      var position := new Position(d.token.symbol, d.token.address, d.token.priceUsd, d.token.priceUsd,
                                   d.suggestedAmount, now);
      var cost := position.entryPrice * position.quantity;
      if cost > portfolio.currentBalance {
        return false;
      }
      portfolio.AddPosition(position);
      totalTrades := totalTrades + 1;
      ok := true;
    }

    /** A sell closes the held position at the token's price and scores the trade by its P&L. */
    method ExecuteSell(d: TradingDecision, now: real) returns (ok: bool)
      requires Valid()
      modifies this, portfolio
      modifies if d.token.address in portfolio.positions then {portfolio.positions[d.token.address]} else {}
      ensures Valid()
      ensures !ok ==> unchanged(this) && unchanged(portfolio)
      ensures analyzedTokens == old(analyzedTokens) && watchlist == old(watchlist)
      ensures strategyPreference == old(strategyPreference)
      ensures ok <==> d.token.address in old(portfolio.positions)
      ensures ok ==> Sold(d, old(portfolio.positions)[d.token.address], now)
    {
      var address := d.token.address;
      if address !in portfolio.positions {
        ok := portfolio.ClosePosition(address, d.token.priceUsd, ReasonText(d.reason), now);
        return;
      }
      var position := portfolio.positions[address];
      position.UpdatePrice(d.token.priceUsd);
      var pnl := position.pnlUsd;
      ok := portfolio.ClosePosition(address, d.token.priceUsd, ReasonText(d.reason), now);
      assert position.pnlUsd == pnl;
      RecordOutcome(pnl);
    }

    /** Scores a closed trade: a win when its P&L is positive, a loss otherwise; adds the P&L to the profit. */
    method RecordOutcome(pnl: real)
      modifies this`successfulTrades, this`failedTrades, this`totalProfit
      ensures pnl > 0.0 ==> successfulTrades == old(successfulTrades) + 1 && failedTrades == old(failedTrades)
      ensures pnl <= 0.0 ==> failedTrades == old(failedTrades) + 1 && successfulTrades == old(successfulTrades)
      ensures totalProfit == old(totalProfit) + pnl
    {
      if pnl > 0.0 {
        successfulTrades := successfulTrades + 1;
      } else {
        failedTrades := failedTrades + 1;
      }
      totalProfit := totalProfit + pnl;
    }

    /** Carries out a buy or a sell; a hold does nothing and reports failure. */
    method ExecuteDecision(d: TradingDecision, now: real) returns (ok: bool)
      requires Valid()
      modifies this, portfolio
      modifies if d.token.address in portfolio.positions then {portfolio.positions[d.token.address]} else {}
      ensures Valid()
      ensures d.action == Hold ==> !ok
      ensures !ok ==> unchanged(this) && unchanged(portfolio)
      ensures analyzedTokens == old(analyzedTokens) && watchlist == old(watchlist)
      ensures strategyPreference == old(strategyPreference)
      ensures d.action == Buy ==>
                (ok <==> && old(|portfolio.positions|) < MaxPositions
                         && CapitalAfterReserve(old(portfolio.TotalValue())) > MinPositionCapital
                         && d.token.priceUsd * d.suggestedAmount <= old(portfolio.currentBalance))
      ensures d.action == Buy && ok ==> Bought(d, now)
      ensures d.action == Sell ==> (ok <==> d.token.address in old(portfolio.positions))
      ensures d.action == Sell && ok ==> Sold(d, old(portfolio.positions)[d.token.address], now)
    {
      match d.action {
        case Buy =>
          ok := ExecuteBuy(d, now);
        case Sell =>
          ok := ExecuteSell(d, now);
        case Hold =>
          ok := false;
      }
    }
  }
}
