/**
 * The paper-trading ledger: positions whose value and P&L follow the last
 * price, a portfolio holding a cash balance, the open positions keyed by
 * token address and an append-only trade history, and the portfolio
 * manager's buy, sell and sizing rules.
 */
module Ledger {
  import opened Common

  /** The sum of the values of a map keyed by token address. */
  ghost function Sum(m: map<string, real>): real
    decreases |m|
  {
    if m == map[] then 0.0
    else
      var k :| k in m;
      m[k] + Sum(m - {k})
  }

  /** Any entry may be taken out first: the sum does not depend on the order of the keys. */
  lemma {:induction false} SumPeel(m: map<string, real>, x: string)
    requires x in m
    ensures Sum(m) == m[x] + Sum(m - {x})
    decreases |m|
  {
    var k :| k in m && Sum(m) == m[k] + Sum(m - {k});
    if k != x {
      SumPeel(m - {k}, x);
      SumPeel(m - {x}, k);
      assert m - {k} - {x} == m - {x} - {k};
    }
  }

  /** Adding a fresh entry adds its value to the sum. */
  lemma SumAdd(m: map<string, real>, x: string, v: real)
    requires x !in m
    ensures Sum(m[x := v]) == Sum(m) + v
  {
    SumPeel(m[x := v], x);
    assert m[x := v] - {x} == m;
  }

  /** P&L as a percentage of the cost basis; 0 when there is no positive cost basis. */
  function PnlPercent(pnl: real, cost: real): (r: real)
    ensures cost > 0.0 ==> (r > 0.0 <==> pnl > 0.0) && (r == 0.0 <==> pnl == 0.0)
    ensures cost <= 0.0 ==> r == 0.0
  {
    if cost > 0.0 then (pnl / cost) * 100.0 else 0.0
  }

  /** The percentage, applied to the cost basis, gives back the P&L. */
  lemma PnlPercentScales(pnl: real, cost: real)
    requires cost > 0.0
    ensures PnlPercent(pnl, cost) * cost == pnl * 100.0
  {
  }

  /** A paper position in one token. */
  class Position {
    const tokenSymbol: string
    const tokenAddress: string
    const entryPrice: real
    const quantity: real
    const entryTime: real
    var currentPrice: real
    var positionValueUsd: real
    var pnlUsd: real
    var pnlPercent: real

    /** What was paid for the position. */
    function CostBasis(): real
    {
      quantity * entryPrice
    }

    /** The value and P&L fields agree with the current price. */
    ghost predicate Priced()
      reads this
    {
      && positionValueUsd == quantity * currentPrice
      && pnlUsd == positionValueUsd - CostBasis()
      && pnlPercent == PnlPercent(pnlUsd, CostBasis())
    }

    /** A new position: value and P&L keep their default 0 until the first price update. */
    constructor (symbol: string, address: string, entry: real, current: real, qty: real, time: real)
      ensures tokenSymbol == symbol && tokenAddress == address
      ensures entryPrice == entry && currentPrice == current && quantity == qty && entryTime == time
      ensures positionValueUsd == 0.0 && pnlUsd == 0.0 && pnlPercent == 0.0
    {
      tokenSymbol, tokenAddress := symbol, address;
      entryPrice, currentPrice, quantity, entryTime := entry, current, qty, time;
      positionValueUsd, pnlUsd, pnlPercent := 0.0, 0.0, 0.0;
    }

    /** Marks the position to `newPrice`. */
    method UpdatePrice(newPrice: real)
      modifies this
      ensures currentPrice == newPrice && Priced()
      ensures pnlUsd == quantity * newPrice - quantity * entryPrice
      ensures quantity > 0.0 ==> (pnlUsd > 0.0 <==> newPrice > entryPrice)
    {
      currentPrice := newPrice;
      positionValueUsd := quantity * currentPrice;
      var costBasis := quantity * entryPrice;
      pnlUsd := positionValueUsd - costBasis;
      pnlPercent := if costBasis > 0.0 then (pnlUsd / costBasis) * 100.0 else 0.0;
    }
  }

  datatype TradeAction = BuyAction | SellAction

  /** An immutable record in the trade history. */
  datatype Trade = Trade(
    timestamp: real,
    action: TradeAction,
    tokenSymbol: string,
    tokenAddress: string,
    price: real,
    quantity: real,
    valueUsd: real,
    reason: string)

  class Portfolio {
    var startingBalance: real
    var currentBalance: real
    var positions: map<string, Position>
    var tradeHistory: seq<Trade>
    var totalRealizedPnl: real
    var totalUnrealizedPnl: real
    var winCount: nat
    var lossCount: nat

    /** Every position is stored under its own token address (so no two keys share a position). */
    ghost predicate Valid()
      reads this`positions
    {
      forall a :: a in positions ==> positions[a].tokenAddress == a
    }

    ghost function PositionValues(): map<string, real>
      reads this`positions, positions.Values
    {
      map a | a in positions :: positions[a].positionValueUsd
    }

    /** Cash plus the recorded value of every open position. */
    ghost function TotalValue(): real
      reads this`currentBalance, this`positions, positions.Values
    {
      currentBalance + Sum(PositionValues())
    }

    /** The P&L of the positions that a price update reaches. */
    ghost function UpdatedPnl(updates: map<string, real>): map<string, real>
      reads this, positions.Values
    {
      map a | a in positions && a in updates :: positions[a].pnlUsd
    }

    /**
     * The ledger after opening `p`: it is stored under its address, its cost
     * basis is paid, one buy is appended to the history, and the starting
     * balance, P&L totals and win/loss counts stay as they were.
     */
    twostate predicate Opened(new p: Position)
      reads this
    {
      && positions == old(positions)[p.tokenAddress := p]
      && currentBalance == old(currentBalance) - p.CostBasis()
      && tradeHistory == old(tradeHistory) + [Trade(p.entryTime, BuyAction, p.tokenSymbol, p.tokenAddress,
                                                    p.entryPrice, p.quantity, p.CostBasis(), "Initial position")]
      && startingBalance == old(startingBalance) && totalRealizedPnl == old(totalRealizedPnl)
      && totalUnrealizedPnl == old(totalUnrealizedPnl)
      && winCount == old(winCount) && lossCount == old(lossCount)
    }

    /**
     * The ledger after selling the whole of `p`, marked to `sellPrice`, out
     * of `address`: its value is credited, its P&L realized and counted as a
     * win (positive) or a loss, one sell is appended to the history, and the
     * starting balance and unrealized P&L stay as they were.
     */
    twostate predicate Closed(address: string, p: Position, sellPrice: real, reason: string, now: real)
      reads this, p
    {
      && positions == old(positions) - {address}
      && currentBalance == old(currentBalance) + p.positionValueUsd
      && totalRealizedPnl == old(totalRealizedPnl) + p.pnlUsd
      && (p.pnlUsd > 0.0 ==> winCount == old(winCount) + 1 && lossCount == old(lossCount))
      && (p.pnlUsd <= 0.0 ==> lossCount == old(lossCount) + 1 && winCount == old(winCount))
      && tradeHistory == old(tradeHistory) + [Trade(now, SellAction, p.tokenSymbol, address, sellPrice,
                                                    p.quantity, p.positionValueUsd, reason)]
      && startingBalance == old(startingBalance) && totalUnrealizedPnl == old(totalUnrealizedPnl)
    }

    constructor (balance: real)
      ensures Valid()
      ensures startingBalance == balance && currentBalance == balance
      ensures positions == map[] && tradeHistory == []
      ensures totalRealizedPnl == 0.0 && totalUnrealizedPnl == 0.0
      ensures winCount == 0 && lossCount == 0
    {
      startingBalance, currentBalance := balance, balance;
      positions, tradeHistory := map[], [];
      totalRealizedPnl, totalUnrealizedPnl := 0.0, 0.0;
      winCount, lossCount := 0, 0;
    }

    /** Opens `p`: stores it, pays its cost basis and records one buy. */
    method AddPosition(p: Position)
      requires Valid()
      modifies this
      ensures Valid()
      ensures Opened(p)
      ensures PositionValues() == old(PositionValues())[p.tokenAddress := p.positionValueUsd]
    {
      positions := positions[p.tokenAddress := p];
      currentBalance := currentBalance - p.quantity * p.entryPrice;
      var trade := Trade(p.entryTime, BuyAction, p.tokenSymbol, p.tokenAddress,
                         p.entryPrice, p.quantity, p.quantity * p.entryPrice, "Initial position");
      tradeHistory := tradeHistory + [trade];
    }

    /** Takes the entry for `address` out of the map and hands back its position. */
    method Detach(address: string) returns (position: Position)
      requires Valid() && address in positions
      modifies this`positions
      ensures Valid()
      ensures position == old(positions)[address] && positions == old(positions) - {address}
      ensures position !in positions.Values
      ensures PositionValues() == old(PositionValues()) - {address}
    {
      position := positions[address];
      ghost var before := PositionValues();
      positions := positions - {address};
      assert PositionValues() == before - {address};
      forall a | a in positions ensures positions[a] != position {
        assert positions[a].tokenAddress == a;
      }
    }

    /** Books a sale of the whole of `position`: cash, realized P&L, win or loss count, history. */
    method RecordSale(position: Position, sellPrice: real, reason: string, now: real)
      modifies this`currentBalance, this`totalRealizedPnl, this`winCount, this`lossCount, this`tradeHistory
      ensures currentBalance == old(currentBalance) + position.positionValueUsd
      ensures totalRealizedPnl == old(totalRealizedPnl) + position.pnlUsd
      ensures position.pnlUsd > 0.0 ==> winCount == old(winCount) + 1 && lossCount == old(lossCount)
      ensures position.pnlUsd <= 0.0 ==> lossCount == old(lossCount) + 1 && winCount == old(winCount)
      ensures tradeHistory == old(tradeHistory) + [Trade(now, SellAction, position.tokenSymbol, position.tokenAddress,
                                                         sellPrice, position.quantity, position.positionValueUsd, reason)]
    {
      currentBalance := currentBalance + position.positionValueUsd;
      totalRealizedPnl := totalRealizedPnl + position.pnlUsd;
      if position.pnlUsd > 0.0 {
        winCount := winCount + 1;
      } else {
        lossCount := lossCount + 1;
      }
      var trade := Trade(now, SellAction, position.tokenSymbol, position.tokenAddress, sellPrice,
                         position.quantity, position.positionValueUsd, reason);
      tradeHistory := tradeHistory + [trade];
    }

    /**
     * Sells the whole position held in `address` at `sellPrice`. Returns
     * false, changing nothing, when no position is held there.
     */
    method ClosePosition(address: string, sellPrice: real, reason: string, now: real) returns (ok: bool)
      requires Valid()
      modifies this, (if address in positions then {positions[address]} else {})
      ensures Valid()
      ensures ok <==> address in old(positions)
      ensures !ok ==> unchanged(this)
      ensures ok ==>
        var p := old(positions)[address];
        && p.currentPrice == sellPrice && p.Priced()
        && Closed(address, p, sellPrice, reason, now)
        && PositionValues() == old(PositionValues()) - {address}
    {
      if address !in positions {
        return false;
      }
      var position := Detach(address);
      ghost var rest := PositionValues();
      position.UpdatePrice(sellPrice);
      assert PositionValues() == rest;
      RecordSale(position, sellPrice, reason, now);
      return true;
    }

    /** Marks the position held under `a` to `price`; every other position is left as it was. */
    method MarkPosition(a: string, price: real)
      requires Valid() && a in positions
      modifies positions[a]
      ensures positions[a].currentPrice == price && positions[a].Priced()
      ensures forall b :: b in positions && b != a ==> unchanged(positions[b])
    {
      var p := positions[a];
      forall b | b in positions && b != a ensures positions[b] != p {
        assert positions[b].tokenAddress == b;
      }
      p.UpdatePrice(price);
    }

    /**
     * Marks every held position that `updates` names to its new price and
     * recomputes the unrealized P&L as the P&L of exactly those positions.
     */
    method UpdateAllPrices(updates: map<string, real>)
      requires Valid()
      modifies this`totalUnrealizedPnl, positions.Values
      ensures Valid()
      ensures forall a :: a in positions && a in updates ==>
                positions[a].currentPrice == updates[a] && positions[a].Priced()
      ensures forall a :: a in positions && a !in updates ==> unchanged(positions[a])
      ensures totalUnrealizedPnl == Sum(UpdatedPnl(updates))
    {
      totalUnrealizedPnl := 0.0;
      var todo := positions.Keys;
      ghost var ps := positions;
      ghost var done: map<string, real> := map[];
      while todo != {}
        invariant positions == ps && todo <= ps.Keys
        invariant forall a :: a in done <==> a in ps && a !in todo && a in updates
        invariant forall a :: a in ps ==>
                    if a in done then ps[a].currentPrice == updates[a] && ps[a].Priced() && done[a] == ps[a].pnlUsd
                    else unchanged(ps[a])
        invariant totalUnrealizedPnl == Sum(done)
        decreases todo
      {
        var a :| a in todo;
        if a in updates {
          MarkPosition(a, updates[a]);
          SumAdd(done, a, ps[a].pnlUsd);
          done := done[a := ps[a].pnlUsd];
          totalUnrealizedPnl := totalUnrealizedPnl + positions[a].pnlUsd;
        }
        todo := todo - {a};
      }
      assert done == UpdatedPnl(updates);
    }

    /** Cash plus the recorded value of every open position. */
    method GetTotalValue() returns (total: real)
      requires Valid()
      ensures total == TotalValue()
    {
      var sum := 0.0;
      var todo := positions.Keys;
      ghost var done: map<string, real> := map[];
      while todo != {}
        invariant todo <= positions.Keys
        invariant done.Keys == positions.Keys - todo
        invariant forall a :: a in done ==> done[a] == positions[a].positionValueUsd
        invariant sum == Sum(done)
        decreases todo
      {
        var a :| a in todo;
        var grown := done[a := positions[a].positionValueUsd];
        SumPeel(grown, a);
        assert grown - {a} == done;
        done := grown;
        sum := sum + positions[a].positionValueUsd;
        todo := todo - {a};
      }
      assert done == PositionValues();
      total := currentBalance + sum;
    }

    /** Winning closes as a percentage of all closes; 0 before the first close. */
    function WinRate(): (r: real)
      reads this
      ensures 0.0 <= r <= 100.0
      ensures winCount + lossCount == 0 ==> r == 0.0
      ensures winCount + lossCount > 0 ==> r * (winCount + lossCount) as real == winCount as real * 100.0
    {
      var total := winCount + lossCount;
      if total > 0 then (winCount as real / total as real) * 100.0 else 0.0
    }
  }

  /**
   * Buying a position and selling it again at its entry price restores the
   * cash balance, leaves the realized P&L alone and counts one loss.
   */
  method RoundTripAtEntry(pf: Portfolio, p: Position, now: real) returns (ok: bool)
    requires pf.Valid()
    modifies pf, p
    ensures ok && pf.Valid()
    ensures pf.currentBalance == old(pf.currentBalance)
    ensures pf.totalRealizedPnl == old(pf.totalRealizedPnl)
    ensures pf.lossCount == old(pf.lossCount) + 1 && pf.winCount == old(pf.winCount)
    ensures pf.positions == old(pf.positions) - {p.tokenAddress}
    ensures |pf.tradeHistory| == |old(pf.tradeHistory)| + 2
  {
    ghost var balance := pf.currentBalance;
    pf.AddPosition(p);
    assert pf.positions[p.tokenAddress] == p;
    assert pf.currentBalance == balance - p.CostBasis();
    ok := pf.ClosePosition(p.tokenAddress, p.entryPrice, "Take profit", now);
    assert p.pnlUsd == 0.0;
  }

  /** The portfolio manager's entry, exit and sizing rules. */
  class PortfolioManager {
    const portfolio: Portfolio
    const maxPositions: int
    const positionSizePercent: real

    constructor (startingBalance: real)
      ensures fresh(portfolio) && portfolio.Valid()
      ensures portfolio.startingBalance == startingBalance && portfolio.currentBalance == startingBalance
      ensures portfolio.positions == map[] && portfolio.tradeHistory == []
      ensures maxPositions == 10 && positionSizePercent == 10.0
    {
      portfolio := new Portfolio(startingBalance);
      maxPositions := 10;
      positionSizePercent := 10.0;
    }

    /**
     * Never buys at the position limit or at extreme risk; otherwise buys a
     * score of 85 or more, or of 75 or more when the risk is low.
     */
    function ShouldBuy(opportunityScore: real, riskLevel: string, currentPositions: int): (buy: bool)
      ensures currentPositions >= maxPositions ==> !buy
      ensures riskLevel == "extreme" ==> !buy
      ensures currentPositions < maxPositions && riskLevel != "extreme" ==>
                (buy <==> opportunityScore >= 85.0 || (opportunityScore >= 75.0 && riskLevel == "low"))
    {
      if currentPositions >= maxPositions then false
      else if riskLevel == "extreme" then false
      else if opportunityScore >= 85.0 then true
      else if opportunityScore >= 75.0 && riskLevel == "low" then true
      else false
    }

    /**
     * Marks the position to `currentPrice`, then checks the stop loss at -20%
     * before the take profit at +50% before the 24-hour exit on gains under 10%.
     */
    method ShouldSell(position: Position, currentPrice: real, now: real) returns (sell: bool, reason: string)
      modifies position
      ensures position.currentPrice == currentPrice && position.Priced()
      ensures position.pnlPercent <= -20.0 ==> sell && reason == "Stop loss triggered (-20%)"
      ensures -20.0 < position.pnlPercent && position.pnlPercent >= 50.0 ==>
                sell && reason == "Take profit target reached (+50%)"
      ensures -20.0 < position.pnlPercent < 50.0 ==>
                (sell <==> now - position.entryTime > 24.0 && position.pnlPercent < 10.0)
      ensures sell && -20.0 < position.pnlPercent < 50.0 ==> reason == "24hr time exit with low gains"
      ensures !sell ==> reason == ""
    {
      position.UpdatePrice(currentPrice);
      if position.pnlPercent <= -20.0 {
        return true, "Stop loss triggered (-20%)";
      }
      if position.pnlPercent >= 50.0 {
        return true, "Take profit target reached (+50%)";
      }
      var hoursHeld := now - position.entryTime;
      if hoursHeld > 24.0 && position.pnlPercent < 10.0 {
        return true, "24hr time exit with low gains";
      }
      return false, "";
    }

    /** The quantity whose cost is 10% of the cash balance; 0 for a non-positive price. */
    function CalculatePositionSize(tokenPrice: real): (quantity: real)
      reads portfolio
      ensures tokenPrice <= 0.0 ==> quantity == 0.0
      ensures tokenPrice > 0.0 ==> quantity * tokenPrice == portfolio.currentBalance * positionSizePercent / 100.0
    {
      var positionValue := portfolio.currentBalance * (positionSizePercent / 100.0);
      if tokenPrice > 0.0 then positionValue / tokenPrice else 0.0
    }
  }
}
