/** Types shared by every part of the analysis and paper-trading layer. */
module Common {

  datatype Option<T> = None | Some(value: T)

  /** A dollar amount, volume or price reported by the market-data feed; never negative. */
  type Amount = r: real | 0.0 <= r

  function Abs(x: real): (r: real)
    ensures r >= 0.0 && (r == x || r == -x)
  {
    if x < 0.0 then -x else x
  }

  function Max(a: real, b: real): (r: real)
    ensures r >= a && r >= b && (r == a || r == b)
  {
    if a >= b then a else b
  }

  function Min(a: real, b: real): (r: real)
    ensures r <= a && r <= b && (r == a || r == b)
  {
    if a <= b then a else b
  }

  /**
   * One snapshot of a trading pair as the DexScreener client delivers it.
   * `ageHours` is the pair's age at the moment of analysis (now minus its
   * creation time); it is None when the creation time cannot be used.
   */
  datatype TokenData = TokenData(
    address: string,
    symbol: string,
    name: string,
    priceUsd: Amount,
    priceChange24h: real,
    volume24h: Amount,
    liquidityUsd: Amount,
    marketCap: Amount,
    ageHours: Option<real>)
}
