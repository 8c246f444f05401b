/**
 * The live price tracker: a 24-hour window of price points per token,
 * percent change against the latest point at or before a cutoff, the
 * volume trend over recent points, and pump, dump and volume-spike alerts.
 * Timestamps are hours on one clock; `now` is a parameter.
 */
module PriceTracking {
  import opened Common

  datatype PricePoint = PricePoint(timestamp: real, price: real, volume: Amount, liquidity: Amount, marketCap: Amount)

  /** Hours of history a token keeps. */
  const WindowHours: real := 24.0

  /** The points stamped strictly after `cutoff`, in order. */
  function Recent(points: seq<PricePoint>, cutoff: real): (r: seq<PricePoint>)
    ensures |r| <= |points|
    decreases |points|
  {
    if points == [] then []
    else
      var last := points[|points| - 1];
      Recent(points[..|points| - 1], cutoff) + (if last.timestamp > cutoff then [last] else [])
  }

  /** Exactly the points stamped after the cutoff are kept. */
  lemma {:induction false} RecentMembers(points: seq<PricePoint>, cutoff: real)
    ensures forall p :: p in Recent(points, cutoff) <==> p in points && p.timestamp > cutoff
    decreases |points|
  {
    if points != [] {
      var init := points[..|points| - 1];
      assert points == init + [points[|points| - 1]];
      RecentMembers(init, cutoff);
    }
  }

  /** The points stamped at or before `cutoff`, in order. */
  function AtOrBefore(points: seq<PricePoint>, cutoff: real): (r: seq<PricePoint>)
    ensures |r| <= |points|
    decreases |points|
  {
    if points == [] then []
    else
      var last := points[|points| - 1];
      AtOrBefore(points[..|points| - 1], cutoff) + (if last.timestamp <= cutoff then [last] else [])
  }

  /** Exactly the points stamped at or before the cutoff are kept. */
  lemma {:induction false} AtOrBeforeMembers(points: seq<PricePoint>, cutoff: real)
    ensures forall p :: p in AtOrBefore(points, cutoff) <==> p in points && p.timestamp <= cutoff
    decreases |points|
  {
    if points != [] {
      var init := points[..|points| - 1];
      assert points == init + [points[|points| - 1]];
      AtOrBeforeMembers(init, cutoff);
    }
  }

  function Last<T>(s: seq<T>): T
    requires s != []
  {
    s[|s| - 1]
  }

  /**
   * The last point at or before the cutoff is the one with the highest
   * index among them: every later point is stamped after the cutoff.
   */
  lemma {:induction false} LatestAtOrBefore(points: seq<PricePoint>, cutoff: real)
    requires AtOrBefore(points, cutoff) != []
    ensures exists k :: 0 <= k < |points| && points[k] == Last(AtOrBefore(points, cutoff))
                        && points[k].timestamp <= cutoff
                        && forall j :: k < j < |points| ==> points[j].timestamp > cutoff
    decreases |points|
  {
    var n := |points|;
    var init := points[..n - 1];
    assert points == init + [points[n - 1]];
    if points[n - 1].timestamp <= cutoff {
      assert Last(AtOrBefore(points, cutoff)) == points[n - 1];
      assert n - 1 < |points| && points[n - 1] == Last(AtOrBefore(points, cutoff));
    } else {
      assert AtOrBefore(points, cutoff) == AtOrBefore(init, cutoff);
      LatestAtOrBefore(init, cutoff);
      var k :| 0 <= k < |init| && init[k] == Last(AtOrBefore(init, cutoff)) && init[k].timestamp <= cutoff
               && forall j :: k < j < |init| ==> init[j].timestamp > cutoff;
      assert points[k] == init[k];
      forall j | k < j < n
        ensures points[j].timestamp > cutoff
      {
        if j < n - 1 {
          assert points[j] == init[j];
        }
      }
    }
  }

  function VolumeTotal(points: seq<PricePoint>): (r: real)
    ensures r >= 0.0
    decreases |points|
  {
    if points == [] then 0.0 else VolumeTotal(points[..|points| - 1]) + points[|points| - 1].volume
  }

  /** Mean volume of the later half over the mean of the earlier half plus one; no divisor can vanish. */
  function HalvesRatio(points: seq<PricePoint>): (ratio: real)
    requires |points| >= 2
    ensures ratio >= 0.0
  {
    var mid := |points| / 2;
    var firstAvg := VolumeTotal(points[..mid]) / mid as real;
    var secondAvg := VolumeTotal(points[mid..]) / (|points| - mid) as real;
    secondAvg / (firstAvg + 1.0)
  }

  datatype VolumeReading = Increasing | Decreasing | Stable | InsufficientData

  /** The price history of one tracked token. */
  class PriceHistory {
    var token: TokenData
    var pricePoints: seq<PricePoint>

    constructor (t: TokenData)
      ensures token == t && pricePoints == []
    {
      token := t;
      pricePoints := [];
    }

    /** Appends a point, then drops every point not stamped within the last 24 hours. */
    method AddPoint(point: PricePoint, now: real)
      modifies this
      ensures token == old(token)
      ensures pricePoints == Recent(old(pricePoints) + [point], now - WindowHours)
      ensures forall p :: p in pricePoints ==> p.timestamp > now - WindowHours
      ensures point.timestamp > now - WindowHours ==> pricePoints != [] && Last(pricePoints) == point
    {
      pricePoints := pricePoints + [point];
      var cutoff := now - WindowHours;
      RecentMembers(pricePoints, cutoff);
      pricePoints := Recent(pricePoints, cutoff);
    }

    /**
     * Percent change from the latest point at or before `now - hours` to the
     * newest point; None with fewer than two points, no old enough point, or
     * an old price of 0.
     */
    function GetPriceChange(hours: real, now: real): (r: Option<real>)
      reads this
      ensures |pricePoints| < 2 ==> r == None
      ensures AtOrBefore(pricePoints, now - hours) == [] ==> r == None
      ensures r != None <==> |pricePoints| >= 2 && AtOrBefore(pricePoints, now - hours) != []
                             && Last(AtOrBefore(pricePoints, now - hours)).price != 0.0
    {
      if |pricePoints| < 2 then None
      else
        var oldPoints := AtOrBefore(pricePoints, now - hours);
        if oldPoints == [] then None
        else
          var oldPrice := Last(oldPoints).price;
          var currentPrice := Last(pricePoints).price;
          if oldPrice == 0.0 then None
          else Some((currentPrice - oldPrice) / oldPrice * 100.0)
    }

    /** A change, applied to the old price, gives back the move to the newest price, in percent. */
    lemma PriceChangeScales(hours: real, now: real)
      requires GetPriceChange(hours, now) != None
      ensures var oldPrice := Last(AtOrBefore(pricePoints, now - hours)).price;
              GetPriceChange(hours, now).value * oldPrice == (Last(pricePoints).price - oldPrice) * 100.0
    {
    }

    /**
     * Compares the mean volume of the later half of the points stamped after
     * `now - hours` with the earlier half, at 1.5 and 0.7.
     */
    function GetVolumeTrend(hours: real, now: real): (v: VolumeReading)
      reads this
      ensures v == InsufficientData <==> |pricePoints| < 2 || |Recent(pricePoints, now - hours)| < 2
      ensures v == Increasing <==>
                |pricePoints| >= 2 && |Recent(pricePoints, now - hours)| >= 2
                && HalvesRatio(Recent(pricePoints, now - hours)) > 1.5
      ensures v == Decreasing <==>
                |pricePoints| >= 2 && |Recent(pricePoints, now - hours)| >= 2
                && HalvesRatio(Recent(pricePoints, now - hours)) < 0.7
    {
      if |pricePoints| < 2 then InsufficientData
      else
        var recent := Recent(pricePoints, now - hours);
        if |recent| < 2 then InsufficientData
        else
          var ratio := HalvesRatio(recent);
          if ratio > 1.5 then Increasing
          else if ratio < 0.7 then Decreasing
          else Stable
    }
  }

  /** A reading of "increasing" means the later half really traded more on average than the earlier half. */
  lemma IncreasingMeansHigherLaterVolume(points: seq<PricePoint>)
    requires |points| >= 2
    requires HalvesRatio(points) > 1.5
    ensures VolumeTotal(points[|points| / 2..]) / (|points| - |points| / 2) as real
              > VolumeTotal(points[..|points| / 2]) / (|points| / 2) as real
  {
    var mid := |points| / 2;
    var firstAvg := VolumeTotal(points[..mid]) / mid as real;
    var secondAvg := VolumeTotal(points[mid..]) / (|points| - mid) as real;
    var ratio := HalvesRatio(points);
    assert firstAvg >= 0.0;
    assert ratio * (firstAvg + 1.0) == secondAvg;
    assert (ratio - 1.5) * (firstAvg + 1.0) > 0.0;
  }

  // ---------------------------------------------------------------------------
  // Alerts

  datatype AlertKind = Pump | Dump | VolumeSpike

  datatype Severity = High | Medium

  datatype Alert = Alert(kind: AlertKind, token: TokenData, change1h: real, severity: Severity)

  /** A pump or dump alert for a one-hour move beyond 20%, high severity beyond 50%. */
  function MoveAlert(token: TokenData, change: real): (r: Option<Alert>)
    ensures r != None <==> Abs(change) > 20.0
    ensures r != None ==> r.value.token == token && r.value.change1h == change
    ensures r != None ==> (r.value.kind == Pump <==> change > 0.0) && r.value.kind != VolumeSpike
    ensures r != None ==> (r.value.severity == High <==> Abs(change) > 50.0)
  {
    if Abs(change) > 20.0 then
      Some(Alert(if change > 0.0 then Pump else Dump, token, change, if Abs(change) > 50.0 then High else Medium))
    else None
  }

  /** A medium volume-spike alert when volume is rising and the one-hour change exceeds 10%. */
  function SpikeAlert(token: TokenData, change: real, trend: VolumeReading): (r: Option<Alert>)
    ensures r != None <==> trend == Increasing && change > 10.0
    ensures r != None ==> r.value == Alert(VolumeSpike, token, change, Medium)
  {
    if trend == Increasing && change > 10.0 then Some(Alert(VolumeSpike, token, change, Medium)) else None
  }

  function OptionToSeq<T>(o: Option<T>): (s: seq<T>)
    ensures |s| <= 1
    ensures o == None <==> s == []
    ensures o != None ==> s == [o.value]
  {
    match o
    case None => []
    case Some(x) => [x]
  }

  /** The alerts of one token: none without a one-hour change, else its move alert then its spike alert. */
  function TokenAlerts(token: TokenData, change: Option<real>, trend: VolumeReading): (r: seq<Alert>)
    ensures change == None ==> r == []
    ensures |r| <= 2
    ensures forall a :: a in r ==> a.token == token && change == Some(a.change1h) && Abs(a.change1h) > 10.0
  {
    match change
    case None => []
    case Some(c) => OptionToSeq(MoveAlert(token, c)) + OptionToSeq(SpikeAlert(token, c, trend))
  }

  /** One token's alerts from its one-hour change and volume trend. */
  method CheckTokenAlerts(token: TokenData, change1h: Option<real>, volumeTrend: VolumeReading)
    returns (tokenAlerts: seq<Alert>)
    ensures tokenAlerts == TokenAlerts(token, change1h, volumeTrend)
  {
    tokenAlerts := [];
    if change1h != None {
      var change := change1h.value;
      if Abs(change) > 20.0 {
        var kind := if change > 0.0 then Pump else Dump;
        tokenAlerts := tokenAlerts + [Alert(kind, token, change, if Abs(change) > 50.0 then High else Medium)];
      }
      if volumeTrend == Increasing && change > 10.0 {
        tokenAlerts := tokenAlerts + [Alert(VolumeSpike, token, change, Medium)];
      }
    }
  }

  /** Tracks price histories by token address, in the order the tokens were added. */
  class LivePriceTracker {
    var tracked: map<string, PriceHistory>
    /** The tracked addresses in insertion order. */
    var order: seq<string>

    /** Every listed address is tracked. */
    ghost predicate Listed()
      reads this
    {
      forall i :: 0 <= i < |order| ==> order[i] in tracked
    }

    /** The order lists exactly the tracked addresses, each once. */
    ghost predicate Valid()
      reads this
    {
      && (forall i, j :: 0 <= i < j < |order| ==> order[i] != order[j])
      && Listed()
      && (forall a :: a in tracked ==> a in order)
    }

    constructor ()
      ensures Valid() && tracked == map[] && order == []
    {
      tracked, order := map[], [];
    }

    /** Starts an empty history for a new address; an address already tracked keeps its history. */
    method AddToken(token: TokenData)
      requires Valid()
      modifies this
      ensures Valid()
      ensures token.address in old(tracked) ==> tracked == old(tracked) && order == old(order)
      ensures token.address !in old(tracked) ==>
                && token.address in tracked
                && fresh(tracked[token.address])
                && tracked[token.address].token == token && tracked[token.address].pricePoints == []
                && tracked == old(tracked)[token.address := tracked[token.address]]
                && order == old(order) + [token.address]
    {
      if token.address !in tracked {
        var history := new PriceHistory(token);
        tracked := tracked[token.address := history];
        order := order + [token.address];
      }
    }

    /** Stops tracking an address; an address not tracked changes nothing. */
    method RemoveToken(address: string)
      requires Valid()
      modifies this
      ensures Valid()
      ensures address !in old(tracked) ==> tracked == old(tracked) && order == old(order)
      ensures tracked == old(tracked) - {address} && address !in order
      ensures forall a :: a in order <==> a in old(order) && a != address
      ensures address in old(tracked) ==> order == Without(old(order), address)
    {
      if address in tracked {
        var rest := Without(order, address);
        forall i | 0 <= i < |rest|
          ensures rest[i] in old(order) && rest[i] != address
        {
          assert rest[i] in rest;
        }
        tracked := tracked - {address};
        order := rest;
      }
    }

    /** The alerts of the tracked tokens listed in `addresses`, in that order. */
    ghost function AlertsOver(addresses: seq<string>, now: real): seq<Alert>
      reads this, tracked.Values
      decreases |addresses|
    {
      if addresses == [] then []
      else
        var a := addresses[|addresses| - 1];
        AlertsOver(addresses[..|addresses| - 1], now)
          + (if a in tracked then AlertsOf(a, now) else [])
    }

    /** One tracked token's alerts, from its one-hour price change and volume trend. */
    ghost function AlertsOf(a: string, now: real): seq<Alert>
      requires a in tracked
      reads this, tracked[a]
    {
      var h := tracked[a];
      TokenAlerts(h.token, h.GetPriceChange(1.0, now), h.GetVolumeTrend(1.0, now))
    }

    lemma {:induction false} AlertsOverStep(addresses: seq<string>, i: nat, now: real)
      requires i < |addresses| && addresses[i] in tracked
      ensures AlertsOver(addresses[..i + 1], now)
              == AlertsOver(addresses[..i], now) + AlertsOf(addresses[i], now)
    {
      assert addresses[..i + 1][..i] == addresses[..i];
    }

    /** Every alert reports a one-hour move of more than 10% in one direction or the other. */
    lemma {:induction false} AlertsAreSignificant(addresses: seq<string>, now: real)
      ensures forall al :: al in AlertsOver(addresses, now) ==> Abs(al.change1h) > 10.0
      decreases |addresses|
    {
      if addresses != [] {
        AlertsAreSignificant(addresses[..|addresses| - 1], now);
      }
    }

    /** Collects the alerts of every tracked token, skipping tokens without a one-hour change. */
    method GetAlerts(now: real) returns (alerts: seq<Alert>)
      requires Listed()
      ensures alerts == AlertsOver(order, now)
    {
      alerts := [];
      for i := 0 to |order|
        invariant alerts == AlertsOver(order[..i], now)
      {
        var history := tracked[order[i]];
        var change1h := history.GetPriceChange(1.0, now);
        var volumeTrend := history.GetVolumeTrend(1.0, now);
        AlertsOverStep(order, i, now);
        var tokenAlerts := CheckTokenAlerts(history.token, change1h, volumeTrend);
        alerts := alerts + tokenAlerts;
      }
      assert order[..|order|] == order;
    }
  }

  /** `s` without any occurrence of `x`, other elements in order. */
  function Without(s: seq<string>, x: string): (r: seq<string>)
    ensures forall a :: a in r <==> a in s && a != x
    ensures (forall i, j :: 0 <= i < j < |s| ==> s[i] != s[j]) ==> (forall i, j :: 0 <= i < j < |r| ==> r[i] != r[j])
    decreases |s|
  {
    if s == [] then []
    else
      var init := Without(s[..|s| - 1], x);
      var last := s[|s| - 1];
      assert (forall i, j :: 0 <= i < j < |s| ==> s[i] != s[j]) ==> last !in init by {
        if forall i, j :: 0 <= i < j < |s| ==> s[i] != s[j] {
          var prefix := s[..|s| - 1];
          assert forall k :: 0 <= k < |prefix| ==> prefix[k] == s[k] && s[k] != last;
          assert last !in prefix;
        }
      }
      init + (if last == x then [] else [last])
  }
}
