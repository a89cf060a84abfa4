/** The risk predicates of the pipeline.  Each returns the status of the rejection,
    or None when the signal passes. */
module Risk {
  import opened Types

  const SECOND := 1_000_000
  const DAY := 86_400 * SECOND
  const FUTURE_TOLERANCE_SECONDS := 5

  function CheckFreshness(timestamp: int, maxAgeSeconds: int, now: int): (r: Option<Status>)
  {
    var age := now - timestamp;
    if age > maxAgeSeconds * SECOND then Some(RejectedStale)
    else if age < -FUTURE_TOLERANCE_SECONDS * SECOND then Some(RejectedFutureTimestamp)
    else None
  }

  function CheckRiskPercent(riskPercent: real, maxRiskPercent: real): (r: Option<Status>)
  {
    if riskPercent <= 0.0 || riskPercent > maxRiskPercent then Some(RejectedRisk) else None
  }

  function CheckStopLoss(action: Action, stopLoss: Option<real>, entryPrice: real, require: bool): (r: Option<Status>)
  {
    match stopLoss
    case None => if require then Some(RejectedStopLoss) else None
    case Some(sl) =>
      if action == Buy && sl >= entryPrice then Some(RejectedStopLoss)
      else if action == Sell && sl <= entryPrice then Some(RejectedStopLoss)
      else None
  }

  function CheckSpread(bid: real, ask: real, point: real, maxSpreadPoints: int): (r: Option<Status>)
  {
    if bid <= 0.0 || ask <= 0.0 || point <= 0.0 || ask < bid then Some(RejectedSpread)
    else if (ask - bid) / point > maxSpreadPoints as real then Some(RejectedSpread)
    else None
  }

  function CheckDailyTradeLimit(tradesToday: int, maxTradesPerDay: int): (r: Option<Status>)
  {
    if tradesToday >= maxTradesPerDay then Some(RejectedDailyTradeLimit) else None
  }

  function CheckPositionLimit(openPositions: int, maxOpenPositions: int): (r: Option<Status>)
  {
    if openPositions >= maxOpenPositions then Some(RejectedPositionLimit) else None
  }

  function CheckDailyLoss(equity: real, baseline: real, maxLossPercent: real): (r: Option<Status>)
  {
    if baseline <= 0.0 then Some(RejectedDailyLoss)
    else if (baseline - equity) / baseline * 100.0 >= maxLossPercent then Some(RejectedDailyLoss)
    else None
  }

  /** The broker-clock day and the instant it starts, both from the broker's own time. */
  function TradingDayKey(brokerNow: int): int {
    brokerNow / DAY
  }

  function StartOfTradingDay(brokerNow: int): int {
    brokerNow - brokerNow % DAY
  }

  /** `d` is the midnight that begins the day of `t`, in microseconds. */
  predicate IsMidnightOf(d: int, t: int) {
    d % 86_400_000_000 == 0 && d <= t < d + 86_400_000_000
  }

  /** The day start is that midnight and no other instant is, and the day key is its day. */
  lemma DayStartIsMidnight(t: int)
    ensures forall d :: IsMidnightOf(d, t) <==> d == StartOfTradingDay(t)
    ensures TradingDayKey(t) == t / 86_400_000_000
  {
  }

  /** Two broker times share a day start exactly when they share a day key, and a day
      start is the only midnight at or before the time and less than a day away. */
  lemma DayStartAndKeyAgree(t: int, u: int)
    ensures StartOfTradingDay(t) == TradingDayKey(t) * DAY
    ensures StartOfTradingDay(t) <= t < StartOfTradingDay(t) + DAY
    ensures StartOfTradingDay(t) == StartOfTradingDay(u) <==> TradingDayKey(t) == TradingDayKey(u)
  {
  }
}
