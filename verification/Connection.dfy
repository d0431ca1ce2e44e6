/**
 * The price-hub connection effect of src/components/BTCChart.jsx: the variables its closures
 * share (attempt counter, fallback flag and timer, first-live-price flag, the simulated price)
 * and the connection status it reports, driven by events — a start attempt failing or
 * succeeding, the hub closing, reconnecting or reconnecting successfully, a fallback tick, a
 * price message. The hub client itself is not modelled; `Math.random` draws are parameters in
 * [0, 1).
 */
module Connection {
  import opened Wrappers
  import opened Aggregation
  import opened Bets
  import opened Feed
  import opened Game

  datatype Status = Connecting | Connected | Disconnected | Fallback

  /** `maxRetries` */
  const MaxRetries: int := 3
  /** `retryDelay`, in milliseconds */
  const RetryDelay: int := 1000
  const PriceFloor: real := 50000.0
  const PriceCeiling: real := 100000.0

  /** `Math.max(50000, Math.min(100000, price))` */
  function Clamp(price: real): (r: real)
    ensures PriceFloor <= r <= PriceCeiling
    ensures PriceFloor <= price <= PriceCeiling ==> r == price
    ensures price < PriceFloor ==> r == PriceFloor
    ensures price > PriceCeiling ==> r == PriceCeiling
  {
    var upper := if PriceCeiling < price then PriceCeiling else price;
    if PriceFloor > upper then PriceFloor else upper
  }

  /** The delay before the next attempt after `attempts` failures: none after the first. */
  function RetryDelayAfter(attempts: int): (ms: int)
    ensures ms == 0 <==> attempts == 1
    ensures ms != 0 ==> ms == RetryDelay
  {
    if attempts == 1 then 0 else RetryDelay
  }

  /** The simulated price when the fallback starts: 65000 to 75000. */
  function FallbackStartPrice(draw: real): (p: real)
    requires 0.0 <= draw < 1.0
    ensures 65000.0 <= p < 75000.0
  {
    65000.0 + draw * 10000.0
  }

  /** One step of the simulated walk: a move of 0.1% to 2% up or down, then the clamp. */
  function NextFallbackPrice(price: real, volatilityDraw: real, directionDraw: real): (p: real)
    ensures PriceFloor <= p <= PriceCeiling
  {
    var volatility := 0.001 + volatilityDraw * 0.019;
    var direction := if directionDraw > 0.5 then 1.0 else -1.0;
    Clamp(price + price * volatility * direction)
  }

  /** Multiplying by a non-negative factor keeps the order. */
  lemma ScaleMonotone(k: real, a: real, b: real)
    requires 0.0 <= k && a <= b
    ensures k * a <= k * b
  {
    assert k * b - k * a == k * (b - a);
  }

  /** From a price inside the band, one step moves the price by at most 2%. */
  lemma FallbackStepBounded(price: real, volatilityDraw: real, directionDraw: real)
    requires PriceFloor <= price <= PriceCeiling && 0.0 <= volatilityDraw < 1.0
    ensures var p := NextFallbackPrice(price, volatilityDraw, directionDraw);
      price - price * 0.02 <= p <= price + price * 0.02
  {
    var volatility := 0.001 + volatilityDraw * 0.019;
    var direction := if directionDraw > 0.5 then 1.0 else -1.0;
    ScaleMonotone(price, 0.0, volatility);
    ScaleMonotone(price, volatility, 0.02);
    var move := price * volatility;
    assert 0.0 <= move;
    assert move <= price * 0.02;
    var q := price + price * volatility * direction;
    if directionDraw > 0.5 {
      assert q == price + move;
    } else {
      assert q == price - move;
    }
    assert price - price * 0.02 <= q <= price + price * 0.02;
  }

  /** The simulated round's open price: up to 100 either side of the simulated price. */
  function FallbackOpenPrice(price: real, draw: real): (open: real)
    requires 0.0 <= draw < 1.0
    ensures price - 100.0 < open <= price + 100.0
  {
    price - (draw * 200.0 - 100.0)
  }

  /** The fallback tick's test for settling bets, reading the connection status `status`. */
  predicate FallbackResolves(status: Status, draw: real, activeCount: int)
  {
    status == Disconnected && draw > 0.95 && activeCount > 0
  }

  /**
   * The initial `connectionStatus`, which is also the one the connection effect's closures
   * capture: the effect runs once, on mount.
   */
  const StatusAtMount: Status := Connecting

  class Supervisor {
    var connectionAttempts: int
    var isUsingFallback: bool
    /** Whether the fallback interval timer exists. */
    var fallbackTimer: bool
    var hasReceivedFirstRealData: bool
    /** The simulated price of the fallback walk. */
    var currentPrice: real
    /** `connectionStatus.status` */
    var status: Status
    /**
     * The `connectionStatus` the effect's closures captured. The effect runs once, so this is
     * the status at mount, whatever `status` later becomes.
     */
    var capturedStatus: Status

    /**
     * The captured status stays the mount-time one, the fallback flag and its timer go together,
     * and the simulated price stays in the band.
     */
    predicate Valid()
      reads this
    {
      && connectionAttempts >= 0 && capturedStatus == StatusAtMount
      && fallbackTimer == isUsingFallback
      && (isUsingFallback ==> PriceFloor <= currentPrice <= PriceCeiling)
    }

    constructor ()
      ensures Valid()
      ensures connectionAttempts == 0 && !isUsingFallback && !fallbackTimer
      ensures !hasReceivedFirstRealData && status == StatusAtMount && capturedStatus == StatusAtMount
    {
      connectionAttempts, isUsingFallback, fallbackTimer := 0, false, false;
      hasReceivedFirstRealData, currentPrice, status, capturedStatus := false, 0.0, Connecting, Connecting;
    }

    /** `startFallbackData`: a no-op in fallback; otherwise the walk starts and its timer is set. */
    method StartFallbackData(draw: real)
      requires Valid() && 0.0 <= draw < 1.0
      modifies this`isUsingFallback, this`fallbackTimer, this`status, this`currentPrice
      ensures Valid() && isUsingFallback && fallbackTimer
      ensures old(isUsingFallback) ==> status == old(status) && currentPrice == old(currentPrice)
      ensures !old(isUsingFallback) ==> status == Fallback && currentPrice == FallbackStartPrice(draw)
    {
      if isUsingFallback {
        return;
      }
      isUsingFallback := true;
      status := Fallback;
      currentPrice := FallbackStartPrice(draw);
      fallbackTimer := true;
    }

    /** `stopFallbackData`: acts only when a fallback timer exists; it then reports Connected. */
    method StopFallbackData()
      requires Valid()
      modifies this`isUsingFallback, this`fallbackTimer, this`status
      ensures Valid() && !isUsingFallback && !fallbackTimer
      ensures old(fallbackTimer) ==> status == Connected
      ensures !old(fallbackTimer) ==> status == old(status)
    {
      if fallbackTimer {
        fallbackTimer := false;
        isUsingFallback := false;
        status := Connected;
      }
    }

    /**
     * One run of `startConnection`, whose hub start succeeded or failed. Success resets the
     * attempt counter. A failure counts an attempt; at the third the fallback starts and no retry
     * is scheduled, before it a retry is due after `retryAfter` milliseconds.
     */
    method StartConnection(succeeded: bool, draw: real) returns (retryAfter: Option<int>)
      requires Valid() && 0.0 <= draw < 1.0
      modifies this`connectionAttempts, this`isUsingFallback, this`fallbackTimer, this`status,
               this`currentPrice
      ensures Valid()
      ensures succeeded ==>
        && connectionAttempts == 0 && status == Connected && retryAfter == None
        && isUsingFallback == old(isUsingFallback) && currentPrice == old(currentPrice)
      ensures !succeeded ==> connectionAttempts == old(connectionAttempts) + 1
      ensures !succeeded && connectionAttempts >= MaxRetries ==>
        && retryAfter == None && isUsingFallback
        && (old(isUsingFallback) ==> status == Connecting && currentPrice == old(currentPrice))
        && (!old(isUsingFallback) ==> status == Fallback && currentPrice == FallbackStartPrice(draw))
      ensures !succeeded && connectionAttempts < MaxRetries ==>
        && retryAfter == Some(RetryDelayAfter(connectionAttempts)) && status == Connecting
        && isUsingFallback == old(isUsingFallback) && currentPrice == old(currentPrice)
    {
      status := Connecting;
      if succeeded {
        connectionAttempts := 0;
        status := Connected;
        return None;
      }
      connectionAttempts := connectionAttempts + 1;
      if connectionAttempts >= MaxRetries {
        StartFallbackData(draw);
        retryAfter := None;
      } else {
        retryAfter := Some(RetryDelayAfter(connectionAttempts));
      }
    }

    /**
     * The hub closed: with an error the status becomes Disconnected; then, outside fallback and
     * after three attempts, the fallback starts.
     */
    method OnClose(withError: bool, draw: real)
      requires Valid() && 0.0 <= draw < 1.0
      modifies this`isUsingFallback, this`fallbackTimer, this`status, this`currentPrice
      ensures Valid() && connectionAttempts == old(connectionAttempts)
      ensures !old(isUsingFallback) && connectionAttempts >= MaxRetries ==>
        isUsingFallback && status == Fallback && currentPrice == FallbackStartPrice(draw)
      ensures !(!old(isUsingFallback) && connectionAttempts >= MaxRetries) ==>
        && isUsingFallback == old(isUsingFallback) && currentPrice == old(currentPrice)
        && status == (if withError then Disconnected else old(status))
    {
      if withError {
        status := Disconnected;
      }
      if !isUsingFallback && connectionAttempts >= MaxRetries {
        StartFallbackData(draw);
      }
    }

    /** The hub is reconnecting: one more attempt, reported as Connecting. */
    method OnReconnecting()
      requires Valid()
      modifies this`connectionAttempts, this`status
      ensures Valid()
      ensures connectionAttempts == old(connectionAttempts) + 1 && status == Connecting
    {
      connectionAttempts := connectionAttempts + 1;
      status := Connecting;
    }

    /** The hub reconnected: the counter resets and any fallback stops. */
    method OnReconnected()
      requires Valid()
      modifies this`connectionAttempts, this`isUsingFallback, this`fallbackTimer, this`status
      ensures Valid()
      ensures connectionAttempts == 0 && status == Connected && !isUsingFallback && !fallbackTimer
    {
      connectionAttempts := 0;
      status := Connected;
      StopFallbackData();
    }

    /** The effect's cleanup on unmount stops any fallback. */
    method Teardown()
      requires Valid()
      modifies this`isUsingFallback, this`fallbackTimer, this`status
      ensures Valid() && !isUsingFallback && !fallbackTimer
      ensures old(fallbackTimer) ==> status == Connected
      ensures !old(fallbackTimer) ==> status == old(status)
    {
      StopFallbackData();
    }

    /**
     * One tick of the fallback interval as written (it fires only while the timer exists): the
     * walk takes a step, the new price goes into the ledger and becomes the round's close price,
     * with an open price up to 100 away. The settling test reads the captured mount-time status,
     * which is never Disconnected, so the tick never settles a bet.
     */
    method FallbackTick(chart: Chart, volatilityDraw: real, directionDraw: real, openDraw: real,
                        resolveDraw: real, now: int)
      requires Valid() && chart.Valid() && fallbackTimer
      requires 0.0 <= volatilityDraw < 1.0 && 0.0 <= directionDraw < 1.0
      requires 0.0 <= openDraw < 1.0 && 0.0 <= resolveDraw < 1.0
      modifies this`currentPrice, chart`rawData, chart`open1Min, chart`close1Min, chart`balance,
               chart`activeBets, chart`bettingHistory, chart`isResolvingBets, chart`selectedBet
      ensures Valid() && chart.Valid()
      ensures currentPrice == NextFallbackPrice(old(currentPrice), volatilityDraw, directionDraw)
      ensures chart.rawData == AppendPrice(old(chart.rawData), Raw(currentPrice, now))
      ensures chart.open1Min == Some(FallbackOpenPrice(currentPrice, openDraw))
      ensures chart.close1Min == Some(currentPrice)
      ensures chart.BetsUnchanged(old(chart.balance), old(chart.activeBets), old(chart.bettingHistory),
                                  old(chart.isResolvingBets), old(chart.selectedBet))
    {
      currentPrice := NextFallbackPrice(currentPrice, volatilityDraw, directionDraw);
      chart.TakeFallbackPrice(currentPrice, FallbackOpenPrice(currentPrice, openDraw),
                              capturedStatus == Disconnected && resolveDraw > 0.95, now);
    }

    /**
     * The fallback tick as evidently intended: as `FallbackTick`, except that the settling test
     * reads the current status, so while the hub is reported disconnected, with a draw above
     * 0.95, the active bets are settled at the new price.
     */
    method FallbackTickIntended(chart: Chart, volatilityDraw: real, directionDraw: real,
                                openDraw: real, resolveDraw: real, now: int)
      requires Valid() && chart.Valid() && fallbackTimer
      requires 0.0 <= volatilityDraw < 1.0 && 0.0 <= directionDraw < 1.0
      requires 0.0 <= openDraw < 1.0 && 0.0 <= resolveDraw < 1.0
      modifies this`currentPrice, chart`rawData, chart`open1Min, chart`close1Min, chart`balance,
               chart`activeBets, chart`bettingHistory, chart`isResolvingBets, chart`selectedBet
      ensures Valid() && chart.Valid()
      ensures currentPrice == NextFallbackPrice(old(currentPrice), volatilityDraw, directionDraw)
      ensures chart.rawData == AppendPrice(old(chart.rawData), Raw(currentPrice, now))
      ensures chart.open1Min == Some(FallbackOpenPrice(currentPrice, openDraw))
      ensures chart.close1Min == Some(currentPrice)
      ensures FallbackResolves(status, resolveDraw, |old(chart.activeBets)|) ==>
        chart.ResolvedFrom(old(chart.balance), old(chart.activeBets), old(chart.bettingHistory),
                           old(chart.isResolvingBets), old(chart.selectedBet),
                           Some(currentPrice), None, now)
      ensures !FallbackResolves(status, resolveDraw, |old(chart.activeBets)|) ==>
        chart.BetsUnchanged(old(chart.balance), old(chart.activeBets), old(chart.bettingHistory),
                            old(chart.isResolvingBets), old(chart.selectedBet))
    {
      currentPrice := NextFallbackPrice(currentPrice, volatilityDraw, directionDraw);
      chart.TakeFallbackPrice(currentPrice, FallbackOpenPrice(currentPrice, openDraw),
                              status == Disconnected && resolveDraw > 0.95, now);
    }

    /**
     * The `ReceivePrice` handler. Any message stops the fallback; the first readable stream
     * price also marks live data as received, and the chart replaces its mock ledger. The chart
     * handles the message as `Chart.ReceiveMessage` says.
     */
    method ReceivePrice(chart: Chart, msg: PriceMessage, now: int)
      requires Valid() && chart.Valid()
      modifies this`isUsingFallback, this`fallbackTimer, this`status, this`hasReceivedFirstRealData,
               chart`rawData, chart`open1Min, chart`close1Min, chart`lastProcessedCandle,
               chart`resultHistory, chart`balance, chart`activeBets, chart`bettingHistory,
               chart`isResolvingBets, chart`selectedBet
      ensures Valid() && chart.Valid() && !isUsingFallback && !fallbackTimer
      ensures old(fallbackTimer) ==> status == Connected
      ensures !old(fallbackTimer) ==> status == old(status)
      ensures hasReceivedFirstRealData == (old(hasReceivedFirstRealData) || StreamPrices(msg).Some?)
      ensures StreamPrices(msg).Some? ==>
        && chart.rawData == AppendPrice(if old(hasReceivedFirstRealData) then old(chart.rawData)
                                        else FirstRealData(StreamPrices(msg).value.0, now),
                                        Raw(StreamPrices(msg).value.0, now))
        && chart.open1Min == Some(StreamPrices(msg).value.1)
        && chart.close1Min == Some(StreamPrices(msg).value.0)
      ensures StreamPrices(msg).None? ==>
        && chart.rawData == old(chart.rawData)
        && chart.open1Min == old(chart.open1Min) && chart.close1Min == old(chart.close1Min)
      ensures chart.CandleHandledFrom(msg, false, now, old(chart.lastProcessedCandle),
                                      old(chart.resultHistory), old(chart.balance),
                                      old(chart.activeBets), old(chart.bettingHistory),
                                      old(chart.isResolvingBets), old(chart.selectedBet))
    {
      StopFallbackData();
      var firstLive := !hasReceivedFirstRealData && StreamPrices(msg).Some?;
      if firstLive {
        hasReceivedFirstRealData := true;
      }
      chart.ReceiveMessage(msg, firstLive, now);
    }
  }
}
