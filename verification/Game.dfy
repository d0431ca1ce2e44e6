/**
 * The state of the chart game (src/components/BTCChart.jsx): the raw price ledger and the points
 * shown for the selected timeframe, the round's open and close prices, the player's balance and
 * bets, and the candle trend history. React state cells and refs are the fields of one `Chart`;
 * each handler or effect body is a method, and timers firing are methods called as events.
 * Clock readings are parameters.
 */
module Game {
  import opened Wrappers
  import opened Aggregation
  import opened Bets
  import opened Feed

  const InitialBalance: int := 2000
  const InitialBetAmount: int := 100
  /** `maxRawDataPoints`: the ledger keeps the most recent 1000 points. */
  const MaxRawDataPoints: int := 1000
  /** `DATA_LENGTH` */
  const DataLength: int := 60

  /** `[...prev, point].slice(-1000)`: the point goes last and the oldest points fall off. */
  function AppendPrice(raw: seq<ChartPoint>, p: ChartPoint): (r: seq<ChartPoint>)
    ensures |r| == if |raw| + 1 < MaxRawDataPoints then |raw| + 1 else MaxRawDataPoints
    ensures r[|r| - 1] == p
    ensures r[..|r| - 1] == raw[|raw| + 1 - |r|..]
  {
    var s := raw + [p];
    var r := Last(s, MaxRawDataPoints);
    assert r[..|r| - 1] == raw[|raw| + 1 - |r|..] by {
      assert forall i :: 0 <= i < |r| - 1 ==> r[i] == s[|s| - |r| + i] == raw[|raw| + 1 - |r| + i];
    }
    r
  }

  /**
   * The ledger that replaces the mock data on the first live price: 60 copies of that price, one
   * second apart, the last one a second before `now`.
   */
  function FirstRealData(close: real, now: int): (r: seq<ChartPoint>)
    ensures |r| == DataLength
    ensures forall i :: 0 <= i < |r| ==> r[i] == Raw(close, r[i].time)
    ensures r[|r| - 1].time == now - OneSecond
    ensures forall i :: 0 < i < |r| ==> r[i].time == r[i - 1].time + OneSecond
  {
    seq(DataLength, i requires 0 <= i < DataLength => Raw(close, now - (DataLength - i) * OneSecond))
  }

  /**
   * The bet-amount input: `Math.max(1, parseInt(text) || 1)`, where `parsed` is what `parseInt`
   * read (`None` for NaN). A reading below 1 gives 1, any other reading is kept.
   */
  function BetAmountInput(parsed: Option<int>): (a: int)
    ensures a >= 1
    ensures parsed.Some? && parsed.value >= 1 ==> a == parsed.value
    ensures parsed.None? || parsed.value < 1 ==> a == 1
  {
    var n := if parsed.Some? && parsed.value != 0 then parsed.value else 1;
    if n > 1 then n else 1
  }

  /** The betting timer's delay: 60 intervals of the selected timeframe, or 60 s by default. */
  function BettingInterval(timeframe: string): (ms: int)
    ensures ms >= 60000
    ensures TimeframeInterval(timeframe) > 0 ==> ms == 60 * TimeframeInterval(timeframe)
    ensures TimeframeInterval(timeframe) == 0 ==> ms == 60000
  {
    var interval := TimeframeInterval(timeframe);
    if interval != 0 then interval * 60 else 60000
  }

  /** `latestPriceRef`: the value of the last point shown, if any. */
  function LatestPrice(data: seq<ChartPoint>): (p: Option<real>)
    ensures p.Some? <==> |data| > 0
    ensures p.Some? ==> p.value == data[|data| - 1].value
  {
    if |data| > 0 then Some(data[|data| - 1].value) else None
  }

  class Chart {
    var rawData: seq<ChartPoint>
    var data: seq<ChartPoint>
    var selectedTimeframe: string
    var open1Min: Option<real>
    var close1Min: Option<real>
    var openTimestamp: Option<int>
    var balance: int
    var betAmount: int
    var selectedBet: Option<string>
    var activeBets: seq<Bet>
    var bettingHistory: seq<SettledBet>
    var isResolvingBets: bool
    var resultHistory: seq<TrendResult>
    var lastProcessedCandle: Option<string>

    /**
     * The invariant the handlers keep: bounded ledger and histories, a non-negative balance, a
     * bet amount of at least 1, at most one active bet, placed in the current round, and no
     * placement time or candle recorded twice.
     */
    predicate Valid()
      reads this
    {
      LedgerValid() && AccountValid() && BetsValid() && HistoriesValid()
    }

    predicate LedgerValid()
      reads this`rawData
    {
      |rawData| <= MaxRawDataPoints
    }

    predicate AccountValid()
      reads this`balance, this`betAmount
    {
      0 <= balance && 1 <= betAmount
    }

    predicate BetsValid()
      reads this`activeBets, this`openTimestamp, this`open1Min
    {
      && |activeBets| <= 1
      && (forall b :: b in activeBets ==> b.openTimestamp == openTimestamp && b.amount >= 1)
      && (activeBets != [] ==> open1Min.Some?)
    }

    predicate HistoriesValid()
      reads this`bettingHistory, this`resultHistory
    {
      && |bettingHistory| <= HistoryCap && DistinctPlacedAt(bettingHistory)
      && |resultHistory| <= TrendCap && NoDuplicateCandles(resultHistory)
    }

    /** The mount state; the 60 mock points of each series are drawn at random, so they are parameters. */
    constructor (mockRaw: seq<ChartPoint>, mockData: seq<ChartPoint>)
      requires |mockRaw| == DataLength && |mockData| == DataLength
      ensures Valid()
      ensures rawData == mockRaw && data == mockData && selectedTimeframe == "1s"
      ensures open1Min == None && close1Min == None && openTimestamp == None
      ensures balance == InitialBalance && betAmount == InitialBetAmount && selectedBet == None
      ensures activeBets == [] && bettingHistory == [] && !isResolvingBets
      ensures resultHistory == [] && lastProcessedCandle == None
    {
      rawData, data, selectedTimeframe := mockRaw, mockData, "1s";
      open1Min, close1Min, openTimestamp := None, None, None;
      balance, betAmount, selectedBet := InitialBalance, InitialBetAmount, None;
      activeBets, bettingHistory, isResolvingBets := [], [], false;
      resultHistory, lastProcessedCandle := [], None;
    }

    /** `addNewPriceData`: the price, stamped with the current time, goes last in the ledger. */
    method AddNewPriceData(newPrice: real, now: int)
      requires Valid()
      modifies this`rawData
      ensures Valid()
      ensures rawData == AppendPrice(old(rawData), Raw(newPrice, now))
    {
      rawData := Last(rawData + [Raw(newPrice, now)], MaxRawDataPoints);
    }

    /**
     * The first live price replaces the mock ledger with 60 points at that price, one second
     * apart, the last a second before `now`.
     */
    method ReplaceWithRealData(close: real, now: int)
      requires Valid()
      modifies this`rawData
      ensures Valid()
      ensures rawData == FirstRealData(close, now)
    {
      rawData := FirstRealData(close, now);
    }

    /** A live or simulated price sets the round's open and close prices together. */
    method SetRoundPrices(open: real, close: real)
      requires Valid()
      modifies this`open1Min, this`close1Min
      ensures Valid() && open1Min == Some(open) && close1Min == Some(close)
    {
      open1Min, close1Min := Some(open), Some(close);
    }

    /** The timeframe buttons. */
    method SelectTimeframe(timeframe: string)
      requires Valid()
      modifies this`selectedTimeframe
      ensures Valid() && selectedTimeframe == timeframe
    {
      selectedTimeframe := timeframe;
    }

    /**
     * The aggregation effect, run after the ledger or the timeframe changes: for a known
     * timeframe and a non-empty ledger the shown points become the hierarchical aggregation.
     */
    method RefreshData()
      requires Valid()
      modifies this`data
      ensures Valid()
      ensures TimeframeInterval(selectedTimeframe) == 0 || rawData == [] ==> data == old(data)
      ensures TimeframeInterval(selectedTimeframe) != 0 && rawData != [] ==> |data| <= DataPoints
      ensures rawData != [] && selectedTimeframe == "1s" ==> data == Last(rawData, DataPoints)
      ensures rawData != [] && selectedTimeframe == "15s" ==>
        data == Last(Aggregation.Aggregation(rawData, FifteenSeconds), DataPoints)
      ensures rawData != [] && selectedTimeframe == "30s" ==>
        data == Last(Aggregation.Aggregation(Aggregation.Aggregation(rawData, FifteenSeconds), ThirtySeconds), DataPoints)
      ensures rawData != [] && selectedTimeframe == "1m" ==>
        data == Last(Aggregation.Aggregation(Aggregation.Aggregation(Aggregation.Aggregation(rawData, FifteenSeconds), ThirtySeconds), OneMinute), DataPoints)
    {
      if TimeframeInterval(selectedTimeframe) == 0 || |rawData| == 0 {
        return;
      }
      data := GetHierarchicalData(rawData, selectedTimeframe);
    }

    /** The bet-amount input's change handler. */
    method SetBetAmount(parsed: Option<int>)
      requires Valid()
      modifies this`betAmount
      ensures Valid() && betAmount == BetAmountInput(parsed)
    {
      betAmount := BetAmountInput(parsed);
    }

    /**
     * The round-opening effect: while there is no open price, the last shown value becomes the
     * open price and the round is stamped with the current time. Once set, the open price is
     * never cleared, so the stamp is taken once.
     */
    method OpenRound(now: int)
      requires Valid()
      modifies this`open1Min, this`openTimestamp
      ensures Valid()
      ensures old(open1Min).None? && |data| > 0 ==>
        open1Min == LatestPrice(data) && openTimestamp == Some(now)
      ensures !(old(open1Min).None? && |data| > 0) ==>
        open1Min == old(open1Min) && openTimestamp == old(openTimestamp)
    {
      if open1Min.None? && |data| > 0 {
        open1Min := Some(data[|data| - 1].value);
        openTimestamp := Some(now);
      }
    }

    /**
     * The betting timer firing: it is armed while the round has an open price and no close
     * price, and then records the latest shown value as the close price.
     */
    method CloseTimerFires()
      requires Valid()
      modifies this`close1Min
      ensures Valid()
      ensures open1Min.Some? && old(close1Min).None? ==> close1Min == LatestPrice(data)
      ensures !(open1Min.Some? && old(close1Min).None?) ==> close1Min == old(close1Min)
    {
      if open1Min.Some? && close1Min.None? {
        close1Min := LatestPrice(data);
      }
    }

    /**
     * `placeBet`: refused (nothing changes) for an amount outside 1..balance, before the round
     * has an open price, or when a bet of this round is active; otherwise the stake is debited
     * and one bet at the open price is appended. `now` is the clock reading used as id and
     * placement time.
     */
    method PlaceBet(direction: string, now: int) returns (placed: bool)
      requires Valid()
      modifies this`balance, this`activeBets, this`selectedBet, this`isResolvingBets
      ensures Valid()
      ensures placed <==>
        && 0 < betAmount <= old(balance) && open1Min.Some?
        && (forall b :: b in old(activeBets) ==> b.openTimestamp != openTimestamp)
      ensures old(activeBets) != [] ==> !placed
      ensures placed ==>
        && balance == old(balance) - betAmount
        && activeBets == old(activeBets) + [Bet(now, direction, betAmount, open1Min.value, openTimestamp, now)]
        && selectedBet == Some(direction) && !isResolvingBets
      ensures !placed ==>
        && balance == old(balance) && activeBets == old(activeBets)
        && selectedBet == old(selectedBet) && isResolvingBets == old(isResolvingBets)
    {
      if betAmount <= 0 || betAmount > balance {
        return false;
      }
      if open1Min.None? {
        return false;
      }
      OnlyBetOfRound(activeBets, openTimestamp);
      if exists b :: b in activeBets && b.openTimestamp == openTimestamp {
        return false;
      }
      var newBet := Bet(now, direction, betAmount, open1Min.value, openTimestamp, now);
      balance := balance - betAmount;
      activeBets := activeBets + [newBet];
      selectedBet := Some(direction);
      isResolvingBets := false;
      placed := true;
    }

    /** The betting fields are as given. */
    predicate BetsUnchanged(balance0: int, bets0: seq<Bet>, history0: seq<SettledBet>, flag0: bool,
                            selected0: Option<string>)
      reads this
    {
      && balance == balance0 && activeBets == bets0 && bettingHistory == history0
      && isResolvingBets == flag0 && selectedBet == selected0
    }

    /**
     * The state `resolveBets(finalPrice, trend)` leaves, given the fields before the call: nothing
     * changes while a resolution is in progress or no bet is active; otherwise the flag is set,
     * the balance is credited with every positive winning, the bets are cleared and the settled
     * bets are merged into the history.
     */
    predicate ResolvedFrom(balance0: int, bets0: seq<Bet>, history0: seq<SettledBet>, flag0: bool,
                           selected0: Option<string>, finalPrice: Option<real>,
                           trend: Option<string>, now: int)
      reads this
    {
      if flag0 || bets0 == [] then
        BetsUnchanged(balance0, bets0, history0, flag0, selected0)
      else
        && isResolvingBets && activeBets == [] && selectedBet == None
        && balance == balance0 + TotalCredit(SettleAll(bets0, finalPrice, trend, now))
        && bettingHistory == MergeHistory(history0, SettleAll(bets0, finalPrice, trend, now))
    }

    /** `resolveBets`: the settling loop over a copy of the active bets. */
    method ResolveBets(finalPrice: Option<real>, trend: Option<string>, now: int)
      requires Valid()
      modifies this`balance, this`activeBets, this`bettingHistory, this`isResolvingBets, this`selectedBet
      ensures Valid()
      ensures ResolvedFrom(old(balance), old(activeBets), old(bettingHistory), old(isResolvingBets),
                           old(selectedBet), finalPrice, trend, now)
    {
      if isResolvingBets || |activeBets| == 0 {
        return;
      }
      ghost var balance0, bets0, history0 := balance, activeBets, bettingHistory;
      var newBettingHistory, credit := SettleBets(activeBets, finalPrice, trend, now);
      var history := MergeHistory(bettingHistory, newBettingHistory);
      assert DistinctPlacedAt(history) by {
        assert DistinctPlacedAt(newBettingHistory);
        MergeKeepsDistinct(bettingHistory, newBettingHistory);
      }
      isResolvingBets, balance, bettingHistory, activeBets, selectedBet :=
        true, balance + credit, history, [], None;
      assert balance == balance0 + TotalCredit(SettleAll(bets0, finalPrice, trend, now));
      assert bettingHistory == MergeHistory(history0, SettleAll(bets0, finalPrice, trend, now));
    }

    /**
     * The chart's side of a fallback tick: the simulated price goes into the ledger and becomes
     * the round's close price beside the simulated open price; when `settle` holds and bets are
     * active, they are settled at that price without a trend.
     */
    method TakeFallbackPrice(price: real, open: real, settle: bool, now: int)
      requires Valid()
      modifies this`rawData, this`open1Min, this`close1Min, this`balance, this`activeBets,
               this`bettingHistory, this`isResolvingBets, this`selectedBet
      ensures Valid()
      ensures rawData == AppendPrice(old(rawData), Raw(price, now))
      ensures open1Min == Some(open) && close1Min == Some(price)
      ensures settle && old(activeBets) != [] ==>
        ResolvedFrom(old(balance), old(activeBets), old(bettingHistory), old(isResolvingBets),
                     old(selectedBet), Some(price), None, now)
      ensures !(settle && old(activeBets) != []) ==>
        BetsUnchanged(old(balance), old(activeBets), old(bettingHistory), old(isResolvingBets),
                      old(selectedBet))
    {
      AddNewPriceData(price, now);
      SetRoundPrices(open, price);
      if settle && |activeBets| > 0 {
        ResolveBets(Some(price), None, now);
      }
    }

    /**
     * The stream branch of `ReceivePrice` on the chart: the price goes into the ledger — which is
     * first replaced by `FirstRealData` when `firstLive` holds — and sets the round's prices.
     */
    method TakeStreamPrice(close: real, open: real, firstLive: bool, now: int)
      requires Valid()
      modifies this`rawData, this`open1Min, this`close1Min
      ensures Valid()
      ensures rawData == AppendPrice(if firstLive then FirstRealData(close, now) else old(rawData),
                                     Raw(close, now))
      ensures open1Min == Some(open) && close1Min == Some(close)
    {
      if firstLive {
        ReplaceWithRealData(close, now);
      }
      AddNewPriceData(close, now);
      SetRoundPrices(open, close);
    }

    /**
     * `ReceivePrice` on the chart: a readable stream price is taken as `TakeStreamPrice` says,
     * and a candle is handled as `ReceiveCandle` says, its close price read with `parseFloat`; a
     * message is never both.
     */
    method ReceiveMessage(msg: PriceMessage, firstLive: bool, now: int)
      requires Valid()
      modifies this`rawData, this`open1Min, this`close1Min, this`lastProcessedCandle,
               this`resultHistory, this`balance, this`activeBets, this`bettingHistory,
               this`isResolvingBets, this`selectedBet
      ensures Valid()
      ensures StreamPrices(msg).Some? ==>
        && rawData == AppendPrice(if firstLive then FirstRealData(StreamPrices(msg).value.0, now)
                                  else old(rawData), Raw(StreamPrices(msg).value.0, now))
        && open1Min == Some(StreamPrices(msg).value.1)
        && close1Min == Some(StreamPrices(msg).value.0)
      ensures StreamPrices(msg).None? ==>
        rawData == old(rawData) && open1Min == old(open1Min) && close1Min == old(close1Min)
      ensures CandleHandledFrom(msg, false, now, old(lastProcessedCandle), old(resultHistory),
                                old(balance), old(activeBets), old(bettingHistory),
                                old(isResolvingBets), old(selectedBet))
    {
      ghost var last0, results0, balance0 := lastProcessedCandle, resultHistory, balance;
      ghost var bets0, history0, flag0, selected0 := activeBets, bettingHistory, isResolvingBets, selectedBet;
      StreamAndCandleExclusive(msg);
      var prices := StreamPrices(msg);
      if prices.Some? {
        TakeStreamPrice(prices.value.0, prices.value.1, firstLive, now);
      }
      ReceiveCandle(msg, now);
      assert CandleHandledFrom(msg, false, now, last0, results0, balance0, bets0, history0, flag0, selected0);
    }

    /** The flag-reset timer, two seconds after a resolution. */
    method ResolutionFlagTimerFires()
      requires Valid()
      modifies this`isResolvingBets
      ensures Valid() && !isResolvingBets
    {
      isResolvingBets := false;
    }

    /**
     * The candle branch of `ReceivePrice`, given the fields before the call: a candle with the
     * last processed id changes nothing; any other candle becomes the last processed one, is
     * recorded in the trend history unless already there, and, when bets are active and the
     * message has a trend, resolves them at the candle's close price with that trend. A message
     * without a trend throws while logging it, before the bets are resolved. The close price is
     * read with `parseFloat`, as written, or with the separators removed when `intended` holds.
     */
    predicate CandleHandledFrom(msg: PriceMessage, intended: bool, now: int, last0: Option<string>,
                                history0: seq<TrendResult>, balance0: int, bets0: seq<Bet>,
                                bettingHistory0: seq<SettledBet>, flag0: bool,
                                selected0: Option<string>)
      reads this
    {
      if !IsCandle(msg) || last0 == Some(CandleId(msg)) then
        && lastProcessedCandle == last0 && resultHistory == history0
        && BetsUnchanged(balance0, bets0, bettingHistory0, flag0, selected0)
      else
        && lastProcessedCandle == Some(CandleId(msg))
        && resultHistory == RecordTrend(history0, CandleResult(msg))
        && if bets0 != [] && msg.trend.Some? then
             ResolvedFrom(balance0, bets0, bettingHistory0, flag0, selected0,
                          if intended then CandleClose(msg.closePrice.value)
                          else CandleCloseAsWritten(msg.closePrice.value), msg.trend, now)
           else
             BetsUnchanged(balance0, bets0, bettingHistory0, flag0, selected0)
    }

    /** The candle branch, reading the close price as written or, when `intended` holds, as intended. */
    method HandleCandle(msg: PriceMessage, intended: bool, now: int)
      requires Valid()
      modifies this`lastProcessedCandle, this`resultHistory, this`balance, this`activeBets,
               this`bettingHistory, this`isResolvingBets, this`selectedBet
      ensures Valid()
      ensures CandleHandledFrom(msg, intended, now, old(lastProcessedCandle), old(resultHistory),
                                old(balance), old(activeBets), old(bettingHistory),
                                old(isResolvingBets), old(selectedBet))
    {
      if !IsCandle(msg) {
        return;
      }
      var candleId := CandleId(msg);
      if lastProcessedCandle == Some(candleId) {
        return;
      }
      lastProcessedCandle := Some(candleId);
      RecordTrendProperties(resultHistory, CandleResult(msg));
      resultHistory := RecordTrend(resultHistory, CandleResult(msg));
      if |activeBets| > 0 && msg.trend.Some? {
        var close := if intended then CandleClose(msg.closePrice.value)
                     else CandleCloseAsWritten(msg.closePrice.value);
        ResolveBets(close, msg.trend, now);
      }
    }

    /** The candle branch as written: bets are settled at `parseFloat` of the close price. */
    method ReceiveCandle(msg: PriceMessage, now: int)
      requires Valid()
      modifies this`lastProcessedCandle, this`resultHistory, this`balance, this`activeBets,
               this`bettingHistory, this`isResolvingBets, this`selectedBet
      ensures Valid()
      ensures CandleHandledFrom(msg, false, now, old(lastProcessedCandle), old(resultHistory),
                                old(balance), old(activeBets), old(bettingHistory),
                                old(isResolvingBets), old(selectedBet))
    {
      HandleCandle(msg, false, now);
    }

    /**
     * The candle branch as evidently intended: bets are settled at the close price read as the
     * stream branch reads prices, with the separators removed.
     */
    method ReceiveCandleIntended(msg: PriceMessage, now: int)
      requires Valid()
      modifies this`lastProcessedCandle, this`resultHistory, this`balance, this`activeBets,
               this`bettingHistory, this`isResolvingBets, this`selectedBet
      ensures Valid()
      ensures CandleHandledFrom(msg, true, now, old(lastProcessedCandle), old(resultHistory),
                                old(balance), old(activeBets), old(bettingHistory),
                                old(isResolvingBets), old(selectedBet))
    {
      HandleCandle(msg, true, now);
    }
  }

  /**
   * The settling loop: one settled record per bet, in order, and the sum of the positive
   * winnings, which the loop adds to the balance bet by bet.
   */
  method SettleBets(bets: seq<Bet>, finalPrice: Option<real>, trend: Option<string>, now: int)
    returns (settled: seq<SettledBet>, credit: int)
    ensures settled == SettleAll(bets, finalPrice, trend, now)
    ensures credit == TotalCredit(settled)
  {
    settled, credit := [], 0;
    for i := 0 to |bets|
      invariant settled == SettleAll(bets[..i], finalPrice, trend, now)
      invariant credit == TotalCredit(settled)
    {
      var s := Settle(bets[i], finalPrice, trend, now);
      SettleAllExtend(bets, finalPrice, trend, now, i);
      TotalCreditExtend(settled, s);
      settled := settled + [s];
      if s.winnings > 0 {
        credit := credit + s.winnings;
      }
    }
    assert bets[..|bets|] == bets;
  }

  /** When every active bet belongs to the current round, one of them does exactly when any is active. */
  lemma OnlyBetOfRound(bets: seq<Bet>, round: Option<int>)
    requires forall b :: b in bets ==> b.openTimestamp == round
    ensures (exists b :: b in bets && b.openTimestamp == round) <==> bets != []
  {
    if bets != [] {
      assert bets[0] in bets;
    }
  }

  /** Appending to the ledger keeps it within 1000 points and never loses the newest point. */
  lemma AppendPriceKeepsNewest(raw: seq<ChartPoint>, p: ChartPoint, q: ChartPoint)
    requires |raw| <= MaxRawDataPoints
    ensures |AppendPrice(raw, p)| <= MaxRawDataPoints
    ensures |raw| < MaxRawDataPoints ==> AppendPrice(raw, p) == raw + [p]
    ensures var r := AppendPrice(AppendPrice(raw, p), q);
      |r| >= 2 && r[|r| - 2] == p && r[|r| - 1] == q
  {
    var r1 := AppendPrice(raw, p);
    var r2 := AppendPrice(r1, q);
    assert |r1| >= 1;
    assert r2[..|r2| - 1] == r1[|r1| + 1 - |r2|..];
    assert r2[|r2| - 2] == r2[..|r2| - 1][|r2| - 2];
  }
}
