/**
 * The earlier chart, src/components/backup15-ChartCompleted/BTCChart.jsx: a fixed window of 30
 * prices slid by the stream, a round whose open price is taken once and whose close price a
 * 60-second timer takes, a countdown shown meanwhile, and a trend history of candles kept
 * without the duplicate check the current version has. Its y axis spans at least 10.
 */
module Legacy {
  import opened Wrappers
  import opened Aggregation
  import opened Feed

  /** `DATA_LENGTH` of this version. */
  const WindowLength: int := 30
  /** The countdown's starting value, in seconds. */
  const RoundSeconds: int := 60
  /** `MIN_Y_RANGE` */
  const MinYRange: real := 10.0

  /** `[...prev.slice(1), p]`: the oldest price leaves and the new one goes last. */
  function SlideWindow(prev: seq<ChartPoint>, p: ChartPoint): (r: seq<ChartPoint>)
    ensures |prev| >= 1 ==> |r| == |prev|
    ensures |r| >= 1 && r[|r| - 1] == p
  {
    (if |prev| == 0 then [] else prev[1..]) + [p]
  }

  /** The window after the stream prices `news`, in order. */
  function SlideAll(prev: seq<ChartPoint>, news: seq<ChartPoint>): (r: seq<ChartPoint>)
    ensures |prev| >= 1 ==> |r| == |prev|
  {
    if news == [] then prev else SlideWindow(SlideAll(prev, news[..|news| - 1]), news[|news| - 1])
  }

  /** Dropping the head of `a[k..] + b` and appending `p` is `a[k + 1..] + (b + [p])`. */
  lemma ShiftAppend<T>(a: seq<T>, b: seq<T>, k: nat, p: T)
    requires k < |a|
    ensures (a[k..] + b)[1..] + [p] == a[k + 1..] + (b + [p])
  {
    assert (a[k..] + b)[1..] == a[k + 1..] + b;
  }

  /**
   * After n slides of a window of at least n prices, it holds its newest old prices, then the n
   * new ones in arrival order.
   */
  lemma {:induction false} SlidesKeepNewest(prev: seq<ChartPoint>, news: seq<ChartPoint>)
    requires |news| <= |prev|
    ensures SlideAll(prev, news) == prev[|news|..] + news
  {
    if news != [] {
      var init, p := news[..|news| - 1], news[|news| - 1];
      SlidesKeepNewest(prev, init);
      ShiftAppend(prev, init, |init|, p);
      assert init + [p] == news;
    }
  }

  /** One countdown tick: `prev > 1 ? prev - 1 : 0`. */
  function Tick(c: int): (r: int)
    ensures r >= 0
    ensures c > 0 ==> r == c - 1
    ensures c <= 0 ==> r == 0
  {
    if c > 1 then c - 1 else 0
  }

  /** The countdown after n ticks. */
  function Ticks(c: int, n: nat): (r: int)
    ensures n >= 1 ==> r >= 0
    ensures r <= c || (c < 0 && r == 0)
  {
    if n == 0 then c else Tick(Ticks(c, n - 1))
  }

  /** From a non-negative start, n ticks subtract n, down to 0 and no further. */
  lemma {:induction false} TicksCount(c: int, n: nat)
    requires c >= 0
    ensures Ticks(c, n) == if c > n then c - n else 0
  {
    if n > 0 {
      TicksCount(c, n - 1);
    }
  }

  /** Once at 0 the countdown stays at 0. */
  lemma {:induction false} ZeroAbsorbs(n: nat)
    ensures Ticks(0, n) == 0
  {
    if n > 0 {
      ZeroAbsorbs(n - 1);
    }
  }

  /** The smallest value of a non-empty list, as `Math.min(...values)`. */
  function MinValue(values: seq<real>): (m: real)
    requires values != []
    ensures m in values
    ensures forall v :: v in values ==> m <= v
  {
    if |values| == 1 then values[0]
    else
      var rest := MinValue(values[1..]);
      assert forall v :: v in values ==> v == values[0] || v in values[1..];
      if values[0] <= rest then values[0] else rest
  }

  /** The largest value of a non-empty list, as `Math.max(...values)`. */
  function MaxValue(values: seq<real>): (m: real)
    requires values != []
    ensures m in values
    ensures forall v :: v in values ==> v <= m
  {
    if |values| == 1 then values[0]
    else
      var rest := MaxValue(values[1..]);
      assert forall v :: v in values ==> v == values[0] || v in values[1..];
      if values[0] >= rest then values[0] else rest
  }

  /**
   * The y-axis bounds from the window's lowest and highest value: a span under 10 is widened to
   * exactly 10 around the same midpoint; a wider span is kept.
   */
  function WidenRange(lo: real, hi: real): (r: (real, real))
    ensures r.1 - r.0 >= MinYRange
    ensures hi - lo >= MinYRange ==> r == (lo, hi)
    ensures hi - lo < MinYRange ==> r.1 - r.0 == MinYRange && r.0 + r.1 == lo + hi
  {
    if hi - lo < MinYRange then
      var mid := (hi + lo) / 2.0;
      (mid - MinYRange / 2.0, mid + MinYRange / 2.0)
    else (lo, hi)
  }

  /** The axis of a window: it contains every price and spans at least 10, so never 0. */
  lemma AxisContainsWindow(values: seq<real>)
    requires values != []
    ensures var r := WidenRange(MinValue(values), MaxValue(values));
      && r.1 - r.0 >= MinYRange
      && forall v :: v in values ==> r.0 <= v <= r.1
  {
    var lo, hi := MinValue(values), MaxValue(values);
    assert lo <= hi;
  }

  class LegacyChart {
    var data: seq<ChartPoint>
    var open1Min: Option<real>
    var close1Min: Option<real>
    var openTimestamp: Option<int>
    var countdown: int
    /** Whether the one-second countdown interval exists. */
    var countdownRunning: bool
    var resultHistory: seq<TrendResult>

    /** The window keeps its length, the history its cap, the countdown its range. */
    predicate Valid()
      reads this
    {
      && |data| == WindowLength
      && |resultHistory| <= TrendCap
      && 0 <= countdown <= RoundSeconds
    }

    /** The mount state; the 30 mock prices are drawn at random, so they are a parameter. */
    constructor (mock: seq<ChartPoint>)
      requires |mock| == WindowLength
      ensures Valid()
      ensures data == mock && open1Min == None && close1Min == None && openTimestamp == None
      ensures countdown == RoundSeconds && !countdownRunning && resultHistory == []
    {
      data, open1Min, close1Min, openTimestamp := mock, None, None, None;
      countdown, countdownRunning, resultHistory := RoundSeconds, false, [];
    }

    /** The price the close timer reads: the window's newest value. */
    function LatestPrice(): (p: real)
      requires Valid()
      reads this
      ensures p == data[WindowLength - 1].value
    {
      data[|data| - 1].value
    }

    /**
     * The `ReceivePrice` handler, with the message's date-time already read as `time`. A
     * readable stream price slides the window and sets the round's open and close prices; a
     * BTCUSDT candle is put first in the trend history, whether or not it is already there.
     */
    method ReceivePrice(msg: PriceMessage, time: int)
      requires Valid()
      modifies this`data, this`open1Min, this`close1Min, this`resultHistory
      ensures Valid()
      ensures StreamPrices(msg).Some? ==>
        && data == SlideWindow(old(data), Raw(StreamPrices(msg).value.0, time))
        && open1Min == Some(StreamPrices(msg).value.1)
        && close1Min == Some(StreamPrices(msg).value.0)
      ensures StreamPrices(msg).None? ==>
        data == old(data) && open1Min == old(open1Min) && close1Min == old(close1Min)
      ensures IsCandle(msg) ==> resultHistory == PrependCapped(old(resultHistory), CandleResult(msg))
      ensures !IsCandle(msg) ==> resultHistory == old(resultHistory)
    {
      var prices := StreamPrices(msg);
      if prices.Some? {
        data := SlideWindow(data, Raw(prices.value.0, time));
        open1Min, close1Min := Some(prices.value.1), Some(prices.value.0);
      }
      if IsCandle(msg) {
        resultHistory := PrependCapped(resultHistory, CandleResult(msg));
      }
    }

    /** The open effect: only while there is no open price, the newest value becomes it. */
    method OpenRound(now: int)
      requires Valid()
      modifies this`open1Min, this`openTimestamp
      ensures Valid()
      ensures old(open1Min).None? ==> open1Min == Some(LatestPrice()) && openTimestamp == Some(now)
      ensures old(open1Min).Some? ==> open1Min == old(open1Min) && openTimestamp == old(openTimestamp)
    {
      if open1Min.None? && |data| > 0 {
        open1Min := Some(data[|data| - 1].value);
        openTimestamp := Some(now);
      }
    }

    /** The close timer, set while a round is open and not closed, fires after 60 seconds. */
    method CloseTimerFires()
      requires Valid() && open1Min.Some? && close1Min.None?
      modifies this`close1Min
      ensures Valid() && close1Min == Some(LatestPrice())
    {
      close1Min := Some(data[|data| - 1].value);
    }

    /**
     * The countdown effect, on a change of the open or close price: the previous interval is
     * cleared, and while a round is open and not closed the countdown restarts at 60.
     */
    method CountdownEffect()
      requires Valid()
      modifies this`countdown, this`countdownRunning
      ensures Valid()
      ensures countdownRunning == (open1Min.Some? && close1Min.None?)
      ensures countdownRunning ==> countdown == RoundSeconds
      ensures !countdownRunning ==> countdown == old(countdown)
    {
      countdownRunning := open1Min.Some? && close1Min.None?;
      if countdownRunning {
        countdown := RoundSeconds;
      }
    }

    /** One second of the countdown interval. */
    method CountdownTick()
      requires Valid() && countdownRunning
      modifies this`countdown
      ensures Valid() && countdown == Tick(old(countdown))
      ensures countdown <= old(countdown) && (old(countdown) == 0 ==> countdown == 0)
    {
      countdown := Tick(countdown);
    }
  }

  /** Unlike the current version, this history records a candle again when it is sent again. */
  lemma LegacyHistoryRepeats(prev: seq<TrendResult>, msg: PriceMessage)
    requires IsCandle(msg)
    ensures var t := CandleResult(msg);
      !NoDuplicateCandles(PrependCapped(PrependCapped(prev, t), t))
  {
    var t := CandleResult(msg);
    var r := PrependCapped(PrependCapped(prev, t), t);
    assert r[0] == t && r[1] == t;
  }
}
