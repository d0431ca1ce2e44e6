/**
 * The price hub's `ReceivePrice` messages as both chart versions read them
 * (src/components/BTCChart.jsx and src/components/backup15-ChartCompleted/BTCChart.jsx): a
 * 'stream' message carries the live open and close prices as text, possibly with thousands
 * separators; a 'candle' message reports a finished candle and its trend, which goes into the
 * trend history shown to the player.
 */
module Feed {
  import opened Wrappers
  import opened Numbers
  import opened Bets

  /** `msg.source` and the fields of `msg.data`; a missing field is `None`. */
  datatype PriceMessage = PriceMessage(source: string, symbol: string, dateTime: string,
                                       openPrice: Option<string>, closePrice: Option<string>,
                                       trend: Option<string>)

  const Symbol: string := "BTCUSDT"

  /** `Number(text.replace(/,/g, ""))`, with NaN as `None`. */
  function PriceOf(text: string): Option<real>
  {
    ParseNumber(StripCommas(text))
  }

  /** Removing the separators makes a grouped amount "lead,rest" read as the whole number. */
  lemma PriceOfGroupedAmount(lead: string, rest: string)
    requires AllDigits(lead) && AllDigits(rest) && lead != "" && rest != ""
    ensures PriceOf(lead + ([','] + rest)) == Some(DigitsValue(lead + rest) as real)
  {
    StripOneSeparator(lead, rest);
    DigitsValueAppend(lead, rest);
    NumberOfDigits(lead + rest);
  }

  /**
   * The stream branch's test: a 'stream' message for BTCUSDT with both price texts present and
   * both readable once the separators are removed yields its (close, open) prices.
   */
  function StreamPrices(msg: PriceMessage): (r: Option<(real, real)>)
    ensures r.Some? <==>
      && msg.source == "stream" && msg.symbol == Symbol
      && Given(msg.closePrice) && Given(msg.openPrice)
      && PriceOf(msg.closePrice.value).Some? && PriceOf(msg.openPrice.value).Some?
    ensures r.Some? ==> r.value == (PriceOf(msg.closePrice.value).value, PriceOf(msg.openPrice.value).value)
  {
    if msg.source == "stream" && msg.symbol == Symbol && Given(msg.closePrice) && Given(msg.openPrice) then
      match (PriceOf(msg.closePrice.value), PriceOf(msg.openPrice.value))
      case (Some(close), Some(open)) => Some((close, open))
      case _ => None
    else None
  }

  /** The candle branch's test: a 'candle' message for BTCUSDT with both price texts present. */
  predicate IsCandle(msg: PriceMessage)
  {
    msg.source == "candle" && msg.symbol == Symbol && Given(msg.closePrice) && Given(msg.openPrice)
  }

  /** A stream message is never handled as a candle, nor a candle as a stream price. */
  lemma StreamAndCandleExclusive(msg: PriceMessage)
    ensures !(StreamPrices(msg).Some? && IsCandle(msg))
  {
  }

  /** An entry of the trend history; the price texts are kept as the message sent them. */
  datatype TrendResult = TrendResult(dateTime: string, symbol: string, openPrice: string,
                                     closePrice: string, trend: Option<string>)

  function CandleResult(msg: PriceMessage): (t: TrendResult)
    requires IsCandle(msg)
    ensures t.dateTime == msg.dateTime && t.openPrice == msg.openPrice.value
    ensures t.closePrice == msg.closePrice.value && t.trend == msg.trend
  {
    TrendResult(msg.dateTime, msg.symbol, msg.openPrice.value, msg.closePrice.value, msg.trend)
  }

  /** The candle's identifier: date-time, open text and close text joined by '-'. */
  function CandleId(msg: PriceMessage): string
    requires IsCandle(msg)
  {
    msg.dateTime + "-" + msg.openPrice.value + "-" + msg.closePrice.value
  }

  /** The trend history keeps this many entries. */
  const TrendCap: int := 20

  /** `[t, ...prev.slice(0, 19)]`: newest first, at most 20 entries. */
  function PrependCapped(prev: seq<TrendResult>, t: TrendResult): (r: seq<TrendResult>)
    ensures |r| == if |prev| < TrendCap then |prev| + 1 else TrendCap
    ensures r[0] == t && r[1..] == prev[..|r| - 1]
  {
    [t] + First(prev, TrendCap - 1)
  }

  /** Two entries describe the same candle: equal date-time, open text and close text. */
  predicate SameCandle(a: TrendResult, b: TrendResult)
  {
    a.dateTime == b.dateTime && a.openPrice == b.openPrice && a.closePrice == b.closePrice
  }

  predicate Recorded(h: seq<TrendResult>, t: TrendResult)
  {
    exists i :: 0 <= i < |h| && SameCandle(h[i], t)
  }

  predicate NoDuplicateCandles(h: seq<TrendResult>)
  {
    forall i, j :: 0 <= i < j < |h| ==> !SameCandle(h[i], h[j])
  }

  /** The current version's history update: a candle already in the history adds nothing. */
  function RecordTrend(prev: seq<TrendResult>, t: TrendResult): (r: seq<TrendResult>)
  {
    if Recorded(prev, t) then prev else PrependCapped(prev, t)
  }

  /**
   * After the update the candle is in the history, the history holds at most 20 entries when it
   * did before, and a history without duplicate candles stays without them.
   */
  lemma RecordTrendProperties(prev: seq<TrendResult>, t: TrendResult)
    ensures Recorded(RecordTrend(prev, t), t)
    ensures |prev| <= TrendCap ==> |RecordTrend(prev, t)| <= TrendCap
    ensures NoDuplicateCandles(prev) ==> NoDuplicateCandles(RecordTrend(prev, t))
  {
    var r := RecordTrend(prev, t);
    if !Recorded(prev, t) {
      assert SameCandle(r[0], t);
      if NoDuplicateCandles(prev) {
        forall i, j | 0 <= i < j < |r| ensures !SameCandle(r[i], r[j]) {
          assert r[j] == prev[j - 1];
          if i > 0 {
            assert r[i] == prev[i - 1];
          }
        }
      }
    }
  }

  /** Recording the same candle twice is the same as recording it once. */
  lemma RecordTrendIdempotent(prev: seq<TrendResult>, t: TrendResult)
    ensures RecordTrend(RecordTrend(prev, t), t) == RecordTrend(prev, t)
  {
    RecordTrendProperties(prev, t);
  }

  /**
   * The candle's close price read as the stream branch reads prices, with the separators removed:
   * the reading the candle branch evidently intends.
   */
  function CandleClose(text: string): Option<real>
  {
    PriceOf(text)
  }

  /** The close price as the current version's candle branch actually reads it: `parseFloat(text)`. */
  function CandleCloseAsWritten(text: string): Option<real>
  {
    ParseFloat(text)
  }

  /**
   * On a grouped amount "lead,rest" the as-written reading stops at the separator and yields only
   * the leading group, while the corrected reading yields the whole amount, which is larger.
   */
  lemma CandleCloseAsWrittenMisreads(lead: string, rest: string)
    requires AllDigits(lead) && AllDigits(rest) && lead != "" && rest != ""
    requires DigitsValue(lead) > 0
    ensures CandleCloseAsWritten(lead + ([','] + rest)) == Some(DigitsValue(lead) as real)
    ensures CandleClose(lead + ([','] + rest)) == Some(DigitsValue(lead + rest) as real)
    ensures DigitsValue(lead) < DigitsValue(lead + rest)
  {
    GroupedAmount(lead, rest);
  }

  /**
   * The misreading decides bets: when a grouped close price lies above an 'up' bet's open price
   * but its leading group lies below it, a candle without a usable trend settles the bet as lost
   * under the as-written reading and as won under the intended one; the recorded close prices
   * differ whatever the trend.
   */
  lemma GroupedCloseMisjudgesBet(bet: Bet, lead: string, rest: string, trend: Option<string>, now: int)
    requires AllDigits(lead) && AllDigits(rest) && lead != "" && rest != ""
    requires DigitsValue(lead) > 0
    requires bet.direction == "up"
    requires DigitsValue(lead) as real < bet.openPrice < DigitsValue(lead + rest) as real
    ensures Settle(bet, CandleCloseAsWritten(lead + ([','] + rest)), trend, now).closePrice
         != Settle(bet, CandleClose(lead + ([','] + rest)), trend, now).closePrice
    ensures !Given(trend) ==> Settle(bet, CandleCloseAsWritten(lead + ([','] + rest)), trend, now).result == Loss
    ensures !Given(trend) ==> Settle(bet, CandleClose(lead + ([','] + rest)), trend, now).result == Win
  {
    CandleCloseAsWrittenMisreads(lead, rest);
  }
}
