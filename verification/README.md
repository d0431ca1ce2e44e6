# Elite-Chart game core in Dafny

Elite-Chart is a browser game in which the player bets on whether the BTC price goes up or down
over a round. A price hub streams live prices and finished candles. The chart keeps a ledger of
raw prices and shows it at four timeframes (1 s, 15 s, 30 s, 1 min). A round opens at the last
shown price, and one bet per round is debited from the balance. Bets are settled either at a
final price or against the trend a candle reports: a win pays floor(1.975 × stake), a tie
returns the stake. When the hub cannot be reached, a connection supervisor switches to a
simulated random walk. Wins can be shared through a Base64 link. The repository also holds
the game-mode tables and small scripts that write WAV and placeholder MP3 assets byte by byte.

The model follows the source's structure:

- `Aggregation`: bucketing of chart points by an interval, with a generic `Aggregate` method
  (the source's three `aggregate*` helpers differ only in the interval) and the timeframe chain
  `GetHierarchicalData`.
- `Numbers`: the decimal text that `Number()` and `parseFloat` read, and the comma stripping.
- `Bets`: a bet, its settlement, the balance credit and the betting-history merge.
- `Feed`: the hub's `ReceivePrice` messages, and the de-duplicated trend history capped at 20.
- `Game`: the chart component's state as class `Chart`. It holds the raw ledger, the round's
  open and close prices, the balance, the active bets, the histories and the resolution flag.
  Each handler and effect is a method.
- `Connection`: the connection effect's closure variables as class `Supervisor`. Each hub
  event and each fallback tick is a method.
- `Legacy`: the earlier chart version as class `LegacyChart`, with its 30-point sliding
  window, its countdown and its y-axis range floor.
- `Base64` and `ShareUtils`: `btoa`/`atob` (RFC 4648 section 4 alphabet, over Latin-1 code
  units) and the pipe-separated share record.
- `GameModes`: the three game modes and their lookups.
- `Bytes`, `Wave`, `SimpleAudio`, `BackgroundMusic`, `LongerAudio`, `BetterAudio`: the asset
  writers. They cover the canonical 44-byte PCM WAVE header (RIFF form with 'fmt ' and 'data'
  chunks), the placeholder MPEG-1 Layer III frame layout (header FF FB 90 00) and the ID3v2.3
  prefix.

Prices are exact `real`s and times are integer milliseconds. Money is `int`. `Math.random`
draws, the clock and the hub's connection outcomes are parameters of the methods.

## Model

| member | source | states |
|---|---|---|
| Aggregation.BucketStart | src/components/BTCChart.jsx:49-50 | the bucket start is a multiple of the interval with start ≤ t < start + interval |
| Aggregation.CollectBuckets | src/components/BTCChart.jsx:45-56 | the bucket map's loop yields each bucket's members in input order, and the keys in first-seen order, with no key twice |
| Aggregation.Aggregate | src/components/BTCChart.jsx:38-74 | the map-and-sort loops compute exactly the specification `Aggregation(points, interval)` |
| Aggregation.FirstKeysComplete | src/components/BTCChart.jsx:45-56 | the bucket keys are distinct; a key is listed iff its bucket is non-empty; every point's key is listed |
| Aggregation.SortAscending | src/components/BTCChart.jsx:59 | the keys come out strictly increasing with the same elements |
| Aggregation.AggregationIsPointwise | src/components/BTCChart.jsx:59-71 | the i-th output point is the bucket point of the i-th smallest key |
| Aggregation.AggregationShape | src/components/BTCChart.jsx:38-149 | one point per non-empty bucket, in strictly increasing bucket order; each time is a multiple of the interval; each value is the last member's; each count is the member count; each bucket end is start + interval − 1 |
| Aggregation.AggregationOfEmpty | src/components/BTCChart.jsx:38-74 | empty input gives empty output |
| Aggregation.CountsSumToLength | src/components/BTCChart.jsx:59-71 | the aggregated points' `originalPoints` sum to the input length |
| Aggregation.Last | src/components/BTCChart.jsx:162-183 | `slice(-n)` keeps the last min(n, length) elements in order |
| Aggregation.AggregationAligned | src/components/BTCChart.jsx:38-149 | aggregated times are strictly increasing multiples of the interval |
| Aggregation.LastKeepsAligned | src/components/BTCChart.jsx:162-183 | cutting to the last n points keeps the times aligned and increasing |
| Aggregation.GetHierarchicalData | src/components/BTCChart.jsx:152-184 | empty input or unknown timeframe gives []; '1s' gives the last 60 raw points; '15s', '30s' and '1m' give the last 60 of raw→15s, raw→15s→30s and raw→15s→30s→1m; never more than 60 points, aligned to the timeframe |
| Numbers.IndexOf | src/utils/shareUtils.js:22 | the position of the first occurrence of a character, or the length when there is none |
| Numbers.ParseNumber | src/components/BTCChart.jsx:1039-1040 | `Number("")` is 0; an unsigned reading is non-negative |
| Numbers.StripCommas | src/components/BTCChart.jsx:1039-1040 | `replace(/,/g, "")` keeps exactly the characters other than ',' and leaves comma-free text as it is |
| Numbers.NumberOfDigits | src/components/BTCChart.jsx:1039-1040 | a digit string reads as its decimal value |
| Numbers.ParseFloatStopsAtComma | src/components/BTCChart.jsx:1118 | `parseFloat` of "lead,rest" reads only the digits before the comma |
| Numbers.GroupedAmount | src/components/BTCChart.jsx:1118 | on a grouped amount `parseFloat` yields the leading group, and the comma-stripped `Number` yields the larger whole amount |
| Bets.ActualDirection | src/components/BTCChart.jsx:507-514 | a supplied trend wins; otherwise 'up', 'down' or 'same', each iff the final price is above, below or equal to the bet's open price (NaN gives 'same') |
| Bets.WinPayoutIsFloor | src/components/BTCChart.jsx:519-522 | the integer payout is exactly floor(amount × 1.975) |
| Bets.WinPayoutBounds | src/components/BTCChart.jsx:519-522 | a win pays at least the stake and less than twice it, and strictly more than the stake iff the stake is at least 2 |
| Bets.Settle | src/components/BTCChart.jsx:506-541 | the record keeps the bet, final price and time; payout = winnings − amount; winnings are never negative |
| Bets.SettleByPrice | src/components/BTCChart.jsx:506-528 | settled by price: a win pays floor(1.975 × stake) iff the price moved in the bet's direction, a tie returns the stake iff it did not move, otherwise 0 |
| Bets.SettleByTrend | src/components/BTCChart.jsx:509-528 | settled by a trend: the actual direction is the trend, and the bet wins iff its direction equals it and it is not 'same' |
| Bets.SettleAllAt | src/components/BTCChart.jsx:506-541 | the i-th settled record is the i-th active bet, settled |
| Bets.TotalCredit | src/components/BTCChart.jsx:544-549 | the balance credit of a resolution is never negative |
| Bets.SingleBetCredit | src/components/BTCChart.jsx:544-549 | settling one bet credits exactly its winnings |
| Bets.Unseen | src/components/BTCChart.jsx:553-556 | a bet is kept iff it is among the settled bets and its placement time is not in the history, and the result is no longer than the input |
| Bets.UnseenIsFilter | src/components/BTCChart.jsx:553-556 | the filter maps [] to [], keeps or drops a single bet by its placement time, and distributes over concatenation, so it keeps the unseen bets in order and each once |
| Bets.MergeHistory | src/components/BTCChart.jsx:553-557 | the merged history holds at most 50 entries |
| Bets.MergeKeepsDistinct | src/components/BTCChart.jsx:553-557 | merging never records one placement time twice |
| Bets.MergeOfRecorded | src/components/BTCChart.jsx:553-557 | settled bets already in a history of at most 50 leave it unchanged |
| Bets.MergePutsNewFirst | src/components/BTCChart.jsx:553-557 | when no settled bet is recorded yet, the merged history is the settled bets followed by the older history in order, cut at 50 entries |
| Feed.StreamPrices | src/components/BTCChart.jsx:1033-1042 | a message yields (close, open) iff it is a 'stream' message for BTCUSDT with both price texts present and both readable after comma stripping |
| Feed.StreamAndCandleExclusive | src/components/BTCChart.jsx:1068-1073 | no message is handled both as a stream price and as a candle |
| Feed.CandleResult | src/components/BTCChart.jsx:1088-1094 | the history entry carries the candle's date-time, price texts and trend |
| Feed.PrependCapped | src/components/BTCChart.jsx:1108-1111 | the entry goes first, followed by the first min(19, length) older entries |
| Feed.RecordTrendProperties | src/components/BTCChart.jsx:1094-1111 | after an update the candle is recorded; the history stays within 20 entries; a history without duplicate candles stays without them |
| Feed.RecordTrendIdempotent | src/components/BTCChart.jsx:1096-1106 | recording the same candle twice equals recording it once |
| Feed.PriceOfGroupedAmount | src/components/BTCChart.jsx:1039-1040 | comma stripping reads a grouped amount "lead,rest" as the whole number |
| Feed.CandleCloseAsWrittenMisreads | src/components/BTCChart.jsx:1116-1119 | the candle branch's `parseFloat` reads a grouped close price as its leading group, less than the amount it denotes |
| Feed.GroupedCloseMisjudgesBet | src/components/BTCChart.jsx:1116-1119 | an 'up' bet opened between a grouped close price's leading group and its whole amount is lost under the `parseFloat` reading and won under the comma-stripped one when no usable trend is given; the recorded close prices always differ |
| Game.AppendPrice | src/components/BTCChart.jsx:312-326 | the new length is min(old + 1, 1000); the new point is last; the rest is an in-order suffix of the old ledger |
| Game.AppendPriceKeepsNewest | src/components/BTCChart.jsx:312-326 | a ledger of at most 1000 stays within 1000; below the cap the point is simply appended; the two newest points survive two appends |
| Game.FirstRealData | src/components/BTCChart.jsx:1044-1056 | 60 points, all at the first live price, one second apart, the last one second before now |
| Game.BetAmountInput | src/components/BTCChart.jsx:1736 | the bet amount is the parsed integer when at least 1, and 1 otherwise |
| Game.BettingInterval | src/components/BTCChart.jsx:864-870 | the betting timer is 60 intervals of the selected timeframe, or 60000 ms for an unknown one |
| Game.LatestPrice | src/components/BTCChart.jsx:812 | the last shown value, present iff some point is shown |
| Game.OnlyBetOfRound | src/components/BTCChart.jsx:453-457 | when every active bet belongs to the current round, the per-round duplicate check refuses iff any bet is active |
| Game.SettleBets | src/components/BTCChart.jsx:506-550 | the settling loop yields exactly `SettleAll` of the active bets and credits exactly their total positive winnings |
| Game.Chart.constructor | src/components/BTCChart.jsx:224-337 | the mount state: mock ledger and view, '1s', no round, balance 2000, bet amount 100, no bets, empty histories |
| Game.Chart.AddNewPriceData | src/components/BTCChart.jsx:312-326 | the ledger becomes `AppendPrice` of the old ledger and the new point; the invariant is kept |
| Game.Chart.ReplaceWithRealData | src/components/BTCChart.jsx:1044-1056 | the ledger becomes the 60 copies of the first live price |
| Game.Chart.SetRoundPrices | src/components/BTCChart.jsx:1062-1063 | the round's open and close prices become the given ones |
| Game.Chart.SelectTimeframe | src/components/BTCChart.jsx:1245 | the selected timeframe becomes the clicked one |
| Game.Chart.RefreshData | src/components/BTCChart.jsx:778-797 | the shown series becomes `getHierarchicalData` of the ledger for the selected timeframe, and is kept when the ledger is empty or the timeframe unknown |
| Game.Chart.SetBetAmount | src/components/BTCChart.jsx:1736 | the bet amount becomes `BetAmountInput` of the parsed input |
| Game.Chart.OpenRound | src/components/BTCChart.jsx:857-862 | only while there is no open price and some point is shown, the last value becomes the open price and the round is stamped now; otherwise nothing changes |
| Game.Chart.CloseTimerFires | src/components/BTCChart.jsx:864-878 | when the round is open and not closed, the close price becomes the latest shown value; otherwise it is kept |
| Game.Chart.PlaceBet | src/components/BTCChart.jsx:435-482 | placed iff 0 < amount ≤ balance, the round is open and no active bet is of this round; then exactly the amount is debited and one bet at the open price is appended; otherwise nothing changes; the invariant (at most one active bet) is kept |
| Game.Chart.ResolveBets | src/components/BTCChart.jsx:484-632 | nothing changes while resolving or with no active bets; otherwise the flag is set, the balance gains the total credit, the bets are cleared and the history is the merge of the settled bets; the invariant is kept |
| Game.Chart.TakeFallbackPrice | src/components/BTCChart.jsx:970-997 | the simulated price is appended and sets the round's prices, and the bets are resolved at it only when asked and some bet is active |
| Game.Chart.TakeStreamPrice | src/components/BTCChart.jsx:1044-1063 | the live price is appended, to the 60-copy ledger on the first live price, and sets the round's prices |
| Game.Chart.ReceiveMessage | src/components/BTCChart.jsx:1029-1120 | a readable stream price updates the ledger and round prices and nothing else; a candle is handled as `CandleHandledFrom` states with the close price read by `parseFloat`, as written |
| Game.Chart.ResolutionFlagTimerFires | src/components/BTCChart.jsx:628-631 | when the two-second timer fires the resolution flag becomes false, and the frame lets no other field change |
| Game.Chart.ReceiveCandle | src/components/BTCChart.jsx:1068-1120 | as written: a candle with the last processed id changes nothing; another becomes the last processed one, is recorded in the trend history unless already there, and, when bets are active and a trend is present, resolves them with that trend at `parseFloat` of its close price |
| Game.Chart.ReceiveCandleIntended | src/components/BTCChart.jsx:1068-1120 | as intended: the same candle handling, except that the bets are resolved at the close price read with its commas removed, as the stream branch reads prices |
| Connection.Clamp | src/components/BTCChart.jsx:978 | the result lies in [50000, 100000], equals the price inside the band and the nearest bound outside it |
| Connection.RetryDelayAfter | src/components/BTCChart.jsx:1163-1164 | the retry delay is 0 exactly after the first failure and 1000 ms otherwise |
| Connection.FallbackStartPrice | src/components/BTCChart.jsx:971 | the simulated price starts in [65000, 75000) |
| Connection.NextFallbackPrice | src/components/BTCChart.jsx:973-978 | every simulated price lies in [50000, 100000] |
| Connection.FallbackStepBounded | src/components/BTCChart.jsx:975-978 | from inside the band, one step moves the price by at most 2% |
| Connection.FallbackOpenPrice | src/components/BTCChart.jsx:981 | the simulated open price lies within 100 of the simulated price |
| Connection.Supervisor.constructor | src/components/BTCChart.jsx:899-904 | no attempts, no fallback, no live data yet; both the current and the captured connection status are connecting |
| Connection.Supervisor.StartFallbackData | src/components/BTCChart.jsx:958-1000 | a no-op in fallback; otherwise fallback starts, with status 'fallback', its timer and a start price in range |
| Connection.Supervisor.StopFallbackData | src/components/BTCChart.jsx:1003-1027 | acts only when a fallback timer exists: the timer and flag are cleared and the status is 'connected' |
| Connection.Supervisor.StartConnection | src/components/BTCChart.jsx:1124-1167 | success resets attempts to 0 and reports connected; a failure adds one attempt; fallback starts exactly when attempts reach 3, and before that a retry is due after `RetryDelayAfter` |
| Connection.Supervisor.OnClose | src/components/BTCChart.jsx:918-934 | an error reports 'disconnected'; fallback starts iff it is not running and attempts are at least 3 |
| Connection.Supervisor.OnReconnecting | src/components/BTCChart.jsx:936-944 | one more attempt, reported as connecting |
| Connection.Supervisor.OnReconnected | src/components/BTCChart.jsx:946-955 | attempts reset to 0, connected, fallback stopped |
| Connection.Supervisor.Teardown | src/components/BTCChart.jsx:1171-1176 | the cleanup stops any fallback |
| Connection.Supervisor.FallbackTick | src/components/BTCChart.jsx:973-997 | as written: the walk takes one clamped step, and the price goes into the ledger and sets the round's prices; the settling test reads the captured mount-time status, so no bet is ever settled and the balance, bets and history stay as they were |
| Connection.Supervisor.FallbackTickIntended | src/components/BTCChart.jsx:973-997 | as intended: the same step and price update, and the bets are settled at the new price iff the current status is 'disconnected', the draw exceeds 0.95 and a bet is active |
| Connection.Supervisor.ReceivePrice | src/components/BTCChart.jsx:1029-1121 | every message stops the fallback; the first readable stream price marks live data and replaces the mock ledger; the chart handles the message as `Chart.ReceiveMessage` states, candles settling at `parseFloat` of their close price |
| Legacy.SlideWindow | src/components/backup15-ChartCompleted/BTCChart.jsx:243-249 | the window keeps its length and the new point goes last |
| Legacy.SlidesKeepNewest | src/components/backup15-ChartCompleted/BTCChart.jsx:243-249 | after n ≤ length slides the window holds its newest old points, then the n new ones in order |
| Legacy.Tick | src/components/backup15-ChartCompleted/BTCChart.jsx:215 | a tick never goes negative; it subtracts 1 from a positive count |
| Legacy.TicksCount | src/components/backup15-ChartCompleted/BTCChart.jsx:211-219 | from c ≥ 0, n ticks give max(c − n, 0) |
| Legacy.ZeroAbsorbs | src/components/backup15-ChartCompleted/BTCChart.jsx:215 | once at 0 the countdown stays at 0 |
| Legacy.MinValue | src/components/backup15-ChartCompleted/BTCChart.jsx:80 | `Math.min` is a member of the window and at most every value |
| Legacy.MaxValue | src/components/backup15-ChartCompleted/BTCChart.jsx:81 | `Math.max` is a member of the window and at least every value |
| Legacy.WidenRange | src/components/backup15-ChartCompleted/BTCChart.jsx:85-90 | the span is at least 10; a narrower span is widened to exactly 10 around the same midpoint; a wider one is kept |
| Legacy.AxisContainsWindow | src/components/backup15-ChartCompleted/BTCChart.jsx:79-92 | the axis contains every price of the window and spans at least 10, so `yRange` is never 0 |
| Legacy.LegacyHistoryRepeats | src/components/backup15-ChartCompleted/BTCChart.jsx:255-272 | the same candle sent twice is recorded twice |
| Legacy.LegacyChart.constructor | src/components/backup15-ChartCompleted/BTCChart.jsx:36-55 | 30 mock points, no round, countdown 60, empty history |
| Legacy.LegacyChart.LatestPrice | src/components/backup15-ChartCompleted/BTCChart.jsx:191-193 | the newest value of the window |
| Legacy.LegacyChart.ReceivePrice | src/components/backup15-ChartCompleted/BTCChart.jsx:231-272 | a readable stream price slides the window and sets the round's prices, nothing else; a BTCUSDT candle is prepended to the history, capped at 20; the window stays 30 long |
| Legacy.LegacyChart.OpenRound | src/components/backup15-ChartCompleted/BTCChart.jsx:195-200 | the open price is set from the newest value only while it is absent |
| Legacy.LegacyChart.CloseTimerFires | src/components/backup15-ChartCompleted/BTCChart.jsx:202-209 | the close price becomes the newest value |
| Legacy.LegacyChart.CountdownEffect | src/components/backup15-ChartCompleted/BTCChart.jsx:211-219 | the interval runs iff the round is open and not closed, and then the countdown restarts at 60 |
| Legacy.LegacyChart.CountdownTick | src/components/backup15-ChartCompleted/BTCChart.jsx:214-216 | one tick applies `Tick`: the countdown never increases and 0 stays 0 |
| Base64.AlphabetBijection | src/utils/shareUtils.js:11 | the 64-character alphabet and its decoding are inverse to each other |
| Base64.EncodeLength | src/utils/shareUtils.js:11 | `btoa` output has 4·⌈n/3⌉ characters |
| Base64.DecodeEncode | src/utils/shareUtils.js:21 | decoding an encoding gives back the bytes |
| Base64.AtobBtoa | src/utils/shareUtils.js:11-21 | `atob(btoa(s)) == s` for every Latin-1 string |
| Base64.DecodeFailures | src/utils/shareUtils.js:21 | `atob` fails exactly on a leftover single character or a character outside the alphabet |
| Base64.Btoa | src/utils/shareUtils.js:11 | `btoa` succeeds iff every character is at most U+00FF |
| Base64.Atob | src/utils/shareUtils.js:21 | `atob` yields Latin-1 text |
| ShareUtils.Split | src/utils/shareUtils.js:22 | `split('|')` yields at least one part |
| ShareUtils.SplitJoin | src/utils/shareUtils.js:10-22 | splitting '|'-free parts joined by '|' gives the parts back |
| ShareUtils.EncodeShareData | src/utils/shareUtils.js:8-12 | encoding succeeds iff the '|'-joined record is Latin-1 |
| ShareUtils.FromParts | src/utils/shareUtils.js:22-35 | a record results iff amount, s1, s2 and s3 are present and non-empty |
| ShareUtils.DecodeShareData | src/utils/shareUtils.js:19-40 | a failing `atob` gives null; a result has non-empty s1, s2, s3 and trend |
| ShareUtils.ShareRoundTrip | src/utils/shareUtils.js:8-35 | for shareable fields with non-empty amount, s1, s2 and s3, decoding the encoding returns s1, s2, s3, the trend (or 'Rollercoaster'), the time (or the clock) and `parseFloat(amount)` |
| ShareUtils.ExtraPartsIgnored | src/utils/shareUtils.js:22 | text after the sixth field does not change the decoded record |
| ShareUtils.OrDefault | src/utils/shareUtils.js:50-53 | `x || d` is x when present and non-empty, else d |
| ShareUtils.GenerateShareUrl | src/utils/shareUtils.js:47-58 | the URL is protocol//host/win?d= followed by the encoding, and exists iff the encoding does |
| ShareUtils.ShareUrlDefaults | src/utils/shareUtils.js:47-58 | a generated link decodes to the amount, the results with 'up', 'down', 'up' for missing ones, the trend name or 'Rollercoaster', and the generation time |
| GameModes.GetAllGameModes | src/constants/gameModeConfig.js:189-191 | exactly the three modes, in declaration order |
| GameModes.FindById | src/constants/gameModeConfig.js:176 | `find` succeeds iff some mode has the id, and then returns such a mode |
| GameModes.GetGameModeById | src/constants/gameModeConfig.js:175-177 | the mode with the id, or INSURANCE when none has it |
| GameModes.LookupKey | src/constants/gameModeConfig.js:183 | keyed lookup finds a mode iff the key is in the table |
| GameModes.IdsDistinct | src/constants/gameModeConfig.js:10-124 | the ids 6, 7 and 8 are distinct |
| GameModes.ByIdFindsEachMode | src/constants/gameModeConfig.js:175-177 | each mode is found by its own id |
| GameModes.ByNameMatchesKeys | src/constants/gameModeConfig.js:182-184 | the upper-cased name selects its mode, and any other name gives INSURANCE |
| GameModes.ByNameIgnoresCase | src/constants/gameModeConfig.js:182-184 | the lower-case name 'battle' selects BATTLE |
| GameModes.ByNameIgnoresMixedCase | src/constants/gameModeConfig.js:182-184 | the mixed-case name 'Extreme' selects EXTREME |
| GameModes.PatternTables | src/constants/gameModeConfig.js:16-22 | every mode has totalPatterns patterns (4, 8, 8) with distinct codes and three dots each |
| GameModes.PatternRows | src/constants/gameModeConfig.js:71-83 | the UP row's patterns have type up and the DOWN row's type down |
| GameModes.EachPatternMajority | src/constants/gameModeConfig.js:71-83 | each pattern's type is the majority direction of its dots |
| GameModes.InsuranceRules | src/constants/gameModeConfig.js:30-42 | only INSURANCE has insurance: two sections costing 20% and 30%, each with a 30% payout deduction |
| GameModes.TieRules | src/constants/gameModeConfig.js:45-46 | every tie rule is 'loss', and only INSURANCE adds 'refund50' |
| GameModes.FeatureLookups | src/constants/gameModeConfig.js:196-198 | a feature is present iff the mode's list holds it: BATTLE has 'battlePass', INSURANCE does not, EXTREME has none |
| Bytes.U16RoundTrip | create-simple-audio.js:22-27 | a 16-bit little-endian field reads back as written |
| Bytes.U32RoundTrip | create-simple-audio.js:18-29 | a 32-bit little-endian field reads back as written |
| Bytes.I16RoundTrip | create-simple-audio.js:36 | a signed 16-bit sample reads back as written |
| Bytes.WriteAt | create-simple-audio.js:16-29 | a buffer write replaces exactly the written range |
| Wave.HeaderLayout | create-simple-audio.js:16-29 | tags 'RIFF', 'WAVE', 'fmt ', 'data' at 0, 8, 12, 36; chunk size 36 + data size at 4; 16, PCM 1, channels, 44100, byte rate, block align, 16 bits at 16-34; data size at 40 |
| Wave.WriteHeader | create-bg-music.js:16-29 | the header writes fill the 44 bytes with exactly `WavHeader` |
| SimpleAudio.WriteMonoSamples | create-simple-audio.js:32-37 | the loop writes sample i at data offset 2i, filling the data area exactly |
| SimpleAudio.CreateSimpleWav | create-simple-audio.js:9-40 | the output is the mono header followed by the samples |
| SimpleAudio.SimpleWavLayout | create-simple-audio.js:9-40 | length 44 + 2·samples; chunk size = length − 8; data size = length − 44; sample i reads back at 44 + 2i |
| BackgroundMusic.WriteStereoFrames | create-bg-music.js:32-57 | frame i holds the sample at 4i and again at 4i + 2 |
| BackgroundMusic.CreateLongerBackgroundMusic | create-bg-music.js:9-60 | the output is the stereo header followed by the frames |
| BackgroundMusic.StereoWavLayout | create-bg-music.js:9-60 | length 44 + 4·samples; channels 2, byte rate 176400, block align 4, 16 bits; left sample equals right sample in every frame |
| LongerAudio.Ceil | create-longer-audio.js:19 | `Math.ceil` is the least integer at least x |
| LongerAudio.FrameLayout | create-longer-audio.js:11-15 | a frame begins with FF FB 90 00 and 24 zero bytes, and bytes 28-383 are zero |
| LongerAudio.FramesLayout | create-longer-audio.js:27-35 | frame i occupies bytes 384·i to 384·i + 383 |
| LongerAudio.WriteFrame | create-longer-audio.js:28-34 | the guard never cuts a frame short: all 384 bytes are written |
| LongerAudio.CreateLongerPlaceholderMp3 | create-longer-audio.js:9-38 | the output is ⌈38·d⌉ frames of 384 bytes, whatever the file name |
| BetterAudio.SilentFramesAreZero | create-better-audio.js:25-30 | n silent frames are 32·n zero bytes |
| BetterAudio.CreateValidMp3 | create-better-audio.js:14-34 | the ID3 header, then FF FB 90 00, then zeros; length 18 + 32·⌊38.28·d⌋ |

## Left out

- Floating point: prices and the payout factor are exact `real`s and rationals; rounding of
  IEEE doubles is not modelled.
- `Number()` and `parseFloat` read only plain decimal text (optional sign, digits, one point);
  exponents, hexadecimal, 'Infinity' and surrounding whitespace are not modelled.
- `parseInt` of the bet-amount input: `Game.BetAmountInput` receives the parsed value (or
  `None` for NaN).
- Date parsing: the legacy handler's `new Date(msg.data.dateTime)` is the `time` parameter.
- `ToUpper` maps only the characters whose upper case is ASCII: a to z, dotless i (U+0131)
  and long s (U+017F). The other Unicode case mappings are not modelled, since none of them can
  produce a game-mode key.
- Timers are events: the betting timer, the resolution-flag timer, the fallback interval, the
  countdown interval and the retry timeout are methods that the caller invokes. Their
  scheduling, and the clearing of a pending timer when an effect re-runs, are not modelled.
- `Math.random` draws and the clock are parameters. The random mock series at mount are
  constructor parameters.
- The SignalR transport, `connection.start`/`stop` and the client's automatic reconnect
  schedule: only the outcomes reach the model, as events.
- The status messages, the centred status banner and its hide timer, the result popup, sounds,
  background music, console logging, the SVG chart geometry and all JSX.
- React's queued state updates are applied at once, in handler order. The queued
  `setBalance(prev => prev + winnings)` updates are folded into one credit.
- A candle id built from text joined by '-' can in principle be the same for two different
  candles; the model compares ids as strings, as the source does.
- The audio sample synthesis (`Math.sin`, `Math.round`) is the `tone` parameter, and the
  `fs` writes are left out.
- `generateShareUrl` reads `window.location`: its protocol and host are parameters.
- JavaScript's number-to-text conversion: `generateShareUrl` writes the amount with
  `${amount}`, and the model takes that text as the `amount` parameter.
- Timeframe keys inherited from `Object.prototype`, such as "constructor": in the source
  `TIMEFRAME_CONFIG[key]` is then truthy, so `getHierarchicalData` returns all the raw data and
  the betting interval is NaN. The model treats every key outside the four as unknown
  (`Aggregation.GetHierarchicalData` gives [] and `Game.BettingInterval` gives 60000). The four
  timeframe buttons (src/components/BTCChart.jsx:1242) never send such a key.
- Connection.FallbackStepBounded: states a bound of 2% of the old price; the lower bound
  0.1% on the move is not stated.

## Findings

| source | as written | input that shows it | evidently intended | confidence | as-written member | corrected member |
|---|---|---|---|---|---|---|
| src/components/BTCChart.jsx:1118 | the candle branch settles bets at `parseFloat(closePrice)`, which stops at the first ',' | closePrice "65,000" with an empty trend and an 'up' bet opened at 64000: settled at 65 and lost, where 65000 wins | read the close price as the stream branch does (lines 1039-1040), with the commas removed | not executed | Game.Chart.ReceiveCandle; Feed.GroupedCloseMisjudgesBet | Game.Chart.ReceiveCandleIntended |
| src/components/BTCChart.jsx:994 | the fallback tick tests `connectionStatus.status === 'disconnected'` on the state captured when the effect ran; its only dependency is a stable callback, so that is the mount-time 'connecting' | fallback running, then the hub closes with an error (`Supervisor.OnClose` reports Disconnected and the fallback goes on); one active bet, draw 0.99: the tick settles nothing | test the current status, so a disconnected hub lets the fallback settle bets | medium; not executed | Connection.Supervisor.FallbackTick | Connection.Supervisor.FallbackTickIntended |
