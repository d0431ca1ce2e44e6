/**
 * Bets of the chart game (src/components/BTCChart.jsx): a bet on the direction of the price over
 * a round, its settlement against the final price or against the trend a candle reports, and the
 * capped betting history the settled bets are merged into.
 */
module Bets {
  import opened Wrappers

  /**
   * The record `placeBet` appends. `direction` is the button's 'up' or 'down'; `id` and
   * `placedAt` are the same clock reading, in milliseconds.
   */
  datatype Bet = Bet(id: int, direction: string, amount: int, openPrice: real,
                     openTimestamp: Option<int>, placedAt: int)

  datatype Outcome = Win | Loss | Tie

  /**
   * A settled bet, as `resolveBets` records it in the betting history. `closePrice` is `None`
   * when the final price is NaN.
   */
  datatype SettledBet = SettledBet(bet: Bet, closePrice: Option<real>, actualTrend: string,
                                   result: Outcome, winnings: int, payout: int, resolvedAt: int)

  /** The betting history keeps this many entries. */
  const HistoryCap: int := 50

  /** JavaScript truthiness of an optional string: present and not empty. */
  predicate Given(trend: Option<string>)
  {
    trend.Some? && trend.value != ""
  }

  /**
   * The direction a bet is judged against: the trend when one is given, otherwise the sign of
   * the price change. A NaN final price compares neither above nor below, so it reads as 'same'.
   */
  function ActualDirection(finalPrice: Option<real>, openPrice: real, trend: Option<string>): (d: string)
    ensures Given(trend) ==> d == trend.value
    ensures !Given(trend) ==> (d == "up" <==> finalPrice.Some? && finalPrice.value > openPrice)
    ensures !Given(trend) ==> (d == "down" <==> finalPrice.Some? && finalPrice.value < openPrice)
    ensures !Given(trend) ==> (d == "same" <==> finalPrice.None? || finalPrice.value == openPrice)
  {
    if Given(trend) then trend.value
    else match finalPrice
      case None => "same"
      case Some(p) => if p - openPrice > 0.0 then "up" else if p - openPrice < 0.0 then "down" else "same"
  }

  /** `Math.floor(amount * 1.975)`, in integers. */
  function WinPayout(amount: int): int
  {
    amount * 1975 / 1000
  }

  /** The payout is the floor of 1.975 times the stake. */
  lemma WinPayoutIsFloor(amount: int)
    ensures (WinPayout(amount) as real) <= amount as real * 1.975 < (WinPayout(amount) + 1) as real
  {
    var w := WinPayout(amount);
    assert w * 1000 <= amount * 1975 < (w + 1) * 1000;
    assert (w * 1000) as real == w as real * 1000.0;
    assert ((w + 1) * 1000) as real == (w + 1) as real * 1000.0;
    assert (amount * 1975) as real == amount as real * 1.975 * 1000.0;
  }

  /**
   * A win returns at least the stake and less than twice it; it returns strictly more than the
   * stake exactly when the stake is at least 2 (a stake of 1 wins back 1).
   */
  lemma WinPayoutBounds(amount: int)
    requires amount >= 1
    ensures amount <= WinPayout(amount) < 2 * amount
    ensures WinPayout(amount) > amount <==> amount >= 2
  {
    var w := WinPayout(amount);
    assert w * 1000 <= amount * 1975 < (w + 1) * 1000;
    if amount == 1 {
      assert w == 1;
    }
  }

  function ResultOf(direction: string, actual: string): Outcome
  {
    if direction == actual && actual != "same" then Win
    else if actual == "same" then Tie
    else Loss
  }

  /** What a bet returns to the balance: the payout on a win, the stake on a tie, else nothing. */
  function Winnings(amount: int, result: Outcome): (w: int)
  {
    match result
    case Win => WinPayout(amount)
    case Tie => amount
    case Loss => 0
  }

  /** One iteration of the settling loop: the bet, judged, with its winnings and net payout. */
  function Settle(bet: Bet, finalPrice: Option<real>, trend: Option<string>, now: int): (s: SettledBet)
    ensures s.bet == bet && s.closePrice == finalPrice && s.resolvedAt == now
    ensures s.payout == s.winnings - bet.amount
    ensures bet.amount >= 0 ==> s.winnings >= 0
  {
    var actual := ActualDirection(finalPrice, bet.openPrice, trend);
    var result := ResultOf(bet.direction, actual);
    var winnings := Winnings(bet.amount, result);
    SettledBet(bet, finalPrice, actual, result, winnings, winnings - bet.amount, now)
  }

  /**
   * Settled by price alone: an 'up' bet wins exactly when the price rose, a 'down' bet exactly
   * when it fell, and an unchanged price refunds the stake.
   */
  lemma SettleByPrice(bet: Bet, finalPrice: real, now: int)
    requires bet.direction == "up" || bet.direction == "down"
    requires bet.amount >= 0
    ensures var s := Settle(bet, Some(finalPrice), None, now);
      && (s.result == Win <==>
           (bet.direction == "up" && finalPrice > bet.openPrice)
           || (bet.direction == "down" && finalPrice < bet.openPrice))
      && (s.result == Tie <==> finalPrice == bet.openPrice)
      && (s.result == Win ==> s.winnings == WinPayout(bet.amount))
      && (s.result == Tie ==> s.winnings == bet.amount && s.payout == 0)
      && (s.result == Loss ==> s.winnings == 0 && s.payout == -bet.amount)
  {
  }

  /**
   * Settled by a reported trend: the bet wins when the trend names its direction, the stake is
   * refunded on 'same', and any other trend loses.
   */
  lemma SettleByTrend(bet: Bet, finalPrice: Option<real>, trend: string, now: int)
    requires trend != ""
    ensures var s := Settle(bet, finalPrice, Some(trend), now);
      && s.actualTrend == trend
      && (s.result == Win <==> trend == bet.direction && trend != "same")
      && (s.result == Tie <==> trend == "same")
  {
  }

  /** The settling loop over the active bets, in order. */
  function SettleAll(bets: seq<Bet>, finalPrice: Option<real>, trend: Option<string>, now: int)
    : (r: seq<SettledBet>)
    ensures |r| == |bets|
  {
    if bets == [] then []
    else SettleAll(bets[..|bets| - 1], finalPrice, trend, now)
         + [Settle(bets[|bets| - 1], finalPrice, trend, now)]
  }

  /** Entry `i` of the settled records is bet `i`, settled. */
  lemma {:induction false} SettleAllAt(bets: seq<Bet>, finalPrice: Option<real>, trend: Option<string>,
                                       now: int, i: nat)
    requires i < |bets|
    ensures SettleAll(bets, finalPrice, trend, now)[i] == Settle(bets[i], finalPrice, trend, now)
  {
    var init := bets[..|bets| - 1];
    if i < |bets| - 1 {
      SettleAllAt(init, finalPrice, trend, now, i);
    }
  }

  /** The balance credit of one settled bet: only positive winnings are added. */
  function Credit(s: SettledBet): int
  {
    if s.winnings > 0 then s.winnings else 0
  }

  /** The total the settling loop adds to the balance. */
  function TotalCredit(h: seq<SettledBet>): (t: int)
    ensures t >= 0
  {
    if h == [] then 0 else TotalCredit(h[..|h| - 1]) + Credit(h[|h| - 1])
  }

  /** Settling one more bet appends its record. */
  lemma SettleAllExtend(bets: seq<Bet>, finalPrice: Option<real>, trend: Option<string>, now: int,
                        i: nat)
    requires i < |bets|
    ensures SettleAll(bets[..i + 1], finalPrice, trend, now)
         == SettleAll(bets[..i], finalPrice, trend, now) + [Settle(bets[i], finalPrice, trend, now)]
  {
    assert bets[..i + 1][..i] == bets[..i];
  }

  /** One more settled record adds its credit to the total. */
  lemma TotalCreditExtend(h: seq<SettledBet>, s: SettledBet)
    ensures TotalCredit(h + [s]) == TotalCredit(h) + Credit(s)
  {
    assert (h + [s])[..|h|] == h;
  }

  /** Settling the single bet a round can hold credits exactly that bet's winnings. */
  lemma SingleBetCredit(bet: Bet, finalPrice: Option<real>, trend: Option<string>, now: int)
    requires bet.amount >= 0
    ensures TotalCredit(SettleAll([bet], finalPrice, trend, now))
         == Settle(bet, finalPrice, trend, now).winnings
  {
    var r := SettleAll([bet], finalPrice, trend, now);
    assert r[..0] == [];
  }

  function PlacedAts(h: seq<SettledBet>): (ts: set<int>)
    ensures forall i :: 0 <= i < |h| ==> h[i].bet.placedAt in ts
    ensures forall t :: t in ts ==> exists i :: 0 <= i < |h| && h[i].bet.placedAt == t
  {
    set i | 0 <= i < |h| :: h[i].bet.placedAt
  }

  /** `filter`: the settled bets whose placement time is not in `seen`, in order. */
  function Unseen(settled: seq<SettledBet>, seen: set<int>): (r: seq<SettledBet>)
    ensures |r| <= |settled|
    ensures forall x :: x in r ==> x in settled && x.bet.placedAt !in seen
    ensures forall x :: x in settled && x.bet.placedAt !in seen ==> x in r
  {
    if settled == [] then []
    else (if settled[0].bet.placedAt in seen then [] else [settled[0]]) + Unseen(settled[1..], seen)
  }

  /**
   * `Unseen` is exactly `filter` with the test "placement time not in `seen`": nothing from
   * nothing, one bet kept or dropped by the test, and a concatenation filtered piecewise, so
   * the kept bets stay in order and none is repeated.
   */
  lemma {:induction false} UnseenIsFilter(a: seq<SettledBet>, b: seq<SettledBet>, x: SettledBet, seen: set<int>)
    ensures Unseen([], seen) == []
    ensures Unseen([x], seen) == if x.bet.placedAt in seen then [] else [x]
    ensures Unseen(a + b, seen) == Unseen(a, seen) + Unseen(b, seen)
  {
    assert Unseen([x], seen) == (if x.bet.placedAt in seen then [] else [x]) + Unseen([], seen);
    if a == [] {
      assert a + b == b;
    } else {
      assert (a + b)[0] == a[0] && (a + b)[1..] == a[1..] + b;
      UnseenIsFilter(a[1..], b, x, seen);
    }
  }

  /** `slice(0, n)`: the first `n` elements, or all of them when there are fewer. */
  function First<T>(s: seq<T>, n: nat): (r: seq<T>)
    ensures |r| == if |s| < n then |s| else n
    ensures r == s[..|r|]
  {
    if |s| <= n then s else s[..n]
  }

  /**
   * The history update: settled bets whose placement time is not yet recorded go first, newest
   * round first, and the history keeps its first 50 entries.
   */
  function MergeHistory(prev: seq<SettledBet>, settled: seq<SettledBet>): (r: seq<SettledBet>)
    ensures |r| <= HistoryCap
  {
    First(Unseen(settled, PlacedAts(prev)) + prev, HistoryCap)
  }

  predicate DistinctPlacedAt(h: seq<SettledBet>)
  {
    forall i, j :: 0 <= i < j < |h| ==> h[i].bet.placedAt != h[j].bet.placedAt
  }

  /** Putting in front an entry whose placement time differs from every other keeps them distinct. */
  lemma ConsDistinct(head: SettledBet, rest: seq<SettledBet>)
    requires DistinctPlacedAt(rest)
    requires forall x :: x in rest ==> x.bet.placedAt != head.bet.placedAt
    ensures DistinctPlacedAt([head] + rest)
  {
    var r := [head] + rest;
    forall i, j | 0 <= i < j < |r| ensures r[i].bet.placedAt != r[j].bet.placedAt {
      assert r[j] == rest[j - 1];
      if i == 0 {
        assert rest[j - 1] in rest;
      } else {
        assert r[i] == rest[i - 1];
      }
    }
  }

  lemma {:induction false} UnseenDistinct(settled: seq<SettledBet>, seen: set<int>)
    requires DistinctPlacedAt(settled)
    ensures DistinctPlacedAt(Unseen(settled, seen))
  {
    if settled != [] {
      var tail := settled[1..];
      assert DistinctPlacedAt(tail) by {
        assert forall i :: 0 <= i < |tail| ==> tail[i] == settled[i + 1];
      }
      UnseenDistinct(tail, seen);
      var rest := Unseen(tail, seen);
      if settled[0].bet.placedAt in seen {
        assert Unseen(settled, seen) == [] + rest;
        assert [] + rest == rest;
      } else {
        forall x | x in rest ensures x.bet.placedAt != settled[0].bet.placedAt {
          var k :| 0 <= k < |tail| && tail[k] == x;
          assert settled[k + 1] == x;
        }
        ConsDistinct(settled[0], rest);
      }
    }
  }

  /** Merging never records one placement time twice. */
  lemma MergeKeepsDistinct(prev: seq<SettledBet>, settled: seq<SettledBet>)
    requires DistinctPlacedAt(prev) && DistinctPlacedAt(settled)
    ensures DistinctPlacedAt(MergeHistory(prev, settled))
  {
    var u := Unseen(settled, PlacedAts(prev));
    UnseenDistinct(settled, PlacedAts(prev));
    var all := u + prev;
    forall i, j | 0 <= i < j < |all| ensures all[i].bet.placedAt != all[j].bet.placedAt {
      if j < |u| {
        assert all[i] == u[i] && all[j] == u[j];
      } else if i < |u| {
        assert all[i] == u[i] && u[i] in u;
        assert all[j] == prev[j - |u|];
      } else {
        assert all[i] == prev[i - |u|] && all[j] == prev[j - |u|];
      }
    }
    var r := MergeHistory(prev, settled);
    assert forall i :: 0 <= i < |r| ==> r[i] == all[i];
  }

  /** Settling bets that are all recorded already leaves a history of at most 50 entries as it is. */
  lemma MergeOfRecorded(prev: seq<SettledBet>, settled: seq<SettledBet>)
    requires |prev| <= HistoryCap
    requires forall x :: x in settled ==> x.bet.placedAt in PlacedAts(prev)
    ensures MergeHistory(prev, settled) == prev
  {
    UnseenNone(settled, PlacedAts(prev));
    assert [] + prev == prev;
  }

  /** New settled bets come first, ahead of the older history. */
  lemma MergePutsNewFirst(prev: seq<SettledBet>, settled: seq<SettledBet>)
    requires |settled| <= HistoryCap
    requires forall x :: x in settled ==> x.bet.placedAt !in PlacedAts(prev)
    ensures var r := MergeHistory(prev, settled);
      |r| == if |settled| + |prev| < HistoryCap then |settled| + |prev| else HistoryCap
    ensures MergeHistory(prev, settled)[..|settled|] == settled
    ensures MergeHistory(prev, settled)[|settled|..] == prev[..|MergeHistory(prev, settled)| - |settled|]
  {
    UnseenAll(settled, PlacedAts(prev));
    var all := settled + prev;
    assert all[..|settled|] == settled;
    var r := MergeHistory(prev, settled);
    assert r == all[..|r|];
    assert r[|settled|..] == prev[..|r| - |settled|];
  }

  lemma {:induction false} UnseenNone(settled: seq<SettledBet>, seen: set<int>)
    requires forall x :: x in settled ==> x.bet.placedAt in seen
    ensures Unseen(settled, seen) == []
  {
    if settled != [] {
      assert settled[0] in settled;
      assert forall x :: x in settled[1..] ==> x in settled;
      UnseenNone(settled[1..], seen);
    }
  }

  lemma {:induction false} UnseenAll(settled: seq<SettledBet>, seen: set<int>)
    requires forall x :: x in settled ==> x.bet.placedAt !in seen
    ensures Unseen(settled, seen) == settled
  {
    if settled != [] {
      assert settled[0] in settled;
      assert forall x :: x in settled[1..] ==> x in settled;
      UnseenAll(settled[1..], seen);
      assert [settled[0]] + settled[1..] == settled;
    }
  }
}
