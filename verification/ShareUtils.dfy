/**
 * src/utils/shareUtils.js: a win record packed into a share link as six '|'-separated text
 * fields inside Base64, and unpacked again by the share page.
 */
module ShareUtils {
  import opened Wrappers
  import opened Numbers
  import opened Base64

  const Separator := '|'
  const DefaultTrend := "Rollercoaster"

  /** `text.split('|')`: always at least one part; empty parts are kept. */
  function Split(s: string): (parts: seq<string>)
    ensures |parts| >= 1
    decreases |s|
  {
    var k := IndexOf(s, Separator);
    if k == |s| then [s] else [s[..k]] + Split(s[k + 1..])
  }

  /** No part of a split holds the separator. */
  lemma {:induction false} SplitPartsHaveNoSeparator(s: string)
    ensures NoSeparator(Split(s))
    decreases |s|
  {
    var k := IndexOf(s, Separator);
    if k == |s| {
      assert forall i :: 0 <= i < |s| ==> s[i] != Separator;
    } else {
      SplitPartsHaveNoSeparator(s[k + 1..]);
      assert forall i :: 0 <= i < k ==> s[..k][i] != Separator;
      var parts := Split(s);
      assert forall i :: 1 <= i < |parts| ==> parts[i] == Split(s[k + 1..])[i - 1];
    }
  }

  /** The parts joined with '|', as the template string writes them. */
  function Join(parts: seq<string>): string
    requires |parts| >= 1
  {
    if |parts| == 1 then parts[0] else parts[0] + [Separator] + Join(parts[1..])
  }

  predicate NoSeparator(parts: seq<string>)
  {
    forall i :: 0 <= i < |parts| ==> Separator !in parts[i]
  }

  lemma SplitAtFirst(p: string, t: string)
    requires Separator !in p
    ensures Split(p + [Separator] + t) == [p] + Split(t)
  {
    var s := p + [Separator] + t;
    assert forall i :: 0 <= i < |p| ==> s[i] == p[i];
    IndexOfFirst(s, Separator, |p|);
    assert s[..|p|] == p && s[|p| + 1..] == t;
  }

  /** Splitting what `Join` wrote gives the parts back, when no part holds a '|'. */
  lemma {:induction false} SplitJoin(parts: seq<string>)
    requires |parts| >= 1 && NoSeparator(parts)
    ensures Split(Join(parts)) == parts
  {
    if |parts| == 1 {
      assert forall i :: 0 <= i < |parts[0]| ==> parts[0][i] != Separator;
    } else {
      SplitJoin(parts[1..]);
      SplitAtFirst(parts[0], Join(parts[1..]));
    }
  }

  /** Text after the joined parts, behind one more '|', only adds parts at the end. */
  lemma {:induction false} SplitJoinThen(parts: seq<string>, t: string)
    requires |parts| >= 1 && NoSeparator(parts)
    ensures Split(Join(parts) + [Separator] + t) == parts + Split(t)
  {
    if |parts| == 1 {
      assert Join(parts) == parts[0] && [parts[0]] == parts;
      SplitAtFirst(parts[0], t);
    } else {
      var tail := parts[1..];
      assert NoSeparator(tail) by {
        assert forall i :: 0 <= i < |tail| ==> tail[i] == parts[i + 1];
      }
      SplitJoinThen(tail, t);
      SplitJoinThenStep(parts, t);
    }
  }

  /** The inductive step of `SplitJoinThen`: one more leading part. */
  lemma SplitJoinThenStep(parts: seq<string>, t: string)
    requires |parts| >= 2 && Separator !in parts[0]
    requires Split(Join(parts[1..]) + [Separator] + t) == parts[1..] + Split(t)
    ensures Split(Join(parts) + [Separator] + t) == parts + Split(t)
  {
    var after := Join(parts[1..]) + [Separator] + t;
    assert Join(parts) + [Separator] + t == parts[0] + [Separator] + after;
    SplitAtFirst(parts[0], after);
    assert [parts[0]] + parts[1..] == parts;
  }

  /** The record the game shares; every field is already the text the template string writes. */
  datatype ShareData = ShareData(amount: string, s1: string, s2: string, s3: string, trend: string, time: string)

  /** A decoded time: the text that was shared, or the current clock when it was empty or missing. */
  datatype Time = Shared(text: string) | Clock(ms: int)

  /** What `decodeShareData` returns; `amount` is `None` where `parseFloat` gives NaN. */
  datatype WinRecord = WinRecord(amount: Option<real>, s1: string, s2: string, s3: string, trend: string, time: Time)

  function Fields(d: ShareData): seq<string>
  {
    [d.amount, d.s1, d.s2, d.s3, d.trend, d.time]
  }

  /** `encodeShareData`: `None` where `btoa` throws on a character above U+00FF. */
  function EncodeShareData(data: ShareData): (r: Option<string>)
    ensures r.Some? <==> IsLatin1(Join(Fields(data)))
  {
    Btoa(Join(Fields(data)))
  }

  /** Part `i` of a split, with a missing part read as empty: both are falsy to the `||` tests. */
  function Part(parts: seq<string>, i: nat): string
  {
    if i < |parts| then parts[i] else ""
  }

  /** The record read from the decoded text. */
  function FromParts(parts: seq<string>, now: int): (r: Option<WinRecord>)
    ensures r.Some? <==> Part(parts, 0) != "" && Part(parts, 1) != "" && Part(parts, 2) != "" && Part(parts, 3) != ""
  {
    var amount, s1, s2, s3, trend, time :=
      Part(parts, 0), Part(parts, 1), Part(parts, 2), Part(parts, 3), Part(parts, 4), Part(parts, 5);
    if amount == "" || s1 == "" || s2 == "" || s3 == "" then None
    else Some(WinRecord(
      ParseFloat(amount), s1, s2, s3,
      if trend == "" then DefaultTrend else trend,
      if time == "" then Clock(now) else Shared(time)))
  }

  /** `decodeShareData`: `None` both where it returns null and where `atob` throws and it catches. */
  function DecodeShareData(encodedData: string, now: int): (r: Option<WinRecord>)
    ensures Atob(encodedData).None? ==> r.None?
    ensures r.Some? ==> r.value.s1 != "" && r.value.s2 != "" && r.value.s3 != "" && r.value.trend != ""
  {
    match Atob(encodedData)
    case None => None
    case Some(dataString) => FromParts(Split(dataString), now)
  }

  /** The fields a share link can carry intact: Latin-1 and free of '|'. */
  predicate Shareable(text: string)
  {
    IsLatin1(text) && Separator !in text
  }

  predicate AllShareable(parts: seq<string>)
  {
    forall i :: 0 <= i < |parts| ==> Shareable(parts[i])
  }

  lemma Latin1Concat(a: string, b: string)
    requires IsLatin1(a) && IsLatin1(b)
    ensures IsLatin1(a + b)
  {
    assert forall i :: 0 <= i < |a + b| ==> (a + b)[i] == if i < |a| then a[i] else b[i - |a|];
  }

  lemma {:induction false} JoinLatin1(parts: seq<string>)
    requires |parts| >= 1 && forall i :: 0 <= i < |parts| ==> IsLatin1(parts[i])
    ensures IsLatin1(Join(parts))
  {
    if |parts| > 1 {
      JoinLatin1(parts[1..]);
      Latin1Concat(parts[0], [Separator]);
      Latin1Concat(parts[0] + [Separator], Join(parts[1..]));
    }
  }

  /** The record read from the six fields themselves. */
  lemma FromFields(data: ShareData, now: int)
    requires data.amount != "" && data.s1 != "" && data.s2 != "" && data.s3 != ""
    ensures FromParts(Fields(data), now) == Some(WinRecord(
      ParseFloat(data.amount), data.s1, data.s2, data.s3,
      if data.trend == "" then DefaultTrend else data.trend,
      if data.time == "" then Clock(now) else Shared(data.time)))
  {
  }

  /**
   * Decoding an encoded record gives back s1, s2, s3 and the trend and time texts, and the amount
   * as `parseFloat` reads it; an empty trend comes back as "Rollercoaster", an empty time as the clock.
   */
  lemma ShareRoundTrip(data: ShareData, now: int)
    requires AllShareable(Fields(data))
    requires data.amount != "" && data.s1 != "" && data.s2 != "" && data.s3 != ""
    ensures EncodeShareData(data).Some?
    ensures DecodeShareData(EncodeShareData(data).value, now) == Some(WinRecord(
      ParseFloat(data.amount), data.s1, data.s2, data.s3,
      if data.trend == "" then DefaultTrend else data.trend,
      if data.time == "" then Clock(now) else Shared(data.time)))
  {
    var parts := Fields(data);
    var text := Join(parts);
    assert Btoa(text).Some? && Atob(Btoa(text).value) == Some(text) by {
      JoinShareable(parts);
      AtobBtoa(text);
    }
    assert DecodeShareData(Btoa(text).value, now) == FromParts(Split(text), now);
    assert Split(text) == parts by {
      JoinShareable(parts);
      SplitJoin(parts);
    }
    FromFields(data, now);
  }

  lemma FromPartsIgnoresLater(parts: seq<string>, more: seq<string>, now: int)
    requires |parts| >= 6
    ensures FromParts(parts + more, now) == FromParts(parts, now)
  {
    assert forall i :: 0 <= i < 6 ==> Part(parts + more, i) == Part(parts, i);
  }

  /** A joined record of shareable fields is Latin-1 text whose split gives the fields back. */
  lemma JoinShareable(parts: seq<string>)
    requires |parts| >= 1 && AllShareable(parts)
    ensures IsLatin1(Join(parts)) && NoSeparator(parts)
  {
    JoinLatin1(parts);
  }

  /** Parts after the sixth do not change what is decoded. */
  lemma ExtraPartsIgnored(data: ShareData, extra: string, now: int)
    requires AllShareable(Fields(data))
    requires IsLatin1(extra)
    ensures var longer := Btoa(Join(Fields(data)) + [Separator] + extra);
      longer.Some? && DecodeShareData(longer.value, now) == FromParts(Fields(data), now)
  {
    var parts := Fields(data);
    var text := Join(parts) + [Separator] + extra;
    JoinShareable(parts);
    Latin1Concat(Join(parts), [Separator]);
    Latin1Concat(Join(parts) + [Separator], extra);
    AtobBtoa(text);
    SplitJoinThen(parts, extra);
    FromPartsIgnoresLater(parts, Split(extra), now);
  }

  /** Decimal digits of a clock reading, as `${Date.now()}` writes it. */
  function NatToString(n: nat): (s: string)
    ensures s != [] && AllDigits(s)
  {
    if n < 10 then [('0' as int + n) as char]
    else NatToString(n / 10) + [('0' as int + n % 10) as char]
  }

  /** What the share page is given: missing round results and trend name are `None`. */
  datatype WinData = WinData(
    amount: string,
    round1Result: Option<string>, round2Result: Option<string>, round3Result: Option<string>,
    trendName: Option<string>)

  /** `value || fallback` for an optional string. */
  function OrDefault(value: Option<string>, fallback: string): (r: string)
    ensures value.Some? && value.value != "" ==> r == value.value
    ensures value.None? || value.value == "" ==> r == fallback
  {
    if value.Some? && value.value != "" then value.value else fallback
  }

  function ShareFields(winData: WinData, now: nat): ShareData
  {
    ShareData(
      winData.amount,
      OrDefault(winData.round1Result, "up"),
      OrDefault(winData.round2Result, "down"),
      OrDefault(winData.round3Result, "up"),
      OrDefault(winData.trendName, DefaultTrend),
      NatToString(now))
  }

  /** `generateShareUrl`: the page's protocol and host, then `/win?d=` and the encoded record. */
  function GenerateShareUrl(protocol: string, host: string, winData: WinData, now: nat): (r: Option<string>)
    ensures r.Some? <==> EncodeShareData(ShareFields(winData, now)).Some?
    ensures r.Some? ==> r.value == protocol + "//" + host + "/win?d=" + EncodeShareData(ShareFields(winData, now)).value
  {
    match EncodeShareData(ShareFields(winData, now))
    case None => None
    case Some(encoded) => Some(protocol + "//" + host + "/win?d=" + encoded)
  }

  lemma DigitsShareable(s: string)
    requires AllDigits(s)
    ensures Shareable(s)
  {
    assert forall i :: 0 <= i < |s| ==> s[i] != Separator;
  }

  /**
   * The link's record decodes to the given round results, or 'up', 'down', 'up' where one is
   * missing or empty, the trend name or "Rollercoaster", and the clock reading as text.
   */
  lemma ShareUrlDefaults(winData: WinData, now: nat, nowAtDecode: int)
    requires winData.amount != "" && Shareable(winData.amount)
    requires winData.round1Result.Some? ==> Shareable(winData.round1Result.value)
    requires winData.round2Result.Some? ==> Shareable(winData.round2Result.value)
    requires winData.round3Result.Some? ==> Shareable(winData.round3Result.value)
    requires winData.trendName.Some? ==> Shareable(winData.trendName.value)
    ensures var encoded := EncodeShareData(ShareFields(winData, now));
      && encoded.Some?
      && DecodeShareData(encoded.value, nowAtDecode) == Some(WinRecord(
        ParseFloat(winData.amount),
        OrDefault(winData.round1Result, "up"),
        OrDefault(winData.round2Result, "down"),
        OrDefault(winData.round3Result, "up"),
        OrDefault(winData.trendName, DefaultTrend),
        Shared(NatToString(now))))
  {
    var data := ShareFields(winData, now);
    ShareFieldsFacts(winData, now);
    ShareRoundTrip(data, nowAtDecode);
  }

  /** The fields `generateShareUrl` fills in are shareable, and all but the amount are non-empty. */
  lemma ShareFieldsFacts(winData: WinData, now: nat)
    requires winData.amount != "" && Shareable(winData.amount)
    requires winData.round1Result.Some? ==> Shareable(winData.round1Result.value)
    requires winData.round2Result.Some? ==> Shareable(winData.round2Result.value)
    requires winData.round3Result.Some? ==> Shareable(winData.round3Result.value)
    requires winData.trendName.Some? ==> Shareable(winData.trendName.value)
    ensures var data := ShareFields(winData, now);
      && AllShareable(Fields(data))
      && data.amount != "" && data.s1 != "" && data.s2 != "" && data.s3 != ""
      && data.trend != "" && data.time != ""
  {
    DigitsShareable(NatToString(now));
    assert Shareable("up") && Shareable("down") && Shareable(DefaultTrend);
  }
}
