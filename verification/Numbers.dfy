/**
 * The price text the feed sends ("65,000.50") and the two JavaScript conversions applied to it:
 * `Number(text)`, which accepts the whole text or yields NaN, and `parseFloat(text)`, which reads
 * the longest numeric prefix. Both are modelled on plain decimal notation; `None` stands for NaN.
 */
module Numbers {
  import opened Wrappers

  predicate IsDigit(c: char)
  {
    '0' <= c <= '9'
  }

  predicate AllDigits(s: string)
  {
    forall i :: 0 <= i < |s| ==> IsDigit(s[i])
  }

  /** The value of a run of decimal digits. */
  function DigitsValue(s: string): (v: nat)
    requires AllDigits(s)
  {
    if s == [] then 0 else DigitsValue(s[..|s| - 1]) * 10 + (s[|s| - 1] as int - '0' as int)
  }

  function Pow10(n: nat): (p: nat)
    ensures p >= 1
  {
    if n == 0 then 1 else 10 * Pow10(n - 1)
  }

  /** Index of the first occurrence of `c` in `s`, or `|s|`. */
  function IndexOf(s: string, c: char): (k: nat)
    ensures k <= |s|
    ensures k < |s| ==> s[k] == c
    ensures forall i :: 0 <= i < k ==> s[i] != c
  {
    if s == [] then 0 else if s[0] == c then 0 else 1 + IndexOf(s[1..], c)
  }

  lemma {:induction false} IndexOfFirst(s: string, c: char, k: nat)
    requires k < |s| && s[k] == c && forall i :: 0 <= i < k ==> s[i] != c
    ensures IndexOf(s, c) == k
  {
    if k > 0 {
      IndexOfFirst(s[1..], c, k - 1);
    }
  }

  /** `digits`, `digits.`, `.digits` or `digits.digits`, with at least one digit. */
  function UnsignedDecimal(s: string): (r: Option<real>)
    ensures r.Some? ==> r.value >= 0.0
  {
    var k := IndexOf(s, '.');
    var whole := s[..k];
    var frac := if k < |s| then s[k + 1..] else [];
    if AllDigits(whole) && AllDigits(frac) && |whole| + |frac| > 0 then
      Some(DigitsValue(whole) as real + DigitsValue(frac) as real / Pow10(|frac|) as real)
    else None
  }

  /** `Number(text)` on decimal notation: the empty text is 0, anything malformed is NaN. */
  function ParseNumber(s: string): (r: Option<real>)
    ensures s == "" ==> r == Some(0.0)
    ensures r.Some? && s != "" && s[0] != '-' ==> r.value >= 0.0
  {
    if s == "" then Some(0.0)
    else if s[0] == '-' then
      match UnsignedDecimal(s[1..])
      case Some(v) => Some(-v)
      case None => None
    else if s[0] == '+' then UnsignedDecimal(s[1..])
    else UnsignedDecimal(s)
  }

  /** Length of the run of digits at the start of `s`. */
  function DigitRun(s: string): (n: nat)
    ensures n <= |s| && AllDigits(s[..n])
    ensures n < |s| ==> !IsDigit(s[n])
  {
    if s == [] || !IsDigit(s[0]) then 0
    else
      var n := 1 + DigitRun(s[1..]);
      assert forall i :: 1 <= i < n ==> s[..n][i] == s[1..][..n - 1][i - 1];
      n
  }

  function SignLength(s: string): (n: nat)
    ensures n <= |s|
  {
    if |s| > 0 && (s[0] == '+' || s[0] == '-') then 1 else 0
  }

  /** Number of digits after a decimal point at `at`, if there is one. */
  function FractionRun(s: string, at: nat): (n: nat)
    requires at <= |s|
    ensures n > 0 ==> at + 1 + n <= |s|
  {
    if at < |s| && s[at] == '.' then DigitRun(s[at + 1..]) else 0
  }

  /**
   * `parseFloat(text)`: the value of the longest prefix made of a sign, digits, and a point
   * followed by digits; NaN when that prefix holds no digit.
   */
  function ParseFloat(s: string): (r: Option<real>)
  {
    var sign := SignLength(s);
    var whole := DigitRun(s[sign..]);
    var frac := FractionRun(s, sign + whole);
    if whole + frac == 0 then None
    else if frac == 0 then ParseNumber(s[..sign + whole])
    else ParseNumber(s[..sign + whole + 1 + frac])
  }

  /** `text.replace(/,/g, "")` */
  function StripCommas(s: string): (r: string)
    ensures |r| <= |s|
    ensures forall c :: c in r <==> c in s && c != ','
    ensures ',' !in s ==> r == s
  {
    if s == [] then []
    else (if s[0] == ',' then [] else [s[0]]) + StripCommas(s[1..])
  }

  lemma {:induction false} StripCommasAppend(a: string, b: string)
    ensures StripCommas(a + b) == StripCommas(a) + StripCommas(b)
  {
    if a == [] {
      assert a + b == b;
    } else {
      var head := if a[0] == ',' then [] else [a[0]];
      assert (a + b)[0] == a[0] && (a + b)[1..] == a[1..] + b;
      StripCommasAppend(a[1..], b);
      assert StripCommas(a + b) == head + StripCommas(a[1..] + b);
      assert StripCommas(a) == head + StripCommas(a[1..]);
    }
  }

  lemma {:induction false} DigitRunOfDigits(lead: string, rest: string)
    requires AllDigits(lead) && (rest == [] || !IsDigit(rest[0]))
    ensures DigitRun(lead + rest) == |lead|
  {
    if lead != [] {
      assert (lead + rest)[0] == lead[0] && (lead + rest)[1..] == lead[1..] + rest;
      DigitRunOfDigits(lead[1..], rest);
    }
  }

  lemma NumberOfDigits(s: string)
    requires AllDigits(s) && s != ""
    ensures ParseNumber(s) == Some(DigitsValue(s) as real)
  {
    assert s[0] != '-' && s[0] != '+' by {
      assert IsDigit(s[0]);
    }
    assert UnsignedDecimal(s) == Some(DigitsValue(s) as real) by {
      UnsignedOfDigits(s);
    }
  }

  lemma UnsignedOfDigits(s: string)
    requires AllDigits(s) && s != ""
    ensures UnsignedDecimal(s) == Some(DigitsValue(s) as real)
  {
    var k := IndexOf(s, '.');
    assert k == |s| by {
      assert forall i :: 0 <= i < |s| ==> s[i] != '.';
    }
    assert s[..k] == s;
    assert DigitsValue([]) == 0;
  }

  /**
   * `parseFloat` stops at the first thousands separator: on digits followed by a comma it
   * reads only the digits before the comma, whatever follows.
   */
  lemma ParseFloatStopsAtComma(lead: string, rest: string)
    requires AllDigits(lead) && lead != ""
    ensures ParseFloat(lead + ([','] + rest)) == Some(DigitsValue(lead) as real)
  {
    var s := lead + ([','] + rest);
    assert s[0] == lead[0] && IsDigit(lead[0]);
    assert SignLength(s) == 0 && s[0..] == s;
    DigitRunOfDigits(lead, [','] + rest);
    assert s[|lead|] == ',';
    assert s[..|lead|] == lead;
    NumberOfDigits(lead);
  }

  lemma AllDigitsAppend(a: string, b: string)
    requires AllDigits(a) && AllDigits(b)
    ensures AllDigits(a + b)
  {
    assert forall i :: 0 <= i < |a + b| ==> (a + b)[i] == if i < |a| then a[i] else b[i - |a|];
  }

  lemma ShiftDigit(x: int, p: int, y: int, d: int)
    ensures (x * p + y) * 10 + d == x * (10 * p) + (y * 10 + d)
  {
  }

  lemma {:induction false} DigitsValueAppend(a: string, b: string)
    requires AllDigits(a) && AllDigits(b)
    ensures AllDigits(a + b)
    ensures DigitsValue(a + b) == DigitsValue(a) * Pow10(|b|) + DigitsValue(b)
  {
    AllDigitsAppend(a, b);
    if b == [] {
      assert a + b == a;
    } else {
      var init := b[..|b| - 1];
      assert AllDigits(init) by {
        assert forall i :: 0 <= i < |init| ==> init[i] == b[i];
      }
      DigitsValueAppend(a, init);
      assert (a + b)[..|a + b| - 1] == a + init;
      assert (a + b)[|a + b| - 1] == b[|b| - 1];
      var d := b[|b| - 1] as int - '0' as int;
      assert DigitsValue(a + b) == DigitsValue(a + init) * 10 + d;
      assert DigitsValue(b) == DigitsValue(init) * 10 + d;
      ShiftDigit(DigitsValue(a), Pow10(|init|), DigitsValue(init), d);
    }
  }

  lemma StripOneSeparator(lead: string, rest: string)
    requires ',' !in lead && ',' !in rest
    ensures StripCommas(lead + ([','] + rest)) == lead + rest
  {
    var sep: string := [','];
    assert StripCommas(sep) == [] by {
      assert sep[1..] == [];
    }
    StripCommasAppend(sep, rest);
    assert StripCommas(rest) == rest;
    assert [] + rest == rest;
    assert StripCommas(sep + rest) == rest;
    StripCommasAppend(lead, sep + rest);
    assert StripCommas(lead) == lead;
  }

  lemma ScaleGrows(x: nat, p: nat)
    requires x > 0 && p >= 10
    ensures x < x * p
  {
    assert x * p == x * (p - 1) + x;
    assert x * (p - 1) >= 0;
  }

  /**
   * A grouped amount "lead,rest": `parseFloat` reads only the leading group, while `Number`
   * after removing the separators reads the whole amount, which is strictly larger when the
   * leading group is not zero.
   */
  lemma GroupedAmount(lead: string, rest: string)
    requires AllDigits(lead) && AllDigits(rest) && lead != "" && rest != ""
    requires DigitsValue(lead) > 0
    ensures ParseFloat(lead + ([','] + rest)) == Some(DigitsValue(lead) as real)
    ensures ParseNumber(StripCommas(lead + ([','] + rest))) == Some(DigitsValue(lead + rest) as real)
    ensures DigitsValue(lead) < DigitsValue(lead + rest)
  {
    ParseFloatStopsAtComma(lead, rest);
    StripOneSeparator(lead, rest);
    DigitsValueAppend(lead, rest);
    NumberOfDigits(lead + rest);
    assert Pow10(|rest|) == 10 * Pow10(|rest| - 1);
    ScaleGrows(DigitsValue(lead), Pow10(|rest|));
  }
}
