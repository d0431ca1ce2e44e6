/**
 * The browser's `btoa` and `atob`, which the share links are built on. `btoa` reads its argument
 * as Latin-1 code units (a character above U+00FF makes it throw) and writes Base64 as in section 4
 * of RFC 4648, with `=` padding. `atob` is the forgiving-base64 decode of the WHATWG Infra
 * standard: ASCII whitespace is dropped, padding is optional, and leftover bits are discarded.
 */
module Base64 {
  import opened Wrappers
  import opened Bytes

  /** One 6-bit value as its character of the RFC 4648 alphabet. */
  function EncodeChar(v: int): (c: char)
    requires IsSextet(v)
  {
    if v < 26 then ('A' as int + v) as char
    else if v < 52 then ('a' as int + (v - 26)) as char
    else if v < 62 then ('0' as int + (v - 52)) as char
    else if v == 62 then '+'
    else '/'
  }

  predicate IsBase64Char(c: char)
  {
    'A' <= c <= 'Z' || 'a' <= c <= 'z' || '0' <= c <= '9' || c == '+' || c == '/'
  }

  function DecodeChar(c: char): (v: int)
    requires IsBase64Char(c)
    ensures IsSextet(v)
  {
    if 'A' <= c <= 'Z' then c as int - 'A' as int
    else if 'a' <= c <= 'z' then c as int - 'a' as int + 26
    else if '0' <= c <= '9' then c as int - '0' as int + 52
    else if c == '+' then 62
    else 63
  }

  /** The alphabet is a bijection between 0..63 and its 64 characters. */
  lemma AlphabetBijection(v: int, c: char)
    requires IsSextet(v)
    ensures IsBase64Char(EncodeChar(v)) && DecodeChar(EncodeChar(v)) == v
    ensures IsBase64Char(c) ==> EncodeChar(DecodeChar(c)) == c
  {
  }

  predicate IsSextet(v: int)
  {
    0 <= v < 64
  }

  /** The 6-bit groups of `b`, three bytes to four groups; a final one or two bytes give two or three groups. */
  function Sextets(b: seq<byte>): (v: seq<int>)
    ensures forall i :: 0 <= i < |v| ==> IsSextet(v[i])
    ensures |v| % 4 == if |b| % 3 == 0 then 0 else |b| % 3 + 1
  {
    if |b| == 0 then []
    else if |b| == 1 then [b[0] / 4, b[0] % 4 * 16]
    else if |b| == 2 then [b[0] / 4, b[0] % 4 * 16 + b[1] / 16, b[1] % 16 * 4]
    else [b[0] / 4, b[0] % 4 * 16 + b[1] / 16, b[1] % 16 * 4 + b[2] / 64, b[2] % 64] + Sextets(b[3..])
  }

  function Padding(n: nat): string
  {
    if n % 3 == 1 then "==" else if n % 3 == 2 then "=" else ""
  }

  function EncodeAll(v: seq<int>): (s: string)
    requires forall i :: 0 <= i < |v| ==> IsSextet(v[i])
    ensures |s| == |v| && forall i :: 0 <= i < |v| ==> s[i] == EncodeChar(v[i])
  {
    if v == [] then []
    else
      assert IsSextet(v[0]);
      [EncodeChar(v[0])] + EncodeAll(v[1..])
  }

  /** Base64 with padding (RFC 4648 section 4). */
  function Encode(b: seq<byte>): (s: string)
  {
    EncodeAll(Sextets(b)) + Padding(|b|)
  }

  lemma {:induction false} SextetsLength(b: seq<byte>)
    ensures |Sextets(b)| == 4 * (|b| / 3) + (if |b| % 3 == 0 then 0 else |b| % 3 + 1)
  {
    if |b| >= 3 {
      SextetsLength(b[3..]);
      assert (|b| - 3) / 3 == |b| / 3 - 1 && (|b| - 3) % 3 == |b| % 3;
    }
  }

  /** Every three bytes, and a final one or two, become four characters. */
  lemma EncodeLength(b: seq<byte>)
    ensures |Encode(b)| == 4 * ((|b| + 2) / 3)
  {
    SextetsLength(b);
    var n := |b|;
    if n % 3 == 0 {
      assert (n + 2) / 3 == n / 3;
    } else {
      assert (n + 2) / 3 == n / 3 + 1;
    }
  }

  predicate IsAsciiWhitespace(c: char)
  {
    c == '\t' || c == '\n' || c == 12 as char || c == '\r' || c == ' '
  }

  function RemoveWhitespace(s: string): (r: string)
    ensures forall i :: 0 <= i < |r| ==> !IsAsciiWhitespace(r[i])
    ensures (forall i :: 0 <= i < |s| ==> !IsAsciiWhitespace(s[i])) ==> r == s
  {
    if s == [] then []
    else (if IsAsciiWhitespace(s[0]) then [] else [s[0]]) + RemoveWhitespace(s[1..])
  }

  /** A length that divides by 4 loses one or two trailing `=`. */
  function StripPadding(s: string): string
  {
    if |s| % 4 != 0 then s
    else if |s| >= 2 && s[|s| - 2..] == "==" then s[..|s| - 2]
    else if |s| >= 1 && s[|s| - 1] == '=' then s[..|s| - 1]
    else s
  }

  function DecodeAll(s: string): (v: seq<int>)
    requires forall i :: 0 <= i < |s| ==> IsBase64Char(s[i])
    ensures |v| == |s| && forall i :: 0 <= i < |s| ==> v[i] == DecodeChar(s[i])
  {
    if s == [] then [] else [DecodeChar(s[0])] + DecodeAll(s[1..])
  }

  /** First byte of a group: all six bits of `p`, top two of `q`. */
  function High(p: int, q: int): byte
    requires IsSextet(p) && IsSextet(q)
  {
    p * 4 + q / 16
  }

  /** Second byte: low four bits of `q`, top four of `r`. */
  function Middle(q: int, r: int): byte
    requires IsSextet(q) && IsSextet(r)
  {
    q % 16 * 16 + r / 4
  }

  /** Third byte: low two bits of `r`, all six of `s`. */
  function Low(r: int, s: int): byte
    requires IsSextet(r) && IsSextet(s)
  {
    r % 4 * 64 + s
  }

  /** Bytes from 6-bit groups, four groups to three bytes; a final two or three groups give one or two bytes. */
  function BytesOf(v: seq<int>): seq<byte>
    requires forall i :: 0 <= i < |v| ==> IsSextet(v[i])
    requires |v| % 4 != 1
  {
    if |v| < 2 then []
    else if |v| == 2 then [High(v[0], v[1])]
    else if |v| == 3 then [High(v[0], v[1]), Middle(v[1], v[2])]
    else [High(v[0], v[1]), Middle(v[1], v[2]), Low(v[2], v[3])] + BytesOf(v[4..])
  }

  /** Forgiving-base64 decode: `None` is the failure that makes `atob` throw. */
  function Decode(s: string): (r: Option<seq<byte>>)
  {
    var t := StripPadding(RemoveWhitespace(s));
    if |t| % 4 == 1 then None
    else if exists i :: 0 <= i < |t| && !IsBase64Char(t[i]) then None
    else Some(BytesOf(DecodeAll(t)))
  }

  predicate IsLatin1(s: string)
  {
    forall i :: 0 <= i < |s| ==> s[i] as int < 256
  }

  function Latin1Bytes(s: string): (b: seq<byte>)
    requires IsLatin1(s)
    ensures |b| == |s| && forall i :: 0 <= i < |s| ==> b[i] == s[i] as int
  {
    if s == [] then [] else [s[0] as int] + Latin1Bytes(s[1..])
  }

  function Latin1String(b: seq<byte>): (s: string)
    ensures |s| == |b| && forall i :: 0 <= i < |b| ==> s[i] as int == b[i]
  {
    if b == [] then [] else [b[0] as char] + Latin1String(b[1..])
  }

  /** `btoa(text)`: `None` when a character is above U+00FF, where `btoa` throws. */
  function Btoa(s: string): (r: Option<string>)
    ensures r.Some? <==> IsLatin1(s)
  {
    if IsLatin1(s) then Some(Encode(Latin1Bytes(s))) else None
  }

  /** `atob(text)`: `None` where `atob` throws. */
  function Atob(s: string): (r: Option<string>)
    ensures r.Some? ==> IsLatin1(r.value)
  {
    match Decode(s)
    case Some(b) => Some(Latin1String(b))
    case None => None
  }

  lemma GroupRoundTrip(a: byte, b: byte, c: byte)
    ensures (a / 4) * 4 + (a % 4 * 16 + b / 16) / 16 == a
    ensures (a % 4 * 16 + b / 16) % 16 * 16 + (b % 16 * 4 + c / 64) / 4 == b
    ensures (b % 16 * 4 + c / 64) % 4 * 64 + c % 64 == c
    ensures (a % 4 * 16 + b / 16) % 16 * 16 + (b % 16 * 4) / 4 == b
    ensures (a / 4) * 4 + (a % 4 * 16) / 16 == a
  {
  }

  lemma {:induction false} BytesOfSextets(b: seq<byte>)
    ensures BytesOf(Sextets(b)) == b
  {
    if |b| >= 3 {
      var w := Sextets(b[3..]);
      BytesOfSextets(b[3..]);
      BytesOfGroup(b[0], b[1], b[2], w);
      assert Sextets(b) == [b[0] / 4, b[0] % 4 * 16 + b[1] / 16, b[1] % 16 * 4 + b[2] / 64, b[2] % 64] + w;
      assert b == [b[0], b[1], b[2]] + b[3..];
    } else if |b| == 2 {
      GroupRoundTrip(b[0], b[1], 0);
    } else if |b| == 1 {
      GroupRoundTrip(b[0], 0, 0);
    }
  }

  /** Four sextets made from three bytes decode to those bytes, ahead of whatever follows. */
  lemma BytesOfGroup(x: byte, y: byte, z: byte, w: seq<int>)
    requires forall i :: 0 <= i < |w| ==> IsSextet(w[i])
    requires |w| % 4 != 1
    ensures var v := [x / 4, x % 4 * 16 + y / 16, y % 16 * 4 + z / 64, z % 64] + w;
      (forall i :: 0 <= i < |v| ==> IsSextet(v[i])) && |v| % 4 != 1 && BytesOf(v) == [x, y, z] + BytesOf(w)
  {
    var v := [x / 4, x % 4 * 16 + y / 16, y % 16 * 4 + z / 64, z % 64] + w;
    assert v[4..] == w;
    GroupRoundTrip(x, y, z);
  }

  lemma EncodedBody(b: seq<byte>)
    ensures forall i :: 0 <= i < |EncodeAll(Sextets(b))| ==> IsBase64Char(EncodeAll(Sextets(b))[i])
    ensures DecodeAll(EncodeAll(Sextets(b))) == Sextets(b)
  {
    var v := Sextets(b);
    var body := EncodeAll(v);
    forall i | 0 <= i < |v|
      ensures IsBase64Char(body[i]) && DecodeChar(body[i]) == v[i]
    {
      AlphabetBijection(v[i], 'A');
    }
  }

  lemma StripPaddingOfEncode(b: seq<byte>)
    ensures StripPadding(Encode(b)) == EncodeAll(Sextets(b))
  {
    var body, pad := EncodeAll(Sextets(b)), Padding(|b|);
    assert |body + pad| % 4 == 0 by {
      EncodeLength(b);
      var k := (|b| + 2) / 3;
      assert |body + pad| == 4 * k;
    }
    assert forall i :: 0 <= i < |body| ==> IsBase64Char(body[i]) by {
      EncodedBody(b);
    }
    StripPaddingOf(body, pad);
  }

  /** Alphabet text followed by zero, one or two `=` to a multiple of four loses exactly the `=`. */
  lemma StripPaddingOf(body: string, pad: string)
    requires |body + pad| % 4 == 0
    requires forall i :: 0 <= i < |body| ==> IsBase64Char(body[i])
    requires pad == "" || pad == "=" || pad == "=="
    ensures StripPadding(body + pad) == body
  {
    var s := body + pad;
    if pad == "" {
      assert s == body;
      if |s| > 0 {
        assert s[|s| - 2..][1] == body[|body| - 1];
        assert IsBase64Char(body[|body| - 1]);
      }
    } else if pad == "==" {
      assert s[|s| - 2..] == "==";
      assert s[..|s| - 2] == body;
    } else {
      assert s[|s| - 2..][0] == body[|body| - 1];
      assert IsBase64Char(body[|body| - 1]);
      assert s[..|s| - 1] == body;
    }
  }

  lemma EncodeHasNoWhitespace(b: seq<byte>)
    ensures RemoveWhitespace(Encode(b)) == Encode(b)
  {
    var s := Encode(b);
    var body := EncodeAll(Sextets(b));
    assert s == body + Padding(|b|);
    EncodedBody(b);
    forall i | 0 <= i < |s|
      ensures !IsAsciiWhitespace(s[i])
    {
      if i < |body| {
        assert s[i] == body[i] && IsBase64Char(body[i]);
      } else {
        assert s[i] == '=';
      }
    }
  }

  /** Decoding what `Encode` wrote gives the bytes back. */
  lemma DecodeEncode(b: seq<byte>)
    ensures Decode(Encode(b)) == Some(b)
  {
    var v := Sextets(b);
    var t := EncodeAll(v);
    EncodeHasNoWhitespace(b);
    StripPaddingOfEncode(b);
    assert StripPadding(RemoveWhitespace(Encode(b))) == t;
    assert |t| % 4 != 1;
    EncodedBody(b);
    assert !exists i :: 0 <= i < |t| && !IsBase64Char(t[i]);
    BytesOfSextets(b);
    assert BytesOf(DecodeAll(t)) == b;
  }

  /** `atob(btoa(text))` gives back any Latin-1 text. */
  lemma AtobBtoa(s: string)
    requires IsLatin1(s)
    ensures Btoa(s).Some? && Atob(Btoa(s).value) == Some(s)
  {
    DecodeEncode(Latin1Bytes(s));
    assert Latin1String(Latin1Bytes(s)) == s;
  }

  /** `atob` fails exactly on a leftover of one character after whitespace and padding are removed,
      or on a character outside the alphabet. */
  lemma DecodeFailures(s: string)
    ensures var t := StripPadding(RemoveWhitespace(s));
      Decode(s).None? <==> |t| % 4 == 1 || exists i :: 0 <= i < |t| && !IsBase64Char(t[i])
  {
  }
}
