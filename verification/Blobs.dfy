/**
 The text form of signature packets: bytes printed as a hexadecimal tag, with an
 optional tag for leading random bytes (app/managers/awg_cps.py,
 app/managers/awg_health.py).
 */
module Blobs {
  import opened Tables
  import opened Text
  import opened Bytes

  function Hex(raw: Bytes): (s: string)
    ensures |s| == 2 * |raw|
    ensures forall i :: 0 <= i < |s| ==> IsHex(s[i])
  {
    if raw == [] then "" else HexByte(raw[0]) + Hex(raw[1..])
  }

  const TAG := "<b 0x"
  const RANDOM := "<r "

  function ToCps(raw: Bytes): string {
    TAG + Hex(raw) + ">"
  }

  /** The tag that asks for `n` random bytes in front. */
  function RandomTag(n: nat): string {
    RANDOM + Dec(n) + ">"
  }

  // ----- Parsing -----

  function HexValue(c: char): Option<nat> {
    if IsDigit(c) then Some((c as int - '0' as int) as nat)
    else if 'a' <= c <= 'f' then Some((c as int - 'a' as int) as nat + 10)
    else if 'A' <= c <= 'F' then Some((c as int - 'A' as int) as nat + 10)
    else None
  }

  predicate AsciiSpace(c: char) {
    c == ' ' || '\t' <= c <= '\r'
  }

  /** bytes.fromhex: pairs of digits, with space allowed between bytes. */
  function FromHex(s: string): (r: Option<Bytes>)
    ensures r.Some? ==> 2 * |r.value| <= |s|
  {
    if s == "" then Some([])
    else if AsciiSpace(s[0]) then FromHex(s[1..])
    else if |s| < 2 || HexValue(s[0]).None? || HexValue(s[1]).None? then None
    else
      var rest := FromHex(s[2..]);
      if rest.None? then None
      else
        var b: Byte := PairValue(s[0], s[1]);
        Some([b] + rest.value)
  }

  function PairValue(a: char, b: char): (n: nat)
    requires HexValue(a).Some? && HexValue(b).Some?
    ensures n < 256
  {
    HexValue(a).value * 16 + HexValue(b).value
  }

  /** int(): surrounding space and a sign are allowed. */
  function ParseInt(s: string): Option<int> {
    var t := Strip(s);
    if t != "" && (t[0] == '-' || t[0] == '+') then
      var n := ParseNat(t[1..]);
      if n.None? then None
      else
        var v: int := n.value;
        Some(if t[0] == '-' then -v else v)
    else
      var n := ParseNat(t);
      if n.None? then None else Some(n.value)
  }

  function Find(s: string, c: char): (r: Option<nat>)
    ensures r.Some? ==> r.value < |s| && s[r.value] == c && forall i :: 0 <= i < r.value ==> s[i] != c
    ensures r.None? ==> c !in s
  {
    if s == "" then None
    else if s[0] == c then Some(0)
    else
      var rest := Find(s[1..], c);
      if rest.None? then None else Some(rest.value + 1)
  }

  datatype Split = Split(count: int, rest: string)

  /** Takes a leading random tag off. A count that is no number counts as zero. */
  function TakeRandomTag(s: string): (r: Split)
    ensures |r.rest| <= |s|
  {
    var end := Find(s, '>');
    if RANDOM <= s && end.Some? && end.value >= 3 then
      var n := ParseInt(Strip(s[3..end.value]));
      StripShorter(s[end.value + 1..]);
      Split(if n.Some? then n.value else 0, Strip(s[end.value + 1..]))
    else Split(0, s)
  }

  lemma {:induction false} StripShorter(s: string)
    ensures |Strip(s)| <= |s|
  {
    LStripShorter(s);
  }

  lemma {:induction false} LStripShorter(s: string)
    ensures |LStrip(s)| <= |s|
  {
    if s != "" && IsSpace(s[0]) { LStripShorter(s[1..]); }
  }

  /** The hexadecimal tag; the first `count` bytes are replaced if there are that many. */
  function ParseTag(s: string, count: int, noise: Bytes): Bytes
    requires |s| <= |noise|
  {
    if TAG <= s && s[|s| - 1] == '>' then
      var digits := s[5..|s| - 1];
      StripShorter(digits);
      var raw := FromHex(Strip(digits));
      if raw.None? then []
      else if 0 < count <= |raw.value| then noise[..count] + raw.value[count..]
      else raw.value
    else []
  }

  /** The bytes of a blob; `noise` is where random bytes come from. */
  function ParseBlob(tag: string, noise: Bytes): Bytes
    requires |tag| <= |noise|
  {
    StripShorter(tag);
    var t := TakeRandomTag(Strip(tag));
    ParseTag(t.rest, t.count, noise)
  }

  // ----- Printing and parsing are inverse -----

  lemma {:induction false} PairReads(b: Byte)
    ensures HexValue(HexByte(b)[0]) == Some(b / 16) && HexValue(HexByte(b)[1]) == Some(b % 16)
    ensures PairValue(HexByte(b)[0], HexByte(b)[1]) == b
  {
    PrintedDigitReads(b / 16);
    PrintedDigitReads(b % 16);
  }

  lemma {:induction false} PrintedDigitReads(n: nat)
    requires n < 16
    ensures HexValue(HexDigit(n)) == Some(n)
  {
  }

  lemma {:induction false} HexReads(raw: Bytes)
    ensures FromHex(Hex(raw)) == Some(raw)
  {
    if raw != [] {
      HexReads(raw[1..]);
      PairReads(raw[0]);
      var s := Hex(raw);
      assert s[2..] == Hex(raw[1..]);
      assert s[0] == HexByte(raw[0])[0] && s[1] == HexByte(raw[0])[1];
      assert !AsciiSpace(s[0]);
      assert [raw[0]] + raw[1..] == raw;
    }
  }

  lemma {:induction false} HexIsTrimmed(raw: Bytes)
    ensures Trimmed(Hex(raw))
  {
  }

  lemma {:induction false} CpsShape(raw: Bytes)
    ensures TAG <= ToCps(raw) && Trimmed(ToCps(raw)) && ToCps(raw)[|ToCps(raw)| - 1] == '>'
    ensures ToCps(raw)[5..|ToCps(raw)| - 1] == Hex(raw)
    ensures !(RANDOM <= ToCps(raw))
  {
    var s := ToCps(raw);
    assert s[0] == '<' && s[1] == 'b';
    assert RANDOM[1] == 'r';
  }

  lemma {:induction false} TagReads(raw: Bytes, count: int, noise: Bytes)
    requires |ToCps(raw)| <= |noise|
    ensures ParseTag(ToCps(raw), count, noise) == if 0 < count <= |raw| then noise[..count] + raw[count..] else raw
  {
    CpsShape(raw);
    HexIsTrimmed(raw);
    HexReads(raw);
  }

  /** Parsing a printed blob gives its bytes, for every byte string. */
  lemma {:induction false} BlobReadsBack(raw: Bytes, noise: Bytes)
    requires |ToCps(raw)| <= |noise|
    ensures ParseBlob(ToCps(raw), noise) == raw
  {
    CpsShape(raw);
    StripTrimmed(ToCps(raw));
    TagReads(raw, 0, noise);
  }

  /** Different byte strings print differently. */
  lemma {:induction false} BlobsDiffer(a: Bytes, b: Bytes)
    requires ToCps(a) == ToCps(b)
    ensures a == b
  {
    CpsShape(a);
    CpsShape(b);
    HexReads(a);
    HexReads(b);
  }

  lemma {:induction false} FindFirst(s: string, c: char, i: nat)
    requires i < |s| && s[i] == c && forall j :: 0 <= j < i ==> s[j] != c
    ensures Find(s, c) == Some(i)
  {
  }

  /** A count as people write it: a number, perhaps with a sign. */
  function Signed(sign: string, n: nat): string {
    sign + Dec(n)
  }

  predicate IsSign(sign: string) {
    sign == "" || sign == "+" || sign == "-"
  }

  function CountOf(sign: string, n: nat): int {
    var v: int := n;
    if sign == "-" then -v else v
  }

  lemma {:induction false} DecIsInt(n: nat)
    ensures Trimmed(Dec(n)) && ParseInt(Dec(n)) == Some(n)
  {
    var s := Dec(n);
    assert IsDigit(s[0]) && IsDigit(s[|s| - 1]);
    ParseDec(n);
  }

  lemma {:induction false} WithSignIsInt(c: char, n: nat, s: string)
    requires (c == '+' || c == '-') && s == [c] + Dec(n)
    ensures Trimmed(s) && ParseInt(s) == Some(CountOf([c], n))
  {
    var d := Dec(n);
    assert IsDigit(d[|d| - 1]) && s[|s| - 1] == d[|d| - 1] && s[0] == c && s[1..] == d;
    StripTrimmed(s);
    ParseDec(n);
  }

  lemma {:induction false} SignedIsInt(sign: string, n: nat)
    requires IsSign(sign)
    ensures ParseInt(Strip(Signed(sign, n))) == Some(CountOf(sign, n))
  {
    if sign == "" {
      assert Signed(sign, n) == Dec(n);
      DecIsInt(n);
    } else {
      assert sign == [sign[0]];
      WithSignIsInt(sign[0], n, Signed(sign, n));
    }
    StripTrimmed(Signed(sign, n));
  }

  lemma {:induction false} TagShape(count: string, rest: string, s: string)
    requires '>' !in count && s == RANDOM + count + ">" + rest
    ensures RANDOM <= s && Find(s, '>') == Some(3 + |count|)
    ensures s[3..3 + |count|] == count && s[3 + |count| + 1..] == rest
  {
    var end := 3 + |count|;
    assert s[end] == '>';
    assert forall j :: 3 <= j < end ==> s[j] == count[j - 3];
    assert s[..3] == RANDOM;
    FindFirst(s, '>', end);
  }

  lemma {:induction false} NoTagEnd(sign: string, n: nat)
    requires IsSign(sign)
    ensures '>' !in Signed(sign, n)
  {
  }

  lemma {:induction false} RandomTagReads(sign: string, n: nat, rest: string)
    requires IsSign(sign) && Trimmed(rest)
    ensures TakeRandomTag(SignedTag(sign, n) + rest) == Split(CountOf(sign, n), rest)
  {
    NoTagEnd(sign, n);
    TagShape(Signed(sign, n), rest, SignedTag(sign, n) + rest);
    SignedIsInt(sign, n);
    StripTrimmed(rest);
  }

  /** A random tag with a sign, as the parser takes it. */
  function SignedTag(sign: string, n: nat): string {
    RANDOM + Signed(sign, n) + ">"
  }

  lemma {:induction false} TaggedIsTrimmed(tag: string, rest: string)
    requires RANDOM <= tag && rest != "" && Trimmed(rest)
    ensures Trimmed(tag + rest)
  {
    var s := tag + rest;
    assert s[0] == '<' && s[|s| - 1] == rest[|rest| - 1];
  }

  /** A random tag replaces exactly the first `n` bytes, if there are that many, and keeps the length; a negative one replaces nothing. */
  lemma {:induction false} SignedBlobReads(sign: string, n: nat, raw: Bytes, noise: Bytes)
    requires IsSign(sign) && |SignedTag(sign, n) + ToCps(raw)| <= |noise|
    ensures ParseBlob(SignedTag(sign, n) + ToCps(raw), noise)
      == if sign != "-" && 0 < n <= |raw| then noise[..n] + raw[n..] else raw
  {
    CpsShape(raw);
    RandomTagReads(sign, n, ToCps(raw));
    TaggedIsTrimmed(SignedTag(sign, n), ToCps(raw));
    StripTrimmed(SignedTag(sign, n) + ToCps(raw));
    TagReads(raw, CountOf(sign, n), noise);
  }

  /** A random tag as the generator prints it. */
  lemma {:induction false} RandomBlobReads(n: nat, raw: Bytes, noise: Bytes)
    requires |RandomTag(n) + ToCps(raw)| <= |noise|
    ensures ParseBlob(RandomTag(n) + ToCps(raw), noise)
      == if 0 < n <= |raw| then noise[..n] + raw[n..] else raw
  {
    assert Signed("", n) == Dec(n);
    assert SignedTag("", n) == RandomTag(n);
    SignedBlobReads("", n, raw, noise);
  }

  // ----- Other spellings -----

  /** How one byte is written: the space in front of it, and which of its digits are capitals. */
  datatype Style = Style(gap: string, high: bool, low: bool)

  predicate IsGap(gap: string) {
    forall i :: 0 <= i < |gap| ==> gap[i] in {' ', '\t', '\n', '\U{0b}', '\U{0c}', '\r'}
  }

  function AnyDigit(n: nat, capital: bool): char
    requires n < 16
  {
    if capital then "0123456789ABCDEF"[n] else "0123456789abcdef"[n]
  }

  function Spelled(raw: Bytes, styles: seq<Style>): string
    requires |styles| == |raw|
  {
    if raw == [] then ""
    else
      styles[0].gap + [AnyDigit(raw[0] / 16, styles[0].high), AnyDigit(raw[0] % 16, styles[0].low)] + Spelled(raw[1..], styles[1..])
  }

  lemma {:induction false} DigitReads(n: nat, capital: bool)
    requires n < 16
    ensures HexValue(AnyDigit(n, capital)) == Some(n) && !AsciiSpace(AnyDigit(n, capital))
  {
  }

  lemma {:induction false} GapIsSkipped(gap: string, s: string)
    requires IsGap(gap)
    ensures FromHex(gap + s) == FromHex(s)
  {
    if gap == "" {
      assert gap + s == s;
    } else {
      assert (gap + s)[0] == gap[0] && AsciiSpace(gap[0]);
      assert (gap + s)[1..] == gap[1..] + s;
      GapIsSkipped(gap[1..], s);
    }
  }

  lemma {:induction false} FirstByteReads(b: Byte, high: bool, low: bool, rest: string, raw: Bytes)
    requires FromHex(rest) == Some(raw)
    ensures FromHex([AnyDigit(b / 16, high), AnyDigit(b % 16, low)] + rest) == Some([b] + raw)
  {
    var s := [AnyDigit(b / 16, high), AnyDigit(b % 16, low)] + rest;
    DigitReads(b / 16, high);
    DigitReads(b % 16, low);
    assert s[2..] == rest && s[0] == AnyDigit(b / 16, high) && s[1] == AnyDigit(b % 16, low);
  }

  /** However bytes are spaced and capitalized, reading them gives the same bytes. */
  lemma {:induction false} EverySpellingReads(raw: Bytes, styles: seq<Style>)
    requires |styles| == |raw| && forall i :: 0 <= i < |styles| ==> IsGap(styles[i].gap)
    ensures FromHex(Spelled(raw, styles)) == Some(raw)
    decreases |raw|
  {
    if raw != [] {
      var pair := [AnyDigit(raw[0] / 16, styles[0].high), AnyDigit(raw[0] % 16, styles[0].low)];
      var rest := Spelled(raw[1..], styles[1..]);
      EverySpellingReads(raw[1..], styles[1..]);
      FirstByteReads(raw[0], styles[0].high, styles[0].low, rest, raw[1..]);
      GapIsSkipped(styles[0].gap, pair + rest);
      assert styles[0].gap + pair + rest == styles[0].gap + (pair + rest);
      assert [raw[0]] + raw[1..] == raw;
    }
  }

  /** Only digits and space are read, and nothing is read of an odd number of digits. */
  lemma {:induction false} OnlyHexReads(s: string, i: nat)
    requires FromHex(s).Some? && i < |s|
    ensures s[i] in {' ', '\t', '\n', '\U{0b}', '\U{0c}', '\r'} || s[i] in "0123456789abcdefABCDEF"
    decreases |s|
  {
    if AsciiSpace(s[0]) {
      if i > 0 { OnlyHexReads(s[1..], i - 1); }
    } else if i >= 2 {
      OnlyHexReads(s[2..], i - 2);
    } else {
      IsSomeDigit(s[i]);
    }
  }

  lemma {:induction false} IsSomeDigit(c: char)
    requires HexValue(c).Some?
    ensures c in "0123456789abcdefABCDEF"
  {
    var n := HexValue(c).value;
    var digits := "0123456789abcdefABCDEF";
    if 'A' <= c <= 'F' { assert digits[n + 6] == c; } else { assert digits[n] == c; }
  }
}
