/**
 The string operations that the managers build and take apart their texts with:
 substring test, split and join on one character, stripping, and decimal numbers.
 */
module Text {
  import opened Tables

  // ----- Substrings -----

  ghost predicate OccursAt(s: string, n: string, i: int) {
    0 <= i <= |s| - |n| && s[i..i + |n|] == n
  }

  /** Python's `n in s`. */
  ghost predicate Contains(s: string, n: string) {
    exists i :: OccursAt(s, n, i)
  }

  method ContainsText(s: string, n: string) returns (found: bool)
    ensures found == Contains(s, n)
  {
    found := false;
    var i := 0;
    while !found && i + |n| <= |s|
      invariant 0 <= i
      invariant found ==> Contains(s, n)
      invariant !found ==> forall k :: 0 <= k < i ==> !OccursAt(s, n, k)
      decreases |s| - i, !found
    {
      if s[i..i + |n|] == n {
        assert OccursAt(s, n, i);
        found := true;
      } else {
        i := i + 1;
      }
    }
  }

  lemma {:induction false} OccurrenceElements(s: string, n: string, i: int)
    requires OccursAt(s, n, i)
    ensures forall k :: i <= k < i + |n| ==> s[k] in n
  {
    forall k | i <= k < i + |n|
      ensures s[k] in n
    {
      assert s[i..i + |n|][k - i] == s[k];
    }
  }

  /** A needle that lacks a character cannot lie across it. */
  lemma {:induction false} ContainsAcross(a: string, c: char, b: string, n: string)
    requires c !in n
    ensures Contains(a + [c] + b, n) <==> Contains(a, n) || Contains(b, n)
  {
    var s := a + [c] + b;
    if i :| OccursAt(s, n, i) {
      assert s[|a|] == c;
      OccurrenceElements(s, n, i);
      if i + |n| <= |a| {
        assert a[i..i + |n|] == n;
        assert OccursAt(a, n, i);
      } else {
        assert b[i - |a| - 1..i - |a| - 1 + |n|] == n;
        assert OccursAt(b, n, i - |a| - 1);
      }
    }
    if i :| OccursAt(a, n, i) {
      assert s[i..i + |n|] == n;
      assert OccursAt(s, n, i);
    }
    if i :| OccursAt(b, n, i) {
      assert s[|a| + 1..] == b;
      assert s[i + |a| + 1..i + |a| + 1 + |n|] == b[i..i + |n|];
      assert OccursAt(s, n, i + |a| + 1);
    }
  }

  lemma {:induction false} TooShortToContain(s: string, n: string)
    ensures |s| < |n| ==> !Contains(s, n)
    ensures |s| == |n| ==> (Contains(s, n) <==> s == n)
  {
    if |s| == |n| {
      assert s[0..|n|] == s;
      assert OccursAt(s, n, 0) <==> s == n;
    }
  }

  // ----- Split and join on one character -----

  function Split(s: string, c: char): (parts: seq<string>)
    ensures |parts| >= 1
  {
    if s == "" then [""]
    else
      var rest := Split(s[1..], c);
      if s[0] == c then [""] + rest else [[s[0]] + rest[0]] + rest[1..]
  }

  function Join(parts: seq<string>, c: char): string
    requires |parts| >= 1
  {
    if |parts| == 1 then parts[0] else parts[0] + [c] + Join(parts[1..], c)
  }

  ghost predicate NoneHas(parts: seq<string>, c: char) {
    forall i :: 0 <= i < |parts| ==> c !in parts[i]
  }

  lemma {:induction false} SplitWithout(s: string, c: char)
    requires c !in s
    ensures Split(s, c) == [s]
  {
    if s != "" {
      SplitWithout(s[1..], c);
      assert s == [s[0]] + s[1..];
    }
  }

  /** Splitting at a separator splits both sides. */
  lemma {:induction false} SplitAppend(a: string, c: char, b: string)
    ensures Split(a + [c] + b, c) == Split(a, c) + Split(b, c)
  {
    var s := a + [c] + b;
    if a == "" {
      assert s[1..] == b;
    } else {
      assert s[1..] == a[1..] + [c] + b;
      SplitAppend(a[1..], c, b);
    }
  }

  lemma {:induction false} SplitJoin(parts: seq<string>, c: char)
    requires |parts| >= 1 && NoneHas(parts, c)
    ensures Split(Join(parts, c), c) == parts
  {
    if |parts| == 1 {
      SplitWithout(parts[0], c);
    } else {
      SplitAppend(parts[0], c, Join(parts[1..], c));
      SplitWithout(parts[0], c);
      SplitJoin(parts[1..], c);
    }
  }

  // ----- Stripping -----

  predicate IsSpace(c: char) {
    || c == ' ' || '\t' <= c <= '\r' || '\U{1c}' <= c <= '\U{1f}' || c == '\U{85}' || c == '\U{a0}'
    || c == '\U{1680}' || '\U{2000}' <= c <= '\U{200a}' || c == '\U{2028}' || c == '\U{2029}'
    || c == '\U{202f}' || c == '\U{205f}' || c == '\U{3000}'
  }

  function LStrip(s: string): (r: string)
    ensures r == "" || !IsSpace(r[0])
    ensures s != "" && !IsSpace(s[0]) ==> r == s
  {
    if s != "" && IsSpace(s[0]) then LStrip(s[1..]) else s
  }

  function RStrip(s: string): (r: string)
    ensures r <= s
    ensures s != "" && !IsSpace(s[|s| - 1]) ==> r == s
  {
    if s != "" && IsSpace(s[|s| - 1]) then RStrip(s[..|s| - 1]) else s
  }

  /** Python's strip(). */
  function Strip(s: string): string {
    RStrip(LStrip(s))
  }

  /** A text that strip() leaves alone. */
  predicate Trimmed(s: string) {
    s != "" ==> !IsSpace(s[0]) && !IsSpace(s[|s| - 1])
  }

  lemma {:induction false} StripTrimmed(s: string)
    requires Trimmed(s)
    ensures Strip(s) == s
  {
  }

  lemma {:induction false} StripSpaceFirst(s: string)
    requires Trimmed(s)
    ensures Strip(" " + s) == s
  {
    assert (" " + s)[1..] == s;
    assert LStrip(" " + s) == LStrip(s) == s;
  }

  /** Python's rstrip with one character. */
  function RStripChar(s: string, c: char): (r: string)
    ensures r <= s
  {
    if s != "" && s[|s| - 1] == c then RStripChar(s[..|s| - 1], c) else s
  }

  function Repeat(c: char, n: nat): (r: string)
    ensures |r| == n && forall i :: 0 <= i < n ==> r[i] == c
  {
    seq(n, _ => c)
  }

  // ----- Decimal numbers -----

  predicate IsDigit(c: char) {
    '0' <= c <= '9'
  }

  function Digit(n: nat): (c: char)
    requires n < 10
    ensures IsDigit(c)
  {
    '0' + n as char
  }

  function Dec(n: nat): (s: string)
    ensures s != ""
    ensures forall i :: 0 <= i < |s| ==> IsDigit(s[i])
  {
    if n < 10 then [Digit(n)] else Dec(n / 10) + [Digit(n % 10)]
  }

  /** int() on a text of ASCII digits; anything else is a ValueError. */
  function ParseNat(s: string): Option<nat> {
    if s == "" || !IsDigit(s[|s| - 1]) then None
    else
      var last := (s[|s| - 1] as int - '0' as int) as nat;
      if |s| == 1 then Some(last)
      else
        var front := ParseNat(s[..|s| - 1]);
        if front.None? then None else Some(front.value * 10 + last)
  }

  lemma {:induction false} ParseDec(n: nat)
    ensures ParseNat(Dec(n)) == Some(n)
  {
    if n >= 10 {
      ParseDec(n / 10);
      assert Dec(n)[..|Dec(n)| - 1] == Dec(n / 10);
    }
  }

  lemma {:induction false} DecInjective(a: nat, b: nat)
    requires Dec(a) == Dec(b)
    ensures a == b
  {
    ParseDec(a);
    ParseDec(b);
  }

  lemma {:induction false} DecLength(n: nat)
    ensures 100 <= n < 1000 ==> |Dec(n)| == 3
    ensures n < 1000 ==> |Dec(n)| <= 3
  {
    if 10 <= n < 1000 {
      assert Dec(n) == Dec(n / 10) + [Digit(n % 10)];
      if n >= 100 {
        assert Dec(n / 10) == Dec(n / 100) + [Digit(n / 10 % 10)];
      }
    }
  }

  // ----- Hexadecimal digits -----

  predicate IsHex(c: char) {
    IsDigit(c) || 'a' <= c <= 'f'
  }

  function HexDigit(n: nat): (c: char)
    requires n < 16
    ensures IsHex(c)
  {
    if n < 10 then '0' + n as char else 'a' + (n - 10) as char
  }

  /** One byte as two lower-case hexadecimal digits. */
  function HexByte(n: nat): (s: string)
    requires n < 256
    ensures |s| == 2 && IsHex(s[0]) && IsHex(s[1])
  {
    [HexDigit(n / 16), HexDigit(n % 16)]
  }
}
