/**
 Reading `tc filter show`: the output is split before every entry, entries are
 searched for the class and for their handle (app/managers/awg_tc.py). Nothing is
 assumed of the layout but where the words that are searched for can occur.
 */
module FilterListing {
  import opened Tables
  import opened Text

  // ----- Words -----

  /** A word whose first letter does not come again in it cannot overlap another occurrence of itself. */
  ghost predicate Unbordered(w: string) {
    w != "" && forall i :: 0 < i < |w| ==> w[i] != w[0]
  }

  lemma {:induction false} CharsOfOccurrence(s: string, w: string, i: int, k: int)
    requires OccursAt(s, w, i) && 0 <= k < |w|
    ensures s[i + k] == w[k]
  {
    assert s[i..i + |w|][k] == s[i + k];
  }

  /** Between texts that lack the word, an unbordered word occurs where it stands and nowhere else. */
  lemma {:induction false} OnlyOccurrence(head: string, w: string, tail: string, i: int)
    requires Unbordered(w) && !Contains(head, w) && OccursAt(head + w + tail, w, i) && i <= |head|
    ensures i == |head|
  {
    var s := head + w + tail;
    assert s[|head|] == w[0];
    if i + |w| <= |head| {
      assert OccursAt(head, w, i) by { assert head[i..i + |w|] == s[i..i + |w|]; }
    } else if i < |head| {
      CharsOfOccurrence(s, w, i, |head| - i);
    }
  }

  // ----- The class -----

  const FLOW := "flowid"

  function FlowNeedle(id: nat): string {
    FLOW + " 1:" + Dec(id)
  }

  lemma {:induction false} NeedleShape(id: nat)
    ensures |FlowNeedle(id)| == 9 + |Dec(id)| && FlowNeedle(id)[..6] == FLOW && FlowNeedle(id)[9..] == Dec(id)
    ensures FlowNeedle(id)[..9] == FLOW + " 1:"
    ensures FlowNeedle(id)[0] == 'f' && forall i :: 0 < i < |FlowNeedle(id)| ==> FlowNeedle(id)[i] != 'f'
  {
    var n := FlowNeedle(id);
    forall i | 0 < i < |n| ensures n[i] != 'f' {
      if i >= 9 { assert n[i] == Dec(id)[i - 9]; }
    }
  }

  /** An occurrence of one class's needle is an occurrence of the word in it. */
  lemma {:induction false} NeedleHasFlow(s: string, id: nat, i: int)
    requires OccursAt(s, FlowNeedle(id), i)
    ensures OccursAt(s, FLOW, i)
  {
    NeedleShape(id);
    assert s[i..i + 6] == s[i..i + |FlowNeedle(id)|][..6];
  }

  /** Where a class's needle can start in an entry that has the word once. */
  lemma {:induction false} NeedleStarts(head: string, flow: nat, tail: string, id: nat, i: int)
    requires !Contains(head, FLOW) && !Contains(tail, FLOW)
    requires OccursAt(head + FlowNeedle(flow) + tail, FlowNeedle(id), i)
    ensures i == |head|
  {
    var s, rest, n := head + FlowNeedle(flow) + tail, FlowNeedle(flow)[6..] + tail, |FlowNeedle(flow)|;
    NeedleShape(flow);
    NeedleHasFlow(s, id, i);
    CharsOfOccurrence(s, FLOW, i, 0);
    assert forall k :: |head| <= k < |head| + n ==> s[k] == FlowNeedle(flow)[k - |head|];
    if i <= |head| {
      assert s == head + FLOW + rest;
      OnlyOccurrence(head, FLOW, rest, i);
    } else if i >= |head| + n {
      OccursInTail(head + FlowNeedle(flow), tail, FLOW, i);
    }
  }

  lemma {:induction false} OccursInTail(head: string, tail: string, w: string, i: int)
    requires OccursAt(head + tail, w, i) && i >= |head|
    ensures OccursAt(tail, w, i - |head|)
  {
    var k := i - |head|;
    assert tail[k..k + |w|] == (head + tail)[i..i + |w|];
  }

  /** The class's number begins with the digits of the number looked for. */
  predicate Mentions(flow: nat, id: nat) {
    Dec(id) <= Dec(flow)
  }

  /** Among classes of three digits that is equality. */
  lemma {:induction false} ThreeDigitsMention(flow: nat, id: nat)
    requires 100 <= flow < 1000 && 100 <= id < 1000
    ensures Mentions(flow, id) <==> flow == id
  {
    DecLength(flow);
    DecLength(id);
    if Mentions(flow, id) {
      assert Dec(flow)[..3] == Dec(flow);
      DecInjective(flow, id);
    }
  }

  /** What follows the digits in both texts decides: digits against digits. */
  lemma {:induction false} NeedleFits(flow: nat, tail: string, id: nat)
    requires tail != "" ==> !IsDigit(tail[0])
    ensures FlowNeedle(id) <= FlowNeedle(flow) + tail <==> Mentions(flow, id)
  {
    var n, text := FlowNeedle(id), FlowNeedle(flow) + tail;
    NeedleShape(flow);
    NeedleShape(id);
    DigitsFit(Dec(flow), tail, Dec(id));
    assert text[..9] == n[..9] && text[9..] == Dec(flow) + tail;
    PrefixAfter(n, text, 9);
  }

  lemma {:induction false} PrefixAfter(n: string, text: string, k: nat)
    requires k <= |n| && k <= |text| && text[..k] == n[..k]
    ensures n <= text <==> n[k..] <= text[k..]
  {
    if n[k..] <= text[k..] {
      assert n == n[..k] + n[k..];
      assert text[..|n|] == text[..k] + text[k..][..|n| - k];
    }
    if n <= text { assert text[k..][..|n| - k] == text[..|n|][k..]; }
  }

  lemma {:induction false} DigitsFit(a: string, tail: string, b: string)
    requires (tail != "" ==> !IsDigit(tail[0])) && forall i :: 0 <= i < |b| ==> IsDigit(b[i])
    ensures b <= a + tail <==> b <= a
  {
    assert tail != "" ==> (a + tail)[|a|] == tail[0];
    assert b <= a + tail ==> |b| <= |a|;
  }

  /** The textual lookup, for all classes: a number is found in exactly the entries whose class begins with it. */
  lemma {:induction false} FlowNeedleIsExact(head: string, flow: nat, tail: string, id: nat)
    requires !Contains(head, FLOW) && !Contains(tail, FLOW) && (tail != "" ==> !IsDigit(tail[0]))
    ensures Contains(head + FlowNeedle(flow) + tail, FlowNeedle(id)) <==> Mentions(flow, id)
  {
    var s, rest := head + FlowNeedle(flow) + tail, FlowNeedle(flow) + tail;
    NeedleFits(flow, tail, id);
    assert s == head + rest;
    if Mentions(flow, id) {
      assert s[|head|..|head| + |FlowNeedle(id)|] == rest[..|FlowNeedle(id)|];
      assert OccursAt(s, FlowNeedle(id), |head|);
    }
    if i :| OccursAt(s, FlowNeedle(id), i) {
      NeedleStarts(head, flow, tail, id, i);
      OccursInTail(head, rest, FlowNeedle(id), i);
    }
  }

  // ----- The handle -----

  function HexRun(s: string): (n: nat)
    ensures n <= |s| && (forall i :: 0 <= i < n ==> IsHex(s[i])) && (n < |s| ==> !IsHex(s[n]))
  {
    if s == "" || !IsHex(s[0]) then 0 else 1 + HexRun(s[1..])
  }

  lemma {:induction false} HexRunOf(hex: string, rest: string)
    requires forall i :: 0 <= i < |hex| ==> IsHex(hex[i])
    requires rest != "" ==> !IsHex(rest[0])
    ensures HexRun(hex + rest) == |hex|
  {
    var s, n := hex + rest, HexRun(hex + rest);
    assert forall i :: 0 <= i < |hex| ==> s[i] == hex[i];
    assert rest != "" ==> s[|hex|] == rest[0];
    assert n >= |hex|;
  }

  const FH := "fh "

  /** A match of "fh", a space and two hexadecimal numbers with two colons between, right here. */
  function HandleHere(s: string): Option<string> {
    if !(FH <= s) then None
    else
      var u := s[3..];
      var k := HexRun(u);
      if k == 0 || !("::" <= u[k..]) then None
      else
        var m := HexRun(u[k + 2..]);
        if m == 0 then None else Some(u[..k + 2 + m])
  }

  /** The leftmost match. */
  function SearchHandle(s: string): Option<string> {
    if HandleHere(s).Some? then HandleHere(s)
    else if s == "" then None
    else SearchHandle(s[1..])
  }

  ghost predicate HexWord(s: string) {
    s != "" && forall i :: 0 <= i < |s| ==> IsHex(s[i])
  }

  lemma {:induction false} FirstNumber(table: string, tail: string)
    requires HexWord(table) && |tail| >= 2 && !IsHex(tail[0])
    ensures HexRun(table + tail) == |table| && (table + tail)[|table|..] == tail && (table + tail)[|table| + 2..] == tail[2..]
  {
    HexRunOf(table, tail);
  }

  lemma {:induction false} FrontOf(a: string, b: string, c: string, d: string)
    ensures (a + (b + (c + d)))[..|a| + |b| + |c|] == a + b + c
    ensures (b + (c + d))[|b|..] == c + d && b <= b + (c + d)
  {
  }

  /** The match, once the two runs of digits are known. */
  lemma {:induction false} HandleFrom(u: string, k: nat, m: nat)
    requires k > 0 && m > 0 && k + 2 + m <= |u| && HexRun(u) == k && "::" <= u[k..] && HexRun(u[k + 2..]) == m
    ensures HandleHere(FH + u) == Some(u[..k + 2 + m])
  {
    assert (FH + u)[3..] == u;
  }

  lemma {:induction false} HandleStands(table: string, node: string, rest: string, u: string, sep: string)
    requires HexWord(table) && HexWord(node) && (rest != "" ==> !IsHex(rest[0]))
    requires sep == "::" && u == table + (sep + (node + rest))
    ensures HandleHere(FH + u) == Some(table + sep + node)
  {
    FrontOf(table, sep, node, rest);
    FirstNumber(table, sep + (node + rest));
    HexRunOf(node, rest);
    HandleFrom(u, |table|, |node|);
  }

  /** Nothing before the first "fh " matches. */
  lemma {:induction false} SearchSkips(pre: string, rest: string)
    requires !Contains(pre, FH) && FH <= rest
    ensures SearchHandle(pre + rest) == SearchHandle(rest)
  {
    if pre == "" {
      assert pre + rest == rest;
    } else {
      var s := pre + rest;
      if FH <= s {
        assert OccursAt(s, FH, 0);
        assert s == pre + FH + rest[3..];
        OnlyOccurrence(pre, FH, rest[3..], 0);
        assert false;
      }
      assert s[1..] == pre[1..] + rest;
      LacksRest(pre, FH);
      SearchSkips(pre[1..], rest);
    }
  }

  lemma {:induction false} LacksRest(s: string, w: string)
    requires s != ""
    ensures Contains(s[1..], w) ==> Contains(s, w)
  {
    if i :| OccursAt(s[1..], w, i) {
      assert s[i + 1..i + 1 + |w|] == s[1..][i..i + |w|];
      assert OccursAt(s, w, i + 1);
    }
  }

  // ----- Splitting the output -----

  const FILTER := "filter"

  function DigitRun(s: string): (n: nat)
    ensures n <= |s|
  {
    if s == "" || !IsDigit(s[0]) then 0 else 1 + DigitRun(s[1..])
  }

  /** The text opens an entry: "filter protocol", or the same with "parent", a number and a colon in between. */
  predicate Opens(s: string) {
    || "filter protocol" <= s
    || ("filter parent " <= s &&
        var u := s[14..];
        var k := DigitRun(u);
        k > 0 && ": protocol" <= u[k..])
  }

  /** How long the first piece is: up to the next position at which an entry opens. */
  function PieceLength(s: string): (n: nat)
    requires s != ""
    ensures 1 <= n <= |s|
  {
    if |s| == 1 || Opens(s[1..]) then 1 else 1 + PieceLength(s[1..])
  }

  /** re.split with a look-ahead; the empty piece before a first entry is left out, as the loop skips it anyway. */
  function Pieces(s: string): seq<string> {
    if s == "" then [] else [s[..PieceLength(s)]] + Pieces(s[PieceLength(s)..])
  }

  /** One printed entry: it opens, the word "filter" does not come again, and it ends its line unless it is the last. */
  ghost predicate EntryText(e: string) {
    Opens(e) && forall i :: 0 < i ==> !OccursAt(e, FILTER, i)
  }

  ghost predicate Printed(es: seq<string>) {
    && (forall i :: 0 <= i < |es| ==> EntryText(es[i]))
    && (forall i :: 0 <= i < |es| - 1 ==> es[i][|es[i]| - 1] == '\n')
  }

  function Listing(es: seq<string>): string {
    if es == [] then "" else es[0] + Listing(es[1..])
  }

  lemma {:induction false} OpeningHasFilter(s: string, j: nat)
    requires j < |s| && Opens(s[j..])
    ensures OccursAt(s, FILTER, j)
  {
    var t := s[j..];
    assert |t| >= 6 && t[..6] == FILTER;
    assert s[j..j + 6] == t[..6];
  }

  /** No entry opens inside another one, also not across its last line break. */
  lemma {:induction false} NoneInside(e: string, rest: string, j: nat)
    requires EntryText(e) && 0 < j < |e| && (rest != "" ==> e[|e| - 1] == '\n')
    ensures !Opens((e + rest)[j..])
  {
    var s := e + rest;
    if Opens(s[j..]) {
      OpeningHasFilter(s, j);
      if j + 6 <= |e| {
        OccursInHead(e, rest, FILTER, j);
      } else {
        CharsOfOccurrence(s, FILTER, j, |e| - 1 - j);
      }
    }
  }

  lemma {:induction false} OccursInHead(head: string, tail: string, w: string, i: int)
    requires OccursAt(head + tail, w, i) && i + |w| <= |head|
    ensures OccursAt(head, w, i)
  {
    assert head[i..i + |w|] == (head + tail)[i..i + |w|];
  }

  /** Nothing opens before `rest` does. */
  ghost predicate QuietUntil(t: string, rest: string) {
    forall i :: 0 < i < |t| ==> !Opens((t + rest)[i..])
  }

  lemma {:induction false} QuietFrom(t: string, rest: string)
    requires |t| > 1 && QuietUntil(t, rest)
    ensures QuietUntil(t[1..], rest) && !Opens(t[1..] + rest)
  {
    var u := t[1..];
    assert (t + rest)[1..] == u + rest;
    forall i | 0 < i < |u| ensures !Opens((u + rest)[i..]) {
      assert (u + rest)[i..] == (t + rest)[i + 1..];
    }
  }

  lemma {:induction false} PieceLengthOf(s: string, u: string)
    requires s != "" && u == s[1..]
    ensures PieceLength(s) == if |s| == 1 || Opens(u) then 1 else 1 + PieceLength(u)
  {
  }

  lemma {:induction false} TailOf(t: string, rest: string)
    requires t != ""
    ensures (t + rest)[1..] == t[1..] + rest
  {
  }

  lemma {:induction false} PieceEnds(t: string, rest: string)
    requires t != "" && QuietUntil(t, rest) && (rest != "" ==> Opens(rest))
    ensures PieceLength(t + rest) == |t|
  {
    TailOf(t, rest);
    PieceLengthOf(t + rest, t[1..] + rest);
    if |t| == 1 {
      assert t[1..] + rest == rest;
    } else {
      QuietFrom(t, rest);
      PieceEnds(t[1..], rest);
    }
  }

  lemma {:induction false} EntryIsQuiet(e: string, rest: string)
    requires EntryText(e) && (rest != "" ==> e[|e| - 1] == '\n')
    ensures QuietUntil(e, rest)
  {
    forall j | 0 < j < |e| ensures !Opens((e + rest)[j..]) { NoneInside(e, rest, j); }
  }

  lemma {:induction false} FirstPiece(e: string, rest: string, others: seq<string>)
    requires EntryText(e) && (rest != "" ==> e[|e| - 1] == '\n' && Opens(rest)) && Pieces(rest) == others
    ensures Pieces(e + rest) == [e] + others
  {
    EntryIsQuiet(e, rest);
    PieceEnds(e, rest);
    assert (e + rest)[..|e|] == e && (e + rest)[|e|..] == rest;
  }

  /** Splitting a listing gives its entries. */
  lemma {:induction false} PiecesAreEntries(es: seq<string>)
    requires Printed(es)
    ensures es != [] ==> Opens(Listing(es))
    ensures Pieces(Listing(es)) == es
  {
    if es != [] {
      var e, others := es[0], es[1..];
      assert es == [e] + others;
      PrintedRest(es);
      PiecesAreEntries(others);
      OneMoreEntry(e, others, Listing(others));
    }
  }

  lemma {:induction false} OneMoreEntry(e: string, others: seq<string>, rest: string)
    requires EntryText(e) && (others == [] ==> rest == "") && Pieces(rest) == others
    requires others != [] ==> e[|e| - 1] == '\n' && Opens(rest)
    ensures Opens(e + rest) && Pieces(e + rest) == [e] + others
  {
    FirstPiece(e, rest, others);
    if others == [] { assert e + rest == e; } else { OpensLonger(e, rest); }
  }

  lemma {:induction false} PrintedRest(es: seq<string>)
    requires es != [] && Printed(es)
    ensures Printed(es[1..])
  {
    assert forall i :: 0 <= i < |es[1..]| ==> es[1..][i] == es[i + 1];
  }

  lemma {:induction false} OpensLonger(e: string, rest: string)
    requires Opens(e) && e[|e| - 1] == '\n'
    ensures Opens(e + rest)
  {
    var s := e + rest;
    if "filter protocol" <= e {
      assert s[..15] == e[..15];
    } else {
      var u, v := e[14..], s[14..];
      assert s[..14] == e[..14];
      assert v == u + rest;
      DigitRunLonger(u, rest);
      var k := DigitRun(u);
      assert v[k..][..10] == u[k..][..10];
    }
  }

  lemma {:induction false} DigitRunLonger(u: string, rest: string)
    requires DigitRun(u) < |u|
    ensures DigitRun(u + rest) == DigitRun(u)
  {
    if u != "" && IsDigit(u[0]) {
      assert (u + rest)[1..] == u[1..] + rest;
      DigitRunLonger(u[1..], rest);
    }
  }

  // ----- The whole lookup -----

  /** A listed filter: its handle, its class and the rest of its text, whatever that says. */
  datatype Shown = Shown(pre: string, table: string, node: string, mid: string, flow: nat, post: string)

  function HandleOf(f: Shown): string {
    f.table + "::" + f.node
  }

  function Head(f: Shown): string {
    f.pre + (FH + (f.table + ("::" + (f.node + f.mid))))
  }

  function TextOf(f: Shown): string {
    Head(f) + FlowNeedle(f.flow) + f.post
  }

  /** The words that the code looks for occur only where they are meant. */
  ghost predicate Readable(f: Shown) {
    && HexWord(f.table) && HexWord(f.node) && f.mid != "" && !IsHex(f.mid[0]) && (f.post != "" ==> !IsDigit(f.post[0]))
    && !Contains(f.pre, FH) && !Contains(Head(f), FLOW) && !Contains(f.post, FLOW)
    && EntryText(TextOf(f))
  }

  lemma {:induction false} TextRegroups(f: Shown, rest: string)
    requires rest == f.mid + FlowNeedle(f.flow) + f.post
    ensures TextOf(f) == f.pre + (FH + (f.table + ("::" + (f.node + rest))))
  {
  }

  lemma {:induction false} HandleIsFound(f: Shown)
    requires Readable(f)
    ensures SearchHandle(TextOf(f)) == Some(HandleOf(f))
  {
    var rest := f.mid + FlowNeedle(f.flow) + f.post;
    var u := f.table + ("::" + (f.node + rest));
    TextRegroups(f, rest);
    HandleStands(f.table, f.node, rest, u, "::");
    SearchSkips(f.pre, FH + u);
  }

  /** The handles of a class, in the order of the output. */
  ghost function HandlesIn(entries: seq<string>, id: nat): seq<string> {
    if entries == [] then []
    else
      var before, e := HandlesIn(entries[..|entries| - 1], id), entries[|entries| - 1];
      if Contains(e, FlowNeedle(id)) && SearchHandle(e).Some? then before + [SearchHandle(e).value] else before
  }

  method FindHandles(out: string, id: nat) returns (handles: seq<string>)
    ensures handles == HandlesIn(Pieces(out), id)
  {
    handles := [];
    if out == "" { return; }
    var entries := Pieces(out);
    for k := 0 to |entries|
      invariant handles == HandlesIn(entries[..k], id)
    {
      assert entries[..k + 1][..k] == entries[..k];
      var mentioned := ContainsText(entries[k], FlowNeedle(id));
      if mentioned {
        var handle := SearchHandle(entries[k]);
        if handle.Some? { handles := handles + [handle.value]; }
      }
    }
    assert entries[..|entries|] == entries;
  }

  /** An entry of the output: a filter, or a line about something else, such as a hash table. */
  datatype Listed = Other(text: string) | Filter(shown: Shown)

  function ListedText(l: Listed): string {
    if l.Other? then l.text else TextOf(l.shown)
  }

  ghost predicate Plain(l: Listed) {
    if l.Other? then EntryText(l.text) && !Contains(l.text, FLOW) else Readable(l.shown)
  }

  function Texts(ls: seq<Listed>): (es: seq<string>)
    ensures |es| == |ls| && forall i :: 0 <= i < |ls| ==> es[i] == ListedText(ls[i])
  {
    if ls == [] then [] else Texts(ls[..|ls| - 1]) + [ListedText(ls[|ls| - 1])]
  }

  predicate IsOf(l: Listed, id: nat, handle: string) {
    l.Filter? && Mentions(l.shown.flow, id) && HandleOf(l.shown) == handle
  }

  predicate Lists(ls: seq<Listed>, id: nat, handle: string) {
    exists i :: 0 <= i < |ls| && IsOf(ls[i], id, handle)
  }

  /** One entry contributes its handle exactly when it is a filter of a class that the number mentions. */
  lemma {:induction false} EntryIsExact(l: Listed, id: nat)
    requires Plain(l)
    ensures Contains(ListedText(l), FlowNeedle(id)) <==> l.Filter? && Mentions(l.shown.flow, id)
    ensures l.Filter? ==> SearchHandle(ListedText(l)) == Some(HandleOf(l.shown))
  {
    if l.Filter? {
      HandleIsFound(l.shown);
      FlowNeedleIsExact(Head(l.shown), l.shown.flow, l.shown.post, id);
    } else if i :| OccursAt(l.text, FlowNeedle(id), i) {
      NeedleHasFlow(l.text, id, i);
    }
  }

  lemma {:induction false} ListsLast(ls: seq<Listed>, l: Listed, id: nat, handle: string)
    ensures Lists(ls + [l], id, handle) <==> Lists(ls, id, handle) || IsOf(l, id, handle)
  {
    var more := ls + [l];
    if Lists(ls, id, handle) {
      var i :| 0 <= i < |ls| && IsOf(ls[i], id, handle);
      assert more[i] == ls[i];
    }
    assert more[|ls|] == l;
  }

  lemma {:induction false} HandlesLast(entries: seq<string>, e: string, id: nat)
    ensures HandlesIn(entries + [e], id) ==
      if Contains(e, FlowNeedle(id)) && SearchHandle(e).Some? then HandlesIn(entries, id) + [SearchHandle(e).value]
      else HandlesIn(entries, id)
  {
    assert (entries + [e])[..|entries|] == entries;
  }

  lemma {:induction false} HandlesAreExact(ls: seq<Listed>, id: nat, handle: string)
    requires (forall i :: 0 <= i < |ls| ==> Plain(ls[i]))
    ensures handle in HandlesIn(Texts(ls), id) <==> Lists(ls, id, handle)
  {
    if ls != [] {
      var rest, l := ls[..|ls| - 1], ls[|ls| - 1];
      assert ls == rest + [l];
      HandlesAreExact(rest, id, handle);
      HandlesLast(Texts(rest), ListedText(l), id);
      EntryIsExact(l, id);
      ListsLast(rest, l, id, handle);
    }
  }

  /** On any readable output the lookup returns exactly the handles of the filters whose class begins with the number. */
  lemma {:induction false} LookupIsExact(ls: seq<Listed>, id: nat, handle: string)
    requires Printed(Texts(ls)) && (forall i :: 0 <= i < |ls| ==> Plain(ls[i]))
    ensures handle in HandlesIn(Pieces(Listing(Texts(ls))), id) <==> Lists(ls, id, handle)
  {
    PiecesAreEntries(Texts(ls));
    HandlesAreExact(ls, id, handle);
  }
}
