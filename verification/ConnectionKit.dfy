/**
 The connection kit: a client configuration rewritten line by line so that its
 Interface section carries the signature packets of one mimicry profile
 (app/managers/awg_cps.py).
 */
module ConnectionKit {
  import opened Text
  import Bytes
  import Blobs

  // ----- Lines -----

  /** The characters at which Python's splitlines breaks; "\r\n" is one break. */
  predicate IsBreak(c: char) {
    || '\n' <= c <= '\r' || '\U{1c}' <= c <= '\U{1e}' || c == '\U{85}' || c == '\U{2028}' || c == '\U{2029}'
  }

  predicate OneLine(s: string) {
    forall i :: 0 <= i < |s| ==> !IsBreak(s[i])
  }

  function FirstLine(s: string): (r: string)
    ensures r <= s && OneLine(r)
    ensures |r| < |s| ==> IsBreak(s[|r|])
  {
    if s == "" || IsBreak(s[0]) then "" else [s[0]] + FirstLine(s[1..])
  }

  /** What follows the first line and its break. */
  function Following(s: string): (r: string)
    ensures s != "" ==> |r| < |s|
  {
    var n := |FirstLine(s)|;
    if n == |s| then ""
    else if s[n] == '\r' && n + 1 < |s| && s[n + 1] == '\n' then s[n + 2..]
    else s[n + 1..]
  }

  function SplitLines(s: string): (lines: seq<string>)
    ensures forall i :: 0 <= i < |lines| ==> OneLine(lines[i])
    decreases |s|
  {
    if s == "" then [] else [FirstLine(s)] + SplitLines(Following(s))
  }

  /** Every line followed by a newline; no lines at all print as one empty line. */
  function EachLine(lines: seq<string>): string {
    if lines == [] then "" else lines[0] + "\n" + EachLine(lines[1..])
  }

  /** The lines joined by newlines, with one at the end. */
  function PrintLines(lines: seq<string>): string {
    (if lines == [] then "" else Join(lines, '\n')) + "\n"
  }

  lemma {:induction false} PrintIsEachLine(lines: seq<string>)
    requires lines != []
    ensures PrintLines(lines) == EachLine(lines)
  {
    if |lines| > 1 {
      PrintIsEachLine(lines[1..]);
    } else {
      assert lines[1..] == [];
    }
  }

  lemma {:induction false} FirstLineOf(line: string, rest: string)
    requires OneLine(line)
    ensures FirstLine(line + "\n" + rest) == line
    ensures Following(line + "\n" + rest) == rest
  {
    var s := line + "\n" + rest;
    FirstLineStops(s, line);
    assert s[|line|] == '\n';
    assert s[|line| + 1..] == rest;
  }

  lemma {:induction false} FirstLineStops(s: string, line: string)
    requires OneLine(line) && |line| < |s| && line == s[..|line|] && IsBreak(s[|line|])
    ensures FirstLine(s) == line
  {
    if line != "" {
      assert s[0] == line[0];
      FirstLineStops(s[1..], line[1..]);
    }
  }

  /** Reading printed lines back gives the lines. */
  lemma {:induction false} LinesReadBack(lines: seq<string>)
    requires lines != [] && forall i :: 0 <= i < |lines| ==> OneLine(lines[i])
    ensures SplitLines(PrintLines(lines)) == lines
  {
    PrintIsEachLine(lines);
    EachLineReadsBack(lines);
  }

  lemma {:induction false} EachLineReadsBack(lines: seq<string>)
    requires forall i :: 0 <= i < |lines| ==> OneLine(lines[i])
    ensures SplitLines(EachLine(lines)) == lines
  {
    if lines != [] {
      FirstLineOf(lines[0], EachLine(lines[1..]));
      EachLineReadsBack(lines[1..]);
    }
  }

  // ----- The rewriter -----

  const INTERFACE := "[Interface]"

  datatype Kind = InterfaceHeader | OtherHeader | Packet | Plain

  /** What a line is, by its text without surrounding space. An "i" counts like an "I", also without its dot. */
  function KindOf(line: string): Kind {
    var t := Strip(line);
    if INTERFACE <= t then InterfaceHeader
    else if t != "" && t[0] == '[' && t[|t| - 1] == ']' then OtherHeader
    else if |t| >= 2 && (t[0] == 'I' || t[0] == 'i' || t[0] == '\U{131}') && '1' <= t[1] <= '5' then Packet
    else Plain
  }

  /** The lines that are kept: all but the packets of Interface sections. */
  function Kept(lines: seq<string>, inside: bool): seq<string> {
    if lines == [] then []
    else
      match KindOf(lines[0])
      case InterfaceHeader => [lines[0]] + Kept(lines[1..], true)
      case OtherHeader => [lines[0]] + Kept(lines[1..], false)
      case Packet => if inside then Kept(lines[1..], inside) else [lines[0]] + Kept(lines[1..], inside)
      case Plain => [lines[0]] + Kept(lines[1..], inside)
  }

  /** The packets put in once, where the first Interface section ends. */
  function Insert(lines: seq<string>, packets: seq<string>, inside: bool): seq<string> {
    if lines == [] then if inside then packets else []
    else
      match KindOf(lines[0])
      case InterfaceHeader => [lines[0]] + Insert(lines[1..], packets, true)
      case OtherHeader => if inside then packets + lines else [lines[0]] + Insert(lines[1..], packets, false)
      case _ => [lines[0]] + Insert(lines[1..], packets, inside)
  }

  function Rewritten(lines: seq<string>, packets: seq<string>): seq<string> {
    Insert(Kept(lines, false), packets, false)
  }

  /** What the loop still has to write. */
  function Pending(lines: seq<string>, packets: seq<string>, inside: bool, added: bool): seq<string> {
    if added then Kept(lines, inside) else Insert(Kept(lines, inside), packets, inside)
  }

  /** What one line makes the loop write. */
  function Emitted(line: string, packets: seq<string>, inside: bool, added: bool): seq<string> {
    match KindOf(line)
    case InterfaceHeader => [line]
    case OtherHeader => if inside && !added then packets + [line] else [line]
    case Packet => if inside then [] else [line]
    case Plain => [line]
  }

  function InsideAfter(line: string, inside: bool): bool {
    match KindOf(line)
    case InterfaceHeader => true
    case OtherHeader => false
    case _ => inside
  }

  lemma {:induction false} PendingNext(line: string, rest: seq<string>, packets: seq<string>, inside: bool, added: bool)
    ensures Pending([line] + rest, packets, inside, added)
      == Emitted(line, packets, inside, added)
         + Pending(rest, packets, InsideAfter(line, inside), added || (inside && KindOf(line) == OtherHeader))
  {
    assert ([line] + rest)[1..] == rest;
  }

  lemma {:induction false} PendingLast(packets: seq<string>, inside: bool, added: bool)
    ensures Pending([], packets, inside, added) == if inside && !added then packets else []
  {
  }

  lemma {:induction false} Regroup(a: seq<string>, b: seq<string>, c: seq<string>)
    ensures a + (b + c) == (a + b) + c
  {
  }

  /** The loop over the lines, with its flags. */
  method RewriteLines(lines: seq<string>, packets: seq<string>) returns (written: seq<string>)
    ensures written == Rewritten(lines, packets)
  {
    written := [];
    var inside, added := false, false;
    for i := 0 to |lines|
      invariant written + Pending(lines[i..], packets, inside, added) == Rewritten(lines, packets)
    {
      assert lines[i..] == [lines[i]] + lines[i + 1..];
      PendingNext(lines[i], lines[i + 1..], packets, inside, added);
      ghost var before, out := written, Emitted(lines[i], packets, inside, added);
      written, inside, added := RewriteLine(lines[i], packets, written, inside, added);
      Regroup(before, out, Pending(lines[i + 1..], packets, inside, added));
    }
    PendingLast(packets, inside, added);
    assert lines[|lines|..] == [];
    if inside && !added { written := written + packets; }
  }

  /** The loop's body. */
  method RewriteLine(line: string, packets: seq<string>, before: seq<string>, wasInside: bool, wasAdded: bool)
    returns (written: seq<string>, inside: bool, added: bool)
    ensures written == before + Emitted(line, packets, wasInside, wasAdded)
    ensures inside == InsideAfter(line, wasInside)
    ensures added == (wasAdded || (wasInside && KindOf(line) == OtherHeader))
  {
    written, inside, added := before, wasInside, wasAdded;
    var t := Strip(line);
    if INTERFACE <= t {
      inside := true;
      written := written + [line];
    } else if t != "" && t[0] == '[' && t[|t| - 1] == ']' {
      if inside && !added {
        written := written + packets;
        added := true;
      }
      inside := false;
      written := written + [line];
    } else if !(inside && |t| >= 2 && t[0] in {'I', 'i', '\U{131}'} && t[1] in {'1', '2', '3', '4', '5'}) {
      written := written + [line];
    }
  }

  // ----- Properties -----

  ghost predicate AllPackets(packets: seq<string>) {
    forall i :: 0 <= i < |packets| ==> KindOf(packets[i]) == Packet
  }

  /** Nothing is left of packets inside a section, whatever follows. */
  lemma {:induction false} PacketsAreDropped(packets: seq<string>, rest: seq<string>)
    requires AllPackets(packets)
    ensures Kept(packets + rest, true) == Kept(rest, true)
  {
    if packets == [] {
      assert packets + rest == rest;
    } else {
      assert (packets + rest)[1..] == packets[1..] + rest;
      PacketsAreDropped(packets[1..], rest);
    }
  }

  lemma {:induction false} KeptIsKept(lines: seq<string>, inside: bool)
    ensures Kept(Kept(lines, inside), inside) == Kept(lines, inside)
  {
    if lines != [] {
      KeptIsKept(lines[1..], false);
      KeptIsKept(lines[1..], true);
    }
  }

  /** Dropping packets undoes inserting them. */
  lemma {:induction false} KeptOfInserted(lines: seq<string>, packets: seq<string>, inside: bool)
    requires AllPackets(packets) && Kept(lines, inside) == lines
    ensures Kept(Insert(lines, packets, inside), inside) == lines
  {
    if lines == [] {
      if inside {
        assert packets + [] == packets;
        PacketsAreDropped(packets, []);
      }
    } else {
      var rest := lines[1..];
      match KindOf(lines[0])
      case InterfaceHeader =>
        assert Kept(rest, true) == rest;
        KeptOfInserted(rest, packets, true);
      case OtherHeader =>
        if inside {
          PacketsAreDropped(packets, lines);
        } else {
          KeptOfInserted(rest, packets, false);
        }
      case Packet =>
        assert !inside by { if inside { KeptShrinks(rest, inside); } }
        KeptOfInserted(rest, packets, inside);
      case Plain =>
        KeptOfInserted(rest, packets, inside);
    }
  }

  lemma {:induction false} KeptShrinks(lines: seq<string>, inside: bool)
    ensures |Kept(lines, inside)| <= |lines|
  {
    if lines != [] {
      KeptShrinks(lines[1..], false);
      KeptShrinks(lines[1..], true);
    }
  }

  /** Rewriting for one profile and then for another is rewriting for the other. */
  lemma {:induction false} SecondRewriteWins(lines: seq<string>, one: seq<string>, two: seq<string>)
    requires AllPackets(one)
    ensures Rewritten(Rewritten(lines, one), two) == Rewritten(lines, two)
  {
    var kept := Kept(lines, false);
    KeptIsKept(lines, false);
    KeptOfInserted(kept, one, false);
  }

  predicate HasInterface(lines: seq<string>) {
    exists i :: 0 <= i < |lines| && KindOf(lines[i]) == InterfaceHeader
  }

  /** `k` is where a section that is already open ends: at the next other header, or at the end of the file. */
  ghost predicate EndsAt(lines: seq<string>, k: int) {
    && 0 <= k <= |lines|
    && (k < |lines| ==> KindOf(lines[k]) == OtherHeader)
    && forall i :: 0 <= i < k ==> KindOf(lines[i]) != OtherHeader
  }

  /** `k` is where the first Interface section ends. */
  ghost predicate InterfaceEndsAt(lines: seq<string>, k: int) {
    && 0 <= k <= |lines|
    && (k < |lines| ==> KindOf(lines[k]) == OtherHeader)
    && exists h :: OpensAt(lines, h, k)
  }

  /** The first Interface header is at `h`, and no other header follows before `k`. */
  ghost predicate OpensAt(lines: seq<string>, h: int, k: int) {
    0 <= h < k <= |lines| && FirstInterface(lines, h) && forall i :: h <= i < k ==> KindOf(lines[i]) != OtherHeader
  }

  ghost predicate FirstInterface(lines: seq<string>, h: int) {
    && 0 <= h < |lines| && KindOf(lines[h]) == InterfaceHeader
    && forall i :: 0 <= i < h ==> KindOf(lines[i]) != InterfaceHeader
  }

  /** Without an Interface section nothing is added. */
  lemma {:induction false} NothingToInsert(lines: seq<string>, packets: seq<string>)
    requires !HasInterface(lines)
    ensures Insert(lines, packets, false) == lines && Kept(lines, false) == lines
  {
    if lines != [] {
      var rest := lines[1..];
      assert KindOf(lines[0]) != InterfaceHeader;
      assert forall i :: 0 <= i < |rest| ==> rest[i] == lines[i + 1];
      NothingToInsert(rest, packets);
    }
  }

  lemma {:induction false} InsertedAfter(line: string, rest: seq<string>, packets: seq<string>, j: nat)
    requires j <= |rest|
    ensures [line] + (rest[..j] + packets + rest[j..])
      == ([line] + rest)[..j + 1] + packets + ([line] + rest)[j + 1..]
  {
    assert ([line] + rest)[..j + 1] == [line] + rest[..j];
  }

  lemma {:induction false} EndsLater(line: string, rest: seq<string>, j: nat)
    requires KindOf(line) != OtherHeader && EndsAt(rest, j)
    ensures EndsAt([line] + rest, j + 1)
  {
    var lines := [line] + rest;
    assert forall i :: 0 < i < |lines| ==> lines[i] == rest[i - 1];
  }

  lemma {:induction false} InsertedInside(lines: seq<string>, packets: seq<string>) returns (k: nat)
    ensures EndsAt(lines, k) && Insert(lines, packets, true) == lines[..k] + packets + lines[k..]
  {
    if lines == [] || KindOf(lines[0]) == OtherHeader {
      k := 0;
    } else {
      var rest := lines[1..];
      assert lines == [lines[0]] + rest;
      var j := InsertedInside(rest, packets);
      k := j + 1;
      EndsLater(lines[0], rest, j);
      InsertedAfter(lines[0], rest, packets, j);
    }
  }

  lemma {:induction false} OpensHere(line: string, rest: seq<string>, j: nat)
    requires KindOf(line) == InterfaceHeader && EndsAt(rest, j)
    ensures InterfaceEndsAt([line] + rest, j + 1)
  {
    var lines := [line] + rest;
    assert forall i :: 0 < i < |lines| ==> lines[i] == rest[i - 1];
    assert OpensAt(lines, 0, j + 1);
  }

  lemma {:induction false} OpensLater(line: string, rest: seq<string>, j: nat)
    requires KindOf(line) != InterfaceHeader && InterfaceEndsAt(rest, j)
    ensures InterfaceEndsAt([line] + rest, j + 1)
  {
    var lines := [line] + rest;
    assert forall i :: 0 < i < |lines| ==> lines[i] == rest[i - 1];
    var h :| OpensAt(rest, h, j);
    assert FirstInterface(lines, h + 1);
    assert OpensAt(lines, h + 1, j + 1);
  }

  lemma {:induction false} InsertOutside(line: string, rest: seq<string>, packets: seq<string>)
    ensures Insert([line] + rest, packets, false) == [line] + Insert(rest, packets, KindOf(line) == InterfaceHeader)
  {
    assert ([line] + rest)[1..] == rest;
  }

  /** The packets stand together, once, at the end of the first Interface section; all else is in order. */
  ghost predicate PutAtEnd(lines: seq<string>, packets: seq<string>, written: seq<string>) {
    exists k :: InterfaceEndsAt(lines, k) && written == lines[..k] + packets + lines[k..]
  }

  lemma {:induction false} PutHere(line: string, rest: seq<string>, packets: seq<string>)
    requires KindOf(line) == InterfaceHeader
    ensures PutAtEnd([line] + rest, packets, [line] + Insert(rest, packets, true))
  {
    var j := InsertedInside(rest, packets);
    OpensHere(line, rest, j);
    InsertedAfter(line, rest, packets, j);
  }

  lemma {:induction false} PutLater(line: string, rest: seq<string>, packets: seq<string>, written: seq<string>)
    requires KindOf(line) != InterfaceHeader && PutAtEnd(rest, packets, written)
    ensures PutAtEnd([line] + rest, packets, [line] + written)
  {
    var j :| InterfaceEndsAt(rest, j) && written == rest[..j] + packets + rest[j..];
    OpensLater(line, rest, j);
    InsertedAfter(line, rest, packets, j);
  }

  lemma {:induction false} InsertedAtEnd(lines: seq<string>, packets: seq<string>)
    requires HasInterface(lines)
    ensures PutAtEnd(lines, packets, Insert(lines, packets, false))
  {
    var line, rest := lines[0], lines[1..];
    assert lines == [line] + rest;
    InsertOutside(line, rest, packets);
    if KindOf(line) == InterfaceHeader {
      PutHere(line, rest, packets);
    } else {
      LaterInterface(lines);
      InsertedAtEnd(rest, packets);
      PutLater(line, rest, packets, Insert(rest, packets, false));
    }
  }

  lemma {:induction false} LaterInterface(lines: seq<string>)
    requires HasInterface(lines) && KindOf(lines[0]) != InterfaceHeader
    ensures HasInterface(lines[1..])
  {
    var i :| 0 <= i < |lines| && KindOf(lines[i]) == InterfaceHeader;
    assert lines[1..][i - 1] == lines[i];
  }

  // ----- Which lines are kept -----

  /** The latest header before line `i` opens an Interface section. */
  predicate InInterface(lines: seq<string>, i: nat)
    requires i <= |lines|
  {
    i > 0 &&
    match KindOf(lines[i - 1])
    case InterfaceHeader => true
    case OtherHeader => false
    case _ => InInterface(lines, i - 1)
  }

  /** The first `n` lines without the I1-I5 lines of Interface sections. */
  function Chosen(lines: seq<string>, n: nat): seq<string>
    requires n <= |lines|
  {
    if n == 0 then []
    else if InInterface(lines, n - 1) && KindOf(lines[n - 1]) == Packet then Chosen(lines, n - 1)
    else Chosen(lines, n - 1) + [lines[n - 1]]
  }

  /** What one line leaves behind. */
  function Left(line: string, inside: bool): seq<string> {
    if inside && KindOf(line) == Packet then [] else [line]
  }

  lemma {:induction false} KeptFirst(line: string, rest: seq<string>, inside: bool)
    ensures Kept([line] + rest, inside) == Left(line, inside) + Kept(rest, InsideAfter(line, inside))
  {
    assert ([line] + rest)[1..] == rest;
  }

  lemma {:induction false} ChosenLast(lines: seq<string>, n: nat)
    requires n < |lines|
    ensures Chosen(lines, n + 1) == Chosen(lines, n) + Left(lines[n], InInterface(lines, n))
    ensures InInterface(lines, n + 1) == InsideAfter(lines[n], InInterface(lines, n))
  {
  }

  lemma {:induction false} ChosenThenKept(lines: seq<string>, n: nat)
    requires n <= |lines|
    ensures Kept(lines, false) == Chosen(lines, n) + Kept(lines[n..], InInterface(lines, n))
  {
    if n == 0 {
      assert lines[0..] == lines;
    } else {
      var m, inside := n - 1, InInterface(lines, n - 1);
      ChosenThenKept(lines, m);
      ChosenLast(lines, m);
      assert lines[m..] == [lines[m]] + lines[n..];
      KeptFirst(lines[m], lines[n..], inside);
      Regroup(Chosen(lines, m), Left(lines[m], inside), Kept(lines[n..], InsideAfter(lines[m], inside)));
    }
  }

  /** Exactly the old packet lines of Interface sections are dropped. */
  lemma {:induction false} KeptIsChosen(lines: seq<string>)
    ensures Kept(lines, false) == Chosen(lines, |lines|)
  {
    ChosenThenKept(lines, |lines|);
    assert lines[|lines|..] == [];
  }

  // ----- Whole configurations -----

  function PacketLine(k: nat, value: string): string
    requires k < 5
  {
    "I" + [Digit(k + 1)] + " = " + value
  }

  /** The lines of the packets that are not empty. */
  function PacketLines(values: seq<string>, n: nat): seq<string>
    requires n <= |values| <= 5
  {
    if n == 0 then []
    else if values[n - 1] == "" then PacketLines(values, n - 1)
    else PacketLines(values, n - 1) + [PacketLine(n - 1, values[n - 1])]
  }

  lemma {:induction false} RStripKeeps(s: string, i: nat)
    requires i < |s| && !IsSpace(s[i])
    ensures i < |RStrip(s)|
  {
    if IsSpace(s[|s| - 1]) { RStripKeeps(s[..|s| - 1], i); }
  }

  lemma {:induction false} PacketLineIsPacket(k: nat, value: string)
    requires k < 5
    ensures KindOf(PacketLine(k, value)) == Packet
    ensures OneLine(value) ==> OneLine(PacketLine(k, value))
  {
    var line := PacketLine(k, value);
    assert line[0] == 'I' && line[1] == Digit(k + 1);
    RStripKeeps(line, 1);
    var t := Strip(line);
    assert t[0] == 'I' && t[1] == line[1];
    assert INTERFACE[0] == '[';
  }

  ghost predicate FiveValues(values: seq<string>) {
    |values| == 5 && forall i :: 0 <= i < 5 ==> OneLine(values[i])
  }

  lemma {:induction false} PacketLinesArePackets(values: seq<string>, n: nat)
    requires FiveValues(values) && n <= 5
    ensures AllPackets(PacketLines(values, n))
    ensures forall i :: 0 <= i < |PacketLines(values, n)| ==> OneLine(PacketLines(values, n)[i])
  {
    if n > 0 {
      PacketLinesArePackets(values, n - 1);
      PacketLineIsPacket(n - 1, values[n - 1]);
    }
  }

  function Rewrite(config: string, values: seq<string>): string
    requires |values| == 5
  {
    PrintLines(Rewritten(SplitLines(config), PacketLines(values, 5)))
  }

  /** One profile's configuration. */
  method RewriteConfig(config: string, values: seq<string>) returns (written: string)
    requires |values| == 5
    ensures written == Rewrite(config, values)
  {
    var packets := [];
    for k := 0 to 5
      invariant packets == PacketLines(values, k)
    {
      if values[k] != "" { packets := packets + [PacketLine(k, values[k])]; }
    }
    var lines := RewriteLines(SplitLines(config), packets);
    written := PrintLines(lines);
  }

  lemma {:induction false} KeptIsOneLine(lines: seq<string>, inside: bool)
    requires forall i :: 0 <= i < |lines| ==> OneLine(lines[i])
    ensures forall i :: 0 <= i < |Kept(lines, inside)| ==> OneLine(Kept(lines, inside)[i])
  {
    if lines != [] {
      KeptIsOneLine(lines[1..], false);
      KeptIsOneLine(lines[1..], true);
    }
  }

  lemma {:induction false} InsertIsOneLine(lines: seq<string>, packets: seq<string>, inside: bool)
    requires forall i :: 0 <= i < |lines| ==> OneLine(lines[i])
    requires forall i :: 0 <= i < |packets| ==> OneLine(packets[i])
    ensures forall i :: 0 <= i < |Insert(lines, packets, inside)| ==> OneLine(Insert(lines, packets, inside)[i])
  {
    if lines != [] {
      InsertIsOneLine(lines[1..], packets, false);
      InsertIsOneLine(lines[1..], packets, true);
    }
  }

  lemma {:induction false} RewrittenReadsBack(lines: seq<string>, packets: seq<string>)
    requires lines != [] && forall i :: 0 <= i < |lines| ==> OneLine(lines[i])
    requires forall i :: 0 <= i < |packets| ==> OneLine(packets[i])
    ensures SplitLines(PrintLines(Rewritten(lines, packets))) == Rewritten(lines, packets)
  {
    KeptIsOneLine(lines, false);
    InsertIsOneLine(Kept(lines, false), packets, false);
    LinesReadBack(Rewritten(lines, packets));
  }

  lemma {:induction false} EmptyRewrite(packets: seq<string>)
    ensures PrintLines(Rewritten([], packets)) == "\n"
    ensures PrintLines(Rewritten(SplitLines("\n"), packets)) == "\n"
  {
    FirstLineOf("", "");
    assert "" + "\n" + "" == "\n";
    assert SplitLines("\n") == [""];
    assert [""][1..] == [];
    assert KindOf("") == Plain;
  }

  /** For whole texts too: the kit built from a rewritten configuration is the kit built from the original. */
  lemma {:induction false} SecondConfigWins(config: string, one: seq<string>, two: seq<string>)
    requires FiveValues(one) && |two| == 5
    ensures Rewrite(Rewrite(config, one), two) == Rewrite(config, two)
  {
    var lines, packets := SplitLines(config), PacketLines(one, 5);
    PacketLinesArePackets(one, 5);
    if lines == [] {
      EmptyRewrite(packets);
      EmptyRewrite(PacketLines(two, 5));
    } else {
      RewrittenReadsBack(lines, packets);
      SecondRewriteWins(lines, packets, PacketLines(two, 5));
    }
  }

  /** Generated packets fit the rewriter: a printed blob, with or without a random tag, is one line. */
  lemma {:induction false} BlobsAreOneLine(raw: Bytes.Bytes, n: nat)
    ensures OneLine(Blobs.ToCps(raw)) && OneLine(Blobs.RandomTag(n) + Blobs.ToCps(raw))
  {
    var hex := Blobs.Hex(raw);
    var digits := Dec(n);
    var blob := Blobs.ToCps(raw);
    forall i | 0 <= i < |blob| ensures !IsBreak(blob[i]) {
      if 5 <= i < 5 + |hex| { assert blob[i] == hex[i - 5]; }
    }
    var tag := Blobs.RandomTag(n);
    forall i | 0 <= i < |tag| ensures !IsBreak(tag[i]) {
      if 3 <= i < 3 + |digits| { assert tag[i] == digits[i - 3]; }
    }
  }
}
