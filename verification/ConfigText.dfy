/**
 The WireGuard server configuration as text: how it is printed, how peers are
 appended and cut out of it, and how peers, addresses and parameters are read
 back (app/managers/awg_manager.py).

 A configuration is a list of sections; a section remembers how many newlines
 follow it, so that printing is exact.
 */
module ConfigText {
  import opened Text

  datatype Setting = Setting(name: string, value: string)
  datatype Section = Section(title: string, settings: seq<Setting>, tail: nat)

  function SettingLine(s: Setting): string {
    s.name + " = " + s.value
  }

  function SettingLines(ss: seq<Setting>): (lines: seq<string>)
    ensures |lines| == |ss| && forall i :: 0 <= i < |ss| ==> lines[i] == SettingLine(ss[i])
  {
    if ss == [] then [] else [SettingLine(ss[0])] + SettingLines(ss[1..])
  }

  /** The text of a section after its opening bracket. */
  function Body(s: Section): string {
    Join([s.title + "]"] + SettingLines(s.settings), '\n') + Repeat('\n', s.tail)
  }

  function Bodies(secs: seq<Section>): seq<string> {
    if secs == [] then [] else [Body(secs[0])] + Bodies(secs[1..])
  }

  function Print(secs: seq<Section>): string {
    if secs == [] then "" else "[" + Body(secs[0]) + Print(secs[1..])
  }

  // ----- Well-formed configurations -----

  predicate IsAlnum(c: char) {
    'a' <= c <= 'z' || 'A' <= c <= 'Z' || IsDigit(c)
  }

  /** A printed value: no line break, no bracket, and nothing for strip() to remove. */
  predicate CleanValue(v: string) {
    && v != ""
    && Trimmed(v)
    && '\n' !in v && '[' !in v
  }

  /** Names and titles are short words of letters and digits. */
  predicate CleanName(n: string) {
    0 < |n| < 40 && forall i :: 0 <= i < |n| ==> IsAlnum(n[i])
  }

  predicate CleanSection(s: Section) {
    && CleanName(s.title)
    && s.settings != []
    && forall i :: 0 <= i < |s.settings| ==> CleanName(s.settings[i].name) && CleanValue(s.settings[i].value)
  }

  /** Every section but the last is followed by a line break. */
  predicate Clean(secs: seq<Section>) {
    && (forall i :: 0 <= i < |secs| ==> CleanSection(secs[i]))
    && (forall i :: 0 <= i < |secs| - 1 ==> secs[i].tail >= 1)
  }

  // ----- Splitting on brackets: cutting a peer out -----

  /** Keeps the pieces between brackets that are not blank and do not mention `id`. */
  ghost function KeptPieces(pieces: seq<string>, id: string): seq<string> {
    if pieces == [] then []
    else
      var rest := KeptPieces(pieces[1..], id);
      if Strip(pieces[0]) == "" || Contains(pieces[0], id) then rest else [pieces[0]] + rest
  }

  /** The text with every section that mentions `id` cut out. */
  ghost function CutSections(text: string, id: string): string {
    var kept := KeptPieces(Split(text, '['), id);
    "[" + if kept == [] then "" else Join(kept, '[')
  }

  method CutSectionsLoop(text: string, id: string) returns (r: string)
    ensures r == CutSections(text, id)
  {
    var pieces := Split(text, '[');
    var kept: seq<string> := [];
    for i := 0 to |pieces|
      invariant kept + KeptPieces(pieces[i..], id) == KeptPieces(pieces, id)
    {
      assert pieces[i..][1..] == pieces[i + 1..];
      if Strip(pieces[i]) != "" {
        var mentioned := ContainsText(pieces[i], id);
        if !mentioned {
          kept := kept + [pieces[i]];
        }
      }
    }
    assert kept == KeptPieces(pieces, id);
    r := "[" + if kept == [] then "" else Join(kept, '[');
  }

  /** The sections that stay when `id` is cut out. */
  ghost function Without(secs: seq<Section>, id: string): seq<Section> {
    if secs == [] then []
    else if Contains(Body(secs[0]), id) then Without(secs[1..], id)
    else [secs[0]] + Without(secs[1..], id)
  }

  lemma {:induction false} JoinLacks(parts: seq<string>, sep: char, c: char)
    requires |parts| >= 1 && sep != c && NoneHas(parts, c)
    ensures c !in Join(parts, sep)
  {
    if |parts| > 1 {
      JoinLacks(parts[1..], sep, c);
    }
  }

  lemma {:induction false} BodyClean(s: Section)
    requires CleanSection(s)
    ensures '[' !in Body(s)
    ensures Body(s) != "" && !IsSpace(Body(s)[0]) && Strip(Body(s)) != ""
  {
    var lines := [s.title + "]"] + SettingLines(s.settings);
    forall i | 0 <= i < |lines|
      ensures '[' !in lines[i]
    {
      if i > 0 {
        assert lines[i] == SettingLine(s.settings[i - 1]);
      }
    }
    JoinLacks(lines, '\n', '[');
    assert Body(s)[0] == s.title[0];
    StripKeepsFirst(Body(s));
  }

  lemma {:induction false} StripKeepsFirst(s: string)
    requires s != "" && !IsSpace(s[0])
    ensures Strip(s) != ""
  {
    RStripKeepsFirst(s);
  }

  lemma {:induction false} RStripKeepsFirst(s: string)
    requires s != "" && !IsSpace(s[0])
    ensures RStrip(s) != ""
  {
    if IsSpace(s[|s| - 1]) {
      RStripKeepsFirst(s[..|s| - 1]);
    }
  }

  lemma {:induction false} PrintJoins(secs: seq<Section>)
    requires secs != []
    ensures |Bodies(secs)| == |secs| && Print(secs) == "[" + Join(Bodies(secs), '[')
  {
    if |secs| > 1 {
      PrintJoins(secs[1..]);
      var bodies := Bodies(secs);
      assert bodies[0] == Body(secs[0]) && bodies[1..] == Bodies(secs[1..]);
      assert Join(bodies, '[') == bodies[0] + ['['] + Join(bodies[1..], '[');
      assert "[" + Join(bodies, '[') == "[" + Body(secs[0]) + ("[" + Join(Bodies(secs[1..]), '['));
    } else {
      assert Print(secs[1..]) == "" && Bodies(secs[1..]) == [];
      assert Bodies(secs) == [Body(secs[0])];
    }
  }

  lemma {:induction false} BodiesClean(secs: seq<Section>)
    requires forall i :: 0 <= i < |secs| ==> CleanSection(secs[i])
    ensures NoneHas(Bodies(secs), '[')
  {
    if secs != [] {
      BodyClean(secs[0]);
      BodiesClean(secs[1..]);
    }
  }

  lemma {:induction false} KeptBodies(secs: seq<Section>, id: string)
    requires forall i :: 0 <= i < |secs| ==> CleanSection(secs[i])
    ensures KeptPieces(Bodies(secs), id) == Bodies(Without(secs, id))
  {
    if secs != [] {
      BodyClean(secs[0]);
      KeptBodies(secs[1..], id);
      assert Bodies(secs)[1..] == Bodies(secs[1..]);
      if !Contains(Body(secs[0]), id) {
        var kept := Without(secs, id);
        assert kept[1..] == Without(secs[1..], id);
      }
    }
  }

  /** Cutting at the level of text is exactly printing without the sections that mention the id. */
  lemma {:induction false} CutIsExact(secs: seq<Section>, id: string)
    requires secs != [] && forall i :: 0 <= i < |secs| ==> CleanSection(secs[i])
    requires Without(secs, id) != []
    ensures CutSections(Print(secs), id) == Print(Without(secs, id))
  {
    PrintJoins(secs);
    BodiesClean(secs);
    var bodies := Bodies(secs);
    assert Print(secs) == "" + "[" + Join(bodies, '[');
    SplitAppend("", '[', Join(bodies, '['));
    SplitJoin(bodies, '[');
    assert Split(Print(secs), '[') == [""] + bodies;
    assert ([""] + bodies)[1..] == bodies;
    KeptBodies(secs, id);
    PrintJoins(Without(secs, id));
  }

  // ----- Which sections mention a key -----

  /** A base64 key of 44 characters; only its length and its lack of blanks matter here. */
  predicate IsKey(k: string) {
    |k| == 44 && ' ' !in k && '\n' !in k && CleanValue(k)
  }

  lemma {:induction false} SettingContains(s: Setting, id: string)
    requires CleanName(s.name) && IsKey(id)
    ensures Contains(SettingLine(s), id) <==> Contains(s.value, id)
  {
    assert SettingLine(s) == s.name + [' '] + ("=" + [' '] + s.value);
    ContainsAcross(s.name, ' ', "=" + [' '] + s.value, id);
    ContainsAcross("=", ' ', s.value, id);
    TooShortToContain(s.name, id);
    TooShortToContain("=", id);
  }

  lemma {:induction false} LinesContain(lines: seq<string>, id: string)
    requires |lines| >= 1 && '\n' !in id
    ensures Contains(Join(lines, '\n'), id) <==> exists i :: 0 <= i < |lines| && Contains(lines[i], id)
  {
    if |lines| > 1 {
      ContainsAcross(lines[0], '\n', Join(lines[1..], '\n'), id);
      LinesContain(lines[1..], id);
      if i :| 0 <= i < |lines| && Contains(lines[i], id) {
        if i > 0 {
          assert lines[1..][i - 1] == lines[i];
        }
      }
    }
  }

  lemma {:induction false} NewlinesContain(s: string, n: nat, id: string)
    requires '\n' !in id && id != ""
    ensures Contains(s + Repeat('\n', n), id) <==> Contains(s, id)
  {
    if n == 0 {
      assert s + Repeat('\n', 0) == s;
    } else {
      var shorter := s + Repeat('\n', n - 1);
      assert s + Repeat('\n', n) == shorter + ['\n'] + "";
      ContainsAcross(shorter, '\n', "", id);
      TooShortToContain("", id);
      NewlinesContain(s, n - 1, id);
    }
  }

  /** A section mentions a key exactly when one of its values does. */
  lemma {:induction false} BodyMentions(s: Section, id: string)
    requires CleanSection(s) && IsKey(id)
    ensures Contains(Body(s), id) <==> exists i :: 0 <= i < |s.settings| && Contains(s.settings[i].value, id)
  {
    var lines := [s.title + "]"] + SettingLines(s.settings);
    NewlinesContain(Join(lines, '\n'), s.tail, id);
    LinesContain(lines, id);
    TooShortToContain(s.title + "]", id);
    forall i | 0 <= i < |s.settings|
      ensures Contains(lines[i + 1], id) <==> Contains(s.settings[i].value, id)
    {
      SettingContains(s.settings[i], id);
    }
    if i :| 0 <= i < |lines| && Contains(lines[i], id) {
      assert i > 0;
      assert lines[(i - 1) + 1] == lines[i];
    }
  }

  // ----- Reading the file and appending to it -----

  function WithTail(secs: seq<Section>, tail: nat): (r: seq<Section>)
    requires secs != []
    ensures |r| == |secs| && forall i :: 0 <= i < |secs| - 1 ==> r[i] == secs[i]
  {
    secs[|secs| - 1 := secs[|secs| - 1].(tail := tail)]
  }

  /** The file as the manager gets it: remote output is stripped. */
  function ReadConfig(file: string): string {
    Strip(file)
  }

  /** New peer text goes after the stripped configuration and one line break. */
  function AppendPeers(config: string, peers: string): string {
    RStripChar(config, '\n') + "\n" + peers
  }

  lemma {:induction false} PrintAppend(a: seq<Section>, b: seq<Section>)
    ensures Print(a + b) == Print(a) + Print(b)
  {
    if a == [] {
      assert a + b == b;
    } else {
      assert (a + b)[1..] == a[1..] + b;
      PrintAppend(a[1..], b);
    }
  }

  lemma {:induction false} JoinEnd(parts: seq<string>, c: char)
    requires |parts| >= 1 && parts[|parts| - 1] != ""
    ensures Join(parts, c) != ""
    ensures var text, last := Join(parts, c), parts[|parts| - 1];
      text[|text| - 1] == last[|last| - 1]
  {
    if |parts| > 1 {
      JoinEnd(parts[1..], c);
    }
  }

  /** A section without its trailing newlines. */
  function Core(s: Section): string {
    "[" + Join([s.title + "]"] + SettingLines(s.settings), '\n')
  }

  lemma {:induction false} PrintCons(secs: seq<Section>)
    requires secs != []
    ensures Print(secs) == Core(secs[0]) + Repeat('\n', secs[0].tail) + Print(secs[1..])
  {
  }

  lemma {:induction false} CoreEnd(s: Section)
    requires CleanSection(s)
    ensures !IsSpace(Core(s)[|Core(s)| - 1])
  {
    var lines := [s.title + "]"] + SettingLines(s.settings);
    assert lines[|lines| - 1] == SettingLine(s.settings[|s.settings| - 1]);
    JoinEnd(lines, '\n');
  }

  lemma {:induction false} PrintLast(front: seq<Section>, s: Section)
    ensures Print(front + [s]) == Print(front) + Core(s) + Repeat('\n', s.tail)
  {
    PrintAppend(front, [s]);
    PrintCons([s]);
    assert [s][1..] == [];
  }

  /** The text of a configuration up to its trailing newlines starts with a bracket and ends with a value. */
  lemma {:induction false} PrintEnd(secs: seq<Section>)
    requires secs != [] && Clean(secs)
    ensures var text := Print(WithTail(secs, 0));
      && Print(secs) == text + Repeat('\n', secs[|secs| - 1].tail)
      && text != "" && text[0] == '[' && !IsSpace(text[|text| - 1])
  {
    var n := |secs| - 1;
    var front, last := secs[..n], secs[n];
    assert secs == front + [last];
    assert WithTail(secs, 0) == front + [last.(tail := 0)];
    PrintLast(front, last);
    PrintLast(front, last.(tail := 0));
    CoreEnd(last);
    assert Core(last.(tail := 0)) == Core(last);
    assert Print(WithTail(secs, 0)) == Print(front) + Core(last);
  }

  lemma {:induction false} RStripNewlines(s: string, n: nat)
    requires s != "" && !IsSpace(s[|s| - 1])
    ensures RStrip(s + Repeat('\n', n)) == s
  {
    if n == 0 {
      assert s + Repeat('\n', 0) == s;
    } else {
      var t := s + Repeat('\n', n);
      assert t[..|t| - 1] == s + Repeat('\n', n - 1);
      RStripNewlines(s, n - 1);
    }
  }

  lemma {:induction false} ReadPrinted(secs: seq<Section>)
    requires secs != [] && Clean(secs)
    ensures ReadConfig(Print(secs)) == Print(WithTail(secs, 0))
  {
    PrintEnd(secs);
    RStripNewlines(Print(WithTail(secs, 0)), secs[|secs| - 1].tail);
  }

  /** Appending printed sections to the file that was read is printing them at the end. */
  lemma {:induction false} AppendIsExact(secs: seq<Section>, more: seq<Section>)
    requires secs != [] && Clean(secs) && more != []
    ensures AppendPeers(ReadConfig(Print(secs)), "\n" + Print(more)) == Print(WithTail(secs, 2) + more)
  {
    ReadPrinted(secs);
    PrintEnd(secs);
    AppendText(Print(WithTail(secs, 0)), Print(more));
    TailPrints(secs, 2);
    PrintAppend(WithTail(secs, 2), more);
  }

  lemma {:induction false} AppendText(text: string, peers: string)
    requires text != "" && !IsSpace(text[|text| - 1])
    ensures AppendPeers(text, "\n" + peers) == text + Repeat('\n', 2) + peers
  {
    assert RStripChar(text, '\n') == text;
    assert Repeat('\n', 2) == "\n" + "\n";
  }

  lemma {:induction false} TailPrints(secs: seq<Section>, tail: nat)
    requires secs != [] && Clean(secs)
    ensures Print(WithTail(secs, tail)) == Print(WithTail(secs, 0)) + Repeat('\n', tail)
  {
    assert WithTail(WithTail(secs, tail), 0) == WithTail(secs, 0);
    PrintEnd(WithTail(secs, tail));
  }

  // ----- Splitting into lines -----

  function Blanks(n: nat): (lines: seq<string>)
    ensures |lines| == n && forall i :: 0 <= i < n ==> lines[i] == ""
  {
    seq(n, _ => "")
  }

  function Header(title: string): string {
    "[" + title + "]"
  }

  function SectionLines(s: Section): seq<string> {
    [Header(s.title)] + SettingLines(s.settings) + Blanks(if s.tail == 0 then 0 else s.tail - 1)
  }

  function AllLines(secs: seq<Section>): seq<string> {
    if secs == [] then [] else SectionLines(secs[0]) + AllLines(secs[1..])
  }

  lemma {:induction false} SplitNewlines(text: string, n: nat, rest: string)
    requires n >= 1
    ensures Split(text + Repeat('\n', n) + rest, '\n') == Split(text, '\n') + Blanks(n - 1) + Split(rest, '\n')
  {
    if n == 1 {
      assert text + Repeat('\n', 1) + rest == text + ['\n'] + rest;
      SplitAppend(text, '\n', rest);
    } else {
      assert text + Repeat('\n', n) + rest == text + Repeat('\n', n - 1) + (['\n'] + rest);
      SplitNewlines(text, n - 1, ['\n'] + rest);
      assert ['\n'] + rest == "" + ['\n'] + rest;
      SplitAppend("", '\n', rest);
      assert Blanks(n - 1) == Blanks(n - 2) + [""];
    }
  }

  /** A section without its trailing newlines splits into its header and its settings. */
  lemma {:induction false} SplitSection(s: Section)
    requires CleanSection(s)
    ensures Split(Core(s), '\n') == [Header(s.title)] + SettingLines(s.settings)
  {
    var lines := SettingLines(s.settings);
    var all := [Header(s.title)] + lines;
    assert ([s.title + "]"] + lines)[1..] == lines == all[1..];
    assert "[" + Join([s.title + "]"] + lines, '\n') == Join(all, '\n');
    forall i | 0 <= i < |all|
      ensures '\n' !in all[i]
    {
      if i > 0 {
        assert all[i] == SettingLine(s.settings[i - 1]);
      }
    }
    SplitJoin(all, '\n');
  }

  lemma {:induction false} LinesOfPrinted(secs: seq<Section>)
    requires secs != [] && Clean(secs) && secs[|secs| - 1].tail == 0
    ensures Split(Print(secs), '\n') == AllLines(secs)
  {
    var s := secs[0];
    SplitSection(s);
    PrintCons(secs);
    if |secs| == 1 {
      assert Print(secs[1..]) == "" && AllLines(secs[1..]) == [];
      assert Print(secs) == Core(s);
    } else {
      LinesOfPrinted(secs[1..]);
      SplitNewlines(Core(s), s.tail, Print(secs[1..]));
    }
  }
}
