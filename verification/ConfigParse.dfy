/**
 Reading facts back out of the printed server configuration: the obfuscation
 parameters, the peers, and the addresses in use. Each reader goes over the
 lines of the text; on a printed configuration each returns what was printed.
 */
module ConfigParse {
  import opened Tables
  import opened Text
  import opened ConfigText

  /** line.split(c, 1): the text before and after the first `c`. */
  function Cut(s: string, c: char): (r: Option<(string, string)>)
    ensures r.Some? <==> c in s
  {
    if s == "" then None
    else if s[0] == c then Some(("", s[1..]))
    else
      var rest := Cut(s[1..], c);
      if rest.None? then None else Some(([s[0]] + rest.value.0, rest.value.1))
  }

  lemma {:induction false} CutFirst(a: string, c: char, b: string)
    requires c !in a
    ensures Cut(a + [c] + b, c) == Some((a, b))
  {
    var s := a + [c] + b;
    if a == "" {
      assert s[1..] == b;
    } else {
      assert s[1..] == a[1..] + [c] + b;
      CutFirst(a[1..], c, b);
      assert [a[0]] + a[1..] == a;
    }
  }

  lemma {:induction false} SettingIsTrimmed(s: Setting)
    requires CleanName(s.name) && CleanValue(s.value)
    ensures Strip(SettingLine(s)) == SettingLine(s)
    ensures SettingLine(s)[0] == s.name[0] != '[' && s.name[0] != '#'
  {
    var line := SettingLine(s);
    assert line[|line| - 1] == s.value[|s.value| - 1];
    StripTrimmed(line);
  }

  /** A printed setting is cut at its own equals sign into its name and its value. */
  lemma {:induction false} SettingReads(s: Setting)
    requires CleanName(s.name) && CleanValue(s.value)
    ensures var cut := Cut(SettingLine(s), '=');
      cut.Some? && Strip(cut.value.0) == s.name && Strip(cut.value.1) == s.value
  {
    assert SettingLine(s) == (s.name + " ") + ['='] + (" " + s.value);
    CutFirst(s.name + " ", '=', " " + s.value);
    StripSpaceFirst(s.value);
    StripSpaceLast(s.name);
  }

  lemma {:induction false} StripSpaceLast(s: string)
    requires s != "" && Trimmed(s)
    ensures Strip(s + " ") == s
  {
    assert (s + " ")[..|s|] == s;
    assert LStrip(s + " ") == s + " ";
  }

  // ----- Folding a reader over the lines -----

  function Fold<S>(step: (S, string) -> S, state: S, lines: seq<string>): S {
    if lines == [] then state
    else step(Fold(step, state, lines[..|lines| - 1]), lines[|lines| - 1])
  }

  lemma {:induction false} FoldAppend<S>(step: (S, string) -> S, state: S, a: seq<string>, b: seq<string>)
    ensures Fold(step, state, a + b) == Fold(step, Fold(step, state, a), b)
    decreases |b|
  {
    if b == [] {
      assert a + b == a;
    } else {
      assert (a + b)[..|a + b| - 1] == a + b[..|b| - 1];
      FoldAppend(step, state, a, b[..|b| - 1]);
    }
  }

  /** The effect of a reader on one section, given that blank lines mean nothing to it. */
  lemma {:induction false} FoldSection<S(!new)>(step: (S, string) -> S, state: S, s: Section)
    requires forall st :: step(st, "") == st
    ensures Fold(step, state, SectionLines(s))
      == Fold(step, step(state, Header(s.title)), SettingLines(s.settings))
  {
    var blanks := Blanks(if s.tail == 0 then 0 else s.tail - 1);
    var header := [Header(s.title)];
    FoldAppend(step, state, header + SettingLines(s.settings), blanks);
    FoldAppend(step, state, header, SettingLines(s.settings));
    FoldBlanks(step, Fold(step, state, header + SettingLines(s.settings)), |blanks|);
    assert header[..0] == [] && Fold(step, state, []) == state;
  }

  lemma {:induction false} FoldBlanks<S(!new)>(step: (S, string) -> S, state: S, n: nat)
    requires forall st :: step(st, "") == st
    ensures Fold(step, state, Blanks(n)) == state
  {
    if n > 0 {
      assert Blanks(n)[..n - 1] == Blanks(n - 1);
      FoldBlanks(step, state, n - 1);
    }
  }

  /** A reader over a printed configuration works section by section. */
  ghost function FoldSections<S(!new)>(step: (S, string) -> S, state: S, secs: seq<Section>): S {
    if secs == [] then state
    else
      var s := secs[|secs| - 1];
      Fold(step, step(FoldSections(step, state, secs[..|secs| - 1]), Header(s.title)), SettingLines(s.settings))
  }

  lemma {:induction false} FoldSectionsAppend<S(!new)>(step: (S, string) -> S, state: S, a: seq<Section>, b: seq<Section>)
    ensures FoldSections(step, state, a + b) == FoldSections(step, FoldSections(step, state, a), b)
    decreases |b|
  {
    if b == [] {
      assert a + b == a;
    } else {
      assert (a + b)[..|a + b| - 1] == a + b[..|b| - 1];
      FoldSectionsAppend(step, state, a, b[..|b| - 1]);
    }
  }

  lemma {:induction false} FoldOneSection<S(!new)>(step: (S, string) -> S, state: S, s: Section)
    ensures FoldSections(step, state, [s]) == Fold(step, step(state, Header(s.title)), SettingLines(s.settings))
  {
    assert [s][..0] == [];
  }

  lemma {:induction false} FoldTwo<S>(step: (S, string) -> S, state: S, a: string, b: string)
    ensures Fold(step, state, [a, b]) == step(step(state, a), b)
  {
    assert [a, b][..1] == [a] && [a][..0] == [];
    assert Fold(step, state, [a]) == step(state, a);
  }

  lemma {:induction false} FoldThree<S>(step: (S, string) -> S, state: S, lines: seq<string>)
    requires |lines| == 3
    ensures Fold(step, state, lines) == step(step(step(state, lines[0]), lines[1]), lines[2])
  {
    assert lines[..2][..1][..0] == [];
    assert Fold(step, state, lines[..2][..1]) == step(state, lines[0]);
    assert Fold(step, state, lines[..2]) == step(step(state, lines[0]), lines[1]);
  }

  lemma {:induction false} FoldPrinted<S(!new)>(step: (S, string) -> S, state: S, secs: seq<Section>)
    requires forall st :: step(st, "") == st
    ensures Fold(step, state, AllLines(secs)) == FoldSections(step, state, secs)
  {
    if secs != [] {
      var n := |secs| - 1;
      FoldPrinted(step, state, secs[..n]);
      AllLinesLast(secs[..n], secs[n]);
      assert secs == secs[..n] + [secs[n]];
      FoldAppend(step, state, AllLines(secs[..n]), SectionLines(secs[n]));
      FoldSection(step, FoldSections(step, state, secs[..n]), secs[n]);
    }
  }

  lemma {:induction false} AllLinesLast(secs: seq<Section>, s: Section)
    ensures AllLines(secs + [s]) == AllLines(secs) + SectionLines(s)
  {
    if secs == [] {
      assert secs + [s] == [s] && [s][1..] == [];
    } else {
      assert (secs + [s])[1..] == secs[1..] + [s];
      AllLinesLast(secs[1..], s);
    }
  }

  /** What a reader makes of the file on disk. */
  function ReadWith<S>(step: (S, string) -> S, state: S, file: string): S {
    Fold(step, state, Split(ReadConfig(file), '\n'))
  }

  ghost predicate SameButTail(a: seq<Section>, b: seq<Section>) {
    |a| == |b| && forall i :: 0 <= i < |a| ==> a[i].title == b[i].title && a[i].settings == b[i].settings
  }

  lemma {:induction false} FoldIgnoresTail<S(!new)>(step: (S, string) -> S, state: S, a: seq<Section>, b: seq<Section>)
    requires SameButTail(a, b)
    ensures FoldSections(step, state, a) == FoldSections(step, state, b)
    decreases |a|
  {
    if a != [] {
      FoldIgnoresTail(step, state, a[..|a| - 1], b[..|b| - 1]);
    }
  }

  lemma {:induction false} ReadWithPrinted<S(!new)>(step: (S, string) -> S, state: S, secs: seq<Section>)
    requires forall st :: step(st, "") == st
    requires secs != [] && Clean(secs)
    ensures ReadWith(step, state, Print(secs)) == FoldSections(step, state, secs)
  {
    var bare := WithTail(secs, 0);
    ReadPrinted(secs);
    LinesOfPrinted(bare);
    FoldPrinted(step, state, bare);
    OnlyTailDiffers(secs);
    FoldIgnoresTail(step, state, bare, secs);
  }

  lemma {:induction false} OnlyTailDiffers(secs: seq<Section>)
    requires secs != []
    ensures SameButTail(WithTail(secs, 0), secs)
  {
    var bare, n := WithTail(secs, 0), |secs| - 1;
    assert bare[n] == secs[n].(tail := 0);
  }
}
