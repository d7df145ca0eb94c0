/**
 The AWG manager on the server's files: each operation edits the configuration
 text and the clients table, and is the corresponding operation of the peer
 store (app/managers/awg_manager.py).
 */
module AwgManager {
  import opened Tables
  import opened Text
  import opened ConfigText
  import opened ServerConfig
  import opened PeerStore

  // ----- The text of the file follows the operations -----

  lemma {:induction false} EndingSections(doc: Doc, tail: nat)
    requires Covers(PRINTED, doc.values)
    ensures Sections(Ending(doc, tail)) == WithTail(Sections(doc), tail)
  {
    var secs := Sections(doc);
    if doc.peers != [] {
      assert forall i :: 1 <= i < |secs| ==> secs[i] == PeerSections(doc.peers)[i - 1];
    }
  }

  /** Appending the text of new peers to the file is adding them to the configuration. */
  lemma {:induction false} AppendRefines(doc: Doc, more: seq<Peer>)
    requires CleanDoc(doc) && more != []
    ensures AppendPeers(ReadConfig(Print(Sections(doc))), "\n" + Print(PeerSections(more)))
      == Print(Sections(WithPeers(doc, more)))
  {
    SectionsClean(doc);
    AppendIsExact(Sections(doc), PeerSections(more));
    WithPeersSections(doc, more);
  }

  lemma {:induction false} WithPeersSections(doc: Doc, more: seq<Peer>)
    requires Covers(PRINTED, doc.values)
    ensures Sections(WithPeers(doc, more)) == WithTail(Sections(doc), 2) + PeerSections(more)
  {
    EndingSections(doc, 2);
    var d := Ending(doc, 2);
    assert PeerSections(d.peers + more) == PeerSections(d.peers) + PeerSections(more);
  }

  lemma {:induction false} PeerMentions(p: Peer, id: string)
    requires CleanPeer(p) && IsKey(id) && p.psk != id
    ensures Contains(Body(Section("Peer", PeerSettings(p), p.tail)), id) <==> p.key == id
  {
    var s := Section("Peer", PeerSettings(p), p.tail);
    PeerIsClean(p);
    FixedNamesAreClean();
    BodyMentions(s, id);
    TooShortToContain(p.key, id);
    TooShortToContain(p.psk, id);
    MaskedIsShort(p.ip);
    TooShortToContain(p.ip + "/32", id);
    assert Contains(s.settings[0].value, id) <==> p.key == id;
  }

  lemma {:induction false} MaskedIsShort(ip: string)
    requires IsHost(ip)
    ensures |ip + "/32"| < 44
  {
    var n :| 0 <= n < 255 && ip == HostAddress(n);
    DecLength(n);
  }

  lemma {:induction false} InterfaceNeverMentions(doc: Doc, id: string)
    requires CleanDoc(doc) && IsKey(id) && id != doc.privateKey
    ensures !Contains(Body(Sections(doc)[0]), id)
  {
    var s := Sections(doc)[0];
    InterfaceIsClean(doc);
    FixedNamesAreClean();
    BodyMentions(s, id);
    TooShortToContain(doc.privateKey, id);
    forall i | 0 <= i < |s.settings|
      ensures !Contains(s.settings[i].value, id)
    {
      TooShortToContain(s.settings[i].value, id);
      if i >= 2 {
        assert s.settings[i].value == doc.values[PRINTED[i - 2]];
      }
    }
  }

  function PeerSection(p: Peer): Section {
    Section("Peer", PeerSettings(p), p.tail)
  }

  lemma {:induction false} PeerSectionsFirst(p: Peer, ps: seq<Peer>)
    ensures PeerSections([p] + ps) == [PeerSection(p)] + PeerSections(ps)
  {
  }

  lemma {:induction false} WithoutFirst(s: Section, secs: seq<Section>, id: string)
    ensures Without([s] + secs, id) == if Contains(Body(s), id) then Without(secs, id) else [s] + Without(secs, id)
  {
    assert ([s] + secs)[1..] == secs;
  }

  lemma {:induction false} WithoutPeers(ps: seq<Peer>, id: string)
    requires IsKey(id) && forall i :: 0 <= i < |ps| ==> CleanPeer(ps[i]) && ps[i].psk != id
    ensures Without(PeerSections(ps), id) == PeerSections(DropKey(ps, id))
  {
    if ps != [] {
      var p, rest := ps[0], ps[1..];
      assert ps == [p] + rest;
      PeerMentions(p, id);
      WithoutPeers(rest, id);
      PeerSectionsFirst(p, rest);
      WithoutFirst(PeerSection(p), PeerSections(rest), id);
      PeerSectionsFirst(p, DropKey(rest, id));
    }
  }

  /** Cutting a key out of the text is exactly removing that peer; the interface always survives. */
  lemma {:induction false} CutRefines(doc: Doc, id: string)
    requires CleanDoc(doc) && IsKey(id) && id != doc.privateKey
    requires forall i :: 0 <= i < |doc.peers| ==> doc.peers[i].psk != id
    ensures CutSections(ReadConfig(Print(Sections(doc))), id) == Print(Sections(CutPeer(doc, id)))
  {
    ReadDrops(doc);
    CutEnding(Ending(doc, 0), id);
  }

  lemma {:induction false} DropKeyLast(ps: seq<Peer>, p: Peer, id: string)
    ensures DropKey(ps + [p], id) == if p.key == id then DropKey(ps, id) else DropKey(ps, id) + [p]
  {
    if ps == [] {
      assert ps + [p] == [p];
      assert [p][1..] == [];
    } else {
      assert (ps + [p])[1..] == ps[1..] + [p];
      DropKeyLast(ps[1..], p, id);
    }
  }

  lemma {:induction false} PeersOfLast(ps: seq<Peer>, p: Peer)
    ensures PeersOf(ps + [p]) == PeersOf(ps)[p.key := p.ip + "/32"]
  {
    assert (ps + [p])[..|ps|] == ps;
  }

  /** Dropping a key from the peers drops it from the peer map. */
  lemma {:induction false} DropKeyFromMap(ps: seq<Peer>, id: string)
    ensures PeersOf(DropKey(ps, id)) == PeersOf(ps) - {id}
  {
    if ps != [] {
      var rest, p := ps[..|ps| - 1], ps[|ps| - 1];
      assert ps == rest + [p];
      DropKeyFromMap(rest, id);
      DropKeyLast(rest, p, id);
      PeersOfLast(rest, p);
      PeersOfLast(DropKey(rest, id), p);
      DropAfterPut(PeersOf(rest), p.key, p.ip + "/32", id);
    }
  }

  lemma {:induction false} DropAfterPut(m: map<string, string>, k: string, v: string, id: string)
    ensures m[k := v] - {id} == if k == id then m - {id} else (m - {id})[k := v]
  {
  }

  lemma {:induction false} EndingSamePeers(ps: seq<Peer>, tail: nat)
    ensures PeersOf(SetTail(ps, tail)) == PeersOf(ps)
  {
    if ps != [] {
      var rest, p := ps[..|ps| - 1], ps[|ps| - 1];
      assert ps == rest + [p];
      assert SetTail(ps, tail) == rest + [p.(tail := tail)];
      PeersOfLast(rest, p);
      PeersOfLast(rest, p.(tail := tail));
    }
  }

  /** Re-parsing the cut text gives the old peer map without that key, and the old parameters. */
  lemma {:induction false} CutReadsBack(doc: Doc, id: string)
    requires CleanDoc(doc) && IsKey(id) && id != doc.privateKey
    requires forall i :: 0 <= i < |doc.peers| ==> doc.peers[i].psk != id
    ensures ReadPeers(CutSections(ReadConfig(Print(Sections(doc))), id)) == Some(PeersOf(doc.peers) - {id})
    ensures ReadParams(CutSections(ReadConfig(Print(Sections(doc))), id)) == ReadParams(Print(Sections(doc)))
  {
    CutRefines(doc, id);
    CutPeerIsClean(doc, id);
    PeersReadBack(CutPeer(doc, id));
    ParamsReadBack(CutPeer(doc, id));
    ParamsReadBack(doc);
    DropKeyFromMap(Ending(doc, 0).peers, id);
    EndingSamePeers(doc.peers, 0);
  }

  /** Reading the file back strips the newlines after the last section. */
  lemma {:induction false} ReadDrops(doc: Doc)
    requires CleanDoc(doc)
    ensures ReadConfig(Print(Sections(doc))) == Print(Sections(Ending(doc, 0)))
    ensures CleanDoc(Ending(doc, 0))
  {
    SectionsClean(doc);
    ReadPrinted(Sections(doc));
    EndingSections(doc, 0);
    EndingIsClean(doc);
  }

  lemma {:induction false} CutEnding(d: Doc, id: string)
    requires CleanDoc(d) && IsKey(id) && id != d.privateKey
    requires forall i :: 0 <= i < |d.peers| ==> d.peers[i].psk != id
    ensures CutSections(Print(Sections(d)), id) == Print(Sections(d.(peers := DropKey(d.peers, id))))
  {
    SectionsClean(d);
    WithoutSections(d, id);
    CutIsExact(Sections(d), id);
  }

  lemma {:induction false} WithoutSections(doc: Doc, id: string)
    requires CleanDoc(doc) && IsKey(id) && id != doc.privateKey
    requires forall i :: 0 <= i < |doc.peers| ==> doc.peers[i].psk != id
    ensures Without(Sections(doc), id) == Sections(doc.(peers := DropKey(doc.peers, id)))
  {
    InterfaceNeverMentions(doc, id);
    WithoutPeers(doc.peers, id);
    var secs := Sections(doc);
    assert secs[1..] == PeerSections(doc.peers);
  }

  lemma {:induction false} EndingIsClean(doc: Doc)
    requires CleanDoc(doc)
    ensures CleanDoc(Ending(doc, 0))
  {
    var d := Ending(doc, 0);
    forall i | 0 <= i < |d.peers|
      ensures CleanPeer(d.peers[i])
    {
      assert CleanPeer(doc.peers[i]);
    }
  }

  // ----- The text of new peers -----

  /** The section that is written for a new or re-enabled peer, ending in `tail` newlines. */
  function PeerText(p: Peer): string {
    "\n" + ("[" + ("Peer" + "]") + "\n"
           + SettingLine(Setting("PublicKey", p.key)) + "\n"
           + SettingLine(Setting("PresharedKey", p.psk)) + "\n"
           + SettingLine(Setting("AllowedIPs", p.ip + "/32")) + Repeat('\n', p.tail))
  }

  lemma {:induction false} PeerTextPrints(p: Peer)
    ensures PeerText(p) == "\n" + Print(PeerSections([p]))
  {
    var ss := PeerSettings(p);
    PrintCons(PeerSections([p]));
    assert PeerSections([p])[1..] == [];
    ThreeLines(ss);
    CoreOfThree("Peer" + "]", SettingLine(ss[0]), SettingLine(ss[1]), SettingLine(ss[2]));
  }

  lemma {:induction false} CoreOfThree(title: string, a: string, b: string, c: string)
    ensures "[" + Join([title] + [a, b, c], '\n') == "[" + title + "\n" + a + "\n" + b + "\n" + c
  {
    assert [title] + [a, b, c] == [title, a, b, c];
    JoinFour(title, a, b, c);
  }

  lemma {:induction false} ThreeLines(ss: seq<Setting>)
    requires |ss| == 3
    ensures SettingLines(ss) == [SettingLine(ss[0]), SettingLine(ss[1]), SettingLine(ss[2])]
  {
  }

  lemma {:induction false} JoinFour(a: string, b: string, c: string, d: string)
    ensures Join([a, b, c, d], '\n') == a + "\n" + b + "\n" + c + "\n" + d
  {
    assert [a, b, c, d][1..] == [b, c, d] && [b, c, d][1..] == [c, d] && [c, d][1..] == [d];
    assert Join([c, d], '\n') == c + "\n" + d;
    assert Join([b, c, d], '\n') == b + "\n" + (c + "\n" + d);
  }

  function TrialTexts(ps: seq<Peer>): string {
    if ps == [] then "" else TrialTexts(ps[..|ps| - 1]) + PeerText(ps[|ps| - 1].(tail := 1))
  }

  /** One more section at the end, given the text of those before. */
  lemma {:induction false} OneMoreText(front: seq<Peer>, last: Peer, shorter: seq<Peer>)
    requires front != [] && shorter == SetTail(front, 1) && last.tail == 1
    requires front[|front| - 1].tail == 2 && TrialTexts(front) == "\n" + Print(PeerSections(shorter))
    ensures TrialTexts(front) + PeerText(last) == "\n" + Print(PeerSections(front + [last]))
  {
    PeerTextPrints(last);
    assert last.(tail := 1) == last;
    TwoNewlines(front);
    PrintFrontLast(front, last);
    Regroup(Print(PeerSections(shorter)), Print(PeerSections([last])));
  }

  /** Trial peers are separated by a blank line, and one newline ends the file. */
  lemma {:induction false} TrialTextsPrint(ps: seq<Peer>)
    requires ps != []
    requires forall i :: 0 <= i < |ps| - 1 ==> ps[i].tail == 2
    requires ps[|ps| - 1].tail == 1
    ensures TrialTexts(ps) == "\n" + Print(PeerSections(ps))
    decreases |ps|
  {
    var n := |ps| - 1;
    var front, last := ps[..n], ps[n];
    assert ps == front + [last];
    if n == 0 {
      PeerTextPrints(last);
      assert last.(tail := 1) == last;
      assert ps == [last] && TrialTexts(front) == "";
    } else {
      var shorter := SetTail(front, 1);
      TrialTextsPrint(shorter);
      SameTrialTexts(front, shorter);
      OneMoreText(front, last, shorter);
    }
  }

  lemma {:induction false} PrintFrontLast(front: seq<Peer>, last: Peer)
    ensures Print(PeerSections(front + [last])) == Print(PeerSections(front)) + Print(PeerSections([last]))
  {
    assert PeerSections(front + [last]) == PeerSections(front) + PeerSections([last]);
    PrintAppend(PeerSections(front), PeerSections([last]));
  }

  lemma {:induction false} Regroup(a: string, b: string)
    ensures ("\n" + a) + ("\n" + b) == "\n" + ((a + "\n") + b)
  {
  }

  lemma {:induction false} SameTrialTexts(a: seq<Peer>, b: seq<Peer>)
    requires |a| == |b| && forall i :: 0 <= i < |a| ==> a[i].(tail := 1) == b[i].(tail := 1)
    ensures TrialTexts(a) == TrialTexts(b)
    decreases |a|
  {
    if a != [] {
      SameTrialTexts(a[..|a| - 1], b[..|b| - 1]);
    }
  }

  lemma {:induction false} TwoNewlines(ps: seq<Peer>)
    requires ps != [] && ps[|ps| - 1].tail == 2
    ensures Print(PeerSections(ps)) == Print(PeerSections(SetTail(ps, 1))) + "\n"
  {
    var n := |ps| - 1;
    var front := PeerSections(ps[..n]);
    var last := PeerSections(ps)[n];
    assert PeerSections(ps) == front + [last];
    assert PeerSections(SetTail(ps, 1)) == front + [last.(tail := 1)];
    PrintLast(front, last);
    PrintLast(front, last.(tail := 1));
    assert Core(last.(tail := 1)) == Core(last);
    assert Repeat('\n', 2) == Repeat('\n', 1) + "\n";
  }

  lemma {:induction false} AllocateOne(used: seq<string>)
    ensures var n := FirstFree(used, 1);
      Allocate(used, 1) == if n.None? then None else Some([n.value])
  {
    var n := FirstFree(used, 1);
    if n.Some? {
      assert Allocate(used + [HostAddress(n.value)], 0) == Some([]);
      assert [n.value] + [] == [n.value];
    }
  }

  lemma {:induction false} AddIsOne(s: Store, key: string)
    ensures var n := FirstFree(UsedBy(s.doc), 1);
      Step(s, Add(key)) ==
        if n.None? then s
        else s.(doc := WithPeers(s.doc, [Peer(key, s.psk, HostAddress(n.value), 2)]),
                table := s.table + [Entry(key, HostAddress(n.value), s.psk, true)])
  {
    var n := FirstFree(UsedBy(s.doc), 1);
    if n.Some? {
      var hosts := [n.value];
      AllocateOne(UsedBy(s.doc));
      assert NewPeers([key], s.psk, hosts, 2) == [Peer(key, s.psk, HostAddress(n.value), 2)];
      assert NewEntries([key], s.psk, hosts) == [Entry(key, HostAddress(n.value), s.psk, true)];
    }
  }

  // ----- Each operation on the text is the operation on the store -----

  function FileText(s: Store): string
    requires Covers(PRINTED, s.doc.values)
  {
    Print(Sections(s.doc))
  }

  lemma {:induction false} AddRefines(s: Store, key: string, t: Store)
    requires Inv(s) && Legal(s, Add(key)) && t == Step(s, Add(key))
    ensures var n := FirstFree(ReadUsedIps(FileText(s)), 1);
      && Inv(t) && t.psk == s.psk
      && (n.None? ==> t == s)
      && (n.Some? ==>
            var ip := HostAddress(n.value);
            && t.table == s.table + [Entry(key, ip, s.psk, true)]
            && FileText(t) == AppendPeers(ReadConfig(FileText(s)), PeerText(Peer(key, s.psk, ip, 2)))
            && ip !in UsedBy(s.doc)
            && Addresses(t.doc.peers) == Addresses(s.doc.peers) + [ip])
  {
    UsedIpsReadBack(s.doc);
    StepKeeps(s, Add(key));
    AddIsOne(s, key);
    var n := FirstFree(UsedBy(s.doc), 1);
    if n.Some? {
      var peer := Peer(key, s.psk, HostAddress(n.value), 2);
      PeerTextPrints(peer);
      AppendRefines(s.doc, [peer]);
      AddressesGrow(s.doc, peer);
    }
  }

  lemma {:induction false} AddressesGrow(doc: Doc, peer: Peer)
    ensures Addresses(WithPeers(doc, [peer]).peers) == Addresses(doc.peers) + [peer.ip]
  {
  }

  lemma {:induction false} TrialRefines(s: Store, keys: seq<string>, t: Store)
    requires Inv(s) && Legal(s, Trial(keys)) && t == Step(s, Trial(keys))
    ensures var hosts := Allocate(ReadUsedIps(FileText(s)), |keys|);
      && Inv(t) && t.psk == s.psk
      && (hosts.None? ==> t == s)
      && (hosts.Some? ==>
            && t.table == s.table + NewEntries(keys, s.psk, hosts.value)
            && FileText(t) == AppendPeers(ReadConfig(FileText(s)), TrialTexts(NewPeers(keys, s.psk, hosts.value, 1))))
  {
    UsedIpsReadBack(s.doc);
    StepKeeps(s, Trial(keys));
    var hosts := Allocate(UsedBy(s.doc), |keys|);
    if hosts.Some? {
      var peers := NewPeers(keys, s.psk, hosts.value, 1);
      TrialTextsPrint(peers);
      AppendRefines(s.doc, peers);
    }
  }

  lemma {:induction false} EnableRefines(s: Store, id: string, t: Store)
    requires Inv(s) && t == Step(s, Enable(id))
    ensures var row := Lookup(s.table, id);
      && Inv(t) && t.psk == s.psk
      && (row.None? ==> t == s)
      && (row.Some? ==>
            var e := s.table[row.value];
            && t.table == SetEnabled(s.table, id, true)
            && FileText(t) == AppendPeers(ReadConfig(FileText(s)),
                                      PeerText(Peer(id, if e.psk == "" then s.psk else e.psk, e.ip, 2))))
  {
    StepKeeps(s, Enable(id));
    var row := Lookup(s.table, id);
    if row.Some? {
      var e := s.table[row.value];
      var peer := Peer(id, if e.psk == "" then s.psk else e.psk, e.ip, 2);
      PeerTextPrints(peer);
      AppendRefines(s.doc, [peer]);
    }
  }

  lemma {:induction false} DisableRefines(s: Store, id: string, t: Store)
    requires Inv(s) && ClientKey(s, id) && t == Step(s, Disable(id))
    ensures
      Inv(t) && t.psk == s.psk && t.table == SetEnabled(s.table, id, false) && FileText(t) == CutSections(ReadConfig(FileText(s)), id)
  {
    StepKeeps(s, Disable(id));
    CutRefines(s.doc, id);
  }

  lemma {:induction false} RemoveRefines(s: Store, id: string, t: Store)
    requires Inv(s) && ClientKey(s, id) && t == Step(s, Remove(id))
    ensures
      Inv(t) && t.psk == s.psk && t.table == DropEntries(s.table, id) && FileText(t) == CutSections(ReadConfig(FileText(s)), id)
  {
    StepKeeps(s, Remove(id));
    CutRefines(s.doc, id);
  }

  // ----- Installation -----

  /** The bounds that the installer checks; the port is not among the checked parameters. */
  function Bounds(p: Param): Option<(nat, nat)> {
    match p
    case Mtu => Some((1200, 1500))
    case Jc => Some((1, 100))
    case Jmin => Some((1, 1000))
    case Jmax => Some((1, 1300))
    case S1 => Some((1, 1000))
    case S2 => Some((1, 1000))
    case S3 => Some((1, 1000))
    case S4 => Some((1, 1000))
    case H1 => Some((5, 4294967295))
    case H2 => Some((5, 4294967295))
    case H3 => Some((5, 4294967295))
    case H4 => Some((5, 4294967295))
    case _ => None
  }

  /** A numeric text within the parameter's bounds. */
  predicate Accepted(p: Param, v: string) {
    v != "" && AllDigits(v) &&
    var n := ParseNat(v);
    Bounds(p).Some? ==> n.Some? && Bounds(p).value.0 <= n.value <= Bounds(p).value.1
  }

  /** Keys as generated, and values that pass the validation; none is as long as a key. */
  predicate Installable(privateKey: string, psk: string, values: map<Param, string>) {
    && IsKey(privateKey) && IsKey(psk) && Covers(PRINTED, values)
    && forall i :: 0 <= i < |PRINTED| ==> Accepted(PRINTED[i], values[PRINTED[i]]) && |values[PRINTED[i]]| < 44
  }

  function Installed(privateKey: string, psk: string, values: map<Param, string>): Store {
    Store(Doc(privateKey, values, 1, []), [], psk)
  }

  /** The installer's text: all lines joined, and a newline at the end. */
  function InstallText(privateKey: string, values: map<Param, string>): string
    requires Covers(PRINTED, values)
  {
    Join(["[Interface]"] + SettingLines(InterfaceSettings(privateKey, values)), '\n') + "\n"
  }

  lemma {:induction false} DigitsAreClean(v: string)
    requires v != "" && AllDigits(v)
    ensures CleanValue(v)
  {
  }

  /** An installed server satisfies everything that the operations rely on. */
  lemma {:induction false} InstalledIsValid(privateKey: string, psk: string, values: map<Param, string>)
    requires Installable(privateKey, psk, values)
    ensures Inv(Installed(privateKey, psk, values)) && AddressesDistinct(Installed(privateKey, psk, values))
  {
    forall i | 0 <= i < |PRINTED| ensures CleanValue(values[PRINTED[i]]) { DigitsAreClean(values[PRINTED[i]]); }
  }

  lemma {:induction false} JoinPrefix(c: char, first: string, rest: seq<string>)
    ensures Join([[c] + first] + rest, '\n') == [c] + Join([first] + rest, '\n')
  {
    assert ([[c] + first] + rest)[1..] == rest && ([first] + rest)[1..] == rest;
  }

  /** The installer's text is the printed configuration without peers. */
  lemma {:induction false} InstallPrints(privateKey: string, psk: string, values: map<Param, string>)
    requires Covers(PRINTED, values)
    ensures InstallText(privateKey, values) == FileText(Installed(privateKey, psk, values))
  {
    var lines := SettingLines(InterfaceSettings(privateKey, values));
    var sec := Section("Interface", InterfaceSettings(privateKey, values), 1);
    OneSectionPrints(sec, lines, Join(["Interface]"] + lines, '\n'));
    JoinPrefix('[', "Interface]", lines);
    assert ['['] + "Interface]" == "[Interface]";
    assert Sections(Installed(privateKey, psk, values).doc) == [sec];
  }

  lemma {:induction false} OneSectionPrints(sec: Section, lines: seq<string>, joined: string)
    requires sec.title == "Interface" && sec.tail == 1 && lines == SettingLines(sec.settings)
    requires joined == Join(["Interface]"] + lines, '\n')
    ensures Print([sec]) == "[" + joined + "\n"
  {
    assert "Interface" + "]" == "Interface]";
    assert Repeat('\n', 1) == "\n";
    assert Body(sec) == joined + "\n";
    assert [sec][1..] == [];
    assert Print([sec]) == "[" + Body(sec) + "";
  }

  /** Over every run from an installation the file still reads as what was installed and what is enabled. */
  lemma {:induction false} RunReadsBack(s: Store, ops: seq<Op>)
    requires Inv(s) && LegalRun(s, ops)
    ensures var n := Run(s, ops);
      && Covers(PRINTED, n.doc.values)
      && ReadParams(FileText(n)) == ValuesOf(PRINTED, s.doc.values)
      && ReadPeers(FileText(n)) == Some(PeersOf(n.doc.peers))
      && ReadUsedIps(FileText(n)) == UsedBy(n.doc)
  {
    RunKeeps(s, ops);
    RunKeepsParameters(s, ops);
    var n := Run(s, ops);
    ParamsReadBack(n.doc);
    PeersReadBack(n.doc);
    UsedIpsReadBack(n.doc);
  }

  /** From the installer's text on, through any run, the parameters read back are those installed. */
  lemma {:induction false} InstalledParametersStay(privateKey: string, psk: string, values: map<Param, string>, ops: seq<Op>)
    requires Installable(privateKey, psk, values)
    requires LegalRun(Installed(privateKey, psk, values), ops)
    ensures ReadParams(InstallText(privateKey, values)) == ValuesOf(PRINTED, values)
    ensures var n := Run(Installed(privateKey, psk, values), ops);
      Covers(PRINTED, n.doc.values) && ReadParams(FileText(n)) == ReadParams(InstallText(privateKey, values))
  {
    var s := Installed(privateKey, psk, values);
    InstalledIsValid(privateKey, psk, values);
    InstallPrints(privateKey, psk, values);
    ParamsReadBack(s.doc);
    RunReadsBack(s, ops);
  }

  // ----- The manager -----

  /** One peer per key came behind the old ones, in order. */
  ghost predicate HasNewPeers(before: seq<Peer>, after: seq<Peer>, keys: seq<string>) {
    && |after| == |before| + |keys|
    && forall i :: 0 <= i < |keys| ==> after[|before| + i].key == keys[i]
  }

  /** A trial is provisioned exactly when there are enough free hosts. */
  lemma {:induction false} TrialAdds(s: Store, keys: seq<string>, t: Store)
    requires t == Step(s, Trial(keys))
    ensures Allocate(UsedBy(s.doc), |keys|).Some? <==> |keys| <= FreeCount(UsedBy(s.doc))
    ensures |keys| <= FreeCount(UsedBy(s.doc)) ==> HasNewPeers(s.doc.peers, t.doc.peers, keys)
    ensures |keys| > FreeCount(UsedBy(s.doc)) ==> t == s
  {
    AllocatesIff(UsedBy(s.doc), |keys|);
  }

  class AwgServer {
    var config: string
    var table: seq<Entry>
    const psk: string
    ghost var doc: Doc

    ghost function State(): Store
      reads this
    {
      Store(doc, table, psk)
    }

    /** The file is the printed configuration, and it agrees with the clients table. */
    ghost predicate Valid()
      reads this
    {
      Inv(State()) && config == FileText(State())
    }

    /** What the installer leaves: the Interface section alone, and an empty clients table. */
    constructor Install(privateKey: string, presharedKey: string, values: map<Param, string>)
      requires Installable(privateKey, presharedKey, values)
      ensures Valid() && State() == Installed(privateKey, presharedKey, values)
    {
      InstalledIsValid(privateKey, presharedKey, values);
      InstallPrints(privateKey, presharedKey, values);
      config := InstallText(privateKey, values);
      table, psk := [], presharedKey;
      doc := Doc(privateKey, values, 1, []);
    }

    /** Both copies are written; together they are the store `t`. */
    method Write(text: string, rows: seq<Entry>, ghost t: Store)
      requires Inv(t) && t.psk == psk && rows == t.table && text == FileText(t)
      modifies this
      ensures Valid() && State() == t
    {
      config, table, doc := text, rows, t.doc;
      assert State() == t;
    }

    method AddClient(key: string) returns (ip: Option<string>)
      requires Valid() && Legal(State(), Add(key))
      modifies this
      ensures Valid() && State() == Step(old(State()), Add(key))
      ensures ip.None? <==> FreeCount(UsedBy(old(doc))) == 0
      ensures ip.None? ==> State() == old(State())
      ensures ip.Some? ==> ip.value !in UsedBy(old(doc)) && Addresses(doc.peers) == Addresses(old(doc).peers) + [ip.value]
    {
      ghost var t := Step(State(), Add(key));
      AddRefines(State(), key, t);
      var text := ReadConfig(config);
      FirstIsFree(UsedBy(doc), FirstFree(UsedBy(doc), 1));
      var n := FirstFree(ReadUsedIps(config), 1);
      if n.None? { return None; }
      text := AppendPeers(text, PeerText(Peer(key, psk, HostAddress(n.value), 2)));
      Write(text, table + [Entry(key, HostAddress(n.value), psk, true)], t);
      return Some(HostAddress(n.value));
    }

    /** One peer per trial profile; nothing is written when the addresses do not suffice. */
    method ProvisionTrial(keys: seq<string>) returns (ok: bool)
      requires Valid() && Legal(State(), Trial(keys))
      modifies this
      ensures Valid() && State() == Step(old(State()), Trial(keys))
      ensures ok <==> |keys| <= FreeCount(UsedBy(old(doc)))
      ensures !ok ==> State() == old(State())
      ensures ok ==> HasNewPeers(old(doc).peers, doc.peers, keys)
    {
      ghost var t := Step(State(), Trial(keys));
      TrialAdds(State(), keys, t);
      TrialRefines(State(), keys, t);
      var text := ReadConfig(config);
      var hosts := AllocateLoop(ReadUsedIps(config), |keys|);
      if hosts.None? { return false; }
      text := AppendPeers(text, TrialTexts(NewPeers(keys, psk, hosts.value, 1)));
      Write(text, table + NewEntries(keys, psk, hosts.value), t);
      return true;
    }

    method EnableClient(id: string) returns (ok: bool)
      requires Valid()
      modifies this
      ensures Valid() && State() == Step(old(State()), Enable(id))
      ensures ok == Lookup(old(table), id).Some?
    {
      ghost var t := Step(State(), Enable(id));
      EnableRefines(State(), id, t);
      var row := Lookup(table, id);
      if row.None? { return false; }
      var e := table[row.value];
      var text := ReadConfig(config);
      text := AppendPeers(text, PeerText(Peer(id, if e.psk == "" then psk else e.psk, e.ip, 2)));
      Write(text, SetEnabled(table, id, true), t);
      return true;
    }

    method DisableClient(id: string)
      requires Valid() && Legal(State(), Disable(id))
      modifies this
      ensures Valid() && State() == Step(old(State()), Disable(id))
    {
      ghost var t := Step(State(), Disable(id));
      DisableRefines(State(), id, t);
      var text := ReadConfig(config);
      text := CutSectionsLoop(text, id);
      Write(text, SetEnabled(table, id, false), t);
    }

    method RemoveClient(id: string)
      requires Valid() && Legal(State(), Remove(id))
      modifies this
      ensures Valid() && State() == Step(old(State()), Remove(id))
    {
      ghost var t := Step(State(), Remove(id));
      RemoveRefines(State(), id, t);
      var text := ReadConfig(config);
      text := CutSectionsLoop(text, id);
      Write(text, DropEntries(table, id), t);
    }

    /** What a reader of the file finds is what the operations put there. */
    method ReadBack() returns (peers: Option<map<string, string>>, params: map<Param, string>, used: seq<string>)
      requires Valid()
      ensures peers == Some(PeersOf(doc.peers))
      ensures params == ValuesOf(PRINTED, doc.values)
      ensures used == UsedBy(doc)
    {
      UsedIpsReadBack(doc);
      used := ReadUsedIps(config);
      PeersReadBack(doc);
      ParamsReadBack(doc);
      peers := ReadPeers(config);
      params := ReadParams(config);
    }
  }

  function Prefixed(found: seq<nat>, rest: Option<seq<nat>>): Option<seq<nat>> {
    if rest.None? then None else Some(found + rest.value)
  }

  lemma {:induction false} AllocateNext(found: seq<nat>, taken: seq<string>, count: nat)
    requires count > 0
    ensures var n := FirstFree(taken, 1);
      Prefixed(found, Allocate(taken, count)) ==
        if n.None? then None
        else Prefixed(found + [n.value], Allocate(taken + [HostAddress(n.value)], count - 1))
  {
    var n := FirstFree(taken, 1);
    if n.Some? {
      var rest := Allocate(taken + [HostAddress(n.value)], count - 1);
      if rest.Some? {
        assert found + ([n.value] + rest.value) == found + [n.value] + rest.value;
      }
    }
  }

  /** The search for the trial peers' addresses. */
  method AllocateLoop(used: seq<string>, count: nat) returns (hosts: Option<seq<nat>>)
    ensures hosts == Allocate(used, count)
  {
    var taken, found: seq<nat> := used, [];
    ghost var goal := Allocate(used, count);
    assert goal.Some? ==> [] + goal.value == goal.value;
    for i := 0 to count
      invariant goal == Prefixed(found, Allocate(taken, count - i))
    {
      AllocateNext(found, taken, count - i);
      var n := FirstFree(taken, 1);
      if n.None? { return None; }
      taken := taken + [HostAddress(n.value)];
      found := found + [n.value];
    }
    assert found + [] == found;
    return Some(found);
  }
}
