/**
 The server configuration that the installer and the peer operations write, and
 the three readers of it: obfuscation parameters, peers, and addresses in use.
 On every such configuration each reader returns exactly what was written.
 */
module ServerConfig {
  import opened Tables
  import opened Text
  import opened ConfigText
  import opened ConfigParse

  datatype Param = Mtu | Port | Jc | Jmin | Jmax | S1 | S2 | S3 | S4 | H1 | H2 | H3 | H4 | I1 | I2 | I3 | I4 | I5

  function NameOf(p: Param): string {
    match p
    case Mtu => "MTU"
    case Port => "ListenPort"
    case Jc => "Jc"
    case Jmin => "Jmin"
    case Jmax => "Jmax"
    case S1 => "S1"
    case S2 => "S2"
    case S3 => "S3"
    case S4 => "S4"
    case H1 => "H1"
    case H2 => "H2"
    case H3 => "H3"
    case H4 => "H4"
    case I1 => "I1"
    case I2 => "I2"
    case I3 => "I3"
    case I4 => "I4"
    case I5 => "I5"
  }

  /** The configuration keys that stand for parameters. */
  const PARAM_MAP: map<string, Param> := map[
    "MTU" := Mtu, "ListenPort" := Port, "Jc" := Jc, "Jmin" := Jmin, "Jmax" := Jmax,
    "S1" := S1, "S2" := S2, "S3" := S3, "S4" := S4, "H1" := H1, "H2" := H2, "H3" := H3, "H4" := H4,
    "I1" := I1, "I2" := I2, "I3" := I3, "I4" := I4, "I5" := I5]

  lemma {:induction false} ParamMapNames(p: Param)
    ensures NameOf(p) in PARAM_MAP && PARAM_MAP[NameOf(p)] == p
  {
  }

  /** The parameters that the installer writes, in order. I1 to I5 are for clients only. */
  const PRINTED: seq<Param> := [Mtu, Port, Jc, Jmin, Jmax, S1, S2, S3, S4, H1, H2, H3, H4]

  const GATEWAY := "10.8.1.1"

  predicate Covers(ps: seq<Param>, values: map<Param, string>) {
    forall i :: 0 <= i < |ps| ==> ps[i] in values
  }

  function ParamSettings(ps: seq<Param>, values: map<Param, string>): (ss: seq<Setting>)
    requires Covers(ps, values)
    ensures |ss| == |ps| && forall i :: 0 <= i < |ps| ==> ss[i] == Setting(NameOf(ps[i]), values[ps[i]])
  {
    if ps == [] then []
    else ParamSettings(ps[..|ps| - 1], values) + [Setting(NameOf(ps[|ps| - 1]), values[ps[|ps| - 1]])]
  }

  function InterfaceSettings(privateKey: string, values: map<Param, string>): seq<Setting>
    requires Covers(PRINTED, values)
  {
    [Setting("PrivateKey", privateKey), Setting("Address", GATEWAY + "/24")] + ParamSettings(PRINTED, values)
  }

  /** A peer of the configuration; `tail` newlines follow its section. */
  datatype Peer = Peer(key: string, psk: string, ip: string, tail: nat)

  function PeerSettings(p: Peer): seq<Setting> {
    [Setting("PublicKey", p.key), Setting("PresharedKey", p.psk), Setting("AllowedIPs", p.ip + "/32")]
  }

  /** What the installer, the allocator and the toggles put into the configuration file. */
  datatype Doc = Doc(privateKey: string, values: map<Param, string>, tail: nat, peers: seq<Peer>)

  function PeerSections(ps: seq<Peer>): (secs: seq<Section>)
    ensures |secs| == |ps| && forall i :: 0 <= i < |ps| ==> secs[i] == Section("Peer", PeerSettings(ps[i]), ps[i].tail)
  {
    seq(|ps|, i requires 0 <= i < |ps| => Section("Peer", PeerSettings(ps[i]), ps[i].tail))
  }

  function Sections(doc: Doc): seq<Section>
    requires Covers(PRINTED, doc.values)
  {
    [Section("Interface", InterfaceSettings(doc.privateKey, doc.values), doc.tail)] + PeerSections(doc.peers)
  }

  function HostAddress(n: nat): string {
    "10.8.1." + Dec(n)
  }

  // ----- Parameters -----

  /** A `key = value` line that is neither a comment nor a header. */
  function KeyValue(raw: string): Option<Setting> {
    var line := Strip(raw);
    var cut := Cut(line, '=');
    if cut.None? || "#" <= line || "[" <= line then None
    else Some(Setting(Strip(cut.value.0), Strip(cut.value.1)))
  }

  /** What the reader has found, and the keys it looks for. */
  datatype Params = Params(keys: map<string, Param>, found: map<Param, string>)

  function RecordedOne(p: Params, s: Setting): Params {
    if s.name in p.keys then p.(found := p.found[p.keys[s.name] := s.value]) else p
  }

  function ParamLine(p: Params, raw: string): Params {
    var kv := KeyValue(raw);
    if kv.None? then p else RecordedOne(p, kv.value)
  }

  function Recorded(p: Params, ss: seq<Setting>): Params {
    if ss == [] then p else RecordedOne(Recorded(p, ss[..|ss| - 1]), ss[|ss| - 1])
  }

  /** Printing a setting and reading the line gives the setting back. */
  lemma {:induction false} KeyValueOfSetting(s: Setting)
    requires CleanName(s.name) && CleanValue(s.value)
    ensures KeyValue(SettingLine(s)) == Some(s)
  {
    SettingReads(s);
    SettingIsTrimmed(s);
  }

  ghost predicate CleanSettings(ss: seq<Setting>) {
    forall i :: 0 <= i < |ss| ==> CleanName(ss[i].name) && CleanValue(ss[i].value)
  }

  lemma {:induction false} ParamsOfSettings(p: Params, ss: seq<Setting>)
    requires CleanSettings(ss)
    ensures Fold(ParamLine, p, SettingLines(ss)) == Recorded(p, ss)
  {
    if ss != [] {
      var n := |ss| - 1;
      ParamsOfSettings(p, ss[..n]);
      assert SettingLines(ss)[..n] == SettingLines(ss[..n]);
      KeyValueOfSetting(ss[n]);
    }
  }

  lemma {:induction false} HeaderIsNoParam(p: Params, title: string)
    ensures ParamLine(p, Header(title)) == p
    ensures ParamLine(p, "") == p
  {
    var line := "[" + title + "]";
    StripTrimmed(line);
    assert "[" <= line;
  }

  lemma {:induction false} RecordedAppend(p: Params, a: seq<Setting>, b: seq<Setting>)
    ensures Recorded(p, a + b) == Recorded(Recorded(p, a), b)
    decreases |b|
  {
    if b == [] {
      assert a + b == a;
    } else {
      assert (a + b)[..|a + b| - 1] == a + b[..|b| - 1];
      RecordedAppend(p, a, b[..|b| - 1]);
    }
  }

  function ValuesOf(ps: seq<Param>, values: map<Param, string>): map<Param, string>
    requires Covers(ps, values)
  {
    map q | q in ps :: values[q]
  }

  /** The settings in `ss` are the values of the parameters `qs`, under names the reader looks for. */
  ghost predicate Carry(keys: map<string, Param>, ss: seq<Setting>, qs: seq<Param>, values: map<Param, string>) {
    |ss| == |qs| && forall i :: 0 <= i < |ss| ==>
      ss[i].name in keys && keys[ss[i].name] == qs[i] && qs[i] in values && values[qs[i]] == ss[i].value
  }

  lemma {:induction false} RecordedParams(p: Params, ss: seq<Setting>, qs: seq<Param>, values: map<Param, string>)
    requires Carry(p.keys, ss, qs, values) && p.found == map[]
    ensures var r := Recorded(p, ss);
      && r.keys == p.keys
      && (forall q :: q in r.found <==> q in qs)
      && (forall q :: q in qs ==> q in values && r.found[q] == values[q])
    decreases |ss|
  {
    if ss != [] {
      var n := |ss| - 1;
      RecordedParams(p, ss[..n], qs[..n], values);
      assert qs == qs[..n] + [qs[n]];
    }
  }

  ghost predicate KeysFit(keys: map<string, Param>) {
    && (forall q: Param :: NameOf(q) in keys && keys[NameOf(q)] == q)
    && "PrivateKey" !in keys && "Address" !in keys
    && "PublicKey" !in keys && "PresharedKey" !in keys && "AllowedIPs" !in keys
  }

  lemma {:induction false} ParamMapFits()
    ensures KeysFit(PARAM_MAP)
  {
    forall q: Param
      ensures NameOf(q) in PARAM_MAP && PARAM_MAP[NameOf(q)] == q
    {
      ParamMapNames(q);
    }
  }

  /** A configuration whose text is exactly what the manager prints. */
  predicate CleanDoc(doc: Doc) {
    && Covers(PRINTED, doc.values)
    && IsKey(doc.privateKey)
    && (forall i :: 0 <= i < |PRINTED| ==> CleanValue(doc.values[PRINTED[i]]) && |doc.values[PRINTED[i]]| < 44)
    && (forall i :: 0 <= i < |doc.peers| ==> CleanPeer(doc.peers[i]))
    && (doc.peers != [] ==> doc.tail >= 1)
    && (forall i :: 0 <= i < |doc.peers| - 1 ==> doc.peers[i].tail >= 1)
  }

  predicate CleanPeer(p: Peer) {
    IsKey(p.key) && IsKey(p.psk) && p.key != p.psk && IsHost(p.ip)
  }

  predicate IsHost(ip: string) {
    exists n :: 0 <= n < 255 && ip == HostAddress(n)
  }

  // ----- Reading parameters back -----

  lemma {:induction false} InterfaceParams(values: map<Param, string>, privateKey: string, p: Params)
    requires Covers(PRINTED, values) && KeysFit(p.keys) && p.found == map[]
    ensures Recorded(p, InterfaceSettings(privateKey, values)) == p.(found := ValuesOf(PRINTED, values))
  {
    var head := [Setting("PrivateKey", privateKey), Setting("Address", GATEWAY + "/24")];
    RecordedAppend(p, head, ParamSettings(PRINTED, values));
    NothingRecorded(p, head);
    assert Carry(p.keys, ParamSettings(PRINTED, values), PRINTED, values);
    RecordedParams(p, ParamSettings(PRINTED, values), PRINTED, values);
    assert Recorded(p, ParamSettings(PRINTED, values)).found == ValuesOf(PRINTED, values);
  }

  lemma {:induction false} PeerHasNoParams(p: Params, peer: Peer)
    requires KeysFit(p.keys)
    ensures Recorded(p, PeerSettings(peer)) == p
  {
    NothingRecorded(p, PeerSettings(peer));
  }

  lemma {:induction false} NothingRecorded(p: Params, ss: seq<Setting>)
    requires forall i :: 0 <= i < |ss| ==> ss[i].name !in p.keys
    ensures Recorded(p, ss) == p
    decreases |ss|
  {
    if ss != [] {
      NothingRecorded(p, ss[..|ss| - 1]);
    }
  }

  lemma {:induction false} HostIsClean(n: nat, mask: string)
    requires mask == "/32" || mask == "/24"
    ensures CleanValue(HostAddress(n) + mask)
  {
    var v := HostAddress(n) + mask;
    forall i | 0 <= i < |v|
      ensures v[i] != '\n' && v[i] != '[' && !IsSpace(v[i])
    {
      if 7 <= i < 7 + |Dec(n)| {
        assert v[i] == Dec(n)[i - 7];
      }
    }
  }

  lemma {:induction false} NamesAreClean(p: Param)
    ensures CleanName(NameOf(p))
  {
  }

  lemma {:induction false} FixedNamesAreClean()
    ensures CleanName("PrivateKey") && CleanName("Address") && CleanName("Interface")
    ensures CleanName("PublicKey") && CleanName("PresharedKey") && CleanName("AllowedIPs") && CleanName("Peer")
    ensures QuietName("PrivateKey") && QuietName("PresharedKey")
  {
  }

  lemma {:induction false} InterfaceIsClean(doc: Doc)
    requires CleanDoc(doc)
    ensures CleanSettings(InterfaceSettings(doc.privateKey, doc.values))
  {
    HostIsClean(1, "/24");
    FixedNamesAreClean();
    assert HostAddress(1) == GATEWAY;
    var ss := ParamSettings(PRINTED, doc.values);
    forall i | 0 <= i < |ss|
      ensures CleanName(ss[i].name) && CleanValue(ss[i].value)
    {
      NamesAreClean(PRINTED[i]);
    }
  }

  lemma {:induction false} PeerIsClean(p: Peer)
    requires CleanPeer(p)
    ensures CleanSettings(PeerSettings(p))
  {
    var n :| 0 <= n < 255 && p.ip == HostAddress(n);
    HostIsClean(n, "/32");
    FixedNamesAreClean();
  }

  lemma {:induction false} SectionsClean(doc: Doc)
    requires CleanDoc(doc)
    ensures Clean(Sections(doc)) && Sections(doc) != []
  {
    var secs, peers := Sections(doc), PeerSections(doc.peers);
    InterfaceIsClean(doc);
    FixedNamesAreClean();
    forall i | 0 <= i < |peers|
      ensures CleanSection(peers[i])
    {
      PeerIsClean(doc.peers[i]);
    }
    assert forall i :: 1 <= i < |secs| ==> secs[i] == peers[i - 1];
  }

  // ----- Any reader over the configuration -----

  function FoldPeers<S>(apply: (S, Peer) -> S, state: S, peers: seq<Peer>): S {
    if peers == [] then state
    else apply(FoldPeers(apply, state, peers[..|peers| - 1]), peers[|peers| - 1])
  }

  /** What a reader makes of one peer section. */
  ghost predicate ReadsPeer<S(!new)>(step: (S, string) -> S, apply: (S, Peer) -> S, p: Peer) {
    forall st :: Fold(step, step(st, Header("Peer")), SettingLines(PeerSettings(p))) == apply(st, p)
  }

  lemma {:induction false} PeerSectionsFold<S(!new)>(step: (S, string) -> S, apply: (S, Peer) -> S, state: S, peers: seq<Peer>)
    requires forall i :: 0 <= i < |peers| ==> ReadsPeer(step, apply, peers[i])
    ensures FoldSections(step, state, PeerSections(peers)) == FoldPeers(apply, state, peers)
    decreases |peers|
  {
    if peers != [] {
      var n := |peers| - 1;
      PeerSectionsFold(step, apply, state, peers[..n]);
      assert PeerSections(peers)[..n] == PeerSections(peers[..n]);
      }
  }

  /** What a reader makes of a whole file, given what it makes of the interface and of each peer. */
  lemma {:induction false} ReadSections<S(!new)>(step: (S, string) -> S, apply: (S, Peer) -> S, state: S, next: S, iface: Section, peers: seq<Peer>)
    requires Clean([iface] + PeerSections(peers)) && iface.title == "Interface"
    requires forall st :: step(st, "") == st
    requires Fold(step, step(state, Header("Interface")), SettingLines(iface.settings)) == next
    requires forall i :: 0 <= i < |peers| ==> ReadsPeer(step, apply, peers[i])
    ensures ReadWith(step, state, Print([iface] + PeerSections(peers))) == FoldPeers(apply, next, peers)
  {
    ReadWithPrinted(step, state, [iface] + PeerSections(peers));
    FoldSectionsAppend(step, state, [iface], PeerSections(peers));
    FoldOneSection(step, state, iface);
    PeerSectionsFold(step, apply, next, peers);
  }

  // ----- Reading parameters back -----

  lemma {:induction false} PeerAddsNoParam(peer: Peer, p: Params)
    requires CleanPeer(peer)
    ensures Fold(ParamLine, ParamLine(p, Header("Peer")), SettingLines(PeerSettings(peer))) == Recorded(p, PeerSettings(peer))
  {
    HeaderIsNoParam(p, "Peer");
    PeerIsClean(peer);
    ParamsOfSettings(p, PeerSettings(peer));
  }

  function RecordPeer(p: Params, peer: Peer): Params {
    Recorded(p, PeerSettings(peer))
  }

  lemma {:induction false} PeersHaveNoParams(p: Params, peers: seq<Peer>)
    requires KeysFit(p.keys)
    ensures FoldPeers(RecordPeer, p, peers) == p
    decreases |peers|
  {
    if peers != [] {
      PeersHaveNoParams(p, peers[..|peers| - 1]);
      PeerHasNoParams(p, peers[|peers| - 1]);
    }
  }

  /** The parameters in the file, as the manager reads them. */
  function ReadParams(file: string): map<Param, string> {
    ReadWith(ParamLine, Params(PARAM_MAP, map[]), file).found
  }

  lemma {:induction false} InterfaceParamsRead(doc: Doc, p: Params)
    requires CleanDoc(doc) && KeysFit(p.keys) && p.found == map[]
    ensures Fold(ParamLine, ParamLine(p, Header("Interface")), SettingLines(InterfaceSettings(doc.privateKey, doc.values)))
      == p.(found := ValuesOf(PRINTED, doc.values))
  {
    HeaderIsNoParam(p, "Interface");
    InterfaceIsClean(doc);
    ParamsOfSettings(p, InterfaceSettings(doc.privateKey, doc.values));
    InterfaceParams(doc.values, doc.privateKey, p);
  }

  /** Whatever peers the file holds, its parameters are those the installer printed. */
  lemma {:induction false} ParamsReadBack(doc: Doc)
    requires CleanDoc(doc)
    ensures ReadParams(Print(Sections(doc))) == ValuesOf(PRINTED, doc.values)
  {
    var p := Params(PARAM_MAP, map[]);
    var q := p.(found := ValuesOf(PRINTED, doc.values));
    ParamMapFits();
    forall r: Params { HeaderIsNoParam(r, ""); }
    InterfaceParamsRead(doc, p);
    forall i | 0 <= i < |doc.peers|
      ensures ReadsPeer(ParamLine, RecordPeer, doc.peers[i])
    {
      forall r: Params { PeerAddsNoParam(doc.peers[i], r); }
    }
    SectionsClean(doc);
    ReadSections(ParamLine, RecordPeer, p, q, Sections(doc)[0], doc.peers);
    PeersHaveNoParams(q, doc.peers);
  }

  // ----- Reading peers back -----

  /** The state of the peer reader: peers so far, the section's key, and whether it raised. */
  datatype PeerScan = PeerScan(peers: map<string, string>, current: Option<string>, raised: bool)

  function PeerLine(st: PeerScan, raw: string): PeerScan {
    var line := Strip(raw);
    if st.raised then st
    else if line == "[Peer]" then st.(current := None)
    else if st.current.None? && "PublicKey" <= line then
      var cut := Cut(line, '=');
      if cut.None? then st.(raised := true)
      else
        var key := Strip(cut.value.1);
        st.(peers := st.peers[key := ""], current := Some(key))
    else if st.current.Some? && st.current.value != "" && "AllowedIPs" <= line then
      var cut := Cut(line, '=');
      if cut.None? then st.(raised := true)
      else st.(peers := st.peers[st.current.value := Strip(cut.value.1)])
    else st
  }

  /** Lines that neither open a peer nor name a key or addresses leave the reader alone. */
  predicate QuietName(n: string) {
    n != "" && n[0] != 'A' && (n[0] == 'P' ==> |n| > 1 && n[1] == 'r')
  }

  lemma {:induction false} QuietLine(st: PeerScan, s: Setting)
    requires CleanName(s.name) && CleanValue(s.value)
    requires QuietName(s.name) || (s.name == "Address" && st.current.None?)
    ensures PeerLine(st, SettingLine(s)) == st
  {
    var line := SettingLine(s);
    SettingIsTrimmed(s);
    assert line[0] == s.name[0];
    assert line[1] == if |s.name| > 1 then s.name[1] else ' ';
  }

  lemma {:induction false} QuietLines(st: PeerScan, ss: seq<Setting>)
    requires CleanSettings(ss)
    requires forall i :: 0 <= i < |ss| ==> QuietName(ss[i].name) || (ss[i].name == "Address" && st.current.None?)
    ensures Fold(PeerLine, st, SettingLines(ss)) == st
    decreases |ss|
  {
    if ss != [] {
      var n := |ss| - 1;
      QuietLines(st, ss[..n]);
      assert SettingLines(ss)[..n] == SettingLines(ss[..n]);
      QuietLine(st, ss[n]);
    }
  }

  lemma {:induction false} ParamNamesAreQuiet(p: Param)
    ensures QuietName(NameOf(p)) && NameOf(p)[0] != 'P'
  {
  }

  function ScanPeer(st: PeerScan, p: Peer): PeerScan {
    if st.raised then st
    else st.(peers := st.peers[p.key := p.ip + "/32"], current := Some(p.key))
  }

  lemma {:induction false} RaisedStays(st: PeerScan, lines: seq<string>)
    requires st.raised
    ensures Fold(PeerLine, st, lines) == st
    decreases |lines|
  {
    if lines != [] {
      RaisedStays(st, lines[..|lines| - 1]);
    }
  }

  lemma {:induction false} PeerLinesCompose(a: PeerScan, p: Peer, b: PeerScan, c: PeerScan, d: PeerScan, e: PeerScan)
    requires PeerLine(a, Header("Peer")) == b
    requires PeerLine(b, SettingLine(PeerSettings(p)[0])) == c
    requires PeerLine(c, SettingLine(PeerSettings(p)[1])) == d
    requires PeerLine(d, SettingLine(PeerSettings(p)[2])) == e
    ensures Fold(PeerLine, PeerLine(a, Header("Peer")), SettingLines(PeerSettings(p))) == e
  {
    FoldThree(PeerLine, b, SettingLines(PeerSettings(p)));
  }

  lemma {:induction false} PeerLines(st: PeerScan, p: Peer)
    requires CleanPeer(p)
    ensures Fold(PeerLine, PeerLine(st, Header("Peer")), SettingLines(PeerSettings(p))) == ScanPeer(st, p)
  {
    HeaderLines(st);
    if st.raised {
      RaisedStays(st, SettingLines(PeerSettings(p)));
    } else {
      var ss := PeerSettings(p);
      var b := st.(current := None);
      var c := PeerScan(st.peers[p.key := ""], Some(p.key), false);
      var e := PeerScan(st.peers[p.key := p.ip + "/32"], Some(p.key), false);
      PeerIsClean(p);
      FixedNamesAreClean();
      KeyLine(b, ss[0]);
      QuietLine(c, ss[1]);
      AddressLine(c, ss[2]);
      LastUpdateWins(st.peers, p.key, "", p.ip + "/32");
      PeerLinesCompose(st, p, b, c, c, e);
    }
  }

  lemma {:induction false} LastUpdateWins(m: map<string, string>, key: string, a: string, b: string)
    ensures m[key := a][key := b] == m[key := b]
  {
  }

  lemma {:induction false} KeyLine(st: PeerScan, s: Setting)
    requires s.name == "PublicKey" && CleanName(s.name) && CleanValue(s.value)
    requires !st.raised && st.current.None?
    ensures PeerLine(st, SettingLine(s)) == PeerScan(st.peers[s.value := ""], Some(s.value), false)
  {
    SettingIsTrimmed(s);
    SettingReads(s);
    assert "PublicKey" <= SettingLine(s);
  }

  lemma {:induction false} AddressLine(st: PeerScan, s: Setting)
    requires s.name == "AllowedIPs" && CleanName(s.name) && CleanValue(s.value)
    requires !st.raised && st.current.Some? && st.current.value != ""
    ensures PeerLine(st, SettingLine(s)) == PeerScan(st.peers[st.current.value := s.value], st.current, false)
  {
    SettingIsTrimmed(s);
    SettingReads(s);
    assert "AllowedIPs" <= SettingLine(s);
  }

  lemma {:induction false} HeaderLines(st: PeerScan)
    ensures PeerLine(st, Header("Interface")) == st && PeerLine(st, "") == st
    ensures PeerLine(st, Header("Peer")) == if st.raised then st else st.(current := None)
  {
    assert Header("Interface") == "[Interface]" && Header("Peer") == "[Peer]";
    StripTrimmed("[Interface]");
    StripTrimmed("[Peer]");
  }

  lemma {:induction false} ScanPeersFold(st: PeerScan, peers: seq<Peer>)
    requires !st.raised
    ensures var r := FoldPeers(ScanPeer, st, peers);
      !r.raised && r.peers == st.peers + PeersOf(peers)
    decreases |peers|
  {
    if peers == [] {
      assert st.peers + map[] == st.peers;
    } else {
      ScanPeersFold(st, peers[..|peers| - 1]);
    }
  }

  /** The peers in the file, as the manager reads them; None when the reader raises. */
  function ReadPeers(file: string): Option<map<string, string>> {
    var r := ReadWith(PeerLine, PeerScan(map[], None, false), file);
    if r.raised then None else Some(r.peers)
  }

  lemma {:induction false} InterfaceIsQuiet(doc: Doc, st: PeerScan)
    requires CleanDoc(doc) && st.current.None?
    ensures Fold(PeerLine, PeerLine(st, Header("Interface")), SettingLines(InterfaceSettings(doc.privateKey, doc.values))) == st
  {
    var ss := InterfaceSettings(doc.privateKey, doc.values);
    assert PeerLine(st, Header("Interface")) == st by { HeaderLines(st); }
    InterfaceIsClean(doc);
    forall i | 0 <= i < |PRINTED|
      ensures QuietName(NameOf(PRINTED[i]))
    {
      ParamNamesAreQuiet(PRINTED[i]);
    }
    QuietLines(st, ss);
  }

  /** Reading the printed configuration gives each peer's key with its address. */
  lemma {:induction false} PeersReadBack(doc: Doc)
    requires CleanDoc(doc)
    ensures ReadPeers(Print(Sections(doc))) == Some(PeersOf(doc.peers))
  {
    var st := PeerScan(map[], None, false);
    InterfaceIsQuiet(doc, st);
    PeersReadDoc(doc, st);
    ScanPeersFold(st, doc.peers);
    NothingPlus(PeersOf(doc.peers));
  }

  lemma {:induction false} NothingPlus(m: map<string, string>)
    ensures map[] + m == m
  {
  }

  lemma {:induction false} PeersReadDoc(doc: Doc, st: PeerScan)
    requires CleanDoc(doc)
    requires Fold(PeerLine, PeerLine(st, Header("Interface")), SettingLines(InterfaceSettings(doc.privateKey, doc.values))) == st
    ensures ReadWith(PeerLine, st, Print(Sections(doc))) == FoldPeers(ScanPeer, st, doc.peers)
  {
    forall r: PeerScan { HeaderLines(r); }
    forall i | 0 <= i < |doc.peers|
      ensures ReadsPeer(PeerLine, ScanPeer, doc.peers[i])
    {
      forall r: PeerScan { PeerLines(r, doc.peers[i]); }
    }
    SectionsClean(doc);
    ReadSections(PeerLine, ScanPeer, st, st, Sections(doc)[0], doc.peers);
  }

  function PeersOf(ps: seq<Peer>): map<string, string> {
    if ps == [] then map[]
    else PeersOf(ps[..|ps| - 1])[ps[|ps| - 1].key := ps[|ps| - 1].ip + "/32"]
  }

  // ----- Reading the addresses in use -----

  function DigitRun(s: string): (n: nat)
    ensures n <= |s|
  {
    if s != "" && IsDigit(s[0]) then 1 + DigitRun(s[1..]) else 0
  }

  /** The length of a match of `groups` digit runs joined by dots at the start of the text. */
  function MatchDotted(s: string, groups: nat): (r: Option<nat>)
    requires groups >= 1
    ensures r.Some? ==> r.value <= |s|
    decreases groups
  {
    var run := DigitRun(s);
    if run == 0 then None
    else if groups == 1 then Some(run)
    else if run == |s| || s[run] != '.' then None
    else
      var rest := MatchDotted(s[run + 1..], groups - 1);
      if rest.None? then None else Some(run + 1 + rest.value)
  }

  /** The leftmost dotted quad of the text. */
  function SearchQuad(s: string): Option<string> {
    var here := MatchDotted(s, 4);
    if here.Some? then Some(s[..here.value])
    else if s == "" then None
    else SearchQuad(s[1..])
  }

  function UsedLine(ips: seq<string>, raw: string): seq<string> {
    var line := Strip(raw);
    if "AllowedIPs" <= line || "Address" <= line then
      var quad := SearchQuad(line);
      if quad.None? then ips else ips + [quad.value]
    else ips
  }

  function ReadUsedIps(file: string): seq<string> {
    ReadWith(UsedLine, [], file)
  }

  predicate AllDigits(d: string) {
    forall i :: 0 <= i < |d| ==> IsDigit(d[i])
  }

  lemma {:induction false} DigitRunOf(d: string, rest: string)
    requires AllDigits(d) && (rest == "" || !IsDigit(rest[0]))
    ensures DigitRun(d + rest) == |d|
  {
    if d == "" {
      assert d + rest == rest;
    } else {
      assert (d + rest)[1..] == d[1..] + rest;
      DigitRunOf(d[1..], rest);
    }
  }

  lemma {:induction false} MatchGroup(d: string, rest: string, groups: nat)
    requires AllDigits(d) && d != "" && groups >= 2
    ensures var m := MatchDotted(rest, groups - 1);
      MatchDotted(d + ['.'] + rest, groups) == if m.None? then None else Some(|d| + 1 + m.value)
  {
    var s := d + ['.'] + rest;
    assert s == d + (['.'] + rest);
    DigitRunOf(d, ['.'] + rest);
    assert s[|d|] == '.' && s[|d| + 1..] == rest;
  }

  function AfterSubnet(last: string): string {
    "10" + ['.'] + ("8" + ['.'] + ("1" + ['.'] + last))
  }

  lemma {:induction false} MatchFour(a: string, b: string, c: string, last: string, k: nat)
    requires AllDigits(a) && AllDigits(b) && AllDigits(c) && a != "" && b != "" && c != ""
    requires MatchDotted(last, 1) == Some(k)
    ensures MatchDotted(a + ['.'] + (b + ['.'] + (c + ['.'] + last)), 4) == Some(|a| + |b| + |c| + 3 + k)
  {
    MatchGroup(c, last, 2);
    MatchThree(a, b, c + ['.'] + last, |c| + 1 + k);
  }

  lemma {:induction false} MatchThree(a: string, b: string, rest: string, k: nat)
    requires AllDigits(a) && AllDigits(b) && a != "" && b != "" && MatchDotted(rest, 2) == Some(k)
    ensures MatchDotted(a + ['.'] + (b + ['.'] + rest), 4) == Some(|a| + |b| + 2 + k)
  {
    MatchGroup(b, rest, 3);
    MatchMore(a, b + ['.'] + rest, |b| + 1 + k);
  }

  lemma {:induction false} MatchMore(a: string, rest: string, k: nat)
    requires AllDigits(a) && a != "" && MatchDotted(rest, 3) == Some(k)
    ensures MatchDotted(a + ['.'] + rest, 4) == Some(|a| + 1 + k)
  {
    MatchGroup(a, rest, 4);
  }

  lemma {:induction false} SearchHere(host: string, mask: string)
    requires MatchDotted(host + mask, 4) == Some(|host|)
    ensures SearchQuad(host + mask) == Some(host)
  {
    assert (host + mask)[..|host|] == host;
  }

  lemma {:induction false} MatchHost(n: nat, mask: string)
    requires mask != "" && !IsDigit(mask[0])
    ensures MatchDotted(AfterSubnet(Dec(n) + mask), 4) == Some(7 + |Dec(n)|)
  {
    var last := Dec(n) + mask;
    assert MatchDotted(last, 1) == Some(|Dec(n)|) by { DigitRunOf(Dec(n), mask); }
    MatchFour("10", "8", "1", last, |Dec(n)|);
  }

  lemma {:induction false} HostWithMask(n: nat, mask: string)
    ensures HostAddress(n) + mask == AfterSubnet(Dec(n) + mask)
    ensures |HostAddress(n)| == 7 + |Dec(n)|
  {
  }

  lemma {:induction false} SearchHost(n: nat, mask: string)
    requires mask != "" && !IsDigit(mask[0])
    ensures SearchQuad(HostAddress(n) + mask) == Some(HostAddress(n))
  {
    assert MatchDotted(HostAddress(n) + mask, 4) == Some(|HostAddress(n)|) by {
      MatchHost(n, mask);
      HostWithMask(n, mask);
    }
    SearchHere(HostAddress(n), mask);
  }

  lemma {:induction false} SearchSkips(pre: string, s: string)
    requires forall i :: 0 <= i < |pre| ==> !IsDigit(pre[i])
    ensures SearchQuad(pre + s) == SearchQuad(s)
  {
    if pre == "" {
      assert pre + s == s;
    } else {
      assert (pre + s)[1..] == pre[1..] + s;
      assert DigitRun(pre + s) == 0;
      SearchSkips(pre[1..], s);
    }
  }

  lemma {:induction false} UsedSetting(ips: seq<string>, name: string, n: nat, mask: string)
    requires name == "AllowedIPs" || name == "Address"
    requires mask == "/32" || mask == "/24"
    ensures UsedLine(ips, SettingLine(Setting(name, HostAddress(n) + mask))) == ips + [HostAddress(n)]
  {
    var s := Setting(name, HostAddress(n) + mask);
    FixedNamesAreClean();
    HostIsClean(n, mask);
    SettingIsTrimmed(s);
    assert name <= SettingLine(s);
    var pre := name + " = ";
    assert SettingLine(s) == pre + (HostAddress(n) + mask);
    SearchSkips(pre, HostAddress(n) + mask);
    SearchHost(n, mask);
  }

  lemma {:induction false} UnusedSetting(ips: seq<string>, s: Setting)
    requires CleanName(s.name) && CleanValue(s.value) && s.name[0] != 'A'
    ensures UsedLine(ips, SettingLine(s)) == ips
  {
    SettingIsTrimmed(s);
    assert SettingLine(s)[0] == s.name[0];
  }

  lemma {:induction false} UnusedSettings(ips: seq<string>, ss: seq<Setting>)
    requires CleanSettings(ss) && forall i :: 0 <= i < |ss| ==> ss[i].name[0] != 'A'
    ensures Fold(UsedLine, ips, SettingLines(ss)) == ips
    decreases |ss|
  {
    if ss != [] {
      var n := |ss| - 1;
      UnusedSettings(ips, ss[..n]);
      assert SettingLines(ss)[..n] == SettingLines(ss[..n]);
      UnusedSetting(ips, ss[n]);
    }
  }

  lemma {:induction false} UnusedHeader(ips: seq<string>, title: string)
    ensures UsedLine(ips, Header(title)) == ips && UsedLine(ips, "") == ips
  {
    StripTrimmed(Header(title));
    assert Header(title)[0] == '[';
  }

  function UsePeer(ips: seq<string>, p: Peer): seq<string> {
    ips + [p.ip]
  }

  lemma {:induction false} PeerUses(ips: seq<string>, p: Peer)
    requires CleanPeer(p)
    ensures Fold(UsedLine, UsedLine(ips, Header("Peer")), SettingLines(PeerSettings(p))) == UsePeer(ips, p)
  {
    var ss := PeerSettings(p);
    var n :| 0 <= n < 255 && p.ip == HostAddress(n);
    UnusedHeader(ips, "Peer");
    FoldThree(UsedLine, ips, SettingLines(ss));
    PeerIsClean(p);
    UnusedSetting(ips, ss[0]);
    UnusedSetting(ips, ss[1]);
    UsedSetting(ips, "AllowedIPs", n, "/32");
  }

  lemma {:induction false} OneThenLines(a: Setting, ss: seq<Setting>)
    ensures SettingLines([a] + ss) == [SettingLine(a)] + SettingLines(ss)
  {
    assert ([a] + ss)[1..] == ss;
  }

  lemma {:induction false} TwoThenLines(a: Setting, b: Setting, ss: seq<Setting>)
    ensures SettingLines([a, b] + ss) == [SettingLine(a), SettingLine(b)] + SettingLines(ss)
  {
    assert [a, b] + ss == [a] + ([b] + ss);
    OneThenLines(a, [b] + ss);
    OneThenLines(b, ss);
  }

  lemma {:induction false} UsesCompose(a: seq<string>, key: Setting, address: Setting, params: seq<Setting>, b: seq<string>)
    requires UsedLine(a, SettingLine(key)) == a && UsedLine(a, SettingLine(address)) == b
    requires Fold(UsedLine, b, SettingLines(params)) == b
    ensures Fold(UsedLine, a, SettingLines([key, address] + params)) == b
  {
    TwoThenLines(key, address, params);
    FoldAppend(UsedLine, a, [SettingLine(key), SettingLine(address)], SettingLines(params));
    FoldTwo(UsedLine, a, SettingLine(key), SettingLine(address));
  }

  lemma {:induction false} GatewayUses(ips: seq<string>)
    ensures UsedLine(ips, SettingLine(Setting("Address", GATEWAY + "/24"))) == ips + [GATEWAY]
  {
    assert HostAddress(1) == GATEWAY;
    UsedSetting(ips, "Address", 1, "/24");
  }

  lemma {:induction false} InterfaceUses(doc: Doc, ips: seq<string>)
    requires CleanDoc(doc)
    ensures Fold(UsedLine, UsedLine(ips, Header("Interface")), SettingLines(InterfaceSettings(doc.privateKey, doc.values)))
      == ips + [GATEWAY]
  {
    UnusedHeader(ips, "Interface");
    FixedNamesAreClean();
    ParamsAreClean(doc);
    var key, address := Setting("PrivateKey", doc.privateKey), Setting("Address", GATEWAY + "/24");
    UnusedSetting(ips, key);
    GatewayUses(ips);
    UnusedSettings(ips + [GATEWAY], ParamSettings(PRINTED, doc.values));
    UsesCompose(ips, key, address, ParamSettings(PRINTED, doc.values), ips + [GATEWAY]);
  }

  lemma {:induction false} ParamsAreClean(doc: Doc)
    requires CleanDoc(doc)
    ensures var ss := ParamSettings(PRINTED, doc.values);
      CleanSettings(ss) && forall i :: 0 <= i < |ss| ==> ss[i].name[0] != 'A'
  {
    var ss := ParamSettings(PRINTED, doc.values);
    forall i | 0 <= i < |ss|
      ensures CleanName(ss[i].name) && CleanValue(ss[i].value) && ss[i].name[0] != 'A'
    {
      NamesAreClean(PRINTED[i]);
      ParamNamesAreQuiet(PRINTED[i]);
    }
  }

  function Addresses(ps: seq<Peer>): (ips: seq<string>)
    ensures |ips| == |ps| && forall i :: 0 <= i < |ps| ==> ips[i] == ps[i].ip
  {
    seq(|ps|, i requires 0 <= i < |ps| => ps[i].ip)
  }

  lemma {:induction false} UsePeersFold(ips: seq<string>, ps: seq<Peer>)
    ensures FoldPeers(UsePeer, ips, ps) == ips + Addresses(ps)
    decreases |ps|
  {
    if ps != [] {
      UsePeersFold(ips, ps[..|ps| - 1]);
      assert Addresses(ps) == Addresses(ps[..|ps| - 1]) + [ps[|ps| - 1].ip];
    }
  }

  lemma {:induction false} UsedReadDoc(doc: Doc)
    requires CleanDoc(doc)
    requires Fold(UsedLine, UsedLine([], Header("Interface")), SettingLines(InterfaceSettings(doc.privateKey, doc.values))) == [GATEWAY]
    ensures ReadUsedIps(Print(Sections(doc))) == FoldPeers(UsePeer, [GATEWAY], doc.peers)
  {
    forall ips: seq<string> { UnusedHeader(ips, ""); }
    forall i | 0 <= i < |doc.peers|
      ensures ReadsPeer(UsedLine, UsePeer, doc.peers[i])
    {
      forall ips: seq<string> { PeerUses(ips, doc.peers[i]); }
    }
    SectionsClean(doc);
    ReadSections(UsedLine, UsePeer, [], [GATEWAY], Sections(doc)[0], doc.peers);
  }

  /** The addresses found in the file are the gateway and exactly the peers' addresses. */
  lemma {:induction false} UsedIpsReadBack(doc: Doc)
    requires CleanDoc(doc)
    ensures ReadUsedIps(Print(Sections(doc))) == [GATEWAY] + Addresses(doc.peers)
  {
    InterfaceUses(doc, []);
    UsedReadDoc(doc);
    UsePeersFold([GATEWAY], doc.peers);
  }

  /** The first host of the subnet that is neither used nor the gateway. */
  function FirstFree(used: seq<string>, n: nat): (r: Option<nat>)
    requires n <= 255
    ensures r.Some? ==> n <= r.value <= 254 && HostAddress(r.value) !in used && HostAddress(r.value) != GATEWAY
    ensures r.Some? ==> forall k :: n <= k < r.value ==> HostAddress(k) in used || HostAddress(k) == GATEWAY
    ensures r.None? ==> forall k :: n <= k <= 254 ==> HostAddress(k) in used || HostAddress(k) == GATEWAY
    decreases 255 - n
  {
    if n == 255 then None
    else if HostAddress(n) !in used && HostAddress(n) != GATEWAY then Some(n)
    else FirstFree(used, n + 1)
  }
}
