/**
 The TLS ClientHello that the mimicry profile sends, and an independent decoder
 that checks every nested length (app/managers/awg_cps.py; sections 4.1.2, 4.2 and
 5.1 of RFC 8446, section 3 of RFC 6066, section 3.1 of RFC 7301).
 */
module ClientHello {
  import opened Tables
  import opened Bytes

  // ----- The generator -----

  const GROUPS: Bytes := [0x00, 0x1d, 0x00, 0x17, 0x00, 0x18]
  const POINT_FORMATS: Bytes := [0x00, 0x0b, 0x00, 0x02, 0x01, 0x00]
  const SIGNATURES: Bytes :=
    [0x04, 0x03, 0x08, 0x04, 0x04, 0x01, 0x05, 0x03, 0x08, 0x05, 0x05, 0x01, 0x08, 0x06, 0x06, 0x01, 0x02, 0x01]
  const VERSIONS: Bytes := [0x03, 0x04, 0x03, 0x03]
  const PROTOCOLS: Bytes := [0x02, 0x68, 0x32, 0x08, 0x68, 0x74, 0x74, 0x70, 0x2f, 0x31, 0x2e, 0x31]
  const CIPHERS: Bytes :=
    [0x13, 0x01, 0x13, 0x02, 0x13, 0x03,
     0xc0, 0x2b, 0xc0, 0x2f, 0xc0, 0x2c, 0xc0, 0x30,
     0xcc, 0xa9, 0xcc, 0xa8,
     0xc0, 0x13, 0xc0, 0x14, 0x00, 0x9c, 0x00, 0x9d, 0x00, 0x2f, 0x00, 0x35]

  /** The random bytes of one packet. */
  datatype Randomness = Randomness(hello: Bytes, session: Bytes, key: Bytes)

  ghost predicate Drawn(r: Randomness) {
    |r.hello| == 32 && |r.session| == 32 && |r.key| == 32
  }

  function ServerName(domain: Bytes): Bytes {
    [0] + U16(|domain|) + domain
  }

  function SniData(domain: Bytes): Bytes {
    U16(|ServerName(domain)|) + ServerName(domain)
  }

  function ExtSni(domain: Bytes): Bytes {
    [0x00, 0x00] + U16(|SniData(domain)|) + SniData(domain)
  }

  function ExtGroups(): Bytes {
    [0x00, 0x0a] + U16(|GROUPS| + 2) + U16(|GROUPS|) + GROUPS
  }

  function ExtSignatures(): Bytes {
    [0x00, 0x0d] + U16(|SIGNATURES| + 2) + U16(|SIGNATURES|) + SIGNATURES
  }

  function ExtVersions(): Bytes {
    [0x00, 0x2b] + U16(|VERSIONS| + 1) + [|VERSIONS|] + VERSIONS
  }

  function KeyShareEntry(key: Bytes): Bytes {
    [0x00, 0x1d] + U16(|key|) + key
  }

  function KeyShareData(key: Bytes): Bytes {
    U16(|KeyShareEntry(key)|) + KeyShareEntry(key)
  }

  function ExtKeyShare(key: Bytes): Bytes {
    [0x00, 0x33] + U16(|KeyShareData(key)|) + KeyShareData(key)
  }

  function AlpnData(): Bytes {
    U16(|PROTOCOLS|) + PROTOCOLS
  }

  function ExtAlpn(): Bytes {
    [0x00, 0x10] + U16(|AlpnData()|) + AlpnData()
  }

  function AllExtensions(domain: Bytes, key: Bytes): Bytes {
    ExtSni(domain) + ExtGroups() + POINT_FORMATS + ExtSignatures() + ExtVersions() + ExtKeyShare(key) + ExtAlpn()
  }

  function SessionBlock(session: Bytes): Bytes
    requires |session| < 256
  {
    [|session|] + session
  }

  function CipherBlock(): Bytes {
    U16(|CIPHERS|) + CIPHERS
  }

  function Payload(domain: Bytes, r: Randomness): Bytes
    requires Drawn(r)
  {
    [0x03, 0x03] + r.hello + SessionBlock(r.session) + CipherBlock() + [0x01, 0x00]
      + (U16(|AllExtensions(domain, r.key)|) + AllExtensions(domain, r.key))
  }

  function HandshakeMessage(domain: Bytes, r: Randomness): Bytes
    requires Drawn(r)
  {
    [0x01] + U24(|Payload(domain, r)|) + Payload(domain, r)
  }

  /** Two-byte lengths are masked to 16 bits, so an oversized block is sent with a wrapped length. */
  function GenTls(domain: Bytes, r: Randomness): Bytes
    requires Drawn(r)
  {
    [0x16, 0x03, 0x01] + U16(|HandshakeMessage(domain, r)|) + HandshakeMessage(domain, r)
  }

  // ----- The decoder -----

  datatype Extension = Extension(kind: nat, body: Bytes)
  datatype KeyShare = KeyShare(group: nat, key: Bytes)

  datatype Content =
    | ServerNames(names: seq<Bytes>)
    | Groups(list: Bytes)
    | Formats(list: Bytes)
    | Signatures(list: Bytes)
    | Versions(list: Bytes)
    | KeyShares(shares: seq<KeyShare>)
    | Protocols(names: seq<Bytes>)
    | Unknown(kind: nat, body: Bytes)

  /** The parts of a ClientHello before its extensions are read. */
  datatype Parts = Parts(random: Bytes, session: Bytes, ciphers: Bytes, compression: Bytes, extensions: Bytes)

  datatype Hello = Hello(random: Bytes, session: Bytes, ciphers: Bytes, compression: Bytes, contents: seq<Content>)

  /** A list of extensions that fills `s` exactly. */
  function ReadExtensions(s: Bytes): Option<seq<Extension>>
    decreases |s|
  {
    if s == [] then Some([])
    else
      var kind := ReadU16(s);
      if kind.None? then None
      else
        var body := ReadVec16(kind.value.rest);
        if body.None? then None
        else
          var rest := ReadExtensions(body.value.rest);
          if rest.None? then None else Some([Extension(kind.value.value, body.value.value)] + rest.value)
  }

  /** A two-byte length that covers all that follows. */
  function Exactly16(s: Bytes): Option<Bytes> {
    var v := ReadVec16(s);
    if v.Some? && v.value.rest == [] then Some(v.value.value) else None
  }

  function Exactly8(s: Bytes): Option<Bytes> {
    var v := ReadVec8(s);
    if v.Some? && v.value.rest == [] then Some(v.value.value) else None
  }

  /** Host names (type 0), each with a length of at least one. */
  function ReadNames(s: Bytes): Option<seq<Bytes>>
    decreases |s|
  {
    if s == [] then Some([])
    else
      var name := ReadVec16(s[1..]);
      if s[0] != 0 || name.None? || name.value.value == [] then None
      else
        var rest := ReadNames(name.value.rest);
        if rest.None? then None else Some([name.value.value] + rest.value)
  }

  function ReadShares(s: Bytes): Option<seq<KeyShare>>
    decreases |s|
  {
    if s == [] then Some([])
    else
      var group := ReadU16(s);
      if group.None? then None
      else
        var key := ReadVec16(group.value.rest);
        if key.None? || key.value.value == [] then None
        else
          var rest := ReadShares(key.value.rest);
          if rest.None? then None else Some([KeyShare(group.value.value, key.value.value)] + rest.value)
  }

  function ReadProtocols(s: Bytes): Option<seq<Bytes>>
    decreases |s|
  {
    if s == [] then Some([])
    else
      var name := ReadVec8(s);
      if name.None? || name.value.value == [] then None
      else
        var rest := ReadProtocols(name.value.rest);
        if rest.None? then None else Some([name.value.value] + rest.value)
  }

  predicate PairList(list: Bytes) {
    list != [] && |list| % 2 == 0
  }

  function ReadContent(e: Extension): Option<Content> {
    var list16, list8 := Exactly16(e.body), Exactly8(e.body);
    if e.kind == 0x00 then
      if list16.None? || list16.value == [] then None
      else
        var names := ReadNames(list16.value);
        if names.None? then None else Some(ServerNames(names.value))
    else if e.kind == 0x0a then
      if list16.None? || !PairList(list16.value) then None else Some(Groups(list16.value))
    else if e.kind == 0x0b then
      if list8.None? || list8.value == [] then None else Some(Formats(list8.value))
    else if e.kind == 0x0d then
      if list16.None? || !PairList(list16.value) then None else Some(Signatures(list16.value))
    else if e.kind == 0x2b then
      if list8.None? || !PairList(list8.value) then None else Some(Versions(list8.value))
    else if e.kind == 0x33 then
      if list16.None? then None
      else
        var shares := ReadShares(list16.value);
        if shares.None? then None else Some(KeyShares(shares.value))
    else if e.kind == 0x10 then
      if list16.None? || list16.value == [] then None
      else
        var names := ReadProtocols(list16.value);
        if names.None? then None else Some(Protocols(names.value))
    else Some(Unknown(e.kind, e.body))
  }

  function ReadContents(exts: seq<Extension>): Option<seq<Content>> {
    if exts == [] then Some([])
    else
      var first, rest := ReadContent(exts[0]), ReadContents(exts[1..]);
      if first.None? || rest.None? then None else Some([first.value] + rest.value)
  }

  predicate NoKindTwice(exts: seq<Extension>) {
    forall i, j :: 0 <= i < j < |exts| ==> exts[i].kind != exts[j].kind
  }

  function ReadSuites(random: Bytes, session: Bytes, s: Bytes): Option<Parts> {
    var ciphers := ReadVec16(s);
    if ciphers.None? || !PairList(ciphers.value.value) then None
    else
      var compression := ReadVec8(ciphers.value.rest);
      if compression.None? || compression.value.value == [] then None
      else
        var block := Exactly16(compression.value.rest);
        if block.None? then None
        else Some(Parts(random, session, ciphers.value.value, compression.value.value, block.value))
  }

  /** The body of a ClientHello, with nothing left over. */
  function ReadParts(s: Bytes): Option<Parts> {
    var version := ReadU16(s);
    if version.None? || version.value.value != 0x0303 then None
    else
      var random := ReadN(version.value.rest, 32);
      if random.None? then None
      else
        var session := ReadVec8(random.value.rest);
        if session.None? || |session.value.value| > 32 then None
        else ReadSuites(random.value.value, session.value.value, session.value.rest)
  }

  function ReadHello(s: Bytes): Option<Hello> {
    var parts := ReadParts(s);
    if parts.None? then None
    else
      var exts := ReadExtensions(parts.value.extensions);
      if exts.None? || !NoKindTwice(exts.value) then None
      else
        var contents := ReadContents(exts.value);
        if contents.None? then None
        else
          var p := parts.value;
          Some(Hello(p.random, p.session, p.ciphers, p.compression, contents.value))
  }

  /** A handshake message of type ClientHello whose length covers all that follows. */
  function ReadHandshake(s: Bytes): Option<Hello> {
    var length := ReadU24(if s == [] then s else s[1..]);
    if s == [] || s[0] != 0x01 || length.None? || length.value.value != |length.value.rest| then None
    else ReadHello(length.value.rest)
  }

  /** One plaintext record: handshake type, version 3.x, and a fragment of at most 2^14 bytes that ends the input. */
  function DecodeRecord(s: Bytes): Option<Hello> {
    var kind := ReadU24(s);
    if kind.None? || s[0] != 0x16 || s[1] != 0x03 then None
    else
      var fragment := Exactly16(kind.value.rest);
      if fragment.None? || |fragment.value| > 16384 then None else ReadHandshake(fragment.value)
  }

  // ----- Sizes -----

  lemma {:induction false} ExtensionSizes(domain: Bytes, key: Bytes)
    requires |key| == 32
    ensures |SniData(domain)| == |domain| + 5
    ensures |AllExtensions(domain, key)| == |domain| + 120
  {
    assert |ExtSni(domain)| == |domain| + 9;
    assert |ExtGroups()| == 12;
    assert |POINT_FORMATS| == 6;
    assert |ExtSignatures()| == 24;
    assert |ExtVersions()| == 9;
    assert |ExtKeyShare(key)| == 42;
    assert |ExtAlpn()| == 18;
  }

  lemma {:induction false} MessageSize(domain: Bytes, r: Randomness)
    requires Drawn(r)
    ensures |Payload(domain, r)| == |domain| + 223
    ensures |HandshakeMessage(domain, r)| == |domain| + 227
  {
    ExtensionSizes(domain, r.key);
    assert |CipherBlock()| == 32;
    assert |SessionBlock(r.session)| == 33;
  }

  // ----- Reading back what is written -----

  function Print(e: Extension): Bytes {
    U16(e.kind) + U16(|e.body|) + e.body
  }

  predicate Printable(e: Extension) {
    e.kind < 65536 && |e.body| < 65536
  }

  lemma {:induction false} Exactly16Reads(data: Bytes)
    requires |data| < 65536
    ensures Exactly16(U16(|data|) + data) == Some(data)
  {
    Vec16Reads(data, []);
    assert U16(|data|) + data + [] == U16(|data|) + data;
  }

  lemma {:induction false} Exactly8Reads(n: Byte, data: Bytes)
    requires n == |data|
    ensures Exactly8([n] + data) == Some(data)
  {
    Vec8Reads(n, data, []);
    assert [n] + data + [] == [n] + data;
  }

  lemma {:induction false} ExtensionReads(e: Extension, rest: Bytes, exts: seq<Extension>)
    requires Printable(e) && ReadExtensions(rest) == Some(exts)
    ensures ReadExtensions(Print(e) + rest) == Some([e] + exts)
  {
    var tail := U16(|e.body|) + e.body + rest;
    RegroupFour(U16(e.kind), U16(|e.body|), e.body, rest);
    U16Reads(e.kind, tail);
    Vec16Reads(e.body, rest);
    ReadFirst(U16(e.kind) + tail, e, tail, rest, exts);
  }

  lemma {:induction false} RegroupFour(a: Bytes, b: Bytes, c: Bytes, d: Bytes)
    ensures a + b + c + d == a + (b + c + d)
  {
  }

  lemma {:induction false} ReadFirst(s: Bytes, e: Extension, tail: Bytes, rest: Bytes, exts: seq<Extension>)
    requires ReadU16(s) == Some(Read(e.kind, tail)) && ReadVec16(tail) == Some(Read(e.body, rest))
    requires ReadExtensions(rest) == Some(exts)
    ensures ReadExtensions(s) == Some([e] + exts)
  {
  }

  /** Prepending a printed extension prepends it to what is read. */
  lemma {:induction false} OneMore(e: Extension, rest: Bytes, exts: seq<Extension>, all: seq<Extension>)
    requires Printable(e) && ReadExtensions(rest) == Some(exts) && all == [e] + exts
    ensures ReadExtensions(Print(e) + rest) == Some(all)
  {
    ExtensionReads(e, rest, exts);
  }

  lemma {:induction false} FourRead(d: Extension, e: Extension, f: Extension, g: Extension)
    requires Printable(d) && Printable(e) && Printable(f) && Printable(g)
    ensures ReadExtensions(Print(d) + (Print(e) + (Print(f) + Print(g)))) == Some([d, e, f, g])
  {
    OneMore(g, [], [], [g]);
    assert Print(g) + [] == Print(g);
    OneMore(f, Print(g), [g], [f, g]);
    OneMore(e, Print(f) + Print(g), [f, g], [e, f, g]);
    OneMore(d, Print(e) + (Print(f) + Print(g)), [e, f, g], [d, e, f, g]);
  }

  lemma {:induction false} ThreeMoreRead(a: Extension, b: Extension, c: Extension, rest: Bytes, exts: seq<Extension>)
    requires Printable(a) && Printable(b) && Printable(c) && ReadExtensions(rest) == Some(exts)
    ensures ReadExtensions(Print(a) + (Print(b) + (Print(c) + rest))) == Some([a] + ([b] + ([c] + exts)))
  {
    OneMore(c, rest, exts, [c] + exts);
    OneMore(b, Print(c) + rest, [c] + exts, [b] + ([c] + exts));
    OneMore(a, Print(b) + (Print(c) + rest), [b] + ([c] + exts), [a] + ([b] + ([c] + exts)));
  }

  lemma {:induction false} SevenRead(a: Extension, b: Extension, c: Extension, d: Extension, e: Extension, f: Extension, g: Extension)
    requires Printable(a) && Printable(b) && Printable(c)
    requires Printable(d) && Printable(e) && Printable(f) && Printable(g)
    ensures ReadExtensions(Print(a) + Print(b) + Print(c) + Print(d) + Print(e) + Print(f) + Print(g))
      == Some([a, b, c, d, e, f, g])
  {
    FourRead(d, e, f, g);
    ThreeMoreRead(a, b, c, Print(d) + (Print(e) + (Print(f) + Print(g))), [d, e, f, g]);
    assert [a] + ([b] + ([c] + [d, e, f, g])) == [a, b, c, d, e, f, g];
    Regroup(Print(a), Print(b), Print(c), Print(d), Print(e), Print(f), Print(g));
  }

  lemma {:induction false} Regroup(a: Bytes, b: Bytes, c: Bytes, d: Bytes, e: Bytes, f: Bytes, g: Bytes)
    ensures a + (b + (c + (d + (e + (f + g))))) == a + b + c + d + e + f + g
  {
    assert d + (e + (f + g)) == d + e + f + g;
    assert c + (d + e + f + g) == c + d + e + f + g;
    assert b + (c + d + e + f + g) == b + c + d + e + f + g;
  }

  // ----- The seven extensions -----

  function SniExtension(domain: Bytes): Extension { Extension(0x00, SniData(domain)) }
  function GroupsExtension(): Extension { Extension(0x0a, U16(|GROUPS|) + GROUPS) }
  function FormatsExtension(): Extension { Extension(0x0b, [1, 0]) }
  function SignaturesExtension(): Extension { Extension(0x0d, U16(|SIGNATURES|) + SIGNATURES) }
  function VersionsExtension(): Extension { Extension(0x2b, [|VERSIONS|] + VERSIONS) }
  function KeyShareExtension(key: Bytes): Extension { Extension(0x33, KeyShareData(key)) }
  function AlpnExtension(): Extension { Extension(0x10, AlpnData()) }

  function SentExtensions(domain: Bytes, key: Bytes): seq<Extension> {
    [SniExtension(domain), GroupsExtension(), FormatsExtension(), SignaturesExtension(), VersionsExtension(),
     KeyShareExtension(key), AlpnExtension()]
  }

  lemma {:induction false} FixedArePrinted()
    ensures ExtGroups() == Print(GroupsExtension()) && Printable(GroupsExtension())
    ensures POINT_FORMATS == Print(FormatsExtension()) && Printable(FormatsExtension())
    ensures ExtSignatures() == Print(SignaturesExtension()) && Printable(SignaturesExtension())
    ensures ExtVersions() == Print(VersionsExtension()) && Printable(VersionsExtension())
    ensures ExtAlpn() == Print(AlpnExtension()) && Printable(AlpnExtension())
  {
  }

  lemma {:induction false} OwnArePrinted(domain: Bytes, key: Bytes)
    requires |domain| <= 65000 && |key| == 32
    ensures ExtSni(domain) == Print(SniExtension(domain)) && Printable(SniExtension(domain))
    ensures ExtKeyShare(key) == Print(KeyShareExtension(key)) && Printable(KeyShareExtension(key))
  {
  }

  lemma {:induction false} ExtensionsRead(domain: Bytes, key: Bytes)
    requires |domain| <= 65000 && |key| == 32
    ensures ReadExtensions(AllExtensions(domain, key)) == Some(SentExtensions(domain, key))
  {
    FixedArePrinted();
    OwnArePrinted(domain, key);
    SevenRead(SniExtension(domain), GroupsExtension(), FormatsExtension(), SignaturesExtension(), VersionsExtension(),
      KeyShareExtension(key), AlpnExtension());
  }

  lemma {:induction false} NamesRead(domain: Bytes)
    requires 1 <= |domain| <= 65000
    ensures ReadNames(ServerName(domain)) == Some([domain])
  {
    var s := ServerName(domain);
    assert s[1..] == U16(|domain|) + domain + [];
    Vec16Reads(domain, []);
    assert [domain] + [] == [domain];
  }

  lemma {:induction false} SniReads(domain: Bytes)
    requires 1 <= |domain| <= 65000
    ensures ReadContent(SniExtension(domain)) == Some(ServerNames([domain]))
  {
    Exactly16Reads(ServerName(domain));
    NamesRead(domain);
  }

  lemma {:induction false} SharesRead(key: Bytes)
    requires |key| == 32
    ensures ReadShares(KeyShareEntry(key)) == Some([KeyShare(0x1d, key)])
  {
    var s := KeyShareEntry(key);
    assert U16(0x1d) == [0x00, 0x1d];
    assert s == U16(0x1d) + (U16(|key|) + key + []);
    U16Reads(0x1d, U16(|key|) + key + []);
    Vec16Reads(key, []);
    assert [KeyShare(0x1d, key)] + [] == [KeyShare(0x1d, key)];
  }

  lemma {:induction false} KeyShareReads(key: Bytes)
    requires |key| == 32
    ensures ReadContent(KeyShareExtension(key)) == Some(KeyShares([KeyShare(0x1d, key)]))
  {
    Exactly16Reads(KeyShareEntry(key));
    SharesRead(key);
  }

  const H2: Bytes := [0x68, 0x32]
  const HTTP11: Bytes := [0x68, 0x74, 0x74, 0x70, 0x2f, 0x31, 0x2e, 0x31]

  lemma {:induction false} ProtocolsRead()
    ensures ReadProtocols(PROTOCOLS) == Some([H2, HTTP11])
  {
    var second: Bytes := [8] + HTTP11;
    Vec8Reads(8, HTTP11, []);
    assert [8] + HTTP11 + [] == second;
    assert [HTTP11] + [] == [HTTP11];
    assert ReadProtocols(second) == Some([HTTP11]);
    assert PROTOCOLS == [2] + H2 + second;
    Vec8Reads(2, H2, second);
    assert [H2] + [HTTP11] == [H2, HTTP11];
  }

  lemma {:induction false} AlpnReads()
    ensures ReadContent(AlpnExtension()) == Some(Protocols([H2, HTTP11]))
  {
    Exactly16Reads(PROTOCOLS);
    ProtocolsRead();
  }

  lemma {:induction false} ListsRead()
    ensures ReadContent(GroupsExtension()) == Some(Groups(GROUPS))
    ensures ReadContent(SignaturesExtension()) == Some(Signatures(SIGNATURES))
    ensures ReadContent(FormatsExtension()) == Some(Formats([0]))
    ensures ReadContent(VersionsExtension()) == Some(Versions(VERSIONS))
  {
    Exactly16Reads(GROUPS);
    Exactly16Reads(SIGNATURES);
    Exactly8Reads(1, [0]);
    assert [1] + [0] == [1, 0];
    Exactly8Reads(4, VERSIONS);
  }

  function SentContents(domain: Bytes, key: Bytes): seq<Content> {
    [ServerNames([domain]), Groups(GROUPS), Formats([0]), Signatures(SIGNATURES), Versions(VERSIONS),
     KeyShares([KeyShare(0x1d, key)]), Protocols([H2, HTTP11])]
  }

  lemma {:induction false} ContentFirst(e: Extension, exts: seq<Extension>, c: Content, cs: seq<Content>, allE: seq<Extension>, allC: seq<Content>)
    requires ReadContent(e) == Some(c) && ReadContents(exts) == Some(cs)
    requires allE == [e] + exts && allC == [c] + cs
    ensures ReadContents(allE) == Some(allC)
  {
    assert allE[1..] == exts;
  }

  /** Reading each extension in turn reads the list. */
  lemma {:induction false} EachContentRead(es: seq<Extension>, cs: seq<Content>, k: nat)
    requires k <= |es| == |cs| && forall i :: 0 <= i < |es| ==> ReadContent(es[i]) == Some(cs[i])
    ensures ReadContents(es[k..]) == Some(cs[k..])
    decreases |es| - k
  {
    if k < |es| {
      EachContentRead(es, cs, k + 1);
      ContentFirst(es[k], es[k + 1..], cs[k], cs[k + 1..], es[k..], cs[k..]);
    }
  }

  lemma {:induction false} ContentsRead(domain: Bytes, key: Bytes)
    requires 1 <= |domain| <= 65000 && |key| == 32
    ensures ReadContents(SentExtensions(domain, key)) == Some(SentContents(domain, key))
  {
    var es, cs := SentExtensions(domain, key), SentContents(domain, key);
    SniReads(domain);
    ListsRead();
    KeyShareReads(key);
    AlpnReads();
    forall i | 0 <= i < |es| ensures ReadContent(es[i]) == Some(cs[i]) {
      assert i == 0 || i == 1 || i == 2 || i == 3 || i == 4 || i == 5 || i == 6;
    }
    EachContentRead(es, cs, 0);
    assert es[0..] == es && cs[0..] == cs;
  }

  lemma {:induction false} KindsDiffer(domain: Bytes, key: Bytes)
    ensures NoKindTwice(SentExtensions(domain, key))
  {
  }

  // ----- The layers around them -----

  lemma {:induction false} SuitesRead(random: Bytes, session: Bytes, ciphers: Bytes, block: Bytes)
    requires PairList(ciphers) && |ciphers| < 65536 && |block| < 65536
    ensures ReadSuites(random, session, U16(|ciphers|) + ciphers + ([0x01, 0x00] + (U16(|block|) + block)))
      == Some(Parts(random, session, ciphers, [0], block))
  {
    var tail := U16(|block|) + block;
    Vec16Reads(ciphers, [0x01, 0x00] + tail);
    assert [0x01, 0x00] + tail == [1] + [0] + tail;
    Vec8Reads(1, [0], tail);
    Exactly16Reads(block);
  }

  lemma {:induction false} PartsRead(random: Bytes, session: Bytes, ciphers: Bytes, block: Bytes, n: Byte)
    requires |random| == 32 && n == |session| <= 32
    requires PairList(ciphers) && |ciphers| < 65536 && |block| < 65536
    ensures ReadParts([0x03, 0x03] + random + ([n] + session) + (U16(|ciphers|) + ciphers) + [0x01, 0x00] + (U16(|block|) + block))
      == Some(Parts(random, session, ciphers, [0], block))
  {
    var tail := U16(|ciphers|) + ciphers + ([0x01, 0x00] + (U16(|block|) + block));
    var s := [0x03, 0x03] + random + ([n] + session) + (U16(|ciphers|) + ciphers) + [0x01, 0x00] + (U16(|block|) + block);
    assert U16(0x0303) == [0x03, 0x03];
    assert s == U16(0x0303) + (random + ([n] + session + tail));
    U16Reads(0x0303, random + ([n] + session + tail));
    NReads(random, [n] + session + tail);
    Vec8Reads(n, session, tail);
    SuitesRead(random, session, ciphers, block);
  }

  lemma {:induction false} HelloReads(domain: Bytes, r: Randomness)
    requires 1 <= |domain| <= 65000 && Drawn(r)
    ensures ReadHello(Payload(domain, r)) == Some(Hello(r.hello, r.session, CIPHERS, [0], SentContents(domain, r.key)))
  {
    ExtensionSizes(domain, r.key);
    PartsRead(r.hello, r.session, CIPHERS, AllExtensions(domain, r.key), 32);
    ExtensionsRead(domain, r.key);
    KindsDiffer(domain, r.key);
    ContentsRead(domain, r.key);
  }

  lemma {:induction false} HandshakeReads(payload: Bytes)
    requires |payload| < 0x100_0000
    ensures ReadHandshake([0x01] + U24(|payload|) + payload) == ReadHello(payload)
  {
    var s := [0x01] + U24(|payload|) + payload;
    assert s[1..] == U24(|payload|) + payload;
    U24Reads(|payload|, payload);
  }

  /** A length that was wrapped leaves bytes over. */
  lemma {:induction false} WrappedLeavesRest(data: Bytes)
    requires |data| >= 65536
    ensures Exactly16(U16(|data|) + data) == None
  {
    var s, n := U16(|data|) + data, |data| % 65536;
    assert s[0] as int * 256 + s[1] == n;
    assert s[2..] == data;
  }

  /** The record layer accepts exactly fragments of at most 2^14 bytes; a wrapped length never passes. */
  lemma {:induction false} RecordReads(message: Bytes)
    ensures DecodeRecord([0x16, 0x03, 0x01] + U16(|message|) + message)
      == if |message| > 16384 then None else ReadHandshake(message)
  {
    var s := [0x16, 0x03, 0x01] + U16(|message|) + message;
    assert s[3..] == U16(|message|) + message;
    if |message| < 65536 { Exactly16Reads(message); } else { WrappedLeavesRest(message); }
  }

  /** The decoded packet names the domain. */
  ghost predicate NamesDomain(packet: Bytes, domain: Bytes) {
    var hello := DecodeRecord(packet);
    hello.Some? && ServerNames([domain]) in hello.value.contents
  }

  function SentHello(domain: Bytes, r: Randomness): Hello {
    Hello(r.hello, r.session, CIPHERS, [0], SentContents(domain, r.key))
  }

  lemma {:induction false} ShortMessageReads(domain: Bytes, r: Randomness)
    requires 1 <= |domain| <= 16157 && Drawn(r)
    ensures ReadHandshake(HandshakeMessage(domain, r)) == Some(SentHello(domain, r))
  {
    MessageSize(domain, r);
    HandshakeReads(Payload(domain, r));
    HelloReads(domain, r);
  }

  lemma {:induction false} PacketReads(domain: Bytes, r: Randomness)
    requires Drawn(r)
    ensures DecodeRecord(GenTls(domain, r)) == if |domain| > 16157 then None else ReadHandshake(HandshakeMessage(domain, r))
  {
    MessageSize(domain, r);
    RecordReads(HandshakeMessage(domain, r));
  }

  /**
   The generated ClientHello decodes, with every nested length exact, to what was put in,
   and names the domain, exactly when the domain is short enough for one record.
   */
  lemma {:induction false} ClientHelloDecodesIff(domain: Bytes, r: Randomness)
    requires domain != [] && Drawn(r)
    ensures NamesDomain(GenTls(domain, r), domain) <==> |domain| <= 16157
    ensures DecodeRecord(GenTls(domain, r)) == if |domain| <= 16157 then Some(SentHello(domain, r)) else None
  {
    PacketReads(domain, r);
    if |domain| <= 16157 {
      ShortMessageReads(domain, r);
      assert SentContents(domain, r.key)[0] == ServerNames([domain]);
    }
  }
}
