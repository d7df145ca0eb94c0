/**
 The QUIC Initial packet that the mimicry profile sends, and an independent
 decoder (app/managers/awg_cps.py; sections 16 and 17.2.2 of RFC 9000).
 */
module QuicInitial {
  import opened Tables
  import opened Bytes

  const TARGET: int := 216

  /** The random parts of one packet; more bytes may be drawn than are used. */
  datatype Randomness = Randomness(first: Byte, dcid: Bytes, scid: Bytes, number: Bytes, payload: Bytes, padding: Bytes)

  function NumberLength(first: Byte): nat {
    first % 4 + 1
  }

  function PayloadLength(first: Byte): nat {
    var size := TARGET - 26 - NumberLength(first);
    if size < 1 then 1 else size
  }

  ghost predicate Drawn(r: Randomness) {
    && (r.first == 0xC0 || r.first == 0xC3)
    && |r.dcid| == 8 && |r.scid| == 8
    && |r.number| == NumberLength(r.first) && |r.payload| == PayloadLength(r.first) && |r.padding| >= TARGET
  }

  /** A two-byte variable-length integer: the prefix 01 is set by an or with 0x4000. */
  function TwoByteVarint(n: nat): Bytes
    requires n < 0x4000
  {
    U16(0x4000 + n)
  }

  function Assemble(r: Randomness): Bytes
    requires NumberLength(r.first) + PayloadLength(r.first) < 0x4000
  {
    [r.first] + [0x00, 0x00, 0x00, 0x01] + [8] + r.dcid + [8] + r.scid + [0x00]
      + TwoByteVarint(NumberLength(r.first) + PayloadLength(r.first)) + r.number + r.payload
  }

  function GenQuicInitial(r: Randomness): Bytes
    requires Drawn(r)
  {
    var packet := Assemble(r);
    if |packet| < TARGET then packet + r.padding[..TARGET - |packet|] else packet[..TARGET]
  }

  // ----- The decoder -----

  datatype Initial = Initial(dcid: Bytes, scid: Bytes, token: Bytes, number: Bytes, payload: Bytes)

  /** The two highest bits give the length: 1, 2, 4 or 8 bytes. */
  function ReadVarint(s: Bytes): Option<Read<nat>> {
    if s == [] then None
    else
      var n := if s[0] < 64 then 1 else if s[0] < 128 then 2 else if s[0] < 192 then 4 else 8;
      if |s| < n then None
      else Some(Read(BigEndian(s[1..n], s[0] % 64), s[n..]))
  }

  function BigEndian(s: Bytes, high: nat): nat
    decreases |s|
  {
    if s == [] then high else BigEndian(s[1..], high * 256 + s[0])
  }

  /** The length field counts the packet number and the payload, and here covers all that is left. */
  function ReadRest(first: Byte, dcid: Bytes, scid: Bytes, token: Bytes, s: Bytes): Option<Initial> {
    var length := ReadVarint(s);
    if length.None? || length.value.value != |length.value.rest| then None
    else
      var number := ReadN(length.value.rest, first % 4 + 1);
      if number.None? then None else Some(Initial(dcid, scid, token, number.value.value, number.value.rest))
  }

  function ReadToken(first: Byte, dcid: Bytes, scid: Bytes, s: Bytes): Option<Initial> {
    var length := ReadVarint(s);
    if length.None? then None
    else
      var token := ReadN(length.value.rest, length.value.value);
      if token.None? then None else ReadRest(first, dcid, scid, token.value.value, token.value.rest)
  }

  /** Long header, type Initial, version 1, connection ids of at most 20 bytes. */
  function Decode(s: Bytes): Option<Initial> {
    if |s| < 5 || s[0] / 16 != 0xC || s[1..5] != [0, 0, 0, 1] then None
    else
      var dcid := ReadVec8(s[5..]);
      if dcid.None? || |dcid.value.value| > 20 then None
      else
        var scid := ReadVec8(dcid.value.rest);
        if scid.None? || |scid.value.value| > 20 then None
        else ReadToken(s[0], dcid.value.value, scid.value.value, scid.value.rest)
  }

  // ----- Properties -----

  lemma {:induction false} VarintReads(n: nat, rest: Bytes)
    requires n < 0x4000
    ensures ReadVarint(TwoByteVarint(n) + rest) == Some(Read(n, rest))
  {
    var s := TwoByteVarint(n) + rest;
    assert s[0] == 64 + n / 256 && s[1] == n % 256;
    assert s[1..2] == [s[1]];
    assert s[1..2][1..] == [];
    assert BigEndian(s[1..2], s[0] % 64) == n;
    assert s[2..] == rest;
  }

  lemma {:induction false} ZeroReads(rest: Bytes)
    ensures ReadVarint([0x00] + rest) == Some(Read(0, rest))
  {
    var s := [0x00] + rest;
    assert s[0] == 0 && s[1..1] == [] && s[1..] == rest;
  }

  lemma {:induction false} EmptyTokenReads(first: Byte, dcid: Bytes, scid: Bytes, rest: Bytes)
    ensures ReadToken(first, dcid, scid, [0x00] + rest) == ReadRest(first, dcid, scid, [], rest)
  {
    ZeroReads(rest);
    NReads([], rest);
    assert [] + rest == rest;
  }

  lemma {:induction false} RestReads(first: Byte, dcid: Bytes, scid: Bytes, number: Bytes, payload: Bytes)
    requires |number| == first % 4 + 1 && |number| + |payload| < 0x4000
    ensures ReadRest(first, dcid, scid, [], TwoByteVarint(|number| + |payload|) + (number + payload))
      == Some(Initial(dcid, scid, [], number, payload))
  {
    VarintReads(|number| + |payload|, number + payload);
    NReads(number, payload);
  }

  lemma {:induction false} HeadReads(first: Byte, dcid: Bytes, scid: Bytes, rest: Bytes, s: Bytes)
    requires first / 16 == 0xC && |dcid| == 8 && |scid| == 8
    requires s == [first] + [0x00, 0x00, 0x00, 0x01] + ([8] + dcid + ([8] + scid + rest))
    ensures Decode(s) == ReadToken(first, dcid, scid, rest)
  {
    assert s[0] == first && s[1..5] == [0x00, 0x00, 0x00, 0x01];
    assert s[5..] == [8] + dcid + ([8] + scid + rest);
    Vec8Reads(8, dcid, [8] + scid + rest);
    Vec8Reads(8, scid, rest);
  }

  lemma {:induction false} AssembledSize(r: Randomness)
    requires Drawn(r)
    ensures |Assemble(r)| == TARGET
  {
  }

  lemma {:induction false} AssembledShape(r: Randomness)
    requires Drawn(r)
    ensures Assemble(r) == [r.first] + [0x00, 0x00, 0x00, 0x01] + ([8] + r.dcid + ([8] + r.scid
      + ([0x00] + (TwoByteVarint(|r.number| + |r.payload|) + (r.number + r.payload)))))
  {
  }

  /**
   Every generated packet has 216 bytes, no padding or cut was needed, and it decodes to exactly the
   drawn parts: the length field covers the remainder of the packet.
   */
  lemma {:induction false} InitialDecodes(r: Randomness)
    requires Drawn(r)
    ensures |GenQuicInitial(r)| == 216
    ensures Decode(GenQuicInitial(r)) == Some(Initial(r.dcid, r.scid, [], r.number, r.payload))
  {
    AssembledSize(r);
    var packet := Assemble(r);
    assert packet[..TARGET] == packet;
    AssembledShape(r);
    var rest := TwoByteVarint(|r.number| + |r.payload|) + (r.number + r.payload);
    HeadReads(r.first, r.dcid, r.scid, [0x00] + rest, packet);
    EmptyTokenReads(r.first, r.dcid, r.scid, rest);
    RestReads(r.first, r.dcid, r.scid, r.number, r.payload);
  }
}
