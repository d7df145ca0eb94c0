/**
 The DNS query that the mimicry profile sends, and an independent decoder
 (app/managers/awg_cps.py; section 4.1 of RFC 1035, section 6.1.2 of RFC 6891).
 A domain is its UTF-8 bytes.
 */
module DnsQuery {
  import opened Tables
  import opened Bytes
  import opened Blobs

  // ----- The generator -----

  const DOT: Byte := 46

  /** The labels between the dots. */
  function Labels(domain: Bytes): (labels: seq<Bytes>)
    ensures |labels| >= 1
  {
    if domain == [] then [[]]
    else
      var rest := Labels(domain[1..]);
      if domain[0] == DOT then [[]] + rest else [[domain[0]] + rest[0]] + rest[1..]
  }

  /** The labels put together with dots. */
  function Dotted(labels: seq<Bytes>): Bytes
    requires labels != []
  {
    if |labels| == 1 then labels[0] else labels[0] + [DOT] + Dotted(labels[1..])
  }

  lemma {:induction false} DottedLonger(b: Byte, labels: seq<Bytes>)
    requires labels != []
    ensures Dotted([[b] + labels[0]] + labels[1..]) == [b] + Dotted(labels)
  {
    var more := [[b] + labels[0]] + labels[1..];
    assert more[1..] == labels[1..];
  }

  /** The labels are the domain cut at its dots. */
  lemma {:induction false} LabelsAreDotted(domain: Bytes)
    ensures Dotted(Labels(domain)) == domain && forall i :: 0 <= i < |Labels(domain)| ==> DOT !in Labels(domain)[i]
  {
    if domain != [] {
      var rest := Labels(domain[1..]);
      LabelsAreDotted(domain[1..]);
      if domain[0] == DOT {
        assert ([[]] + rest)[1..] == rest;
        assert Dotted([[]] + rest) == [] + [DOT] + Dotted(rest);
      } else {
        DottedLonger(domain[0], rest);
      }
    }
  }

  function Clip(part: Bytes): (r: Bytes)
    ensures |r| <= 63
  {
    if |part| > 63 then part[..63] else part
  }

  function Label(part: Bytes): Bytes {
    [|Clip(part)|] + Clip(part)
  }

  function NameOf(labels: seq<Bytes>): Bytes {
    if labels == [] then [] else Label(labels[0]) + NameOf(labels[1..])
  }

  const FLAGS: Bytes := [0x01, 0x00]
  const COUNTS: Bytes := [0x00, 0x01, 0x00, 0x00, 0x00, 0x00, 0x00, 0x01]

  function OptRecord(udpSize: nat, doBit: nat): (r: Bytes)
    ensures |r| == 11
  {
    [0x00] + [0x00, 0x29] + U16(udpSize) + [0x00, 0x00] + U16(doBit) + [0x00, 0x00]
  }

  /** Everything after the transaction id. */
  function Query(domain: Bytes, udpSize: nat, doBit: nat): Bytes {
    FLAGS + COUNTS + (NameOf(Labels(domain)) + [0x00]) + [0x00, 0x01] + [0x00, 0x01] + OptRecord(udpSize, doBit)
  }

  lemma {:induction false} NameOfLast(labels: seq<Bytes>, part: Bytes)
    ensures NameOf(labels + [part]) == NameOf(labels) + Label(part)
  {
    if labels == [] {
      assert [part][1..] == [];
      assert labels + [part] == [part];
    } else {
      assert (labels + [part])[1..] == labels[1..] + [part];
      NameOfLast(labels[1..], part);
    }
  }

  method GenDns(domain: Bytes, udpSize: nat, doBit: nat) returns (query: Bytes)
    ensures query == Query(domain, udpSize, doBit)
  {
    var labels := Labels(domain);
    var name := [];
    for i := 0 to |labels|
      invariant name == NameOf(labels[..i])
    {
      var part := Clip(labels[i]);
      name := name + ([|part|] + part);
      NameOfLast(labels[..i], labels[i]);
      assert labels[..i + 1] == labels[..i] + [labels[i]];
    }
    assert labels[..|labels|] == labels;
    name := name + [0x00];
    query := FLAGS + COUNTS + name + [0x00, 0x01] + [0x00, 0x01] + OptRecord(udpSize, doBit);
  }

  // ----- The decoder -----

  datatype Message = Message(id: Bytes, labels: seq<Bytes>, qtype: nat, qclass: nat, udpSize: nat, flags: nat)

  /** Labels of 1 to 63 bytes up to the root; compression pointers do not occur in a question. */
  function ReadName(s: Bytes): (r: Option<Read<seq<Bytes>>>)
    ensures r.Some? ==> forall i :: 0 <= i < |r.value.value| ==> 1 <= |r.value.value[i]| <= 63
  {
    if s == [] then None
    else if s[0] == 0 then Some(Read([], s[1..]))
    else if s[0] > 63 || |s| < 1 + s[0] then None
    else
      var rest := ReadName(s[1 + s[0]..]);
      if rest.None? then None else Some(Read([s[1..1 + s[0]]] + rest.value.value, rest.value.rest))
  }

  function At16(s: Bytes, i: nat): nat
    requires i + 1 < |s|
  {
    s[i] as int * 256 + s[i + 1]
  }

  /** Type and class of the question, then one OPT record with no data, ending the message. */
  function ReadTail(id: Bytes, labels: seq<Bytes>, s: Bytes): Option<Message> {
    if |s| != 15 || s[4] != 0 || At16(s, 5) != 41 || At16(s, 13) != 0 then None
    else Some(Message(id, labels, At16(s, 0), At16(s, 2), At16(s, 7), At16(s, 11)))
  }

  /** The most that a name may occupy, its length bytes and the root included (section 2.3.4 of RFC 1035). */
  const MAX_NAME := 255

  /** A standard query with recursion desired, one question and one additional record. */
  function Decode(s: Bytes): Option<Message> {
    if |s| < 12 || At16(s, 2) != 0x0100 || At16(s, 4) != 1 || At16(s, 6) != 0 || At16(s, 8) != 0 || At16(s, 10) != 1
    then None
    else
      var name := ReadName(s[12..]);
      if name.None? || |s[12..]| - |name.value.rest| > MAX_NAME then None
      else ReadTail(s[..2], name.value.value, name.value.rest)
  }

  // ----- Decoding gives the labels back -----

  predicate Sendable(labels: seq<Bytes>) {
    forall i :: 0 <= i < |labels| ==> 1 <= |labels[i]| <= 63
  }

  /** A domain that can be asked for: labels of 1 to 63 bytes, and at most 253 bytes in all. */
  predicate Askable(domain: Bytes) {
    Sendable(Labels(domain)) && |domain| <= 253
  }

  /** The bytes of all labels and of the dots between them. */
  function LabelBytes(labels: seq<Bytes>): nat {
    if labels == [] then 0 else |labels[0]| + 1 + LabelBytes(labels[1..])
  }

  lemma {:induction false} LabelsFillDomain(domain: Bytes)
    ensures LabelBytes(Labels(domain)) == |domain| + 1
  {
    if domain == [] {
      assert Labels(domain)[1..] == [];
    } else {
      LabelsFillDomain(domain[1..]);
      var rest := Labels(domain[1..]);
      assert ([[]] + rest)[1..] == rest;
      assert ([[domain[0]] + rest[0]] + rest[1..])[1..] == rest[1..];
    }
  }

  lemma {:induction false} NameSize(labels: seq<Bytes>)
    requires Sendable(labels)
    ensures |NameOf(labels)| == LabelBytes(labels)
  {
    if labels != [] { NameSize(labels[1..]); }
  }

  lemma {:induction false} LabelReads(part: Bytes, rest: Bytes)
    requires 1 <= |part| <= 63
    ensures var s := Label(part) + rest;
      && s[0] == |part| && s[1..1 + |part|] == part && s[1 + |part|..] == rest
  {
  }

  lemma {:induction false} NextLabelReads(part: Bytes, tail: Bytes, labels: seq<Bytes>, rest: Bytes)
    requires 1 <= |part| <= 63 && ReadName(tail) == Some(Read(labels, rest))
    ensures ReadName(Label(part) + tail) == Some(Read([part] + labels, rest))
  {
    LabelReads(part, tail);
  }

  lemma {:induction false} Regroup(a: Bytes, b: Bytes, c: Bytes)
    ensures a + b + c == a + (b + c)
  {
  }

  lemma {:induction false} NameReads(labels: seq<Bytes>, rest: Bytes)
    requires Sendable(labels)
    ensures ReadName(NameOf(labels) + ([0x00] + rest)) == Some(Read(labels, rest))
  {
    if labels == [] {
      assert ([0x00] + rest)[1..] == rest;
      assert NameOf(labels) + ([0x00] + rest) == [0x00] + rest;
    } else {
      var tail := NameOf(labels[1..]) + ([0x00] + rest);
      NameReads(labels[1..], rest);
      NextLabelReads(labels[0], tail, labels[1..], rest);
      Regroup(Label(labels[0]), NameOf(labels[1..]), [0x00] + rest);
      assert [labels[0]] + labels[1..] == labels;
    }
  }

  function Tail(udpSize: nat, doBit: nat): Bytes {
    [0x00, 0x01] + [0x00, 0x01] + OptRecord(udpSize, doBit)
  }

  lemma {:induction false} TailReads(id: Bytes, labels: seq<Bytes>, udpSize: nat, doBit: nat)
    requires udpSize < 65536 && doBit < 65536
    ensures ReadTail(id, labels, Tail(udpSize, doBit)) == Some(Message(id, labels, 1, 1, udpSize, doBit))
  {
    var s := Tail(udpSize, doBit);
    assert s == [0x00, 0x01, 0x00, 0x01, 0x00, 0x00, 0x29] + U16(udpSize) + [0x00, 0x00] + U16(doBit) + [0x00, 0x00];
    assert s[7] == U16(udpSize)[0] && s[8] == U16(udpSize)[1];
    assert s[11] == U16(doBit)[0] && s[12] == U16(doBit)[1];
  }

  lemma {:induction false} HeaderReads(id: Bytes, domain: Bytes, udpSize: nat, doBit: nat)
    requires |id| == 2
    ensures var s := id + Query(domain, udpSize, doBit);
      && |s| >= 12 && At16(s, 2) == 0x0100 && At16(s, 4) == 1 && At16(s, 6) == 0 && At16(s, 8) == 0 && At16(s, 10) == 1
      && s[..2] == id
      && s[12..] == NameOf(Labels(domain)) + ([0x00] + Tail(udpSize, doBit))
  {
    var s := id + Query(domain, udpSize, doBit);
    var rest := NameOf(Labels(domain)) + ([0x00] + Tail(udpSize, doBit));
    QueryShape(domain, udpSize, doBit);
    assert s == id + (FLAGS + COUNTS) + rest;
    assert s[2] == FLAGS[0] && s[3] == FLAGS[1];
    assert forall i :: 0 <= i < 8 ==> s[4 + i] == COUNTS[i];
  }

  lemma {:induction false} QueryShape(domain: Bytes, udpSize: nat, doBit: nat)
    ensures Query(domain, udpSize, doBit) == FLAGS + COUNTS + (NameOf(Labels(domain)) + ([0x00] + Tail(udpSize, doBit)))
  {
  }

  ghost predicate AsksFor(packet: Bytes, labels: seq<Bytes>) {
    Decode(packet).Some? && Decode(packet).value.labels == labels
  }

  lemma {:induction false} NameTakes(domain: Bytes, rest: Bytes)
    requires Sendable(Labels(domain))
    ensures ReadName(NameOf(Labels(domain)) + ([0x00] + rest)) == Some(Read(Labels(domain), rest))
    ensures |NameOf(Labels(domain)) + ([0x00] + rest)| - |rest| == |domain| + 2
  {
    NameReads(Labels(domain), rest);
    NameSize(Labels(domain));
    LabelsFillDomain(domain);
  }

  /**
   The query decodes to the labels of the domain exactly when each label has 1 to 63 bytes and the domain
   at most 253.
   */
  lemma {:induction false} QueryDecodesIff(id: Bytes, domain: Bytes, udpSize: nat, doBit: nat)
    requires |id| == 2 && udpSize < 65536 && doBit < 65536
    ensures AsksFor(id + Query(domain, udpSize, doBit), Labels(domain)) <==> Askable(domain)
    ensures Askable(domain) ==>
      Decode(id + Query(domain, udpSize, doBit)) == Some(Message(id, Labels(domain), 1, 1, udpSize, doBit))
    ensures Dotted(Labels(domain)) == domain && forall i :: 0 <= i < |Labels(domain)| ==> DOT !in Labels(domain)[i]
  {
    LabelsAreDotted(domain);
    HeaderReads(id, domain, udpSize, doBit);
    if Sendable(Labels(domain)) {
      NameTakes(domain, Tail(udpSize, doBit));
      TailReads(id, Labels(domain), udpSize, doBit);
    }
  }

  /** The packet as it is configured: two random bytes, then the blob. */
  function DnsPacket(txid: Bytes, domain: Bytes, udpSize: nat, doBit: nat): string {
    RandomTag(2) + ToCps(txid + Query(domain, udpSize, doBit))
  }

  /** Sending replaces the transaction id only, so the server still reads the same question. */
  lemma {:induction false} SentQueryDecodes(txid: Bytes, domain: Bytes, udpSize: nat, doBit: nat, noise: Bytes)
    requires |txid| == 2 && udpSize < 65536 && doBit < 65536
    requires |DnsPacket(txid, domain, udpSize, doBit)| <= |noise|
    ensures ParseBlob(DnsPacket(txid, domain, udpSize, doBit), noise) == noise[..2] + Query(domain, udpSize, doBit)
    ensures AsksFor(ParseBlob(DnsPacket(txid, domain, udpSize, doBit), noise), Labels(domain)) <==> Askable(domain)
  {
    var raw := txid + Query(domain, udpSize, doBit);
    RandomBlobReads(2, raw, noise);
    assert raw[2..] == Query(domain, udpSize, doBit);
    QueryDecodesIff(noise[..2], domain, udpSize, doBit);
  }
}
