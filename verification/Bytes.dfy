/**
 Byte strings in network order: the writers that the packet generators use, and
 readers that take a prefix off the front of a message.
 */
module Bytes {
  import opened Tables

  type Byte = n: int | 0 <= n < 256
  type Bytes = seq<Byte>

  /** Two bytes, most significant first; the value is taken modulo 65536. */
  function U16(n: nat): (r: Bytes)
    ensures |r| == 2
  {
    [n / 256 % 256, n % 256]
  }

  /** The low three bytes. */
  function U24(n: nat): (r: Bytes)
    ensures |r| == 3
  {
    [n / 65536 % 256, n / 256 % 256, n % 256]
  }

  /** What is read, and what is left. */
  datatype Read<+T> = Read(value: T, rest: Bytes)

  function ReadByte(s: Bytes): Option<Read<nat>> {
    if |s| < 1 then None else Some(Read(s[0], s[1..]))
  }

  function ReadU16(s: Bytes): Option<Read<nat>> {
    if |s| < 2 then None else Some(Read(s[0] as int * 256 + s[1], s[2..]))
  }

  function ReadU24(s: Bytes): Option<Read<nat>> {
    if |s| < 3 then None else Some(Read(s[0] as int * 65536 + s[1] as int * 256 + s[2], s[3..]))
  }

  function ReadN(s: Bytes, n: nat): Option<Read<Bytes>> {
    if |s| < n then None else Some(Read(s[..n], s[n..]))
  }

  /** A byte string behind a one-byte length. */
  function ReadVec8(s: Bytes): Option<Read<Bytes>> {
    var n := ReadByte(s);
    if n.None? then None else ReadN(n.value.rest, n.value.value)
  }

  /** A byte string behind a two-byte length. */
  function ReadVec16(s: Bytes): Option<Read<Bytes>> {
    var n := ReadU16(s);
    if n.None? then None else ReadN(n.value.rest, n.value.value)
  }

  lemma {:induction false} U16Reads(n: nat, rest: Bytes)
    requires n < 65536
    ensures ReadU16(U16(n) + rest) == Some(Read(n, rest))
  {
    assert (U16(n) + rest)[2..] == rest;
  }

  lemma {:induction false} U24Reads(n: nat, rest: Bytes)
    requires n < 0x100_0000
    ensures ReadU24(U24(n) + rest) == Some(Read(n, rest))
  {
    assert (U24(n) + rest)[3..] == rest;
  }

  lemma {:induction false} NReads(data: Bytes, rest: Bytes)
    ensures ReadN(data + rest, |data|) == Some(Read(data, rest))
  {
    assert (data + rest)[..|data|] == data;
    assert (data + rest)[|data|..] == rest;
  }

  lemma {:induction false} Vec8Reads(n: Byte, data: Bytes, rest: Bytes)
    requires n == |data|
    ensures ReadVec8([n] + data + rest) == Some(Read(data, rest))
  {
    assert ([n] + data + rest)[1..] == data + rest;
    NReads(data, rest);
  }

  lemma {:induction false} Vec16Reads(data: Bytes, rest: Bytes)
    requires |data| < 65536
    ensures ReadVec16(U16(|data|) + data + rest) == Some(Read(data, rest))
  {
    assert U16(|data|) + data + rest == U16(|data|) + (data + rest);
    U16Reads(|data|, data + rest);
    NReads(data, rest);
  }
}
