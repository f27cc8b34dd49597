/** Bytes, chunk lists and the big-endian length fields every wire format here uses. */
module Bytes {

  type byte = b: int | 0 <= b < 256 witness 0

  type bytes = seq<byte>

  function Min(a: nat, b: nat): nat {
    if a <= b then a else b
  }

  /** The bytes a queue of chunks stands for. */
  function Flatten(chunks: seq<bytes>): bytes {
    if chunks == [] then [] else chunks[0] + Flatten(chunks[1..])
  }

  lemma Assoc(a: bytes, b: bytes, c: bytes)
    ensures (a + b) + c == a + (b + c)
  {
  }

  lemma {:induction false} FlattenAppend(a: seq<bytes>, b: seq<bytes>)
    ensures Flatten(a + b) == Flatten(a) + Flatten(b)
  {
    if a == [] {
      assert a + b == b;
    } else {
      assert (a + b)[1..] == a[1..] + b;
      FlattenAppend(a[1..], b);
    }
  }

  lemma FlattenSnoc(a: seq<bytes>, c: bytes)
    ensures Flatten(a + [c]) == Flatten(a) + c
  {
    FlattenAppend(a, [c]);
    assert Flatten([c]) == c + Flatten([]) == c;
  }

  lemma {:induction false} FlattenBound(chunks: seq<bytes>, most: nat)
    requires forall i :: 0 <= i < |chunks| ==> |chunks[i]| <= most
    ensures |Flatten(chunks)| <= |chunks| * most
  {
    if chunks != [] {
      FlattenBound(chunks[1..], most);
    }
  }

  /** Big-endian fields of one to three bytes. */
  function U8(n: nat): (w: bytes)
    requires n < 0x100
  {
    [n]
  }

  function U16(n: nat): (w: bytes)
    requires n < 0x1_0000
  {
    [n / 256, n % 256]
  }

  function U24(n: nat): (w: bytes)
    requires n < 0x100_0000
  {
    [n / 256 / 256, n / 256 % 256, n % 256]
  }

  function FromU16(hi: byte, lo: byte): (n: nat)
    ensures n < 0x1_0000
  {
    hi * 256 + lo
  }

  function FromU24(a: byte, b: byte, c: byte): (n: nat)
    ensures n < 0x100_0000
  {
    (a * 256 + b) * 256 + c
  }

  lemma U16Inverse(n: nat)
    requires n < 0x1_0000
    ensures FromU16(U16(n)[0], U16(n)[1]) == n
  {
  }

  lemma U24Inverse(n: nat)
    requires n < 0x100_0000
    ensures FromU24(U24(n)[0], U24(n)[1], U24(n)[2]) == n
  {
  }

  lemma U16OfBytes(hi: byte, lo: byte)
    ensures U16(FromU16(hi, lo)) == [hi, lo]
  {
  }

  lemma U24OfBytes(a: byte, b: byte, c: byte)
    ensures U24(FromU24(a, b, c)) == [a, b, c]
  {
    assert FromU24(a, b, c) / 256 == a * 256 + b;
  }

  /** The high byte comes first. */
  lemma ByteOrder()
    ensures U8(0x12) == [0x12] && U16(0x1234) == [0x12, 0x34] && U24(0x12_3456) == [0x12, 0x34, 0x56]
    ensures FromU16(0x12, 0x34) == 0x1234 && FromU24(0x12, 0x34, 0x56) == 0x12_3456
  {
  }
}
