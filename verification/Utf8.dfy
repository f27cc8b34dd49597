/**
 Which byte strings are text: the table of well-formed sequences in section 4 of RFC 3629, and the proof
 that it accepts exactly the encodings of sequences of Unicode scalar values (section 3 of RFC 3629).
 */
module Utf8 {
  import opened Bytes

  predicate Tail(b: byte) {
    0x80 <= b <= 0xbf
  }

  /** How many bytes the first character of `s` takes, or 0 if `s` does not start with one. */
  function FirstChar(s: bytes): (n: nat)
    ensures n <= |s|
  {
    if |s| == 0 then 0
    else if s[0] <= 0x7f then 1
    else if |s| < 2 || !Tail(s[1]) then 0
    else if 0xc2 <= s[0] <= 0xdf then 2
    else if |s| < 3 || !Tail(s[2]) then 0
    else if s[0] == 0xe0 then if 0xa0 <= s[1] then 3 else 0
    else if s[0] == 0xed then if s[1] <= 0x9f then 3 else 0
    else if 0xe1 <= s[0] <= 0xef then 3
    else if |s| < 4 || !Tail(s[3]) then 0
    else if s[0] == 0xf0 then if 0x90 <= s[1] then 4 else 0
    else if s[0] == 0xf4 then if s[1] <= 0x8f then 4 else 0
    else if 0xf1 <= s[0] <= 0xf3 then 4
    else 0
  }

  predicate Valid(s: bytes)
    decreases |s|
  {
    s == [] || (FirstChar(s) > 0 && Valid(s[FirstChar(s)..]))
  }

  // ---------------------------------------------------------------- scalar values

  /** Code points but the surrogates. */
  type Scalar = c: int | 0 <= c < 0x11_0000 && !(0xd800 <= c <= 0xdfff)

  /** Six bits to a continuation byte. */
  function Encode(c: Scalar): bytes {
    if c < 0x80 then [c]
    else if c < 0x800 then [0xc0 + c / 64, 0x80 + c % 64]
    else if c < 0x1_0000 then [0xe0 + c / 64 / 64, 0x80 + c / 64 % 64, 0x80 + c % 64]
    else [0xf0 + c / 64 / 64 / 64, 0x80 + c / 64 / 64 % 64, 0x80 + c / 64 % 64, 0x80 + c % 64]
  }

  function EncodeAll(cs: seq<Scalar>): bytes {
    if cs == [] then [] else Encode(cs[0]) + EncodeAll(cs[1..])
  }

  lemma Digits(q: nat, r: nat)
    requires r < 64
    ensures (q * 64 + r) / 64 == q && (q * 64 + r) % 64 == r
  {
  }

  /** An encoded scalar is read as one character, whatever follows. */
  lemma EncodedIsChar(c: Scalar, t: bytes)
    ensures FirstChar(Encode(c) + t) == |Encode(c)|
  {
    var s, e := Encode(c) + t, Encode(c);
    assert forall i :: 0 <= i < |e| ==> s[i] == e[i];
  }

  /** A character of the table encodes a scalar. */
  lemma CharIsEncoded(s: bytes) returns (c: Scalar)
    requires FirstChar(s) > 0
    ensures s[..FirstChar(s)] == Encode(c)
  {
    var n := FirstChar(s);
    if n == 1 {
      c := s[0];
    } else if n == 2 {
      c := Two(s[0], s[1]);
    } else if n == 3 {
      c := Three(s[0], s[1], s[2]);
    } else {
      c := Four(s[0], s[1], s[2], s[3]);
    }
  }

  lemma Two(b0: byte, b1: byte) returns (c: Scalar)
    requires 0xc2 <= b0 <= 0xdf && Tail(b1)
    ensures Encode(c) == [b0, b1]
  {
    var q: nat, r: nat := b0 as int - 0xc0, b1 as int - 0x80;
    Digits(q, r);
    c := q * 64 + r;
  }

  lemma Three(b0: byte, b1: byte, b2: byte) returns (c: Scalar)
    requires 0xe0 <= b0 <= 0xef && Tail(b1) && Tail(b2)
    requires b0 == 0xe0 ==> 0xa0 <= b1
    requires b0 == 0xed ==> b1 <= 0x9f
    ensures Encode(c) == [b0, b1, b2]
  {
    var q: nat, r: nat, t: nat := b0 as int - 0xe0, b1 as int - 0x80, b2 as int - 0x80;
    Digits(q, r);
    Digits(q * 64 + r, t);
    c := (q * 64 + r) * 64 + t;
  }

  lemma Four(b0: byte, b1: byte, b2: byte, b3: byte) returns (c: Scalar)
    requires 0xf0 <= b0 <= 0xf4 && Tail(b1) && Tail(b2) && Tail(b3)
    requires b0 == 0xf0 ==> 0x90 <= b1
    requires b0 == 0xf4 ==> b1 <= 0x8f
    ensures Encode(c) == [b0, b1, b2, b3]
  {
    var q: nat, r: nat, t: nat, u: nat := b0 as int - 0xf0, b1 as int - 0x80, b2 as int - 0x80, b3 as int - 0x80;
    Digits(q, r);
    Digits(q * 64 + r, t);
    Digits((q * 64 + r) * 64 + t, u);
    c := ((q * 64 + r) * 64 + t) * 64 + u;
  }

  lemma {:induction false} EncodedIsValid(cs: seq<Scalar>)
    ensures Valid(EncodeAll(cs))
  {
    if cs != [] {
      var rest := EncodeAll(cs[1..]);
      EncodedIsChar(cs[0], rest);
      assert (Encode(cs[0]) + rest)[|Encode(cs[0])|..] == rest;
      EncodedIsValid(cs[1..]);
    }
  }

  lemma {:induction false} ValidIsEncoded(s: bytes) returns (cs: seq<Scalar>)
    requires Valid(s)
    ensures EncodeAll(cs) == s
    decreases |s|
  {
    if s == [] {
      cs := [];
    } else {
      var n := FirstChar(s);
      var c := CharIsEncoded(s);
      var rest := ValidIsEncoded(s[n..]);
      cs := [c] + rest;
      assert s[..n] + s[n..] == s;
    }
  }

  /** A byte string is accepted if and only if it encodes some sequence of scalar values: overlong forms,
      surrogates, values past 0x10ffff and cut or stray bytes are not. */
  lemma ValidExactly(s: bytes)
    ensures Valid(s) <==> exists cs: seq<Scalar> :: EncodeAll(cs) == s
  {
    if Valid(s) {
      var cs := ValidIsEncoded(s);
    }
    forall cs: seq<Scalar> | EncodeAll(cs) == s
      ensures Valid(s)
    {
      EncodedIsValid(cs);
    }
  }
}
