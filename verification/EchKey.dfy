/**
 The ECH key file of `src/ech.rs`: config id (1 byte), name length (2 bytes, big-endian), public name,
 X25519 private key (32 bytes). Reading undoes writing, and the files that can be read are exactly the
 files that can be written.
 */
module EchKey {
  import opened Bytes
  import Utf8
  import opened Wrappers

  const X25519_PRIVATE_KEY_LEN: nat := 32

  datatype Fields = Fields(configId: byte, publicName: bytes, privateKey: bytes)

  /** `EchServerKey`: the name is a string, the key an array of 32 bytes. */
  type ServerKey = k: Fields | Utf8.Valid(k.publicName) && |k.privateKey| == X25519_PRIVATE_KEY_LEN
    witness Fields(0, [], seq(X25519_PRIVATE_KEY_LEN, i => 0))

  datatype WriteError = NameTooLong
  datatype ReadError = TooShort(got: nat) | LengthMismatch(got: nat, expected: nat, nlen: nat) | NameNotUtf8

  /** A key that has a file: the name fits its length field. */
  predicate Storable(k: ServerKey) {
    |k.publicName| < 0x1_0000
  }

  function FileOf(k: ServerKey): bytes
    requires Storable(k)
  {
    [k.configId] + U16(|k.publicName|) + k.publicName + k.privateKey
  }

  /** The bytes `write_to` puts in the file. */
  method WriteTo(k: ServerKey) returns (r: Result<bytes, WriteError>)
    ensures r == if Storable(k) then Ok(FileOf(k)) else Err(NameTooLong)
  {
    var pn := k.publicName;
    if |pn| > 0xffff {
      return Err(NameTooLong);
    }
    var buf: bytes := [];
    buf := buf + [k.configId];
    buf := buf + U16(|pn|);
    buf := buf + pn;
    buf := buf + k.privateKey;
    assert [] + [k.configId] == [k.configId];
    r := Ok(buf);
  }

  /** The name length a file claims. */
  function ClaimedLength(buf: bytes): nat
    requires |buf| >= 3
  {
    FromU16(buf[1], buf[2])
  }

  /** `read_from` on the bytes of the file. */
  method ReadFrom(buf: bytes) returns (r: Result<ServerKey, ReadError>)
    ensures r == ReadBack(buf)
  {
    if |buf| < 3 {
      return Err(TooShort(|buf|));
    }
    var configId := buf[0];
    var nlen := FromU16(buf[1], buf[2]);
    var expected := 1 + 2 + nlen + X25519_PRIVATE_KEY_LEN;
    if |buf| != expected {
      return Err(LengthMismatch(|buf|, expected, nlen));
    }
    var publicName := buf[3..3 + nlen];
    if !Utf8.Valid(publicName) {
      return Err(NameNotUtf8);
    }
    var privateKey := buf[3 + nlen..];
    assert |privateKey| == X25519_PRIVATE_KEY_LEN;
    var key: ServerKey := Fields(configId, publicName, privateKey);
    r := Ok(key);
  }

  function ReadBack(buf: bytes): Result<ServerKey, ReadError> {
    if |buf| < 3 then Err(TooShort(|buf|))
    else
      var nlen := ClaimedLength(buf);
      if |buf| != 35 + nlen then Err(LengthMismatch(|buf|, 35 + nlen, nlen))
      else
        var publicName, privateKey := buf[3..3 + nlen], buf[3 + nlen..];
        if !Utf8.Valid(publicName) then Err(NameNotUtf8)
        else
          var key: ServerKey := Fields(buf[0], publicName, privateKey);
          Ok(key)
  }

  /** Reading undoes writing, for every key that can be written. */
  lemma ReadUndoesWrite(k: ServerKey)
    requires Storable(k)
    ensures ReadBack(FileOf(k)) == Ok(k)
  {
    var buf, n := FileOf(k), |k.publicName|;
    U16Inverse(n);
    assert [buf[1], buf[2]] == U16(n);
    assert ClaimedLength(buf) == n;
    assert buf[3..3 + n] == k.publicName && buf[3 + n..] == k.privateKey;
  }

  /** Writing undoes reading: an accepted file is byte for byte the file of the key it holds. */
  lemma WriteUndoesRead(buf: bytes)
    requires ReadBack(buf).Ok?
    ensures Storable(ReadBack(buf).value) && FileOf(ReadBack(buf).value) == buf
  {
    var n := ClaimedLength(buf);
    U16OfBytes(buf[1], buf[2]);
    assert buf == [buf[0]] + [buf[1], buf[2]] + buf[3..3 + n] + buf[3 + n..];
  }

  /** The files that are read are exactly the files some key is written to, and no two keys share one. */
  lemma AcceptedFiles(buf: bytes)
    ensures ReadBack(buf).Ok? <==> exists k: ServerKey :: Storable(k) && FileOf(k) == buf
  {
    if ReadBack(buf).Ok? {
      WriteUndoesRead(buf);
    } else {
      forall k: ServerKey | Storable(k) ensures FileOf(k) != buf {
        ReadUndoesWrite(k);
      }
    }
  }

  lemma OneFilePerKey(a: ServerKey, b: ServerKey)
    requires Storable(a) && Storable(b) && FileOf(a) == FileOf(b)
    ensures a == b
  {
    ReadUndoesWrite(a);
    ReadUndoesWrite(b);
  }

  /** A file cut short or run long is refused, whatever its content: no accepted file starts another. */
  lemma NoTruncatedFile(buf: bytes, more: bytes)
    requires ReadBack(buf).Ok? && more != []
    ensures ReadBack(buf + more) == Err(LengthMismatch(|buf| + |more|, |buf|, ClaimedLength(buf)))
  {
    assert (buf + more)[1] == buf[1] && (buf + more)[2] == buf[2];
  }

  /** The layout, byte by byte: id, high and low byte of the name length, name, private key. */
  lemma FileLayout(k: ServerKey)
    requires Storable(k)
    ensures var f, n := FileOf(k), |k.publicName|;
            && |f| == 1 + 2 + n + 32
            && f[0] == k.configId && f[1] as int * 256 + f[2] as int == n
            && f[3..3 + n] == k.publicName && f[3 + n..] == k.privateKey
  {
    var f, n := FileOf(k), |k.publicName|;
    assert f[1] == U16(n)[0] && f[2] == U16(n)[1];
    U16Inverse(n);
  }

  /** What is accepted, from the bytes alone: the length adds up and the name is the encoding of some text. */
  lemma AcceptedExactly(buf: bytes)
    ensures ReadBack(buf).Ok? <==>
              |buf| >= 3 && |buf| == 1 + 2 + (buf[1] as int * 256 + buf[2] as int) + 32 &&
              exists cs: seq<Utf8.Scalar> :: Utf8.EncodeAll(cs) == buf[3..|buf| - 32]
  {
    if |buf| >= 3 && |buf| == 35 + ClaimedLength(buf) {
      Utf8.ValidExactly(buf[3..3 + ClaimedLength(buf)]);
    }
  }

  /** A refused file is refused for the first thing wrong with it, with the lengths involved. */
  lemma RefusalSaysWhy(buf: bytes)
    ensures ReadBack(buf) == Err(TooShort(|buf|)) <==> |buf| < 3
    ensures |buf| >= 3 ==>
              var nlen := buf[1] as int * 256 + buf[2] as int;
              (ReadBack(buf) == Err(LengthMismatch(|buf|, 35 + nlen, nlen)) <==> |buf| != 35 + nlen)
    ensures ReadBack(buf) == Err(NameNotUtf8) <==>
              |buf| >= 35 && |buf| == 35 + buf[1] as int * 256 + buf[2] as int &&
              forall cs: seq<Utf8.Scalar> :: Utf8.EncodeAll(cs) != buf[3..|buf| - 32]
  {
    AcceptedExactly(buf);
  }

  // ---------------------------------------------------------------- the config list

  datatype MarshalError = ConfigTooLarge

  /** The list `marshal_config_list` wraps one marshalled config in. */
  method MarshalConfigList(config: bytes) returns (r: Result<bytes, MarshalError>)
    ensures r.Ok? <==> |config| < 0x1_0000
    ensures r.Ok? ==> |r.value| == 2 + |config| && FromU16(r.value[0], r.value[1]) == |config| && r.value[2..] == config
  {
    if |config| > 0xffff {
      return Err(ConfigTooLarge);
    }
    var prefix := U16(|config|);
    U16Inverse(|config|);
    var out := prefix + config;
    assert out[0] == prefix[0] && out[1] == prefix[1];
    r := Ok(out);
  }
}
