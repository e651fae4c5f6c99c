/** Bytes on the control connection: little-endian words and an abstract JSON codec. */
module Codecs {
  import opened States
  import opened Wrappers
  import opened Arithmetic
  import opened Words

  type byte = b: nat | b < 256

  const WORD: nat := 0x1_0000_0000

  function Pow256(n: nat): (p: nat)
    ensures p >= 1
  {
    if n == 0 then 1 else 256 * Pow256(n - 1)
  }

  /** The low `n` bytes of `v`, least significant first. */
  function ToLittleEndian(v: nat, n: nat): (b: seq<byte>)
    ensures |b| == n
  {
    if n == 0 then [] else [v % 256] + ToLittleEndian(v / 256, n - 1)
  }

  function FromLittleEndian(b: seq<byte>): nat {
    if b == [] then 0 else (b[0] as int) + 256 * FromLittleEndian(b[1..])
  }

  lemma ModuloSplits(v: nat, p: nat)
    requires p > 0
    ensures v % 256 + 256 * (v / 256 % p) == v % (256 * p)
  {
    var q := v / 256;
    var r := v % 256 + 256 * (q % p);
    assert v == 256 * p * (q / p) + r by {
      assert q == p * (q / p) + q % p;
    }
    assert 0 <= r < 256 * p by {
      assert q % p <= p - 1;
    }
    QuotientUnique(v, 256 * p, q / p, r);
  }

  /** A number survives the wire up to truncation to the bytes sent. */
  lemma {:induction false} LittleEndianRoundTrip(v: nat, n: nat)
    ensures FromLittleEndian(ToLittleEndian(v, n)) == v % Pow256(n)
  {
    if n > 0 {
      var p := Pow256(n - 1);
      LittleEndianRoundTrip(v / 256, n - 1);
      ModuloSplits(v, p);
    }
  }

  /** Different byte strings are different numbers. */
  lemma {:induction false} LittleEndianInverse(b: seq<byte>)
    ensures FromLittleEndian(b) < Pow256(|b|) && ToLittleEndian(FromLittleEndian(b), |b|) == b
  {
    if b != [] {
      LittleEndianInverse(b[1..]);
      QuotientUnique(FromLittleEndian(b), 256, FromLittleEndian(b[1..]), b[0]);
      assert b == [b[0]] + b[1..];
    }
  }

  /** `PutUint32` of `uint32(v)`. */
  function Le32(v: nat): (b: seq<byte>)
    ensures |b| == 4
  {
    ToLittleEndian(v, 4)
  }

  lemma WordRoundTrip(v: nat)
    ensures FromLittleEndian(Le32(v)) == v % WORD
  {
    LittleEndianRoundTrip(v, 4);
    assert Pow256(4) == WORD by {
      assert Pow256(2) == 65536;
    }
  }

  /** The JSON encoding is not modelled: any codec will do that brings back what is sent in a session. */
  datatype Codec = Codec(
    encodeParams: Params -> seq<byte>,
    decodeParams: seq<byte> -> Option<Params>,
    encodeResults: seq<uint64> -> seq<byte>,
    decodeResults: seq<byte> -> Option<seq<uint64>>
  ) {
    /** The parameters survive, fit the server's buffer, and no proper prefix of them decodes, as with a JSON object. */
    ghost predicate CarriesParams(p: Params) {
      var b := encodeParams(p);
      && decodeParams(b) == Some(p) && 0 < |b| <= PARAMS_BUFFER
      && forall k: nat :: k < |b| ==> decodeParams(b[..k]) == None
    }

    /** Results for `n` streams survive, and their length is a word of four bytes. */
    ghost predicate CarriesResults(n: nat) {
      forall r: seq<uint64> :: |r| == n ==> decodeResults(encodeResults(r)) == Some(r) && 0 < |encodeResults(r)| < WORD
    }
  }

  // ---------- such codecs exist ----------

  /** Eight bytes a count. */
  function Pack(r: seq<uint64>): (b: seq<byte>)
    ensures |b| == 8 * |r|
  {
    if r == [] then [] else ToLittleEndian(r[0], 8) + Pack(r[1..])
  }

  function Unpack(b: seq<byte>): seq<uint64>
    decreases |b|
  {
    if |b| < 8 then [] else [Wrap(FromLittleEndian(b[..8]))] + Unpack(b[8..])
  }

  lemma {:induction false} PackRoundTrip(r: seq<uint64>)
    ensures Unpack(Pack(r)) == r
  {
    if r != [] {
      var head, tail := ToLittleEndian(r[0], 8), Pack(r[1..]);
      assert Pack(r)[..8] == head && Pack(r)[8..] == tail;
      LittleEndianRoundTrip(r[0], 8);
      assert Pow256(8) == UINT64 by {
        assert Pow256(4) == 0x1_0000_0000;
      }
      WrapNothing(r[0]);
      PackRoundTrip(r[1..]);
      assert r == [r[0]] + r[1..];
    }
  }

  /** The conditions on a codec can be met, for any parameters and any number of streams whose results can fit. */
  lemma CodecsExist(p: Params, n: nat) returns (codec: Codec)
    requires 0 < n && 8 * n < WORD
    ensures codec.CarriesParams(p) && codec.CarriesResults(n)
  {
    codec := Codec(q => [0], b => if b == [0] then Some(p) else None, Pack, b => Some(Unpack(b)));
    forall r: seq<uint64> | |r| == n
      ensures codec.decodeResults(codec.encodeResults(r)) == Some(r) && 0 < |codec.encodeResults(r)| < WORD
    {
      PackRoundTrip(r);
    }
  }
}
