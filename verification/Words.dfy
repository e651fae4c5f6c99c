/** Unsigned 64-bit words, as Go's `uint` and `uint64` hold them. */
module Words {
  import opened Arithmetic

  const UINT64: nat := 0x1_0000_0000_0000_0000

  type uint64 = x: nat | x < UINT64

  /** Arithmetic on words wraps around. */
  function Wrap(x: int): uint64 { x % UINT64 }

  function Plus(a: uint64, b: uint64): uint64 { if a + b < UINT64 then a + b else a + b - UINT64 }

  function Minus(a: uint64, b: uint64): uint64 { if a >= b then a - b else a - b + UINT64 }

  /** Sum and difference wrap, and undo each other. */
  lemma PlusMinus(a: uint64, b: uint64)
    ensures Plus(a, b) == Wrap(a + b) && Minus(a, b) == Wrap(a - b)
    ensures Plus(b, Minus(a, b)) == a
  {
    QuotientUnique(a + b, UINT64, if a + b < UINT64 then 0 else 1, Plus(a, b));
    QuotientUnique(a - b, UINT64, if a >= b then 0 else -1, Minus(a, b));
  }

  lemma WrapAdds(a: int, b: int)
    ensures (a % UINT64 + b) % UINT64 == (a + b) % UINT64
  {
    var q := a / UINT64;
    assert a == UINT64 * q + a % UINT64;
    var s := a % UINT64 + b;
    assert s == UINT64 * (s / UINT64) + s % UINT64;
    assert a + b == UINT64 * (q + s / UINT64) + s % UINT64;
    QuotientUnique(a + b, UINT64, q + s / UINT64, s % UINT64);
  }

  lemma WrapNothing(x: int)
    requires 0 <= x < UINT64
    ensures Wrap(x) == x
  {
    QuotientUnique(x, UINT64, 0, x);
  }

  /** The words of a list of counts. */
  function Low(v: seq<nat>): (w: seq<uint64>)
    ensures |w| == |v|
  {
    seq(|v|, i requires 0 <= i < |v| => Wrap(v[i]))
  }

  /** Counts that fit a word are their own words. */
  lemma LowIsExact(v: seq<nat>)
    ensures Low(v) == v <==> forall i :: 0 <= i < |v| ==> v[i] < UINT64
  {
    forall i | 0 <= i < |v| && v[i] < UINT64 ensures Low(v)[i] == v[i] {
      WrapNothing(v[i]);
    }
    forall i | 0 <= i < |v| && v[i] >= UINT64 ensures Low(v)[i] != v[i] {
      assert Low(v)[i] < UINT64;
    }
  }

  lemma LowTwice(v: seq<nat>)
    ensures Low(Low(v)) == Low(v)
  {
    LowIsExact(Low(v));
  }
}
