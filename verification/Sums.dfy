/** Sums of a measure over a sequence. */
module Sums {
  function TotalUpTo<T>(s: seq<T>, f: T -> nat, k: nat): nat
    requires k <= |s|
  {
    if k == 0 then 0 else TotalUpTo(s, f, k - 1) + f(s[k - 1])
  }

  function Total<T>(s: seq<T>, f: T -> nat): nat { TotalUpTo(s, f, |s|) }

  lemma {:induction false} TotalUpToSame<T>(s: seq<T>, r: seq<T>, f: T -> nat, k: nat)
    requires k <= |s| && k <= |r| && forall i :: 0 <= i < k ==> f(s[i]) == f(r[i])
    ensures TotalUpTo(s, f, k) == TotalUpTo(r, f, k)
  {
    if k > 0 {
      TotalUpToSame(s, r, f, k - 1);
    }
  }

  lemma {:induction false} TotalUpToUpdate<T>(s: seq<T>, i: nat, x: T, f: T -> nat, k: nat)
    requires i < k <= |s|
    ensures TotalUpTo(s[i := x], f, k) + f(s[i]) == TotalUpTo(s, f, k) + f(x)
  {
    if i == k - 1 {
      TotalUpToSame(s, s[i := x], f, i);
    } else {
      TotalUpToUpdate(s, i, x, f, k - 1);
    }
  }

  /** Changing one element changes the total by the difference. */
  lemma TotalUpdate<T>(s: seq<T>, i: nat, x: T, f: T -> nat)
    requires i < |s|
    ensures Total(s[i := x], f) + f(s[i]) == Total(s, f) + f(x)
  {
    TotalUpToUpdate(s, i, x, f, |s|);
  }

  lemma TotalAppend<T>(s: seq<T>, x: T, f: T -> nat)
    ensures Total(s + [x], f) == Total(s, f) + f(x)
  {
    TotalUpToSame(s, s + [x], f, |s|);
  }

  lemma {:induction false} TotalUpToAtMost<T>(s: seq<T>, f: T -> nat, b: nat, k: nat)
    requires k <= |s| && forall i :: 0 <= i < k ==> f(s[i]) <= b
    ensures TotalUpTo(s, f, k) <= b * k
  {
    if k > 0 {
      TotalUpToAtMost(s, f, b, k - 1);
      assert b * k == b * (k - 1) + b;
    }
  }

  lemma {:induction false} TotalUpToZero<T>(s: seq<T>, f: T -> nat, k: nat)
    requires k <= |s|
    ensures TotalUpTo(s, f, k) == 0 <==> forall i :: 0 <= i < k ==> f(s[i]) == 0
  {
    if k > 0 {
      TotalUpToZero(s, f, k - 1);
    }
  }

  predicate AllZero(v: seq<nat>) { forall i :: 0 <= i < |v| ==> v[i] == 0 }

  function Sum(v: seq<nat>): nat { if v == [] then 0 else Sum(v[..|v| - 1]) + v[|v| - 1] }

  lemma SumAppend(v: seq<nat>, x: nat)
    ensures Sum(v + [x]) == Sum(v) + x
  {
    assert (v + [x])[..|v|] == v;
  }
}
