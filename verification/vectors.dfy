/** Vectors of reals as the optimizer uses them: elementwise sum and
    difference (numpy's `u + v`, `u - v`), Python's `sum`, the one-hot
    offset of the finite-difference routine and its right rotation. */
module Vectors {

  /** Elementwise `u + v` of two vectors of the same length. */
  function Add(u: seq<real>, v: seq<real>): seq<real>
    requires |u| == |v|
  {
    seq(|u|, i requires 0 <= i < |u| => u[i] + v[i])
  }

  /** Elementwise `u - v` of two vectors of the same length. */
  function Sub(u: seq<real>, v: seq<real>): seq<real>
    requires |u| == |v|
  {
    seq(|u|, i requires 0 <= i < |u| => u[i] - v[i])
  }

  /** Python's `sum`: the sum of the entries, 0 for the empty vector. */
  function Sum(s: seq<real>): real
  {
    if s == [] then 0.0 else s[0] + Sum(s[1..])
  }

  /** The vector of length n that is 0 everywhere. */
  function Zeros(n: nat): seq<real>
  {
    seq(n, _ => 0.0)
  }

  /** The vector of length n whose only nonzero entry is h, at index k. */
  function OneHot(n: nat, k: nat, h: real): seq<real>
  {
    seq(n, i => if i == k then h else 0.0)
  }

  /** `s[len-1:len] + s[0:len-1]`: the last entry moves to the front. */
  function RotatedRight(s: seq<real>): (r: seq<real>)
    requires |s| > 0
  {
    s[|s| - 1..] + s[..|s| - 1]
  }

  lemma {:induction false} SumZeros(n: nat)
    ensures Sum(Zeros(n)) == 0.0
  {
    if n > 0 {
      assert Zeros(n)[1..] == Zeros(n - 1);
      SumZeros(n - 1);
    }
  }

  /** A one-hot vector sums to its one nonzero entry, wherever it sits. */
  lemma {:induction false} SumOneHot(n: nat, k: nat, h: real)
    requires k < n
    ensures Sum(OneHot(n, k, h)) == h
  {
    var s := OneHot(n, k, h);
    if k == 0 {
      assert s[1..] == Zeros(n - 1);
      SumZeros(n - 1);
    } else {
      assert s[1..] == OneHot(n - 1, k - 1, h);
      SumOneHot(n - 1, k - 1, h);
    }
  }

  /** Rotating a one-hot vector right moves its nonzero entry one index up,
      wrapping from the last index to the first. */
  lemma RotateOneHot(n: nat, k: nat, h: real)
    requires k < n
    ensures RotatedRight(OneHot(n, k, h)) == OneHot(n, (k + 1) % n, h)
  {
    var s := OneHot(n, k, h);
    var r := RotatedRight(s);
    var k' := if k + 1 < n then k + 1 else 0;
    assert (k + 1) % n == k';
    var t := OneHot(n, k', h);
    assert |r| == n;
    assert r[0] == s[n - 1];
    assert r[0] == t[0];
    forall i | 1 <= i < n
      ensures r[i] == t[i]
    {
      assert r[i] == s[i - 1];
    }
    assert r == t;
  }

  /** `a[:] = RotatedRight(a)`: the array is overwritten with its rotation. */
  method RotateRight(a: array<real>)
    requires a.Length > 0
    modifies a
    ensures a[..] == RotatedRight(old(a[..]))
  {
    var rotated := a[a.Length - 1..] + a[..a.Length - 1];
    forall i | 0 <= i < a.Length {
      a[i] := rotated[i];
    }
  }
}
