/** Sums of products of two stretches of flat arrays, over the reals. */
module Sums {

  /** `x[a] * y[b] + x[a + 1] * y[b + 1] + …`, `n` products. */
  function DotAt(x: seq<real>, a: nat, y: seq<real>, b: nat, n: nat): real
    requires a + n <= |x| && b + n <= |y|
  {
    if n == 0 then 0.0 else DotAt(x, a, y, b, n - 1) + x[a + n - 1] * y[b + n - 1]
  }

  function Added(x: seq<real>, y: seq<real>): (r: seq<real>)
    requires |x| == |y|
    ensures |r| == |x|
  {
    seq(|x|, i requires 0 <= i < |x| => x[i] + y[i])
  }

  function Times(c: real, x: seq<real>): (r: seq<real>)
    ensures |r| == |x|
  {
    seq(|x|, i requires 0 <= i < |x| => c * x[i])
  }

  /** Where `y` is one at `d` and zero elsewhere, the sum is the number across from it. So the sum is
      additive and homogeneous in either stretch and picks its components: it is the dot product. */
  lemma {:induction false} DotWithUnit(x: seq<real>, a: nat, y: seq<real>, b: nat, n: nat, d: nat)
    requires a + n <= |x| && b + n <= |y|
    requires forall j :: b <= j < b + n ==> y[j] == if j == b + d then 1.0 else 0.0
    ensures DotAt(x, a, y, b, n) == if d < n then x[a + d] else 0.0
  {
    if n > 0 {
      assert y[b + n - 1] == if n - 1 == d then 1.0 else 0.0;
      DotWithUnit(x, a, y, b, n - 1, d);
    }
  }

  lemma {:induction false} DotAdds(x: seq<real>, a: nat, y: seq<real>, z: seq<real>, b: nat, n: nat)
    requires a + n <= |x| && b + n <= |y| == |z|
    ensures DotAt(x, a, Added(y, z), b, n) == DotAt(x, a, y, b, n) + DotAt(x, a, z, b, n)
  {
    if n > 0 {
      DotAdds(x, a, y, z, b, n - 1);
      Distributes(x[a + n - 1], y[b + n - 1], z[b + n - 1]);
    }
  }

  lemma Distributes(x: real, y: real, z: real)
    ensures x * (y + z) == x * y + x * z
  {
  }

  lemma {:induction false} DotScales(x: seq<real>, a: nat, c: real, y: seq<real>, b: nat, n: nat)
    requires a + n <= |x| && b + n <= |y|
    ensures DotAt(x, a, Times(c, y), b, n) == c * DotAt(x, a, y, b, n)
  {
    if n > 0 {
      DotScales(x, a, c, y, b, n - 1);
      Reorders(c, x[a + n - 1], y[b + n - 1], DotAt(x, a, y, b, n - 1));
    }
  }

  lemma Reorders(c: real, x: real, y: real, sum: real)
    ensures c * sum + x * (c * y) == c * (sum + x * y)
  {
    assert x * (c * y) == c * (x * y);
  }

  lemma {:induction false} DotCommutes(x: seq<real>, a: nat, y: seq<real>, b: nat, n: nat)
    requires a + n <= |x| && b + n <= |y|
    ensures DotAt(x, a, y, b, n) == DotAt(y, b, x, a, n)
  {
    if n > 0 {
      DotCommutes(x, a, y, b, n - 1);
    }
  }
}
