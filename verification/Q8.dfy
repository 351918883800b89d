/** Q8_0: rows of numbers in blocks of 32, each a scale and 32 integers of one byte. Over the reals,
    but for the scale, which is rounded when it is stored. */
module Q8 {

  const QK: nat := 32

  datatype Block = Block(d: real, qs: seq<int>)

  function Abs(x: real): real {
    if x < 0.0 then -x else x
  }

  /** The greatest magnitude. */
  function Amax(xs: seq<real>): (m: real)
    ensures m >= 0.0
    ensures forall i :: 0 <= i < |xs| ==> Abs(xs[i]) <= m
    ensures m == 0.0 || exists i :: 0 <= i < |xs| && Abs(xs[i]) == m
  {
    if xs == [] then 0.0
    else
      var m := Amax(xs[..|xs| - 1]);
      if Abs(xs[|xs| - 1]) > m then Abs(xs[|xs| - 1]) else m
  }

  /** To the nearest integer, halves away from zero. */
  function Round(x: real): int {
    if x >= 0.0 then (x + 0.5).Floor else -((-x + 0.5).Floor)
  }

  function Clamp(q: int): int {
    if q < -127 then -127 else if q > 127 then 127 else q
  }

  function Inverse(d: real): real {
    if d != 0.0 then 1.0 / d else 0.0
  }

  /** A value in units of the scale. */
  function InScales(v: real, d: real): real {
    v * Inverse(d)
  }

  function Quant(v: real, d: real): int {
    Clamp(Round(InScales(v, d)))
  }

  /** The scale before it is stored. */
  function Scale(block: seq<real>): real {
    Amax(block) / 127.0
  }

  /** `half` is the rounding to the stored precision; the integers are relative to the unrounded scale. */
  function Quantised(half: real -> real, block: seq<real>): Block {
    Block(half(Scale(block)), seq(|block|, j requires 0 <= j < |block| => Quant(block[j], Scale(block))))
  }

  /** What is used of the rounding: rounded numbers and zero stay, and no sign changes. */
  ghost predicate Rounds(half: real -> real) {
    half(0.0) == 0.0 && (forall x :: half(half(x)) == half(x)) && (forall x :: x >= 0.0 ==> half(x) >= 0.0)
  }

  function Value(q: int, d: real): real {
    q as real * d
  }

  function Dequantised(b: Block): (r: seq<real>)
    ensures |r| == |b.qs|
  {
    seq(|b.qs|, j requires 0 <= j < |b.qs| => Value(b.qs[j], b.d))
  }

  // ----- The code -----

  /** The blocks of a row; its length must be a multiple of the block size. */
  method QuantizeRow(half: real -> real, xs: seq<real>) returns (out: seq<Block>)
    requires |xs| % 32 == 0
    ensures |out| * 32 == |xs|
    ensures forall i :: 0 <= i < |out| ==> out[i] == Quantised(half, xs[i * 32..(i + 1) * 32])
  {
    var nb := |xs| / QK;
    out := [];
    for i := 0 to nb
      invariant |out| == i
      invariant forall k :: 0 <= k < i ==> out[k] == Quantised(half, xs[k * QK..(k + 1) * QK])
    {
      var b := QuantizeBlock(half, xs[i * QK..(i + 1) * QK]);
      out := out + [b];
    }
  }

  method QuantizeBlock(half: real -> real, block: seq<real>) returns (b: Block)
    ensures b == Quantised(half, block)
  {
    var amax := GreatestMagnitude(block);
    var d := amax / 127.0;
    hide Quant, Amax;
    var qs: seq<int> := [];
    for j := 0 to |block|
      invariant |qs| == j
      invariant forall k :: 0 <= k < j ==> qs[k] == Quant(block[k], d)
    {
      qs := qs + [Quant(block[j], d)];
    }
    b := Block(half(d), qs);
  }

  method GreatestMagnitude(block: seq<real>) returns (amax: real)
    ensures amax == Amax(block)
  {
    amax := 0.0;
    for j := 0 to |block|
      invariant amax == Amax(block[..j])
    {
      assert block[..j + 1][..j] == block[..j];
      amax := if Abs(block[j]) > amax then Abs(block[j]) else amax;
    }
    assert block[..|block|] == block;
  }

  method DequantizeRow(bs: seq<Block>) returns (out: array<real>)
    requires forall i :: 0 <= i < |bs| ==> |bs[i].qs| == QK
    ensures out.Length == |bs| * QK
    ensures forall i, j :: 0 <= i < |bs| && 0 <= j < QK ==> out[i * QK + j] == Dequantised(bs[i])[j]
  {
    out := new real[|bs| * QK](_ => 0.0);
    for i := 0 to |bs|
      invariant forall k, j :: 0 <= k < i && 0 <= j < QK ==> out[k * QK + j] == Dequantised(bs[k])[j]
    {
      var d := bs[i].d;
      for j := 0 to QK
        invariant forall k, l :: 0 <= k < i && 0 <= l < QK ==> out[k * QK + l] == Dequantised(bs[k])[l]
        invariant forall l :: 0 <= l < j ==> out[i * QK + l] == Dequantised(bs[i])[l]
      {
        out[i * QK + j] := bs[i].qs[j] as real * d;
      }
    }
  }

  // ----- Rounding -----

  lemma RoundIsNear(x: real)
    ensures -0.5 <= Round(x) as real - x <= 0.5
  {
  }

  /** To the nearest integer, and of two as near to the one farther from zero: no other integer will do. */
  lemma RoundIs(x: real, n: int)
    ensures Round(x) == n <==> (Abs(n as real - x) < 0.5 || (Abs(n as real - x) == 0.5 && Abs(n as real) > Abs(x)))
  {
  }

  lemma RoundOfInt(n: int)
    ensures Round(n as real) == n
  {
  }

  lemma RoundIsMonotone(x: real, y: real)
    requires x <= y
    ensures Round(x) <= Round(y)
  {
  }

  // ----- Products -----

  lemma Regroups(x: real, y: real, z: real)
    ensures x * y * z == x * (y * z) && x * y * z == x * z * y
  {
  }

  lemma OneFactor(x: real, one: real)
    requires one == 1.0
    ensures x * one == x
  {
  }

  lemma ZeroFactor(x: real, zero: real)
    requires zero == 0.0
    ensures x * zero == 0.0
  {
  }

  lemma ProductSign(x: real, y: real)
    requires y > 0.0
    ensures x >= 0.0 <==> x * y >= 0.0
  {
  }

  lemma Spreads(x: real, y: real, z: real)
    ensures (x - y) * z == x * z - y * z && (x + y) * z == x * z + y * z
  {
  }

  /** Magnitudes scale. */
  lemma Bounded(x: real, m: real, d: real)
    requires d > 0.0
    ensures -m <= x <= m <==> -(m * d) <= x * d <= m * d
  {
    ProductSign(m - x, d);
    ProductSign(m + x, d);
    Spreads(m, x, d);
  }

  lemma InverseIs(d: real)
    requires d > 0.0
    ensures Inverse(d) * d == 1.0
  {
  }

  // ----- A value and its scale -----

  lemma InverseCancels(v: real, d: real)
    requires d > 0.0
    ensures v * Inverse(d) * d == v && v * d * Inverse(d) == v
  {
    hide Inverse;
    InverseIs(d);
    Regroups(v, Inverse(d), d);
    OneFactor(v, Inverse(d) * d);
  }

  /** A value of magnitude at most 127 scales stays within 127 before rounding: the clamp never bites. */
  lemma ClampNeverBites(v: real, d: real)
    requires d >= 0.0 && Abs(v) <= 127.0 * d
    ensures Quant(v, d) == Round(InScales(v, d))
  {
    var x := InScales(v, d);
    if d > 0.0 {
      InverseCancels(v, d);
      Bounded(x, 127.0, d);
    } else {
      ZeroFactor(v, Inverse(d));
    }
    RoundIsMonotone(-127.0, x);
    RoundIsMonotone(x, 127.0);
    RoundOfInt(127);
    RoundOfInt(-127);
  }

  /** A value comes back within half a scale. */
  lemma ValueError(v: real, d: real)
    requires d >= 0.0 && Abs(v) <= 127.0 * d
    ensures Abs(Value(Quant(v, d), d) - v) <= d / 2.0
  {
    ClampNeverBites(v, d);
    if d > 0.0 {
      var x := InScales(v, d);
      var r := Round(x) as real;
      InverseCancels(v, d);
      RoundIsNear(x);
      hide Quant, Round, Inverse;
      Bounded(r - x, 0.5, d);
      Spreads(r, x, d);
    }
  }

  /** An integer number of scales comes back as it was. */
  lemma WholeScalesStay(n: int, d: real)
    requires d > 0.0 && -127 <= n <= 127
    ensures Quant(Value(n, d), d) == n
  {
    InverseCancels(n as real, d);
    RoundOfInt(n);
    hide Inverse, Round;
  }

  ghost predicate WholeScales(v: real, d: real) {
    exists n: int :: v == Value(n, d)
  }

  lemma WholeValueStays(v: real, d: real)
    requires d >= 0.0 && Abs(v) <= 127.0 * d && WholeScales(v, d)
    ensures Value(Quant(v, d), d) == v
  {
    if d > 0.0 {
      var n: int :| v == Value(n, d);
      Bounded(n as real, 127.0, d);
      WholeScalesStay(n, d);
    } else {
      OneFactor(0.0, 1.0);
    }
  }

  // ----- A block -----

  lemma ScaleOf(half: real -> real, block: seq<real>)
    ensures var b, d := Quantised(half, block), Scale(block);
            && d >= 0.0 && 127.0 * d == Amax(block) && b.d == half(d) && |b.qs| == |block|
            && forall j :: 0 <= j < |block| ==> Abs(block[j]) <= 127.0 * d && b.qs[j] == Quant(block[j], d) && -127 <= b.qs[j] <= 127
  {
    hide Round, InScales;
  }

  /** An integer put back with another scale. */
  lemma ScaleError(q: int, d: real, s: real)
    requires -127 <= q <= 127
    ensures Abs(Value(q, s) - Value(q, d)) <= 127.0 * Abs(s - d)
    ensures q == 127 || q == -127 ==> Abs(Value(q, s) - Value(q, d)) == 127.0 * Abs(s - d)
  {
    Spreads(s, d, q as real);
    if s != d {
      ValueBound(q, Abs(s - d));
    } else {
      ZeroFactor(127.0, 0.0);
    }
  }

  lemma AbsAdds(x: real, y: real, z: real)
    ensures Abs(x - z) <= Abs(x - y) + Abs(y - z)
  {
  }

  /** No element is clamped, and each is off by at most `amax / 254` after the round trip, and what the
      scale lost 127 times. */
  lemma RoundTripError(half: real -> real, block: seq<real>)
    ensures var b, d := Quantised(half, block), Scale(block);
            && |Dequantised(b)| == |block|
            && forall j :: 0 <= j < |block| ==>
                 && b.qs[j] == Round(InScales(block[j], d))
                 && Abs(Dequantised(b)[j] - block[j]) <= Amax(block) / 254.0 + 127.0 * Abs(half(d) - d)
  {
    hide Quant, Round, InScales, Amax, Quantised, Value, Abs, Scale;
    var b, d := Quantised(half, block), Scale(block);
    ScaleOf(half, block);
    forall j | 0 <= j < |block|
      ensures b.qs[j] == Round(InScales(block[j], d))
      ensures Abs(Dequantised(b)[j] - block[j]) <= Amax(block) / 254.0 + 127.0 * Abs(half(d) - d)
    {
      ClampNeverBites(block[j], d);
      ValueError(block[j], d);
      ScaleError(b.qs[j], d, b.d);
      AbsAdds(Value(b.qs[j], b.d), Value(b.qs[j], d), block[j]);
    }
  }

  /** An element of greatest magnitude uses the whole range. */
  lemma GreatestUsesRange(half: real -> real, block: seq<real>, j: nat)
    requires j < |block| && Abs(block[j]) == Amax(block) > 0.0
    ensures var n := Quantised(half, block).qs[j]; (n == 127 || n == -127) && block[j] == Value(n, Scale(block))
  {
    ScaleOf(half, block);
    hide Quant, Amax, Scale;
    var d := Scale(block);
    var n := if block[j] < 0.0 then -127 else 127;
    assert block[j] == Value(n, d);
    WholeScalesStay(n, d);
    assert Quantised(half, block).qs[j] == n;
  }

  /** It is off by exactly what the scale lost, 127 times. */
  lemma GreatestError(half: real -> real, block: seq<real>, j: nat)
    requires j < |block| && Abs(block[j]) == Amax(block)
    ensures Abs(Dequantised(Quantised(half, block))[j] - block[j])
         == if Amax(block) == 0.0 then 0.0 else 127.0 * Abs(half(Scale(block)) - Scale(block))
  {
    ScaleOf(half, block);
    hide Quant, Amax, Scale;
    if Amax(block) > 0.0 {
      GreatestUsesRange(half, block, j);
      ScaleError(Quantised(half, block).qs[j], Scale(block), half(Scale(block)));
    } else {
      ZeroElement(block[j]);
    }
  }

  lemma ZeroElement(v: real)
    requires v == 0.0
    ensures Quant(v, 0.0) == 0
  {
  }

  lemma ValueBound(q: int, d: real)
    requires d > 0.0 && -127 <= q <= 127
    ensures Abs(Value(q, d)) <= 127.0 * d
  {
    Products(127.0 - q as real, d);
    Products(127.0 + q as real, d);
    Spreads(127.0, q as real, d);
  }

  lemma Products(x: real, y: real)
    requires x >= 0.0 && y >= 0.0
    ensures x * y >= 0.0
  {
  }

  lemma AmaxOfDequantised(b: Block, j: nat)
    requires b.d > 0.0 && forall j :: 0 <= j < |b.qs| ==> -127 <= b.qs[j] <= 127
    requires j < |b.qs| && (b.qs[j] == 127 || b.qs[j] == -127)
    ensures Amax(Dequantised(b)) == 127.0 * b.d
  {
    var r := Dequantised(b);
    forall i | 0 <= i < |r|
      ensures Abs(r[i]) <= 127.0 * b.d
    {
      ValueBound(b.qs[i], b.d);
    }
    assert Abs(r[j]) == 127.0 * b.d;
  }

  /** A block whose scale stays positive, quantised again. */
  lemma PositiveScaleStays(half: real -> real, block: seq<real>)
    requires Rounds(half) && half(Scale(block)) > 0.0 && Amax(block) > 0.0
    ensures Quantised(half, Dequantised(Quantised(half, block))) == Quantised(half, block)
  {
    var b := Quantised(half, block);
    var r := Dequantised(b);
    var j :| 0 <= j < |block| && Abs(block[j]) == Amax(block);
    ScaleOf(half, block);
    ScaleOf(half, r);
    GreatestUsesRange(half, block, j);
    hide Quant, Amax, Quantised, Value;
    AmaxOfDequantised(b, j);
    assert Scale(r) == b.d;
    forall i | 0 <= i < |r|
      ensures Quant(r[i], b.d) == b.qs[i]
    {
      WholeScalesStay(b.qs[i], b.d);
    }
    assert Quantised(half, r).qs == b.qs;
  }

  lemma ZerosQuantised(half: real -> real, r: seq<real>)
    requires Rounds(half) && forall j :: 0 <= j < |r| ==> r[j] == 0.0
    ensures var b := Quantised(half, r); b.d == 0.0 && |b.qs| == |r| && forall j :: 0 <= j < |r| ==> b.qs[j] == 0
  {
    assert Amax(r) == 0.0;
    hide Quant, Amax;
    forall j | 0 <= j < |r|
      ensures Quant(r[j], 0.0) == 0
    {
      ZeroElement(r[j]);
    }
  }

  lemma ZeroScaleGivesZeros(b: Block)
    requires b.d == 0.0
    ensures forall j :: 0 <= j < |b.qs| ==> Dequantised(b)[j] == 0.0
  {
  }

  /** Quantising again what quantisation produced gives the same block, zero blocks included, exactly
      when the stored scale of a block that is not zero did not round to zero. */
  lemma RequantisingIsStableIff(half: real -> real, block: seq<real>)
    requires Rounds(half)
    ensures Quantised(half, Dequantised(Quantised(half, block))) == Quantised(half, block) <==>
            (Amax(block) > 0.0 ==> half(Scale(block)) > 0.0)
  {
    var b := Quantised(half, block);
    if Amax(block) > 0.0 && half(Scale(block)) > 0.0 {
      PositiveScaleStays(half, block);
    } else {
      ZeroScaleGivesZeros(b);
      ZerosQuantised(half, Dequantised(b));
      if Amax(block) > 0.0 {
        var j :| 0 <= j < |block| && Abs(block[j]) == Amax(block);
        GreatestUsesRange(half, block, j);
      } else {
        ZerosQuantised(half, block);
        assert b.qs == Quantised(half, Dequantised(b)).qs;
      }
    }
  }

  /** A block survives the round trip unchanged exactly when storing its scale loses nothing and every
      element is a whole number of scales. */
  lemma ExactIff(half: real -> real, block: seq<real>)
    ensures Dequantised(Quantised(half, block)) == block <==>
            && (Amax(block) == 0.0 || half(Scale(block)) == Scale(block))
            && forall j :: 0 <= j < |block| ==> WholeScales(block[j], Scale(block))
  {
    var b, d := Quantised(half, block), Scale(block);
    var r := Dequantised(b);
    ScaleOf(half, block);
    if r == block && Amax(block) > 0.0 {
      var j :| 0 <= j < |block| && Abs(block[j]) == Amax(block);
      GreatestError(half, block, j);
    }
    hide Quant, Amax, Quantised, Value, WholeScales, Scale;
    if Amax(block) == 0.0 {
      forall j | 0 <= j < |block|
        ensures r[j] == block[j] && WholeScales(block[j], d)
      {
        ZeroElement(block[j]);
        ValueIsWhole(0, d);
        ZeroFactor(b.d, 0.0);
        ZeroInteger(d);
        ZeroInteger(b.d);
      }
    } else if b.d == d {
      WholeBlockIff(block, b);
    }
  }

  lemma ZeroInteger(d: real)
    ensures Value(0, d) == 0.0
  {
  }

  lemma WholeBlockIff(block: seq<real>, b: Block)
    requires b.d >= 0.0 && |b.qs| == |block|
    requires forall j :: 0 <= j < |block| ==> Abs(block[j]) <= 127.0 * b.d && b.qs[j] == Quant(block[j], b.d)
    ensures Dequantised(b) == block <==> forall j :: 0 <= j < |block| ==> WholeScales(block[j], b.d)
  {
    hide Quant, Value, WholeScales;
    var r := Dequantised(b);
    if r == block {
      forall j | 0 <= j < |block|
        ensures WholeScales(block[j], b.d)
      {
        ValueIsWhole(b.qs[j], b.d);
      }
    }
    if forall j :: 0 <= j < |block| ==> WholeScales(block[j], b.d) {
      forall j | 0 <= j < |block|
        ensures r[j] == block[j]
      {
        WholeValueStays(block[j], b.d);
      }
    }
  }

  lemma ValueIsWhole(n: int, d: real)
    ensures WholeScales(Value(n, d), d)
  {
  }
}
