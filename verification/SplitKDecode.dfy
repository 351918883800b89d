/** The two split-K kernels over all heads, through their flat partial buffers, against the decode and
    prefill references. Over the reals. */
module SplitKDecode {
  import opened Wrappers
  import S = SplitK
  import A = Attention

  // ----- The references over the reals -----

  /** The references' operations over the reals. The number a maximum starts from does not matter. */
  function RealMath(e: real -> real, scale: real -> real, store: real -> real, lowest: real): A.Math<real> {
    A.Math(0.0, lowest, (a, x, y) => a + x * y, scale, (a, b) => if a > b then a else b, (x, m) => e(x - m), (a, b) => a + b,
           x => if x == 0.0 then 0.0 else 1.0 / x, (a, b) => a * b, store)
  }

  /** Component `d` of every value. */
  function Column(vs: seq<seq<real>>, dim: nat, d: nat): (col: seq<real>)
    requires A.Rows(vs, dim) && d < dim
    ensures |col| == |vs|
  {
    seq(|vs|, t requires 0 <= t < |vs| => vs[t][d])
  }

  lemma {:induction false} SumIsWeights(m: A.Math<real>, e: real -> real, xs: seq<real>, exps: seq<real>, g: real, n: nat)
    requires n <= |xs| == |exps| && forall t :: 0 <= t < |xs| ==> exps[t] == e(xs[t] - g)
    requires m.zero == 0.0 && forall a, b :: m.add(a, b) == a + b
    ensures A.SumOf(m, exps, n) == S.Weights(e, xs, 0, n, g)
  {
    if n > 0 {
      SumIsWeights(m, e, xs, exps, g, n - 1);
    }
  }

  lemma {:induction false} MixIsBlend(m: A.Math<real>, weights: seq<real>, vs: seq<seq<real>>, dim: nat, d: nat, n: nat)
    requires n <= |weights| == |vs| && A.Rows(vs, dim) && d < dim
    requires m.zero == 0.0 && forall a, x, y :: m.mac(a, x, y) == a + x * y
    ensures A.MixOf(m, weights, vs, d, n) == S.Blend(weights, Column(vs, dim, d), n)
  {
    if n > 0 {
      MixIsBlend(m, weights, vs, dim, d, n - 1);
    }
  }

  lemma RealShare(e: real -> real, scale: real -> real, store: real -> real, lowest: real, x: real, sum: real)
    requires sum > 0.0
    ensures var m := RealMath(e, scale, store, lowest); m.times(x, m.inverse(sum)) == x / sum
  {
    S.TimesInverse(x, sum);
  }

  /** `w` is the softmax weight of score `x`, relative to `g`. */
  ghost predicate IsShare(e: real -> real, x: real, w: real, g: real, sum: real) {
    sum > 0.0 && w == e(x - g) / sum
  }

  ghost predicate AreShares(e: real -> real, xs: seq<real>, weights: seq<real>, g: real, sum: real) {
    |weights| == |xs| && forall t :: 0 <= t < |xs| ==> IsShare(e, xs[t], weights[t], g, sum)
  }

  lemma SharesAverage(e: real -> real, xs: seq<real>, v: seq<real>, weights: seq<real>, g: real)
    requires S.IsExp(e) && 0 < |xs| == |v| == |weights| && AreShares(e, xs, weights, g, S.Weights(e, xs, 0, |xs|, g))
    ensures S.Blend(weights, v, |xs|) == S.Attended(e, xs, v, 0, |xs|)
  {
    hide S.IsExp, S.Weights, S.Weighted, S.Blend, S.Attended;
    assert IsShare(e, xs[0], weights[0], g, S.Weights(e, xs, 0, |xs|, g));
    S.BlendIsWeighted(e, xs, v, weights, g, S.Weights(e, xs, 0, |xs|, g), |xs|);
    S.AttendedAnywhere(e, xs, v, 0, |xs|, g);
  }

  lemma WeightIsShare(e: real -> real, scale: real -> real, store: real -> real, lowest: real, xs: seq<real>, t: nat, g: real, sum: real)
    requires var m := RealMath(e, scale, store, lowest);
             g == A.MaxOf(m, xs, |xs|) && sum == A.SumOf(m, A.ExpsOf(m, xs), |xs|) && sum > 0.0 && t < |xs|
    ensures IsShare(e, xs[t], A.WeightsOf(RealMath(e, scale, store, lowest), xs)[t], g, sum)
  {
    var m := RealMath(e, scale, store, lowest);
    var x := m.expDiff(xs[t], g);
    assert x == e(xs[t] - g) && A.WeightsOf(m, xs)[t] == m.times(x, m.inverse(sum));
    hide A.MaxOf, A.SumOf, A.ExpsOf, A.WeightsOf, RealMath;
    RealShare(e, scale, store, lowest, x, sum);
  }

  lemma RealAdds(e: real -> real, scale: real -> real, store: real -> real, lowest: real)
    ensures var m := RealMath(e, scale, store, lowest); m.zero == 0.0 && forall a, b :: m.add(a, b) == a + b
  {
  }

  lemma ExpOf(e: real -> real, scale: real -> real, store: real -> real, lowest: real, xs: seq<real>, t: nat)
    requires t < |xs|
    ensures var m := RealMath(e, scale, store, lowest); A.ExpsOf(m, xs)[t] == e(xs[t] - A.MaxOf(m, xs, |xs|))
  {
    hide A.MaxOf;
  }

  lemma SumIsPositive(e: real -> real, scale: real -> real, store: real -> real, lowest: real, xs: seq<real>)
    requires S.IsExp(e) && xs != []
    ensures var m := RealMath(e, scale, store, lowest);
            A.SumOf(m, A.ExpsOf(m, xs), |xs|) == S.Weights(e, xs, 0, |xs|, A.MaxOf(m, xs, |xs|)) > 0.0
  {
    hide S.IsExp, S.Weights, A.MaxOf, A.SumOf, A.ExpsOf, RealMath;
    var m := RealMath(e, scale, store, lowest);
    var g := A.MaxOf(m, xs, |xs|);
    forall t | 0 <= t < |xs|
      ensures A.ExpsOf(m, xs)[t] == e(xs[t] - g)
    {
      ExpOf(e, scale, store, lowest, xs, t);
    }
    RealAdds(e, scale, store, lowest);
    SumIsWeights(m, e, xs, A.ExpsOf(m, xs), g, |xs|);
    S.WeightsPositive(e, xs, 0, |xs|, g);
  }

  /** The reference's weights, relative to wherever its maximum came out. */
  lemma WeightsAreShares(e: real -> real, scale: real -> real, store: real -> real, lowest: real, xs: seq<real>)
    requires S.IsExp(e) && xs != []
    ensures var m := RealMath(e, scale, store, lowest);
            var g := A.MaxOf(m, xs, |xs|);
            AreShares(e, xs, A.WeightsOf(m, xs), g, S.Weights(e, xs, 0, |xs|, g))
  {
    hide S.IsExp, S.Weights, A.MaxOf, A.SumOf, A.ExpsOf, A.WeightsOf, RealMath, IsShare;
    var m := RealMath(e, scale, store, lowest);
    var g := A.MaxOf(m, xs, |xs|);
    SumIsPositive(e, scale, store, lowest, xs);
    forall t | 0 <= t < |xs|
      ensures IsShare(e, xs[t], A.WeightsOf(m, xs)[t], g, S.Weights(e, xs, 0, |xs|, g))
    {
      WeightIsShare(e, scale, store, lowest, xs, t, g, S.Weights(e, xs, 0, |xs|, g));
    }
  }

  lemma AttendIsBlend(e: real -> real, scale: real -> real, store: real -> real, lowest: real,
                      q: seq<real>, ks: seq<seq<real>>, vs: seq<seq<real>>, d: nat)
    requires 0 < |ks| == |vs| && A.Rows(ks, |q|) && A.Rows(vs, |q|) && d < |q|
    ensures var m := RealMath(e, scale, store, lowest);
            A.Attend(m, q, ks, vs, d) == store(S.Blend(A.WeightsOf(m, A.ScoresOf(m, q, ks)), Column(vs, |q|, d), |ks|))
  {
    var m := RealMath(e, scale, store, lowest);
    hide A.ScoresOf, A.WeightsOf, A.MixOf, S.Blend, Column;
    MixIsBlend(m, A.WeightsOf(m, A.ScoresOf(m, q, ks)), vs, |q|, d, |ks|);
  }

  /** The reference's output over the reals is the softmax average, whatever its maximum starts from. */
  lemma AttendIsAttended(e: real -> real, scale: real -> real, store: real -> real, lowest: real,
                         q: seq<real>, ks: seq<seq<real>>, vs: seq<seq<real>>, d: nat)
    requires S.IsExp(e) && 0 < |ks| == |vs| && A.Rows(ks, |q|) && A.Rows(vs, |q|) && d < |q|
    ensures var m := RealMath(e, scale, store, lowest);
            A.Attend(m, q, ks, vs, d) == store(S.Attended(e, A.ScoresOf(m, q, ks), Column(vs, |q|, d), 0, |ks|))
  {
    var m := RealMath(e, scale, store, lowest);
    var xs, n := A.ScoresOf(m, q, ks), |ks|;
    hide S.IsExp, S.Blend, S.Attended, S.Weights, A.MaxOf, A.ScoresOf, A.WeightsOf, A.Attend, RealMath, Column, AreShares;
    AttendIsBlend(e, scale, store, lowest, q, ks, vs, d);
    WeightsAreShares(e, scale, store, lowest, xs);
    SharesAverage(e, xs, Column(vs, |q|, d), A.WeightsOf(m, xs), A.MaxOf(m, xs, n));
  }

  // ----- A range of keys -----

  /** The average over keys `from..n` is that over the keys cut out. */
  lemma AttendedCutOut(e: real -> real, sc: seq<real>, v: seq<real>, from: nat)
    requires S.IsExp(e) && from < |sc| == |v|
    ensures S.Attended(e, sc, v, from, |sc|) == S.Attended(e, sc[from..], v[from..], 0, |sc| - from)
  {
    var n := |sc| - from;
    var g := S.Greatest(sc, from, |sc|).value;
    SumsCutOut(e, sc, v, from, n, g);
    S.AttendedAnywhere(e, sc, v, from, |sc|, g);
    S.AttendedAnywhere(e, sc[from..], v[from..], 0, n, g);
    hide S.IsExp, S.Weights, S.Weighted, S.Attended, S.Greatest;
  }

  lemma {:induction false} SumsCutOut(e: real -> real, sc: seq<real>, v: seq<real>, from: nat, n: nat, g: real)
    requires from + n <= |sc| == |v|
    ensures S.Weights(e, sc, from, from + n, g) == S.Weights(e, sc[from..], 0, n, g)
    ensures S.Weighted(e, sc, v, from, from + n, g) == S.Weighted(e, sc[from..], v[from..], 0, n, g)
  {
    if n > 0 {
      SumsCutOut(e, sc, v, from, n - 1, g);
    }
  }

  // ----- The kernels over all heads -----

  /** A decode step by split-K: chunks of `size` keys from `base` on, seen through a window. */
  datatype Call = Call(h: A.Heads, q: seq<real>, k: seq<real>, v: seq<real>, n: nat, base: nat, size: nat, window: nat)

  predicate Valid(c: Call) {
    && A.Grouped(c.h) && c.h.dim > 0 && A.IsQuery(c.h, c.q, 1) && A.IsCache(c.h, c.k, c.n) && A.IsCache(c.h, c.v, c.n)
    && c.base < c.n && c.size > 0
  }

  function Chunks(c: Call): nat
    requires Valid(c)
  {
    S.DivCeil(c.n - c.base, c.size)
  }

  function Scores(m: A.Math<real>, c: Call, qh: nat): (sc: seq<real>)
    requires Valid(c) && qh < c.h.q
    ensures |sc| == c.n
  {
    A.ScoresOf(m, A.QueryRow(c.h, c.q, 1, 0, qh), A.CacheRows(c.h, c.k, c.n, A.KvHead(c.h, qh), 0, c.n))
  }

  function Values(c: Call, qh: nat): (vs: seq<seq<real>>)
    requires Valid(c) && qh < c.h.q
    ensures |vs| == c.n && A.Rows(vs, c.h.dim)
  {
    A.CacheRows(c.h, c.v, c.n, A.KvHead(c.h, qh), 0, c.n)
  }

  /** The partial buffers: one maximum and sum for a head's chunk, one value for each component. */
  datatype Buffers = Buffers(m: seq<Option<real>>, s: seq<real>, o: seq<real>)

  predicate Sized(b: Buffers, slots: nat, dim: nat) {
    |b.m| == |b.s| == slots && |b.o| == slots * dim
  }

  /** The partial of component `d` in slot `at`. */
  function PartialAt(b: Buffers, slots: nat, dim: nat, at: nat, d: nat): S.Partial
    requires Sized(b, slots, dim) && at < slots && d < dim
  {
    A.DigitsFit(at, slots, d, dim);
    S.Partial(b.m[at], b.s[at], b.o[at * dim + d])
  }

  /** Every component of a slot holds what the chunk leaves. */
  ghost predicate SlotHolds(e: real -> real, sc: seq<real>, vs: seq<seq<real>>, dim: nat, from: nat, to: nat, b: Buffers, slots: nat, at: nat)
    requires |sc| == |vs| && A.Rows(vs, dim) && from <= to <= |sc| && Sized(b, slots, dim) && at < slots
  {
    forall d :: 0 <= d < dim ==> PartialAt(b, slots, dim, at, d) == S.PartialOf(e, sc, Column(vs, dim, d), from, to)
  }

  lemma PartialSharesMaximum(e: real -> real, sc: seq<real>, v: seq<real>, w: seq<real>, from: nat, to: nat)
    requires from <= to <= |sc| == |v| == |w|
    ensures S.PartialOf(e, sc, v, from, to).m == S.PartialOf(e, sc, w, from, to).m
    ensures S.PartialOf(e, sc, v, from, to).s == S.PartialOf(e, sc, w, from, to).s
  {
  }

  /** The chunk kernel for one head and chunk: each component's online pass; the first one's maximum and
      sum are the slot's. */
  method ChunkOfHead(e: real -> real, sc: seq<real>, vs: seq<seq<real>>, dim: nat, from: nat, to: nat, slots: nat, at: nat,
                     partM: array<Option<real>>, partS: array<real>, partO: array<real>)
    requires S.IsExp(e) && |sc| == |vs| && A.Rows(vs, dim) && from <= to <= |sc| && dim > 0 && at < slots && partS != partO
    requires partM.Length == partS.Length == slots && partO.Length == slots * dim
    modifies partM, partS, partO
    ensures SlotHolds(e, sc, vs, dim, from, to, Buffers(partM[..], partS[..], partO[..]), slots, at)
    ensures forall i :: 0 <= i < slots && i != at ==> partM[i] == old(partM[i]) && partS[i] == old(partS[i])
    ensures forall i :: 0 <= i < partO.Length && !(at * dim <= i < at * dim + dim) ==> partO[i] == old(partO[i])
  {
    hide S.IsExp, S.PartialOf, Column;
    A.RowFits(slots, dim, at);
    var place := at * dim;
    for d := 0 to dim
      invariant forall i :: 0 <= i < slots && i != at ==> partM[i] == old(partM[i]) && partS[i] == old(partS[i])
      invariant forall i :: 0 <= i < partO.Length && !(place <= i < place + d) ==> partO[i] == old(partO[i])
      invariant forall c :: 0 <= c < d ==> partO[place + c] == S.PartialOf(e, sc, Column(vs, dim, c), from, to).o
      invariant d > 0 ==> S.PartialOf(e, sc, Column(vs, dim, 0), from, to) == S.Partial(partM[at], partS[at], partO[place])
    {
      var p := S.ChunkPartial(e, sc, Column(vs, dim, d), from, to);
      partO[place + d] := p.o;
      if d == 0 {
        partM[at] := p.m;
        partS[at] := p.s;
      }
    }
    forall d | 0 <= d < dim
      ensures PartialAt(Buffers(partM[..], partS[..], partO[..]), slots, dim, at, d) == S.PartialOf(e, sc, Column(vs, dim, d), from, to)
    {
      PartialSharesMaximum(e, sc, Column(vs, dim, 0), Column(vs, dim, d), from, to);
      assert partO[place + d] == S.PartialOf(e, sc, Column(vs, dim, d), from, to).o;
    }
  }

  /** Where the partials of a head's chunk go. */
  function SlotOf(c: Call, qh: nat, chunk: nat): nat
    requires Valid(c)
  {
    qh * Chunks(c) + chunk
  }

  function Slots(c: Call): nat
    requires Valid(c)
  {
    c.h.q * Chunks(c)
  }

  /** The buffers hold the partials of chunk `chunk` of head `qh`. */
  ghost predicate ChunkHeld(e: real -> real, m: A.Math<real>, c: Call, b: Buffers, qh: nat, chunk: nat)
    requires Valid(c) && qh < c.h.q && chunk < Chunks(c) && Sized(b, Slots(c), c.h.dim)
  {
    A.DigitsFit(qh, c.h.q, chunk, Chunks(c));
    S.ChunksTile(c.n, c.base, c.size, c.window, chunk);
    SlotHolds(e, Scores(m, c, qh), Values(c, qh), c.h.dim, S.ChunkStart(c.n, c.base, c.size, c.window, chunk),
              S.ChunkEnd(c.n, c.base, c.size, chunk), b, Slots(c), SlotOf(c, qh, chunk))
  }

  /** The buffers agree on slot `i`. */
  ghost predicate SameSlot(b1: Buffers, b2: Buffers, slots: nat, dim: nat, i: nat)
    requires Sized(b1, slots, dim) && Sized(b2, slots, dim) && i < slots
  {
    && b1.m[i] == b2.m[i] && b1.s[i] == b2.s[i]
    && forall j :: 0 <= j < |b1.o| && i * dim <= j < i * dim + dim ==> b1.o[j] == b2.o[j]
  }

  lemma SlotStays(e: real -> real, sc: seq<real>, vs: seq<seq<real>>, dim: nat, from: nat, to: nat, b1: Buffers, b2: Buffers, slots: nat, i: nat)
    requires |sc| == |vs| && A.Rows(vs, dim) && from <= to <= |sc| && Sized(b1, slots, dim) && Sized(b2, slots, dim) && i < slots
    requires SlotHolds(e, sc, vs, dim, from, to, b1, slots, i) && SameSlot(b1, b2, slots, dim, i)
    ensures SlotHolds(e, sc, vs, dim, from, to, b2, slots, i)
  {
    hide S.PartialOf, Column;
    A.RowFits(slots, dim, i);
    forall d | 0 <= d < dim
      ensures PartialAt(b2, slots, dim, i, d) == PartialAt(b1, slots, dim, i, d)
    {
    }
  }

  lemma OtherSlots(b1: Buffers, b2: Buffers, slots: nat, dim: nat, at: nat, i: nat)
    requires Sized(b1, slots, dim) && Sized(b2, slots, dim) && i < at < slots
    requires forall j :: 0 <= j < slots && j != at ==> b1.m[j] == b2.m[j] && b1.s[j] == b2.s[j]
    requires forall j :: 0 <= j < |b1.o| && !(at * dim <= j < at * dim + dim) ==> b1.o[j] == b2.o[j]
    ensures SameSlot(b1, b2, slots, dim, i)
  {
    A.RowFits(at, dim, i);
  }

  lemma ChunkStays(e: real -> real, m: A.Math<real>, c: Call, b1: Buffers, b2: Buffers, at: nat, qh: nat, chunk: nat)
    requires Valid(c) && qh < c.h.q && chunk < Chunks(c) && Sized(b1, Slots(c), c.h.dim) && Sized(b2, Slots(c), c.h.dim)
    requires SlotOf(c, qh, chunk) < at < Slots(c) && ChunkHeld(e, m, c, b1, qh, chunk)
    requires forall j :: 0 <= j < Slots(c) && j != at ==> b1.m[j] == b2.m[j] && b1.s[j] == b2.s[j]
    requires forall j :: 0 <= j < |b1.o| && !(at * c.h.dim <= j < at * c.h.dim + c.h.dim) ==> b1.o[j] == b2.o[j]
    ensures ChunkHeld(e, m, c, b2, qh, chunk)
  {
    hide Scores, Values, SlotHolds, SameSlot;
    S.ChunksTile(c.n, c.base, c.size, c.window, chunk);
    OtherSlots(b1, b2, Slots(c), c.h.dim, at, SlotOf(c, qh, chunk));
    SlotStays(e, Scores(m, c, qh), Values(c, qh), c.h.dim, S.ChunkStart(c.n, c.base, c.size, c.window, chunk),
              S.ChunkEnd(c.n, c.base, c.size, chunk), b1, b2, Slots(c), SlotOf(c, qh, chunk));
  }

  /** The chunks of the heads before `qh`, and the first ones of head `qh`, are held. */
  ghost predicate HeldUpTo(e: real -> real, m: A.Math<real>, c: Call, b: Buffers, qh: nat, chunk: nat)
    requires Valid(c) && qh <= c.h.q && chunk <= Chunks(c) && (chunk > 0 ==> qh < c.h.q) && Sized(b, Slots(c), c.h.dim)
  {
    && (forall g, k :: 0 <= g < qh && 0 <= k < Chunks(c) ==> ChunkHeld(e, m, c, b, g, k))
    && (forall k :: 0 <= k < chunk ==> ChunkHeld(e, m, c, b, qh, k))
  }

  lemma HeldGrows(e: real -> real, m: A.Math<real>, c: Call, b1: Buffers, b2: Buffers, qh: nat, chunk: nat)
    requires Valid(c) && qh < c.h.q && chunk < Chunks(c) && Sized(b1, Slots(c), c.h.dim) && Sized(b2, Slots(c), c.h.dim)
    requires HeldUpTo(e, m, c, b1, qh, chunk) && ChunkHeld(e, m, c, b2, qh, chunk)
    requires var at := SlotOf(c, qh, chunk); forall j :: 0 <= j < Slots(c) && j != at ==> b1.m[j] == b2.m[j] && b1.s[j] == b2.s[j]
    requires var at, dim := SlotOf(c, qh, chunk), c.h.dim;
             forall j :: 0 <= j < |b1.o| && !(at * dim <= j < at * dim + dim) ==> b1.o[j] == b2.o[j]
    ensures HeldUpTo(e, m, c, b2, qh, chunk + 1)
  {
    hide ChunkHeld;
    var at := SlotOf(c, qh, chunk);
    A.DigitsFit(qh, c.h.q, chunk, Chunks(c));
    forall g, k | 0 <= g < qh && 0 <= k < Chunks(c)
      ensures ChunkHeld(e, m, c, b2, g, k)
    {
      A.DigitsFit(g, qh, k, Chunks(c));
      ChunkStays(e, m, c, b1, b2, at, g, k);
    }
    forall k | 0 <= k < chunk
      ensures ChunkHeld(e, m, c, b2, qh, k)
    {
      ChunkStays(e, m, c, b1, b2, at, qh, k);
    }
  }

  /** The chunk kernel: one block for every head and chunk. */
  method ChunkPass(e: real -> real, m: A.Math<real>, c: Call, partM: array<Option<real>>, partS: array<real>, partO: array<real>)
    requires S.IsExp(e) && Valid(c) && partS != partO
    requires partM.Length == partS.Length == Slots(c) && partO.Length == Slots(c) * c.h.dim
    modifies partM, partS, partO
    ensures HeldUpTo(e, m, c, Buffers(partM[..], partS[..], partO[..]), c.h.q, 0)
  {
    hide S.IsExp, ChunkHeld, Scores, Values;
    var chunks, slots := Chunks(c), Slots(c);
    for qh := 0 to c.h.q
      invariant HeldUpTo(e, m, c, Buffers(partM[..], partS[..], partO[..]), qh, 0)
    {
      for chunk := 0 to chunks
        invariant HeldUpTo(e, m, c, Buffers(partM[..], partS[..], partO[..]), qh, chunk)
      {
        ghost var before := Buffers(partM[..], partS[..], partO[..]);
        A.DigitsFit(qh, c.h.q, chunk, chunks);
        S.ChunksTile(c.n, c.base, c.size, c.window, chunk);
        ChunkOfHead(e, Scores(m, c, qh), Values(c, qh), c.h.dim, S.ChunkStart(c.n, c.base, c.size, c.window, chunk),
                    S.ChunkEnd(c.n, c.base, c.size, chunk), slots, SlotOf(c, qh, chunk), partM, partS, partO);
        ghost var after := Buffers(partM[..], partS[..], partO[..]);
        HoldsChunk(e, m, c, after, qh, chunk);
        hide HeldUpTo;
        HeldGrows(e, m, c, before, after, qh, chunk);
      }
      NextHead(e, m, c, Buffers(partM[..], partS[..], partO[..]), qh);
    }
  }

  lemma HoldsChunk(e: real -> real, m: A.Math<real>, c: Call, b: Buffers, qh: nat, chunk: nat)
    requires Valid(c) && qh < c.h.q && chunk < Chunks(c) && Sized(b, Slots(c), c.h.dim) && SlotOf(c, qh, chunk) < Slots(c)
    requires S.ChunkStart(c.n, c.base, c.size, c.window, chunk) <= S.ChunkEnd(c.n, c.base, c.size, chunk) <= c.n
    requires SlotHolds(e, Scores(m, c, qh), Values(c, qh), c.h.dim, S.ChunkStart(c.n, c.base, c.size, c.window, chunk),
                       S.ChunkEnd(c.n, c.base, c.size, chunk), b, Slots(c), SlotOf(c, qh, chunk))
    ensures ChunkHeld(e, m, c, b, qh, chunk)
  {
  }

  lemma NextHead(e: real -> real, m: A.Math<real>, c: Call, b: Buffers, qh: nat)
    requires Valid(c) && qh < c.h.q && Sized(b, Slots(c), c.h.dim) && HeldUpTo(e, m, c, b, qh, Chunks(c))
    ensures HeldUpTo(e, m, c, b, qh + 1, 0)
  {
    hide ChunkHeld;
  }

  // ----- The merge over all heads -----

  /** The partials of one component of one head, chunk by chunk. */
  function PartsOf(c: Call, b: Buffers, qh: nat, d: nat): (parts: seq<S.Partial>)
    requires Valid(c) && qh < c.h.q && d < c.h.dim && Sized(b, Slots(c), c.h.dim)
    ensures |parts| == Chunks(c)
  {
    seq(Chunks(c), chunk requires 0 <= chunk < Chunks(c) =>
      A.DigitsFit(qh, c.h.q, chunk, Chunks(c));
      PartialAt(b, Slots(c), c.h.dim, SlotOf(c, qh, chunk), d))
  }

  lemma PartsArePartials(e: real -> real, m: A.Math<real>, c: Call, b: Buffers, qh: nat, d: nat)
    requires Valid(c) && qh < c.h.q && d < c.h.dim && Sized(b, Slots(c), c.h.dim) && HeldUpTo(e, m, c, b, c.h.q, 0)
    ensures forall chunk :: 0 <= chunk < Chunks(c) ==>
              S.IsPartOf(e, Scores(m, c, qh), Column(Values(c, qh), c.h.dim, d), c.base, c.size, c.window, chunk, PartsOf(c, b, qh, d)[chunk])
  {
    hide Scores, Values, S.PartialOf, S.Cut, Column, S.ChunkStart, S.ChunkEnd;
    forall chunk | 0 <= chunk < Chunks(c)
      ensures S.IsPartOf(e, Scores(m, c, qh), Column(Values(c, qh), c.h.dim, d), c.base, c.size, c.window, chunk, PartsOf(c, b, qh, d)[chunk])
    {
      assert ChunkHeld(e, m, c, b, qh, chunk);
      S.PartialOfChunk(e, Scores(m, c, qh), Column(Values(c, qh), c.h.dim, d), c.base, c.size, c.window, chunk);
    }
  }

  /** What the kernels owe component `d` of head `qh`. */
  function Owed(e: real -> real, m: A.Math<real>, c: Call, qh: nat, d: nat): real
    requires S.IsExp(e) && Valid(c) && qh < c.h.q && d < c.h.dim
  {
    m.store(S.Attended(e, Scores(m, c, qh), Column(Values(c, qh), c.h.dim, d), S.From(c.n, c.base, c.window), c.n))
  }

  function OutLen(c: Call): nat {
    c.h.q * c.h.dim
  }

  function OutPlace(c: Call, qh: nat, d: nat): (i: nat)
    requires qh < c.h.q && d < c.h.dim
    ensures i < OutLen(c)
  {
    A.DigitsFit(qh, c.h.q, d, c.h.dim);
    qh * c.h.dim + d
  }

  lemma PlacesDiffer(c: Call, g: nat, k: nat, qh: nat, d: nat)
    requires g < c.h.q && k < c.h.dim && qh < c.h.q && d < c.h.dim && OutPlace(c, g, k) == OutPlace(c, qh, d)
    ensures g == qh && k == d
  {
    if g < qh {
      A.DigitsFit(g, qh, k, c.h.dim);
    } else if g > qh {
      A.DigitsFit(qh, g, d, c.h.dim);
    }
  }

  ghost predicate OutIs(e: real -> real, m: A.Math<real>, c: Call, out: seq<real>, qh: nat, d: nat)
    requires S.IsExp(e) && Valid(c) && qh < c.h.q && d < c.h.dim && |out| == OutLen(c)
  {
    out[OutPlace(c, qh, d)] == Owed(e, m, c, qh, d)
  }

  method CombineOne(e: real -> real, m: A.Math<real>, c: Call, b: Buffers, qh: nat, d: nat) returns (r: real)
    requires S.IsExp(e) && Valid(c) && Sized(b, Slots(c), c.h.dim) && HeldUpTo(e, m, c, b, c.h.q, 0) && qh < c.h.q && d < c.h.dim
    ensures r == Owed(e, m, c, qh, d)
  {
    hide S.IsExp, HeldUpTo, Scores, Values, S.Attended, S.IsPartOf, Column;
    PartsArePartials(e, m, c, b, qh, d);
    var merged := S.MergeChunks(e, PartsOf(c, b, qh, d), Scores(m, c, qh), Column(Values(c, qh), c.h.dim, d), c.base, c.size, c.window);
    r := m.store(merged);
  }

  /** The outputs of the heads before `qh`, and the first ones of head `qh`, are there. */
  ghost predicate OutUpTo(e: real -> real, m: A.Math<real>, c: Call, out: seq<real>, qh: nat, d: nat)
    requires S.IsExp(e) && Valid(c) && qh <= c.h.q && d <= c.h.dim && (d > 0 ==> qh < c.h.q) && |out| == OutLen(c)
  {
    && (forall g, k :: 0 <= g < qh && 0 <= k < c.h.dim ==> OutIs(e, m, c, out, g, k))
    && (forall k :: 0 <= k < d ==> OutIs(e, m, c, out, qh, k))
  }

  lemma OneMoreOut(e: real -> real, m: A.Math<real>, c: Call, before: seq<real>, after: seq<real>, qh: nat, d: nat)
    requires S.IsExp(e) && Valid(c) && qh < c.h.q && d < c.h.dim && |before| == |after| == OutLen(c)
    requires after == before[OutPlace(c, qh, d) := Owed(e, m, c, qh, d)]
    requires OutUpTo(e, m, c, before, qh, d)
    ensures OutUpTo(e, m, c, after, qh, d + 1)
  {
    hide S.IsExp, Owed, OutPlace, OutLen;
    forall g, k | 0 <= g < qh && 0 <= k < c.h.dim
      ensures OutIs(e, m, c, after, g, k)
    {
      assert OutIs(e, m, c, before, g, k);
      if OutPlace(c, g, k) == OutPlace(c, qh, d) {
        PlacesDiffer(c, g, k, qh, d);
      }
    }
    forall k | 0 <= k < d + 1
      ensures OutIs(e, m, c, after, qh, k)
    {
      if k < d {
        assert OutIs(e, m, c, before, qh, k);
        if OutPlace(c, qh, k) == OutPlace(c, qh, d) {
          PlacesDiffer(c, qh, k, qh, d);
        }
      }
    }
  }

  lemma NextHeadOut(e: real -> real, m: A.Math<real>, c: Call, out: seq<real>, qh: nat)
    requires S.IsExp(e) && Valid(c) && qh < c.h.q && |out| == OutLen(c) && OutUpTo(e, m, c, out, qh, c.h.dim)
    ensures OutUpTo(e, m, c, out, qh + 1, 0)
  {
    hide OutIs;
  }

  /** The combine kernel: one thread for every head and component. */
  method CombinePass(e: real -> real, m: A.Math<real>, c: Call, b: Buffers) returns (out: array<real>)
    requires S.IsExp(e) && Valid(c) && Sized(b, Slots(c), c.h.dim) && HeldUpTo(e, m, c, b, c.h.q, 0)
    ensures out.Length == OutLen(c) && OutUpTo(e, m, c, out[..], c.h.q, 0)
  {
    out := new real[OutLen(c)](_ => 0.0);
    assert OutUpTo(e, m, c, out[..], 0, 0);
    hide S.IsExp, HeldUpTo, Owed, OutUpTo, OutPlace, OutLen, Slots;
    for qh := 0 to c.h.q
      invariant OutUpTo(e, m, c, out[..], qh, 0)
    {
      for d := 0 to c.h.dim
        invariant OutUpTo(e, m, c, out[..], qh, d)
      {
        ghost var before := out[..];
        out[OutPlace(c, qh, d)] := CombineOne(e, m, c, b, qh, d);
        OneMoreOut(e, m, c, before, out[..], qh, d);
      }
      NextHeadOut(e, m, c, out[..], qh);
    }
  }

  /** Both kernels, with the chunk size the benchmark picks or any other. */
  method Decode(e: real -> real, m: A.Math<real>, c: Call) returns (out: array<real>)
    requires S.IsExp(e) && Valid(c)
    ensures out.Length == OutLen(c)
    ensures forall qh, d :: 0 <= qh < c.h.q && 0 <= d < c.h.dim ==> OutIs(e, m, c, out[..], qh, d)
  {
    hide S.IsExp, HeldUpTo, OutIs;
    var partM := new Option<real>[Slots(c)](_ => None);
    var partS, partO := new real[Slots(c)](_ => 0.0), new real[Slots(c) * c.h.dim](_ => 0.0);
    ChunkPass(e, m, c, partM, partS, partO);
    out := CombinePass(e, m, c, Buffers(partM[..], partS[..], partO[..]));
  }

  // ----- The kernels compute the references -----

  /** The reference call of a decode step: the last position, with the same window. */
  function ReferenceOf(c: Call): A.Batch<real> {
    A.Batch(c.q, c.k, c.v, 1, c.n, if c.n > 0 then c.n - 1 else 0, c.window)
  }

  lemma CutOutRows(m: A.Math<real>, c: Call, qh: nat, d: nat, from: nat)
    requires Valid(c) && qh < c.h.q && d < c.h.dim && from <= c.n
    ensures var kvh, q := A.KvHead(c.h, qh), A.QueryRow(c.h, c.q, 1, 0, qh);
            && Scores(m, c, qh)[from..] == A.ScoresOf(m, q, A.CacheRows(c.h, c.k, c.n, kvh, from, c.n))
            && Column(Values(c, qh), c.h.dim, d)[from..] == Column(A.CacheRows(c.h, c.v, c.n, kvh, from, c.n), c.h.dim, d)
  {
    hide A.CacheRow, A.QueryRow, A.ScoreOf, A.KvHead;
  }

  /** The keys the reference reads are those the chunks cover. */
  lemma ReferenceRange(c: Call)
    requires Valid(c) && c.base <= S.WindowStart(c.n, c.window) < A.TWO_31 && c.window < A.TWO_31
    ensures A.Start(c.n - 1, c.window) == S.WindowStart(c.n, c.window) == S.From(c.n, c.base, c.window) < c.n
    ensures A.Limit(c.n - 1, c.n) == c.n
  {
    A.StartIsWindowStartIff(c.n - 1, c.window);
    hide A.AsI32;
  }

  lemma OwedIsAttend(e: real -> real, scale: real -> real, store: real -> real, lowest: real, c: Call, qh: nat, d: nat, from: nat)
    requires S.IsExp(e) && Valid(c) && qh < c.h.q && d < c.h.dim && from == S.From(c.n, c.base, c.window) < c.n
    ensures var m, kvh := RealMath(e, scale, store, lowest), A.KvHead(c.h, qh);
            Owed(e, m, c, qh, d) ==
            A.Attend(m, A.QueryRow(c.h, c.q, 1, 0, qh), A.CacheRows(c.h, c.k, c.n, kvh, from, c.n),
                     A.CacheRows(c.h, c.v, c.n, kvh, from, c.n), d)
  {
    var m, kvh, q := RealMath(e, scale, store, lowest), A.KvHead(c.h, qh), A.QueryRow(c.h, c.q, 1, 0, qh);
    var sc, v := Scores(m, c, qh), Column(Values(c, qh), c.h.dim, d);
    var ks, vs := A.CacheRows(c.h, c.k, c.n, kvh, from, c.n), A.CacheRows(c.h, c.v, c.n, kvh, from, c.n);
    CutOutRows(m, c, qh, d, from);
    assert Owed(e, m, c, qh, d) == store(S.Attended(e, sc, v, from, c.n));
    hide S.IsExp, S.Attended, A.Attend, A.ScoresOf, A.CacheRows, A.KvHead, A.QueryRow, Column, RealMath, Scores, Values, Owed, S.From, Valid;
    AttendedCutOut(e, sc, v, from);
    AttendIsAttended(e, scale, store, lowest, q, ks, vs, d);
  }

  /** Chunks that start no later than the window give the prefill reference's output at the last
      position, window included, for every head and component, whatever the chunk size. */
  lemma SplitKIsReference(e: real -> real, scale: real -> real, store: real -> real, lowest: real, c: Call, qh: nat, d: nat)
    requires S.IsExp(e) && Valid(c) && qh < c.h.q && d < c.h.dim
    requires c.base <= S.WindowStart(c.n, c.window) < A.TWO_31 && c.window < A.TWO_31
    ensures var m := RealMath(e, scale, store, lowest);
            Owed(e, m, c, qh, d) == A.Output(m, c.h, ReferenceOf(c), 0, qh, d)
  {
    ReferenceRange(c);
    OwedIsAttend(e, scale, store, lowest, c, qh, d, S.WindowStart(c.n, c.window));
    hide S.IsExp, S.Attended, A.Attend, A.ScoresOf, A.CacheRows, A.QueryRow, RealMath, Owed, A.Start, A.Limit;
  }

  /** Without a window that is the decode reference. */
  lemma SplitKIsDecode(e: real -> real, scale: real -> real, store: real -> real, lowest: real, c: Call, qh: nat, d: nat)
    requires S.IsExp(e) && Valid(c) && qh < c.h.q && d < c.h.dim && c.base == c.window == 0
    ensures var m := RealMath(e, scale, store, lowest);
            Owed(e, m, c, qh, d) == A.DecodeOutput(m, c.h, c.q, c.k, c.v, c.n, qh, d)
  {
    SplitKIsReference(e, scale, store, lowest, c, qh, d);
    A.LastQueryIsDecode(RealMath(e, scale, store, lowest), c.h, ReferenceOf(c), qh, d);
    hide S.IsExp, Owed, A.Output, A.DecodeOutput, RealMath;
  }
}
