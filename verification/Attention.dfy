/** The attention references: causal prefill with an offset and a sliding window, and decode, as loop
    nests over flat arrays. The arithmetic is left open, so equalities between them are exact. */
module Attention {

  /** The operations of the references, on any number type. `mac(a, x, y)` is `a + x * y`. */
  datatype Math<!F> = Math(zero: F, lowest: F, mac: (F, F, F) -> F, scale: F -> F, max: (F, F) -> F,
                           expDiff: (F, F) -> F, add: (F, F) -> F, inverse: F -> F, times: (F, F) -> F, store: F -> F)

  // ----- One output, from its query and its keys -----

  function DotOf<F>(m: Math<F>, x: seq<F>, y: seq<F>, n: nat): F
    requires n <= |x| && n <= |y|
  {
    if n == 0 then m.zero else m.mac(DotOf(m, x, y, n - 1), x[n - 1], y[n - 1])
  }

  function ScoreOf<F>(m: Math<F>, q: seq<F>, k: seq<F>): F
    requires |q| == |k|
  {
    m.scale(DotOf(m, q, k, |q|))
  }

  function MaxOf<F>(m: Math<F>, xs: seq<F>, n: nat): F
    requires n <= |xs|
  {
    if n == 0 then m.lowest else m.max(MaxOf(m, xs, n - 1), xs[n - 1])
  }

  function SumOf<F>(m: Math<F>, xs: seq<F>, n: nat): F
    requires n <= |xs|
  {
    if n == 0 then m.zero else m.add(SumOf(m, xs, n - 1), xs[n - 1])
  }

  function ExpsOf<F>(m: Math<F>, scores: seq<F>): (r: seq<F>)
    ensures |r| == |scores|
  {
    seq(|scores|, t requires 0 <= t < |scores| => m.expDiff(scores[t], MaxOf(m, scores, |scores|)))
  }

  function WeightsOf<F>(m: Math<F>, scores: seq<F>): (r: seq<F>)
    ensures |r| == |scores|
  {
    var exps := ExpsOf(m, scores);
    seq(|scores|, t requires 0 <= t < |scores| => m.times(exps[t], m.inverse(SumOf(m, exps, |exps|))))
  }

  function MixOf<F>(m: Math<F>, weights: seq<F>, vs: seq<seq<F>>, d: nat, n: nat): F
    requires n <= |weights| == |vs| && forall t :: 0 <= t < |vs| ==> d < |vs[t]|
  {
    if n == 0 then m.zero else m.mac(MixOf(m, weights, vs, d, n - 1), weights[n - 1], vs[n - 1][d])
  }

  predicate Rows<F>(rows: seq<seq<F>>, n: nat) {
    forall t :: 0 <= t < |rows| ==> |rows[t]| == n
  }

  function ScoresOf<F>(m: Math<F>, q: seq<F>, ks: seq<seq<F>>): (r: seq<F>)
    requires Rows(ks, |q|)
    ensures |r| == |ks|
  {
    seq(|ks|, t requires 0 <= t < |ks| => ScoreOf(m, q, ks[t]))
  }

  /** Component `d` of the output for query `q` over the keys `ks` and values `vs`. */
  function Attend<F>(m: Math<F>, q: seq<F>, ks: seq<seq<F>>, vs: seq<seq<F>>, d: nat): F
    requires |ks| == |vs| && Rows(ks, |q|) && Rows(vs, |q|) && d < |q|
  {
    m.store(MixOf(m, WeightsOf(m, ScoresOf(m, q, ks)), vs, d, |vs|))
  }

  // ----- Layouts -----

  datatype Heads = Heads(q: nat, kv: nat, dim: nat)

  /** Every key head serves the same number of query heads. */
  predicate Grouped(h: Heads) {
    h.q > 0 && h.kv > 0 && h.q % h.kv == 0
  }

  function KvHead(h: Heads, qh: nat): (kvh: nat)
    requires Grouped(h) && qh < h.q
    ensures kvh < h.kv
  {
    GroupsFit(h.q, h.kv, qh);
    qh / (h.q / h.kv)
  }

  lemma GroupsFit(q: nat, kv: nat, qh: nat)
    requires kv > 0 && q % kv == 0 && qh < q
    ensures q / kv > 0 && qh / (q / kv) < kv
  {
    var g := q / kv;
    assert q == g * kv;
    var k := qh / g;
    assert k * g <= qh;
    if k >= kv {
      TimesMonotone(kv, k, g);
    }
  }

  lemma TimesMonotone(x: nat, y: nat, g: nat)
    requires x <= y
    ensures x * g <= y * g
  {
  }

  predicate IsQuery<F>(h: Heads, q: seq<F>, tokens: nat) {
    |q| == tokens * h.q * h.dim
  }

  predicate IsCache<F>(h: Heads, c: seq<F>, tokens: nat) {
    |c| == tokens * h.kv * h.dim
  }

  /** Row `r` of a flat array of rows. */
  function FlatRow<F>(xs: seq<F>, rows: nat, n: nat, r: nat): (row: seq<F>)
    requires |xs| == rows * n && r < rows
    ensures |row| == n
  {
    RowFits(rows, n, r);
    xs[r * n..r * n + n]
  }

  lemma RowFits(rows: nat, n: nat, r: nat)
    requires r < rows
    ensures r * n + n <= rows * n
  {
    assert (r + 1) * n <= rows * n;
  }

  lemma DigitsFit(a: nat, n: nat, b: nat, m: nat)
    requires a < n && b < m
    ensures a * m + b < n * m
  {
    assert (a + 1) * m <= n * m;
  }

  function QueryRow<F>(h: Heads, q: seq<F>, tokens: nat, qt: nat, qh: nat): (row: seq<F>)
    requires IsQuery(h, q, tokens) && qt < tokens && qh < h.q
    ensures |row| == h.dim
  {
    DigitsFit(qt, tokens, qh, h.q);
    FlatRow(q, tokens * h.q, h.dim, qt * h.q + qh)
  }

  function CacheRow<F>(h: Heads, c: seq<F>, tokens: nat, t: nat, kvh: nat): (row: seq<F>)
    requires IsCache(h, c, tokens) && t < tokens && kvh < h.kv
    ensures |row| == h.dim
  {
    DigitsFit(t, tokens, kvh, h.kv);
    FlatRow(c, tokens * h.kv, h.dim, t * h.kv + kvh)
  }

  /** Rows `from..to` of one key head. */
  function CacheRows<F>(h: Heads, c: seq<F>, tokens: nat, kvh: nat, from: nat, to: nat): (rows: seq<seq<F>>)
    requires IsCache(h, c, tokens) && from <= to <= tokens && kvh < h.kv
    ensures |rows| == to - from && Rows(rows, h.dim)
  {
    var rows := seq(to - from, i requires 0 <= i < to - from => CacheRow(h, c, tokens, from + i, kvh));
    assert forall i :: 0 <= i < to - from ==> rows[i] == CacheRow(h, c, tokens, from + i, kvh);
    rows
  }

  // ----- Which keys a query sees -----

  function Limit(qpos: nat, nK: nat): nat {
    if qpos + 1 < nK then qpos + 1 else nK
  }

  const TWO_31 := 0x8000_0000
  const TWO_32 := 0x1_0000_0000

  /** Signed 32-bit arithmetic keeps 32 bits of an integer. */
  function AsI32(x: int): (r: int)
    ensures -TWO_31 <= r < TWO_31 && (r - x) % TWO_32 == 0
  {
    (x + TWO_31) % TWO_32 - TWO_31
  }

  /** The first key in the window: computed in 32 bits, not below zero. */
  function Start(qpos: nat, window: int): nat {
    if window <= 0 then 0
    else
      var lower := AsI32(qpos - window + 1);
      if lower > 0 then lower else 0
  }

  /** One call of the prefill reference: queries, keys and values, the position of the first query, the
      window. */
  datatype Batch<F> = Batch(q: seq<F>, k: seq<F>, v: seq<F>, nQ: nat, nK: nat, offset: nat, window: int)

  predicate Fits<F>(h: Heads, b: Batch<F>) {
    IsQuery(h, b.q, b.nQ) && IsCache(h, b.k, b.nK) && IsCache(h, b.v, b.nK)
  }

  /** What the prefill reference owes element `(qt, qh, d)`. */
  function Output<F>(m: Math<F>, h: Heads, b: Batch<F>, qt: nat, qh: nat, d: nat): F
    requires Grouped(h) && Fits(h, b)
    requires qt < b.nQ && qh < h.q && d < h.dim
  {
    var from, to := Start(b.offset + qt, b.window), Limit(b.offset + qt, b.nK);
    if from >= to then m.zero
    else
      var kvh := KvHead(h, qh);
      Attend(m, QueryRow(h, b.q, b.nQ, qt, qh), CacheRows(h, b.k, b.nK, kvh, from, to), CacheRows(h, b.v, b.nK, kvh, from, to), d)
  }

  // ----- The loop nests -----

  /** The output of a head is at `base`. */
  ghost predicate HoldsHead<F>(m: Math<F>, q: seq<F>, ks: seq<seq<F>>, vs: seq<seq<F>>, reference: seq<F>, base: nat)
    requires |ks| == |vs| && Rows(ks, |q|) && Rows(vs, |q|)
  {
    base + |q| <= |reference| && forall d :: 0 <= d < |q| ==> reference[base + d] == Attend(m, q, ks, vs, d)
  }

  ghost predicate HoldsZeros<F>(m: Math<F>, reference: seq<F>, base: nat, n: nat) {
    base + n <= |reference| && forall i :: base <= i < base + n ==> reference[i] == m.zero
  }

  /** One query head: scores, softmax in place, then each output component. */
  method AttendHead<F(0)>(m: Math<F>, q: seq<F>, ks: seq<seq<F>>, vs: seq<seq<F>>, reference: array<F>, base: nat)
    requires |ks| == |vs| && Rows(ks, |q|) && Rows(vs, |q|) && base + |q| <= reference.Length
    modifies reference
    ensures HoldsHead(m, q, ks, vs, reference[..], base)
    ensures forall i :: 0 <= i < reference.Length && !(base <= i < base + |q|) ==> reference[i] == old(reference[i])
  {
    var scores := new F[|ks|];
    FillScores(m, q, ks, scores);
    ghost var ss := scores[..];
    SoftmaxInPlace(m, scores);
    hide WeightsOf, ScoresOf, MixOf;
    ghost var weights := scores[..];
    MixAll(m, scores, vs, reference, base, |q|);
    assert scores[..] == weights;
    forall d | 0 <= d < |q|
      ensures reference[base + d] == Attend(m, q, ks, vs, d)
    {
      assert reference[base + d] == m.store(MixOf(m, scores[..], vs, d, |vs|));
    }
  }

  method MixAll<F>(m: Math<F>, scores: array<F>, vs: seq<seq<F>>, reference: array<F>, base: nat, n: nat)
    requires scores.Length == |vs| && Rows(vs, n) && base + n <= reference.Length && scores != reference
    modifies reference
    ensures forall d :: 0 <= d < n ==> reference[base + d] == m.store(MixOf(m, scores[..], vs, d, |vs|))
    ensures forall i :: 0 <= i < reference.Length && !(base <= i < base + n) ==> reference[i] == old(reference[i])
  {
    hide MixOf;
    for d := 0 to n
      invariant forall e :: 0 <= e < d ==> reference[base + e] == m.store(MixOf(m, scores[..], vs, e, |vs|))
      invariant forall i :: 0 <= i < reference.Length && !(base <= i < base + d) ==> reference[i] == old(reference[i])
    {
      var acc := MixValues(m, scores, vs, d);
      reference[base + d] := m.store(acc);
    }
  }

  method MixValues<F>(m: Math<F>, scores: array<F>, vs: seq<seq<F>>, d: nat) returns (acc: F)
    requires scores.Length == |vs| && forall t :: 0 <= t < |vs| ==> d < |vs[t]|
    ensures acc == MixOf(m, scores[..], vs, d, |vs|)
  {
    acc := m.zero;
    for t := 0 to |vs|
      invariant acc == MixOf(m, scores[..], vs, d, t)
    {
      acc := m.mac(acc, scores[t], vs[t][d]);
    }
  }

  method FillScores<F>(m: Math<F>, q: seq<F>, ks: seq<seq<F>>, scores: array<F>)
    requires Rows(ks, |q|) && scores.Length == |ks|
    modifies scores
    ensures scores[..] == ScoresOf(m, q, ks)
  {
    for t := 0 to |ks|
      invariant forall u :: 0 <= u < t ==> scores[u] == ScoresOf(m, q, ks)[u]
    {
      var dot := m.zero;
      for d := 0 to |q|
        invariant dot == DotOf(m, q, ks[t], d)
      {
        dot := m.mac(dot, q[d], ks[t][d]);
      }
      scores[t] := m.scale(dot);
    }
  }

  method SoftmaxInPlace<F>(m: Math<F>, scores: array<F>)
    modifies scores
    ensures scores[..] == WeightsOf(m, old(scores[..]))
  {
    ghost var ss := scores[..];
    var n := scores.Length;
    var mx := m.lowest;
    for t := 0 to n
      invariant mx == MaxOf(m, ss, t)
    {
      mx := m.max(mx, scores[t]);
    }
    ghost var exps := ExpsOf(m, ss);
    var sum := m.zero;
    for t := 0 to n
      invariant forall u :: 0 <= u < t ==> scores[u] == exps[u]
      invariant forall u :: t <= u < n ==> scores[u] == ss[u]
      invariant sum == SumOf(m, exps, t)
    {
      scores[t] := m.expDiff(scores[t], mx);
      sum := m.add(sum, scores[t]);
    }
    var inv := m.inverse(sum);
    for t := 0 to n
      invariant forall u :: 0 <= u < t ==> scores[u] == WeightsOf(m, ss)[u]
      invariant forall u :: t <= u < n ==> scores[u] == exps[u]
    {
      scores[t] := m.times(scores[t], inv);
    }
  }

  /** Where the output of a query head starts. */
  function OutBase(h: Heads, qt: nat, qh: nat): nat {
    (qt * h.q + qh) * h.dim
  }

  /** The output of one query head is what the prefill reference owes. */
  ghost predicate Filled<F>(m: Math<F>, h: Heads, b: Batch<F>, reference: seq<F>, qt: nat, qh: nat)
    requires Grouped(h) && Fits(h, b) && |reference| == |b.q|
    requires qt < b.nQ && qh < h.q
  {
    DigitsFit(qt, b.nQ, qh, h.q);
    RowFits(b.nQ * h.q, h.dim, qt * h.q + qh);
    forall d :: 0 <= d < h.dim ==> reference[OutBase(h, qt, qh) + d] == Output(m, h, b, qt, qh, d)
  }

  lemma OutputRow<F>(m: Math<F>, h: Heads, b: Batch<F>, qt: nat, qh: nat)
    requires Grouped(h) && Fits(h, b) && qt < b.nQ && qh < h.q
    ensures qt * h.q + qh < b.nQ * h.q && OutBase(h, qt, qh) + h.dim <= |b.q|
  {
    DigitsFit(qt, b.nQ, qh, h.q);
    RowFits(b.nQ * h.q, h.dim, qt * h.q + qh);
  }

  lemma FilledStays<F>(m: Math<F>, h: Heads, b: Batch<F>, was: seq<F>, now: seq<F>, r: nat, qt: nat, qh: nat)
    requires Grouped(h) && Fits(h, b) && |was| == |now| == |b.q|
    requires qt < b.nQ && qh < h.q && qt * h.q + qh < r
    requires forall i :: 0 <= i < |was| && i < r * h.dim ==> now[i] == was[i]
    requires Filled(m, h, b, was, qt, qh)
    ensures Filled(m, h, b, now, qt, qh)
  {
    hide Output;
    var s := qt * h.q + qh;
    OutputRow(m, h, b, qt, qh);
    RowFits(r, h.dim, s);
  }

  /** `run_shape`'s reference: every element is what its query owes over the keys it sees. */
  method Prefill<F(0)>(m: Math<F>, h: Heads, b: Batch<F>) returns (reference: array<F>)
    requires Grouped(h) && Fits(h, b)
    ensures reference.Length == |b.q|
    ensures forall qt, qh :: 0 <= qt < b.nQ && 0 <= qh < h.q ==> Filled(m, h, b, reference[..], qt, qh)
  {
    hide Filled, OutBase, IsQuery, IsCache;
    reference := new F[|b.q|](_ => m.zero);
    for qt := 0 to b.nQ
      invariant forall s, u :: 0 <= s < qt && 0 <= u < h.q ==> Filled(m, h, b, reference[..], s, u)
    {
      for qh := 0 to h.q
        invariant forall s, u :: 0 <= s < qt && 0 <= u < h.q ==> Filled(m, h, b, reference[..], s, u)
        invariant forall u :: 0 <= u < qh ==> Filled(m, h, b, reference[..], qt, u)
      {
        ghost var before := reference[..];
        PrefillHead(m, h, b, reference, qt, qh);
        EarlierStay(m, h, b, before, reference[..], qt, qh);
      }
    }
  }

  lemma EarlierStay<F>(m: Math<F>, h: Heads, b: Batch<F>, was: seq<F>, now: seq<F>, qt: nat, qh: nat)
    requires Grouped(h) && Fits(h, b) && |was| == |now| == |b.q|
    requires qt < b.nQ && qh < h.q
    requires forall i :: 0 <= i < |was| && i < OutBase(h, qt, qh) ==> now[i] == was[i]
    requires forall s, u :: 0 <= s < qt && 0 <= u < h.q ==> Filled(m, h, b, was, s, u)
    requires forall u :: 0 <= u < qh ==> Filled(m, h, b, was, qt, u)
    ensures forall s, u :: 0 <= s < qt && 0 <= u < h.q ==> Filled(m, h, b, now, s, u)
    ensures forall u :: 0 <= u < qh ==> Filled(m, h, b, now, qt, u)
  {
    hide Filled;
    forall s: nat, u: nat | s < qt && u < h.q
      ensures Filled(m, h, b, now, s, u)
    {
      DigitsFit(s, qt, u, h.q);
      FilledStays(m, h, b, was, now, qt * h.q + qh, s, u);
    }
    forall u: nat | u < qh
      ensures Filled(m, h, b, now, qt, u)
    {
      FilledStays(m, h, b, was, now, qt * h.q + qh, qt, u);
    }
  }

  method PrefillHead<F(0)>(m: Math<F>, h: Heads, b: Batch<F>, reference: array<F>, qt: nat, qh: nat)
    requires Grouped(h) && Fits(h, b) && reference.Length == |b.q|
    requires qt < b.nQ && qh < h.q
    modifies reference
    ensures Filled(m, h, b, reference[..], qt, qh)
    ensures forall i :: 0 <= i < reference.Length && i < OutBase(h, qt, qh) ==> reference[i] == old(reference[i])
  {
    assert Limit(b.offset + qt, b.nK) <= b.nK;
    hide Attend, QueryRow, CacheRows, KvHead, Start, Limit, IsQuery, IsCache, OutBase, Output, Filled, HoldsHead, HoldsZeros;
    OutputRow(m, h, b, qt, qh);
    var base := OutBase(h, qt, qh);
    var from, to := Start(b.offset + qt, b.window), Limit(b.offset + qt, b.nK);
    if from >= to {
      ZeroHead(m, reference, base, h.dim);
    } else {
      var kvh := KvHead(h, qh);
      AttendHead(m, QueryRow(h, b.q, b.nQ, qt, qh), CacheRows(h, b.k, b.nK, kvh, from, to), CacheRows(h, b.v, b.nK, kvh, from, to), reference, base);
    }
    HeadIsFilled(m, h, b, reference[..], qt, qh);
  }

  lemma HeadIsFilled<F>(m: Math<F>, h: Heads, b: Batch<F>, reference: seq<F>, qt: nat, qh: nat)
    requires Grouped(h) && Fits(h, b) && |reference| == |b.q|
    requires qt < b.nQ && qh < h.q && OutBase(h, qt, qh) + h.dim <= |reference|
    requires var from, to := Start(b.offset + qt, b.window), Limit(b.offset + qt, b.nK);
             var base, kvh := OutBase(h, qt, qh), KvHead(h, qh);
             if from >= to then HoldsZeros(m, reference, base, h.dim)
             else HoldsHead(m, QueryRow(h, b.q, b.nQ, qt, qh), CacheRows(h, b.k, b.nK, kvh, from, to), CacheRows(h, b.v, b.nK, kvh, from, to),
                            reference, base)
    ensures Filled(m, h, b, reference, qt, qh)
  {
    hide Attend, QueryRow, CacheRows, KvHead, Start, Limit, IsQuery, IsCache, OutBase;
  }

  method ZeroHead<F>(m: Math<F>, reference: array<F>, base: nat, n: nat)
    requires base + n <= reference.Length
    modifies reference
    ensures HoldsZeros(m, reference[..], base, n)
    ensures forall i :: 0 <= i < reference.Length && !(base <= i < base + n) ==> reference[i] == old(reference[i])
  {
    for d := base to base + n
      invariant forall i :: base <= i < d ==> reference[i] == m.zero
      invariant forall i :: 0 <= i < reference.Length && !(base <= i < d) ==> reference[i] == old(reference[i])
    {
      reference[d] := m.zero;
    }
  }

  // ----- Decode -----

  /** What the decode reference owes: one query over all `n` tokens. */
  function DecodeOutput<F>(m: Math<F>, h: Heads, q: seq<F>, k: seq<F>, v: seq<F>, n: nat, qh: nat, d: nat): F
    requires Grouped(h) && IsQuery(h, q, 1) && IsCache(h, k, n) && IsCache(h, v, n) && qh < h.q && d < h.dim
  {
    var kvh := KvHead(h, qh);
    Attend(m, QueryRow(h, q, 1, 0, qh), CacheRows(h, k, n, kvh, 0, n), CacheRows(h, v, n, kvh, 0, n), d)
  }

  ghost predicate Decoded<F>(m: Math<F>, h: Heads, q: seq<F>, k: seq<F>, v: seq<F>, n: nat, reference: seq<F>, qh: nat)
    requires Grouped(h) && IsQuery(h, q, 1) && IsCache(h, k, n) && IsCache(h, v, n) && qh < h.q && |reference| == |q|
  {
    RowFits(h.q, h.dim, qh);
    forall d :: 0 <= d < h.dim ==> reference[qh * h.dim + d] == DecodeOutput(m, h, q, k, v, n, qh, d)
  }

  method Decode<F(0)>(m: Math<F>, h: Heads, q: seq<F>, k: seq<F>, v: seq<F>, n: nat) returns (reference: array<F>)
    requires Grouped(h) && IsQuery(h, q, 1) && IsCache(h, k, n) && IsCache(h, v, n)
    ensures reference.Length == |q|
    ensures forall qh :: 0 <= qh < h.q ==> Decoded(m, h, q, k, v, n, reference[..], qh)
  {
    hide Attend, QueryRow, CacheRows, KvHead;
    reference := new F[|q|](_ => m.zero);
    for qh := 0 to h.q
      invariant forall u :: 0 <= u < qh ==> Decoded(m, h, q, k, v, n, reference[..], u)
    {
      ghost var before := reference[..];
      var kvh := KvHead(h, qh);
      RowFits(h.q, h.dim, qh);
      AttendHead(m, QueryRow(h, q, 1, 0, qh), CacheRows(h, k, n, kvh, 0, n), CacheRows(h, v, n, kvh, 0, n), reference, qh * h.dim);
      DecodedStay(m, h, q, k, v, n, before, reference[..], qh);
    }
  }

  lemma DecodedStay<F>(m: Math<F>, h: Heads, q: seq<F>, k: seq<F>, v: seq<F>, n: nat, a: seq<F>, b: seq<F>, qh: nat)
    requires Grouped(h) && IsQuery(h, q, 1) && IsCache(h, k, n) && IsCache(h, v, n) && qh < h.q && |a| == |b| == |q|
    requires forall i :: 0 <= i < |a| && i < qh * h.dim ==> b[i] == a[i]
    requires forall u :: 0 <= u < qh ==> Decoded(m, h, q, k, v, n, a, u)
    ensures forall u :: 0 <= u < qh ==> Decoded(m, h, q, k, v, n, b, u)
  {
    hide DecodeOutput, Decoded;
    forall u | 0 <= u < qh
      ensures Decoded(m, h, q, k, v, n, b, u)
    {
      OneDecodedStays(m, h, q, k, v, n, a, b, qh, u);
    }
  }

  lemma OneDecodedStays<F>(m: Math<F>, h: Heads, q: seq<F>, k: seq<F>, v: seq<F>, n: nat, a: seq<F>, b: seq<F>, qh: nat, u: nat)
    requires Grouped(h) && IsQuery(h, q, 1) && IsCache(h, k, n) && IsCache(h, v, n) && u < qh < h.q && |a| == |b| == |q|
    requires forall i :: 0 <= i < |a| && i < qh * h.dim ==> b[i] == a[i]
    requires Decoded(m, h, q, k, v, n, a, u)
    ensures Decoded(m, h, q, k, v, n, b, u)
  {
    hide DecodeOutput;
    RowFits(qh, h.dim, u);
  }

  // ----- What an output depends on -----

  /** Two caches hold the same rows `from..to` of a key head. */
  ghost predicate SameRows<F>(h: Heads, c1: seq<F>, n1: nat, c2: seq<F>, n2: nat, from: nat, to: nat, kvh: nat)
    requires IsCache(h, c1, n1) && IsCache(h, c2, n2) && to <= n1 && to <= n2 && kvh < h.kv
  {
    forall t :: from <= t < to ==> CacheRow(h, c1, n1, t, kvh) == CacheRow(h, c2, n2, t, kvh)
  }

  /** Query `qt1` of one call is query `qt2` of another, and sees the same rows of head `qh`'s keys and
      values. */
  ghost predicate SeesTheSame<F>(h: Heads, b1: Batch<F>, b2: Batch<F>, qt1: nat, qt2: nat, qh: nat)
    requires Grouped(h) && Fits(h, b1) && Fits(h, b2) && qt1 < b1.nQ && qt2 < b2.nQ && qh < h.q
  {
    var from, to, kvh := Start(b1.offset + qt1, b1.window), Limit(b1.offset + qt1, b1.nK), KvHead(h, qh);
    && from == Start(b2.offset + qt2, b2.window) && to == Limit(b2.offset + qt2, b2.nK)
    && QueryRow(h, b1.q, b1.nQ, qt1, qh) == QueryRow(h, b2.q, b2.nQ, qt2, qh)
    && SameRows(h, b1.k, b1.nK, b2.k, b2.nK, from, to, kvh) && SameRows(h, b1.v, b1.nK, b2.v, b2.nK, from, to, kvh)
  }

  lemma SameRowsAreSame<F>(h: Heads, c1: seq<F>, n1: nat, c2: seq<F>, n2: nat, from: nat, to: nat, kvh: nat)
    requires IsCache(h, c1, n1) && IsCache(h, c2, n2) && from <= to <= n1 && to <= n2 && kvh < h.kv
    requires SameRows(h, c1, n1, c2, n2, from, to, kvh)
    ensures CacheRows(h, c1, n1, kvh, from, to) == CacheRows(h, c2, n2, kvh, from, to)
  {
    hide CacheRow, IsCache;
  }

  lemma OutputIs<F>(m: Math<F>, h: Heads, b: Batch<F>, qt: nat, qh: nat, d: nat, from: nat, to: nat, kvh: nat)
    requires Grouped(h) && Fits(h, b) && qt < b.nQ && qh < h.q && d < h.dim && kvh == KvHead(h, qh)
    requires from == Start(b.offset + qt, b.window) && to == Limit(b.offset + qt, b.nK)
    ensures Output(m, h, b, qt, qh, d) ==
            if from >= to then m.zero
            else Attend(m, QueryRow(h, b.q, b.nQ, qt, qh), CacheRows(h, b.k, b.nK, kvh, from, to), CacheRows(h, b.v, b.nK, kvh, from, to), d)
  {
    hide Start, QueryRow, CacheRows, Attend, KvHead, IsQuery, IsCache;
  }

  /** An output depends on nothing else. */
  lemma OutputIsLocal<F>(m: Math<F>, h: Heads, b1: Batch<F>, b2: Batch<F>, qt1: nat, qt2: nat, qh: nat, d: nat)
    requires Grouped(h) && Fits(h, b1) && Fits(h, b2) && qt1 < b1.nQ && qt2 < b2.nQ && qh < h.q && d < h.dim
    requires SeesTheSame(h, b1, b2, qt1, qt2, qh)
    ensures Output(m, h, b1, qt1, qh, d) == Output(m, h, b2, qt2, qh, d)
  {
    hide Output, Start, SameRows, QueryRow, CacheRows, Attend, KvHead, IsQuery, IsCache;
    var from, to, kvh := Start(b1.offset + qt1, b1.window), Limit(b1.offset + qt1, b1.nK), KvHead(h, qh);
    OutputIs(m, h, b1, qt1, qh, d, from, to, kvh);
    OutputIs(m, h, b2, qt2, qh, d, from, to, kvh);
    if from < to {
      SameRowsAreSame(h, b1.k, b1.nK, b2.k, b2.nK, from, to, kvh);
      SameRowsAreSame(h, b1.v, b1.nK, b2.v, b2.nK, from, to, kvh);
    }
  }

  /** A row of the first of two arrays joined, and of the second. */
  lemma FlatRowOfJoined<F>(xs: seq<F>, ys: seq<F>, a: nat, b: nat, n: nat, r: nat)
    requires |xs| == a * n && |ys| == b * n && r < a + b
    ensures |xs + ys| == (a + b) * n
    ensures FlatRow(xs + ys, a + b, n, r) == if r < a then FlatRow(xs, a, n, r) else FlatRow(ys, b, n, r - a)
  {
    assert (a + b) * n == a * n + b * n;
    if r < a {
      RowFits(a, n, r);
    } else {
      RowFits(b, n, r - a);
      assert r * n == a * n + (r - a) * n;
    }
  }

  lemma Distributes(a: nat, b: nat, m: nat)
    ensures (a + b) * m == a * m + b * m
  {
  }

  lemma QueriesJoin<F>(h: Heads, q1: seq<F>, q2: seq<F>, n1: nat, n2: nat)
    requires IsQuery(h, q1, n1) && IsQuery(h, q2, n2)
    ensures IsQuery(h, q1 + q2, n1 + n2)
  {
    Distributes(n1, n2, h.q);
    Distributes(n1 * h.q, n2 * h.q, h.dim);
  }

  lemma QueryRowOfJoined<F>(h: Heads, q1: seq<F>, q2: seq<F>, n1: nat, n2: nat, qt: nat, qh: nat)
    requires IsQuery(h, q1, n1) && IsQuery(h, q2, n2) && qt < n1 + n2 && qh < h.q
    ensures IsQuery(h, q1 + q2, n1 + n2)
    ensures QueryRow(h, q1 + q2, n1 + n2, qt, qh) == if qt < n1 then QueryRow(h, q1, n1, qt, qh) else QueryRow(h, q2, n2, qt - n1, qh)
  {
    hide FlatRow, IsQuery, QueryRow;
    var r := qt * h.q + qh;
    QueriesJoin(h, q1, q2, n1, n2);
    Distributes(n1, n2, h.q);
    QueryRowIs(h, q1 + q2, n1 + n2, qt, qh);
    SizesOfQueries(h, q1, q2, n1, n2);
    if qt < n1 {
      QueryRowIs(h, q1, n1, qt, qh);
    } else {
      QueryRowIs(h, q2, n2, qt - n1, qh);
      Distributes(n1, qt - n1, h.q);
    }
    FlatRowOfJoined(q1, q2, n1 * h.q, n2 * h.q, h.dim, r);
  }

  lemma SizesOfQueries<F>(h: Heads, q1: seq<F>, q2: seq<F>, n1: nat, n2: nat)
    requires IsQuery(h, q1, n1) && IsQuery(h, q2, n2)
    ensures |q1| == n1 * h.q * h.dim && |q2| == n2 * h.q * h.dim
  {
  }

  lemma QueryRowIs<F>(h: Heads, q: seq<F>, tokens: nat, qt: nat, qh: nat)
    requires IsQuery(h, q, tokens) && qt < tokens && qh < h.q
    ensures |q| == tokens * h.q * h.dim && qt * h.q + qh < tokens * h.q
    ensures QueryRow(h, q, tokens, qt, qh) == FlatRow(q, tokens * h.q, h.dim, qt * h.q + qh)
  {
    DigitsFit(qt, tokens, qh, h.q);
  }

  /** A cache as it was when it held `n` tokens. */
  function Prefix<F>(h: Heads, c: seq<F>, tokens: nat, n: nat): (p: seq<F>)
    requires IsCache(h, c, tokens) && n <= tokens
    ensures IsCache(h, p, n)
  {
    PrefixFits(h, n, tokens);
    c[..n * h.kv * h.dim]
  }

  lemma PrefixFits(h: Heads, n: nat, tokens: nat)
    requires n <= tokens
    ensures n * h.kv * h.dim <= tokens * h.kv * h.dim
  {
    TimesMonotone(n, tokens, h.kv);
    TimesMonotone(n * h.kv, tokens * h.kv, h.dim);
  }

  lemma CacheRowOfPrefix<F>(h: Heads, c: seq<F>, tokens: nat, n: nat, t: nat, kvh: nat)
    requires IsCache(h, c, tokens) && t < n <= tokens && kvh < h.kv
    ensures CacheRow(h, Prefix(h, c, tokens, n), n, t, kvh) == CacheRow(h, c, tokens, t, kvh)
  {
    PrefixFits(h, n, tokens);
    DigitsFit(t, n, kvh, h.kv);
    DigitsFit(t, tokens, kvh, h.kv);
    RowFits(n * h.kv, h.dim, t * h.kv + kvh);
    RowFits(tokens * h.kv, h.dim, t * h.kv + kvh);
  }

  /** How many queries the first `n` batches hold, and those queries. */
  function Before(ns: seq<nat>, n: nat): nat
    requires n <= |ns|
  {
    if n == 0 then 0 else Before(ns, n - 1) + ns[n - 1]
  }

  function Joined<T>(parts: seq<seq<T>>, n: nat): seq<T>
    requires n <= |parts|
  {
    if n == 0 then [] else Joined(parts, n - 1) + parts[n - 1]
  }

  ghost predicate AreQueries<F>(h: Heads, qs: seq<seq<F>>, ns: seq<nat>) {
    |qs| == |ns| && forall j :: 0 <= j < |qs| ==> IsQuery(h, qs[j], ns[j])
  }

  lemma {:induction false} BeforeGrows(ns: seq<nat>, j: nat, n: nat)
    requires j <= n <= |ns|
    ensures Before(ns, j) <= Before(ns, n)
  {
    if j < n {
      BeforeGrows(ns, j, n - 1);
    }
  }

  lemma {:induction false} JoinedIsQuery<F>(h: Heads, qs: seq<seq<F>>, ns: seq<nat>, n: nat)
    requires AreQueries(h, qs, ns) && n <= |qs|
    ensures IsQuery(h, Joined(qs, n), Before(ns, n))
  {
    if n > 0 {
      JoinedIsQuery(h, qs, ns, n - 1);
      QueriesJoin(h, Joined(qs, n - 1), qs[n - 1], Before(ns, n - 1), ns[n - 1]);
    }
  }

  lemma LastBatch<F>(h: Heads, qs: seq<seq<F>>, ns: seq<nat>, n: nat)
    requires AreQueries(h, qs, ns) && 0 < n <= |qs| == |ns|
    ensures IsQuery(h, qs[n - 1], ns[n - 1])
    ensures Joined(qs, n) == Joined(qs, n - 1) + qs[n - 1] && Before(ns, n) == Before(ns, n - 1) + ns[n - 1]
  {
    hide IsQuery;
  }

  /** A query of one batch, among those of the first `n`. */
  lemma {:induction false} QueryRowOfBatch<F>(h: Heads, qs: seq<seq<F>>, ns: seq<nat>, n: nat, j: nat, qt: nat, qh: nat)
    requires AreQueries(h, qs, ns) && j < n <= |qs| && qt < ns[j] && qh < h.q
    ensures IsQuery(h, Joined(qs, n), Before(ns, n)) && IsQuery(h, qs[j], ns[j]) && Before(ns, j) + qt < Before(ns, n)
    ensures QueryRow(h, Joined(qs, n), Before(ns, n), Before(ns, j) + qt, qh) == QueryRow(h, qs[j], ns[j], qt, qh)
  {
    assert IsQuery(h, qs[j], ns[j]) && |ns| == |qs|;
    hide QueryRow, IsQuery, AreQueries, Joined, Before;
    JoinedIsQuery(h, qs, ns, n - 1);
    LastBatch(h, qs, ns, n);
    var q1, q2, n1, n2 := Joined(qs, n - 1), qs[n - 1], Before(ns, n - 1), ns[n - 1];
    if j < n - 1 {
      QueryRowOfBatch(h, qs, ns, n - 1, j, qt, qh);
      QueryRowOfJoined(h, q1, q2, n1, n2, Before(ns, j) + qt, qh);
    } else {
      QueryRowOfJoined(h, q1, q2, n1, n2, n1 + qt, qh);
    }
  }

  lemma PrefixAgrees<F>(h: Heads, c: seq<F>, tokens: nat, n: nat, from: nat, to: nat, kvh: nat)
    requires IsCache(h, c, tokens) && n <= tokens && to <= n && kvh < h.kv
    ensures SameRows(h, c, tokens, Prefix(h, c, tokens, n), n, from, to, kvh)
  {
    hide CacheRow, Prefix, IsCache;
    forall t | from <= t < to
      ensures CacheRow(h, c, tokens, t, kvh) == CacheRow(h, Prefix(h, c, tokens, n), n, t, kvh)
    {
      CacheRowOfPrefix(h, c, tokens, n, t, kvh);
    }
  }

  /** Batch `j` of a stream: its own queries at its own offset, against the cache when it held `n` tokens. */
  function Part<F>(h: Heads, all: Batch<F>, q: seq<F>, nQ: nat, before: nat, n: nat): (b: Batch<F>)
    requires Fits(h, all) && IsQuery(h, q, nQ) && n <= all.nK
    ensures Fits(h, b)
  {
    Batch(q, Prefix(h, all.k, all.nK, n), Prefix(h, all.v, all.nK, n), nQ, n, all.offset + before, all.window)
  }

  lemma SeesOnlyPrefix<F>(h: Heads, all: Batch<F>, q: seq<F>, nQ: nat, before: nat, n: nat, qt: nat, qh: nat)
    requires Grouped(h) && Fits(h, all) && IsQuery(h, q, nQ) && n <= all.nK
    requires before + qt < all.nQ && qt < nQ && qh < h.q && all.offset + before + qt < n
    requires QueryRow(h, all.q, all.nQ, before + qt, qh) == QueryRow(h, q, nQ, qt, qh)
    ensures SeesTheSame(h, all, Part(h, all, q, nQ, before, n), before + qt, qt, qh)
  {
    var pos, kvh := all.offset + before + qt, KvHead(h, qh);
    assert Limit(pos, all.nK) == Limit(pos, n) <= n;
    assert all.offset + (before + qt) == pos;
    hide QueryRow, CacheRow, KvHead, IsQuery, IsCache, Prefix, Start, Limit, SameRows, Grouped, AsI32;
    PrefixAgrees(h, all.k, all.nK, n, Start(pos, all.window), Limit(pos, all.nK), kvh);
    PrefixAgrees(h, all.v, all.nK, n, Start(pos, all.window), Limit(pos, all.nK), kvh);
  }

  /** Streaming prefill, in any number of batches: batch `j`, run at its own offset against the cache as
      it then is - `n` tokens, its own among them - gives what one prefill of all queries against the
      full cache gives. */
  lemma PrefillStreams<F>(m: Math<F>, h: Heads, all: Batch<F>, qs: seq<seq<F>>, ns: seq<nat>, j: nat, n: nat, qt: nat, qh: nat, d: nat)
    requires Grouped(h) && Fits(h, all) && AreQueries(h, qs, ns) && all.q == Joined(qs, |qs|) && all.nQ == Before(ns, |ns|)
    requires j < |qs| && qt < ns[j] && qh < h.q && d < h.dim
    requires all.offset + Before(ns, j + 1) <= n <= all.nK
    ensures IsQuery(h, qs[j], ns[j]) && Before(ns, j) + qt < all.nQ
    ensures Output(m, h, all, Before(ns, j) + qt, qh, d)
         == Output(m, h, Part(h, all, qs[j], ns[j], Before(ns, j), n), qt, qh, d)
  {
    QueryRowOfBatch(h, qs, ns, |qs|, j, qt, qh);
    assert Before(ns, j + 1) == Before(ns, j) + ns[j];
    hide QueryRow, Output, Joined, IsQuery, IsCache, AreQueries, Part, Before, Grouped, SeesTheSame, Fits;
    SeesOnlyPrefix(h, all, qs[j], ns[j], Before(ns, j), n, qt, qh);
    OutputIsLocal(m, h, all, Part(h, all, qs[j], ns[j], Before(ns, j), n), Before(ns, j) + qt, qt, qh, d);
  }

  /** A single query at the last position, without a window, is a decode step. */
  lemma LastQueryIsDecode<F>(m: Math<F>, h: Heads, b: Batch<F>, qh: nat, d: nat)
    requires Grouped(h) && Fits(h, b) && b.nQ == 1 && b.nK > 0 && b.offset == b.nK - 1 && b.window <= 0 && qh < h.q && d < h.dim
    ensures Output(m, h, b, 0, qh, d) == DecodeOutput(m, h, b.q, b.k, b.v, b.nK, qh, d)
  {
  }

  // ----- The window -----

  /** The window start a position is meant to have. */
  function WindowStart(qpos: nat, window: int): nat {
    if window <= 0 || window > qpos then 0 else qpos - window + 1
  }

  lemma AsI32Is(x: int)
    requires -TWO_31 <= x
    ensures AsI32(x) == x <==> x < TWO_31
    ensures x >= TWO_31 ==> AsI32(x) < x
  {
  }

  /** The 32-bit computation finds the window start exactly when that start fits 32 bits. */
  lemma StartIsWindowStartIff(qpos: nat, window: int)
    requires window < TWO_31
    ensures Start(qpos, window) == WindowStart(qpos, window) <==> WindowStart(qpos, window) < TWO_31
  {
    if window > 0 {
      AsI32Is(qpos - window + 1);
    }
  }

  /** The keys a position sees: the last `window` of those up to itself; a window no smaller than the
      position's reach, and only such a window, hides nothing. */
  lemma WindowHides(qpos: nat, nK: nat, window: int)
    requires nK > qpos && window < TWO_31 && WindowStart(qpos, window) < TWO_31
    ensures Limit(qpos, nK) - Start(qpos, window) == if window <= 0 || window > qpos then qpos + 1 else window
    ensures Start(qpos, window) == Start(qpos, 0) <==> window <= 0 || window > qpos
  {
    StartIsWindowStartIff(qpos, window);
  }

  lemma WideWindowChangesNothing<F>(m: Math<F>, h: Heads, b: Batch<F>, qt: nat, qh: nat, d: nat)
    requires Grouped(h) && Fits(h, b) && qt < b.nQ && qh < h.q && d < h.dim
    requires b.offset + qt < b.window < TWO_31
    ensures Output(m, h, b, qt, qh, d) == Output(m, h, b.(window := 0), qt, qh, d)
  {
    hide AsI32, Attend, CacheRows, QueryRow, KvHead, IsQuery, IsCache, Limit;
    WindowHides(b.offset + qt, b.offset + qt + 1, b.window);
    hide Start;
  }
}
