/** The attention references over the reals, said of the flat arrays: every output is the average of the
    values of its key head, weighted by the exponentials of its query's dot products with the keys. */
module AttentionReal {
  import Sums
  import S = SplitK
  import A = Attention
  import D = SplitKDecode

  // ----- The formula -----

  lemma PlacesFit(h: A.Heads, tokens: nat, heads: nat, t: nat, hd: nat)
    requires t < tokens && hd < heads
    ensures (t * heads + hd) * h.dim + h.dim <= tokens * heads * h.dim
  {
    A.DigitsFit(t, tokens, hd, heads);
    A.RowFits(tokens * heads, h.dim, t * heads + hd);
  }

  /** The scaled dot product of query `(qt, qh)` with the key of token `t` and key head `kvh`. */
  function Score(scale: real -> real, h: A.Heads, b: A.Batch<real>, qt: nat, qh: nat, kvh: nat, t: nat): real
    requires A.Fits(h, b) && qt < b.nQ && qh < h.q && kvh < h.kv && t < b.nK
  {
    PlacesFit(h, b.nQ, h.q, qt, qh);
    PlacesFit(h, b.nK, h.kv, t, kvh);
    scale(Sums.DotAt(b.q, (qt * h.q + qh) * h.dim, b.k, (t * h.kv + kvh) * h.dim, h.dim))
  }

  /** Component `d` of the value of token `t` and key head `kvh`. */
  function Value(h: A.Heads, b: A.Batch<real>, kvh: nat, t: nat, d: nat): real
    requires A.Fits(h, b) && kvh < h.kv && t < b.nK && d < h.dim
  {
    PlacesFit(h, b.nK, h.kv, t, kvh);
    b.v[(t * h.kv + kvh) * h.dim + d]
  }

  /** The sum of the exponentials of the scores of tokens `from..to`. */
  function WeightSum(e: real -> real, scale: real -> real, h: A.Heads, b: A.Batch<real>, qt: nat, qh: nat, kvh: nat, from: nat, to: nat): real
    requires A.Fits(h, b) && qt < b.nQ && qh < h.q && kvh < h.kv && from <= to <= b.nK
  {
    if from == to then 0.0
    else WeightSum(e, scale, h, b, qt, qh, kvh, from, to - 1) + e(Score(scale, h, b, qt, qh, kvh, to - 1))
  }

  /** The same sum with every exponential times the token's value. */
  function ValueSum(e: real -> real, scale: real -> real, h: A.Heads, b: A.Batch<real>, qt: nat, qh: nat, kvh: nat, d: nat, from: nat, to: nat): real
    requires A.Fits(h, b) && qt < b.nQ && qh < h.q && kvh < h.kv && d < h.dim && from <= to <= b.nK
  {
    if from == to then 0.0
    else ValueSum(e, scale, h, b, qt, qh, kvh, d, from, to - 1) + e(Score(scale, h, b, qt, qh, kvh, to - 1)) * Value(h, b, kvh, to - 1, d)
  }

  lemma {:induction false} WeightSumIsPositive(e: real -> real, scale: real -> real, h: A.Heads, b: A.Batch<real>,
                                               qt: nat, qh: nat, kvh: nat, from: nat, to: nat)
    requires S.IsExp(e) && A.Fits(h, b) && qt < b.nQ && qh < h.q && kvh < h.kv && from <= to <= b.nK
    ensures WeightSum(e, scale, h, b, qt, qh, kvh, from, to) >= 0.0 && (from < to ==> WeightSum(e, scale, h, b, qt, qh, kvh, from, to) > 0.0)
  {
    if from < to {
      hide Score;
      WeightSumIsPositive(e, scale, h, b, qt, qh, kvh, from, to - 1);
      assert e(Score(scale, h, b, qt, qh, kvh, to - 1)) > 0.0;
    }
  }

  /** The weighted average of the values of tokens `from..to`. */
  function Average(e: real -> real, scale: real -> real, h: A.Heads, b: A.Batch<real>, qt: nat, qh: nat, kvh: nat, d: nat, from: nat, to: nat): real
    requires S.IsExp(e) && A.Fits(h, b) && qt < b.nQ && qh < h.q && kvh < h.kv && d < h.dim && from < to <= b.nK
  {
    WeightSumIsPositive(e, scale, h, b, qt, qh, kvh, from, to);
    ValueSum(e, scale, h, b, qt, qh, kvh, d, from, to) / WeightSum(e, scale, h, b, qt, qh, kvh, from, to)
  }

  // ----- The references compute it -----

  /** The score of the references is the dot product of query and key, scaled. */
  lemma {:induction false} DotOfIsDot(m: A.Math<real>, x: seq<real>, q: seq<real>, a: nat, y: seq<real>, k: seq<real>, b: nat, n: nat)
    requires m.zero == 0.0 && forall s, u, w :: m.mac(s, u, w) == s + u * w
    requires n <= |x| == |y| && a + |x| <= |q| && b + |y| <= |k| && x == q[a..a + |x|] && y == k[b..b + |y|]
    ensures A.DotOf(m, x, y, n) == Sums.DotAt(q, a, k, b, n)
  {
    if n > 0 {
      DotOfIsDot(m, x, q, a, y, k, b, n - 1);
      assert x[n - 1] == q[a + n - 1] && y[n - 1] == k[b + n - 1];
      assert A.DotOf(m, x, y, n) == A.DotOf(m, x, y, n - 1) + x[n - 1] * y[n - 1];
    }
  }

  lemma RealMacs(e: real -> real, scale: real -> real, store: real -> real, lowest: real)
    ensures var m := D.RealMath(e, scale, store, lowest);
            m.zero == 0.0 && m.scale == scale && m.store == store && forall s, u, w :: m.mac(s, u, w) == s + u * w
  {
  }

  lemma QueryRowIs(h: A.Heads, q: seq<real>, tokens: nat, qt: nat, qh: nat)
    requires A.IsQuery(h, q, tokens) && qt < tokens && qh < h.q
    ensures var at := (qt * h.q + qh) * h.dim; at + h.dim <= |q| && A.QueryRow(h, q, tokens, qt, qh) == q[at..at + h.dim]
  {
    PlacesFit(h, tokens, h.q, qt, qh);
  }

  lemma CacheRowIs(h: A.Heads, c: seq<real>, tokens: nat, t: nat, kvh: nat)
    requires A.IsCache(h, c, tokens) && t < tokens && kvh < h.kv
    ensures var at := (t * h.kv + kvh) * h.dim; at + h.dim <= |c| && A.CacheRow(h, c, tokens, t, kvh) == c[at..at + h.dim]
  {
    PlacesFit(h, tokens, h.kv, t, kvh);
  }

  lemma ScoreOfRows(e: real -> real, scale: real -> real, store: real -> real, lowest: real,
                    x: seq<real>, q: seq<real>, a: nat, y: seq<real>, k: seq<real>, b: nat, n: nat)
    requires |x| == |y| == n && a + n <= |q| && b + n <= |k| && x == q[a..a + n] && y == k[b..b + n]
    ensures A.ScoreOf(D.RealMath(e, scale, store, lowest), x, y) == scale(Sums.DotAt(q, a, k, b, n))
  {
    RealMacs(e, scale, store, lowest);
    hide D.RealMath, Sums.DotAt, A.DotOf;
    DotOfIsDot(D.RealMath(e, scale, store, lowest), x, q, a, y, k, b, n);
  }

  lemma ScoreIsScore(e: real -> real, scale: real -> real, store: real -> real, lowest: real, h: A.Heads, b: A.Batch<real>,
                     qt: nat, qh: nat, kvh: nat, t: nat)
    requires A.Fits(h, b) && qt < b.nQ && qh < h.q && kvh < h.kv && t < b.nK
    ensures A.ScoreOf(D.RealMath(e, scale, store, lowest), A.QueryRow(h, b.q, b.nQ, qt, qh), A.CacheRow(h, b.k, b.nK, t, kvh))
         == Score(scale, h, b, qt, qh, kvh, t)
  {
    hide D.RealMath, Sums.DotAt, A.QueryRow, A.CacheRow, A.ScoreOf;
    QueryRowIs(h, b.q, b.nQ, qt, qh);
    CacheRowIs(h, b.k, b.nK, t, kvh);
    hide A.IsQuery, A.IsCache;
    ScoreOfRows(e, scale, store, lowest, A.QueryRow(h, b.q, b.nQ, qt, qh), b.q, (qt * h.q + qh) * h.dim,
                A.CacheRow(h, b.k, b.nK, t, kvh), b.k, (t * h.kv + kvh) * h.dim, h.dim);
  }

  lemma ValueIsValue(h: A.Heads, b: A.Batch<real>, kvh: nat, t: nat, d: nat)
    requires A.Fits(h, b) && kvh < h.kv && t < b.nK && d < h.dim
    ensures A.CacheRow(h, b.v, b.nK, t, kvh)[d] == Value(h, b, kvh, t, d)
  {
    CacheRowIs(h, b.v, b.nK, t, kvh);
    hide A.CacheRow;
  }

  /** The sums over the rows read by the references are those over the flat arrays. */
  lemma {:induction false} SumsAreSums(e: real -> real, scale: real -> real, h: A.Heads, b: A.Batch<real>, qt: nat, qh: nat, kvh: nat, d: nat,
                                       sc: seq<real>, v: seq<real>, from: nat, n: nat)
    requires A.Fits(h, b) && qt < b.nQ && qh < h.q && kvh < h.kv && d < h.dim && n <= |sc| == |v| && from + |sc| <= b.nK
    requires forall i :: 0 <= i < |sc| ==> sc[i] == Score(scale, h, b, qt, qh, kvh, from + i) && v[i] == Value(h, b, kvh, from + i, d)
    ensures S.Weights(e, sc, 0, n, 0.0) == WeightSum(e, scale, h, b, qt, qh, kvh, from, from + n)
    ensures S.Weighted(e, sc, v, 0, n, 0.0) == ValueSum(e, scale, h, b, qt, qh, kvh, d, from, from + n)
  {
    if n > 0 {
      hide Score, Value;
      SumsAreSums(e, scale, h, b, qt, qh, kvh, d, sc, v, from, n - 1);
      assert sc[n - 1] - 0.0 == sc[n - 1];
    }
  }

  /** What the references read for a head: its scores and its values. */
  lemma RowIsRead(e: real -> real, scale: real -> real, store: real -> real, lowest: real, h: A.Heads, b: A.Batch<real>,
                  qt: nat, qh: nat, kvh: nat, d: nat, from: nat, to: nat, i: nat)
    requires A.Fits(h, b) && qt < b.nQ && qh < h.q && kvh < h.kv && d < h.dim && from + i < to <= b.nK
    ensures var sc := A.ScoresOf(D.RealMath(e, scale, store, lowest), A.QueryRow(h, b.q, b.nQ, qt, qh), A.CacheRows(h, b.k, b.nK, kvh, from, to));
            sc[i] == Score(scale, h, b, qt, qh, kvh, from + i)
    ensures D.Column(A.CacheRows(h, b.v, b.nK, kvh, from, to), h.dim, d)[i] == Value(h, b, kvh, from + i, d)
  {
    hide D.RealMath, A.QueryRow, A.CacheRow, A.ScoreOf, Score, Value, A.IsQuery, A.IsCache;
    ScoreIsScore(e, scale, store, lowest, h, b, qt, qh, kvh, from + i);
    ValueIsValue(h, b, kvh, from + i, d);
  }

  lemma AttendIsAverage(e: real -> real, scale: real -> real, store: real -> real, lowest: real, h: A.Heads, b: A.Batch<real>,
                        qt: nat, qh: nat, kvh: nat, d: nat, from: nat, to: nat)
    requires S.IsExp(e) && A.Fits(h, b) && qt < b.nQ && qh < h.q && kvh < h.kv && d < h.dim && from < to <= b.nK
    ensures A.Attend(D.RealMath(e, scale, store, lowest), A.QueryRow(h, b.q, b.nQ, qt, qh), A.CacheRows(h, b.k, b.nK, kvh, from, to),
                     A.CacheRows(h, b.v, b.nK, kvh, from, to), d)
            == store(Average(e, scale, h, b, qt, qh, kvh, d, from, to))
  {
    var m := D.RealMath(e, scale, store, lowest);
    var q, ks, vs := A.QueryRow(h, b.q, b.nQ, qt, qh), A.CacheRows(h, b.k, b.nK, kvh, from, to), A.CacheRows(h, b.v, b.nK, kvh, from, to);
    var sc, v := A.ScoresOf(m, q, ks), D.Column(vs, h.dim, d);
    hide D.RealMath, A.QueryRow, A.CacheRows, A.ScoresOf, D.Column, A.Attend, S.Weights, S.Weighted, S.Attended, S.IsExp, WeightSum, ValueSum,
         Score, Value, A.Fits;
    forall i | 0 <= i < to - from
      ensures sc[i] == Score(scale, h, b, qt, qh, kvh, from + i) && v[i] == Value(h, b, kvh, from + i, d)
    {
      RowIsRead(e, scale, store, lowest, h, b, qt, qh, kvh, d, from, to, i);
    }
    D.AttendIsAttended(e, scale, store, lowest, q, ks, vs, d);
    S.AttendedAnywhere(e, sc, v, 0, to - from, 0.0);
    SumsAreSums(e, scale, h, b, qt, qh, kvh, d, sc, v, from, to - from);
  }

  /** Every output of the prefill reference, from `Filled`, which is what the loop nest ensures: zero when no
      key is visible, else the average over the visible keys of the query's own key head. */
  lemma PrefillIsAverage(e: real -> real, scale: real -> real, store: real -> real, lowest: real, h: A.Heads, b: A.Batch<real>,
                         reference: seq<real>, qt: nat, qh: nat, d: nat, kvh: nat, from: nat, to: nat, at: nat)
    requires S.IsExp(e) && A.Grouped(h) && A.Fits(h, b) && |reference| == |b.q| && qt < b.nQ && qh < h.q && d < h.dim
    requires A.Filled(D.RealMath(e, scale, store, lowest), h, b, reference, qt, qh)
    requires kvh == qh / (h.q / h.kv) && at == (qt * h.q + qh) * h.dim + d
    requires from == A.Start(b.offset + qt, b.window) && to == (if b.offset + qt + 1 < b.nK then b.offset + qt + 1 else b.nK)
    ensures kvh < h.kv && at < |reference|
    ensures reference[at] == if from >= to then 0.0 else store(Average(e, scale, h, b, qt, qh, kvh, d, from, to))
  {
    var m := D.RealMath(e, scale, store, lowest);
    A.GroupsFit(h.q, h.kv, qh);
    assert kvh == A.KvHead(h, qh) && A.Limit(b.offset + qt, b.nK) == to;
    RealMacs(e, scale, store, lowest);
    FilledAt(m, h, b, reference, qt, qh, d, at);
    A.OutputIs(m, h, b, qt, qh, d, from, to, kvh);
    hide A.Filled, A.Start, A.Attend, A.QueryRow, A.CacheRows, D.RealMath, Average, A.Output, A.KvHead, A.Fits, S.IsExp;
    if from < to {
      AttendIsAverage(e, scale, store, lowest, h, b, qt, qh, kvh, d, from, to);
    }
  }

  lemma FilledAt(m: A.Math<real>, h: A.Heads, b: A.Batch<real>, reference: seq<real>, qt: nat, qh: nat, d: nat, at: nat)
    requires A.Grouped(h) && A.Fits(h, b) && |reference| == |b.q| && qt < b.nQ && qh < h.q && d < h.dim
    requires A.Filled(m, h, b, reference, qt, qh) && at == (qt * h.q + qh) * h.dim + d
    ensures at < |reference| && reference[at] == A.Output(m, h, b, qt, qh, d)
  {
    hide A.Output;
    A.OutputRow(m, h, b, qt, qh);
  }

  /** Every output of the decode reference, from `Decoded`, which is what its loop nest ensures: the average
      over all tokens of the query's own key head. */
  lemma DecodeIsAverage(e: real -> real, scale: real -> real, store: real -> real, lowest: real, h: A.Heads, q: seq<real>, k: seq<real>,
                        v: seq<real>, n: nat, reference: seq<real>, qh: nat, d: nat, kvh: nat, at: nat)
    requires S.IsExp(e) && A.Grouped(h) && A.IsQuery(h, q, 1) && A.IsCache(h, k, n) && A.IsCache(h, v, n) && n > 0
    requires |reference| == |q| && qh < h.q && d < h.dim && A.Decoded(D.RealMath(e, scale, store, lowest), h, q, k, v, n, reference, qh)
    requires kvh == qh / (h.q / h.kv) && at == qh * h.dim + d
    ensures kvh < h.kv && at < |reference|
    ensures reference[at] == store(Average(e, scale, h, A.Batch(q, k, v, 1, n, n - 1, 0), 0, qh, kvh, d, 0, n))
  {
    var m, b := D.RealMath(e, scale, store, lowest), A.Batch(q, k, v, 1, n, n - 1, 0);
    A.GroupsFit(h.q, h.kv, qh);
    assert kvh == A.KvHead(h, qh);
    DecodedAt(m, h, q, k, v, n, reference, qh, d, at);
    hide A.Decoded, A.Attend, A.QueryRow, A.CacheRows, D.RealMath, Average, A.KvHead, S.IsExp;
    AttendIsAverage(e, scale, store, lowest, h, b, 0, qh, kvh, d, 0, n);
  }

  lemma DecodedAt(m: A.Math<real>, h: A.Heads, q: seq<real>, k: seq<real>, v: seq<real>, n: nat, reference: seq<real>, qh: nat, d: nat, at: nat)
    requires A.Grouped(h) && A.IsQuery(h, q, 1) && A.IsCache(h, k, n) && A.IsCache(h, v, n)
    requires |reference| == |q| && qh < h.q && d < h.dim && A.Decoded(m, h, q, k, v, n, reference, qh) && at == qh * h.dim + d
    ensures at < |reference| && reference[at] == A.DecodeOutput(m, h, q, k, v, n, qh, d)
  {
    hide A.DecodeOutput;
    A.RowFits(h.q, h.dim, qh);
  }
}
