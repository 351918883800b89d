/** The causal depthwise convolution reference. The arithmetic is left open, so streaming is exact. */
module CausalConv {

  /** `mac(a, x, w)` is `a + x * w`; `store` narrows the accumulator. */
  datatype Math<!F> = Math(zero: F, mac: (F, F, F) -> F, store: F -> F)

  /** One row of channels per time step. */
  predicate Rows<F>(rows: seq<seq<F>>, channels: nat) {
    forall t :: 0 <= t < |rows| ==> |rows[t]| == channels
  }

  // ----- The convolution, by rows -----

  /** The taps `0..n` of channel `c` at output `t`; the weights of a channel lie together. */
  function Taps<F>(m: Math<F>, rows: seq<seq<F>>, w: seq<F>, channels: nat, kernel: nat, t: nat, c: nat, n: nat): F
    requires Rows(rows, channels) && |w| == channels * kernel && c < channels && n <= kernel && t + n <= |rows|
  {
    if n == 0 then m.zero
    else
      WeightFits(channels, kernel, c, n - 1);
      m.mac(Taps(m, rows, w, channels, kernel, t, c, n - 1), rows[t + n - 1][c], w[c * kernel + n - 1])
  }

  lemma WeightFits(channels: nat, kernel: nat, c: nat, k: nat)
    requires c < channels && k < kernel
    ensures c * kernel + k < channels * kernel
  {
    assert (c + 1) * kernel <= channels * kernel;
  }

  function OutRow<F>(m: Math<F>, rows: seq<seq<F>>, w: seq<F>, channels: nat, kernel: nat, t: nat): (r: seq<F>)
    requires Rows(rows, channels) && |w| == channels * kernel && t + kernel <= |rows|
    ensures |r| == channels
  {
    seq(channels, c requires 0 <= c < channels => m.store(Taps(m, rows, w, channels, kernel, t, c, kernel)))
  }

  /** One output row for every input row beyond the first `kernel - 1`. */
  function Conv<F>(m: Math<F>, rows: seq<seq<F>>, w: seq<F>, channels: nat, kernel: nat): (out: seq<seq<F>>)
    requires Rows(rows, channels) && |w| == channels * kernel && 0 < kernel <= |rows| + 1
    ensures |out| == |rows| + 1 - kernel && Rows(out, channels)
  {
    var out := seq(|rows| + 1 - kernel, t requires 0 <= t < |rows| + 1 - kernel => OutRow(m, rows, w, channels, kernel, t));
    assert forall t :: 0 <= t < |out| ==> out[t] == OutRow(m, rows, w, channels, kernel, t);
    out
  }

  // ----- The loop nest over flat arrays -----

  function FlatIndex(channels: nat, t: nat, c: nat): nat {
    t * channels + c
  }

  lemma FlatFits(rows: nat, channels: nat, t: nat, c: nat)
    requires t < rows && c < channels
    ensures FlatIndex(channels, t, c) < rows * channels
  {
    assert (t + 1) * channels <= rows * channels;
  }

  lemma FlatDistinct(channels: nat, t: nat, c: nat, u: nat, d: nat)
    requires c < channels && d < channels && FlatIndex(channels, t, c) == FlatIndex(channels, u, d)
    ensures t == u && c == d
  {
    if t < u {
      FlatFits(u, channels, t, c);
    } else if u < t {
      FlatFits(t, channels, u, d);
    }
  }

  function RowsOf<F>(x: seq<F>, n: nat, channels: nat): (rows: seq<seq<F>>)
    requires |x| == n * channels
    ensures |rows| == n && Rows(rows, channels)
  {
    var rows := seq(n, t requires 0 <= t < n => RowOf(x, n, channels, t));
    assert forall t :: 0 <= t < n ==> rows[t] == RowOf(x, n, channels, t);
    rows
  }

  function RowOf<F>(x: seq<F>, n: nat, channels: nat, t: nat): (row: seq<F>)
    requires |x| == n * channels && t < n
    ensures |row| == channels && forall c :: 0 <= c < channels ==> FlatIndex(channels, t, c) < |x| && row[c] == x[FlatIndex(channels, t, c)]
  {
    assert forall c :: 0 <= c < channels ==> FlatIndex(channels, t, c) < |x| by {
      forall c | 0 <= c < channels
        ensures FlatIndex(channels, t, c) < |x|
      {
        FlatFits(n, channels, t, c);
      }
    }
    seq(channels, c requires 0 <= c < channels => x[FlatIndex(channels, t, c)])
  }

  /** The first `n` taps of channel `c` at output `t`, read from the flat arrays. */
  function FlatTaps<F>(m: Math<F>, x: seq<F>, w: seq<F>, rows: nat, channels: nat, kernel: nat, t: nat, c: nat, n: nat): F
    requires |x| == rows * channels && |w| == channels * kernel && c < channels && n <= kernel && t + n <= rows
  {
    if n == 0 then m.zero
    else
      FlatFits(rows, channels, t + n - 1, c);
      WeightFits(channels, kernel, c, n - 1);
      m.mac(FlatTaps(m, x, w, rows, channels, kernel, t, c, n - 1), x[(t + n - 1) * channels + c], w[c * kernel + n - 1])
  }

  lemma {:induction false} TapsAreFlat<F>(m: Math<F>, x: seq<F>, w: seq<F>, rows: nat, channels: nat, kernel: nat, t: nat, c: nat, n: nat)
    requires |x| == rows * channels && |w| == channels * kernel && c < channels && n <= kernel && t + n <= rows
    ensures Taps(m, RowsOf(x, rows, channels), w, channels, kernel, t, c, n) == FlatTaps(m, x, w, rows, channels, kernel, t, c, n)
  {
    if n > 0 {
      TapsAreFlat(m, x, w, rows, channels, kernel, t, c, n - 1);
      FlatFits(rows, channels, t + n - 1, c);
      assert RowsOf(x, rows, channels)[t + n - 1][c] == x[FlatIndex(channels, t + n - 1, c)];
      hide RowsOf;
    }
  }

  /** Output `(t, c)` in the flat array is the sum over its taps in the flat arrays. */
  ghost predicate FlatOut<F>(m: Math<F>, x: seq<F>, w: seq<F>, reference: seq<F>, nNew: nat, channels: nat, kernel: nat, t: nat, c: nat)
    requires kernel > 0 && |x| == (nNew + kernel - 1) * channels && |w| == channels * kernel && |reference| == nNew * channels
    requires t < nNew && c < channels
  {
    FlatFits(nNew, channels, t, c);
    reference[t * channels + c] == m.store(FlatTaps(m, x, w, nNew + kernel - 1, channels, kernel, t, c, kernel))
  }

  lemma ConvIsFlat<F>(m: Math<F>, x: seq<F>, w: seq<F>, reference: seq<F>, nNew: nat, channels: nat, kernel: nat, t: nat, c: nat)
    requires kernel > 0 && |x| == (nNew + kernel - 1) * channels && |w| == channels * kernel && |reference| == nNew * channels
    requires RowsOf(reference, nNew, channels) == Conv(m, RowsOf(x, nNew + kernel - 1, channels), w, channels, kernel)
    requires t < nNew && c < channels
    ensures FlatOut(m, x, w, reference, nNew, channels, kernel, t, c)
  {
    var rows := RowsOf(x, nNew + kernel - 1, channels);
    TapsAreFlat(m, x, w, nNew + kernel - 1, channels, kernel, t, c, kernel);
    assert RowsOf(reference, nNew, channels)[t][c] == reference[FlatIndex(channels, t, c)];
    assert Conv(m, rows, w, channels, kernel)[t][c] == m.store(Taps(m, rows, w, channels, kernel, t, c, kernel));
    hide Taps, FlatTaps, RowsOf, Conv;
  }

  /** Output row `t` lies in the flat array where it belongs. */
  ghost predicate Placed<F>(reference: seq<F>, n: nat, channels: nat, t: nat, row: seq<F>, upTo: nat)
    requires |reference| == n * channels && t < n && upTo <= channels == |row|
  {
    forall c :: 0 <= c < upTo ==> RowOf(reference, n, channels, t)[c] == row[c]
  }

  method RunReference<F(0)>(m: Math<F>, x: seq<F>, w: seq<F>, nNew: nat, channels: nat, kernel: nat) returns (reference: array<F>)
    requires kernel > 0 && |x| == (nNew + kernel - 1) * channels && |w| == channels * kernel
    ensures reference.Length == nNew * channels
    ensures RowsOf(reference[..], nNew, channels) == Conv(m, RowsOf(x, nNew + kernel - 1, channels), w, channels, kernel)
    ensures forall t, c :: 0 <= t < nNew && 0 <= c < channels ==> FlatOut(m, x, w, reference[..], nNew, channels, kernel, t, c)
  {
    ghost var rows := RowsOf(x, nNew + kernel - 1, channels);
    ghost var out := Conv(m, rows, w, channels, kernel);
    reference := new F[nNew * channels](_ => m.zero);
    for t := 0 to nNew
      invariant forall u :: 0 <= u < t ==> Placed(reference[..], nNew, channels, u, out[u], channels)
    {
      for c := 0 to channels
        invariant forall u :: 0 <= u < t ==> Placed(reference[..], nNew, channels, u, out[u], channels)
        invariant Placed(reference[..], nNew, channels, t, out[t], c)
      {
        var acc := Accumulate(m, x, w, nNew, channels, kernel, t, c);
        ghost var before := reference[..];
        FlatFits(nNew, channels, t, c);
        reference[FlatIndex(channels, t, c)] := m.store(acc);
        hide Placed, FlatIndex, RowsOf, Conv;
        PlacedGrows(before, reference[..], nNew, channels, t, c, out);
      }
    }
    assert forall t :: 0 <= t < nNew ==> Placed(reference[..], nNew, channels, t, out[t], channels);
    RowsPlaced(reference[..], nNew, channels, out);
    forall t, c | 0 <= t < nNew && 0 <= c < channels
      ensures FlatOut(m, x, w, reference[..], nNew, channels, kernel, t, c)
    {
      ConvIsFlat(m, x, w, reference[..], nNew, channels, kernel, t, c);
    }
  }

  method Accumulate<F>(m: Math<F>, x: seq<F>, w: seq<F>, nNew: nat, channels: nat, kernel: nat, t: nat, c: nat) returns (acc: F)
    requires kernel > 0 && |x| == (nNew + kernel - 1) * channels && |w| == channels * kernel && t < nNew && c < channels
    ensures acc == Taps(m, RowsOf(x, nNew + kernel - 1, channels), w, channels, kernel, t, c, kernel)
  {
    acc := m.zero;
    for k := 0 to kernel
      invariant acc == Taps(m, RowsOf(x, nNew + kernel - 1, channels), w, channels, kernel, t, c, k)
    {
      FlatFits(nNew + kernel - 1, channels, t + k, c);
      WeightFits(channels, kernel, c, k);
      acc := m.mac(acc, x[FlatIndex(channels, t + k, c)], w[c * kernel + k]);
    }
  }

  lemma PlacedGrows<F>(a: seq<F>, b: seq<F>, n: nat, channels: nat, t: nat, c: nat, out: seq<seq<F>>)
    requires |a| == |b| == n * channels && t < n == |out| && c < channels && Rows(out, channels)
    requires forall u :: 0 <= u < t ==> Placed(a, n, channels, u, out[u], channels)
    requires Placed(a, n, channels, t, out[t], c)
    requires FlatIndex(channels, t, c) < |a| && b == a[FlatIndex(channels, t, c) := out[t][c]]
    ensures forall u :: 0 <= u < t ==> Placed(b, n, channels, u, out[u], channels)
    ensures Placed(b, n, channels, t, out[t], c + 1)
  {
    forall u, d | 0 <= u < n && 0 <= d < channels && (u < t || (u == t && d <= c))
      ensures RowOf(b, n, channels, u)[d] == if u == t && d == c then out[t][c] else RowOf(a, n, channels, u)[d]
    {
      if FlatIndex(channels, u, d) == FlatIndex(channels, t, c) {
        FlatDistinct(channels, u, d, t, c);
      }
    }
    hide FlatIndex, RowOf;
    forall u | 0 <= u < t
      ensures Placed(b, n, channels, u, out[u], channels)
    {
      assert Placed(a, n, channels, u, out[u], channels);
    }
  }

  lemma RowsPlaced<F>(reference: seq<F>, n: nat, channels: nat, out: seq<seq<F>>)
    requires |reference| == n * channels && |out| == n && Rows(out, channels)
    requires forall t :: 0 <= t < n ==> Placed(reference, n, channels, t, out[t], channels)
    ensures RowsOf(reference, n, channels) == out
  {
    forall t | 0 <= t < n
      ensures RowsOf(reference, n, channels)[t] == out[t]
    {
      assert Placed(reference, n, channels, t, out[t], channels);
    }
  }

  // ----- Which weight meets which row -----

  /** A single one in row `u` of channel `d`, zeros elsewhere. */
  ghost predicate IsImpulse(rows: seq<seq<real>>, u: nat, d: nat) {
    forall t, c :: 0 <= t < |rows| && 0 <= c < |rows[t]| ==> rows[t][c] == if t == u && c == d then 1.0 else 0.0
  }

  /** Over the reals an impulse in row `u` comes out at output `t` as weight `u - t` of its channel, as long
      as the kernel reaches from `t` to `u`; other channels see nothing. */
  lemma {:induction false} ImpulseResponse(m: Math<real>, rows: seq<seq<real>>, w: seq<real>, channels: nat, kernel: nat,
                                           t: nat, c: nat, n: nat, u: nat, d: nat)
    requires m.zero == 0.0 && forall a, x, y :: m.mac(a, x, y) == a + x * y
    requires Rows(rows, channels) && |w| == channels * kernel && c < channels && n <= kernel && t + n <= |rows| && IsImpulse(rows, u, d)
    ensures if c == d && t <= u < t + n
            then c * kernel + (u - t) < |w| && Taps(m, rows, w, channels, kernel, t, c, n) == w[c * kernel + (u - t)]
            else Taps(m, rows, w, channels, kernel, t, c, n) == 0.0
  {
    if n > 0 {
      WeightFits(channels, kernel, c, n - 1);
      ImpulseResponse(m, rows, w, channels, kernel, t, c, n - 1, u, d);
      assert |rows[t + n - 1]| == channels;
      assert rows[t + n - 1][c] == if t + n - 1 == u && c == d then 1.0 else 0.0;
    }
  }

  // ----- Causality and streaming -----

  lemma ShorterSlice<T>(xs: seq<T>, t: nat, n: nat)
    requires 0 < n && t + n <= |xs|
    ensures xs[t..t + n - 1] == xs[t..t + n][..n - 1] && xs[t + n - 1] == xs[t..t + n][n - 1]
  {
  }

  /** Output `t` reads rows `t` to `t + kernel - 1` and no others: two inputs, one of them perhaps
      longer or shifted, that agree there agree on the output. */
  lemma {:induction false} TapsAreLocal<F>(m: Math<F>, xs: seq<seq<F>>, ys: seq<seq<F>>, w: seq<F>, channels: nat, kernel: nat,
                                           t: nat, u: nat, c: nat, n: nat)
    requires Rows(xs, channels) && Rows(ys, channels) && |w| == channels * kernel && c < channels && n <= kernel
    requires t + n <= |xs| && u + n <= |ys| && xs[t..t + n] == ys[u..u + n]
    ensures Taps(m, xs, w, channels, kernel, t, c, n) == Taps(m, ys, w, channels, kernel, u, c, n)
  {
    if n > 0 {
      ShorterSlice(xs, t, n);
      ShorterSlice(ys, u, n);
      TapsAreLocal(m, xs, ys, w, channels, kernel, t, u, c, n - 1);
    }
  }

  lemma OutputIsCausal<F>(m: Math<F>, xs: seq<seq<F>>, ys: seq<seq<F>>, w: seq<F>, channels: nat, kernel: nat, t: nat, u: nat)
    requires Rows(xs, channels) && Rows(ys, channels) && |w| == channels * kernel
    requires t + kernel <= |xs| && u + kernel <= |ys| && xs[t..t + kernel] == ys[u..u + kernel]
    ensures OutRow(m, xs, w, channels, kernel, t) == OutRow(m, ys, w, channels, kernel, u)
  {
    forall c | 0 <= c < channels
      ensures Taps(m, xs, w, channels, kernel, t, c, kernel) == Taps(m, ys, w, channels, kernel, u, c, kernel)
    {
      TapsAreLocal(m, xs, ys, w, channels, kernel, t, u, c, kernel);
    }
  }

  /** What is carried to the next chunk. */
  function Carry<F>(rows: seq<seq<F>>, kernel: nat): (r: seq<seq<F>>)
    requires 0 < kernel <= |rows| + 1
    ensures |r| == kernel - 1
  {
    rows[|rows| + 1 - kernel..]
  }

  /** Convolve chunk by chunk, each prefixed by the last `kernel - 1` rows before it. */
  function Stream<F>(m: Math<F>, carry: seq<seq<F>>, chunks: seq<seq<seq<F>>>, w: seq<F>, channels: nat, kernel: nat): seq<seq<F>>
    requires kernel > 0 && |carry| == kernel - 1 && |w| == channels * kernel && Rows(carry, channels)
    requires forall i :: 0 <= i < |chunks| ==> Rows(chunks[i], channels)
    decreases |chunks|
  {
    if chunks == [] then []
    else
      assert Rows(chunks[0], channels);
      assert Rows(carry + chunks[0], channels);
      Conv(m, carry + chunks[0], w, channels, kernel)
      + Stream(m, Carry(carry + chunks[0], kernel), chunks[1..], w, channels, kernel)
  }

  function Joined<T>(chunks: seq<seq<T>>): seq<T> {
    if chunks == [] then [] else chunks[0] + Joined(chunks[1..])
  }

  lemma JoinedRows<F>(chunks: seq<seq<seq<F>>>, channels: nat)
    requires forall i :: 0 <= i < |chunks| ==> Rows(chunks[i], channels)
    ensures Rows(Joined(chunks), channels)
  {
    if chunks != [] {
      JoinedRows(chunks[1..], channels);
    }
  }

  /** A convolution over two stretches of rows is the two convolutions, the second with its carry. */
  lemma ConvSplits<F>(m: Math<F>, a: seq<seq<F>>, b: seq<seq<F>>, w: seq<F>, channels: nat, kernel: nat)
    requires Rows(a, channels) && Rows(b, channels) && |w| == channels * kernel && 0 < kernel <= |a| + 1
    ensures Conv(m, a + b, w, channels, kernel)
         == Conv(m, a, w, channels, kernel) + Conv(m, Carry(a, kernel) + b, w, channels, kernel)
  {
    var n := |a| + 1 - kernel;
    var tail := Carry(a, kernel) + b;
    forall t | 0 <= t < |a + b| + 1 - kernel
      ensures OutRow(m, a + b, w, channels, kernel, t)
           == if t < n then OutRow(m, a, w, channels, kernel, t) else OutRow(m, tail, w, channels, kernel, t - n)
    {
      if t < n {
        OutputIsCausal(m, a + b, a, w, channels, kernel, t, t);
      } else {
        OutputIsCausal(m, a + b, tail, w, channels, kernel, t, t - n);
      }
    }
    hide OutRow;
  }

  /** Streaming over any chunks, empty ones included, is the convolution of the whole sequence. */
  lemma {:induction false} StreamIsConv<F>(m: Math<F>, carry: seq<seq<F>>, chunks: seq<seq<seq<F>>>, w: seq<F>, channels: nat, kernel: nat)
    requires kernel > 0 && |carry| == kernel - 1 && |w| == channels * kernel && Rows(carry, channels)
    requires forall i :: 0 <= i < |chunks| ==> Rows(chunks[i], channels)
    ensures Rows(Joined(chunks), channels)
    ensures Stream(m, carry, chunks, w, channels, kernel) == Conv(m, carry + Joined(chunks), w, channels, kernel)
    decreases |chunks|
  {
    JoinedRows(chunks, channels);
    if chunks != [] {
      var first, rest := carry + chunks[0], Joined(chunks[1..]);
      StreamIsConv(m, Carry(first, kernel), chunks[1..], w, channels, kernel);
      ConvSplits(m, first, rest, w, channels, kernel);
      assert first + rest == carry + Joined(chunks);
    }
  }
}
