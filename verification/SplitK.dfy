/** Split-K attention decode: the keys are cut into chunks, each chunk reduced on its own by an online
    softmax, and the partial results merged. Over the reals, with any exponential, the merge equals
    the three-pass softmax of the reference.

    One output component of one query head is followed: `sc` holds its scores, `v` the values. */
module SplitK {
  import opened Wrappers

  // ----- The chunk size -----

  function DivCeil(a: nat, b: nat): nat
    requires b > 0
  {
    (a + b - 1) / b
  }

  function NextMultipleOf(a: nat, b: nat): nat
    requires b > 0
  {
    DivCeil(a, b) * b
  }

  function Base(tokens: nat): nat {
    if tokens <= 1024 then 128 else if tokens <= 2048 then 256 else 512
  }

  function PickChunk(tokens: nat): nat {
    if DivCeil(tokens, Base(tokens)) <= 32 then Base(tokens) else NextMultipleOf(DivCeil(tokens, 32), 32)
  }

  lemma DivCeilAbove(a: nat, b: nat, n: nat)
    requires b > 0 && n * b < a
    ensures DivCeil(a, b) > n
  {
    assert (n + 1) * b <= a + b - 1;
  }

  lemma TimesMonotone(x: nat, y: nat, b: nat)
    requires x <= y
    ensures x * b <= y * b
  {
  }

  lemma DivCeilBelow(a: nat, b: nat, n: nat)
    requires b > 0 && a <= n * b
    ensures DivCeil(a, b) <= n
  {
    var q := DivCeil(a, b);
    assert q * b <= a + b - 1 < (n + 1) * b;
    if q > n {
      TimesMonotone(n + 1, q, b);
    }
  }

  /** Up to 16384 tokens the size goes by steps. */
  lemma PickChunkSteps(tokens: nat)
    requires tokens <= 16384
    ensures PickChunk(tokens) == if tokens <= 1024 then 128 else if tokens <= 2048 then 256 else 512
  {
    DivCeilBelow(tokens, Base(tokens), 32);
    hide DivCeil;
  }

  /** Beyond, it is the smallest multiple of 32 of which 32 cover the tokens. */
  lemma PickChunkGrows(tokens: nat)
    requires tokens > 16384
    ensures var c := PickChunk(tokens); c % 32 == 0 && tokens <= 32 * c && c > 512 && 32 * (c - 32) < tokens
  {
    DivCeilAbove(tokens, 512, 32);
  }

  /** Whole quantisation blocks, at most 32 chunks; and when the base size does not do, no smaller
      multiple of 32 would. */
  lemma PickChunkFits(tokens: nat)
    ensures var c := PickChunk(tokens);
            && c >= 128 && c % 32 == 0 && DivCeil(tokens, c) <= 32
            && (c == Base(tokens) <==> tokens <= 16384)
            && (tokens > 16384 ==> forall d: nat :: 0 < d < c && d % 32 == 0 ==> DivCeil(tokens, d) > 32)
  {
    hide PickChunk, DivCeil;
    var c := PickChunk(tokens);
    if tokens > 16384 {
      PickChunkGrows(tokens);
      forall d: nat | 0 < d < c && d % 32 == 0
        ensures DivCeil(tokens, d) > 32
      {
        assert d <= c - 32;
        DivCeilAbove(tokens, d, 32);
      }
    } else {
      PickChunkSteps(tokens);
    }
    DivCeilBelow(tokens, c, 32);
  }

  /** The first key the window admits; no window admits all. */
  function WindowStart(tokens: nat, window: nat): nat {
    if window == 0 || tokens < window then 0 else tokens - window
  }

  function Larger(a: nat, b: nat): nat {
    if a < b then b else a
  }

  /** The first key the chunks cover: they start at `base`, the window may start later. */
  function From(tokens: nat, base: nat, window: nat): nat {
    Larger(base, WindowStart(tokens, window))
  }

  function ChunkEnd(tokens: nat, base: nat, size: nat, chunk: nat): nat {
    if base + chunk * size + size > tokens then tokens else base + chunk * size + size
  }

  function ChunkStart(tokens: nat, base: nat, size: nat, window: nat, chunk: nat): nat {
    var raised, end := Larger(base + chunk * size, WindowStart(tokens, window)), ChunkEnd(tokens, base, size, chunk);
    if raised > end then end else raised
  }

  predicate InChunk(tokens: nat, base: nat, size: nat, window: nat, chunk: nat, t: nat) {
    ChunkStart(tokens, base, size, window, chunk) <= t < ChunkEnd(tokens, base, size, chunk)
  }

  lemma DivisionAt(t: nat, size: nat, chunk: nat)
    requires size > 0
    ensures t / size == chunk <==> chunk * size <= t < chunk * size + size
  {
    var q := t / size;
    assert q * size <= t < q * size + size;
    if q < chunk {
      assert (q + 1) * size <= chunk * size;
    } else if q > chunk {
      assert (chunk + 1) * size <= q * size;
    }
  }

  /** A key from `From` on lies in exactly one chunk, and a chunk holds no others. */
  lemma ChunkHolds(tokens: nat, base: nat, size: nat, window: nat, chunk: nat, t: nat)
    requires size > 0
    ensures InChunk(tokens, base, size, window, chunk, t) <==>
            From(tokens, base, window) <= t < tokens && (t - base) / size == chunk
  {
    if base <= t {
      DivisionAt(t - base, size, chunk);
    }
  }

  /** The chunks follow one another; there is none too many, and without a window none is empty. */
  lemma ChunksTile(tokens: nat, base: nat, size: nat, window: nat, chunk: nat)
    requires size > 0 && base <= tokens && chunk < DivCeil(tokens - base, size)
    ensures ChunkStart(tokens, base, size, window, chunk) <= ChunkEnd(tokens, base, size, chunk) <= tokens
    ensures base + chunk * size < tokens
    ensures window == 0 ==> ChunkStart(tokens, base, size, window, chunk) < ChunkEnd(tokens, base, size, chunk)
  {
    if chunk * size >= tokens - base {
      DivCeilBelow(tokens - base, size, chunk);
    }
  }

  // ----- Softmax over a range of keys -----

  /** An exponential: all that is used of it. */
  ghost predicate IsExp(e: real -> real) {
    (forall x :: e(x) > 0.0) && (forall x, y :: TurnsSumsToProducts(e, x, y))
  }

  predicate TurnsSumsToProducts(e: real -> real, x: real, y: real) {
    e(x + y) == e(x) * e(y)
  }

  /** Sum of the weights of keys `a..b`, relative to `m`. */
  function Weights(e: real -> real, sc: seq<real>, a: nat, b: nat, m: real): real
    requires a <= b <= |sc|
  {
    if a == b then 0.0 else Weights(e, sc, a, b - 1, m) + e(sc[b - 1] - m)
  }

  /** Weighted sum of the values. */
  function Weighted(e: real -> real, sc: seq<real>, v: seq<real>, a: nat, b: nat, m: real): real
    requires a <= b <= |sc| == |v|
  {
    if a == b then 0.0 else Weighted(e, sc, v, a, b - 1, m) + e(sc[b - 1] - m) * v[b - 1]
  }

  /** The greatest score, or none: minus infinity. */
  function Greatest(sc: seq<real>, a: nat, b: nat): Option<real>
    requires a <= b <= |sc|
  {
    if a == b then None else Some(Max(Greatest(sc, a, b - 1), sc[b - 1]))
  }

  function Max(m: Option<real>, x: real): real {
    if m.Some? && m.value > x then m.value else x
  }

  /** `exp(m - g)`, nothing for minus infinity. */
  function Rescale(e: real -> real, m: Option<real>, g: real): real {
    if m.Some? then e(m.value - g) else 0.0
  }

  /** The softmax-weighted average of the values of keys `a..b`. */
  function Attended(e: real -> real, sc: seq<real>, v: seq<real>, a: nat, b: nat): real
    requires IsExp(e) && a < b <= |sc| == |v|
  {
    var m := Greatest(sc, a, b).value;
    WeightsPositive(e, sc, a, b, m);
    Weighted(e, sc, v, a, b, m) / Weights(e, sc, a, b, m)
  }

  lemma WeightsPositive(e: real -> real, sc: seq<real>, a: nat, b: nat, m: real)
    requires IsExp(e) && a <= b <= |sc|
    ensures Weights(e, sc, a, b, m) >= 0.0 && (a < b ==> Weights(e, sc, a, b, m) > 0.0)
  {
    if a < b {
      WeightsPositive(e, sc, a, b - 1, m);
    }
  }

  lemma ExpShifts(e: real -> real, x: real, m: real, g: real)
    requires IsExp(e)
    ensures e(x - m) * e(m - g) == e(x - g)
  {
    assert TurnsSumsToProducts(e, x - m, m - g);
    assert (x - m) + (m - g) == x - g;
  }

  /** Sums taken relative to `m` become sums relative to `g` by one factor. */
  lemma {:induction false} SumsShift(e: real -> real, sc: seq<real>, v: seq<real>, a: nat, b: nat, m: real, g: real)
    requires IsExp(e) && a <= b <= |sc| == |v|
    ensures Weights(e, sc, a, b, m) * e(m - g) == Weights(e, sc, a, b, g)
    ensures Weighted(e, sc, v, a, b, m) * e(m - g) == Weighted(e, sc, v, a, b, g)
  {
    if a < b {
      SumsShift(e, sc, v, a, b - 1, m, g);
      ExpShifts(e, sc[b - 1], m, g);
      var w, k := e(sc[b - 1] - m), e(m - g);
      Distributes(Weights(e, sc, a, b - 1, m), w, k);
      Distributes(Weighted(e, sc, v, a, b - 1, m), w * v[b - 1], k);
      Swaps(w, v[b - 1], k);
    }
  }

  lemma Distributes(x: real, y: real, z: real)
    ensures (x + y) * z == x * z + y * z
  {
  }

  lemma Swaps(x: real, y: real, z: real)
    ensures x * y * z == x * z * y
  {
  }

  lemma {:induction false} SumsJoin(e: real -> real, sc: seq<real>, v: seq<real>, a: nat, b: nat, c: nat, m: real)
    requires a <= b <= c <= |sc| == |v|
    ensures Weights(e, sc, a, c, m) == Weights(e, sc, a, b, m) + Weights(e, sc, b, c, m)
    ensures Weighted(e, sc, v, a, c, m) == Weighted(e, sc, v, a, b, m) + Weighted(e, sc, v, b, c, m)
  {
    if b < c {
      SumsJoin(e, sc, v, a, b, c - 1, m);
    }
  }

  /** The softmax does not depend on the number the exponents are taken relative to. */
  lemma AttendedAnywhere(e: real -> real, sc: seq<real>, v: seq<real>, a: nat, b: nat, g: real)
    requires IsExp(e) && a < b <= |sc| == |v|
    ensures Weights(e, sc, a, b, g) > 0.0
    ensures Attended(e, sc, v, a, b) == Weighted(e, sc, v, a, b, g) / Weights(e, sc, a, b, g)
  {
    var m := Greatest(sc, a, b).value;
    WeightsPositive(e, sc, a, b, g);
    SameRatio(e, sc, v, a, b, m, g);
    hide Weights, Weighted, IsExp;
  }

  lemma SameRatio(e: real -> real, sc: seq<real>, v: seq<real>, a: nat, b: nat, m: real, g: real)
    requires IsExp(e) && a < b <= |sc| == |v|
    ensures Weights(e, sc, a, b, m) > 0.0 && Weights(e, sc, a, b, g) > 0.0
    ensures Weighted(e, sc, v, a, b, m) / Weights(e, sc, a, b, m) == Weighted(e, sc, v, a, b, g) / Weights(e, sc, a, b, g)
  {
    WeightsPositive(e, sc, a, b, m);
    WeightsPositive(e, sc, a, b, g);
    SumsShift(e, sc, v, a, b, m, g);
    hide Weights, Weighted, IsExp;
    Cancels(Weighted(e, sc, v, a, b, m), Weights(e, sc, a, b, m), e(m - g),
            Weighted(e, sc, v, a, b, g), Weights(e, sc, a, b, g));
  }

  lemma Cancels(x: real, y: real, z: real, xz: real, yz: real)
    requires y > 0.0 && yz > 0.0 && x * z == xz && y * z == yz
    ensures x / y == xz / yz
  {
    var q := x / y;
    assert q * y == x;
    assert q * yz == (q * y) * z;
  }

  // ----- The kernels -----

  /** What a chunk leaves for the merge. */
  datatype Partial = Partial(m: Option<real>, s: real, o: real)

  function PartialOf(e: real -> real, sc: seq<real>, v: seq<real>, a: nat, b: nat): Partial
    requires a <= b <= |sc| == |v|
  {
    var m := Greatest(sc, a, b);
    if m.None? then Partial(None, 0.0, 0.0)
    else Partial(m, Weights(e, sc, a, b, m.value), Weighted(e, sc, v, a, b, m.value))
  }

  /** One more key, by rescaling. */
  lemma PartialExtends(e: real -> real, sc: seq<real>, v: seq<real>, a: nat, t: nat)
    requires IsExp(e) && a <= t < |sc| == |v|
    ensures var p := PartialOf(e, sc, v, a, t);
            var m := Max(p.m, sc[t]);
            var k, w := Rescale(e, p.m, m), e(sc[t] - m);
            PartialOf(e, sc, v, a, t + 1) == Partial(Some(m), p.s * k + w, p.o * k + w * v[t])
  {
    var p := PartialOf(e, sc, v, a, t);
    var m := Max(p.m, sc[t]);
    assert Greatest(sc, a, t + 1) == Some(m);
    LastKey(e, sc, v, a, t, m);
    hide Weights, Weighted, IsExp, Greatest;
    if p.m.Some? {
      SumsShift(e, sc, v, a, t, p.m.value, m);
    }
  }

  lemma LastKey(e: real -> real, sc: seq<real>, v: seq<real>, a: nat, t: nat, m: real)
    requires a <= t < |sc| == |v|
    ensures Weights(e, sc, a, t + 1, m) == Weights(e, sc, a, t, m) + e(sc[t] - m)
    ensures Weighted(e, sc, v, a, t + 1, m) == Weighted(e, sc, v, a, t, m) + e(sc[t] - m) * v[t]
    ensures Greatest(sc, a, t).None? ==> a == t && Weights(e, sc, a, t, m) == 0.0 && Weighted(e, sc, v, a, t, m) == 0.0
  {
  }

  /** The chunk kernel: one pass with a running maximum, rescaling what it has so far. */
  method ChunkPartial(e: real -> real, sc: seq<real>, v: seq<real>, start: nat, end: nat) returns (p: Partial)
    requires IsExp(e) && start <= end <= |sc| == |v|
    ensures p == PartialOf(e, sc, v, start, end)
  {
    if start >= end {
      return Partial(None, 0.0, 0.0);
    }
    var runningMax: Option<real> := None;
    var runningSum, out := 0.0, 0.0;
    for t := start to end
      invariant Partial(runningMax, runningSum, out) == PartialOf(e, sc, v, start, t)
    {
      var newMax := Max(runningMax, sc[t]);
      var scaleOld := Rescale(e, runningMax, newMax);
      var coeff := e(sc[t] - newMax);
      PartialExtends(e, sc, v, start, t);
      out := out * scaleOld + coeff * v[t];
      runningSum := runningSum * scaleOld + coeff;
      runningMax := Some(newMax);
    }
    return Partial(runningMax, runningSum, out);
  }

  /** Consecutive ranges of keys. */
  ghost predicate Tiles(cuts: seq<nat>, n: nat) {
    && |cuts| > 0 && (forall i :: 0 <= i < |cuts| ==> cuts[i] <= n)
    && (forall i :: 0 <= i < |cuts| - 1 ==> cuts[i] <= cuts[i + 1])
  }

  ghost predicate ArePartials(e: real -> real, sc: seq<real>, v: seq<real>, cuts: seq<nat>, parts: seq<Partial>)
    requires |sc| == |v| && Tiles(cuts, |sc|)
  {
    |parts| == |cuts| - 1 && forall c :: 0 <= c < |parts| ==> parts[c] == PartialOf(e, sc, v, cuts[c], cuts[c + 1])
  }

  // ----- The merge -----

  /** The greatest of the chunk maxima. */
  function GreatestOf(parts: seq<Partial>): Option<real> {
    if parts == [] then None
    else
      var rest, last := GreatestOf(parts[..|parts| - 1]), parts[|parts| - 1].m;
      if last.None? then rest else Some(Max(rest, last.value))
  }

  lemma {:induction false} GreatestJoins(sc: seq<real>, a: nat, b: nat, c: nat)
    requires a <= b <= c <= |sc|
    ensures Greatest(sc, a, c) ==
            if b == c then Greatest(sc, a, b) else Some(Max(Greatest(sc, a, b), Greatest(sc, b, c).value))
  {
    if b < c {
      GreatestJoins(sc, a, b, c - 1);
    }
  }

  lemma {:induction false} GreatestOfChunks(e: real -> real, sc: seq<real>, v: seq<real>, cuts: seq<nat>, parts: seq<Partial>)
    requires |sc| == |v| && Tiles(cuts, |sc|) && ArePartials(e, sc, v, cuts, parts)
    ensures cuts[0] <= cuts[|cuts| - 1] && GreatestOf(parts) == Greatest(sc, cuts[0], cuts[|cuts| - 1])
    decreases |parts|
  {
    var n := |parts|;
    if n > 0 {
      GreatestOfChunks(e, sc, v, cuts[..n], parts[..n - 1]);
      GreatestJoins(sc, cuts[0], cuts[n - 1], cuts[n]);
    }
  }

  lemma HasGreatest(sc: seq<real>, a: nat, b: nat)
    requires a < b <= |sc|
    ensures Greatest(sc, a, b).Some?
  {
  }

  lemma NoKeys(e: real -> real, sc: seq<real>, v: seq<real>, a: nat, g: real)
    requires a <= |sc| == |v|
    ensures Weights(e, sc, a, a, g) == 0.0 && Weighted(e, sc, v, a, a, g) == 0.0
  {
  }

  /** A chunk's share of the merge, relative to the overall maximum. */
  lemma ShareOfChunk(e: real -> real, sc: seq<real>, v: seq<real>, a: nat, b: nat, g: real)
    requires IsExp(e) && a <= b <= |sc| == |v|
    ensures var p := PartialOf(e, sc, v, a, b);
            p.s * Rescale(e, p.m, g) == Weights(e, sc, a, b, g) && p.o * Rescale(e, p.m, g) == Weighted(e, sc, v, a, b, g)
  {
    hide Weights, Weighted, IsExp;
    if a < b {
      var m := Greatest(sc, a, b).value;
      SumsShift(e, sc, v, a, b, m, g);
      assert PartialOf(e, sc, v, a, b) == Partial(Some(m), Weights(e, sc, a, b, m), Weighted(e, sc, v, a, b, m));
    } else {
      NoKeys(e, sc, v, a, g);
      assert PartialOf(e, sc, v, a, b) == Partial(None, 0.0, 0.0);
    }
  }

  /** The combine kernel: the chunks' partials, however many are empty, merge to the softmax of all
      their keys. */
  method Combine(e: real -> real, parts: seq<Partial>, ghost sc: seq<real>, ghost v: seq<real>, ghost cuts: seq<nat>)
      returns (out: real)
    requires IsExp(e) && |sc| == |v| && Tiles(cuts, |sc|) && ArePartials(e, sc, v, cuts, parts)
    requires cuts[0] < cuts[|cuts| - 1]
    ensures out == Attended(e, sc, v, cuts[0], cuts[|cuts| - 1])
  {
    hide Weights, Weighted, Greatest, PartialOf, Attended, IsExp;
    var gMax: Option<real> := None;
    for c := 0 to |parts|
      invariant gMax == GreatestOf(parts[..c])
    {
      assert parts[..c + 1][..c] == parts[..c];
      if parts[c].m.Some? {
        gMax := Some(Max(gMax, parts[c].m.value));
      }
    }
    assert parts[..|parts|] == parts;
    GreatestOfChunks(e, sc, v, cuts, parts);
    HasGreatest(sc, cuts[0], cuts[|cuts| - 1]);
    var g := gMax.value;
    NoKeys(e, sc, v, cuts[0], g);
    var gSum, gOut := 0.0, 0.0;
    for c := 0 to |parts|
      invariant cuts[0] <= cuts[c]
      invariant gSum == Weights(e, sc, cuts[0], cuts[c], g)
      invariant gOut == Weighted(e, sc, v, cuts[0], cuts[c], g)
    {
      var w := Rescale(e, parts[c].m, g);
      ShareOfChunk(e, sc, v, cuts[c], cuts[c + 1], g);
      SumsJoin(e, sc, v, cuts[0], cuts[c], cuts[c + 1], g);
      gSum := gSum + parts[c].s * w;
      gOut := gOut + parts[c].o * w;
    }
    AttendedAnywhere(e, sc, v, cuts[0], cuts[|cuts| - 1], g);
    var norm := if gSum > 0.0 then 1.0 / gSum else 0.0;
    out := gOut * norm;
    TimesInverse(gOut, gSum);
  }

  lemma TimesInverse(x: real, y: real)
    requires y > 0.0
    ensures x * (1.0 / y) == x / y
  {
  }

  // ----- Chunk, merge, compare -----

  /** The keys of chunk `c`, in the window, start here. */
  function Cut(tokens: nat, base: nat, size: nat, window: nat, c: nat): nat {
    var cut := Larger(base + c * size, WindowStart(tokens, window));
    if cut > tokens then tokens else cut
  }

  lemma CutsTile(tokens: nat, base: nat, size: nat, window: nat, c: nat)
    requires size > 0 && base <= tokens
    ensures Cut(tokens, base, size, window, c) <= Cut(tokens, base, size, window, c + 1) <= tokens
    ensures Cut(tokens, base, size, window, 0) == From(tokens, base, window)
    ensures c == DivCeil(tokens - base, size) ==> Cut(tokens, base, size, window, c) == tokens
  {
    assert (c + 1) * size == c * size + size;
    if c == DivCeil(tokens - base, size) {
      assert c * size + size > tokens - base + size - 1;
    }
  }

  lemma PartialOfChunk(e: real -> real, sc: seq<real>, v: seq<real>, base: nat, size: nat, window: nat, c: nat)
    requires size > 0 && |sc| == |v| && base <= |sc| && c < DivCeil(|sc| - base, size)
    ensures var n := |sc|;
            var a, b := ChunkStart(n, base, size, window, c), ChunkEnd(n, base, size, c);
            && a <= b <= n
            && Cut(n, base, size, window, c) <= Cut(n, base, size, window, c + 1) <= n
            && PartialOf(e, sc, v, a, b) == PartialOf(e, sc, v, Cut(n, base, size, window, c), Cut(n, base, size, window, c + 1))
  {
    ChunksTile(|sc|, base, size, window, c);
    CutsTile(|sc|, base, size, window, c);
    assert (c + 1) * size == c * size + size;
  }

  /** `p` is what chunk `c` leaves. */
  ghost predicate IsPartOf(e: real -> real, sc: seq<real>, v: seq<real>, base: nat, size: nat, window: nat, c: nat, p: Partial)
    requires |sc| == |v|
  {
    && Cut(|sc|, base, size, window, c) <= Cut(|sc|, base, size, window, c + 1) <= |sc|
    && p == PartialOf(e, sc, v, Cut(|sc|, base, size, window, c), Cut(|sc|, base, size, window, c + 1))
  }

  ghost function CutsOf(n: nat, base: nat, size: nat, window: nat, chunks: nat): (cuts: seq<nat>)
    requires base < n && size > 0 && chunks == DivCeil(n - base, size)
    ensures |cuts| == chunks + 1 && Tiles(cuts, n) && cuts[0] == From(n, base, window) && cuts[chunks] == n
    ensures forall c :: 0 <= c < |cuts| ==> cuts[c] == Cut(n, base, size, window, c)
  {
    var cuts: seq<nat> := seq(chunks + 1, c requires 0 <= c => Cut(n, base, size, window, c));
    CutsTile(n, base, size, window, chunks);
    assert Tiles(cuts, n) by {
      forall i | 0 <= i < |cuts|
        ensures cuts[i] <= n && (i < |cuts| - 1 ==> cuts[i] <= cuts[i + 1])
      {
        CutsTile(n, base, size, window, i);
      }
    }
    assert cuts[0] == From(n, base, window) by {
      CutsTile(n, base, size, window, 0);
    }
    cuts
  }

  /** Merging the partials of all chunks, for one output component. */
  method MergeChunks(e: real -> real, parts: seq<Partial>, ghost sc: seq<real>, ghost v: seq<real>, ghost base: nat, ghost size: nat,
                     ghost window: nat) returns (out: real)
    requires IsExp(e) && base < |sc| == |v| && size > 0 && |parts| == DivCeil(|sc| - base, size)
    requires forall c :: 0 <= c < |parts| ==> IsPartOf(e, sc, v, base, size, window, c, parts[c])
    ensures out == Attended(e, sc, v, From(|sc|, base, window), |sc|)
  {
    hide PartialOf, IsExp, Attended, Cut;
    ghost var cuts := CutsOf(|sc|, base, size, window, |parts|);
    out := Combine(e, parts, sc, v, cuts);
  }

  // ----- The reference -----

  /** The attention weight of key `t`. */
  function Share(e: real -> real, sc: seq<real>, t: nat): real
    requires IsExp(e) && t < |sc|
  {
    var m := Greatest(sc, 0, |sc|).value;
    WeightsPositive(e, sc, 0, |sc|, m);
    e(sc[t] - m) / Weights(e, sc, 0, |sc|, m)
  }

  method GreatestScore(scores: array<real>) returns (mx: Option<real>)
    ensures mx == Greatest(scores[..], 0, scores.Length)
  {
    mx := None;
    for t := 0 to scores.Length
      invariant mx == Greatest(scores[..], 0, t)
    {
      mx := Some(Max(mx, scores[t]));
    }
  }

  method Exponentiate(e: real -> real, scores: array<real>, m: real) returns (sum: real)
    modifies scores
    ensures forall t :: 0 <= t < scores.Length ==> scores[t] == e(old(scores[t]) - m)
    ensures sum == Weights(e, old(scores[..]), 0, scores.Length, m)
  {
    ghost var sc := scores[..];
    sum := 0.0;
    for t := 0 to scores.Length
      invariant forall k :: 0 <= k < t ==> scores[k] == e(sc[k] - m)
      invariant forall k :: t <= k < scores.Length ==> scores[k] == sc[k]
      invariant sum == Weights(e, sc, 0, t, m)
    {
      scores[t] := e(scores[t] - m);
      sum := sum + scores[t];
    }
  }

  function Scaled(x: real, inv: real): real {
    x * inv
  }

  method ScaleBy(scores: array<real>, inv: real)
    modifies scores
    ensures forall t :: 0 <= t < scores.Length ==> scores[t] == Scaled(old(scores[t]), inv)
  {
    for t := 0 to scores.Length
      invariant forall k :: 0 <= k < t ==> scores[k] == Scaled(old(scores[k]), inv)
      invariant forall k :: t <= k < scores.Length ==> scores[k] == old(scores[k])
    {
      scores[t] := scores[t] * inv;
    }
  }

  /** The scores are overwritten with the attention weights: greatest score, exponentials and their
      sum, division by the sum. */
  method SoftmaxInPlace(e: real -> real, scores: array<real>)
    requires IsExp(e) && 0 < scores.Length
    modifies scores
    ensures forall t :: 0 <= t < scores.Length ==> scores[t] == Share(e, old(scores[..]), t)
  {
    ghost var sc := scores[..];
    var mx := GreatestScore(scores);
    var sum := Exponentiate(e, scores, mx.value);
    WeightsPositive(e, sc, 0, |sc|, mx.value);
    ghost var exps := scores[..];
    hide Weights, Greatest, Share, IsExp, Scaled;
    ScaleBy(scores, 1.0 / sum);
    forall t | 0 <= t < scores.Length
      ensures scores[t] == Share(e, sc, t)
    {
      ShareIs(e, sc, t, mx.value, sum);
      assert scores[t] == Scaled(exps[t], 1.0 / sum);
    }
  }

  lemma ShareIs(e: real -> real, sc: seq<real>, t: nat, m: real, sum: real)
    requires IsExp(e) && t < |sc| && Greatest(sc, 0, |sc|) == Some(m) && sum == Weights(e, sc, 0, |sc|, m) && sum > 0.0
    ensures Scaled(e(sc[t] - m), 1.0 / sum) == Share(e, sc, t)
  {
    hide Weights, IsExp;
    TimesInverse(e(sc[t] - m), sum);
  }

  /** The reference: softmax the scores in place, then add up the weighted values. */
  method ThreePass(e: real -> real, scores: array<real>, v: seq<real>) returns (out: real)
    requires IsExp(e) && 0 < scores.Length == |v|
    modifies scores
    ensures out == Attended(e, old(scores[..]), v, 0, |v|)
  {
    ghost var sc := scores[..];
    SoftmaxInPlace(e, scores);
    out := 0.0;
    for t := 0 to scores.Length
      invariant out == Blend(scores[..], v, t)
    {
      out := out + scores[t] * v[t];
    }
    BlendIsAttended(e, sc, v, scores[..]);
  }

  function Blend(shares: seq<real>, v: seq<real>, n: nat): real
    requires n <= |shares| == |v|
  {
    if n == 0 then 0.0 else Blend(shares, v, n - 1) + shares[n - 1] * v[n - 1]
  }

  lemma BlendIsAttended(e: real -> real, sc: seq<real>, v: seq<real>, shares: seq<real>)
    requires IsExp(e) && 0 < |sc| == |v| == |shares| && forall t :: 0 <= t < |sc| ==> shares[t] == Share(e, sc, t)
    ensures Blend(shares, v, |v|) == Attended(e, sc, v, 0, |v|)
  {
    var m := Greatest(sc, 0, |sc|).value;
    WeightsPositive(e, sc, 0, |sc|, m);
    BlendIsWeighted(e, sc, v, shares, m, Weights(e, sc, 0, |sc|, m), |v|);
  }

  lemma {:induction false} BlendIsWeighted(e: real -> real, sc: seq<real>, v: seq<real>, shares: seq<real>, m: real, sum: real, n: nat)
    requires n <= |sc| == |v| == |shares| && sum > 0.0
    requires forall t :: 0 <= t < |sc| ==> shares[t] == e(sc[t] - m) / sum
    ensures Blend(shares, v, n) == Weighted(e, sc, v, 0, n, m) / sum
  {
    if n > 0 {
      BlendIsWeighted(e, sc, v, shares, m, sum, n - 1);
      DividesSum(Weighted(e, sc, v, 0, n - 1, m), e(sc[n - 1] - m), v[n - 1], sum);
    }
  }

  lemma DividesSum(x: real, w: real, y: real, sum: real)
    requires sum > 0.0
    ensures (x + w * y) / sum == x / sum + w / sum * y
  {
    var q, p := x / sum, w / sum;
    assert q * sum == x && p * sum == w;
    assert (q + p * y) * sum == q * sum + p * sum * y;
  }
}
