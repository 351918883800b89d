/** The gated delta-rule recurrence: flat arrays updated in place by a loop nest, against one
    recurrence per state row. */
module GatedDelta {
  import Sums

  // ----- The recurrence of one row -----

  /** What a state row meets at one token: `g` is the gate's exponential, `v` this row's value. */
  datatype Token = Token(k: seq<real>, q: seq<real>, v: real, g: real, beta: real)

  function Dot(x: seq<real>, y: seq<real>, n: nat): real
    requires n <= |x| && n <= |y|
  {
    if n == 0 then 0.0 else Dot(x, y, n - 1) + x[n - 1] * y[n - 1]
  }

  function Scaled(row: seq<real>, g: real): (r: seq<real>)
    ensures |r| == |row|
  {
    seq(|row|, i requires 0 <= i < |row| => row[i] * g)
  }

  /** `row + k * delta` */
  function Moved(row: seq<real>, k: seq<real>, delta: real): (r: seq<real>)
    requires |row| == |k|
    ensures |r| == |row|
  {
    seq(|row|, i requires 0 <= i < |row| => row[i] + k[i] * delta)
  }

  /** `beta` times what the decayed row misses of the value at `k`. */
  function Delta(decayed: seq<real>, tok: Token): real
    requires |decayed| == |tok.k|
  {
    (tok.v - Dot(decayed, tok.k, |decayed|)) * tok.beta
  }

  /** Decay the row, then move it along `k` by `beta` times what is missing to `v`. */
  function NextRow(row: seq<real>, tok: Token): (r: seq<real>)
    requires |row| == |tok.k| == |tok.q|
    ensures |r| == |row|
  {
    var decayed := Scaled(row, tok.g);
    Moved(decayed, tok.k, Delta(decayed, tok))
  }

  predicate Fit(tokens: seq<Token>, n: nat) {
    forall t :: 0 <= t < |tokens| ==> |tokens[t].k| == |tokens[t].q| == n
  }

  function RowAfter(row: seq<real>, tokens: seq<Token>): (r: seq<real>)
    requires Fit(tokens, |row|)
    ensures |r| == |row|
  {
    if tokens == [] then row else NextRow(RowAfter(row, tokens[..|tokens| - 1]), tokens[|tokens| - 1])
  }

  /** The attention output of the last token. */
  function OutAfter(row: seq<real>, tokens: seq<Token>): real
    requires Fit(tokens, |row|) && tokens != []
  {
    Dot(RowAfter(row, tokens), tokens[|tokens| - 1].q, |row|)
  }

  /** Running two batches with the state carried over is running them as one. */
  lemma {:induction false} CarriedState(row: seq<real>, a: seq<Token>, b: seq<Token>)
    requires Fit(a, |row|) && Fit(b, |row|)
    ensures RowAfter(row, a + b) == RowAfter(RowAfter(row, a), b)
    ensures b != [] ==> OutAfter(row, a + b) == OutAfter(RowAfter(row, a), b)
  {
    if b == [] {
      assert a + b == a;
    } else {
      var n := |b| - 1;
      assert (a + b)[..|a + b| - 1] == a + b[..n];
      CarriedState(row, a, b[..n]);
    }
  }

  // ----- The delta rule -----

  lemma {:induction false} DotScaled(row: seq<real>, g: real, k: seq<real>, n: nat)
    requires n <= |row| == |k|
    ensures Dot(Scaled(row, g), k, n) == g * Dot(row, k, n)
  {
    if n > 0 {
      DotScaled(row, g, k, n - 1);
      ScalesSum(g, Dot(row, k, n - 1), row[n - 1], k[n - 1]);
    }
  }

  lemma ScalesSum(g: real, d: real, x: real, y: real)
    ensures g * d + x * g * y == g * (d + x * y)
  {
  }

  lemma {:induction false} DotMoved(row: seq<real>, k: seq<real>, delta: real, y: seq<real>, n: nat)
    requires n <= |row| == |k| == |y|
    ensures Dot(Moved(row, k, delta), y, n) == Dot(row, y, n) + delta * Dot(k, y, n)
  {
    if n > 0 {
      DotMoved(row, k, delta, y, n - 1);
      MovesSum(Dot(row, y, n - 1), Dot(k, y, n - 1), delta, row[n - 1], k[n - 1], y[n - 1]);
    }
  }

  lemma MovesSum(d: real, e: real, delta: real, x: real, k: real, y: real)
    ensures d + delta * e + (x + k * delta) * y == d + x * y + delta * (e + k * y)
  {
  }

  /** Reading the state at `k` after the token gives the value mixed with the decayed reading before,
      when `k` has length one. */
  lemma DeltaRule(row: seq<real>, tok: Token)
    requires |row| == |tok.k| == |tok.q| && Dot(tok.k, tok.k, |row|) == 1.0
    ensures Dot(NextRow(row, tok), tok.k, |row|) == (1.0 - tok.beta) * (tok.g * Dot(row, tok.k, |row|)) + tok.beta * tok.v
  {
    hide Dot, Moved, Scaled, Delta;
    var n, decayed := |row|, Scaled(row, tok.g);
    var delta := Delta(decayed, tok);
    DotScaled(row, tok.g, tok.k, n);
    DotMoved(decayed, tok.k, delta, tok.k, n);
    DeltaIs(decayed, tok);
    MixesValue(Dot(NextRow(row, tok), tok.k, n), Dot(decayed, tok.k, n), tok.g * Dot(row, tok.k, n), delta, Dot(tok.k, tok.k, n), tok.v, tok.beta);
  }

  lemma DeltaIs(decayed: seq<real>, tok: Token)
    requires |decayed| == |tok.k|
    ensures Delta(decayed, tok) == (tok.v - Dot(decayed, tok.k, |decayed|)) * tok.beta
  {
  }

  lemma MixesValue(x: real, sk: real, gsk: real, delta: real, kk: real, v: real, beta: real)
    requires x == sk + delta * kk && delta == (v - sk) * beta && kk == 1.0 && sk == gsk
    ensures x == (1.0 - beta) * gsk + beta * v
  {
    assert x == sk + delta;
  }

  /** Where the query is orthogonal to `k`, the token only decays the output. */
  lemma OrthogonalQueryDecays(row: seq<real>, tok: Token)
    requires |row| == |tok.k| == |tok.q| && Dot(tok.k, tok.q, |row|) == 0.0
    ensures Dot(NextRow(row, tok), tok.q, |row|) == tok.g * Dot(row, tok.q, |row|)
  {
    hide Dot, Moved, Scaled, Delta;
    var n, decayed := |row|, Scaled(row, tok.g);
    var delta := Delta(decayed, tok);
    DotScaled(row, tok.g, tok.q, n);
    DotMoved(decayed, tok.k, delta, tok.q, n);
    TimesZero(delta, Dot(tok.k, tok.q, n));
  }

  lemma TimesZero(x: real, z: real)
    requires z == 0.0
    ensures x * z == 0.0
  {
  }

  // ----- Flat layouts -----

  /** Batches, value heads, key heads, tokens, and the head dimension. */
  datatype Shape = Shape(b: nat, hV: nat, hKv: nat, l: nat, s: nat)

  datatype Inputs = Inputs(q: seq<real>, k: seq<real>, v: seq<real>, gate: seq<real>, beta: seq<real>)

  predicate Shaped(sh: Shape, inp: Inputs) {
    && sh.s > 0 && (sh.hV > 0 ==> sh.hKv > 0)
    && |inp.q| == |inp.k| == sh.b * sh.l * sh.hKv * sh.s
    && |inp.v| == sh.b * sh.l * sh.hV * sh.s
    && |inp.gate| == |inp.beta| == sh.b * sh.l * sh.hV
  }

  function GateAt(sh: Shape, bi: nat, t: nat, hv: nat): nat {
    (bi * sh.l + t) * sh.hV + hv
  }

  function KeyBase(sh: Shape, bi: nat, t: nat, hv: nat): nat
    requires sh.hKv > 0
  {
    ((bi * sh.l + t) * sh.hKv + hv % sh.hKv) * sh.s
  }

  function OutAt(sh: Shape, bi: nat, t: nat, hv: nat, col: nat): nat {
    ((bi * sh.l + t) * sh.hV + hv) * sh.s + col
  }

  function RowBase(sh: Shape, bi: nat, hv: nat, col: nat): nat {
    ((bi * sh.hV + hv) * sh.s + col) * sh.s
  }

  lemma Fits(a: nat, n: nat, b: nat, m: nat)
    requires a < n && b < m
    ensures a * m + b < n * m && a * m + m <= n * m
  {
    assert (a + 1) * m <= n * m;
  }

  predicate InShape(sh: Shape, bi: nat, hv: nat, col: nat) {
    bi < sh.b && hv < sh.hV && col < sh.s
  }

  function StateSize(sh: Shape): nat {
    sh.b * sh.hV * sh.s * sh.s
  }

  function OutSize(sh: Shape): nat {
    sh.b * sh.l * sh.hV * sh.s
  }

  lemma RowsFit(sh: Shape, bi: nat, hv: nat, col: nat)
    requires InShape(sh, bi, hv, col)
    ensures RowBase(sh, bi, hv, col) + sh.s <= StateSize(sh)
  {
    Fits(bi, sh.b, hv, sh.hV);
    var head := bi * sh.hV + hv;
    Fits(head, sh.b * sh.hV, col, sh.s);
    var row := head * sh.s + col;
    Fits(row, sh.b * sh.hV * sh.s, 0, sh.s);
  }

  lemma OutsFit(sh: Shape, bi: nat, t: nat, hv: nat, col: nat)
    requires InShape(sh, bi, hv, col) && t < sh.l
    ensures OutAt(sh, bi, t, hv, col) < OutSize(sh)
    ensures GateAt(sh, bi, t, hv) < sh.b * sh.l * sh.hV
  {
    Fits(bi, sh.b, t, sh.l);
    HeadFits(bi * sh.l + t, sh.b * sh.l, hv, sh.hV, col, sh.s);
  }

  lemma HeadFits(token: nat, tokens: nat, hv: nat, heads: nat, col: nat, s: nat)
    requires token < tokens && hv < heads && col < s
    ensures (token * heads + hv) * s + col < tokens * heads * s
    ensures token * heads + hv < tokens * heads
  {
    Fits(token, tokens, hv, heads);
    Fits(token * heads + hv, tokens * heads, col, s);
  }

  lemma KeysFit(sh: Shape, bi: nat, t: nat, hv: nat)
    requires bi < sh.b && t < sh.l && sh.hKv > 0 && sh.s > 0
    ensures KeyBase(sh, bi, t, hv) + sh.s <= sh.b * sh.l * sh.hKv * sh.s
  {
    var kv := hv % sh.hKv;
    assert kv < sh.hKv;
    Fits(bi, sh.b, t, sh.l);
    var token := bi * sh.l + t;
    Fits(token, sh.b * sh.l, kv, sh.hKv);
    var head := token * sh.hKv + kv;
    Fits(head, sh.b * sh.l * sh.hKv, 0, sh.s);
  }

  /** Row `col` of head `hv` in batch `bi`. */
  function RowOf(sh: Shape, state: seq<real>, bi: nat, hv: nat, col: nat): (r: seq<real>)
    requires InShape(sh, bi, hv, col) && |state| == StateSize(sh)
    ensures |r| == sh.s
  {
    RowsFit(sh, bi, hv, col);
    state[RowBase(sh, bi, hv, col)..RowBase(sh, bi, hv, col) + sh.s]
  }

  /** What that row meets at token `t`. */
  function TokenAt(sh: Shape, inp: Inputs, exp: real -> real, bi: nat, t: nat, hv: nat, col: nat): (tok: Token)
    requires Shaped(sh, inp) && InShape(sh, bi, hv, col) && t < sh.l
    ensures |tok.k| == |tok.q| == sh.s
  {
    OutsFit(sh, bi, t, hv, col);
    KeysFit(sh, bi, t, hv);
    var kb := KeyBase(sh, bi, t, hv);
    Token(inp.k[kb..kb + sh.s], inp.q[kb..kb + sh.s], inp.v[OutAt(sh, bi, t, hv, col)],
          exp(inp.gate[GateAt(sh, bi, t, hv)]), inp.beta[GateAt(sh, bi, t, hv)])
  }

  function TokensOf(sh: Shape, inp: Inputs, exp: real -> real, bi: nat, hv: nat, col: nat, n: nat): (tokens: seq<Token>)
    requires Shaped(sh, inp) && InShape(sh, bi, hv, col) && n <= sh.l
    ensures |tokens| == n && Fit(tokens, sh.s)
  {
    seq(n, t requires 0 <= t < n => TokenAt(sh, inp, exp, bi, t, hv, col))
  }

  ghost predicate OnlyIn(a: seq<real>, b: seq<real>, from: nat, count: nat) {
    |a| == |b| && forall i :: 0 <= i < |a| && !(from <= i < from + count) ==> b[i] == a[i]
  }

  /** How much state, and how much output of one token, so many heads take. */
  function StateSpan(sh: Shape, heads: nat): nat {
    heads * (sh.s * sh.s)
  }

  function OutSpan(sh: Shape, heads: nat): nat {
    heads * sh.s
  }

  lemma SpansGrow(sh: Shape, h: nat)
    ensures StateSpan(sh, h + 1) == StateSpan(sh, h) + StateSpan(sh, 1) && StateSpan(sh, 0) == 0
    ensures OutSpan(sh, h + 1) == OutSpan(sh, h) + OutSpan(sh, 1) && OutSpan(sh, 0) == 0
  {
    assert (h + 1) * (sh.s * sh.s) == h * (sh.s * sh.s) + sh.s * sh.s;
    assert (h + 1) * sh.s == h * sh.s + sh.s;
  }

  lemma SpansFit(sh: Shape, h: nat, heads: nat)
    requires h < heads
    ensures StateSpan(sh, h) + StateSpan(sh, 1) <= StateSpan(sh, heads)
    ensures OutSpan(sh, h) + OutSpan(sh, 1) <= OutSpan(sh, heads)
  {
    EarlierFits(h, heads, sh.s * sh.s);
    EarlierFits(h, heads, sh.s);
  }

  // ----- The loop nest -----

  method DecayRow(state: array<real>, base: nat, s: nat, g: real)
    requires base + s <= state.Length
    modifies state
    ensures state[base..base + s] == Scaled(old(state[base..base + s]), g)
    ensures OnlyIn(old(state[..]), state[..], base, s)
  {
    ghost var row := state[base..base + s];
    for i := 0 to s
      invariant forall j :: 0 <= j < i ==> state[base + j] == Scaled(row, g)[j]
      invariant forall j :: i <= j < s ==> state[base + j] == row[j]
      invariant OnlyIn(old(state[..]), state[..], base, s)
    {
      state[base + i] := state[base + i] * g;
    }
  }

  method MoveRow(state: array<real>, base: nat, s: nat, k: seq<real>, delta: real)
    requires base + s <= state.Length && |k| == s
    modifies state
    ensures state[base..base + s] == Moved(old(state[base..base + s]), k, delta)
    ensures OnlyIn(old(state[..]), state[..], base, s)
  {
    ghost var row := state[base..base + s];
    for i := 0 to s
      invariant forall j :: 0 <= j < i ==> state[base + j] == Moved(row, k, delta)[j]
      invariant forall j :: i <= j < s ==> state[base + j] == row[j]
      invariant OnlyIn(old(state[..]), state[..], base, s)
    {
      state[base + i] := state[base + i] + k[i] * delta;
    }
  }

  method ReadRow(state: array<real>, base: nat, s: nat, x: seq<real>) returns (a: real)
    requires base + s <= state.Length && |x| == s
    ensures a == Dot(state[base..base + s], x, s)
  {
    a := 0.0;
    for i := 0 to s
      invariant a == Dot(state[base..base + s], x, i)
    {
      a := a + state[base + i] * x[i];
    }
  }

  /** The row at `base` took one step and was read at the query; nothing else moved. */
  ghost predicate RowMoved(s0: seq<real>, s1: seq<real>, base: nat, s: nat, tok: Token, a: real)
    requires |tok.k| == |tok.q| == s && base + s <= |s0|
  {
    && OnlyIn(s0, s1, base, s)
    && s1[base..base + s] == NextRow(s0[base..base + s], tok) && a == Dot(s1[base..base + s], tok.q, s)
  }

  /** The body of the innermost row loop: decay, read at `k`, correct, read at `q`. */
  method StepRow(state: array<real>, base: nat, s: nat, tok: Token) returns (a: real)
    requires base + s <= state.Length && |tok.k| == |tok.q| == s
    modifies state
    ensures state[base..base + s] == NextRow(old(state[base..base + s]), tok)
    ensures OnlyIn(old(state[..]), state[..], base, s)
    ensures a == Dot(state[base..base + s], tok.q, s)
    ensures RowMoved(old(state[..]), state[..], base, s, tok, a)
  {
    ghost var s0 := state[..];
    assert state[base..base + s] == s0[base..base + s];
    hide Scaled, Moved, Dot;
    DecayRow(state, base, s, tok.g);
    ghost var decayed := state[base..base + s];
    var sk := ReadRow(state, base, s, tok.k);
    var delta := (tok.v - sk) * tok.beta;
    assert delta == Delta(decayed, tok);
    hide Delta;
    MoveRow(state, base, s, tok.k, delta);
    a := ReadRow(state, base, s, tok.q);
    assert state[base..base + s] == state[..][base..base + s];
  }

  /** One head at one token: every row of its state takes a step. */
  ghost predicate HeadStepped(sh: Shape, inp: Inputs, exp: real -> real, s0: seq<real>, s1: seq<real>, attn: seq<real>,
                              bi: nat, t: nat, hv: nat, cols: nat)
    requires Shaped(sh, inp) && bi < sh.b && hv < sh.hV && t < sh.l && cols <= sh.s
    requires |s0| == |s1| == StateSize(sh) && |attn| == OutSize(sh)
  {
    forall col :: 0 <= col < cols ==> RowStepped(sh, inp, exp, s0, s1, attn, bi, t, hv, col)
  }

  ghost predicate RowStepped(sh: Shape, inp: Inputs, exp: real -> real, s0: seq<real>, s1: seq<real>, attn: seq<real>,
                             bi: nat, t: nat, hv: nat, col: nat)
    requires Shaped(sh, inp) && InShape(sh, bi, hv, col) && t < sh.l
    requires |s0| == |s1| == StateSize(sh) && |attn| == OutSize(sh)
  {
    OutsFit(sh, bi, t, hv, col);
    var tok := TokenAt(sh, inp, exp, bi, t, hv, col);
    && RowOf(sh, s1, bi, hv, col) == NextRow(RowOf(sh, s0, bi, hv, col), tok)
    && attn[OutAt(sh, bi, t, hv, col)] == Dot(RowOf(sh, s1, bi, hv, col), tok.q, sh.s)
  }

  lemma RowIsStepped(sh: Shape, inp: Inputs, exp: real -> real, s0: seq<real>, s1: seq<real>, attn: seq<real>,
                     bi: nat, t: nat, hv: nat, col: nat, a: real)
    requires Shaped(sh, inp) && InShape(sh, bi, hv, col) && t < sh.l
    requires |s0| == |s1| == StateSize(sh) && |attn| == OutSize(sh)
    requires RowBase(sh, bi, hv, col) + sh.s <= |s0| && OutAt(sh, bi, t, hv, col) < |attn| && attn[OutAt(sh, bi, t, hv, col)] == a
    requires RowMoved(s0, s1, RowBase(sh, bi, hv, col), sh.s, TokenAt(sh, inp, exp, bi, t, hv, col), a)
    ensures RowStepped(sh, inp, exp, s0, s1, attn, bi, t, hv, col)
    ensures OnlyIn(s0, s1, RowBase(sh, bi, hv, col), sh.s)
  {
    hide RowBase, OutAt, TokenAt, NextRow, Dot, OnlyIn;
  }

  lemma OneIn(a: seq<real>, at: nat, x: real)
    requires at < |a|
    ensures OnlyIn(a, a[at := x], at, 1)
  {
  }

  /** The body of the `col` loop. */
  method StepCol(sh: Shape, inp: Inputs, exp: real -> real, state: array<real>, attn: array<real>, bi: nat, t: nat, hv: nat, col: nat)
    requires Shaped(sh, inp) && InShape(sh, bi, hv, col) && t < sh.l
    requires state.Length == StateSize(sh) && attn.Length == OutSize(sh) && state != attn
    modifies state, attn
    ensures RowStepped(sh, inp, exp, old(state[..]), state[..], attn[..], bi, t, hv, col)
    ensures OnlyIn(old(state[..]), state[..], RowBase(sh, bi, hv, col), sh.s)
    ensures OnlyIn(old(attn[..]), attn[..], OutAt(sh, bi, t, hv, col), 1)
  {
    ghost var s0 := state[..];
    RowsFit(sh, bi, hv, col);
    OutsFit(sh, bi, t, hv, col);
    hide RowStepped, RowBase, OutAt, TokenAt, NextRow, Dot, StateSize, OutSize, Shaped, OnlyIn, RowMoved;
    var base, tok := RowBase(sh, bi, hv, col), TokenAt(sh, inp, exp, bi, t, hv, col);
    var a := StepRow(state, base, sh.s, tok);
    ghost var a0 := attn[..];
    OneIn(a0, OutAt(sh, bi, t, hv, col), a);
    attn[OutAt(sh, bi, t, hv, col)] := a;
    assert attn[..] == a0[OutAt(sh, bi, t, hv, col) := a];
    RowIsStepped(sh, inp, exp, s0, state[..], attn[..], bi, t, hv, col, a);
  }

  method StepHead(sh: Shape, inp: Inputs, exp: real -> real, state: array<real>, attn: array<real>, bi: nat, t: nat, hv: nat)
    requires Shaped(sh, inp) && bi < sh.b && hv < sh.hV && t < sh.l
    requires state.Length == StateSize(sh) && attn.Length == OutSize(sh) && state != attn
    modifies state, attn
    ensures HeadStepped(sh, inp, exp, old(state[..]), state[..], attn[..], bi, t, hv, sh.s)
    ensures OnlyIn(old(state[..]), state[..], RowBase(sh, bi, hv, 0), StateSpan(sh, 1))
    ensures OnlyIn(old(attn[..]), attn[..], OutAt(sh, bi, t, hv, 0), OutSpan(sh, 1))
  {
    ghost var s0 := state[..];
    ghost var a0 := attn[..];
    assert HeadStepped(sh, inp, exp, s0, s0, a0, bi, t, hv, 0);
    hide HeadStepped, RowStepped, RowBase, OutAt, StateSize, OutSize, Shaped;
    for col := 0 to sh.s
      invariant HeadStepped(sh, inp, exp, s0, state[..], attn[..], bi, t, hv, col)
      invariant OnlyIn(s0, state[..], RowBase(sh, bi, hv, 0), col * sh.s)
      invariant OnlyIn(a0, attn[..], OutAt(sh, bi, t, hv, 0), col)
    {
      hide OnlyIn;
      ghost var s1, a1 := state[..], attn[..];
      StepCol(sh, inp, exp, state, attn, bi, t, hv, col);
      HeadAdvances(sh, inp, exp, s0, s1, state[..], a0, a1, attn[..], bi, t, hv, col);
    }
  }

  lemma RowsFollow(sh: Shape, bi: nat, hv: nat, col: nat)
    ensures RowBase(sh, bi, hv, col) == RowBase(sh, bi, hv, 0) + col * sh.s
  {
  }

  lemma OutsFollow(sh: Shape, bi: nat, t: nat, hv: nat, col: nat)
    ensures OutAt(sh, bi, t, hv, col) == OutAt(sh, bi, t, hv, 0) + col
  {
  }

  lemma EarlierFits(c: nat, d: nat, m: nat)
    requires c < d
    ensures c * m + m <= d * m
  {
    assert (c + 1) * m <= d * m;
  }

  lemma RowKept(sh: Shape, s1: seq<real>, s2: seq<real>, from: nat, count: nat, bi: nat, hv: nat, col: nat)
    requires InShape(sh, bi, hv, col) && |s1| == |s2| == StateSize(sh) && OnlyIn(s1, s2, from, count)
    requires RowBase(sh, bi, hv, col) + sh.s <= from || from + count <= RowBase(sh, bi, hv, col)
    ensures RowOf(sh, s2, bi, hv, col) == RowOf(sh, s1, bi, hv, col)
  {
    RowsFit(sh, bi, hv, col);
  }

  lemma OnlyInExtends(a: seq<real>, b: seq<real>, c: seq<real>, from: nat, count: nat, more: nat)
    requires OnlyIn(a, b, from, count) && OnlyIn(b, c, from + count, more)
    ensures OnlyIn(a, c, from, count + more)
  {
  }

  lemma HeadAdvances(sh: Shape, inp: Inputs, exp: real -> real, s0: seq<real>, s1: seq<real>, s2: seq<real>,
                     a0: seq<real>, a1: seq<real>, a2: seq<real>, bi: nat, t: nat, hv: nat, col: nat)
    requires Shaped(sh, inp) && InShape(sh, bi, hv, col) && t < sh.l
    requires |s0| == |s1| == |s2| == StateSize(sh) && |a0| == |a1| == |a2| == OutSize(sh)
    requires HeadStepped(sh, inp, exp, s0, s1, a1, bi, t, hv, col)
    requires OnlyIn(s0, s1, RowBase(sh, bi, hv, 0), col * sh.s) && OnlyIn(a0, a1, OutAt(sh, bi, t, hv, 0), col)
    requires OnlyIn(s1, s2, RowBase(sh, bi, hv, col), sh.s) && OnlyIn(a1, a2, OutAt(sh, bi, t, hv, col), 1)
    requires RowStepped(sh, inp, exp, s1, s2, a2, bi, t, hv, col)
    ensures HeadStepped(sh, inp, exp, s0, s2, a2, bi, t, hv, col + 1)
    ensures OnlyIn(s0, s2, RowBase(sh, bi, hv, 0), (col + 1) * sh.s) && OnlyIn(a0, a2, OutAt(sh, bi, t, hv, 0), col + 1)
  {
    hide RowBase, OutAt, HeadStepped, RowStepped, OnlyIn, StateSize, OutSize;
    RowsFollow(sh, bi, hv, col);
    OutsFollow(sh, bi, t, hv, col);
    OneMore(col, sh.s);
    OnlyInExtends(s0, s1, s2, RowBase(sh, bi, hv, 0), col * sh.s, sh.s);
    OnlyInExtends(a0, a1, a2, OutAt(sh, bi, t, hv, 0), col, 1);
    RowsAdvance(sh, inp, exp, s0, s1, s2, a1, a2, bi, t, hv, col);
  }

  lemma OneMore(n: nat, m: nat)
    ensures (n + 1) * m == n * m + m
  {
  }

  lemma RowsAdvance(sh: Shape, inp: Inputs, exp: real -> real, s0: seq<real>, s1: seq<real>, s2: seq<real>,
                    a1: seq<real>, a2: seq<real>, bi: nat, t: nat, hv: nat, col: nat)
    requires Shaped(sh, inp) && InShape(sh, bi, hv, col) && t < sh.l
    requires |s0| == |s1| == |s2| == StateSize(sh) && |a1| == |a2| == OutSize(sh)
    requires HeadStepped(sh, inp, exp, s0, s1, a1, bi, t, hv, col) && OnlyIn(s0, s1, RowBase(sh, bi, hv, 0), col * sh.s)
    requires OnlyIn(s1, s2, RowBase(sh, bi, hv, col), sh.s) && OnlyIn(a1, a2, OutAt(sh, bi, t, hv, col), 1)
    requires RowStepped(sh, inp, exp, s1, s2, a2, bi, t, hv, col)
    ensures HeadStepped(sh, inp, exp, s0, s2, a2, bi, t, hv, col + 1)
  {
    hide RowBase, OutAt, OnlyIn, RowOf, TokenAt, StateSize, OutSize;
    RowsFollow(sh, bi, hv, col);
    RowKept(sh, s0, s1, RowBase(sh, bi, hv, 0), col * sh.s, bi, hv, col);
    forall c | 0 <= c < col + 1
      ensures RowStepped(sh, inp, exp, s0, s2, a2, bi, t, hv, c)
    {
      if c < col {
        assert RowStepped(sh, inp, exp, s0, s1, a1, bi, t, hv, c);
        RowStaysStepped(sh, inp, exp, s0, s1, s2, a1, a2, bi, t, hv, c, col);
      }
    }
  }

  lemma RowStaysStepped(sh: Shape, inp: Inputs, exp: real -> real, s0: seq<real>, s1: seq<real>, s2: seq<real>,
                        a1: seq<real>, a2: seq<real>, bi: nat, t: nat, hv: nat, c: nat, col: nat)
    requires Shaped(sh, inp) && InShape(sh, bi, hv, col) && t < sh.l && c < col
    requires |s0| == |s1| == |s2| == StateSize(sh) && |a1| == |a2| == OutSize(sh)
    requires RowStepped(sh, inp, exp, s0, s1, a1, bi, t, hv, c)
    requires OnlyIn(s1, s2, RowBase(sh, bi, hv, col), sh.s) && OnlyIn(a1, a2, OutAt(sh, bi, t, hv, col), 1)
    ensures RowStepped(sh, inp, exp, s0, s2, a2, bi, t, hv, c)
  {
    hide RowBase, OutAt, RowOf, TokenAt;
    RowsFollow(sh, bi, hv, c);
    RowsFollow(sh, bi, hv, col);
    EarlierFits(c, col, sh.s);
    OutsFit(sh, bi, t, hv, c);
    OutsFollow(sh, bi, t, hv, c);
    OutsFollow(sh, bi, t, hv, col);
    RowKept(sh, s1, s2, RowBase(sh, bi, hv, col), sh.s, bi, hv, c);
  }

  // ----- All heads of a token -----

  ghost predicate HeadsStepped(sh: Shape, inp: Inputs, exp: real -> real, s0: seq<real>, s1: seq<real>, attn: seq<real>,
                               bi: nat, t: nat, heads: nat)
    requires Shaped(sh, inp) && bi < sh.b && heads <= sh.hV && t < sh.l
    requires |s0| == |s1| == StateSize(sh) && |attn| == OutSize(sh)
  {
    forall hv, col :: 0 <= hv < heads && 0 <= col < sh.s ==> RowStepped(sh, inp, exp, s0, s1, attn, bi, t, hv, col)
  }

  /** Heads follow one another in the flat arrays. */
  lemma HeadsFollow(sh: Shape, bi: nat, t: nat, hv: nat, col: nat)
    requires col < sh.s
    ensures RowBase(sh, bi, hv, 0) == RowBase(sh, bi, 0, 0) + StateSpan(sh, hv)
    ensures RowBase(sh, bi, hv, 0) <= RowBase(sh, bi, hv, col) && RowBase(sh, bi, hv, col) + sh.s <= RowBase(sh, bi, hv, 0) + StateSpan(sh, 1)
    ensures OutAt(sh, bi, t, hv, 0) == OutAt(sh, bi, t, 0, 0) + OutSpan(sh, hv)
    ensures OutAt(sh, bi, t, hv, 0) <= OutAt(sh, bi, t, hv, col) < OutAt(sh, bi, t, hv, 0) + OutSpan(sh, 1)
  {
    Spreads(bi * sh.hV, hv, sh.s);
    Spreads((bi * sh.l + t) * sh.hV, hv, sh.s);
    RowsFollow(sh, bi, hv, col);
    EarlierFits(col, sh.s, sh.s);
  }

  lemma Spreads(a: nat, h: nat, s: nat)
    ensures (a + h) * s == a * s + h * s && (a + h) * s * s == a * s * s + h * (s * s)
  {
  }

  /** A step of other rows leaves a stepped row stepped. */
  lemma StaysStepped(sh: Shape, inp: Inputs, exp: real -> real, s0: seq<real>, s1: seq<real>, s2: seq<real>,
                     a1: seq<real>, a2: seq<real>, bi: nat, t: nat, hv: nat, col: nat, from: nat, count: nat, out: nat, outs: nat)
    requires Shaped(sh, inp) && InShape(sh, bi, hv, col) && t < sh.l
    requires |s0| == |s1| == |s2| == StateSize(sh) && |a1| == |a2| == OutSize(sh)
    requires RowStepped(sh, inp, exp, s0, s1, a1, bi, t, hv, col)
    requires OnlyIn(s1, s2, from, count) && OnlyIn(a1, a2, out, outs)
    requires RowBase(sh, bi, hv, col) + sh.s <= from && OutAt(sh, bi, t, hv, col) < out
    ensures RowStepped(sh, inp, exp, s0, s2, a2, bi, t, hv, col)
  {
    OutsFit(sh, bi, t, hv, col);
    RowKept(sh, s1, s2, from, count, bi, hv, col);
    hide RowBase, OutAt, RowOf, TokenAt;
  }

  /** A row not touched yet steps from where it was. */
  lemma StepsFromStart(sh: Shape, inp: Inputs, exp: real -> real, s0: seq<real>, s1: seq<real>, s2: seq<real>,
                       a2: seq<real>, bi: nat, t: nat, hv: nat, col: nat)
    requires Shaped(sh, inp) && InShape(sh, bi, hv, col) && t < sh.l
    requires |s0| == |s1| == |s2| == StateSize(sh) && |a2| == OutSize(sh)
    requires RowStepped(sh, inp, exp, s1, s2, a2, bi, t, hv, col) && RowOf(sh, s1, bi, hv, col) == RowOf(sh, s0, bi, hv, col)
    ensures RowStepped(sh, inp, exp, s0, s2, a2, bi, t, hv, col)
  {
    hide RowOf, TokenAt;
  }

  lemma HeadsAdvance(sh: Shape, inp: Inputs, exp: real -> real, s0: seq<real>, s1: seq<real>, s2: seq<real>,
                     a0: seq<real>, a1: seq<real>, a2: seq<real>, bi: nat, t: nat, hv: nat)
    requires Shaped(sh, inp) && bi < sh.b && hv < sh.hV && t < sh.l
    requires |s0| == |s1| == |s2| == StateSize(sh) && |a0| == |a1| == |a2| == OutSize(sh)
    requires HeadsStepped(sh, inp, exp, s0, s1, a1, bi, t, hv)
    requires OnlyIn(s0, s1, RowBase(sh, bi, 0, 0), StateSpan(sh, hv)) && OnlyIn(a0, a1, OutAt(sh, bi, t, 0, 0), OutSpan(sh, hv))
    requires OnlyIn(s1, s2, RowBase(sh, bi, hv, 0), StateSpan(sh, 1)) && OnlyIn(a1, a2, OutAt(sh, bi, t, hv, 0), OutSpan(sh, 1))
    requires HeadStepped(sh, inp, exp, s1, s2, a2, bi, t, hv, sh.s)
    ensures HeadsStepped(sh, inp, exp, s0, s2, a2, bi, t, hv + 1)
    ensures OnlyIn(s0, s2, RowBase(sh, bi, 0, 0), StateSpan(sh, hv + 1)) && OnlyIn(a0, a2, OutAt(sh, bi, t, 0, 0), OutSpan(sh, hv + 1))
  {
    hide RowStepped, RowOf, RowBase, OutAt, StateSpan, OutSpan;
    HeadsFollow(sh, bi, t, hv, 0);
    SpansGrow(sh, hv);
    OnlyInExtends(s0, s1, s2, RowBase(sh, bi, 0, 0), StateSpan(sh, hv), StateSpan(sh, 1));
    OnlyInExtends(a0, a1, a2, OutAt(sh, bi, t, 0, 0), OutSpan(sh, hv), OutSpan(sh, 1));
    hide OnlyIn;
    forall h: nat, col: nat | h < hv + 1 && col < sh.s
      ensures RowStepped(sh, inp, exp, s0, s2, a2, bi, t, h, col)
    {
      HeadsFollow(sh, bi, t, h, col);
      if h < hv {
        assert RowStepped(sh, inp, exp, s0, s1, a1, bi, t, h, col);
        SpansFit(sh, h, hv);
        StaysStepped(sh, inp, exp, s0, s1, s2, a1, a2, bi, t, h, col,
                     RowBase(sh, bi, hv, 0), StateSpan(sh, 1), OutAt(sh, bi, t, hv, 0), OutSpan(sh, 1));
      } else {
        RowKept(sh, s0, s1, RowBase(sh, bi, 0, 0), StateSpan(sh, hv), bi, hv, col);
        StepsFromStart(sh, inp, exp, s0, s1, s2, a2, bi, t, hv, col);
      }
    }
  }

  method StepToken(sh: Shape, inp: Inputs, exp: real -> real, state: array<real>, attn: array<real>, bi: nat, t: nat)
    requires Shaped(sh, inp) && bi < sh.b && t < sh.l
    requires state.Length == StateSize(sh) && attn.Length == OutSize(sh) && state != attn
    modifies state, attn
    ensures HeadsStepped(sh, inp, exp, old(state[..]), state[..], attn[..], bi, t, sh.hV)
    ensures OnlyIn(old(state[..]), state[..], RowBase(sh, bi, 0, 0), StateSpan(sh, sh.hV))
    ensures OnlyIn(old(attn[..]), attn[..], OutAt(sh, bi, t, 0, 0), OutSpan(sh, sh.hV))
  {
    ghost var s0, a0 := state[..], attn[..];
    hide HeadStepped, RowStepped, RowBase, OutAt, OnlyIn, StateSpan, OutSpan;
    SpansGrow(sh, 0);
    OnlyInItself(s0, RowBase(sh, bi, 0, 0));
    OnlyInItself(a0, OutAt(sh, bi, t, 0, 0));
    for hv := 0 to sh.hV
      invariant HeadsStepped(sh, inp, exp, s0, state[..], attn[..], bi, t, hv)
      invariant OnlyIn(s0, state[..], RowBase(sh, bi, 0, 0), StateSpan(sh, hv))
      invariant OnlyIn(a0, attn[..], OutAt(sh, bi, t, 0, 0), OutSpan(sh, hv))
    {
      ghost var s1, a1 := state[..], attn[..];
      StepHead(sh, inp, exp, state, attn, bi, t, hv);
      HeadsAdvance(sh, inp, exp, s0, s1, state[..], a0, a1, attn[..], bi, t, hv);
    }
  }

  lemma OnlyInItself(a: seq<real>, from: nat)
    ensures OnlyIn(a, a, from, 0)
  {
  }

  // ----- All tokens of a batch, all batches -----

  ghost predicate OutDone(sh: Shape, inp: Inputs, exp: real -> real, s0: seq<real>, attn: seq<real>,
                          bi: nat, hv: nat, col: nat, t: nat)
    requires Shaped(sh, inp) && InShape(sh, bi, hv, col) && t < sh.l && |s0| == StateSize(sh) && |attn| == OutSize(sh)
  {
    OutsFit(sh, bi, t, hv, col);
    attn[OutAt(sh, bi, t, hv, col)] == OutAfter(RowOf(sh, s0, bi, hv, col), TokensOf(sh, inp, exp, bi, hv, col, t + 1))
  }

  /** After `n` tokens a row is where its own recurrence puts it, and so are its outputs. */
  ghost predicate RowDone(sh: Shape, inp: Inputs, exp: real -> real, s0: seq<real>, s1: seq<real>, attn: seq<real>,
                          bi: nat, hv: nat, col: nat, n: nat)
    requires Shaped(sh, inp) && InShape(sh, bi, hv, col) && n <= sh.l
    requires |s0| == |s1| == StateSize(sh) && |attn| == OutSize(sh)
  {
    && RowOf(sh, s1, bi, hv, col) == RowAfter(RowOf(sh, s0, bi, hv, col), TokensOf(sh, inp, exp, bi, hv, col, n))
    && forall t :: 0 <= t < n ==> OutDone(sh, inp, exp, s0, attn, bi, hv, col, t)
  }

  ghost predicate BatchDone(sh: Shape, inp: Inputs, exp: real -> real, s0: seq<real>, s1: seq<real>, attn: seq<real>, bi: nat, n: nat)
    requires Shaped(sh, inp) && bi < sh.b && n <= sh.l
    requires |s0| == |s1| == StateSize(sh) && |attn| == OutSize(sh)
  {
    forall hv, col :: 0 <= hv < sh.hV && 0 <= col < sh.s ==> RowDone(sh, inp, exp, s0, s1, attn, bi, hv, col, n)
  }

  function TimeSpan(sh: Shape, tokens: nat): nat {
    tokens * (sh.hV * sh.s)
  }

  /** Tokens, then batches, follow one another. */
  lemma TokensFollow(sh: Shape, bi: nat, t: nat)
    ensures OutAt(sh, bi, t, 0, 0) == OutAt(sh, bi, 0, 0, 0) + TimeSpan(sh, t)
    ensures TimeSpan(sh, t + 1) == TimeSpan(sh, t) + OutSpan(sh, sh.hV) && TimeSpan(sh, 0) == 0
    ensures OutAt(sh, bi + 1, 0, 0, 0) == OutAt(sh, bi, 0, 0, 0) + TimeSpan(sh, sh.l)
    ensures RowBase(sh, bi + 1, 0, 0) == RowBase(sh, bi, 0, 0) + StateSpan(sh, sh.hV)
    ensures OutAt(sh, 0, 0, 0, 0) == 0 && RowBase(sh, 0, 0, 0) == 0
  {
    Nests(bi * sh.l, t, sh.hV, sh.s);
    Nests(bi * sh.l, sh.l, sh.hV, sh.s);
    assert (bi + 1) * sh.l == bi * sh.l + sh.l && (bi + 1) * sh.hV == bi * sh.hV + sh.hV;
    Spreads(bi * sh.hV, sh.hV, sh.s);
    assert (t + 1) * (sh.hV * sh.s) == t * (sh.hV * sh.s) + sh.hV * sh.s;
  }

  lemma Nests(a: nat, t: nat, h: nat, s: nat)
    ensures (a + t) * h * s == a * h * s + t * (h * s)
  {
    assert (a + t) * h == a * h + t * h;
    assert (a * h + t * h) * s == a * h * s + t * h * s;
  }

  /** A place in the arrays lies within its token, and within its batch. */
  lemma Within(sh: Shape, bi: nat, t: nat, hv: nat, col: nat)
    requires InShape(sh, bi, hv, col) && t < sh.l
    ensures OutAt(sh, bi, t, 0, 0) <= OutAt(sh, bi, t, hv, col) < OutAt(sh, bi, t, 0, 0) + OutSpan(sh, sh.hV)
    ensures RowBase(sh, bi, 0, 0) <= RowBase(sh, bi, hv, col)
    ensures RowBase(sh, bi, hv, col) + sh.s <= RowBase(sh, bi, 0, 0) + StateSpan(sh, sh.hV)
    ensures OutAt(sh, bi, 0, 0, 0) <= OutAt(sh, bi, t, hv, col) < OutAt(sh, bi, 0, 0, 0) + TimeSpan(sh, sh.l)
  {
    HeadsFollow(sh, bi, t, hv, col);
    SpansFit(sh, hv, sh.hV);
    TokensFollow(sh, bi, t);
    assert TimeSpan(sh, t) + OutSpan(sh, sh.hV) <= TimeSpan(sh, sh.l) by {
      EarlierFits(t, sh.l, sh.hV * sh.s);
    }
    hide RowBase, OutAt, StateSpan, OutSpan, TimeSpan;
  }

  lemma TokensGrow(sh: Shape, inp: Inputs, exp: real -> real, bi: nat, hv: nat, col: nat, t: nat)
    requires Shaped(sh, inp) && InShape(sh, bi, hv, col) && t < sh.l
    ensures TokensOf(sh, inp, exp, bi, hv, col, t + 1)
         == TokensOf(sh, inp, exp, bi, hv, col, t) + [TokenAt(sh, inp, exp, bi, t, hv, col)]
  {
  }

  lemma RowAdvances(sh: Shape, inp: Inputs, exp: real -> real, s0: seq<real>, s1: seq<real>, s2: seq<real>,
                    a1: seq<real>, a2: seq<real>, bi: nat, hv: nat, col: nat, t: nat)
    requires Shaped(sh, inp) && InShape(sh, bi, hv, col) && t < sh.l
    requires |s0| == |s1| == |s2| == StateSize(sh) && |a1| == |a2| == OutSize(sh)
    requires RowDone(sh, inp, exp, s0, s1, a1, bi, hv, col, t) && RowStepped(sh, inp, exp, s1, s2, a2, bi, t, hv, col)
    requires OnlyIn(a1, a2, OutAt(sh, bi, t, 0, 0), OutSpan(sh, sh.hV))
    ensures RowDone(sh, inp, exp, s0, s2, a2, bi, hv, col, t + 1)
  {
    hide RowBase, OutAt, RowOf, TokenAt, TokensOf, StateSpan, OutSpan, TimeSpan, NextRow, Dot;
    var tokens := TokensOf(sh, inp, exp, bi, hv, col, t + 1);
    TokensGrow(sh, inp, exp, bi, hv, col, t);
    assert tokens[..t] == TokensOf(sh, inp, exp, bi, hv, col, t);
    forall u | 0 <= u < t + 1
      ensures OutDone(sh, inp, exp, s0, a2, bi, hv, col, u)
    {
      if u < t {
        assert OutDone(sh, inp, exp, s0, a1, bi, hv, col, u);
        OutsFit(sh, bi, u, hv, col);
        TokensApart(sh, bi, u, t, hv, col);
      }
    }
  }

  lemma TokensApart(sh: Shape, bi: nat, u: nat, t: nat, hv: nat, col: nat)
    requires InShape(sh, bi, hv, col) && u < t < sh.l
    ensures OutAt(sh, bi, u, hv, col) < OutAt(sh, bi, t, 0, 0)
  {
    Within(sh, bi, u, hv, col);
    TokensFollow(sh, bi, u);
    TokensFollow(sh, bi, t);
    EarlierFits(u, t, sh.hV * sh.s);
  }

  method StepBatch(sh: Shape, inp: Inputs, exp: real -> real, state: array<real>, attn: array<real>, bi: nat)
    requires Shaped(sh, inp) && bi < sh.b
    requires state.Length == StateSize(sh) && attn.Length == OutSize(sh) && state != attn
    modifies state, attn
    ensures BatchDone(sh, inp, exp, old(state[..]), state[..], attn[..], bi, sh.l)
    ensures OnlyIn(old(state[..]), state[..], RowBase(sh, bi, 0, 0), StateSpan(sh, sh.hV))
    ensures OnlyIn(old(attn[..]), attn[..], OutAt(sh, bi, 0, 0, 0), TimeSpan(sh, sh.l))
  {
    ghost var s0, a0 := state[..], attn[..];
    NothingDone(sh, inp, exp, s0, a0, bi);
    TokensFollow(sh, bi, 0);
    hide BatchDone, HeadsStepped, RowBase, OutAt, StateSpan, OutSpan, TimeSpan;
    for t := 0 to sh.l
      invariant BatchDone(sh, inp, exp, s0, state[..], attn[..], bi, t)
      invariant OnlyIn(s0, state[..], RowBase(sh, bi, 0, 0), StateSpan(sh, sh.hV))
      invariant OnlyIn(a0, attn[..], OutAt(sh, bi, 0, 0, 0), TimeSpan(sh, t))
    {
      ghost var s1, a1 := state[..], attn[..];
      StepToken(sh, inp, exp, state, attn, bi, t);
      BatchAdvances(sh, inp, exp, s0, s1, state[..], a1, attn[..], bi, t);
      TokensFollow(sh, bi, t);
    }
  }

  lemma NothingDone(sh: Shape, inp: Inputs, exp: real -> real, s0: seq<real>, a0: seq<real>, bi: nat)
    requires Shaped(sh, inp) && bi < sh.b && |s0| == StateSize(sh) && |a0| == OutSize(sh)
    ensures BatchDone(sh, inp, exp, s0, s0, a0, bi, 0)
  {
    hide RowOf;
  }

  lemma BatchAdvances(sh: Shape, inp: Inputs, exp: real -> real, s0: seq<real>, s1: seq<real>, s2: seq<real>,
                      a1: seq<real>, a2: seq<real>, bi: nat, t: nat)
    requires Shaped(sh, inp) && bi < sh.b && t < sh.l
    requires |s0| == |s1| == |s2| == StateSize(sh) && |a1| == |a2| == OutSize(sh)
    requires BatchDone(sh, inp, exp, s0, s1, a1, bi, t) && HeadsStepped(sh, inp, exp, s1, s2, a2, bi, t, sh.hV)
    requires OnlyIn(a1, a2, OutAt(sh, bi, t, 0, 0), OutSpan(sh, sh.hV))
    ensures BatchDone(sh, inp, exp, s0, s2, a2, bi, t + 1)
  {
    hide RowDone, RowStepped, OnlyIn, OutAt, OutSpan;
    var n := t + 1;
    forall hv: nat, col: nat | hv < sh.hV && col < sh.s
      ensures RowDone(sh, inp, exp, s0, s2, a2, bi, hv, col, n)
    {
      RowAdvances(sh, inp, exp, s0, s1, s2, a1, a2, bi, hv, col, t);
    }
  }

  // ----- The law on the flat arrays -----

  /** Row `col` of head `hv` in batch `bi` after `n` tokens, in terms of the flat arrays alone: at each token
      the row is decayed by `g` and moved along the key by `beta` times what its reading at the key, decayed,
      misses of the value. */
  function FlatRow(sh: Shape, inp: Inputs, exp: real -> real, s0: seq<real>, bi: nat, hv: nat, col: nat, n: nat): (r: seq<real>)
    requires Shaped(sh, inp) && InShape(sh, bi, hv, col) && n <= sh.l && |s0| == StateSize(sh)
    ensures |r| == sh.s
  {
    if n == 0 then
      RowsFit(sh, bi, hv, col);
      s0[((bi * sh.hV + hv) * sh.s + col) * sh.s..((bi * sh.hV + hv) * sh.s + col) * sh.s + sh.s]
    else
      var t := n - 1;
      OutsFit(sh, bi, t, hv, col);
      KeysFit(sh, bi, t, hv);
      FlatNext(FlatRow(sh, inp, exp, s0, bi, hv, col, t), exp(inp.gate[(bi * sh.l + t) * sh.hV + hv]), inp.beta[(bi * sh.l + t) * sh.hV + hv],
               inp.v[((bi * sh.l + t) * sh.hV + hv) * sh.s + col], inp.k, ((bi * sh.l + t) * sh.hKv + hv % sh.hKv) * sh.s)
  }

  /** `g * row + beta * (v - g * (row . k)) * k`, for the key that starts at `kb`. */
  function FlatNext(row: seq<real>, g: real, beta: real, v: real, k: seq<real>, kb: nat): (r: seq<real>)
    requires kb + |row| <= |k|
    ensures |r| == |row|
  {
    seq(|row|, i requires 0 <= i < |row| => Corrected(row[i], k[kb + i], g, beta, v, Sums.DotAt(row, 0, k, kb, |row|)))
  }

  /** One number of the row: decayed, and moved along the key by what the row's reading misses. */
  function Corrected(x: real, key: real, g: real, beta: real, v: real, reading: real): real {
    g * x + beta * (v - g * reading) * key
  }

  /** The output at a token is its row's reading at the query. */
  ghost predicate FlatOut(sh: Shape, inp: Inputs, exp: real -> real, s0: seq<real>, attn: seq<real>, bi: nat, hv: nat, col: nat, t: nat)
    requires Shaped(sh, inp) && InShape(sh, bi, hv, col) && t < sh.l && |s0| == StateSize(sh) && |attn| == OutSize(sh)
  {
    OutsFit(sh, bi, t, hv, col);
    KeysFit(sh, bi, t, hv);
    attn[((bi * sh.l + t) * sh.hV + hv) * sh.s + col]
    == Sums.DotAt(FlatRow(sh, inp, exp, s0, bi, hv, col, t + 1), 0, inp.q, ((bi * sh.l + t) * sh.hKv + hv % sh.hKv) * sh.s, sh.s)
  }

  /** The state and the outputs of one row, in terms of the flat arrays alone. */
  ghost predicate FlatLaw(sh: Shape, inp: Inputs, exp: real -> real, s0: seq<real>, s1: seq<real>, attn: seq<real>, bi: nat, hv: nat, col: nat)
    requires Shaped(sh, inp) && InShape(sh, bi, hv, col)
    requires |s0| == |s1| == StateSize(sh) && |attn| == OutSize(sh)
  {
    RowsFit(sh, bi, hv, col);
    var base := ((bi * sh.hV + hv) * sh.s + col) * sh.s;
    && s1[base..base + sh.s] == FlatRow(sh, inp, exp, s0, bi, hv, col, sh.l)
    && forall t :: 0 <= t < sh.l ==> FlatOut(sh, inp, exp, s0, attn, bi, hv, col, t)
  }

  /** And of all rows. */
  ghost predicate AllFlat(sh: Shape, inp: Inputs, exp: real -> real, s0: seq<real>, s1: seq<real>, attn: seq<real>)
    requires Shaped(sh, inp) && |s0| == |s1| == StateSize(sh) && |attn| == OutSize(sh)
  {
    forall bi: nat, hv: nat, col: nat :: InShape(sh, bi, hv, col) ==> FlatLaw(sh, inp, exp, s0, s1, attn, bi, hv, col)
  }

  lemma {:induction false} DotIsAt(row: seq<real>, x: seq<real>, at: nat, y: seq<real>, n: nat)
    requires n <= |row| && at + |y| <= |x| && y == x[at..at + |y|] && n <= |y|
    ensures Dot(row, y, n) == Sums.DotAt(row, 0, x, at, n)
  {
    if n > 0 {
      DotIsAt(row, x, at, y, n - 1);
    }
  }

  lemma MovedAt(row: seq<real>, g: real, c: real, y: seq<real>, i: nat)
    requires i < |row| == |y|
    ensures Moved(Scaled(row, g), y, c)[i] == g * row[i] + c * y[i]
  {
  }

  lemma DeltaIsMiss(row: seq<real>, tok: Token, k: seq<real>, kb: nat)
    requires |row| == |tok.k| && kb + |row| <= |k| && tok.k == k[kb..kb + |row|]
    ensures Delta(Scaled(row, tok.g), tok) == tok.beta * (tok.v - tok.g * Sums.DotAt(row, 0, k, kb, |row|))
  {
    hide Dot, Sums.DotAt, Scaled;
    DotIsAt(row, k, kb, tok.k, |row|);
    DotScaled(row, tok.g, tok.k, |row|);
  }

  lemma NextRowIs(row: seq<real>, tok: Token, k: seq<real>, kb: nat)
    requires |row| == |tok.k| == |tok.q| && kb + |row| <= |k| && tok.k == k[kb..kb + |row|]
    ensures NextRow(row, tok) == FlatNext(row, tok.g, tok.beta, tok.v, k, kb)
  {
    hide Moved, Scaled, Delta, Sums.DotAt;
    DeltaIsMiss(row, tok, k, kb);
    forall i | 0 <= i < |row|
      ensures NextRow(row, tok)[i] == FlatNext(row, tok.g, tok.beta, tok.v, k, kb)[i]
    {
      MovedAt(row, tok.g, tok.beta * (tok.v - tok.g * Sums.DotAt(row, 0, k, kb, |row|)), tok.k, i);
      assert tok.k[i] == k[kb + i];
      assert FlatNext(row, tok.g, tok.beta, tok.v, k, kb)[i]
          == Corrected(row[i], k[kb + i], tok.g, tok.beta, tok.v, Sums.DotAt(row, 0, k, kb, |row|));
    }
  }

  lemma TokenKey(sh: Shape, inp: Inputs, exp: real -> real, bi: nat, t: nat, hv: nat, col: nat)
    requires Shaped(sh, inp) && InShape(sh, bi, hv, col) && t < sh.l
    ensures var tok, kb := TokenAt(sh, inp, exp, bi, t, hv, col), KeyBase(sh, bi, t, hv);
            && kb + sh.s <= |inp.k| && tok.k == inp.k[kb..kb + sh.s]
            && OutAt(sh, bi, t, hv, col) < |inp.v| && tok.v == inp.v[OutAt(sh, bi, t, hv, col)]
            && GateAt(sh, bi, t, hv) < |inp.gate| && tok.g == exp(inp.gate[GateAt(sh, bi, t, hv)]) && tok.beta == inp.beta[GateAt(sh, bi, t, hv)]
  {
    KeysFit(sh, bi, t, hv);
    OutsFit(sh, bi, t, hv, col);
    hide KeyBase, OutAt, GateAt;
  }

  lemma FlatUnfolds(sh: Shape, inp: Inputs, exp: real -> real, s0: seq<real>, bi: nat, hv: nat, col: nat, n: nat)
    requires Shaped(sh, inp) && InShape(sh, bi, hv, col) && 0 < n <= sh.l && |s0| == StateSize(sh)
    ensures OutAt(sh, bi, n - 1, hv, col) < |inp.v| && GateAt(sh, bi, n - 1, hv) < |inp.gate| && KeyBase(sh, bi, n - 1, hv) + sh.s <= |inp.k|
    ensures FlatRow(sh, inp, exp, s0, bi, hv, col, n)
         == FlatNext(FlatRow(sh, inp, exp, s0, bi, hv, col, n - 1), exp(inp.gate[GateAt(sh, bi, n - 1, hv)]), inp.beta[GateAt(sh, bi, n - 1, hv)],
                     inp.v[OutAt(sh, bi, n - 1, hv, col)], inp.k, KeyBase(sh, bi, n - 1, hv))
  {
    hide FlatNext, StateSize;
    KeysFit(sh, bi, n - 1, hv);
    OutsFit(sh, bi, n - 1, hv, col);
  }

  /** One more token, as the recurrence takes it. */
  lemma FlatStep(sh: Shape, inp: Inputs, exp: real -> real, s0: seq<real>, bi: nat, hv: nat, col: nat, n: nat)
    requires Shaped(sh, inp) && InShape(sh, bi, hv, col) && 0 < n <= sh.l && |s0| == StateSize(sh)
    ensures FlatRow(sh, inp, exp, s0, bi, hv, col, n)
         == NextRow(FlatRow(sh, inp, exp, s0, bi, hv, col, n - 1), TokenAt(sh, inp, exp, bi, n - 1, hv, col))
  {
    hide NextRow, FlatNext, StateSize, OutSize, FlatRow, KeyBase, OutAt, GateAt, TokenAt;
    FlatUnfolds(sh, inp, exp, s0, bi, hv, col, n);
    TokenKey(sh, inp, exp, bi, n - 1, hv, col);
    NextRowIs(FlatRow(sh, inp, exp, s0, bi, hv, col, n - 1), TokenAt(sh, inp, exp, bi, n - 1, hv, col), inp.k, KeyBase(sh, bi, n - 1, hv));
  }

  lemma FlatStart(sh: Shape, inp: Inputs, exp: real -> real, s0: seq<real>, bi: nat, hv: nat, col: nat)
    requires Shaped(sh, inp) && InShape(sh, bi, hv, col) && |s0| == StateSize(sh)
    ensures FlatRow(sh, inp, exp, s0, bi, hv, col, 0) == RowOf(sh, s0, bi, hv, col)
  {
  }

  lemma {:induction false} RowIsFlat(sh: Shape, inp: Inputs, exp: real -> real, s0: seq<real>, bi: nat, hv: nat, col: nat, n: nat)
    requires Shaped(sh, inp) && InShape(sh, bi, hv, col) && n <= sh.l && |s0| == StateSize(sh)
    ensures RowAfter(RowOf(sh, s0, bi, hv, col), TokensOf(sh, inp, exp, bi, hv, col, n)) == FlatRow(sh, inp, exp, s0, bi, hv, col, n)
  {
    hide FlatRow, NextRow, RowOf, TokenAt, StateSize, Shaped;
    if n == 0 {
      FlatStart(sh, inp, exp, s0, bi, hv, col);
    } else {
      var t := n - 1;
      RowIsFlat(sh, inp, exp, s0, bi, hv, col, t);
      FlatStep(sh, inp, exp, s0, bi, hv, col, n);
      TokensGrow(sh, inp, exp, bi, hv, col, t);
      var tokens := TokensOf(sh, inp, exp, bi, hv, col, n);
      assert tokens[..t] == TokensOf(sh, inp, exp, bi, hv, col, t);
      hide TokensOf;
    }
  }

  lemma DoneIsFlat(sh: Shape, inp: Inputs, exp: real -> real, s0: seq<real>, s1: seq<real>, attn: seq<real>, bi: nat, hv: nat, col: nat)
    requires Shaped(sh, inp) && InShape(sh, bi, hv, col)
    requires |s0| == |s1| == StateSize(sh) && |attn| == OutSize(sh) && BatchDone(sh, inp, exp, s0, s1, attn, bi, sh.l)
    ensures FlatLaw(sh, inp, exp, s0, s1, attn, bi, hv, col)
  {
    assert RowDone(sh, inp, exp, s0, s1, attn, bi, hv, col, sh.l);
    RowIsFlat(sh, inp, exp, s0, bi, hv, col, sh.l);
    assert RowOf(sh, s1, bi, hv, col) == FlatRow(sh, inp, exp, s0, bi, hv, col, sh.l);
    hide BatchDone, FlatRow, RowAfter, TokensOf;
    forall t | 0 <= t < sh.l
      ensures FlatOut(sh, inp, exp, s0, attn, bi, hv, col, t)
    {
      assert OutDone(sh, inp, exp, s0, attn, bi, hv, col, t);
      OutIsFlat(sh, inp, exp, s0, attn, bi, hv, col, t);
    }
  }

  lemma QueryAt(sh: Shape, inp: Inputs, exp: real -> real, bi: nat, hv: nat, col: nat, t: nat)
    requires Shaped(sh, inp) && InShape(sh, bi, hv, col) && t < sh.l
    ensures var tokens, at := TokensOf(sh, inp, exp, bi, hv, col, t + 1), KeyBase(sh, bi, t, hv);
            at + sh.s <= |inp.q| && tokens[t].q == inp.q[at..at + sh.s]
  {
    KeysFit(sh, bi, t, hv);
    hide KeyBase;
  }

  lemma FlatOutIs(sh: Shape, inp: Inputs, exp: real -> real, s0: seq<real>, attn: seq<real>, bi: nat, hv: nat, col: nat, t: nat)
    requires Shaped(sh, inp) && InShape(sh, bi, hv, col) && t < sh.l && |s0| == StateSize(sh) && |attn| == OutSize(sh)
    requires OutAt(sh, bi, t, hv, col) < |attn| && KeyBase(sh, bi, t, hv) + sh.s <= |inp.q|
    requires attn[OutAt(sh, bi, t, hv, col)] == Sums.DotAt(FlatRow(sh, inp, exp, s0, bi, hv, col, t + 1), 0, inp.q, KeyBase(sh, bi, t, hv), sh.s)
    ensures FlatOut(sh, inp, exp, s0, attn, bi, hv, col, t)
  {
    hide FlatRow, Sums.DotAt, StateSize, OutSize, Shaped;
  }

  lemma OutIsFlat(sh: Shape, inp: Inputs, exp: real -> real, s0: seq<real>, attn: seq<real>, bi: nat, hv: nat, col: nat, t: nat)
    requires Shaped(sh, inp) && InShape(sh, bi, hv, col) && t < sh.l && |s0| == StateSize(sh) && |attn| == OutSize(sh)
    requires OutDone(sh, inp, exp, s0, attn, bi, hv, col, t)
    ensures FlatOut(sh, inp, exp, s0, attn, bi, hv, col, t)
  {
    assert sh.hKv > 0;
    hide FlatOut, FlatRow, RowAfter, TokensOf, RowOf, Dot, Sums.DotAt, KeyBase, OutAt, OutSize, StateSize, Shaped;
    RowIsFlat(sh, inp, exp, s0, bi, hv, col, t + 1);
    QueryAt(sh, inp, exp, bi, hv, col, t);
    OutsFit(sh, bi, t, hv, col);
    DotIsAt(FlatRow(sh, inp, exp, s0, bi, hv, col, t + 1), inp.q, KeyBase(sh, bi, t, hv),
            TokensOf(sh, inp, exp, bi, hv, col, t + 1)[t].q, sh.s);
    FlatOutIs(sh, inp, exp, s0, attn, bi, hv, col, t);
  }

  lemma AllDoneIsFlat(sh: Shape, inp: Inputs, exp: real -> real, s0: seq<real>, s1: seq<real>, attn: seq<real>)
    requires Shaped(sh, inp) && |s0| == |s1| == StateSize(sh) && |attn| == OutSize(sh)
    requires forall bi :: 0 <= bi < sh.b ==> BatchDone(sh, inp, exp, s0, s1, attn, bi, sh.l)
    ensures AllFlat(sh, inp, exp, s0, s1, attn)
  {
    hide FlatLaw, BatchDone, StateSize, OutSize, Shaped;
    forall bi: nat, hv: nat, col: nat | InShape(sh, bi, hv, col)
      ensures FlatLaw(sh, inp, exp, s0, s1, attn, bi, hv, col)
    {
      DoneIsFlat(sh, inp, exp, s0, s1, attn, bi, hv, col);
    }
  }

  /** The whole loop nest: every row of every head runs its own recurrence, and every output is what
      its row reads at its query. */
  method RunShape(sh: Shape, inp: Inputs, exp: real -> real, state: array<real>, attn: array<real>)
    requires Shaped(sh, inp) && state.Length == StateSize(sh) && attn.Length == OutSize(sh) && state != attn
    modifies state, attn
    ensures forall bi :: 0 <= bi < sh.b ==> BatchDone(sh, inp, exp, old(state[..]), state[..], attn[..], bi, sh.l)
    ensures AllFlat(sh, inp, exp, old(state[..]), state[..], attn[..])
  {
    ghost var s0 := state[..];
    TokensFollow(sh, 0, 0);
    OnlyInItself(s0, 0);
    hide AllFlat, BatchDone, RowBase, OutAt, StateSpan, OutSpan, TimeSpan, StateSize, OutSize, Shaped, OnlyIn;
    for bi := 0 to sh.b
      invariant forall b :: 0 <= b < bi ==> BatchDone(sh, inp, exp, s0, state[..], attn[..], b, sh.l)
      invariant OnlyIn(s0, state[..], 0, RowBase(sh, bi, 0, 0))
    {
      ghost var s1, a1 := state[..], attn[..];
      StepBatch(sh, inp, exp, state, attn, bi);
      ghost var s2, a2 := state[..], attn[..];
      BatchesAdvance(sh, inp, exp, s0, s1, s2, a1, a2, bi);
    }
    AllDoneIsFlat(sh, inp, exp, s0, state[..], attn[..]);
  }

  lemma DotShifts(x: seq<real>, a: nat, y: seq<real>, b: nat, n: nat, row: seq<real>)
    requires a + n <= |x| && b + n <= |y| && row == x[a..a + n]
    ensures Sums.DotAt(row, 0, y, b, n) == Sums.DotAt(x, a, y, b, n)
  {
    DotSame(row, 0, x, a, y, b, n);
  }

  lemma {:induction false} DotSame(x: seq<real>, a: nat, z: seq<real>, c: nat, y: seq<real>, b: nat, n: nat)
    requires a + n <= |x| && c + n <= |z| && b + n <= |y| && x[a..a + n] == z[c..c + n]
    ensures Sums.DotAt(x, a, y, b, n) == Sums.DotAt(z, c, y, b, n)
  {
    if n > 0 {
      assert x[a..a + n - 1] == x[a..a + n][..n - 1] && z[c..c + n - 1] == z[c..c + n][..n - 1];
      assert x[a + n - 1] == x[a..a + n][n - 1] && z[c + n - 1] == z[c..c + n][n - 1];
      DotSame(x, a, z, c, y, b, n - 1);
    }
  }

  lemma PlacesOfOne(sh: Shape, bi: nat, hv: nat, col: nat, head: nat, out: nat, base: nat, kb: nat)
    requires sh.l == 1 && InShape(sh, bi, hv, col) && sh.hKv > 0
    requires head == bi * sh.hV + hv && out == head * sh.s + col && base == out * sh.s && kb == (bi * sh.hKv + hv % sh.hKv) * sh.s
    ensures GateAt(sh, bi, 0, hv) == head && OutAt(sh, bi, 0, hv, col) == out && RowBase(sh, bi, hv, col) == base && KeyBase(sh, bi, 0, hv) == kb
  {
  }

  /** One token, written out: every number of the state and every output of the loop nest. */
  lemma OneToken(sh: Shape, inp: Inputs, exp: real -> real, s0: seq<real>, s1: seq<real>, attn: seq<real>, bi: nat, hv: nat, col: nat,
                 head: nat, out: nat, base: nat, kb: nat, i: nat)
    requires Shaped(sh, inp) && |s0| == |s1| == StateSize(sh) && |attn| == OutSize(sh) && AllFlat(sh, inp, exp, s0, s1, attn)
    requires sh.l == 1 && InShape(sh, bi, hv, col) && i < sh.s
    requires head == bi * sh.hV + hv && out == head * sh.s + col && base == out * sh.s && kb == (bi * sh.hKv + hv % sh.hKv) * sh.s
    ensures head < |inp.gate| && head < |inp.beta| && out < |inp.v| && out < |attn|
    ensures base + sh.s <= |s0| && base + sh.s <= |s1| && kb + sh.s <= |inp.k| && kb + sh.s <= |inp.q|
    ensures var g, beta, v := exp(inp.gate[head]), inp.beta[head], inp.v[out];
            s1[base + i] == g * s0[base + i] + beta * (v - g * Sums.DotAt(s0, base, inp.k, kb, sh.s)) * inp.k[kb + i]
    ensures attn[out] == Sums.DotAt(s1, base, inp.q, kb, sh.s)
  {
    hide Sums.DotAt;
    OneTokenCorrects(sh, inp, exp, s0, s1, attn, bi, hv, col, head, out, base, kb, i);
    hide Shaped, AllFlat, StateSize, OutSize;
  }

  lemma OneTokenCorrects(sh: Shape, inp: Inputs, exp: real -> real, s0: seq<real>, s1: seq<real>, attn: seq<real>, bi: nat, hv: nat, col: nat,
                         head: nat, out: nat, base: nat, kb: nat, i: nat)
    requires Shaped(sh, inp) && |s0| == |s1| == StateSize(sh) && |attn| == OutSize(sh) && AllFlat(sh, inp, exp, s0, s1, attn)
    requires sh.l == 1 && InShape(sh, bi, hv, col) && i < sh.s
    requires head == bi * sh.hV + hv && out == head * sh.s + col && base == out * sh.s && kb == (bi * sh.hKv + hv % sh.hKv) * sh.s
    ensures head < |inp.gate| && head < |inp.beta| && out < |inp.v| && out < |attn|
    ensures base + sh.s <= |s0| && base + sh.s <= |s1| && kb + sh.s <= |inp.k| && kb + sh.s <= |inp.q|
    ensures s1[base + i] == Corrected(s0[base + i], inp.k[kb + i], exp(inp.gate[head]), inp.beta[head], inp.v[out],
                                      Sums.DotAt(s0, base, inp.k, kb, sh.s))
    ensures attn[out] == Sums.DotAt(s1, base, inp.q, kb, sh.s)
  {
    assert |inp.gate| == |inp.beta| && |inp.k| == |inp.q| && sh.hKv > 0;
    hide Sums.DotAt, FlatRow, FlatNext, StateSize, OutSize, AllFlat, RowBase, OutAt, GateAt, KeyBase, Shaped, Corrected;
    PlacesOfOne(sh, bi, hv, col, head, out, base, kb);
    RowsOfOne(sh, inp, exp, s0, s1, attn, bi, hv, col);
    NextInPlace(s0, s1, base, sh.s, exp(inp.gate[head]), inp.beta[head], inp.v[out], inp.k, inp.q, kb, i);
  }

  lemma FlatNextAt(row: seq<real>, g: real, beta: real, v: real, k: seq<real>, kb: nat, i: nat)
    requires kb + |row| <= |k| && i < |row|
    ensures FlatNext(row, g, beta, v, k, kb)[i] == Corrected(row[i], k[kb + i], g, beta, v, Sums.DotAt(row, 0, k, kb, |row|))
  {
    hide Sums.DotAt, Corrected;
  }

  lemma NextInPlace(s0: seq<real>, s1: seq<real>, base: nat, s: nat, g: real, beta: real, v: real, k: seq<real>, q: seq<real>, kb: nat, i: nat)
    requires base + s <= |s0| == |s1| && kb + s <= |k| == |q| && i < s
    requires s1[base..base + s] == FlatNext(s0[base..base + s], g, beta, v, k, kb)
    ensures s1[base + i] == Corrected(s0[base + i], k[kb + i], g, beta, v, Sums.DotAt(s0, base, k, kb, s))
    ensures Sums.DotAt(s1[base..base + s], 0, q, kb, s) == Sums.DotAt(s1, base, q, kb, s)
  {
    hide Sums.DotAt, Corrected, FlatNext;
    var row, next := s0[base..base + s], s1[base..base + s];
    FlatNextAt(row, g, beta, v, k, kb, i);
    DotShifts(s0, base, k, kb, s, row);
    DotShifts(s1, base, q, kb, s, next);
    assert s0[base + i] == row[i] && s1[base + i] == next[i];
  }

  lemma RowsOfOne(sh: Shape, inp: Inputs, exp: real -> real, s0: seq<real>, s1: seq<real>, attn: seq<real>, bi: nat, hv: nat, col: nat)
    requires Shaped(sh, inp) && |s0| == |s1| == StateSize(sh) && |attn| == OutSize(sh) && AllFlat(sh, inp, exp, s0, s1, attn)
    requires sh.l == 1 && InShape(sh, bi, hv, col)
    ensures var base, kb, at, out := RowBase(sh, bi, hv, col), KeyBase(sh, bi, 0, hv), GateAt(sh, bi, 0, hv), OutAt(sh, bi, 0, hv, col);
            && base + sh.s <= |s0| && kb + sh.s <= |inp.k| && at < |inp.gate| && out < |inp.v| && out < |attn|
            && var row, next := s0[base..base + sh.s], s1[base..base + sh.s];
            && next == FlatNext(row, exp(inp.gate[at]), inp.beta[at], inp.v[out], inp.k, kb)
            && attn[out] == Sums.DotAt(next, 0, inp.q, kb, sh.s)
  {
    assert FlatLaw(sh, inp, exp, s0, s1, attn, bi, hv, col) && FlatOut(sh, inp, exp, s0, attn, bi, hv, col, 0);
    hide FlatRow, FlatNext, Sums.DotAt, StateSize, OutSize;
    RowsFit(sh, bi, hv, col);
    OutsFit(sh, bi, 0, hv, col);
    KeysFit(sh, bi, 0, hv);
    FlatStart(sh, inp, exp, s0, bi, hv, col);
    FlatUnfolds(sh, inp, exp, s0, bi, hv, col, 1);
  }

  // ----- What a token teaches a row -----

  /** After a token whose key has length one, the row read at that key is the value mixed with the decayed
      reading before. With `n` the number of all tokens, the row is the final state's. */
  lemma KeyIsLearnt(sh: Shape, inp: Inputs, exp: real -> real, s0: seq<real>, bi: nat, hv: nat, col: nat, n: nat, at: nat, out: nat, kb: nat)
    requires Shaped(sh, inp) && InShape(sh, bi, hv, col) && 0 < n <= sh.l && |s0| == StateSize(sh)
    requires at == GateAt(sh, bi, n - 1, hv) && out == OutAt(sh, bi, n - 1, hv, col) && kb == KeyBase(sh, bi, n - 1, hv)
    ensures at < |inp.gate| && at < |inp.beta| && out < |inp.v| && kb + sh.s <= |inp.k|
    ensures Sums.DotAt(inp.k, kb, inp.k, kb, sh.s) == 1.0 ==>
              Sums.DotAt(FlatRow(sh, inp, exp, s0, bi, hv, col, n), 0, inp.k, kb, sh.s)
              == (1.0 - inp.beta[at]) * (exp(inp.gate[at]) * Sums.DotAt(FlatRow(sh, inp, exp, s0, bi, hv, col, n - 1), 0, inp.k, kb, sh.s))
                 + inp.beta[at] * inp.v[out]
  {
    hide Sums.DotAt, FlatRow, StateSize, OutSize, KeyBase, GateAt, OutAt, TokenAt, Dot, NextRow;
    FlatStep(sh, inp, exp, s0, bi, hv, col, n);
    TokenKey(sh, inp, exp, bi, n - 1, hv, col);
    var row, next := FlatRow(sh, inp, exp, s0, bi, hv, col, n - 1), FlatRow(sh, inp, exp, s0, bi, hv, col, n);
    var tok := TokenAt(sh, inp, exp, bi, n - 1, hv, col);
    DotIsAt(row, inp.k, kb, tok.k, sh.s);
    DotIsAt(next, inp.k, kb, tok.k, sh.s);
    DotIsAt(tok.k, inp.k, kb, tok.k, sh.s);
    DotShifts(inp.k, kb, inp.k, kb, sh.s, tok.k);
    if Sums.DotAt(inp.k, kb, inp.k, kb, sh.s) == 1.0 {
      DeltaRule(row, tok);
    }
  }

  /** Queries only read: whatever they are, the state after any number of tokens is the same. */
  lemma {:induction false} QueriesOnlyRead(sh: Shape, inp: Inputs, q: seq<real>, exp: real -> real, s0: seq<real>, bi: nat, hv: nat, col: nat, n: nat)
    requires Shaped(sh, inp) && |q| == |inp.q| && InShape(sh, bi, hv, col) && n <= sh.l && |s0| == StateSize(sh)
    ensures FlatRow(sh, inp.(q := q), exp, s0, bi, hv, col, n) == FlatRow(sh, inp, exp, s0, bi, hv, col, n)
  {
    hide FlatNext, StateSize;
    if n == 0 {
      FlatStart(sh, inp, exp, s0, bi, hv, col);
      FlatStart(sh, inp.(q := q), exp, s0, bi, hv, col);
    } else {
      QueriesOnlyRead(sh, inp, q, exp, s0, bi, hv, col, n - 1);
      FlatUnfolds(sh, inp, exp, s0, bi, hv, col, n);
      FlatUnfolds(sh, inp.(q := q), exp, s0, bi, hv, col, n);
      hide FlatRow, KeyBase, OutAt, GateAt;
    }
  }

  lemma BatchFromStart(sh: Shape, inp: Inputs, exp: real -> real, s0: seq<real>, s1: seq<real>, s2: seq<real>, a2: seq<real>, bi: nat)
    requires Shaped(sh, inp) && bi < sh.b && |s0| == |s1| == |s2| == StateSize(sh) && |a2| == OutSize(sh)
    requires BatchDone(sh, inp, exp, s1, s2, a2, bi, sh.l) && OnlyIn(s0, s1, 0, RowBase(sh, bi, 0, 0))
    ensures BatchDone(sh, inp, exp, s0, s2, a2, bi, sh.l)
  {
    hide RowBase, OutAt, RowOf, OnlyIn, StateSpan, OutSpan, TimeSpan, TokensOf;
    forall hv: nat, col: nat | hv < sh.hV && col < sh.s
      ensures RowDone(sh, inp, exp, s0, s2, a2, bi, hv, col, sh.l)
    {
      RowStarts(sh, bi, hv, col);
      RowKept(sh, s0, s1, 0, RowBase(sh, bi, 0, 0), bi, hv, col);
      assert RowDone(sh, inp, exp, s1, s2, a2, bi, hv, col, sh.l);
      forall t | 0 <= t < sh.l
        ensures OutDone(sh, inp, exp, s0, a2, bi, hv, col, t)
      {
        assert OutDone(sh, inp, exp, s1, a2, bi, hv, col, t);
      }
    }
  }

  lemma RowStarts(sh: Shape, bi: nat, hv: nat, col: nat)
    requires InShape(sh, bi, hv, col)
    ensures RowBase(sh, bi, 0, 0) <= RowBase(sh, bi, hv, col)
    ensures RowBase(sh, bi, hv, col) + sh.s <= RowBase(sh, bi, 0, 0) + StateSpan(sh, sh.hV)
  {
    HeadsFollow(sh, bi, 0, hv, col);
    SpansFit(sh, hv, sh.hV);
    hide RowBase, OutAt, StateSpan, OutSpan;
  }

  lemma BatchesApart(sh: Shape, b: nat, bi: nat)
    requires b < bi
    ensures RowBase(sh, b, 0, 0) + StateSpan(sh, sh.hV) <= RowBase(sh, bi, 0, 0)
    ensures OutAt(sh, b, 0, 0, 0) + TimeSpan(sh, sh.l) <= OutAt(sh, bi, 0, 0, 0)
    decreases bi
  {
    hide RowBase, OutAt, StateSpan, TimeSpan, OutSpan;
    TokensFollow(sh, bi - 1, 0);
    if b < bi - 1 {
      BatchesApart(sh, b, bi - 1);
    }
  }

  lemma BatchStays(sh: Shape, inp: Inputs, exp: real -> real, s0: seq<real>, s1: seq<real>, s2: seq<real>,
                   a1: seq<real>, a2: seq<real>, b: nat, bi: nat)
    requires Shaped(sh, inp) && b < bi < sh.b && |s0| == |s1| == |s2| == StateSize(sh) && |a1| == |a2| == OutSize(sh)
    requires BatchDone(sh, inp, exp, s0, s1, a1, b, sh.l)
    requires OnlyIn(s1, s2, RowBase(sh, bi, 0, 0), StateSpan(sh, sh.hV)) && OnlyIn(a1, a2, OutAt(sh, bi, 0, 0, 0), TimeSpan(sh, sh.l))
    ensures BatchDone(sh, inp, exp, s0, s2, a2, b, sh.l)
  {
    hide RowBase, OutAt, RowOf, StateSpan, OutSpan, TimeSpan, TokensOf;
    BatchesApart(sh, b, bi);
    forall hv: nat, col: nat | hv < sh.hV && col < sh.s
      ensures RowDone(sh, inp, exp, s0, s2, a2, b, hv, col, sh.l)
    {
      RowStarts(sh, b, hv, col);
      RowKept(sh, s1, s2, RowBase(sh, bi, 0, 0), StateSpan(sh, sh.hV), b, hv, col);
      assert RowDone(sh, inp, exp, s0, s1, a1, b, hv, col, sh.l);
      forall t | 0 <= t < sh.l
        ensures OutDone(sh, inp, exp, s0, a2, b, hv, col, t)
      {
        assert OutDone(sh, inp, exp, s0, a1, b, hv, col, t);
        OutsFit(sh, b, t, hv, col);
        Within(sh, b, t, hv, col);
      }
    }
  }

  lemma BatchesAdvance(sh: Shape, inp: Inputs, exp: real -> real, s0: seq<real>, s1: seq<real>, s2: seq<real>,
                       a1: seq<real>, a2: seq<real>, bi: nat)
    requires Shaped(sh, inp) && bi < sh.b && |s0| == |s1| == |s2| == StateSize(sh) && |a1| == |a2| == OutSize(sh)
    requires forall b :: 0 <= b < bi ==> BatchDone(sh, inp, exp, s0, s1, a1, b, sh.l)
    requires BatchDone(sh, inp, exp, s1, s2, a2, bi, sh.l) && OnlyIn(s0, s1, 0, RowBase(sh, bi, 0, 0))
    requires OnlyIn(s1, s2, RowBase(sh, bi, 0, 0), StateSpan(sh, sh.hV)) && OnlyIn(a1, a2, OutAt(sh, bi, 0, 0, 0), TimeSpan(sh, sh.l))
    ensures forall b :: 0 <= b < bi + 1 ==> BatchDone(sh, inp, exp, s0, s2, a2, b, sh.l)
    ensures OnlyIn(s0, s2, 0, RowBase(sh, bi + 1, 0, 0))
  {
    hide BatchDone, RowBase, OutAt, StateSpan, OutSpan, TimeSpan, OnlyIn, StateSize, OutSize, Shaped;
    TokensFollow(sh, bi, 0);
    OnlyInExtends(s0, s1, s2, 0, RowBase(sh, bi, 0, 0), StateSpan(sh, sh.hV));
    BatchFromStart(sh, inp, exp, s0, s1, s2, a2, bi);
    forall b | 0 <= b < bi
      ensures BatchDone(sh, inp, exp, s0, s2, a2, b, sh.l)
    {
      BatchStays(sh, inp, exp, s0, s1, s2, a1, a2, b, bi);
    }
  }

  // ----- Streaming -----

  /** The length of `b` stretches of `n` numbers. */
  function Stretches(n: nat, b: nat): nat {
    b * n
  }

  lemma NextStretch(n: nat, b: nat)
    ensures Stretches(n, b + 1) == Stretches(n, b) + n && Stretches(n, 0) == 0
  {
  }

  lemma StretchFits(n: nat, bi: nat, b: nat)
    requires bi < b
    ensures Stretches(n, bi) + n <= Stretches(n, b)
  {
    EarlierFits(bi, b, n);
  }

  /** `b` stretches of `nx` numbers and of `ny` numbers, put together stretch by stretch. */
  function Interleaved(x: seq<real>, y: seq<real>, nx: nat, ny: nat, b: nat): (r: seq<real>)
    requires |x| == Stretches(nx, b) && |y| == Stretches(ny, b)
    ensures |r| == Stretches(nx + ny, b)
  {
    if b == 0 then []
    else
      var n := b - 1;
      NextStretch(nx, n);
      NextStretch(ny, n);
      NextStretch(nx + ny, n);
      Interleaved(x[..Stretches(nx, n)], y[..Stretches(ny, n)], nx, ny, n) + x[Stretches(nx, n)..] + y[Stretches(ny, n)..]
  }

  lemma {:induction false} InterleavedAt(x: seq<real>, y: seq<real>, nx: nat, ny: nat, b: nat, bi: nat, i: nat)
    requires |x| == Stretches(nx, b) && |y| == Stretches(ny, b) && bi < b && i < nx + ny
    ensures Stretches(nx + ny, bi) + i < Stretches(nx + ny, b)
    ensures i < nx ==> Stretches(nx, bi) + i < |x|
    ensures i >= nx ==> Stretches(ny, bi) + (i - nx) < |y|
    ensures Interleaved(x, y, nx, ny, b)[Stretches(nx + ny, bi) + i]
         == if i < nx then x[Stretches(nx, bi) + i] else y[Stretches(ny, bi) + (i - nx)]
    decreases b
  {
    hide Stretches;
    var n := b - 1;
    NextStretch(nx, n);
    NextStretch(ny, n);
    NextStretch(nx + ny, n);
    StretchFits(nx, bi, b);
    StretchFits(ny, bi, b);
    StretchFits(nx + ny, bi, b);
    if bi < n {
      InterleavedAt(x[..Stretches(nx, n)], y[..Stretches(ny, n)], nx, ny, n, bi, i);
    }
  }

  /** Number `col` of head `hv` at token `t` of batch `bi`, in an array of `l` tokens by `h` heads by `s`. */
  function Spot(bi: nat, l: nat, t: nat, h: nat, hv: nat, s: nat, col: nat): nat {
    ((bi * l + t) * h + hv) * s + col
  }

  lemma SpotInBatch(bi: nat, l: nat, t: nat, h: nat, hv: nat, s: nat, col: nat)
    ensures Spot(bi, l, t, h, hv, s, col) == bi * (l * h * s) + Spot(0, l, t, h, hv, s, col)
  {
    assert (bi * l + t) * h == bi * l * h + t * h;
    assert (bi * l * h + (t * h + hv)) * s == bi * l * h * s + (t * h + hv) * s;
    Regroups(bi, l, h, s);
  }

  lemma Regroups(a: nat, b: nat, c: nat, d: nat)
    ensures a * b * c * d == a * (b * c * d)
  {
    assert b * c * d == b * (c * d);
    assert a * b * c * d == a * b * (c * d);
  }

  lemma SpotFits(l: nat, t: nat, h: nat, hv: nat, s: nat, col: nat)
    requires t < l && hv < h && col < s
    ensures Spot(0, l, t, h, hv, s, col) < l * h * s
  {
    Fits(t, l, hv, h);
    Fits(t * h + hv, l * h, col, s);
  }

  lemma SpotShifts(l: nat, la: nat, t: nat, h: nat, hv: nat, s: nat, col: nat)
    requires la <= t
    ensures Spot(0, l, t, h, hv, s, col) == la * h * s + Spot(0, l - la, t - la, h, hv, s, col)
    requires la <= l
  {
    assert t * h == la * h + (t - la) * h;
    assert (la * h + ((t - la) * h + hv)) * s == la * h * s + ((t - la) * h + hv) * s;
  }

  /** Two arrays of `b` batches joined token by token: first `la` tokens of each batch, then `lb`. */
  function JoinedBy(x: seq<real>, y: seq<real>, b: nat, la: nat, lb: nat, h: nat, s: nat): (r: seq<real>)
    requires |x| == b * la * h * s && |y| == b * lb * h * s
    ensures |r| == b * (la + lb) * h * s
  {
    Regroups(b, la, h, s);
    Regroups(b, lb, h, s);
    Regroups(b, la + lb, h, s);
    assert (la + lb) * h * s == la * h * s + lb * h * s;
    Interleaved(x, y, la * h * s, lb * h * s, b)
  }

  lemma JoinedAt(x: seq<real>, y: seq<real>, b: nat, la: nat, lb: nat, h: nat, s: nat, bi: nat, t: nat, hv: nat, col: nat)
    requires |x| == b * la * h * s && |y| == b * lb * h * s && bi < b && t < la + lb && hv < h && col < s
    ensures Spot(bi, la + lb, t, h, hv, s, col) < b * (la + lb) * h * s
    ensures t < la ==> Spot(bi, la, t, h, hv, s, col) < |x|
    ensures t >= la ==> Spot(bi, lb, t - la, h, hv, s, col) < |y|
    ensures JoinedBy(x, y, b, la, lb, h, s)[Spot(bi, la + lb, t, h, hv, s, col)]
         == if t < la then x[Spot(bi, la, t, h, hv, s, col)] else y[Spot(bi, lb, t - la, h, hv, s, col)]
  {
    hide Spot, Interleaved;
    var i := Spot(0, la + lb, t, h, hv, s, col);
    var nx, ny := la * h * s, lb * h * s;
    assert nx + ny == (la + lb) * h * s;
    Regroups(b, la, h, s);
    Regroups(b, lb, h, s);
    Regroups(b, la + lb, h, s);
    SpotInBatch(bi, la + lb, t, h, hv, s, col);
    SpotFits(la + lb, t, h, hv, s, col);
    InterleavedAt(x, y, nx, ny, b, bi, i);
    if t < la {
      SpotInBatch(bi, la, t, h, hv, s, col);
      SpotFits(la, t, h, hv, s, col);
      SameSpot(la, la + lb, t, h, hv, s, col);
    } else {
      SpotInBatch(bi, lb, t - la, h, hv, s, col);
      SpotShifts(la + lb, la, t, h, hv, s, col);
    }
  }

  lemma SameSpot(l: nat, m: nat, t: nat, h: nat, hv: nat, s: nat, col: nat)
    ensures Spot(0, l, t, h, hv, s, col) == Spot(0, m, t, h, hv, s, col)
  {
  }

  /** The inputs of all batches, in each batch first `a`'s `la` tokens and then `b`'s. */
  function Joined(sh: Shape, la: nat, a: Inputs, b: Inputs): (r: Inputs)
    requires la <= sh.l && Shaped(sh.(l := la), a) && Shaped(sh.(l := sh.l - la), b)
    ensures Shaped(sh, r)
  {
    var lb := sh.l - la;
    Inputs(JoinedBy(a.q, b.q, sh.b, la, lb, sh.hKv, sh.s), JoinedBy(a.k, b.k, sh.b, la, lb, sh.hKv, sh.s),
           JoinedBy(a.v, b.v, sh.b, la, lb, sh.hV, sh.s),
           JoinedBy(a.gate, b.gate, sh.b, la, lb, sh.hV, 1), JoinedBy(a.beta, b.beta, sh.b, la, lb, sh.hV, 1))
  }

  lemma PlacesAreSpots(sh: Shape, bi: nat, t: nat, hv: nat, col: nat)
    ensures OutAt(sh, bi, t, hv, col) == Spot(bi, sh.l, t, sh.hV, hv, sh.s, col)
    ensures GateAt(sh, bi, t, hv) == Spot(bi, sh.l, t, sh.hV, hv, 1, 0)
    ensures sh.hKv > 0 ==> KeyBase(sh, bi, t, hv) + col == Spot(bi, sh.l, t, sh.hKv, hv % sh.hKv, sh.s, col)
  {
  }

  predicate SameAt(x: seq<real>, i: nat, y: seq<real>, j: nat, m: nat) {
    i + m < |x| && j + m < |y| && x[i + m] == y[j + m]
  }

  lemma SameSlices(x: seq<real>, i: nat, y: seq<real>, j: nat, n: nat)
    requires i + n <= |x| && j + n <= |y| && forall m :: 0 <= m < n ==> SameAt(x, i, y, j, m)
    ensures x[i..i + n] == y[j..j + n]
  {
    var a, b := x[i..i + n], y[j..j + n];
    forall m | 0 <= m < n
      ensures a[m] == b[m]
    {
      assert SameAt(x, i, y, j, m);
    }
  }

  /** The keys a head meets are those of the stretch the token comes from; queries alike. */
  lemma KeysOfJoined(sh: Shape, la: nat, x: seq<real>, y: seq<real>, bi: nat, t: nat, hv: nat)
    requires la <= sh.l && sh.hKv > 0 && sh.s > 0 && bi < sh.b && t < sh.l
    requires |x| == sh.b * la * sh.hKv * sh.s && |y| == sh.b * (sh.l - la) * sh.hKv * sh.s
    ensures var r, kb := JoinedBy(x, y, sh.b, la, sh.l - la, sh.hKv, sh.s), KeyBase(sh, bi, t, hv);
            && kb + sh.s <= |r|
            && var from, at := if t < la then x else y,
                               if t < la then KeyBase(sh.(l := la), bi, t, hv) else KeyBase(sh.(l := sh.l - la), bi, t - la, hv);
               at + sh.s <= |from| && r[kb..kb + sh.s] == from[at..at + sh.s]
  {
    var lb, kv := sh.l - la, hv % sh.hKv;
    var shX, u := if t < la then sh.(l := la) else sh.(l := lb), if t < la then t else t - la;
    KeysFit(sh, bi, t, hv);
    KeysFit(shX, bi, u, hv);
    hide KeyBase, JoinedBy, Spot;
    assert kv < sh.hKv;
    var r, from := JoinedBy(x, y, sh.b, la, lb, sh.hKv, sh.s), if t < la then x else y;
    var kb, at := KeyBase(sh, bi, t, hv), KeyBase(shX, bi, u, hv);
    forall i | 0 <= i < sh.s
      ensures SameAt(r, kb, from, at, i)
    {
      PlacesAreSpots(sh, bi, t, hv, i);
      PlacesAreSpots(shX, bi, u, hv, i);
      JoinedAt(x, y, sh.b, la, lb, sh.hKv, sh.s, bi, t, kv, i);
    }
    SameSlices(r, kb, from, at, sh.s);
  }

  lemma TokenOfJoined(sh: Shape, la: nat, a: Inputs, b: Inputs, exp: real -> real, bi: nat, t: nat, hv: nat, col: nat)
    requires la <= sh.l && InShape(sh, bi, hv, col) && t < sh.l
    requires Shaped(sh.(l := la), a) && Shaped(sh.(l := sh.l - la), b)
    ensures TokenAt(sh, Joined(sh, la, a, b), exp, bi, t, hv, col)
         == if t < la then TokenAt(sh.(l := la), a, exp, bi, t, hv, col)
            else TokenAt(sh.(l := sh.l - la), b, exp, bi, t - la, hv, col)
  {
    hide KeyBase, JoinedBy, Spot, OutAt, GateAt;
    var lb := sh.l - la;
    KeysOfJoined(sh, la, a.q, b.q, bi, t, hv);
    KeysOfJoined(sh, la, a.k, b.k, bi, t, hv);
    JoinedAt(a.v, b.v, sh.b, la, lb, sh.hV, sh.s, bi, t, hv, col);
    JoinedAt(a.gate, b.gate, sh.b, la, lb, sh.hV, 1, bi, t, hv, 0);
    JoinedAt(a.beta, b.beta, sh.b, la, lb, sh.hV, 1, bi, t, hv, 0);
    PlacesAreSpots(sh, bi, t, hv, col);
    PlacesAreSpots(sh.(l := la), bi, t, hv, col);
    if t >= la {
      PlacesAreSpots(sh.(l := lb), bi, t - la, hv, col);
    }
  }

  lemma TokensOfJoined(sh: Shape, la: nat, a: Inputs, b: Inputs, exp: real -> real, bi: nat, hv: nat, col: nat, n: nat)
    requires la <= sh.l && InShape(sh, bi, hv, col) && n <= sh.l
    requires Shaped(sh.(l := la), a) && Shaped(sh.(l := sh.l - la), b)
    ensures TokensOf(sh, Joined(sh, la, a, b), exp, bi, hv, col, n)
         == if n <= la then TokensOf(sh.(l := la), a, exp, bi, hv, col, n)
            else TokensOf(sh.(l := la), a, exp, bi, hv, col, la) + TokensOf(sh.(l := sh.l - la), b, exp, bi, hv, col, n - la)
  {
    hide Shaped, TokenAt, Joined;
    forall t | 0 <= t < n
      ensures TokenAt(sh, Joined(sh, la, a, b), exp, bi, t, hv, col)
           == if t < la then TokenAt(sh.(l := la), a, exp, bi, t, hv, col)
              else TokenAt(sh.(l := sh.l - la), b, exp, bi, t - la, hv, col)
    {
      TokenOfJoined(sh, la, a, b, exp, bi, t, hv, col);
    }
  }

  /** Where a row lies does not depend on the number of tokens. */
  lemma SameRow(sh: Shape, l: nat, s: seq<real>, bi: nat, hv: nat, col: nat)
    requires InShape(sh, bi, hv, col) && |s| == StateSize(sh)
    ensures RowOf(sh, s, bi, hv, col) == RowOf(sh.(l := l), s, bi, hv, col)
  {
    assert RowBase(sh, bi, hv, col) == RowBase(sh.(l := l), bi, hv, col);
  }

  lemma JoinedRows(sh: Shape, la: nat, a: Inputs, b: Inputs, exp: real -> real, s0: seq<real>, s1: seq<real>, s2: seq<real>,
                   s3: seq<real>, attnA: seq<real>, attnB: seq<real>, attn: seq<real>, bi: nat, hv: nat, col: nat)
    requires la <= sh.l && InShape(sh, bi, hv, col)
    requires Shaped(sh.(l := la), a) && Shaped(sh.(l := sh.l - la), b)
    requires |s0| == |s1| == |s2| == |s3| == StateSize(sh)
    requires |attnA| == OutSize(sh.(l := la)) && |attnB| == OutSize(sh.(l := sh.l - la)) && |attn| == OutSize(sh)
    requires BatchDone(sh.(l := la), a, exp, s0, s1, attnA, bi, la)
    requires BatchDone(sh.(l := sh.l - la), b, exp, s1, s2, attnB, bi, sh.l - la)
    requires BatchDone(sh, Joined(sh, la, a, b), exp, s0, s3, attn, bi, sh.l)
    ensures RowOf(sh, s3, bi, hv, col) == RowOf(sh, s2, bi, hv, col)
    ensures RowOf(sh, s1, bi, hv, col) == RowAfter(RowOf(sh, s0, bi, hv, col), TokensOf(sh.(l := la), a, exp, bi, hv, col, la))
  {
    hide Shaped, OutAt, OutSize, RowOf, TokensOf, RowAfter, Joined;
    var lb := sh.l - la;
    var shA, shB := sh.(l := la), sh.(l := lb);
    assert StateSize(shA) == StateSize(shB) == StateSize(sh);
    hide StateSize;
    assert RowDone(shA, a, exp, s0, s1, attnA, bi, hv, col, la);
    assert RowDone(shB, b, exp, s1, s2, attnB, bi, hv, col, lb);
    assert RowDone(sh, Joined(sh, la, a, b), exp, s0, s3, attn, bi, hv, col, sh.l);
    hide BatchDone, OutDone;
    TokensOfJoined(sh, la, a, b, exp, bi, hv, col, sh.l);
    SameRow(sh, la, s0, bi, hv, col);
    SameRow(sh, la, s1, bi, hv, col);
    SameRow(sh, lb, s1, bi, hv, col);
    SameRow(sh, lb, s2, bi, hv, col);
    var ta, tb := TokensOf(shA, a, exp, bi, hv, col, la), TokensOf(shB, b, exp, bi, hv, col, lb);
    CarriedState(RowOf(sh, s0, bi, hv, col), ta, tb);
    if lb == 0 {
      assert tb == [] && ta + tb == ta;
    }
  }

  lemma JoinedOuts(sh: Shape, la: nat, a: Inputs, b: Inputs, exp: real -> real, s0: seq<real>, s1: seq<real>, s2: seq<real>,
                   s3: seq<real>, attnA: seq<real>, attnB: seq<real>, attn: seq<real>, bi: nat, hv: nat, col: nat, t: nat)
    requires la <= sh.l && InShape(sh, bi, hv, col) && t < sh.l
    requires Shaped(sh.(l := la), a) && Shaped(sh.(l := sh.l - la), b)
    requires |s0| == |s1| == |s2| == |s3| == StateSize(sh)
    requires |attnA| == OutSize(sh.(l := la)) && |attnB| == OutSize(sh.(l := sh.l - la)) && |attn| == OutSize(sh)
    requires BatchDone(sh.(l := la), a, exp, s0, s1, attnA, bi, la)
    requires BatchDone(sh.(l := sh.l - la), b, exp, s1, s2, attnB, bi, sh.l - la)
    requires BatchDone(sh, Joined(sh, la, a, b), exp, s0, s3, attn, bi, sh.l)
    requires RowOf(sh, s1, bi, hv, col) == RowAfter(RowOf(sh, s0, bi, hv, col), TokensOf(sh.(l := la), a, exp, bi, hv, col, la))
    ensures OutAt(sh, bi, t, hv, col) < |attn|
    ensures if t < la
            then var at := OutAt(sh.(l := la), bi, t, hv, col); at < |attnA| && attn[OutAt(sh, bi, t, hv, col)] == attnA[at]
            else var at := OutAt(sh.(l := sh.l - la), bi, t - la, hv, col); at < |attnB| && attn[OutAt(sh, bi, t, hv, col)] == attnB[at]
  {
    hide Shaped, OutAt, OutSize, RowOf, TokensOf, RowAfter, Joined;
    var lb := sh.l - la;
    var shA, shB := sh.(l := la), sh.(l := lb);
    assert StateSize(shA) == StateSize(shB) == StateSize(sh);
    hide StateSize;
    OutsFit(sh, bi, t, hv, col);
    assert RowDone(sh, Joined(sh, la, a, b), exp, s0, s3, attn, bi, hv, col, sh.l);
    assert OutDone(sh, Joined(sh, la, a, b), exp, s0, attn, bi, hv, col, t);
    TokensOfJoined(sh, la, a, b, exp, bi, hv, col, t + 1);
    SameRow(sh, la, s0, bi, hv, col);
    SameRow(sh, lb, s1, bi, hv, col);
    if t < la {
      assert RowDone(shA, a, exp, s0, s1, attnA, bi, hv, col, la);
      hide BatchDone;
      OutsFit(shA, bi, t, hv, col);
      assert OutDone(shA, a, exp, s0, attnA, bi, hv, col, t);
    } else {
      assert RowDone(shB, b, exp, s1, s2, attnB, bi, hv, col, lb);
      hide BatchDone;
      OutsFit(shB, bi, t - la, hv, col);
      assert OutDone(shB, b, exp, s1, attnB, bi, hv, col, t - la);
      CarriedState(RowOf(sh, s0, bi, hv, col), TokensOf(shA, a, exp, bi, hv, col, la), TokensOf(shB, b, exp, bi, hv, col, t + 1 - la));
    }
  }

  /** A run over the first `la` tokens of every batch and a run over the rest that starts from its state,
      together, are one run over all tokens: in every batch and head the same state rows, and at every
      token the same outputs. */
  lemma StreamingEqualsBatch(sh: Shape, la: nat, a: Inputs, b: Inputs, exp: real -> real, s0: seq<real>, s1: seq<real>, s2: seq<real>,
                             s3: seq<real>, attnA: seq<real>, attnB: seq<real>, attn: seq<real>, bi: nat, hv: nat, col: nat, t: nat)
    requires la <= sh.l && InShape(sh, bi, hv, col) && t < sh.l
    requires Shaped(sh.(l := la), a) && Shaped(sh.(l := sh.l - la), b)
    requires |s0| == |s1| == |s2| == |s3| == StateSize(sh)
    requires |attnA| == OutSize(sh.(l := la)) && |attnB| == OutSize(sh.(l := sh.l - la)) && |attn| == OutSize(sh)
    requires BatchDone(sh.(l := la), a, exp, s0, s1, attnA, bi, la)
    requires BatchDone(sh.(l := sh.l - la), b, exp, s1, s2, attnB, bi, sh.l - la)
    requires BatchDone(sh, Joined(sh, la, a, b), exp, s0, s3, attn, bi, sh.l)
    ensures RowOf(sh, s3, bi, hv, col) == RowOf(sh, s2, bi, hv, col)
    ensures OutAt(sh, bi, t, hv, col) < |attn|
    ensures if t < la
            then var at := OutAt(sh.(l := la), bi, t, hv, col); at < |attnA| && attn[OutAt(sh, bi, t, hv, col)] == attnA[at]
            else var at := OutAt(sh.(l := sh.l - la), bi, t - la, hv, col); at < |attnB| && attn[OutAt(sh, bi, t, hv, col)] == attnB[at]
  {
    JoinedRows(sh, la, a, b, exp, s0, s1, s2, s3, attnA, attnB, attn, bi, hv, col);
    JoinedOuts(sh, la, a, b, exp, s0, s1, s2, s3, attnA, attnB, attn, bi, hv, col, t);
    hide BatchDone, OutAt, RowOf;
  }
}
