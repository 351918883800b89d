/** All-reduce over peer memory: every rank's kernel reads all ranks' partials and adds them up.

    Elements are independent, so the machine below is about one element: a column with one value per
    rank. Each rank's thread loads the partials one after the other and then stores; threads of
    different ranks interleave freely. Addition is any function: floating-point addition is neither
    associative nor exact. */
module AllReduce {
  import opened Wrappers

  // ----- Host side: which kernel gets which pointers -----

  datatype Kind = Residual | Sum

  /** One kernel launch: rank `rank` adds up the partials of `sources` in this order, into its hidden
      state (`Residual`) or into the partial of `sources[0]` (`Sum`). */
  datatype Launch = Launch(kind: Kind, rank: nat, sources: seq<nat>)

  datatype ReduceError = WrongRankCount(want: nat, have: nat)

  function Canonical(n: nat): seq<nat> {
    seq(n, k => k)
  }

  function Rotated(n: nat, r: nat): seq<nat>
    requires n > 0
  {
    seq(n, k => (r + k) % n)
  }

  function SourcesOf(kind: Kind, n: nat, r: nat): (sources: seq<nat>)
    requires r < n
  {
    if kind.Residual? then Canonical(n) else Rotated(n, r)
  }

  method ResidualTp2(ranks: nat) returns (r: Result<seq<Launch>, ReduceError>)
    ensures r.Success? <==> ranks == 2
    ensures r.Success? ==> |r.value| == 2 && forall k :: 0 <= k < 2 ==> r.value[k] == Launch(Residual, k, SourcesOf(Residual, 2, k))
  {
    if ranks != 2 {
      return Failure(WrongRankCount(2, ranks));
    }
    var launches := [];
    for rank := 0 to 2
      invariant |launches| == rank
      invariant forall k :: 0 <= k < rank ==> launches[k] == Launch(Residual, k, Canonical(2))
    {
      launches := launches + [Launch(Residual, rank, [0, 1])];
      assert Canonical(2) == [0, 1];
    }
    return Success(launches);
  }

  method ResidualTp4(ranks: nat) returns (r: Result<seq<Launch>, ReduceError>)
    ensures r.Success? <==> ranks == 4
    ensures r.Success? ==> |r.value| == 4 && forall k :: 0 <= k < 4 ==> r.value[k] == Launch(Residual, k, SourcesOf(Residual, 4, k))
  {
    if ranks != 4 {
      return Failure(WrongRankCount(4, ranks));
    }
    var launches := [];
    for rank := 0 to 4
      invariant |launches| == rank
      invariant forall k :: 0 <= k < rank ==> launches[k] == Launch(Residual, k, Canonical(4))
    {
      launches := launches + [Launch(Residual, rank, [0, 1, 2, 3])];
      assert Canonical(4) == [0, 1, 2, 3];
    }
    return Success(launches);
  }

  method SumTp2(ranks: nat) returns (r: Result<seq<Launch>, ReduceError>)
    ensures r.Success? <==> ranks == 2
    ensures r.Success? ==> |r.value| == 2 && forall k :: 0 <= k < 2 ==> r.value[k] == Launch(Sum, k, SourcesOf(Sum, 2, k))
  {
    if ranks != 2 {
      return Failure(WrongRankCount(2, ranks));
    }
    var launches := [];
    for rank := 0 to 2
      invariant |launches| == rank
      invariant forall k :: 0 <= k < rank ==> launches[k] == Launch(Sum, k, Rotated(2, k))
    {
      var peer := 1 - rank;
      launches := launches + [Launch(Sum, rank, [rank, peer])];
      assert Rotated(2, rank) == [rank, peer];
    }
    return Success(launches);
  }

  method SumTp4(ranks: nat) returns (r: Result<seq<Launch>, ReduceError>)
    ensures r.Success? <==> ranks == 4
    ensures r.Success? ==> |r.value| == 4 && forall k :: 0 <= k < 4 ==> r.value[k] == Launch(Sum, k, SourcesOf(Sum, 4, k))
  {
    if ranks != 4 {
      return Failure(WrongRankCount(4, ranks));
    }
    var launches := [];
    for rank := 0 to 4
      invariant |launches| == rank
      invariant forall k :: 0 <= k < rank ==> launches[k] == Launch(Sum, k, Rotated(4, k))
    {
      launches := launches + [Launch(Sum, rank, [rank, (rank + 1) % 4, (rank + 2) % 4, (rank + 3) % 4])];
      assert Rotated(4, rank) == [rank, (rank + 1) % 4, (rank + 2) % 4, (rank + 3) % 4];
    }
    return Success(launches);
  }

  // ----- The grid -----

  const BLOCK_THREADS: nat := 256
  const U32: nat := 0x1_0000_0000

  /** `launch_cfg_for`: blocks of 256 threads, each with one or two elements. */
  function Blocks(elemCount: nat, perThread: nat): nat
    requires perThread > 0
  {
    (elemCount + BLOCK_THREADS * perThread - 1) / (BLOCK_THREADS * perThread)
  }

  /** The first element of a thread, in the kernels' 32-bit arithmetic. */
  function FirstOf(block: nat, thread: nat, perThread: nat): nat {
    ((block * BLOCK_THREADS + thread) % U32 * perThread) % U32
  }

  predicate Handles(block: nat, thread: nat, perThread: nat, elemCount: nat, i: nat) {
    FirstOf(block, thread, perThread) <= i < FirstOf(block, thread, perThread) + perThread && i < elemCount
  }

  lemma FirstOfOne(elemCount: nat, block: nat, thread: nat)
    requires elemCount < U32 && block < Blocks(elemCount, 1) && thread < BLOCK_THREADS
    ensures FirstOf(block, thread, 1) == block * 256 + thread
  {
    assert block * 256 + thread < U32;
  }

  lemma FirstOfTwo(elemCount: nat, block: nat, thread: nat)
    requires elemCount < U32 && block < Blocks(elemCount, 2) && thread < BLOCK_THREADS
    ensures FirstOf(block, thread, 2) == (block * 256 + thread) * 2
  {
    assert (block * 256 + thread) * 2 < U32;
  }

  /** No launched thread wraps around. */
  lemma FirstOfIs(elemCount: nat, perThread: nat, block: nat, thread: nat)
    requires (perThread == 1 || perThread == 2) && elemCount < U32
    requires block < Blocks(elemCount, perThread) && thread < BLOCK_THREADS
    ensures FirstOf(block, thread, perThread) == (block * 256 + thread) * perThread
  {
    hide FirstOf, Blocks;
    if perThread == 1 {
      FirstOfOne(elemCount, block, thread);
    } else {
      FirstOfTwo(elemCount, block, thread);
    }
  }

  /** Every element has exactly one thread, whatever 32-bit element count. */
  lemma GridCoversOnce(elemCount: nat, perThread: nat, i: nat)
    requires perThread == 1 || perThread == 2
    requires i < elemCount < U32
    ensures var b, t := i / perThread / BLOCK_THREADS, i / perThread % BLOCK_THREADS;
            && b < Blocks(elemCount, perThread) && t < BLOCK_THREADS
            && (forall block, thread :: 0 <= block < Blocks(elemCount, perThread) && 0 <= thread < BLOCK_THREADS ==>
                 (Handles(block, thread, perThread, elemCount, i) <==> block == b && thread == t))
  {
    var u := i / perThread;
    assert if perThread == 1 then u == i else 2 * u <= i < 2 * u + 2;
    var b, t := u / BLOCK_THREADS, u % BLOCK_THREADS;
    assert u == 256 * b + t;
    assert b < Blocks(elemCount, perThread) by {
      if perThread == 1 {
        assert 256 * b < elemCount;
      } else {
        assert 512 * b < elemCount;
      }
    }
    hide FirstOf, Blocks;
    forall block: nat, thread: nat | block < Blocks(elemCount, perThread) && thread < BLOCK_THREADS
      ensures Handles(block, thread, perThread, elemCount, i) <==> block == b && thread == t
    {
      FirstOfIs(elemCount, perThread, block, thread);
      if perThread == 1 {
        assert Handles(block, thread, 1, elemCount, i) <==> block * 256 + thread == u;
      } else {
        assert Handles(block, thread, 2, elemCount, i) <==> block * 256 + thread == u;
      }
    }
  }

  // ----- One element on all ranks -----

  /** `store` is the rounding to the width of the stored value. */
  datatype Arith<!A> = Arith(add: (A, A) -> A, store: A -> A)

  /** `regs[r]` is what rank `r`'s thread has loaded so far. */
  datatype Column<A> = Column(hidden: seq<A>, partial: seq<A>, regs: seq<seq<A>>, done: seq<bool>)

  datatype Step = Load(rank: nat) | Store(rank: nat)

  predicate Sized<A>(c: Column<A>, n: nat) {
    && |c.hidden| == |c.partial| == |c.regs| == |c.done| == n
    && forall r :: 0 <= r < n ==> |c.regs[r]| <= n
  }

  predicate Enabled<A>(c: Column<A>, n: nat, step: Step) {
    && Sized(c, n) && step.rank < n && !c.done[step.rank]
    && (if step.Load? then |c.regs[step.rank]| < n else |c.regs[step.rank]| == n)
  }

  /** `acc + xs[0] + xs[1] + …`, from the left. */
  function Added<A>(add: (A, A) -> A, acc: A, xs: seq<A>): A {
    if xs == [] then acc else add(Added(add, acc, xs[..|xs| - 1]), xs[|xs| - 1])
  }

  /** What a rank stores once it has loaded `regs`. */
  function KernelValue<A>(kind: Kind, ar: Arith<A>, hidden: A, regs: seq<A>): A
    requires regs != []
  {
    if kind.Residual? then ar.store(Added(ar.add, hidden, regs)) else ar.store(Added(ar.add, regs[0], regs[1..]))
  }

  function Do<A>(kind: Kind, ar: Arith<A>, c: Column<A>, n: nat, step: Step): Column<A>
    requires Enabled(c, n, step)
  {
    var r := step.rank;
    match step
    case Load(_) =>
      var source := SourcesOf(kind, n, r)[|c.regs[r]|];
      c.(regs := c.regs[r := c.regs[r] + [c.partial[source]]])
    case Store(_) =>
      var value := KernelValue(kind, ar, c.hidden[r], c.regs[r]);
      if kind.Residual? then c.(hidden := c.hidden[r := value], done := c.done[r := true])
      else c.(partial := c.partial[r := value], done := c.done[r := true])
  }

  ghost predicate IsRun<A>(kind: Kind, ar: Arith<A>, c: Column<A>, n: nat, steps: seq<Step>)
    decreases |steps|
  {
    steps != [] ==> Enabled(c, n, steps[0]) && IsRun(kind, ar, Do(kind, ar, c, n, steps[0]), n, steps[1..])
  }

  function Run<A>(kind: Kind, ar: Arith<A>, c: Column<A>, n: nat, steps: seq<Step>): Column<A>
    decreases |steps|
  {
    if steps == [] || !Enabled(c, n, steps[0]) then c else Run(kind, ar, Do(kind, ar, c, n, steps[0]), n, steps[1..])
  }

  function Fresh<A>(hidden: seq<A>, partial: seq<A>, n: nat): Column<A> {
    Column(hidden, partial, seq(n, _ => []), seq(n, _ => false))
  }

  predicate Complete<A>(c: Column<A>) {
    forall r :: 0 <= r < |c.done| ==> c.done[r]
  }

  function Picked<A>(xs: seq<A>, at: seq<nat>): (ys: seq<A>)
    requires forall k :: 0 <= k < |at| ==> at[k] < |xs|
  {
    seq(|at|, k requires 0 <= k < |at| => xs[at[k]])
  }

  /** The value an all-reduce owes rank `r`: its kernel's sum of the partials before the launch. */
  function Owed<A>(kind: Kind, ar: Arith<A>, hidden: seq<A>, partial: seq<A>, n: nat, r: nat): A
    requires |hidden| == |partial| == n && r < n
  {
    KernelValue(kind, ar, hidden[r], Picked(partial, SourcesOf(kind, n, r)))
  }

  function ResultAt<A>(kind: Kind, c: Column<A>, r: nat): A
    requires r < |c.hidden| && r < |c.partial|
  {
    if kind.Residual? then c.hidden[r] else c.partial[r]
  }

  // ----- Reads before writes -----

  /** Rank `r` has loaded rank `q`'s partial. */
  predicate Loaded<A>(kind: Kind, c: Column<A>, n: nat, r: nat, q: nat)
    requires Sized(c, n) && r < n && q < n
  {
    q in SourcesOf(kind, n, r)[..|c.regs[r]|]
  }

  /** A store that may overwrite a partial waits until every other rank has loaded it. */
  ghost predicate Polite<A>(kind: Kind, c: Column<A>, n: nat, step: Step)
    requires Enabled(c, n, step)
  {
    step.Store? ==> forall r :: 0 <= r < n && r != step.rank ==> Loaded(kind, c, n, r, step.rank)
  }

  ghost predicate ReadsFirst<A>(kind: Kind, ar: Arith<A>, c: Column<A>, n: nat, steps: seq<Step>)
    requires IsRun(kind, ar, c, n, steps)
    decreases |steps|
  {
    steps != [] ==> Polite(kind, c, n, steps[0]) && ReadsFirst(kind, ar, Do(kind, ar, c, n, steps[0]), n, steps[1..])
  }

  /** Registers hold the partials from before the launch; finished ranks have what they are owed. */
  ghost predicate Honest<A>(kind: Kind, ar: Arith<A>, c: Column<A>, n: nat, hidden: seq<A>, partial: seq<A>)
    requires |hidden| == |partial| == n
  {
    && Sized(c, n)
    && (forall r :: 0 <= r < n ==> c.regs[r] == Picked(partial, SourcesOf(kind, n, r)[..|c.regs[r]|]))
    && (forall r :: 0 <= r < n ==>
          if c.done[r] then ResultAt(kind, c, r) == Owed(kind, ar, hidden, partial, n, r)
          else c.hidden[r] == hidden[r] && c.partial[r] == partial[r])
    && (kind.Residual? ==> c.partial == partial)
    && (kind.Sum? ==> forall r, q :: 0 <= r < n && 0 <= q < n && r != q && c.done[q] ==> Loaded(kind, c, n, r, q))
  }

  lemma Wraps(x: nat, n: nat)
    requires 0 < n <= x < 2 * n
    ensures x % n == x - n
  {
    assert x / n == 1;
  }

  function RotatedIndex(n: nat, r: nat, k: nat): nat
    requires r < n && k < n
  {
    if r + k < n then r + k else r + k - n
  }

  lemma RotatedAt(n: nat, r: nat)
    requires r < n
    ensures forall k :: 0 <= k < n ==> Rotated(n, r)[k] == RotatedIndex(n, r, k)
  {
    forall k | 0 <= k < n
      ensures Rotated(n, r)[k] == RotatedIndex(n, r, k)
    {
      RotatedOnce(n, r, k);
    }
  }

  lemma RotatedOnce(n: nat, r: nat, k: nat)
    requires r < n && k < n
    ensures (r + k) % n == RotatedIndex(n, r, k)
  {
    if r + k >= n {
      Wraps(r + k, n);
    } else {
      Small(r + k, n);
    }
  }

  lemma Small(x: nat, n: nat)
    requires x < n
    ensures x % n == x
  {
  }

  lemma SourcesAreDistinct(kind: Kind, n: nat, r: nat)
    requires r < n
    ensures |SourcesOf(kind, n, r)| == n
    ensures forall j, k :: 0 <= j < k < n ==> SourcesOf(kind, n, r)[j] != SourcesOf(kind, n, r)[k]
    ensures forall j :: 0 <= j < n ==> SourcesOf(kind, n, r)[j] < n
    ensures forall q :: 0 <= q < n ==> q in SourcesOf(kind, n, r)
    ensures kind.Sum? ==> SourcesOf(kind, n, r)[0] == r
  {
    var sources := SourcesOf(kind, n, r);
    assert |sources| == n;
    if kind.Sum? {
      RotatedAt(n, r);
      hide Rotated;
      forall q | 0 <= q < n
        ensures q in sources
      {
        var k := if q >= r then q - r else q + n - r;
        assert sources[k] == RotatedIndex(n, r, k) == q;
      }
    } else {
      forall q | 0 <= q < n
        ensures q in sources
      {
        assert sources[q] == q;
      }
    }
  }

  /** The partial about to be loaded is still the one from before the launch. */
  lemma LoadsOriginal<A>(kind: Kind, ar: Arith<A>, c: Column<A>, n: nat, r: nat, hidden: seq<A>, partial: seq<A>)
    requires |hidden| == |partial| == n && Honest(kind, ar, c, n, hidden, partial) && Enabled(c, n, Load(r))
    ensures var source := SourcesOf(kind, n, r)[|c.regs[r]|]; source < n && c.partial[source] == partial[source]
  {
    SourcesAreDistinct(kind, n, r);
    var source := SourcesOf(kind, n, r)[|c.regs[r]|];
    assert kind.Sum? && source != r && c.done[source] ==> Loaded(kind, c, n, r, source);
  }

  lemma LoadedStays<A>(kind: Kind, c: Column<A>, d: Column<A>, n: nat, r: nat, q: nat)
    requires Sized(c, n) && Sized(d, n) && r < n && q < n && |c.regs[r]| <= |d.regs[r]| && Loaded(kind, c, n, r, q)
    ensures Loaded(kind, d, n, r, q)
  {
  }

  lemma LoadKeepsRegs<A>(kind: Kind, ar: Arith<A>, c: Column<A>, n: nat, r: nat, hidden: seq<A>, partial: seq<A>)
    requires |hidden| == |partial| == n && Honest(kind, ar, c, n, hidden, partial) && Enabled(c, n, Load(r))
    ensures var d := Do(kind, ar, c, n, Load(r));
            Sized(d, n) && forall q :: 0 <= q < n ==> d.regs[q] == Picked(partial, SourcesOf(kind, n, q)[..|d.regs[q]|])
  {
    var sources, k, d := SourcesOf(kind, n, r), |c.regs[r]|, Do(kind, ar, c, n, Load(r));
    LoadsOriginal(kind, ar, c, n, r, hidden, partial);
    assert sources[..k + 1] == sources[..k] + [sources[k]];
    assert d.regs[r] == Picked(partial, sources[..k + 1]);
  }

  lemma LoadIsHonest<A>(kind: Kind, ar: Arith<A>, c: Column<A>, n: nat, r: nat, hidden: seq<A>, partial: seq<A>)
    requires |hidden| == |partial| == n && Honest(kind, ar, c, n, hidden, partial) && Enabled(c, n, Load(r))
    ensures Honest(kind, ar, Do(kind, ar, c, n, Load(r)), n, hidden, partial)
  {
    var d := Do(kind, ar, c, n, Load(r));
    LoadKeepsRegs(kind, ar, c, n, r, hidden, partial);
    hide SourcesOf, Owed, Loaded, KernelValue, Picked;
    if kind.Sum? {
      forall p, q | 0 <= p < n && 0 <= q < n && p != q && d.done[q]
        ensures Loaded(kind, d, n, p, q)
      {
        LoadedStays(kind, c, d, n, p, q);
      }
    }
  }

  lemma StoreIsHonest<A>(kind: Kind, ar: Arith<A>, c: Column<A>, n: nat, r: nat, hidden: seq<A>, partial: seq<A>)
    requires |hidden| == |partial| == n && Honest(kind, ar, c, n, hidden, partial) && Enabled(c, n, Store(r))
    requires kind.Sum? ==> Polite(kind, c, n, Store(r))
    ensures Honest(kind, ar, Do(kind, ar, c, n, Store(r)), n, hidden, partial)
  {
    var sources, d := SourcesOf(kind, n, r), Do(kind, ar, c, n, Store(r));
    SourcesAreDistinct(kind, n, r);
    assert sources[..n] == sources;
    assert ResultAt(kind, d, r) == Owed(kind, ar, hidden, partial, n, r);
    if kind.Sum? {
      forall p, q | 0 <= p < n && 0 <= q < n && p != q && d.done[q]
        ensures Loaded(kind, d, n, p, q)
      {
        assert Loaded(kind, c, n, p, q);
      }
    }
    hide SourcesOf, Owed, Picked, Loaded, KernelValue;
  }

  /** If no partial is overwritten too early, every schedule leaves each rank what it is owed. The
      residual form overwrites no partial at all. */
  lemma {:induction false} RunIsHonest<A>(kind: Kind, ar: Arith<A>, c: Column<A>, n: nat, steps: seq<Step>, hidden: seq<A>, partial: seq<A>)
    requires |hidden| == |partial| == n && Honest(kind, ar, c, n, hidden, partial) && IsRun(kind, ar, c, n, steps)
    requires kind.Sum? ==> ReadsFirst(kind, ar, c, n, steps)
    ensures Honest(kind, ar, Run(kind, ar, c, n, steps), n, hidden, partial)
    decreases |steps|
  {
    if steps != [] {
      match steps[0] {
        case Load(r) => LoadIsHonest(kind, ar, c, n, r, hidden, partial);
        case Store(r) => StoreIsHonest(kind, ar, c, n, r, hidden, partial);
      }
      RunIsHonest(kind, ar, Do(kind, ar, c, n, steps[0]), n, steps[1..], hidden, partial);
    }
  }

  // ----- All elements -----

  /** A step of the thread that handles element `elem`. */
  datatype Work = Work(elem: nat, step: Step)

  function RunAll<A>(kind: Kind, ar: Arith<A>, cs: seq<Column<A>>, n: nat, works: seq<Work>): seq<Column<A>>
    decreases |works|
  {
    if works == [] || works[0].elem >= |cs| || !Enabled(cs[works[0].elem], n, works[0].step) then cs
    else RunAll(kind, ar, cs[works[0].elem := Do(kind, ar, cs[works[0].elem], n, works[0].step)], n, works[1..])
  }

  ghost predicate IsRunOfAll<A>(kind: Kind, ar: Arith<A>, cs: seq<Column<A>>, n: nat, works: seq<Work>)
    decreases |works|
  {
    works != [] ==>
      && works[0].elem < |cs| && Enabled(cs[works[0].elem], n, works[0].step)
      && IsRunOfAll(kind, ar, cs[works[0].elem := Do(kind, ar, cs[works[0].elem], n, works[0].step)], n, works[1..])
  }

  /** The steps that concern one element. */
  function Project(works: seq<Work>, elem: nat): seq<Step> {
    if works == [] then []
    else if works[0].elem == elem then [works[0].step] + Project(works[1..], elem) else Project(works[1..], elem)
  }

  /** However the threads of all elements interleave, each column runs its own schedule. */
  lemma {:induction false} ElementsAreIndependent<A>(kind: Kind, ar: Arith<A>, cs: seq<Column<A>>, n: nat, works: seq<Work>, elem: nat)
    requires IsRunOfAll(kind, ar, cs, n, works) && elem < |cs|
    ensures IsRun(kind, ar, cs[elem], n, Project(works, elem))
    ensures |RunAll(kind, ar, cs, n, works)| == |cs|
    ensures RunAll(kind, ar, cs, n, works)[elem] == Run(kind, ar, cs[elem], n, Project(works, elem))
    decreases |works|
  {
    if works != [] {
      var ds := cs[works[0].elem := Do(kind, ar, cs[works[0].elem], n, works[0].step)];
      ElementsAreIndependent(kind, ar, ds, n, works[1..], elem);
      if works[0].elem == elem {
        assert Project(works, elem)[1..] == Project(works[1..], elem);
      }
    }
  }

  // ----- The replicated hidden state -----

  predicate Replicated<A(==)>(xs: seq<A>) {
    forall r, q :: 0 <= r < |xs| && 0 <= q < |xs| ==> xs[r] == xs[q]
  }

  lemma FreshIsHonest<A>(kind: Kind, ar: Arith<A>, hidden: seq<A>, partial: seq<A>, n: nat)
    requires |hidden| == |partial| == n
    ensures Honest(kind, ar, Fresh(hidden, partial, n), n, hidden, partial)
  {
    var c := Fresh(hidden, partial, n);
    forall r | 0 <= r < n
      ensures c.regs[r] == Picked(partial, SourcesOf(kind, n, r)[..|c.regs[r]|])
    {
      assert SourcesOf(kind, n, r)[..0] == [];
    }
  }

  /** Residual all-reduce, any addition, any schedule: hidden states that agreed before agree after,
      and each is the canonical sum. */
  lemma ResidualReplicates<A>(ar: Arith<A>, hidden: seq<A>, partial: seq<A>, n: nat, steps: seq<Step>)
    requires |hidden| == |partial| == n && Replicated(hidden)
    requires IsRun(Residual, ar, Fresh(hidden, partial, n), n, steps)
    requires Complete(Run(Residual, ar, Fresh(hidden, partial, n), n, steps))
    ensures var c := Run(Residual, ar, Fresh(hidden, partial, n), n, steps);
            && |c.hidden| == n && Replicated(c.hidden) && c.partial == partial
            && forall r :: 0 <= r < n ==> c.hidden[r] == ar.store(Added(ar.add, hidden[0], partial))
  {
    FreshIsHonest(Residual, ar, hidden, partial, n);
    RunIsHonest(Residual, ar, Fresh(hidden, partial, n), n, steps, hidden, partial);
    var c := Run(Residual, ar, Fresh(hidden, partial, n), n, steps);
    assert Picked(partial, Canonical(n)) == partial;
    forall r | 0 <= r < n
      ensures c.hidden[r] == ar.store(Added(ar.add, hidden[0], partial))
    {
      assert ResultAt(Residual, c, r) == Owed(Residual, ar, hidden, partial, n, r);
    }
  }

  /** A layer: new partials on every rank, and some schedule of the reduction kernels. */
  datatype Layer<A> = Layer(partial: seq<A>, schedule: seq<Step>)

  ghost predicate LayersRun<A>(ar: Arith<A>, hidden: seq<A>, n: nat, layers: seq<Layer<A>>)
    decreases |layers|
  {
    layers != [] ==>
      var start := Fresh(hidden, layers[0].partial, n);
      && |layers[0].partial| == n && IsRun(Residual, ar, start, n, layers[0].schedule)
      && Complete(Run(Residual, ar, start, n, layers[0].schedule))
      && LayersRun(ar, Run(Residual, ar, start, n, layers[0].schedule).hidden, n, layers[1..])
  }

  function AfterLayers<A>(ar: Arith<A>, hidden: seq<A>, n: nat, layers: seq<Layer<A>>): seq<A>
    decreases |layers|
  {
    if layers == [] then hidden
    else AfterLayers(ar, Run(Residual, ar, Fresh(hidden, layers[0].partial, n), n, layers[0].schedule).hidden, n, layers[1..])
  }

  /** What one rank alone would compute from the same partials. */
  function Reference<A>(ar: Arith<A>, h: A, layers: seq<Layer<A>>): A {
    if layers == [] then h else Reference(ar, ar.store(Added(ar.add, h, layers[0].partial)), layers[1..])
  }

  /** Over whole runs of layers, with a new schedule in each, the ranks never drift apart. */
  lemma {:induction false} HiddenStaysReplicated<A>(ar: Arith<A>, hidden: seq<A>, n: nat, layers: seq<Layer<A>>)
    requires |hidden| == n && Replicated(hidden) && LayersRun(ar, hidden, n, layers)
    ensures var after := AfterLayers(ar, hidden, n, layers);
            && |after| == n && Replicated(after)
            && forall r :: 0 <= r < n ==> after[r] == Reference(ar, hidden[r], layers)
    decreases |layers|
  {
    if layers != [] {
      ResidualReplicates(ar, hidden, layers[0].partial, n, layers[0].schedule);
      HiddenStaysReplicated(ar, Run(Residual, ar, Fresh(hidden, layers[0].partial, n), n, layers[0].schedule).hidden, n, layers[1..]);
    }
  }

  // ----- The in-place sum -----

  /** In-place sums come out right when every rank has read a partial before its owner overwrites it. */
  lemma SumIsOwed<A>(ar: Arith<A>, hidden: seq<A>, partial: seq<A>, n: nat, steps: seq<Step>)
    requires |hidden| == |partial| == n
    requires IsRun(Sum, ar, Fresh(hidden, partial, n), n, steps)
    requires ReadsFirst(Sum, ar, Fresh(hidden, partial, n), n, steps)
    requires Complete(Run(Sum, ar, Fresh(hidden, partial, n), n, steps))
    ensures var c := Run(Sum, ar, Fresh(hidden, partial, n), n, steps);
            |c.partial| == n && forall r :: 0 <= r < n ==> c.partial[r] == Owed(Sum, ar, hidden, partial, n, r)
  {
    FreshIsHonest(Sum, ar, hidden, partial, n);
    RunIsHonest(Sum, ar, Fresh(hidden, partial, n), n, steps, hidden, partial);
    var c := Run(Sum, ar, Fresh(hidden, partial, n), n, steps);
    forall r | 0 <= r < n
      ensures c.partial[r] == Owed(Sum, ar, hidden, partial, n, r)
    {
      assert ResultAt(Sum, c, r) == Owed(Sum, ar, hidden, partial, n, r);
    }
  }

  /** Schedules do not depend on the numbers. */
  predicate SameShape<A, B>(c: Column<A>, d: Column<B>, n: nat) {
    Sized(c, n) && Sized(d, n) && c.done == d.done && forall r :: 0 <= r < n ==> |c.regs[r]| == |d.regs[r]|
  }

  lemma {:induction false} ShapeDecides<A, B>(kind: Kind, ar: Arith<A>, br: Arith<B>, c: Column<A>, d: Column<B>, n: nat, steps: seq<Step>)
    requires SameShape(c, d, n) && IsRun(kind, ar, c, n, steps)
    ensures IsRun(kind, br, d, n, steps)
    ensures ReadsFirst(kind, ar, c, n, steps) <==> ReadsFirst(kind, br, d, n, steps)
    ensures SameShape(Run(kind, ar, c, n, steps), Run(kind, br, d, n, steps), n)
    decreases |steps|
  {
    if steps != [] {
      SourcesAreDistinct(kind, n, steps[0].rank);
      assert Polite(kind, c, n, steps[0]) <==> Polite(kind, d, n, steps[0]) by {
        assert forall r, q :: 0 <= r < n && 0 <= q < n ==> (Loaded(kind, c, n, r, q) <==> Loaded(kind, d, n, r, q));
        hide Loaded;
      }
      hide Polite;
      ShapeDecides(kind, ar, br, Do(kind, ar, c, n, steps[0]), Do(kind, br, d, n, steps[0]), n, steps[1..]);
    }
  }

  const PLUS: Arith<int> := Arith((x, y) => x + y, x => x)

  function Ones(n: nat): Column<int> {
    Fresh(seq(n, _ => 0), seq(n, _ => 1), n)
  }

  lemma {:induction false} AddedGrows(acc: int, xs: seq<int>)
    requires forall k :: 0 <= k < |xs| ==> xs[k] >= 1
    ensures Added(PLUS.add, acc, xs) >= acc + |xs|
    ensures (exists k :: 0 <= k < |xs| && xs[k] >= 2) ==> Added(PLUS.add, acc, xs) > acc + |xs|
    ensures (forall k :: 0 <= k < |xs| ==> xs[k] == 1) ==> Added(PLUS.add, acc, xs) == acc + |xs|
  {
    if xs != [] {
      AddedGrows(acc, xs[..|xs| - 1]);
    }
  }

  /** All partials started at one, and some rank has read, or is bound to read, a finished sum. */
  ghost predicate Tainted(c: Column<int>, n: nat, r: nat)
    requires Sized(c, n) && r < n
  {
    if c.done[r] then c.partial[r] > n
    else (exists k :: 0 <= k < |c.regs[r]| && c.regs[r][k] >= 2)
         || (exists q :: 0 <= q < n && q != r && c.done[q] && !Loaded(Sum, c, n, r, q))
  }

  /** Stored values are sums of at least `n` ones. */
  ghost predicate Counting(c: Column<int>, n: nat) {
    && Sized(c, n)
    && (forall r :: 0 <= r < n ==> c.partial[r] >= 1 && (c.done[r] ==> c.partial[r] >= n && |c.regs[r]| == n))
    && (forall r, k :: 0 <= r < n && 0 <= k < |c.regs[r]| ==> c.regs[r][k] >= 1)
  }

  lemma DoCounts(c: Column<int>, n: nat, step: Step)
    requires n >= 2 && Counting(c, n) && Enabled(c, n, step)
    ensures Counting(Do(Sum, PLUS, c, n, step), n)
  {
    SourcesAreDistinct(Sum, n, step.rank);
    if step.Store? {
      AddedGrows(c.regs[step.rank][0], c.regs[step.rank][1..]);
    }
    hide SourcesOf, Added;
  }

  lemma TaintStays(c: Column<int>, n: nat, step: Step, r: nat)
    requires n >= 2 && Counting(c, n) && Enabled(c, n, step) && r < n && Tainted(c, n, r)
    ensures var d := Do(Sum, PLUS, c, n, step); Sized(d, n) && Tainted(d, n, r)
  {
    var d, p := Do(Sum, PLUS, c, n, step), step.rank;
    SourcesAreDistinct(Sum, n, r);
    if p == r && step.Store? {
      assert forall q :: 0 <= q < n ==> Loaded(Sum, c, n, r, q) by {
        assert SourcesOf(Sum, n, r)[..n] == SourcesOf(Sum, n, r);
      }
      var regs := c.regs[r];
      AddedGrows(regs[0], regs[1..]);
      var k :| 0 <= k < |regs| && regs[k] >= 2;
      assert k > 0 ==> regs[1..][k - 1] >= 2;
    } else if exists k :: 0 <= k < |c.regs[r]| && c.regs[r][k] >= 2 {
      var k :| 0 <= k < |c.regs[r]| && c.regs[r][k] >= 2;
      assert !c.done[r] ==> d.regs[r][k] >= 2;
    } else if !c.done[r] {
      var q :| 0 <= q < n && q != r && c.done[q] && !Loaded(Sum, c, n, r, q);
      if p == r {
        LoadGrows(c, n, r, q);
      } else {
        assert d.done[q] && !Loaded(Sum, d, n, r, q);
      }
    }
    hide SourcesOf, Added;
  }

  lemma LoadGrows(c: Column<int>, n: nat, r: nat, q: nat)
    requires n >= 2 && Counting(c, n) && Enabled(c, n, Load(r)) && q < n && q != r && c.done[q] && !Loaded(Sum, c, n, r, q)
    ensures var d := Do(Sum, PLUS, c, n, Load(r)); Sized(d, n) && Tainted(d, n, r)
  {
    var d, k, sources := Do(Sum, PLUS, c, n, Load(r)), |c.regs[r]|, SourcesOf(Sum, n, r);
    SourcesAreDistinct(Sum, n, r);
    assert sources[..k + 1] == sources[..k] + [sources[k]];
    if sources[k] == q {
      assert d.regs[r][k] == c.partial[q] >= 2;
    } else {
      assert !Loaded(Sum, d, n, r, q);
    }
  }

  lemma {:induction false} TaintLasts(c: Column<int>, n: nat, steps: seq<Step>, r: nat)
    requires n >= 2 && Counting(c, n) && IsRun(Sum, PLUS, c, n, steps) && r < n && Tainted(c, n, r)
    ensures var d := Run(Sum, PLUS, c, n, steps); Sized(d, n) && Tainted(d, n, r)
    decreases |steps|
  {
    if steps != [] {
      DoCounts(c, n, steps[0]);
      TaintStays(c, n, steps[0], r);
      hide Counting, Tainted, Do;
      TaintLasts(Do(Sum, PLUS, c, n, steps[0]), n, steps[1..], r);
    }
  }

  /** A schedule that is not polite taints some rank. */
  lemma {:induction false} RudenessTaints(c: Column<int>, n: nat, steps: seq<Step>)
    requires n >= 2 && Counting(c, n) && IsRun(Sum, PLUS, c, n, steps) && !ReadsFirst(Sum, PLUS, c, n, steps)
    ensures var d := Run(Sum, PLUS, c, n, steps); Sized(d, n) && exists r :: 0 <= r < n && Tainted(d, n, r)
    decreases |steps|
  {
    var d := Do(Sum, PLUS, c, n, steps[0]);
    DoCounts(c, n, steps[0]);
    if Polite(Sum, c, n, steps[0]) {
      RudenessTaints(d, n, steps[1..]);
    } else {
      var r := RudeStore(c, n, steps[0].rank);
      TaintLasts(d, n, steps[1..], r);
    }
  }

  lemma RudeStore(c: Column<int>, n: nat, q: nat) returns (r: nat)
    requires n >= 2 && Counting(c, n) && Enabled(c, n, Store(q)) && !Polite(Sum, c, n, Store(q))
    ensures var d := Do(Sum, PLUS, c, n, Store(q)); Sized(d, n) && r < n && Tainted(d, n, r)
  {
    r :| 0 <= r < n && r != q && !Loaded(Sum, c, n, r, q);
    var d := Do(Sum, PLUS, c, n, Store(q));
    SourcesAreDistinct(Sum, n, r);
    assert SourcesOf(Sum, n, r)[..n] == SourcesOf(Sum, n, r);
    assert q in SourcesOf(Sum, n, r)[..n];
    assert |c.regs[r]| < n && !c.done[r];
    assert d.done[q] && !Loaded(Sum, d, n, r, q);
  }

  lemma OnesOwed(n: nat, r: nat)
    requires r < n
    ensures Owed(Sum, PLUS, seq(n, _ => 0), seq(n, _ => 1), n, r) == n
  {
    var regs := Picked(seq(n, _ => 1), SourcesOf(Sum, n, r));
    AddedGrows(regs[0], regs[1..]);
  }

  /** The in-place sum leaves every rank its own sum of the partials before the launch. */
  ghost predicate SumRight(ar: Arith<int>, hidden: seq<int>, partial: seq<int>, n: nat, steps: seq<Step>)
    requires |hidden| == |partial| == n
  {
    var c := Run(Sum, ar, Fresh(hidden, partial, n), n, steps);
    |c.partial| == n && forall r :: 0 <= r < n ==> c.partial[r] == Owed(Sum, ar, hidden, partial, n, r)
  }

  /** A complete schedule of the in-place sum is right for every arithmetic and every input exactly when
      every rank reads each partial before its owner overwrites it; already plain addition of ones
      tells. */
  lemma SumRightIffReadsFirst(n: nat, steps: seq<Step>)
    requires n >= 2 && IsRun(Sum, PLUS, Ones(n), n, steps) && Complete(Run(Sum, PLUS, Ones(n), n, steps))
    ensures ReadsFirst(Sum, PLUS, Ones(n), n, steps) <==>
            forall ar: Arith<int>, hidden: seq<int>, partial: seq<int> :: |hidden| == n && |partial| == n ==>
              SumRight(ar, hidden, partial, n, steps)
    ensures ReadsFirst(Sum, PLUS, Ones(n), n, steps) <==> SumRight(PLUS, seq(n, _ => 0), seq(n, _ => 1), n, steps)
  {
    if ReadsFirst(Sum, PLUS, Ones(n), n, steps) {
      forall ar: Arith<int>, hidden: seq<int>, partial: seq<int> | |hidden| == n && |partial| == n
        ensures SumRight(ar, hidden, partial, n, steps)
      {
        ShapeDecides(Sum, PLUS, ar, Ones(n), Fresh(hidden, partial, n), n, steps);
        SumIsOwed(ar, hidden, partial, n, steps);
      }
    } else {
      RudenessTaints(Ones(n), n, steps);
      var c := Run(Sum, PLUS, Ones(n), n, steps);
      var r :| 0 <= r < n && Tainted(c, n, r);
      OnesOwed(n, r);
      assert !SumRight(PLUS, seq(n, _ => 0), seq(n, _ => 1), n, steps);
    }
  }

  // ----- Which orders agree -----

  ghost predicate Commutative<A(!new)>(add: (A, A) -> A) {
    forall x, y :: add(x, y) == add(y, x)
  }

  ghost predicate Associative<A(!new)>(add: (A, A) -> A) {
    forall x, y, z :: add(add(x, y), z) == add(x, add(y, z))
  }

  ghost predicate HasZero<A(!new)>(add: (A, A) -> A, zero: A) {
    forall x :: add(x, zero) == x && add(zero, x) == x
  }

  /** All ranks are owed the same, whatever the partials. */
  ghost predicate SumAgrees<A(!new)>(ar: Arith<A>, n: nat) {
    forall xs: seq<A>, r, q | |xs| == n && 0 <= r < n && 0 <= q < n ::
      Owed(Sum, ar, xs, xs, n, r) == Owed(Sum, ar, xs, xs, n, q)
  }

  lemma OwedOfTwo<A>(ar: Arith<A>, xs: seq<A>)
    requires |xs| == 2
    ensures Owed(Sum, ar, xs, xs, 2, 0) == ar.store(ar.add(xs[0], xs[1]))
    ensures Owed(Sum, ar, xs, xs, 2, 1) == ar.store(ar.add(xs[1], xs[0]))
  {
    assert Picked(xs, Rotated(2, 0)) == [xs[0], xs[1]] && Picked(xs, Rotated(2, 1)) == [xs[1], xs[0]];
    AddedOne(ar.add, xs[0], xs[1]);
    AddedOne(ar.add, xs[1], xs[0]);
  }

  lemma AddedOne<A>(add: (A, A) -> A, x: A, y: A)
    ensures Added(add, x, [x, y][1..]) == add(x, y)
  {
    assert [x, y][1..] == [y] && [y][..0] == [];
    assert Added(add, x, []) == x;
  }

  /** Sums of two commute once they are rounded to the width they are stored in. */
  ghost predicate CommutesWhenStored<A(!new)>(ar: Arith<A>) {
    forall x, y :: ar.store(ar.add(x, y)) == ar.store(ar.add(y, x))
  }

  /** Two ranks agree on the in-place sum, stored wide or rounded to half precision, exactly when stored
      sums commute. */
  lemma TwoRanksAgreeIff<A(!new)>(ar: Arith<A>)
    ensures SumAgrees(ar, 2) <==> CommutesWhenStored(ar)
  {
    hide Owed;
    forall xs: seq<A> | |xs| == 2
      ensures Owed(Sum, ar, xs, xs, 2, 0) == ar.store(ar.add(xs[0], xs[1]))
      ensures Owed(Sum, ar, xs, xs, 2, 1) == ar.store(ar.add(xs[1], xs[0]))
    {
      OwedOfTwo(ar, xs);
    }
    if SumAgrees(ar, 2) {
      forall x, y
        ensures ar.store(ar.add(x, y)) == ar.store(ar.add(y, x))
      {
        OwedOfTwo(ar, [x, y]);
      }
    }
  }

  function Chain4<A>(add: (A, A) -> A, a: A, b: A, c: A, d: A): A {
    add(add(add(a, b), c), d)
  }

  lemma AddedThree<A>(add: (A, A) -> A, a: A, b: A, c: A, d: A)
    ensures Added(add, [a, b, c, d][0], [a, b, c, d][1..]) == Chain4(add, a, b, c, d)
  {
    assert [a, b, c, d][1..] == [b, c, d] && [b, c, d][..2] == [b, c] && [b, c][..1] == [b] && [b][..0] == [];
    assert Added(add, a, [b]) == add(Added(add, a, []), b) == add(a, b);
    assert Added(add, a, [b, c]) == add(add(a, b), c);
  }

  lemma OwedOfFour<A>(ar: Arith<A>, xs: seq<A>, r: nat)
    requires |xs| == 4 && r < 4
    ensures Owed(Sum, ar, xs, xs, 4, r) == ar.store(Chain4(ar.add, xs[r], xs[(r + 1) % 4], xs[(r + 2) % 4], xs[(r + 3) % 4]))
  {
    assert Picked(xs, Rotated(4, r)) == [xs[r], xs[(r + 1) % 4], xs[(r + 2) % 4], xs[(r + 3) % 4]];
    AddedThree(ar.add, xs[r], xs[(r + 1) % 4], xs[(r + 2) % 4], xs[(r + 3) % 4]);
  }

  /** Sums of four may start anywhere in the circle once they are rounded. */
  ghost predicate RotatesWhenStored<A(!new)>(ar: Arith<A>) {
    forall a, b, c, d :: ar.store(Chain4(ar.add, a, b, c, d)) == ar.store(Chain4(ar.add, b, c, d, a))
  }

  lemma RotatesAround<A(!new)>(ar: Arith<A>, a: A, b: A, c: A, d: A)
    requires RotatesWhenStored(ar)
    ensures ar.store(Chain4(ar.add, a, b, c, d)) == ar.store(Chain4(ar.add, b, c, d, a))
         == ar.store(Chain4(ar.add, c, d, a, b)) == ar.store(Chain4(ar.add, d, a, b, c))
  {
    hide Chain4;
  }

  lemma RotatingOwesOne<A(!new)>(ar: Arith<A>, xs: seq<A>, r: nat)
    requires RotatesWhenStored(ar) && |xs| == 4 && r < 4
    ensures Owed(Sum, ar, xs, xs, 4, r) == ar.store(Chain4(ar.add, xs[0], xs[1], xs[2], xs[3]))
  {
    hide RotatesWhenStored, Owed, Chain4;
    RotatesAround(ar, xs[0], xs[1], xs[2], xs[3]);
    OwedOfFour(ar, xs, r);
  }

  lemma OwedNext<A(!new)>(ar: Arith<A>, a: A, b: A, c: A, d: A)
    requires SumAgrees(ar, 4)
    ensures ar.store(Chain4(ar.add, a, b, c, d)) == ar.store(Chain4(ar.add, b, c, d, a))
  {
    var xs := [a, b, c, d];
    assert Owed(Sum, ar, xs, xs, 4, 0) == Owed(Sum, ar, xs, xs, 4, 1);
    hide SumAgrees, Owed, Chain4;
    OwedOfFour(ar, xs, 0);
    OwedOfFour(ar, xs, 1);
  }

  /** Four ranks, each starting at itself, agree exactly when stored sums rotate. */
  lemma FourRanksAgreeIff<A(!new)>(ar: Arith<A>)
    ensures SumAgrees(ar, 4) <==> RotatesWhenStored(ar)
  {
    hide Owed, Chain4;
    if SumAgrees(ar, 4) {
      hide SumAgrees;
      forall a, b, c, d
        ensures ar.store(Chain4(ar.add, a, b, c, d)) == ar.store(Chain4(ar.add, b, c, d, a))
      {
        OwedNext(ar, a, b, c, d);
      }
    } else if RotatesWhenStored(ar) {
      hide RotatesWhenStored;
      forall xs: seq<A>, r, q | |xs| == 4 && 0 <= r < 4 && 0 <= q < 4
        ensures Owed(Sum, ar, xs, xs, 4, r) == Owed(Sum, ar, xs, xs, 4, q)
      {
        RotatingOwesOne(ar, xs, r);
        RotatingOwesOne(ar, xs, q);
      }
    }
  }

  /** Whatever the rounding, it is enough that addition commutes and associates. */
  lemma RotatesIfBoth<A(!new)>(ar: Arith<A>)
    requires Commutative(ar.add) && Associative(ar.add)
    ensures SumAgrees(ar, 4)
  {
    forall a, b, c, d
      ensures ar.store(Chain4(ar.add, a, b, c, d)) == ar.store(Chain4(ar.add, b, c, d, a))
    {
      RotatesOnce(ar.add, a, b, c, d);
    }
    hide Chain4, Commutative, Associative;
    FourRanksAgreeIff(ar);
  }

  lemma RotatesOnce<A(!new)>(add: (A, A) -> A, a: A, b: A, c: A, d: A)
    requires Commutative(add) && Associative(add)
    ensures Chain4(add, a, b, c, d) == Chain4(add, b, c, d, a)
  {
    assert add(add(a, b), c) == add(a, add(b, c));
    assert add(add(a, add(b, c)), d) == add(a, add(add(b, c), d));
    assert add(a, add(add(b, c), d)) == add(add(add(b, c), d), a);
  }

  /** Storing loses nothing: the wide sums. */
  ghost predicate StoresExactly<A(!new)>(ar: Arith<A>) {
    forall x, y :: ar.store(x) == ar.store(y) ==> x == y
  }

  /** With a zero, and storing exactly, it is also necessary. */
  lemma WideRanksAgreeIff<A(!new)>(ar: Arith<A>, zero: A)
    requires HasZero(ar.add, zero) && StoresExactly(ar)
    ensures SumAgrees(ar, 4) <==> Commutative(ar.add) && Associative(ar.add)
  {
    FourRanksAgreeIff(ar);
    hide SumAgrees, Commutative, Associative, HasZero;
    if RotatesWhenStored(ar) {
      forall a, b, c
        ensures Chain4(ar.add, a, b, c, zero) == Chain4(ar.add, b, c, zero, a)
      {
      }
      hide Chain4;
      RotationMeansBoth(ar.add, zero);
    } else if Commutative(ar.add) && Associative(ar.add) {
      RotatesIfBoth(ar);
    }
  }

  lemma RotationMeansBoth<A(!new)>(add: (A, A) -> A, zero: A)
    requires HasZero(add, zero)
    requires forall a, b, c :: Chain4(add, a, b, c, zero) == Chain4(add, b, c, zero, a)
    ensures Commutative(add) && Associative(add)
  {
    forall x, y
      ensures add(x, y) == add(y, x)
    {
      assert Chain4(add, x, y, zero, zero) == Chain4(add, y, zero, zero, x);
    }
    forall x, y, z
      ensures add(add(x, y), z) == add(x, add(y, z))
    {
      assert Chain4(add, x, y, z, zero) == Chain4(add, y, z, zero, x);
      assert add(add(y, z), x) == add(x, add(y, z));
    }
  }

  /** Commuting alone does not make four ranks agree. */
  lemma CommutingIsNotEnough()
    ensures var ar := Arith((x: int, y: int) => 2 * (x + y), x => x); Commutative(ar.add) && SumAgrees(ar, 2) && !SumAgrees(ar, 4)
  {
    var ar := Arith((x: int, y: int) => 2 * (x + y), x => x);
    TwoRanksAgreeIff(ar);
    OwedOfFour(ar, [1, 0, 0, 0], 0);
    OwedOfFour(ar, [1, 0, 0, 0], 1);
    hide Owed;
  }

  // ----- The order the residual kernels must not use -----

  /** Each rank adds its own partial first, then its peer's: the order before it was made canonical. */
  function LocalFirst<A>(ar: Arith<A>, h: A, partial: seq<A>, r: nat): A
    requires |partial| == 2 && r < 2
  {
    ar.store(ar.add(ar.add(h, partial[r]), partial[1 - r]))
  }

  ghost predicate LocalFirstAgrees<A(!new)>(ar: Arith<A>) {
    forall h: A, partial: seq<A> :: |partial| == 2 ==> LocalFirst(ar, h, partial, 0) == LocalFirst(ar, h, partial, 1)
  }

  /** Whatever the rounding, local-first ranks agree if addition commutes and associates; with a zero
      and storing exactly, only then. Floating-point addition does not associate, so the ranks drift
      apart. */
  lemma LocalFirstAgreesIff<A(!new)>(ar: Arith<A>, zero: A)
    ensures Commutative(ar.add) && Associative(ar.add) ==> LocalFirstAgrees(ar)
    ensures HasZero(ar.add, zero) && StoresExactly(ar) && LocalFirstAgrees(ar) ==> Commutative(ar.add) && Associative(ar.add)
  {
    if Commutative(ar.add) && Associative(ar.add) {
      forall h: A, partial: seq<A> | |partial| == 2
        ensures LocalFirst(ar, h, partial, 0) == LocalFirst(ar, h, partial, 1)
      {
        Exchanges(ar.add, h, partial[0], partial[1]);
      }
    }
    if HasZero(ar.add, zero) && StoresExactly(ar) && LocalFirstAgrees(ar) {
      forall h, x, y
        ensures ar.add(ar.add(h, x), y) == ar.add(ar.add(h, y), x)
      {
        assert LocalFirst(ar, h, [x, y], 0) == LocalFirst(ar, h, [x, y], 1);
      }
      ExchangeMeansBoth(ar.add, zero);
    }
  }

  lemma Exchanges<A(!new)>(add: (A, A) -> A, h: A, x: A, y: A)
    requires Commutative(add) && Associative(add)
    ensures add(add(h, x), y) == add(add(h, y), x)
  {
    assert add(add(h, x), y) == add(h, add(x, y)) == add(h, add(y, x)) == add(add(h, y), x);
  }

  lemma ExchangeMeansBoth<A(!new)>(add: (A, A) -> A, zero: A)
    requires HasZero(add, zero) && forall h, x, y :: add(add(h, x), y) == add(add(h, y), x)
    ensures Commutative(add) && Associative(add)
  {
    forall x, y
      ensures add(x, y) == add(y, x)
    {
      assert add(add(zero, x), y) == add(add(zero, y), x);
    }
    forall x, y, z
      ensures add(add(x, y), z) == add(x, add(y, z))
    {
      assert add(add(y, x), z) == add(add(y, z), x);
      assert add(x, y) == add(y, x);
      assert add(add(y, z), x) == add(x, add(y, z));
    }
  }
}
