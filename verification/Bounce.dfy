/** The pinned bounce slab of a rank: grown under a lock, read without one.

    `EnsureBounceIn` is the code one thread runs; the transition system below it interleaves any
    number of threads between its atomic loads and stores. */
module Bounce {
  import opened Wrappers

  /** `sizes[p]` is the size slab `p` was allocated with, `freed` the slabs given back, in order. */
  datatype Slot = Slot(ptr: Option<nat>, bytes: nat, sizes: seq<nat>, freed: seq<nat>)

  datatype GrowError = FreeFailed | AllocFailed

  function Grown(slot: Slot, need: nat): Slot {
    var freed := if slot.ptr.Some? then slot.freed + [slot.ptr.value] else slot.freed;
    Slot(Some(|slot.sizes|), need, slot.sizes + [need], freed)
  }

  /** The slab is taken out, given back and replaced. */
  function Replaced(slot: Slot, need: nat, freeOk: bool, mallocOk: bool): (Slot, Result<nat, GrowError>) {
    if slot.ptr.Some? && !freeOk then (slot.(ptr := None), Failure(FreeFailed))
    else if !mallocOk then (Grown(slot, need).(ptr := None, bytes := slot.bytes, sizes := slot.sizes), Failure(AllocFailed))
    else (Grown(slot, need), Success(|slot.sizes|))
  }

  /** A call that found no slab of the size and now holds the lock. */
  function Regrown(slot: Slot, need: nat, freeOk: bool, mallocOk: bool): (Slot, Result<nat, GrowError>) {
    if slot.bytes >= need && slot.ptr.Some? then (slot, Success(slot.ptr.value)) else Replaced(slot, need, freeOk, mallocOk)
  }

  /** One call: `meanwhile` is the slot as the thread finds it once it holds the lock. */
  function Ensured(slot: Slot, meanwhile: Slot, need: nat, freeOk: bool, mallocOk: bool): (Slot, Result<nat, GrowError>) {
    if slot.bytes >= need && slot.ptr.Some? then (slot, Success(slot.ptr.value))
    else Regrown(meanwhile, need, freeOk, mallocOk)
  }

  /** A call that meets no other thread and no failure. */
  function Quietly(slot: Slot, need: nat): (Slot, Result<nat, GrowError>) {
    Ensured(slot, slot, need, true, true)
  }

  // ----- Slots at rest -----

  ghost predicate NoRepeats(s: seq<nat>) {
    forall i, j :: 0 <= i < j < |s| ==> s[i] != s[j]
  }

  /** Slabs are given back once; the slot's own is big enough and not among them. A slot without a
      slab claims at most one byte, less than any caller asks for. */
  ghost predicate Sound(slot: Slot) {
    && NoRepeats(slot.freed)
    && (forall i :: 0 <= i < |slot.freed| ==> slot.freed[i] < |slot.sizes|)
    && (slot.ptr.Some? ==>
          slot.ptr.value < |slot.sizes| && slot.sizes[slot.ptr.value] >= slot.bytes && slot.ptr.value !in slot.freed)
    && (slot.ptr.None? ==> slot.bytes <= 1)
  }

  lemma EnsuredIsSound(slot: Slot, need: nat)
    requires Sound(slot) && need > 0
    ensures var (t, r) := Quietly(slot, need);
            Sound(t) && t.ptr.Some? && r == Success(t.ptr.value) && t.bytes >= need && t.bytes >= slot.bytes
            && t.sizes[t.ptr.value] >= need
            && (t == slot <==> slot.ptr.Some? && slot.bytes >= need)
  {
  }

  /** What every slot satisfies whatever HIP answers. */
  ghost predicate Plausible(slot: Slot) {
    && NoRepeats(slot.freed)
    && (forall i :: 0 <= i < |slot.freed| ==> slot.freed[i] < |slot.sizes|)
    && (slot.ptr.Some? ==>
          slot.ptr.value < |slot.sizes| && slot.sizes[slot.ptr.value] >= slot.bytes && slot.ptr.value !in slot.freed)
  }

  lemma EnsuredIsPlausible(slot: Slot, meanwhile: Slot, need: nat, freeOk: bool, mallocOk: bool)
    requires Plausible(slot) && Plausible(meanwhile)
    ensures var (t, r) := Ensured(slot, meanwhile, need, freeOk, mallocOk);
            && Plausible(t)
            && (r.Success? ==> t.ptr == Some(r.value) && t.sizes[r.value] >= need)
            && (r.Failure? ==> t.ptr.None? && t.bytes == meanwhile.bytes)
  {
  }

  /** The slot has a slab and claims at least `need` bytes. */
  predicate Serves(slot: Slot, need: nat) {
    slot.ptr.Some? && slot.bytes >= need
  }

  /** A call that has to take the lock gives a slab back only if the one it finds there is too small, and
      claims fewer bytes than it found only where there was no slab to claim them. */
  lemma ReplacesOnlyTooSmall(slot: Slot, meanwhile: Slot, need: nat, freeOk: bool, mallocOk: bool)
    requires !Serves(slot, need)
    ensures var t := Ensured(slot, meanwhile, need, freeOk, mallocOk).0;
            && (t.freed != meanwhile.freed <==> meanwhile.ptr.Some? && meanwhile.bytes < need && freeOk)
            && (t.bytes < meanwhile.bytes <==> meanwhile.ptr.None? && need < meanwhile.bytes && mallocOk)
            && (t == meanwhile <== Serves(meanwhile, need))
  {
    assert meanwhile.ptr.Some? ==> |meanwhile.freed + [meanwhile.ptr.value]| > |meanwhile.freed|;
  }

  // ----- The code -----

  class RankBounce {
    var ptr: Option<nat>
    var bytes: nat
    var sizes: seq<nat>
    var freed: seq<nat>

    function Contents(): Slot
      reads this
    {
      Slot(ptr, bytes, sizes, freed)
    }

    constructor ()
      ensures Contents() == Slot(None, 0, [], [])
    {
      ptr, bytes, sizes, freed := None, 0, [], [];
    }

    /** Other growers may leave `meanwhile` while this thread waits for the lock; `freeOk` and
        `mallocOk` are what the HIP calls answer. */
    method EnsureBounceIn(need: nat, meanwhile: Slot, freeOk: bool, mallocOk: bool) returns (r: Result<nat, GrowError>)
      modifies this
      ensures (Contents(), r) == Ensured(old(Contents()), meanwhile, need, freeOk, mallocOk)
      ensures Serves(old(Contents()), need) ==> Contents() == old(Contents()) && r == Success(old(ptr).value)
      ensures !Serves(old(Contents()), need) && Serves(meanwhile, need) ==> Contents() == meanwhile && r == Success(meanwhile.ptr.value)
      ensures !Serves(old(Contents()), need) && !Serves(meanwhile, need) ==>
                && (r.Success? <==> (meanwhile.ptr.None? || freeOk) && mallocOk)
                && freed == meanwhile.freed + (if meanwhile.ptr.Some? && freeOk then [meanwhile.ptr.value] else [])
                && (r.Success? ==> r.value == |meanwhile.sizes| && ptr == Some(r.value) && bytes == need && sizes == meanwhile.sizes + [need])
                && (r.Failure? ==> ptr.None? && bytes == meanwhile.bytes && sizes == meanwhile.sizes)
    {
      if bytes >= need {
        var p := ptr;
        if p.Some? {
          return Success(p.value);
        }
      }
      ptr, bytes, sizes, freed := meanwhile.ptr, meanwhile.bytes, meanwhile.sizes, meanwhile.freed;
      if bytes >= need {
        var p := ptr;
        if p.Some? {
          return Success(p.value);
        }
      }
      var stale := ptr;
      ptr := None;
      if stale.Some? {
        if !freeOk {
          return Failure(FreeFailed);
        }
        freed := freed + [stale.value];
      }
      if !mallocOk {
        return Failure(AllocFailed);
      }
      var slab := |sizes|;
      sizes := sizes + [need];
      ptr := Some(slab);
      bytes := need;
      return Success(slab);
    }

    /** `free_bounce`: the slot forgets its slab before it gives it back. */
    method FreeBounce(freeOk: bool) returns (r: Result<(), GrowError>)
      modifies this
      ensures Contents() == old(Contents()).(ptr := None,
                                             freed := if old(ptr).Some? && freeOk then old(freed) + [old(ptr).value] else old(freed))
      ensures r.Success? <==> old(ptr).None? || freeOk
    {
      var p := ptr;
      ptr := None;
      if p.Some? {
        if !freeOk {
          return Failure(FreeFailed);
        }
        freed := freed + [p.value];
      }
      return Success(());
    }
  }

  /** How a call of this thread finds a slot: what the others leave while it waits, and what HIP answers. */
  datatype Found = Found(meanwhile: Slot, freeOk: bool, mallocOk: bool)

  function EnsuredAs(slot: Slot, found: Found, need: nat): (Slot, Result<nat, GrowError>) {
    Ensured(slot, found.meanwhile, need, found.freeOk, found.mallocOk)
  }

  /** `reserve_bounce_capacity`: rank after rank, until one fails. On success every rank's slab holds
      `bytes`; on a failure the ranks behind the failing one are as they were. */
  method ReserveBounceCapacity(bounces: seq<RankBounce>, bytes: nat, found: seq<Found>) returns (r: Result<(), GrowError>)
    requires (forall i, j :: 0 <= i < j < |bounces| ==> bounces[i] != bounces[j]) && |found| == |bounces|
    modifies bounces
    ensures bytes == 0 ==> r.Success? && forall i :: 0 <= i < |bounces| ==> bounces[i].Contents() == old(bounces[i].Contents())
    ensures bytes > 0 && r.Success? ==> forall i :: 0 <= i < |bounces| ==>
              && bounces[i].ptr.Some? && bounces[i].bytes >= bytes
              && (bounces[i].Contents(), Success(bounces[i].ptr.value)) == EnsuredAs(old(bounces[i].Contents()), found[i], bytes)
    ensures r.Failure? ==> exists k ::
              && 0 <= k < |bounces| && EnsuredAs(old(bounces[k].Contents()), found[k], bytes).1 == Failure(r.error)
              && (forall i :: 0 <= i < k ==> EnsuredAs(old(bounces[i].Contents()), found[i], bytes).1.Success?)
              && (forall i :: 0 <= i <= k ==> bounces[i].Contents() == EnsuredAs(old(bounces[i].Contents()), found[i], bytes).0)
              && (forall i :: k < i < |bounces| ==> bounces[i].Contents() == old(bounces[i].Contents()))
  {
    if bytes == 0 {
      return Success(());
    }
    hide Ensured;
    for rank := 0 to |bounces|
      invariant forall i :: rank <= i < |bounces| ==> bounces[i].Contents() == old(bounces[i].Contents())
      invariant forall i :: 0 <= i < rank ==>
                  && bounces[i].Contents() == EnsuredAs(old(bounces[i].Contents()), found[i], bytes).0
                  && EnsuredAs(old(bounces[i].Contents()), found[i], bytes).1.Success?
    {
      var at := found[rank];
      var ensured := bounces[rank].EnsureBounceIn(bytes, at.meanwhile, at.freeOk, at.mallocOk);
      if ensured.Failure? {
        return Failure(ensured.error);
      }
    }
    forall i | 0 <= i < |bounces|
      ensures bounces[i].ptr.Some? && bounces[i].bytes >= bytes
      ensures (bounces[i].Contents(), Success(bounces[i].ptr.value)) == EnsuredAs(old(bounces[i].Contents()), found[i], bytes)
    {
      SuccessHolds(old(bounces[i].Contents()), found[i], bytes);
    }
    return Success(());
  }

  lemma SuccessHolds(slot: Slot, found: Found, need: nat)
    requires EnsuredAs(slot, found, need).1.Success?
    ensures var (t, r) := EnsuredAs(slot, found, need); t.ptr == Some(r.value) && t.bytes >= need
  {
  }

  // ----- Threads -----

  /** Where a thread stands in `ensure_bounce_in`: before the named action. */
  datatype Thread =
    | Idle
    | LoadBytes(need: nat)
    | LoadPtr(need: nat)
    | Lock(need: nat)
    | CheckBytes(need: nat)
    | CheckPtr(need: nat)
    | Swap(need: nat)
    | Free(need: nat, stale: nat)
    | Malloc(need: nat)
    | StorePtr(need: nat, slab: nat)
    | StoreBytes(need: nat, slab: nat)
    | Unlock(need: nat, slab: nat)
    | Got(need: nat, slab: nat)
    | Failed(error: GrowError)

  datatype State = State(slot: Slot, owner: Option<nat>, threads: seq<Thread>)

  predicate Holding(t: Thread) {
    t.CheckBytes? || t.CheckPtr? || t.Swap? || t.Free? || t.Malloc? || t.StorePtr? || t.StoreBytes? || t.Unlock?
  }

  predicate Resting(t: Thread) {
    t.Idle? || t.Got? || t.Failed?
  }

  /** A thread calls with `need`, or takes its next atomic action; `ok` is what HIP answers. */
  datatype Step = Call(thread: nat, need: nat) | Act(thread: nat, ok: bool)

  predicate Enabled(s: State, step: Step) {
    && step.thread < |s.threads|
    && match step
       case Call(t, need) => Resting(s.threads[t]) && need > 0
       case Act(t, _) => !Resting(s.threads[t]) && (s.threads[t].Lock? ==> s.owner.None?)
  }

  function Put(s: State, t: nat, thread: Thread): State
    requires t < |s.threads|
  {
    s.(threads := s.threads[t := thread])
  }

  function Leave(s: State, t: nat, thread: Thread): State
    requires t < |s.threads|
  {
    Put(s, t, thread).(owner := None)
  }

  function Do(s: State, step: Step): State
    requires Enabled(s, step)
  {
    match step
    case Call(t, need) => Put(s, t, LoadBytes(need))
    case Act(t, ok) =>
      var slot := s.slot;
      match s.threads[t]
      case LoadBytes(need) => Put(s, t, if slot.bytes >= need then LoadPtr(need) else Lock(need))
      case LoadPtr(need) => Put(s, t, if slot.ptr.Some? then Got(need, slot.ptr.value) else Lock(need))
      case Lock(need) => Put(s, t, CheckBytes(need)).(owner := Some(t))
      case CheckBytes(need) => Put(s, t, if slot.bytes >= need then CheckPtr(need) else Swap(need))
      case CheckPtr(need) => if slot.ptr.Some? then Put(s, t, Unlock(need, slot.ptr.value)) else Put(s, t, Swap(need))
      case Swap(need) =>
        Put(s, t, if slot.ptr.Some? then Free(need, slot.ptr.value) else Malloc(need)).(slot := slot.(ptr := None))
      case Free(need, stale) =>
        if ok then Put(s, t, Malloc(need)).(slot := slot.(freed := slot.freed + [stale])) else Leave(s, t, Failed(FreeFailed))
      case Malloc(need) =>
        if ok then Put(s, t, StorePtr(need, |slot.sizes|)).(slot := slot.(sizes := slot.sizes + [need]))
        else Leave(s, t, Failed(AllocFailed))
      case StorePtr(need, slab) => Put(s, t, StoreBytes(need, slab)).(slot := slot.(ptr := Some(slab)))
      case StoreBytes(need, slab) => Put(s, t, Unlock(need, slab)).(slot := slot.(bytes := need))
      case Unlock(need, slab) => Leave(s, t, Got(need, slab))
      case _ => s
  }

  ghost predicate IsRun(s: State, steps: seq<Step>)
    decreases |steps|
  {
    steps != [] ==> Enabled(s, steps[0]) && IsRun(Do(s, steps[0]), steps[1..])
  }

  function Run(s: State, steps: seq<Step>): State
    decreases |steps|
  {
    if steps == [] || !Enabled(s, steps[0]) then s else Run(Do(s, steps[0]), steps[1..])
  }

  predicate AllSucceed(steps: seq<Step>) {
    forall k :: 0 <= k < |steps| && steps[k].Act? ==> steps[k].ok
  }

  predicate NeedsUpTo(steps: seq<Step>, most: nat) {
    forall k :: 0 <= k < |steps| && steps[k].Call? ==> steps[k].need <= most
  }

  /** No thread is inside a call or holds a slab. */
  predicate Quiet(s: State) {
    s.owner.None? && forall t :: 0 <= t < |s.threads| ==> s.threads[t].Idle?
  }

  lemma {:induction false} RunConcat(s: State, a: seq<Step>, b: seq<Step>)
    ensures IsRun(s, a + b) <==> IsRun(s, a) && IsRun(Run(s, a), b)
    ensures IsRun(s, a) ==> Run(s, a + b) == Run(Run(s, a), b)
    decreases |a|
  {
    if a == [] {
      assert a + b == b;
    } else {
      assert (a + b)[0] == a[0] && (a + b)[1..] == a[1..] + b;
      hide Enabled;
      if Enabled(s, a[0]) {
        hide Do;
        RunConcat(Do(s, a[0]), a[1..], b);
      }
    }
  }

  lemma RunOfNone(s: State)
    ensures IsRun(s, []) && Run(s, []) == s
  {
  }

  lemma Extend(s: State, steps: seq<Step>, step: Step)
    requires IsRun(s, steps) && Enabled(Run(s, steps), step)
    ensures IsRun(s, steps + [step]) && Run(s, steps + [step]) == Do(Run(s, steps), step)
  {
    RunConcat(s, steps, [step]);
    var t := Run(s, steps);
    assert [step][1..] == [];
    assert IsRun(Do(t, step), []);
  }

  // ----- Safety over every interleaving -----

  /** What a thread relies on. */
  ghost predicate ThreadOk(slot: Slot, t: Thread) {
    match t
    case LoadBytes(need) => need > 0
    case Lock(need) => need > 0
    case CheckBytes(need) => need > 0
    case LoadPtr(need) => 0 < need <= slot.bytes
    case CheckPtr(need) => 0 < need <= slot.bytes
    case Swap(need) => need > 0 && need >= slot.bytes
    case Free(need, stale) =>
      need > 0 && need >= slot.bytes && slot.ptr.None? && stale < |slot.sizes| && stale !in slot.freed
    case Malloc(need) => need > 0 && need >= slot.bytes && slot.ptr.None?
    case StorePtr(need, slab) =>
      need > 0 && need >= slot.bytes && slot.ptr.None? && slab < |slot.sizes| && slot.sizes[slab] == need && slab !in slot.freed
    case StoreBytes(need, slab) => need >= slot.bytes && slot.ptr == Some(slab) && slab < |slot.sizes| && slot.sizes[slab] == need
    case Unlock(need, slab) => need <= slot.bytes && slot.ptr == Some(slab) && slab < |slot.sizes| && slot.sizes[slab] >= need
    case Got(need, slab) => need <= slot.bytes && slab < |slot.sizes| && slot.sizes[slab] >= need
    case _ => true
  }

  /** `Sound`, except that between swap and store the owner of the lock has taken the slab out. */
  ghost predicate SlotOk(slot: Slot, growing: bool) {
    && NoRepeats(slot.freed)
    && (forall i :: 0 <= i < |slot.freed| ==> slot.freed[i] < |slot.sizes|)
    && (slot.ptr.Some? ==>
          slot.ptr.value < |slot.sizes| && slot.sizes[slot.ptr.value] >= slot.bytes && slot.ptr.value !in slot.freed)
    && (slot.ptr.None? ==> growing || slot.bytes <= 1)
  }

  predicate Growing(s: State) {
    && s.owner.Some? && s.owner.value < |s.threads|
    && var t := s.threads[s.owner.value]; t.Free? || t.Malloc? || t.StorePtr?
  }

  ghost predicate Inv(s: State) {
    && (forall t :: 0 <= t < |s.threads| ==> (Holding(s.threads[t]) <==> s.owner == Some(t)))
    && (s.owner.Some? ==> s.owner.value < |s.threads|)
    && (forall t :: 0 <= t < |s.threads| ==> ThreadOk(s.slot, s.threads[t]))
    && SlotOk(s.slot, Growing(s))
  }

  /** Slots only gain: more bytes promised, more slabs allocated. */
  ghost predicate Gains(a: Slot, b: Slot) {
    && a.bytes <= b.bytes && a.sizes <= b.sizes
  }

  lemma OthersStayOk(a: Slot, b: Slot, t: Thread)
    requires ThreadOk(a, t) && Gains(a, b) && !Holding(t)
    ensures ThreadOk(b, t)
  {
  }

  lemma CallOk(s: State, t: nat, need: nat)
    requires Inv(s) && Enabled(s, Call(t, need))
    ensures Inv(Do(s, Call(t, need)))
  {
  }

  /** The acting thread finds what it needs and leaves the slot in order. */
  ghost predicate ActedWell(s: State, t: nat)
    requires Enabled(s, Act(t, true))
  {
    var u := Do(s, Act(t, true));
    && |u.threads| == |s.threads| && Gains(s.slot, u.slot)
    && ThreadOk(u.slot, u.threads[t]) && SlotOk(u.slot, Growing(u))
    && (u.slot != s.slot ==> s.owner == Some(t))
    && (Holding(u.threads[t]) <==> u.owner == Some(t))
    && (u.owner == s.owner || (s.owner == None && u.owner == Some(t)) || (s.owner == Some(t) && u.owner == None))
  }

  lemma LookingActsWell(s: State, t: nat)
    requires Inv(s) && Enabled(s, Act(t, true)) && !Holding(s.threads[t])
    ensures ActedWell(s, t)
  {
    assert ThreadOk(s.slot, s.threads[t]);
  }

  lemma CheckingActsWell(s: State, t: nat)
    requires Inv(s) && Enabled(s, Act(t, true)) && Holding(s.threads[t])
    requires s.threads[t].CheckBytes? || s.threads[t].CheckPtr? || s.threads[t].Unlock?
    ensures ActedWell(s, t)
  {
    assert ThreadOk(s.slot, s.threads[t]);
  }

  lemma GrowingActsWell(s: State, t: nat)
    requires Inv(s) && Enabled(s, Act(t, true)) && Growing(s) && s.owner == Some(t)
    ensures ActedWell(s, t)
  {
    assert ThreadOk(s.slot, s.threads[t]);
  }

  lemma SwapActsWell(s: State, t: nat)
    requires Inv(s) && Enabled(s, Act(t, true)) && (s.threads[t].Swap? || s.threads[t].StoreBytes?)
    ensures ActedWell(s, t)
  {
    assert ThreadOk(s.slot, s.threads[t]);
  }

  lemma ActOk(s: State, t: nat)
    requires Inv(s) && Enabled(s, Act(t, true))
    ensures ActedWell(s, t)
  {
    var thread := s.threads[t];
    assert Holding(thread) ==> s.owner == Some(t);
    hide Inv, ActedWell;
    if !Holding(thread) {
      LookingActsWell(s, t);
    } else if thread.Swap? || thread.StoreBytes? {
      SwapActsWell(s, t);
    } else if Growing(s) {
      GrowingActsWell(s, t);
    } else {
      CheckingActsWell(s, t);
    }
  }

  lemma OthersOk(s: State, t: nat, v: nat)
    requires Inv(s) && Enabled(s, Act(t, true)) && ActedWell(s, t) && v < |s.threads| && v != t
    ensures ThreadOk(Do(s, Act(t, true)).slot, s.threads[v])
  {
    assert ThreadOk(s.slot, s.threads[v]) && (Holding(s.threads[v]) <==> s.owner == Some(v));
    hide Do, ThreadOk, Growing, SlotOk, Enabled, Inv;
    if !Holding(s.threads[v]) {
      OthersStayOk(s.slot, Do(s, Act(t, true)).slot, s.threads[v]);
    }
  }

  lemma ActMovesOne(s: State, t: nat, v: nat)
    requires Enabled(s, Act(t, true)) && v < |s.threads| && v != t
    ensures |Do(s, Act(t, true)).threads| == |s.threads| && Do(s, Act(t, true)).threads[v] == s.threads[v]
  {
  }

  lemma ActKeepsInv(s: State, t: nat)
    requires Inv(s) && Enabled(s, Act(t, true))
    ensures Inv(Do(s, Act(t, true))) && Gains(s.slot, Do(s, Act(t, true)).slot)
  {
    ActOk(s, t);
    var u := Do(s, Act(t, true));
    hide Do, ThreadOk, Growing, SlotOk, Enabled, Holding, Gains;
    forall v | 0 <= v < |u.threads|
      ensures ThreadOk(u.slot, u.threads[v]) && (Holding(u.threads[v]) <==> u.owner == Some(v))
    {
      if v != t {
        OthersOk(s, t, v);
        ActMovesOne(s, t, v);
        assert Holding(s.threads[v]) <==> s.owner == Some(v);
      }
    }
  }

  /** Every action keeps the invariant, and the slot never claims fewer bytes. */
  lemma StepKeepsInv(s: State, step: Step)
    requires Inv(s) && Enabled(s, step) && (step.Act? ==> step.ok)
    ensures Inv(Do(s, step)) && Gains(s.slot, Do(s, step).slot)
  {
    if step.Call? {
      CallOk(s, step.thread, step.need);
    } else {
      ActKeepsInv(s, step.thread);
    }
  }

  lemma {:induction false} RunKeepsInv(s: State, steps: seq<Step>)
    requires Inv(s) && IsRun(s, steps) && AllSucceed(steps)
    ensures Inv(Run(s, steps)) && Gains(s.slot, Run(s, steps).slot)
    decreases |steps|
  {
    if steps != [] {
      StepKeepsInv(s, steps[0]);
      hide Inv, Do, Enabled;
      RunKeepsInv(Do(s, steps[0]), steps[1..]);
    }
  }

  /** Every slab a call returned was allocated with at least the bytes it asked for. */
  ghost predicate ReturnsFit(s: State) {
    forall t :: 0 <= t < |s.threads| && s.threads[t].Got? ==>
      s.threads[t].slab < |s.slot.sizes| && s.slot.sizes[s.threads[t].slab] >= s.threads[t].need
  }

  /** From a sound slot, with HIP calls that succeed, whatever the threads do: `bytes` only grows and
      covers every call that returned, a slab in the slot holds `bytes`, returned slabs hold what was
      asked, none is freed twice. */
  lemma ThreadsAreSafe(s: State, steps: seq<Step>)
    requires Quiet(s) && Sound(s.slot) && IsRun(s, steps) && AllSucceed(steps)
    ensures var t := Run(s, steps);
            && t.slot.bytes >= s.slot.bytes
            && (t.slot.ptr.Some? ==> t.slot.ptr.value < |t.slot.sizes| && t.slot.sizes[t.slot.ptr.value] >= t.slot.bytes)
            && ReturnsFit(t) && NoRepeats(t.slot.freed)
            && (forall u :: 0 <= u < |t.threads| && t.threads[u].Got? ==> t.threads[u].need <= t.slot.bytes)
            && (forall k :: 0 <= k < |steps| ==> Run(s, steps[..k]).slot.bytes <= t.slot.bytes)
  {
    RunKeepsInv(s, steps);
    var t := Run(s, steps);
    forall u | 0 <= u < |t.threads| && t.threads[u].Got?
      ensures t.threads[u].slab < |t.slot.sizes| && t.slot.sizes[t.threads[u].slab] >= t.threads[u].need
      ensures t.threads[u].need <= t.slot.bytes
    {
      assert ThreadOk(t.slot, t.threads[u]);
    }
    forall k | 0 <= k < |steps|
      ensures Run(s, steps[..k]).slot.bytes <= t.slot.bytes
    {
      assert steps == steps[..k] + steps[k..];
      RunConcat(s, steps[..k], steps[k..]);
      RunKeepsInv(s, steps[..k]);
      RunKeepsInv(Run(s, steps[..k]), steps[k..]);
    }
  }

  // ----- One thread alone -----

  function Answer(t: Thread, freeOk: bool, mallocOk: bool): bool {
    if t.Free? then freeOk else if t.Malloc? then mallocOk else true
  }

  function Left(t: Thread): nat {
    match t
    case LoadBytes(_) => 11 case LoadPtr(_) => 10 case Lock(_) => 9 case CheckBytes(_) => 8 case CheckPtr(_) => 7
    case Swap(_) => 6 case Free(_, _) => 5 case Malloc(_) => 4 case StorePtr(_, _) => 3 case StoreBytes(_, _) => 2
    case Unlock(_, _) => 1 case _ => 0
  }

  predicate Solo(s: State, t: nat) {
    t < |s.threads| && (if Holding(s.threads[t]) then s.owner == Some(t) else s.owner == None)
  }

  lemma SoloActs(s: State, t: nat, ok: bool)
    requires Solo(s, t) && !Resting(s.threads[t])
    ensures Enabled(s, Act(t, ok))
    ensures var u := Do(s, Act(t, ok)); Solo(u, t) && Left(u.threads[t]) < Left(s.threads[t])
    ensures forall v :: 0 <= v < |s.threads| && v != t ==> Do(s, Act(t, ok)).threads[v] == s.threads[v]
    ensures |Do(s, Act(t, ok)).threads| == |s.threads|
  {
  }

  /** The acts with which thread `t` finishes its call when no other thread moves. */
  ghost function Finish(s: State, t: nat, freeOk: bool, mallocOk: bool): seq<Step>
    requires Solo(s, t)
    decreases Left(s.threads[t])
  {
    if Resting(s.threads[t]) then []
    else
      var act := Act(t, Answer(s.threads[t], freeOk, mallocOk));
      SoloActs(s, t, act.ok);
      [act] + Finish(Do(s, act), t, freeOk, mallocOk)
  }

  /** What is to come of a call at some point of the code. */
  function Outcome(slot: Slot, t: Thread, freeOk: bool, mallocOk: bool): (Slot, Result<nat, GrowError>) {
    match t
    case LoadBytes(need) => Ensured(slot, slot, need, freeOk, mallocOk)
    case LoadPtr(need) => if slot.ptr.Some? then (slot, Success(slot.ptr.value)) else Regrown(slot, need, freeOk, mallocOk)
    case Lock(need) => Regrown(slot, need, freeOk, mallocOk)
    case CheckBytes(need) => Regrown(slot, need, freeOk, mallocOk)
    case CheckPtr(need) => if slot.ptr.Some? then (slot, Success(slot.ptr.value)) else Replaced(slot, need, freeOk, mallocOk)
    case Swap(need) => Replaced(slot, need, freeOk, mallocOk)
    case Free(need, stale) =>
      if freeOk then Replaced(slot.(freed := slot.freed + [stale], ptr := None), need, freeOk, mallocOk)
      else (slot, Failure(FreeFailed))
    case Malloc(need) => Replaced(slot.(ptr := None), need, freeOk, mallocOk)
    case StorePtr(need, slab) => (slot.(ptr := Some(slab), bytes := need), Success(slab))
    case StoreBytes(need, slab) => (slot.(bytes := need), Success(slab))
    case Unlock(need, slab) => (slot, Success(slab))
    case Got(need, slab) => (slot, Success(slab))
    case Failed(e) => (slot, Failure(e))
    case Idle => (slot, Failure(AllocFailed))
  }

  /** Where a call ends. */
  ghost predicate EndsAs(s: State, t: nat, end: (Slot, Result<nat, GrowError>)) {
    && t < |s.threads| && s.owner == None && s.slot == end.0
    && match end.1
       case Success(slab) => s.threads[t].Got? && s.threads[t].slab == slab
       case Failure(e) => s.threads[t] == Failed(e)
  }

  lemma OutcomeStays(s: State, t: nat, freeOk: bool, mallocOk: bool)
    requires Solo(s, t) && !Resting(s.threads[t]) && (s.threads[t].Malloc? || s.threads[t].StorePtr? ==> s.slot.ptr.None?)
    requires s.threads[t].Free? ==> s.slot.ptr.None?
    ensures var act := Act(t, Answer(s.threads[t], freeOk, mallocOk));
            && Enabled(s, act) && var u := Do(s, act);
            && t < |u.threads| && Outcome(u.slot, u.threads[t], freeOk, mallocOk) == Outcome(s.slot, s.threads[t], freeOk, mallocOk)
            && (u.threads[t].Malloc? || u.threads[t].StorePtr? || u.threads[t].Free? ==> u.slot.ptr.None?)
  {
  }

  /** Finishing alone is a run, and it comes out as the method does. */
  lemma {:induction false} FinishRuns(s: State, t: nat, freeOk: bool, mallocOk: bool)
    requires Solo(s, t) && !s.threads[t].Idle?
    requires s.threads[t].Malloc? || s.threads[t].StorePtr? || s.threads[t].Free? ==> s.slot.ptr.None?
    ensures var steps := Finish(s, t, freeOk, mallocOk);
            && IsRun(s, steps) && EndsAs(Run(s, steps), t, Outcome(s.slot, s.threads[t], freeOk, mallocOk))
            && (freeOk && mallocOk ==> AllSucceed(steps)) && (forall k :: 0 <= k < |steps| ==> steps[k].Act?)
            && |Run(s, steps).threads| == |s.threads|
            && forall v :: 0 <= v < |s.threads| && v != t ==> Run(s, steps).threads[v] == s.threads[v]
    decreases Left(s.threads[t])
  {
    if !Resting(s.threads[t]) {
      var act := Act(t, Answer(s.threads[t], freeOk, mallocOk));
      SoloActs(s, t, act.ok);
      OutcomeStays(s, t, freeOk, mallocOk);
      var rest := Finish(Do(s, act), t, freeOk, mallocOk);
      assert ([act] + rest)[1..] == rest;
      assert !Do(s, act).threads[t].Idle?;
      hide Do, Enabled, Outcome, EndsAs, Solo, Resting;
      FinishRuns(Do(s, act), t, freeOk, mallocOk);
      hide Left, Answer;
    }
  }

  /** A whole call of thread `t`, nobody else moving. */
  ghost function Whole(s: State, t: nat, need: nat, freeOk: bool, mallocOk: bool): seq<Step>
    requires s.owner.None? && t < |s.threads| && Resting(s.threads[t]) && need > 0
  {
    [Call(t, need)] + Finish(Do(s, Call(t, need)), t, freeOk, mallocOk)
  }

  /** The method is what the transition system does when one thread runs alone. */
  lemma UninterruptedCall(s: State, t: nat, need: nat, freeOk: bool, mallocOk: bool)
    requires s.owner.None? && t < |s.threads| && Resting(s.threads[t]) && need > 0
    ensures var steps := Whole(s, t, need, freeOk, mallocOk);
            && IsRun(s, steps) && EndsAs(Run(s, steps), t, Ensured(s.slot, s.slot, need, freeOk, mallocOk))
            && (freeOk && mallocOk ==> AllSucceed(steps)) && NeedsUpTo(steps, need)
            && |Run(s, steps).threads| == |s.threads|
            && forall v :: 0 <= v < |s.threads| && v != t ==> Run(s, steps).threads[v] == s.threads[v]
  {
    var u := Do(s, Call(t, need));
    FinishRuns(u, t, freeOk, mallocOk);
    var steps := Whole(s, t, need, freeOk, mallocOk);
    assert steps[1..] == Finish(u, t, freeOk, mallocOk);
  }

  // ----- One thread, held up -----

  predicate OthersOnly(steps: seq<Step>, t: nat) {
    forall k :: 0 <= k < |steps| ==> steps[k].thread != t
  }

  lemma {:induction false} OthersMove(s: State, steps: seq<Step>, t: nat)
    requires IsRun(s, steps) && OthersOnly(steps, t) && t < |s.threads|
    ensures |Run(s, steps).threads| == |s.threads| && Run(s, steps).threads[t] == s.threads[t]
    decreases |steps|
  {
    if steps != [] {
      OtherMoves(s, steps[0], t);
      hide Do, Enabled;
      OthersMove(Do(s, steps[0]), steps[1..], t);
    }
  }

  lemma OtherMoves(s: State, step: Step, t: nat)
    requires Enabled(s, step) && step.thread != t && t < |s.threads|
    ensures |Do(s, step).threads| == |s.threads| && Do(s, step).threads[t] == s.threads[t]
  {
  }

  /** The first look of a call that finds too little: the size, and the pointer if the size would do. */
  function Look(slot: Slot, t: nat, need: nat): seq<Step> {
    if slot.bytes >= need then [Act(t, true)] + [Act(t, true)] else [Act(t, true)]
  }

  lemma LooksInVain(s: State, t: nat, need: nat)
    requires t < |s.threads| && s.threads[t] == LoadBytes(need) && !Serves(s.slot, need)
    ensures IsRun(s, Look(s.slot, t, need)) && Run(s, Look(s.slot, t, need)) == Put(s, t, Lock(need))
  {
    var act := Act(t, true);
    var u := Do(s, act);
    RunOfNone(s);
    assert [] + [act] == [act];
    Extend(s, [], act);
    if s.slot.bytes >= need {
      Extend(s, [act], act);
      assert Do(u, act).threads == s.threads[t := Lock(need)];
    }
  }

  /** A call whose first look finds too little, with any steps of other threads between that look and the
      lock: it ends as the method does that finds the slot the others left. */
  lemma InterruptedCall(s: State, t: nat, need: nat, others: seq<Step>, freeOk: bool, mallocOk: bool)
    requires t < |s.threads| && s.threads[t] == LoadBytes(need) && need > 0 && !Serves(s.slot, need)
    requires OthersOnly(others, t) && IsRun(Put(s, t, Lock(need)), others) && Run(Put(s, t, Lock(need)), others).owner.None?
    ensures var u := Run(Put(s, t, Lock(need)), others);
            && Solo(u, t)
            && var before := Look(s.slot, t, need) + others;
            && IsRun(s, before) && Run(s, before) == u
            && var steps := before + Finish(u, t, freeOk, mallocOk);
            && IsRun(s, steps) && EndsAs(Run(s, steps), t, Ensured(s.slot, u.slot, need, freeOk, mallocOk))
  {
    var locked := Put(s, t, Lock(need));
    var u := Run(locked, others);
    LooksInVain(s, t, need);
    OthersMove(locked, others, t);
    assert u.threads[t] == Lock(need) && Solo(u, t);
    hide IsRun, Run, EndsAs, Finish, Look, Put;
    RunConcat(s, Look(s.slot, t, need), others);
    FinishRuns(u, t, freeOk, mallocOk);
    RunConcat(s, Look(s.slot, t, need) + others, Finish(u, t, freeOk, mallocOk));
  }

  // ----- Reserved slabs -----

  /** A thread that will not replace the slab: it asks for no more than `most`, or is done. */
  predicate Modest(t: Thread, most: nat) {
    match t
    case LoadBytes(need) => need <= most
    case LoadPtr(need) => need <= most
    case Lock(need) => need <= most
    case CheckBytes(need) => need <= most
    case CheckPtr(need) => need <= most
    case Unlock(_, _) => true
    case _ => Resting(t)
  }

  ghost predicate Reserved(s: State, most: nat) {
    && s.slot.ptr.Some? && s.slot.bytes >= most
    && forall t :: 0 <= t < |s.threads| ==> Modest(s.threads[t], most)
  }

  lemma {:induction false} ReservedStays(s: State, steps: seq<Step>, most: nat)
    requires Reserved(s, most) && IsRun(s, steps) && NeedsUpTo(steps, most)
    ensures Run(s, steps).slot == s.slot
    decreases |steps|
  {
    if steps != [] {
      var u := Do(s, steps[0]);
      assert Modest(s.threads[steps[0].thread], most);
      assert u.slot == s.slot && Modest(u.threads[steps[0].thread], most);
      assert forall v :: 0 <= v < |s.threads| && v != steps[0].thread ==> u.threads[v] == s.threads[v];
      hide Do, Enabled, Modest;
      ReservedStays(u, steps[1..], most);
    }
  }

  /** After reserving `most` bytes no later call up to `most` ever frees or moves the slab, in any
      interleaving; and nothing less will do. */
  lemma ReservedIffSteady(s: State, most: nat)
    requires Quiet(s) && Sound(s.slot) && |s.threads| > 0 && most > 0
    ensures s.slot.ptr.Some? && s.slot.bytes >= most <==>
            forall steps :: IsRun(s, steps) && AllSucceed(steps) && NeedsUpTo(steps, most) ==> Run(s, steps).slot == s.slot
  {
    if s.slot.ptr.Some? && s.slot.bytes >= most {
      forall steps | IsRun(s, steps) && AllSucceed(steps) && NeedsUpTo(steps, most)
        ensures Run(s, steps).slot == s.slot
      {
        ReservedStays(s, steps, most);
      }
    } else {
      UninterruptedCall(s, 0, most, true, true);
      var steps := Whole(s, 0, most, true, true);
      EnsuredIsSound(s.slot, most);
      assert IsRun(s, steps) && AllSucceed(steps) && NeedsUpTo(steps, most) && Run(s, steps).slot != s.slot;
    }
  }

  // ----- A failed allocation -----

  /** A run of one thread's actions that all succeed. */
  function Acts(t: nat, n: nat): seq<Step> {
    seq(n, _ => Act(t, true))
  }

  ghost predicate Leads(s: State, step: Step, u: State) {
    Enabled(s, step) && Do(s, step) == u
  }

  lemma FourActs(t: nat, s0: State, s1: State, s2: State, s3: State, s4: State)
    requires Leads(s0, Act(t, true), s1) && Leads(s1, Act(t, true), s2)
    requires Leads(s2, Act(t, true), s3) && Leads(s3, Act(t, true), s4)
    ensures IsRun(s0, Acts(t, 4)) && Run(s0, Acts(t, 4)) == s4
  {
    hide Do, Enabled, IsRun, Run;
    var act := Act(t, true);
    assert [] + [act] == [act] && Acts(t, 4) == [act] + [act] + [act] + [act];
    RunOfNone(s0);
    Extend(s0, [], act);
    Extend(s0, [act], act);
    Extend(s0, [act] + [act], act);
    Extend(s0, [act] + [act] + [act], act);
  }

  /** Thread 0 asks for one byte, finds no slab and takes the lock. */
  lemma FindsNoSlab(s: State)
    requires s.owner.None? && |s.threads| > 1 && s.threads[0] == LoadBytes(1) && s.slot.ptr.None? && s.slot.bytes >= 1
    ensures IsRun(s, Acts(0, 4)) && Run(s, Acts(0, 4)) == Put(s, 0, CheckPtr(1)).(owner := Some(0))
  {
    FourActs(0, s, Put(s, 0, LoadPtr(1)), Put(s, 0, Lock(1)), Put(s, 0, CheckBytes(1)).(owner := Some(0)),
             Put(s, 0, CheckPtr(1)).(owner := Some(0)));
  }

  /** It stores a new slab of one byte, and not yet its size. */
  lemma StoresSlab(s: State)
    requires s.owner == Some(0) && |s.threads| > 1 && s.threads[0] == CheckPtr(1) && s.slot.ptr.None?
    ensures IsRun(s, Acts(0, 4))
    ensures Run(s, Acts(0, 4)) == Put(s, 0, StoreBytes(1, |s.slot.sizes|)).(slot := s.slot.(ptr := Some(|s.slot.sizes|), sizes := s.slot.sizes + [1]))
  {
    var n := |s.slot.sizes|;
    FourActs(0, s, Put(s, 0, Swap(1)), Put(s, 0, Malloc(1)),
             Put(s, 0, StorePtr(1, n)).(slot := s.slot.(sizes := s.slot.sizes + [1])),
             Put(s, 0, StoreBytes(1, n)).(slot := s.slot.(ptr := Some(n), sizes := s.slot.sizes + [1])));
  }

  lemma HalfGrown(s: State)
    requires s.owner.None? && |s.threads| > 1 && s.threads[0].Idle? && s.slot.ptr.None? && s.slot.bytes >= 1
    ensures var steps := [Call(0, 1)] + Acts(0, 4) + Acts(0, 4);
            && IsRun(s, steps)
            && Run(s, steps).slot == s.slot.(ptr := Some(|s.slot.sizes|), sizes := s.slot.sizes + [1])
            && |Run(s, steps).threads| == |s.threads| && Run(s, steps).threads[1] == s.threads[1]
  {
    RunOfNone(s);
    assert [] + [Call(0, 1)] == [Call(0, 1)];
    Extend(s, [], Call(0, 1));
    hide IsRun, Run, Acts;
    var s0 := Put(s, 0, LoadBytes(1));
    FindsNoSlab(s0);
    StoresSlab(Put(s0, 0, CheckPtr(1)).(owner := Some(0)));
    RunConcat(s, [Call(0, 1)], Acts(0, 4));
    RunConcat(s, [Call(0, 1)] + Acts(0, 4), Acts(0, 4));
  }

  lemma ReadsSize(s: State)
    requires Quiet(s) && |s.threads| > 1 && s.slot.bytes >= 2
    ensures IsRun(s, [Call(1, 2), Act(1, true)]) && Run(s, [Call(1, 2), Act(1, true)]) == Put(s, 1, LoadPtr(2))
  {
    RunOfNone(s);
    assert [] + [Call(1, 2)] == [Call(1, 2)] && [Call(1, 2)] + [Act(1, true)] == [Call(1, 2), Act(1, true)];
    Extend(s, [], Call(1, 2));
    Extend(s, [Call(1, 2)], Act(1, true));
    hide IsRun, Run;
  }

  lemma GetsSmallSlab(w: State, n: nat)
    requires |w.threads| > 1 && w.threads[1] == LoadPtr(2) && w.slot.ptr == Some(n) && n < |w.slot.sizes| && w.slot.sizes[n] == 1
    ensures Enabled(w, Act(1, true)) && !ReturnsFit(Do(w, Act(1, true)))
  {
    assert Do(w, Act(1, true)).threads[1] == Got(2, n);
  }

  /** Thread 1 asks for two bytes and reads the old size; then thread 0 asks for one byte and comes as
      far as storing its slab. */
  ghost function StaleRun(): seq<Step> {
    [Call(1, 2), Act(1, true)] + ([Call(0, 1)] + Acts(0, 4) + Acts(0, 4))
  }

  lemma StaleRunLeads(s: State)
    requires Quiet(s) && |s.threads| > 1 && s.slot.ptr.None? && s.slot.bytes >= 2
    ensures IsRun(s, StaleRun())
    ensures var w, n := Run(s, StaleRun()), |s.slot.sizes|;
            |w.threads| > 1 && w.threads[1] == LoadPtr(2) && w.slot.ptr == Some(n) && n < |w.slot.sizes| && w.slot.sizes[n] == 1
  {
    var u := Put(s, 1, LoadPtr(2));
    assert u.owner.None? && |u.threads| > 1 && u.threads[0].Idle? && u.threads[1] == LoadPtr(2) && u.slot == s.slot;
    hide IsRun, Run, Quiet, Acts;
    ReadsSize(s);
    hide Put;
    HalfGrown(u);
    RunConcat(s, [Call(1, 2), Act(1, true)], [Call(0, 1)] + Acts(0, 4) + Acts(0, 4));
  }

  lemma StaleRunSucceeds()
    ensures AllSucceed(StaleRun() + [Act(1, true)])
  {
    var first: seq<Step>, second: seq<Step> := [Call(1, 2), Act(1, true)], [Call(0, 1)] + Acts(0, 4) + Acts(0, 4);
    assert AllSucceed(first) && AllSucceed(second);
    assert StaleRun() == first + second;
  }

  /** Two threads and a slot that has lost its slab but still claims two bytes: the thread that read the
      old size returns the slab of one byte. */
  lemma StaleSizeMisleads(s: State)
    requires Quiet(s) && |s.threads| > 1 && s.slot.ptr.None? && s.slot.bytes >= 2
    ensures exists steps :: IsRun(s, steps) && AllSucceed(steps) && !ReturnsFit(Run(s, steps))
  {
    hide IsRun, Run, Do, Quiet, Enabled, ReturnsFit, StaleRun, AllSucceed;
    StaleRunLeads(s);
    StaleRunSucceeds();
    GetsSmallSlab(Run(s, StaleRun()), |s.slot.sizes|);
    Extend(s, StaleRun(), Act(1, true));
  }

  /** When is a slot safe for every later schedule? Exactly when it does not claim more than one byte
      without a slab, which is what a failed allocation or free leaves behind. */
  lemma SafeExactlyWhenSound(s: State)
    requires Quiet(s) && |s.threads| > 1 && Plausible(s.slot)
    ensures (s.slot.ptr.None? ==> s.slot.bytes <= 1) <==>
            forall steps :: IsRun(s, steps) && AllSucceed(steps) ==> ReturnsFit(Run(s, steps))
  {
    if s.slot.ptr.None? ==> s.slot.bytes <= 1 {
      forall steps | IsRun(s, steps) && AllSucceed(steps)
        ensures ReturnsFit(Run(s, steps))
      {
        ThreadsAreSafe(s, steps);
      }
    } else {
      StaleSizeMisleads(s);
    }
  }
}
