/** What a graph capture records on the side: kernel arguments with slot tags, the per-thread
    recorder, and the slot map built from it. */
module GraphCapture {
  import opened Wrappers

  datatype ScalarSlot = ScalarSlot(id: nat)
  datatype MemcpySlot = MemcpySlot(id: nat)

  datatype CopyKind = HostToDevice | DeviceToHost | DeviceToDevice
  datatype CopyParams = CopyParams(dst: nat, src: nat, count: nat, kind: CopyKind)

  datatype LaunchRecord = LaunchRecord(arity: nat, tagged: seq<(ScalarSlot, nat)>)
  datatype MemcpyRecord = MemcpyRecord(slot: Option<MemcpySlot>, params: CopyParams)
  datatype CaptureState = CaptureState(launches: seq<LaunchRecord>, memcpys: seq<MemcpyRecord>)

  // ----- Kernel arguments -----

  /** The argument pointers of one launch and the tags some of them carry. */
  datatype Args = Args(ptrs: seq<nat>, tagged: seq<(ScalarSlot, nat)>)

  /** Tags name existing arguments, each argument at most once. */
  predicate WellTagged(arity: nat, tagged: seq<(ScalarSlot, nat)>) {
    && (forall j :: 0 <= j < |tagged| ==> tagged[j].1 < arity)
    && (forall i, j :: 0 <= i < j < |tagged| ==> tagged[i].1 < tagged[j].1)
  }

  class KernelArgs {
    var ptrs: seq<nat>
    var tagged: seq<(ScalarSlot, nat)>

    ghost predicate Valid()
      reads this
    {
      WellTagged(|ptrs|, tagged)
    }

    ghost function Contents(): Args
      reads this
    {
      Args(ptrs, tagged)
    }

    constructor ()
      ensures Valid() && Contents() == Args([], [])
    {
      ptrs, tagged := [], [];
    }

    method Push(v: nat)
      requires Valid()
      modifies this
      ensures Valid() && Contents() == Args(old(ptrs) + [v], old(tagged))
    {
      ptrs := ptrs + [v];
    }

    method PushSlot(v: nat, slot: ScalarSlot)
      requires Valid()
      modifies this
      ensures Valid() && Contents() == Args(old(ptrs) + [v], old(tagged) + [(slot, |old(ptrs)|)])
    {
      var argIndex := |ptrs|;
      Push(v);
      tagged := tagged + [(slot, argIndex)];
    }

    /** Overwrites one pointer; a tag on that argument stays. */
    method Set(idx: nat, v: nat)
      requires Valid() && idx < |ptrs|
      modifies this
      ensures Valid() && Contents() == Args(old(ptrs)[idx := v], old(tagged))
    {
      ptrs := ptrs[idx := v];
    }
  }

  // ----- The recorder -----

  /** The thread-local capture state: `None` outside a capture. */
  class Recorder {
    var state: Option<CaptureState>

    constructor ()
      ensures state == None
    {
      state := None;
    }

    /** Starting a capture inside a capture is a bug in the caller, and panics. */
    method Begin()
      requires state.None?
      modifies this
      ensures state == Some(CaptureState([], []))
    {
      state := Some(CaptureState([], []));
    }

    method RecordLaunch(arity: nat, tagged: seq<(ScalarSlot, nat)>)
      modifies this
      ensures old(state).None? ==> state == None
      ensures old(state).Some? ==>
                state == Some(old(state).value.(launches := old(state).value.launches + [LaunchRecord(arity, tagged)]))
    {
      if state.Some? {
        state := Some(state.value.(launches := state.value.launches + [LaunchRecord(arity, tagged)]));
      }
    }

    method RecordMemcpy(slot: Option<MemcpySlot>, params: CopyParams)
      modifies this
      ensures old(state).None? ==> state == None
      ensures old(state).Some? ==>
                state == Some(old(state).value.(memcpys := old(state).value.memcpys + [MemcpyRecord(slot, params)]))
    {
      if state.Some? {
        state := Some(state.value.(memcpys := state.value.memcpys + [MemcpyRecord(slot, params)]));
      }
    }

    method End() returns (taken: CaptureState)
      requires state.Some?
      modifies this
      ensures taken == old(state).value && state == None
    {
      taken := state.value;
      state := None;
    }
  }

  // ----- The slot map -----

  datatype SlotBinding = SlotBinding(node: nat, arg: nat, arity: nat)
  datatype MemcpyBinding = MemcpyBinding(node: nat, params: CopyParams)
  datatype SlotMap = SlotMap(entries: map<ScalarSlot, SlotBinding>, memcpyEntries: map<MemcpySlot, MemcpyBinding>)

  datatype SlotMapError =
    | LaunchCountMismatch(recorded: nat, nodes: nat)
    | MemcpyCountMismatch(recorded: nat, nodes: nat)
    | ScalarSlotReused(slot: ScalarSlot)
    | MemcpySlotReused(memcpySlot: MemcpySlot)

  /** Tag `j` of launch `n` exists and comes before the position (`launch`, `tag`). */
  predicate TagBefore(launches: seq<LaunchRecord>, n: int, j: int, launch: nat, tag: nat) {
    0 <= n < |launches| && 0 <= j < |launches[n].tagged| && (n < launch || (n == launch && j < tag))
  }

  /** No scalar slot is tagged twice before the position (`launch`, `tag`). */
  ghost predicate TaggedOnceBefore(launches: seq<LaunchRecord>, launch: nat, tag: nat) {
    forall n, j, n', j' | TagBefore(launches, n, j, launch, tag) && TagBefore(launches, n', j', launch, tag) ::
      launches[n].tagged[j].0 == launches[n'].tagged[j'].0 ==> n == n' && j == j'
  }

  ghost predicate TaggedOnce(launches: seq<LaunchRecord>) {
    TaggedOnceBefore(launches, |launches|, 0)
  }

  /** The entries are exactly the tags before the position (`launch`, `tag`). */
  ghost predicate HoldsTagsBefore(entries: map<ScalarSlot, SlotBinding>, launches: seq<LaunchRecord>, launch: nat, tag: nat) {
    && (forall n, j | TagBefore(launches, n, j, launch, tag) ::
          var (s, k) := launches[n].tagged[j];
          s in entries && entries[s] == SlotBinding(n, k, launches[n].arity))
    && (forall s | s in entries ::
          exists n, j :: TagBefore(launches, n, j, launch, tag) && launches[n].tagged[j].0 == s)
  }

  ghost predicate CopiedOnceBefore(memcpys: seq<MemcpyRecord>, end: nat)
    requires end <= |memcpys|
  {
    forall i, j | 0 <= i < j < end :: memcpys[i].slot.Some? ==> memcpys[i].slot != memcpys[j].slot
  }

  ghost predicate HoldsCopiesBefore(entries: map<MemcpySlot, MemcpyBinding>, memcpys: seq<MemcpyRecord>, end: nat)
    requires end <= |memcpys|
  {
    && (forall i | 0 <= i < end && memcpys[i].slot.Some? ::
          memcpys[i].slot.value in entries && entries[memcpys[i].slot.value] == MemcpyBinding(i, memcpys[i].params))
    && (forall s | s in entries :: exists i :: 0 <= i < end && memcpys[i].slot == Some(s))
  }

  /** The map holds exactly the recorded tags, under their launch and copy ordinals. */
  ghost predicate HoldsExactly(m: SlotMap, launches: seq<LaunchRecord>, memcpys: seq<MemcpyRecord>) {
    && HoldsTagsBefore(m.entries, launches, |launches|, 0)
    && HoldsCopiesBefore(m.memcpyEntries, memcpys, |memcpys|)
  }

  /** `SlotMap::from_recorder`: succeeds exactly when both counts match and no slot is tagged
      twice, and then holds exactly the recorded tags. */
  method FromRecorder(launches: seq<LaunchRecord>, kernelNodeCount: nat, memcpys: seq<MemcpyRecord>, memcpyNodeCount: nat)
    returns (r: Result<SlotMap, SlotMapError>)
    ensures r.Success? <==>
            && |launches| == kernelNodeCount && |memcpys| == memcpyNodeCount
            && TaggedOnce(launches) && CopiedOnceBefore(memcpys, |memcpys|)
    ensures r.Success? ==> HoldsExactly(r.value, launches, memcpys)
    ensures |launches| != kernelNodeCount ==> r == Failure(LaunchCountMismatch(|launches|, kernelNodeCount))
    ensures |launches| == kernelNodeCount && |memcpys| != memcpyNodeCount ==>
              r == Failure(MemcpyCountMismatch(|memcpys|, memcpyNodeCount))
    ensures |launches| == kernelNodeCount && |memcpys| == memcpyNodeCount && !TaggedOnce(launches) ==>
              r.Failure? && r.error.ScalarSlotReused?
  {
    if |launches| != kernelNodeCount {
      return Failure(LaunchCountMismatch(|launches|, kernelNodeCount));
    }
    if |memcpys| != memcpyNodeCount {
      return Failure(MemcpyCountMismatch(|memcpys|, memcpyNodeCount));
    }
    var entries: map<ScalarSlot, SlotBinding> := map[];
    for node := 0 to |launches|
      invariant HoldsTagsBefore(entries, launches, node, 0)
      invariant TaggedOnceBefore(launches, node, 0)
    {
      for tag := 0 to |launches[node].tagged|
        invariant HoldsTagsBefore(entries, launches, node, tag)
        invariant TaggedOnceBefore(launches, node, tag)
      {
        var (slot, arg) := launches[node].tagged[tag];
        if slot in entries {
          assert !TaggedOnce(launches) by {
            var n, j :| TagBefore(launches, n, j, node, tag) && launches[n].tagged[j].0 == slot;
            assert TagBefore(launches, n, j, |launches|, 0) && TagBefore(launches, node, tag, |launches|, 0);
          }
          return Failure(ScalarSlotReused(slot));
        }
        NextTag(entries, launches, node, tag);
        entries := entries[slot := SlotBinding(node, arg, launches[node].arity)];
      }
      NextLaunch(entries, launches, node);
    }
    var memcpyEntries: map<MemcpySlot, MemcpyBinding> := map[];
    for node := 0 to |memcpys|
      invariant HoldsCopiesBefore(memcpyEntries, memcpys, node)
      invariant CopiedOnceBefore(memcpys, node)
    {
      if memcpys[node].slot.Some? {
        var slot := memcpys[node].slot.value;
        if slot in memcpyEntries {
          return Failure(MemcpySlotReused(slot));
        }
        memcpyEntries := memcpyEntries[slot := MemcpyBinding(node, memcpys[node].params)];
      }
    }
    return Success(SlotMap(entries, memcpyEntries));
  }

  lemma TagBeforeNext(launches: seq<LaunchRecord>, node: nat, tag: nat, n: int, j: int)
    requires node < |launches| && tag < |launches[node].tagged|
    ensures TagBefore(launches, n, j, node, tag + 1) <==> TagBefore(launches, n, j, node, tag) || (n == node && j == tag)
  {
  }

  lemma NextTag(entries: map<ScalarSlot, SlotBinding>, launches: seq<LaunchRecord>, node: nat, tag: nat)
    requires node < |launches| && tag < |launches[node].tagged|
    requires HoldsTagsBefore(entries, launches, node, tag) && TaggedOnceBefore(launches, node, tag)
    requires launches[node].tagged[tag].0 !in entries
    ensures var (slot, arg) := launches[node].tagged[tag];
            && HoldsTagsBefore(entries[slot := SlotBinding(node, arg, launches[node].arity)], launches, node, tag + 1)
            && TaggedOnceBefore(launches, node, tag + 1)
  {
    NextTagHeld(entries, launches, node, tag);
    NextTagOnce(entries, launches, node, tag);
  }

  lemma NextTagOnce(entries: map<ScalarSlot, SlotBinding>, launches: seq<LaunchRecord>, node: nat, tag: nat)
    requires node < |launches| && tag < |launches[node].tagged|
    requires HoldsTagsBefore(entries, launches, node, tag) && TaggedOnceBefore(launches, node, tag)
    requires launches[node].tagged[tag].0 !in entries
    ensures TaggedOnceBefore(launches, node, tag + 1)
  {
    forall n, j, n', j' | TagBefore(launches, n, j, node, tag + 1) && TagBefore(launches, n', j', node, tag + 1)
      ensures launches[n].tagged[j].0 == launches[n'].tagged[j'].0 ==> n == n' && j == j'
    {
      TagBeforeNext(launches, node, tag, n, j);
      TagBeforeNext(launches, node, tag, n', j');
    }
  }

  lemma NextTagHeld(entries: map<ScalarSlot, SlotBinding>, launches: seq<LaunchRecord>, node: nat, tag: nat)
    requires node < |launches| && tag < |launches[node].tagged|
    requires HoldsTagsBefore(entries, launches, node, tag) && launches[node].tagged[tag].0 !in entries
    ensures var (slot, arg) := launches[node].tagged[tag];
            HoldsTagsBefore(entries[slot := SlotBinding(node, arg, launches[node].arity)], launches, node, tag + 1)
  {
    var (slot, arg) := launches[node].tagged[tag];
    var grown := entries[slot := SlotBinding(node, arg, launches[node].arity)];
    forall n, j | TagBefore(launches, n, j, node, tag + 1)
      ensures var (s, k) := launches[n].tagged[j]; s in grown && grown[s] == SlotBinding(n, k, launches[n].arity)
    {
      TagBeforeNext(launches, node, tag, n, j);
    }
    forall s | s in grown
      ensures exists n, j :: TagBefore(launches, n, j, node, tag + 1) && launches[n].tagged[j].0 == s
    {
      if s == slot {
        assert TagBefore(launches, node, tag, node, tag + 1);
      } else {
        var n, j :| TagBefore(launches, n, j, node, tag) && launches[n].tagged[j].0 == s;
        TagBeforeNext(launches, node, tag, n, j);
      }
    }
  }

  lemma NextLaunch(entries: map<ScalarSlot, SlotBinding>, launches: seq<LaunchRecord>, node: nat)
    requires node < |launches|
    requires HoldsTagsBefore(entries, launches, node, |launches[node].tagged|)
    requires TaggedOnceBefore(launches, node, |launches[node].tagged|)
    ensures HoldsTagsBefore(entries, launches, node + 1, 0) && TaggedOnceBefore(launches, node + 1, 0)
  {
    forall n, j
      ensures TagBefore(launches, n, j, node + 1, 0) <==> TagBefore(launches, n, j, node, |launches[node].tagged|)
    {
    }
    forall s | s in entries
      ensures exists n, j :: TagBefore(launches, n, j, node + 1, 0) && launches[n].tagged[j].0 == s
    {
      var n, j :| TagBefore(launches, n, j, node, |launches[node].tagged|) && launches[n].tagged[j].0 == s;
      assert TagBefore(launches, n, j, node + 1, 0);
    }
  }
}
