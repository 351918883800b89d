/** What the peer copies leave in device memory, said of the calls and of the run alone. */
module PeerCopyMemory {
  import opened PeerCopy
  import opened PeerCopyInvariant
  import opened PeerCopyDevice
  import opened PeerCopyTheorems

  // ----- Who may write a position -----

  predicate Covers(k: Call, rank: nat, pos: nat) {
    k.dst == rank && k.dstAt <= pos < k.dstAt + k.bytes
  }

  /** The step, or work it starts, is meant to write position `pos` of rank `rank`. */
  predicate Writes(step: Step, rank: nat, pos: nat) {
    match step
    case Begin(k) => Covers(k, rank, pos)
    case Within(k) => Covers(k, rank, pos)
    case Disturb(r, p, _) => r == rank && p == pos
    case _ => false
  }

  /** No step is meant to write the position. */
  predicate LeftAlone(steps: seq<Step>, rank: nat, pos: nat) {
    forall j :: 0 <= j < |steps| ==> !Writes(steps[j], rank, pos)
  }

  predicate OpWrites(op: Op, rank: nat, pos: nat) {
    op.DtoD? && op.rank == rank && op.to <= pos < op.to + op.bytes
  }

  /** No call but perhaps `call`, and no entry but perhaps `entry`, covers the position. */
  ghost predicate Clear(s: State, rank: nat, pos: nat, call: int, entry: int) {
    && (forall d :: 0 <= d < |s.calls| && d != call ==> !Covers(s.calls[d], rank, pos))
    && (forall i :: 0 <= i < |s.log| && i != entry ==> !OpWrites(s.log[i].op, rank, pos))
  }

  lemma AdvancePushes(s: State, r: nat)
    requires InProgress(s, r)
    ensures var t := Advance(s, r);
            && t.calls == s.calls && t.dev == s.dev && t.taken == s.taken && t.wrote == s.wrote
            && (t.log == s.log || (|t.log| == |s.log| + 1 && t.log[..|s.log|] == s.log && !t.log[|s.log|].op.DtoD?))
  {
  }

  lemma StepStaysClear(s: State, step: Step, rank: nat, pos: nat, call: int, entry: int)
    requires Enabled(s, step) && Clear(s, rank, pos, call, entry) && !Writes(step, rank, pos)
    ensures Clear(Do(s, step), rank, pos, call, entry)
  {
    if step.HostStep? {
      AdvancePushes(s, step.rank);
      var t := Advance(s, step.rank);
      hide Advance;
      assert forall i :: 0 <= i < |s.log| ==> t.log[i] == t.log[..|s.log|][i];
    }
  }

  lemma {:induction false} RunStaysClear(s: State, steps: seq<Step>, rank: nat, pos: nat)
    requires IsRun(s, steps) && Clear(s, rank, pos, -1, -1) && LeftAlone(steps, rank, pos)
    ensures Clear(Run(s, steps), rank, pos, -1, -1)
    decreases |steps|
  {
    if steps != [] {
      StepStaysClear(s, steps[0], rank, pos, -1, -1);
      hide Clear, Do, Enabled;
      RunStaysClear(Do(s, steps[0]), steps[1..], rank, pos);
    }
  }

  /** The step is a unit of the exempt call's HtoD, or of the exempt entry. */
  predicate IsUnitOf(s: State, step: Step, call: int, entry: int) {
    step.Device? && step.entry < |s.log| && (step.entry == entry || (s.log[step.entry].op.HtoD? && s.log[step.entry].op.call == call))
  }

  predicate SameSizes(a: seq<seq<int>>, b: seq<seq<int>>) {
    |a| == |b| && forall r :: 0 <= r < |a| ==> |a[r]| == |b[r]|
  }

  lemma StepSizes(s: State, step: Step)
    ensures SameSizes(s.dev, Do(s, step).dev)
  {
    if step.HostStep? && InProgress(s, step.rank) {
      AdvancePushes(s, step.rank);
      hide Advance;
    }
  }

  lemma {:induction false} RunSizes(s: State, steps: seq<Step>)
    ensures SameSizes(s.dev, Run(s, steps).dev)
    decreases |steps|
  {
    if steps != [] {
      StepSizes(s, steps[0]);
      hide Do;
      RunSizes(Do(s, steps[0]), steps[1..]);
    }
  }

  /** A position nobody else covers changes only by a unit of the exempt work. */
  lemma StepLeaves(s: State, step: Step, rank: nat, pos: nat, call: int, entry: int)
    requires Orderly(s) && Enabled(s, step) && Clear(s, rank, pos, call, entry) && !Writes(step, rank, pos)
    requires rank < |s.dev| && pos < |s.dev[rank]|
    ensures SameSizes(s.dev, Do(s, step).dev)
    ensures !IsUnitOf(s, step, call, entry) ==> Do(s, step).dev[rank][pos] == s.dev[rank][pos]
  {
    if step.HostStep? {
      AdvancePushes(s, step.rank);
      hide Advance;
    } else if step.Device? {
      assert LoggedAt(s, step.entry);
      ExecuteRuns(s, step.entry);
      hide Placed, Logged, Causal, Locked;
    }
  }

  // ----- The bytes of a cross-rank copy -----

  /** Byte `q` of call `c`, once delivered, is where it belongs. */
  ghost predicate Arrived(s: State, c: nat, q: nat) {
    && c < |s.calls| && c < |s.wrote|
    && var k := s.calls[c];
       && k.dst < |s.dev| && k.dstAt + q < |s.dev[k.dst]|
       && (q < |s.wrote[c]| ==> s.dev[k.dst][k.dstAt + q] == s.wrote[c][q])
  }

  lemma UnitArrives(s: State, i: nat, c: nat, q: nat)
    requires Inv(s) && Executable(s, i) && s.log[i].op == HtoD(c) && Arrived(s, c, q) && q < s.calls[c].bytes
    ensures Arrived(Execute(s, i), c, q) && Execute(s, i).calls == s.calls
  {
    assert LoggedAt(s, i) && Faithful(s, c);
    hide Inv, Orderly, Faithful, Executable;
  }

  lemma OtherUnitKeeps(s: State, i: nat, c: nat)
    requires Executable(s, i) && s.log[i].op != HtoD(c) && c < |s.wrote|
    ensures var t := Execute(s, i); t.calls == s.calls && |t.wrote| == |s.wrote| && t.wrote[c] == s.wrote[c]
  {
  }

  lemma StepArrives(s: State, step: Step, c: nat, q: nat)
    requires Inv(s) && Enabled(s, step) && Arrived(s, c, q) && q < s.calls[c].bytes
    requires var k := s.calls[c]; Clear(s, k.dst, k.dstAt + q, c, -1) && !Writes(step, k.dst, k.dstAt + q)
    ensures Arrived(Do(s, step), c, q) && Do(s, step).calls[c] == s.calls[c]
  {
    var k, t := s.calls[c], Do(s, step);
    StepLeaves(s, step, k.dst, k.dstAt + q, c, -1);
    if step.HostStep? {
      AdvancePushes(s, step.rank);
      hide Advance, Inv;
    } else if step.Device? {
      if s.log[step.entry].op == HtoD(c) {
        UnitArrives(s, step.entry, c, q);
      } else {
        OtherUnitKeeps(s, step.entry, c);
      }
      hide Inv, Execute, Executable;
    }
  }

  /** What a call took of its source's byte `q`, while nothing else writes there. */
  ghost predicate Took(s: State, c: nat, q: nat, byte: int) {
    && c < |s.calls| && c < |s.taken|
    && var k := s.calls[c];
       && k.src < |s.dev| && k.srcAt + q < |s.dev[k.src]| && s.dev[k.src][k.srcAt + q] == byte
       && (q < |s.taken[c]| ==> s.taken[c][q] == byte)
  }

  lemma UnitTakes(s: State, i: nat, c: nat, q: nat, byte: int)
    requires Inv(s) && Executable(s, i) && s.log[i].op == DtoH(c) && Took(s, c, q, byte) && q < s.calls[c].bytes
    ensures Took(Execute(s, i), c, q, byte) && Execute(s, i).calls == s.calls
  {
    assert LoggedAt(s, i) && Faithful(s, c);
    hide Inv, Orderly, Faithful, Executable;
  }

  lemma OtherUnitSpares(s: State, i: nat, c: nat)
    requires Executable(s, i) && s.log[i].op != DtoH(c) && c < |s.taken|
    ensures var t := Execute(s, i); t.calls == s.calls && |t.taken| == |s.taken| && t.taken[c] == s.taken[c]
  {
  }

  lemma StepTakes(s: State, step: Step, c: nat, q: nat, byte: int)
    requires Inv(s) && Enabled(s, step) && Took(s, c, q, byte) && q < s.calls[c].bytes
    requires var k := s.calls[c]; Clear(s, k.src, k.srcAt + q, -1, -1) && !Writes(step, k.src, k.srcAt + q)
    ensures Took(Do(s, step), c, q, byte) && Do(s, step).calls[c] == s.calls[c]
  {
    var k, t := s.calls[c], Do(s, step);
    StepLeaves(s, step, k.src, k.srcAt + q, -1, -1);
    if step.HostStep? {
      AdvancePushes(s, step.rank);
      hide Advance, Inv;
    } else if step.Device? {
      if s.log[step.entry].op == DtoH(c) {
        UnitTakes(s, step.entry, c, q, byte);
      } else {
        OtherUnitSpares(s, step.entry, c);
      }
      hide Inv, Execute, Executable;
    }
  }

  lemma {:induction false} RunArrives(s: State, steps: seq<Step>, c: nat, q: nat)
    requires Inv(s) && IsCarefulRun(s, steps) && Arrived(s, c, q) && q < s.calls[c].bytes
    requires var k := s.calls[c]; Clear(s, k.dst, k.dstAt + q, c, -1) && LeftAlone(steps, k.dst, k.dstAt + q)
    ensures Arrived(Run(s, steps), c, q) && Run(s, steps).calls[c] == s.calls[c]
    decreases |steps|
  {
    if steps != [] {
      var k := s.calls[c];
      StepKeepsInv(s, steps[0]);
      StepArrives(s, steps[0], c, q);
      StepStaysClear(s, steps[0], k.dst, k.dstAt + q, c, -1);
      hide Inv, Do, Enabled, Careful, Clear, Writes;
      assert forall j :: 0 <= j < |steps| - 1 ==> steps[1..][j] == steps[j + 1];
      RunArrives(Do(s, steps[0]), steps[1..], c, q);
    }
  }

  lemma {:induction false} RunTakes(s: State, steps: seq<Step>, c: nat, q: nat, byte: int)
    requires Inv(s) && IsCarefulRun(s, steps) && Took(s, c, q, byte) && q < s.calls[c].bytes
    requires var k := s.calls[c]; Clear(s, k.src, k.srcAt + q, -1, -1) && LeftAlone(steps, k.src, k.srcAt + q)
    ensures Took(Run(s, steps), c, q, byte) && Run(s, steps).calls[c] == s.calls[c]
    decreases |steps|
  {
    if steps != [] {
      var k := s.calls[c];
      StepKeepsInv(s, steps[0]);
      StepTakes(s, steps[0], c, q, byte);
      StepStaysClear(s, steps[0], k.src, k.srcAt + q, -1, -1);
      hide Inv, Do, Enabled, Careful, Clear, Writes;
      assert forall j :: 0 <= j < |steps| - 1 ==> steps[1..][j] == steps[j + 1];
      RunTakes(Do(s, steps[0]), steps[1..], c, q, byte);
    }
  }

  /** A position no step is meant to write keeps its byte. */
  lemma {:induction false} RunLeaves(s: State, steps: seq<Step>, rank: nat, pos: nat)
    requires Orderly(s) && StoredNoted(s) && IsRun(s, steps) && Clear(s, rank, pos, -1, -1) && LeftAlone(steps, rank, pos)
    requires rank < |s.dev| && pos < |s.dev[rank]|
    ensures SameSizes(s.dev, Run(s, steps).dev) && Run(s, steps).dev[rank][pos] == s.dev[rank][pos]
    decreases |steps|
  {
    if steps != [] {
      StepKeepsOrder(s, steps[0]);
      StepLeaves(s, steps[0], rank, pos, -1, -1);
      StepStaysClear(s, steps[0], rank, pos, -1, -1);
      hide Orderly, StoredNoted, Do, Enabled, Clear, Writes, IsUnitOf;
      assert forall j :: 0 <= j < |steps| - 1 ==> steps[1..][j] == steps[j + 1];
      RunLeaves(Do(s, steps[0]), steps[1..], rank, pos);
    }
  }

  /** A call in flight keeps its number. */
  lemma BeginAppends(s: State, k: Call)
    requires Sizes(s) && CanBegin(s, k)
    ensures var t, c := Do(s, Begin(k)), |s.calls|;
            && t.calls == s.calls + [k] && t.log == s.log && t.dev == s.dev
            && t.wrote == s.wrote + [[]] && t.taken == s.taken + [[]]
  {
  }

  lemma BeginsClear(s: State, k: Call, q: nat)
    requires Sizes(s) && CanBegin(s, k) && q < k.bytes && Clear(s, k.dst, k.dstAt + q, -1, -1)
    ensures var t, c := Do(s, Begin(k)), |s.calls|; Clear(t, k.dst, k.dstAt + q, c, -1) && Arrived(t, c, q)
  {
    BeginAppends(s, k);
    hide Do;
  }

  lemma BeginsTaking(s: State, k: Call, q: nat)
    requires Sizes(s) && CanBegin(s, k) && q < k.bytes && Clear(s, k.src, k.srcAt + q, -1, -1)
    ensures var t, c := Do(s, Begin(k)), |s.calls|;
            Clear(t, k.src, k.srcAt + q, -1, -1) && Took(t, c, q, s.dev[k.src][k.srcAt + q])
  {
    BeginAppends(s, k);
    hide Do;
  }

  // ----- A run around one step -----

  lemma CarefulRunAround(s0: State, before: seq<Step>, step: Step, rest: seq<Step>)
    requires Initial(s0) && IsCarefulRun(s0, before + [step] + rest)
    ensures var s := Run(s0, before); var t := Do(s, step);
            && IsCarefulRun(s0, before) && Inv(s) && Enabled(s, step)
            && Inv(t) && IsCarefulRun(t, rest) && Run(t, rest) == Run(s0, before + [step] + rest)
  {
    InitialInv(s0);
    hide Inv, Initial, Do, Enabled, Careful;
    RunConcat(s0, before + [step], rest);
    RunConcat(s0, before, [step]);
    RunKeepsInv(s0, before);
    var s := Run(s0, before);
    RunOfOne(s, step);
    StepKeepsInv(s, step);
  }

  lemma RunAround(s0: State, before: seq<Step>, step: Step, rest: seq<Step>)
    requires Initial(s0) && IsRun(s0, before + [step] + rest)
    ensures var s := Run(s0, before); var t := Do(s, step);
            && IsRun(s0, before) && Orderly(s) && Enabled(s, step)
            && Orderly(t) && StoredNoted(t) && IsRun(t, rest) && Run(t, rest) == Run(s0, before + [step] + rest)
  {
    InitialClear(s0, 0, 0);
    hide Initial, Do, Enabled, Careful, Orderly, StoredNoted;
    RunConcat(s0, before + [step], rest);
    RunConcat(s0, before, [step]);
    RunKeepsOrder(s0, before);
    var s := Run(s0, before);
    RunOfOne(s, step);
    StepKeepsOrder(s, step);
  }

  lemma {:induction false} CarefulIsRun(s: State, steps: seq<Step>)
    requires IsCarefulRun(s, steps)
    ensures IsRun(s, steps)
    decreases |steps|
  {
    if steps != [] {
      hide Do, Enabled, Careful;
      CarefulIsRun(Do(s, steps[0]), steps[1..]);
    }
  }

  lemma OrderlySizes(s: State)
    requires Orderly(s)
    ensures Sizes(s)
  {
  }

  lemma InitialClear(s0: State, rank: nat, pos: nat)
    requires Initial(s0)
    ensures Clear(s0, rank, pos, -1, -1) && Orderly(s0) && StoredNoted(s0)
  {
    InitialInv(s0);
    DisciplinedIsNoted(s0);
  }

  /** A position that the run leaves alone is clear of everything, and holds the byte it held. */
  lemma StillThere(s0: State, before: seq<Step>, rank: nat, pos: nat)
    requires Initial(s0) && IsRun(s0, before) && LeftAlone(before, rank, pos)
    requires rank < |Run(s0, before).dev| && pos < |Run(s0, before).dev[rank]|
    ensures Clear(Run(s0, before), rank, pos, -1, -1)
    ensures rank < |s0.dev| && pos < |s0.dev[rank]| && Run(s0, before).dev[rank][pos] == s0.dev[rank][pos]
  {
    hide Initial, LeftAlone, Clear, Orderly, StoredNoted, IsRun, Run;
    InitialClear(s0, rank, pos);
    RunSizes(s0, before);
    RunLeaves(s0, before, rank, pos);
    RunStaysClear(s0, before, rank, pos);
  }

  /** The call that begins after these steps. */
  function NextCall(s0: State, before: seq<Step>): nat {
    |Run(s0, before).calls|
  }

  lemma CallIsThere(s0: State, before: seq<Step>, k: Call, rest: seq<Step>)
    requires Initial(s0) && IsCarefulRun(s0, before + [Begin(k)] + rest)
    ensures var s, c := Run(s0, before + [Begin(k)] + rest), NextCall(s0, before);
            Sizes(s) && c < |s.calls| && s.calls[c] == k && k.bytes > 0
  {
    hide IsCarefulRun, Run, Do, Initial;
    CarefulRunAround(s0, before, Begin(k), rest);
    var s := Run(s0, before);
    var t := Do(s, Begin(k));
    assert CanBegin(s, k);
    BeginAppends(s, k);
    DisciplinedIsNoted(t);
    CarefulIsRun(t, rest);
    hide Orderly, Disciplined, Faithful, CanBegin;
    RunKeepsOrder(t, rest);
    OrderlySizes(Run(t, rest));
  }

  // ----- What a landed copy leaves in memory -----

  /** A landed copy's byte is in the destination's memory, where the call put it, when nothing else in the
      run writes that position. */
  lemma ByteArrives(s0: State, before: seq<Step>, k: Call, rest: seq<Step>, q: nat)
    requires Initial(s0) && IsCarefulRun(s0, before + [Begin(k)] + rest) && q < k.bytes
    requires LeftAlone(before, k.dst, k.dstAt + q) && LeftAlone(rest, k.dst, k.dstAt + q)
    ensures var s, c := Run(s0, before + [Begin(k)] + rest), NextCall(s0, before);
            && Sizes(s) && c < |s.calls| && s.calls[c] == k
            && (HasLanded(s, c) ==>
                  && k.dst < |s.dev| && k.dstAt + q < |s.dev[k.dst]| && |s.taken[c]| == k.bytes
                  && s.dev[k.dst][k.dstAt + q] == s.taken[c][q])
  {
    hide Do, Clear, LeftAlone, IsCarefulRun, IsRun, Run, Inv, Initial;
    CallIsThere(s0, before, k, rest);
    CarefulRunAround(s0, before, Begin(k), rest);
    CarefulIsRun(s0, before);
    InitialClear(s0, k.dst, k.dstAt + q);
    RunStaysClear(s0, before, k.dst, k.dstAt + q);
    InvSizes(Run(s0, before));
    BeginsClear(Run(s0, before), k, q);
    BeginAppends(Run(s0, before), k);
    RunArrives(Do(Run(s0, before), Begin(k)), rest, NextCall(s0, before), q);
    LandedCopiesAreFaithful(s0, before + [Begin(k)] + rest, NextCall(s0, before));
  }

  lemma InvSizes(s: State)
    requires Inv(s)
    ensures Sizes(s)
  {
  }

  /** And it is the source's byte from before the run, when nothing writes that either. */
  lemma ByteTaken(s0: State, before: seq<Step>, k: Call, rest: seq<Step>, q: nat)
    requires Initial(s0) && IsCarefulRun(s0, before + [Begin(k)] + rest) && q < k.bytes
    requires LeftAlone(before, k.src, k.srcAt + q) && LeftAlone(rest, k.src, k.srcAt + q)
    ensures var s, c := Run(s0, before + [Begin(k)] + rest), NextCall(s0, before);
            && Sizes(s) && c < |s.calls| && s.calls[c] == k && k.src < |s0.dev| && k.srcAt + q < |s0.dev[k.src]|
            && (HasLanded(s, c) ==> |s.taken[c]| == k.bytes && s.taken[c][q] == s0.dev[k.src][k.srcAt + q])
  {
    hide Do, Clear, LeftAlone, IsCarefulRun, IsRun, Run, Inv, Initial;
    CallIsThere(s0, before, k, rest);
    CarefulRunAround(s0, before, Begin(k), rest);
    CarefulIsRun(s0, before);
    InvSizes(Run(s0, before));
    StillThere(s0, before, k.src, k.srcAt + q);
    BeginsTaking(Run(s0, before), k, q);
    BeginAppends(Run(s0, before), k);
    RunTakes(Do(Run(s0, before), Begin(k)), rest, NextCall(s0, before), q, s0.dev[k.src][k.srcAt + q]);
    LandedCopiesAreFaithful(s0, before + [Begin(k)] + rest, NextCall(s0, before));
  }

  predicate ByteIs(x: seq<int>, at: nat, y: seq<int>, q: nat) {
    at + q < |x| && q < |y| && x[at + q] == y[q]
  }

  lemma SliceIs(x: seq<int>, at: nat, y: seq<int>)
    requires y != [] && forall q :: 0 <= q < |y| ==> ByteIs(x, at, y, q)
    ensures at + |y| <= |x| && x[at..at + |y|] == y
  {
    assert ByteIs(x, at, y, |y| - 1);
    forall q | 0 <= q < |y|
      ensures x[at..at + |y|][q] == y[q]
    {
      assert ByteIs(x, at, y, q);
    }
  }

  /** No step is meant to write into `n` bytes from `at`. */
  predicate RangeLeftAlone(steps: seq<Step>, rank: nat, at: nat, n: nat) {
    forall pos :: at <= pos < at + n ==> LeftAlone(steps, rank, pos)
  }

  /** The bytes of a landed copy are in the destination's memory where the call put them, all of them, when
      nothing else in the run writes there. */
  lemma CopyArrives(s0: State, before: seq<Step>, k: Call, rest: seq<Step>)
    requires Initial(s0) && IsCarefulRun(s0, before + [Begin(k)] + rest)
    requires RangeLeftAlone(before, k.dst, k.dstAt, k.bytes) && RangeLeftAlone(rest, k.dst, k.dstAt, k.bytes)
    ensures var s, c := Run(s0, before + [Begin(k)] + rest), NextCall(s0, before);
            && Sizes(s) && c < |s.calls| && s.calls[c] == k
            && (HasLanded(s, c) ==>
                  && k.dst < |s.dev| && k.dstAt + k.bytes <= |s.dev[k.dst]|
                  && s.dev[k.dst][k.dstAt..k.dstAt + k.bytes] == s.taken[c])
  {
    hide Initial, LeftAlone, IsCarefulRun, Run, HasLanded, NextCall;
    var s, c := Run(s0, before + [Begin(k)] + rest), NextCall(s0, before);
    CallIsThere(s0, before, k, rest);
    if HasLanded(s, c) {
      ByteArrives(s0, before, k, rest, 0);
      forall q | 0 <= q < k.bytes
        ensures ByteIs(s.dev[k.dst], k.dstAt, s.taken[c], q)
      {
        ByteArrives(s0, before, k, rest, q);
      }
      SliceIs(s.dev[k.dst], k.dstAt, s.taken[c]);
    }
  }

  /** Then they are the source's bytes from before the run, when nothing writes those either. */
  lemma CopyDelivers(s0: State, before: seq<Step>, k: Call, rest: seq<Step>)
    requires Initial(s0) && IsCarefulRun(s0, before + [Begin(k)] + rest)
    requires RangeLeftAlone(before, k.dst, k.dstAt, k.bytes) && RangeLeftAlone(rest, k.dst, k.dstAt, k.bytes)
    requires RangeLeftAlone(before, k.src, k.srcAt, k.bytes) && RangeLeftAlone(rest, k.src, k.srcAt, k.bytes)
    ensures var s, c := Run(s0, before + [Begin(k)] + rest), NextCall(s0, before);
            && Sizes(s) && c < |s.calls| && s.calls[c] == k
            && (HasLanded(s, c) ==>
                  && k.dst < |s.dev| && k.dstAt + k.bytes <= |s.dev[k.dst]| && k.src < |s0.dev| && k.srcAt + k.bytes <= |s0.dev[k.src]|
                  && s.dev[k.dst][k.dstAt..k.dstAt + k.bytes] == s0.dev[k.src][k.srcAt..k.srcAt + k.bytes])
  {
    hide Initial, LeftAlone, IsCarefulRun, Run, HasLanded, NextCall;
    var s, c := Run(s0, before + [Begin(k)] + rest), NextCall(s0, before);
    CallIsThere(s0, before, k, rest);
    CopyArrives(s0, before, k, rest);
    if HasLanded(s, c) {
      ByteTaken(s0, before, k, rest, 0);
      forall q | 0 <= q < k.bytes
        ensures ByteIs(s0.dev[k.src], k.srcAt, s.taken[c], q)
      {
        ByteTaken(s0, before, k, rest, q);
      }
      SliceIs(s0.dev[k.src], k.srcAt, s.taken[c]);
    }
  }

  /** Call `c` is under way, and byte `q` of its source is `byte` at this moment. */
  ghost predicate SourceHas(s: State, c: nat, k: Call, q: nat, byte: int) {
    && c < |s.calls| && s.calls[c] == k
    && k.src < |s.dev| && k.srcAt + q < |s.dev[k.src]| && s.dev[k.src][k.srcAt + q] == byte
  }

  /** Call `c` has taken byte `q`, which was `byte`. */
  ghost predicate HasTaken(s: State, c: nat, k: Call, q: nat, byte: int) {
    c < |s.calls| && s.calls[c] == k && c < |s.taken| && q < |s.taken[c]| && s.taken[c][q] == byte
  }

  lemma UnitTakesMore(s: State, i: nat, c: nat, k: Call, q: nat, byte: int)
    requires Inv(s) && Executable(s, i) && s.log[i].op == DtoH(c) && HasTaken(Execute(s, i), c, k, q, byte)
    ensures HasTaken(s, c, k, q, byte) || SourceHas(s, c, k, q, byte)
  {
    assert LoggedAt(s, i) && Faithful(s, c);
    hide Inv, Orderly, Faithful, Executable;
  }

  lemma StepTakesMore(s: State, step: Step, c: nat, k: Call, q: nat, byte: int)
    requires Inv(s) && Enabled(s, step) && HasTaken(Do(s, step), c, k, q, byte)
    ensures HasTaken(s, c, k, q, byte) || SourceHas(s, c, k, q, byte)
  {
    InvSizes(s);
    hide Inv;
    if step.HostStep? {
      AdvancePushes(s, step.rank);
      hide Advance;
    } else if step.Device? {
      if s.log[step.entry].op == DtoH(c) {
        UnitTakesMore(s, step.entry, c, k, q, byte);
      } else if c < |s.taken| {
        OtherUnitSpares(s, step.entry, c);
      } else {
        ExecuteRuns(s, step.entry);
      }
      hide Execute, Executable, SourceHas;
    }
  }

  lemma NothingTaken(s0: State, c: nat)
    requires Initial(s0)
    ensures c >= |Run(s0, []).calls|
  {
    RunEnds(s0);
  }

  /** With other writers about: every byte a call took was at its place in the source's memory at some
      moment of the run while the call was under way. */
  lemma {:induction false} TakenAtSomeMoment(s0: State, steps: seq<Step>, c: nat, k: Call, q: nat, byte: int) returns (j: nat)
    requires Initial(s0) && IsCarefulRun(s0, steps) && HasTaken(Run(s0, steps), c, k, q, byte)
    ensures j < |steps| && SourceHas(Run(s0, steps[..j]), c, k, q, byte)
  {
    NothingTaken(s0, c);
    assert c < |Run(s0, steps).calls|;
    j := |steps| - 1;
    var before := steps[..j];
    hide Initial, IsCarefulRun, Run, Do, Enabled, Inv, HasTaken, SourceHas;
    assert steps == before + [steps[j]] + [];
    CarefulRunAround(s0, before, steps[j], []);
    RunEnds(Do(Run(s0, before), steps[j]));
    StepTakesMore(Run(s0, before), steps[j], c, k, q, byte);
    if HasTaken(Run(s0, before), c, k, q, byte) {
      j := TakenAtSomeMoment(s0, before, c, k, q, byte);
      assert before[..j] == steps[..j];
    }
  }

  // ----- The bytes of a copy within one rank -----

  /** Entry `i` copies `k` within its rank; byte `q` of its source is `byte`, and so is that of its
      destination once the copy has come so far. */
  ghost predicate Moving(s: State, i: nat, k: Call, q: nat, byte: int) {
    && i < |s.log| && i < |s.progress| && s.log[i] == Entry(k.dst, DtoD(k.dst, k.srcAt, k.dstAt, k.bytes))
    && k.dst < |s.dev| && k.srcAt + q < |s.dev[k.dst]| && k.dstAt + q < |s.dev[k.dst]|
    && s.dev[k.dst][k.srcAt + q] == byte
    && (s.progress[i] > q ==> s.dev[k.dst][k.dstAt + q] == byte)
  }

  lemma UnitMoves(s: State, i: nat, k: Call, q: nat, byte: int)
    requires Orderly(s) && Executable(s, i) && Moving(s, i, k, q, byte) && q < k.bytes
    requires Execute(s, i).dev[k.dst][k.srcAt + q] == s.dev[k.dst][k.srcAt + q] && SameSizes(s.dev, Execute(s, i).dev)
    ensures Moving(Execute(s, i), i, k, q, byte)
  {
    hide Orderly, Executable;
  }

  lemma StepLogs(s: State, step: Step, i: nat)
    requires Orderly(s) && Enabled(s, step) && i < |s.log|
    ensures var t := Do(s, step);
            i < |t.log| && i < |t.progress| && t.log[i] == s.log[i] && (step != Device(i) ==> t.progress[i] == s.progress[i])
  {
    StepIsLater(s, step);
    if step.HostStep? {
      AdvanceProgress(s, step.rank, i);
    }
    hide Orderly, Advance;
  }

  lemma AdvanceProgress(s: State, r: nat, i: nat)
    requires InProgress(s, r) && i < |s.log| == |s.progress|
    ensures var t := Advance(s, r); i < |t.progress| && t.progress[i] == s.progress[i]
  {
  }

  lemma StepMoves(s: State, step: Step, i: nat, k: Call, q: nat, byte: int)
    requires Orderly(s) && Enabled(s, step) && Moving(s, i, k, q, byte) && q < k.bytes
    requires Clear(s, k.dst, k.srcAt + q, -1, -1) && !Writes(step, k.dst, k.srcAt + q)
    requires Clear(s, k.dst, k.dstAt + q, -1, i) && !Writes(step, k.dst, k.dstAt + q)
    ensures Moving(Do(s, step), i, k, q, byte)
  {
    hide Orderly, Clear, Writes, Executable;
    StepLeaves(s, step, k.dst, k.srcAt + q, -1, -1);
    if step == Device(i) {
      UnitMoves(s, i, k, q, byte);
    } else {
      hide Do;
      StepLeaves(s, step, k.dst, k.dstAt + q, -1, i);
      StepLogs(s, step, i);
      assert !IsUnitOf(s, step, -1, i);
    }
  }

  lemma {:induction false} RunMoves(s: State, steps: seq<Step>, i: nat, k: Call, q: nat, byte: int)
    requires Orderly(s) && StoredNoted(s) && IsRun(s, steps) && Moving(s, i, k, q, byte) && q < k.bytes
    requires Clear(s, k.dst, k.srcAt + q, -1, -1) && LeftAlone(steps, k.dst, k.srcAt + q)
    requires Clear(s, k.dst, k.dstAt + q, -1, i) && LeftAlone(steps, k.dst, k.dstAt + q)
    ensures Moving(Run(s, steps), i, k, q, byte)
    decreases |steps|
  {
    if steps != [] {
      StepKeepsOrder(s, steps[0]);
      StepMoves(s, steps[0], i, k, q, byte);
      StepStaysClear(s, steps[0], k.dst, k.srcAt + q, -1, -1);
      StepStaysClear(s, steps[0], k.dst, k.dstAt + q, -1, i);
      hide Orderly, StoredNoted, Do, Enabled, Clear, Writes, Moving;
      assert forall j :: 0 <= j < |steps| - 1 ==> steps[1..][j] == steps[j + 1];
      RunMoves(Do(s, steps[0]), steps[1..], i, k, q, byte);
    }
  }

  lemma WithinStarts(s: State, k: Call, q: nat)
    requires Sizes(s) && Enabled(s, Within(k)) && q < k.bytes && Clear(s, k.dst, k.srcAt + q, -1, -1) && Clear(s, k.dst, k.dstAt + q, -1, -1)
    requires k.dst < |s.dev| && k.srcAt + q < |s.dev[k.dst]| && k.dstAt + q < |s.dev[k.dst]| && !Covers(k, k.dst, k.srcAt + q)
    ensures var t, i := Do(s, Within(k)), |s.log|;
            && Moving(t, i, k, q, s.dev[k.dst][k.srcAt + q])
            && Clear(t, k.dst, k.srcAt + q, -1, -1) && Clear(t, k.dst, k.dstAt + q, -1, i)
  {
  }

  lemma WithinInBounds(s0: State, before: seq<Step>, rank: nat, pos: nat)
    requires rank < |s0.dev| && pos < |s0.dev[rank]|
    ensures rank < |Run(s0, before).dev| && pos < |Run(s0, before).dev[rank]| && |Run(s0, before).dev[rank]| == |s0.dev[rank]|
  {
    RunSizes(s0, before);
    hide Run;
  }

  /** The copy is enqueued, with its source byte as it was and its destination byte clear of others. */
  lemma WithinBegins(s0: State, before: seq<Step>, k: Call, q: nat)
    requires Initial(s0) && IsRun(s0, before) && q < k.bytes && Sizes(Run(s0, before)) && Enabled(Run(s0, before), Within(k))
    requires k.dst < |s0.dev| && k.srcAt + q < |s0.dev[k.dst]| && k.dstAt + q < |s0.dev[k.dst]| && !Covers(k, k.dst, k.srcAt + q)
    requires LeftAlone(before, k.dst, k.srcAt + q) && LeftAlone(before, k.dst, k.dstAt + q)
    ensures var s := Run(s0, before); var t, i := Do(s, Within(k)), |s.log|;
            && Moving(t, i, k, q, s0.dev[k.dst][k.srcAt + q])
            && Clear(t, k.dst, k.srcAt + q, -1, -1) && Clear(t, k.dst, k.dstAt + q, -1, i)
  {
    hide Initial, LeftAlone, Clear, Do, Enabled, IsRun, Run, Covers, Moving, Sizes;
    WithinInBounds(s0, before, k.dst, k.srcAt + q);
    WithinInBounds(s0, before, k.dst, k.dstAt + q);
    StillThere(s0, before, k.dst, k.srcAt + q);
    StillThere(s0, before, k.dst, k.dstAt + q);
    WithinStarts(Run(s0, before), k, q);
  }

  lemma RestMoves(t: State, rest: seq<Step>, i: nat, k: Call, q: nat, byte: int)
    requires Orderly(t) && StoredNoted(t) && IsRun(t, rest) && Moving(t, i, k, q, byte) && q < k.bytes
    requires Clear(t, k.dst, k.srcAt + q, -1, -1) && LeftAlone(rest, k.dst, k.srcAt + q)
    requires Clear(t, k.dst, k.dstAt + q, -1, i) && LeftAlone(rest, k.dst, k.dstAt + q)
    ensures var s := Run(t, rest);
            && k.dst < |s.dev| && k.dstAt + q < |s.dev[k.dst]|
            && (Finished(s, i) ==> s.dev[k.dst][k.dstAt + q] == byte)
  {
    hide LeftAlone, Clear, Orderly, StoredNoted, IsRun, Run;
    RunMoves(t, rest, i, k, q, byte);
  }

  /** In any run, careful or not: a finished copy within one rank has moved each byte to its place, when
      nothing else writes there and nothing, the copy included, writes the source byte. */
  lemma WithinArrives(s0: State, before: seq<Step>, k: Call, rest: seq<Step>, q: nat)
    requires Initial(s0) && IsRun(s0, before + [Within(k)] + rest) && q < k.bytes
    requires k.dst < |s0.dev| && k.srcAt + q < |s0.dev[k.dst]| && k.dstAt + q < |s0.dev[k.dst]| && !Covers(k, k.dst, k.srcAt + q)
    requires LeftAlone(before, k.dst, k.srcAt + q) && LeftAlone(rest, k.dst, k.srcAt + q)
    requires LeftAlone(before, k.dst, k.dstAt + q) && LeftAlone(rest, k.dst, k.dstAt + q)
    ensures var s, i := Run(s0, before + [Within(k)] + rest), |Run(s0, before).log|;
            && k.dst < |s.dev| && k.dstAt + q < |s.dev[k.dst]|
            && (Finished(s, i) ==> s.dev[k.dst][k.dstAt + q] == s0.dev[k.dst][k.srcAt + q])
  {
    hide Initial, LeftAlone, Clear, Do, Enabled, Orderly, StoredNoted, IsRun, Run, Finished, Moving, Covers, Sizes;
    RunAround(s0, before, Within(k), rest);
    OrderlySizes(Run(s0, before));
    WithinBegins(s0, before, k, q);
    RestMoves(Do(Run(s0, before), Within(k)), rest, |Run(s0, before).log|, k, q, s0.dev[k.dst][k.srcAt + q]);
  }
}
