/** A blocking copy never looks at the stored landing event: exactly when that is safe. */
module PeerCopyRace {
  import opened Wrappers
  import opened PeerCopy
  import opened PeerCopyInvariant
  import opened PeerCopySteps
  import opened PeerCopyDevice
  import opened PeerCopyTheorems
  import opened PeerCopyOrder
  import opened PeerCopyCluster

  /** Device work, and anything else writing device memory. */
  ghost predicate OnDevices(steps: seq<Step>) {
    forall k :: 0 <= k < |steps| ==> steps[k].Device? || steps[k].Disturb?
  }

  /** Copies that have landed wrote what they read. */
  ghost predicate Delivers(s: State) {
    Sizes(s) && forall c :: 0 <= c < |s.calls| && HasLanded(s, c) ==> s.wrote[c] == s.taken[c]
  }

  lemma InvDelivers(s: State)
    requires Inv(s)
    ensures Delivers(s)
  {
    forall c | 0 <= c < |s.calls| && HasLanded(s, c)
      ensures s.wrote[c] == s.taken[c]
    {
      LandedMeansTaken(s, c);
      assert Faithful(s, c) && Placed(s, c);
    }
  }

  // ----- What device work does to the bytes of a call, safe or not -----

  /** As many bytes were read and written as the copies have run. */
  ghost predicate Counted(s: State)
    requires Sizes(s)
  {
    forall c :: 0 <= c < |s.calls| ==>
      |s.taken[c]| == ProgressAt(s, s.at[c].dtoh) && |s.wrote[c]| == ProgressAt(s, s.at[c].htod)
  }

  /** Bytes once read or written by a call stay on its record. */
  ghost predicate Recalls(s: State, t: State)
    requires Sizes(s) && Sizes(t)
  {
    && t.calls == s.calls
    && forall c :: 0 <= c < |s.calls| ==> s.taken[c] <= t.taken[c] && s.wrote[c] <= t.wrote[c]
  }

  lemma ExecuteCounts(s: State, i: nat)
    requires Orderly(s) && Counted(s) && Executable(s, i)
    requires var t := Execute(s, i); Orderly(t) && SameLog(s, t)
    ensures Counted(Execute(s, i)) && Recalls(s, Execute(s, i))
  {
    var t := Execute(s, i);
    assert LoggedAt(s, i);
    forall c | 0 <= c < |s.calls|
      ensures |t.taken[c]| == ProgressAt(t, t.at[c].dtoh) && |t.wrote[c]| == ProgressAt(t, t.at[c].htod)
      ensures s.taken[c] <= t.taken[c] && s.wrote[c] <= t.wrote[c]
    {
      assert Placed(s, c);
      hide Logged, Causal, Locked;
    }
  }

  lemma RecallsChains(s: State, t: State, u: State)
    requires Sizes(s) && Sizes(t) && Sizes(u) && Recalls(s, t) && Recalls(t, u)
    ensures Recalls(s, u)
  {
  }

  lemma {:induction false} DevicesCount(s: State, steps: seq<Step>)
    requires Orderly(s) && Counted(s) && DevicesOnly(steps) && IsRun(s, steps)
    ensures var t := Run(s, steps); Orderly(t) && SameLog(s, t) && Counted(t) && Recalls(s, t)
    decreases |steps|
  {
    if steps != [] {
      var i, t := steps[0].entry, Execute(s, steps[0].entry);
      ExecuteRuns(s, i);
      RanOrderly(s, t, i);
      ExecuteCounts(s, i);
      hide Orderly, Execute, Executable, Counted, Recalls;
      DevicesCount(t, steps[1..]);
      RecallsChains(s, t, Run(t, steps[1..]));
    }
  }

  // ----- The schedule that goes wrong -----

  /** Blocking call `c` has enqueued its DtoH at `n`; event copy `d` from the same rank has its HtoD at
      `h`, unfinished, and `n` does not wait for it. */
  ghost predicate Exposed(s: State, c: nat, n: nat, d: nat, h: nat) {
    && Orderly(s) && Counted(s)
    && c < |s.calls| && d < |s.calls| && d != c && s.calls[d].src == s.calls[c].src && !s.calls[d].blocking
    && h < n < |s.log| && s.log[n] == Entry(s.calls[c].src, DtoH(c)) && s.log[h] == Entry(s.calls[d].dst, HtoD(d))
    && s.at[c].dtoh == Some(n) && s.at[d].htod == Some(h)
    && s.progress[n] == 0 && s.progress[h] < s.calls[d].bytes && s.progress[h] < s.calls[c].bytes
  }

  lemma ExposedLater(s: State, t: State, c: nat, n: nat, d: nat, h: nat)
    requires Exposed(s, c, n, d, h) && Orderly(t) && Counted(t) && SameLog(s, t)
    requires t.progress[n] == 0 && t.progress[h] == s.progress[h]
    ensures Exposed(t, c, n, d, h)
  {
    hide Orderly, Counted;
  }

  /** Everything both wait for is run first, and neither of them. */
  lemma MakeReady(s: State, c: nat, n: nat, d: nat, h: nat) returns (steps: seq<Step>)
    requires Exposed(s, c, n, d, h) && !Behind(s, h, n)
    ensures DevicesOnly(steps) && IsRun(s, steps)
    ensures var t := Run(s, steps);
            Exposed(t, c, n, d, h) && SameLog(s, t) && t.progress[h] == s.progress[h] && Ready(t, h) && Ready(t, n)
  {
    hide Orderly, Counted, Behind, Ready, IsRun, Run, Edge;
    var a := Clear(s, h, h);
    var t := Run(s, a);
    ClearedIsReady(s, t, h, h);
    ClearedSpares(s, t, h, h, n);
    var b := Clear(t, n, n);
    var u := Run(t, b);
    ClearedIsReady(t, u, n, n);
    SameOrder(s, t, h, n);
    ClearedSpares(t, u, n, n, h);
    ReadyStays(t, u, n, h);
    RunConcat(s, a, b);
    steps := a + b;
    DevicesCount(s, steps);
    ExposedLater(s, u, c, n, d, h);
  }

  lemma ClearedSpares(s: State, t: State, n: nat, m: nat, i: nat)
    requires Orderly(s) && n < |s.log| && i < |s.log| && Cleared(s, t, n, m) && (i >= m || !Behind(s, i, n))
    ensures SameLog(s, t) && Orderly(t) && t.progress[i] == s.progress[i]
  {
  }

  lemma ReadyStays(s: State, t: State, n: nat, h: nat)
    requires Orderly(s) && n < |s.log| && Cleared(s, t, n, n) && Ready(s, h)
    ensures Ready(t, h)
  {
    forall k | 0 <= k < h && Edge(t, k, h)
      ensures Finished(t, k)
    {
      assert Edge(s, k, h);
    }
    hide Behind;
  }

  /** The HtoD of an event copy is ready only when the bytes have been taken. */
  lemma ReadyHasTaken(s: State, c: nat, n: nat, d: nat, h: nat)
    requires Exposed(s, c, n, d, h) && Ready(s, h)
    ensures |s.taken[d]| == s.calls[d].bytes && |s.wrote[d]| == s.progress[h]
  {
    assert Placed(s, d);
    var p := s.at[d];
    assert Edge(s, p.join.value, h);
    assert Started(s, p.join.value);
    assert Recorded(s, Bridge(d));
    assert Started(s, p.mark.value);
    assert Finished(s, p.dtoh.value);
    hide Locked, Logged, CallsFit;
  }

  /** Another writer puts `byte` where the blocking copy will read the byte the HtoD reads next. */
  lemma Meddle(s: State, c: nat, n: nat, d: nat, h: nat, byte: int)
    requires Exposed(s, c, n, d, h) && Ready(s, h) && Ready(s, n)
    ensures var r, pos := s.calls[c].src, s.calls[c].srcAt + s.progress[h];
            var t := Do(s, Disturb(r, pos, byte));
            && Enabled(s, Disturb(r, pos, byte))
            && Exposed(t, c, n, d, h) && SameLog(s, t) && t.progress == s.progress && Ready(t, h) && Ready(t, n)
            && t.taken == s.taken && t.wrote == s.wrote && t.dev[r][pos] == byte
  {
    var r, pos := s.calls[c].src, s.calls[c].srcAt + s.progress[h];
    var t := Do(s, Disturb(r, pos, byte));
    DisturbOrderly(s, r, pos, byte);
    hide Orderly;
    assert forall k :: 0 <= k < n ==> (Edge(t, k, n) <==> Edge(s, k, n)) && (Edge(t, k, h) <==> Edge(s, k, h));
  }

  /** A DtoH leaves device memory alone. */
  lemma {:induction false} TakeUnits(s: State, n: nat, m: nat, c: nat)
    requires Orderly(s) && Ready(s, n) && s.log[n].op == DtoH(c) && s.progress[n] + m <= Cost(s.calls, s.log[n].op)
    ensures Run(s, Units(n, m)).dev == s.dev
    decreases m
  {
    if m > 0 {
      UnitRuns(s, n);
      assert Units(n, m)[1..] == Units(n, m - 1);
      assert Execute(s, n).dev == s.dev;
      hide Orderly, Execute, Executable, Ready;
      TakeUnits(Do(s, Device(n)), n, m - 1, c);
    }
  }

  lemma TakeOne(s: State, n: nat, c: nat)
    requires Orderly(s) && n < |s.log| && c < |s.calls| && s.log[n].op == DtoH(c) && s.progress[n] < s.calls[c].bytes
    ensures var k, q := s.calls[c], s.progress[n];
            && k.src < |s.dev| && k.src < |s.slab| && q < |s.slab[k.src]| && k.srcAt + q < |s.dev[k.src]|
            && var t := Execute(s, n); |t.slab| == |s.slab| && q < |t.slab[k.src]| && t.slab[k.src][q] == s.dev[k.src][k.srcAt + q]
  {
  }

  lemma WriteOne(s: State, h: nat, d: nat)
    requires Orderly(s) && Counted(s) && h < |s.log| && d < |s.calls| && s.log[h].op == HtoD(d) && s.at[d].htod == Some(h)
    requires s.progress[h] < s.calls[d].bytes
    ensures var k, q := s.calls[d], s.progress[h];
            && k.src < |s.slab| && q < |s.slab[k.src]|
            && var t := Execute(s, h); |t.wrote| == |s.wrote| && |s.wrote[d]| == q && t.wrote[d] == s.wrote[d] + [s.slab[k.src][q]]
  {
  }

  lemma OneUnit(s: State, i: nat)
    ensures Run(s, Units(i, 1)) == Execute(s, i)
    ensures IsRun(s, Units(i, 1)) <==> Executable(s, i)
  {
    assert Units(i, 1)[1..] == [];
    assert Run(Execute(s, i), []) == Execute(s, i) && IsRun(Execute(s, i), []);
  }

  lemma LastUnit(s: State, t: State, n: nat, q: nat, c: nat)
    requires Orderly(s) && n < |s.log| && c < |s.calls| && s.log[n].op == DtoH(c) && s.progress[n] == 0 && q < s.calls[c].bytes
    requires UnitsDone(s, t, n, q) && t.dev == s.dev
    ensures Executable(t, n)
    ensures var u, k := Execute(t, n), s.calls[c];
            && k.src < |u.slab| && q < |u.slab[k.src]| && k.src < |s.dev| && k.srcAt + q < |s.dev[k.src]|
            && u.slab[k.src][q] == s.dev[k.src][k.srcAt + q]
  {
    ReadyRuns(t, n);
    TakeOne(t, n, c);
    hide Orderly, Ready, Executable, Execute;
  }

  /** The last byte a DtoH has read is in the slab. */
  lemma LastTakenByte(s: State, n: nat, q: nat, c: nat)
    requires Orderly(s) && Ready(s, n) && c < |s.calls| && s.log[n].op == DtoH(c) && s.progress[n] == 0 && q < s.calls[c].bytes
    ensures IsRun(s, Units(n, q + 1))
    ensures var t, k := Run(s, Units(n, q + 1)), s.calls[c];
            && k.src < |t.slab| && q < |t.slab[k.src]| && k.src < |s.dev| && k.srcAt + q < |s.dev[k.src]|
            && t.slab[k.src][q] == s.dev[k.src][k.srcAt + q]
  {
    assert q <= Cost(s.calls, s.log[n].op) && n < |s.log|;
    hide Orderly, Execute, Executable, IsRun, Run, Ready, Units, UnitsDone, Cost;
    UnitsRun(s, n, q);
    TakeUnits(s, n, q, c);
    var t := Run(s, Units(n, q));
    LastUnit(s, t, n, q, c);
    OneUnit(t, n);
    RunConcat(s, Units(n, q), Units(n, 1));
    UnitsJoin(n, q);
  }

  lemma UnitsJoin(n: nat, q: nat)
    ensures Units(n, q) + Units(n, 1) == Units(n, q + 1)
  {
  }

  /** The DtoH runs just far enough to replace the byte the HtoD reads next. */
  lemma Overwrite(s: State, c: nat, n: nat, d: nat, h: nat) returns (steps: seq<Step>)
    requires Exposed(s, c, n, d, h) && Ready(s, h) && Ready(s, n)
    ensures DevicesOnly(steps) && IsRun(s, steps)
    ensures var t := Run(s, steps);
            && Orderly(t) && Counted(t) && SameLog(s, t) && Recalls(s, t) && Ready(t, h) && t.progress[h] == s.progress[h]
            && var k, q := s.calls[c], s.progress[h];
               && k.src < |t.slab| && q < |t.slab[k.src]| && k.src < |s.dev| && k.srcAt + q < |s.dev[k.src]|
               && t.slab[k.src][q] == s.dev[k.src][k.srcAt + q]
  {
    OrderlySizes(s);
    hide Orderly, Counted, Recalls, Execute, Executable, IsRun, Run, Behind, Ready;
    var q := s.progress[h];
    LastTakenByte(s, n, q, c);
    UnitsRun(s, n, q + 1);
    steps := Units(n, q + 1);
    DevicesCount(s, steps);
    ReadyAside(s, Run(s, steps), h);
  }

  lemma ReadyAside(s: State, t: State, h: nat)
    requires Ready(s, h) && SameLog(s, t) && forall k :: 0 <= k < h && k < |s.progress| ==> t.progress[k] == s.progress[k]
    ensures Ready(t, h)
  {
    forall k | 0 <= k < h && Edge(t, k, h)
      ensures Finished(t, k)
    {
      assert Edge(s, k, h);
    }
  }

  lemma WrongByteStays(s: State, t: State, u: State, d: nat, q: nat, byte: int)
    requires Sizes(s) && Sizes(t) && Sizes(u) && Recalls(s, t) && Recalls(t, u) && d < |s.calls| && q < |s.taken[d]|
    requires q < |t.wrote[d]| && t.wrote[d][q] == byte != s.taken[d][q]
    ensures u.wrote[d] != u.taken[d]
  {
    assert u.wrote[d][q] == byte && u.taken[d][q] == s.taken[d][q];
  }

  lemma FinishedUnits(s: State, t: State, d: nat, h: nat, m: nat)
    requires UnitsDone(s, t, h, m) && d < |s.calls| && h < |s.log| && s.log[h].op == HtoD(d) && d < |s.at| && s.at[d].htod == Some(h)
    requires s.progress[h] + m == s.calls[d].bytes
    ensures Orderly(t) && SameLog(s, t) && HasLanded(t, d)
  {
    hide Ready;
  }

  /** The HtoD delivers the wrong byte, and then the rest. */
  lemma DeliverWrongly(s: State, d: nat, h: nat, byte: int) returns (steps: seq<Step>)
    requires Orderly(s) && Counted(s) && Ready(s, h) && d < |s.calls| && s.log[h].op == HtoD(d) && s.at[d].htod == Some(h)
    requires s.progress[h] < s.calls[d].bytes == |s.taken[d]|
    requires var k, q := s.calls[d], s.progress[h];
             k.src < |s.slab| && q < |s.slab[k.src]| && s.slab[k.src][q] == byte != s.taken[d][q]
    ensures DevicesOnly(steps) && IsRun(s, steps)
    ensures var t := Run(s, steps); Orderly(t) && SameLog(s, t) && HasLanded(t, d) && t.wrote[d] != t.taken[d]
  {
    OrderlySizes(s);
    var q, rest := s.progress[h], s.calls[d].bytes - s.progress[h];
    assert Cost(s.calls, s.log[h].op) == s.calls[d].bytes;
    hide Orderly, Counted, Recalls, Execute, Executable, IsRun, Run, Ready, HasLanded, Cost;
    WriteOne(s, h, d);
    UnitsRun(s, h, 1);
    OneUnit(s, h);
    DevicesCount(s, Units(h, 1));
    var t := Run(s, Units(h, 1));
    UnitsRun(s, h, rest);
    steps := Units(h, rest);
    UnitsSplit(h, rest);
    RunConcat(s, Units(h, 1), Units(h, rest - 1));
    DevicesCount(t, Units(h, rest - 1));
    var u := Run(s, steps);
    FinishedUnits(s, u, d, h, rest);
    hide UnitsDone, SameLog;
    OrderlySizes(t);
    OrderlySizes(u);
    WrongByteStays(s, t, u, d, q, byte);
  }

  lemma UnitsSplit(i: nat, m: nat)
    requires m > 0
    ensures Units(i, 1) + Units(i, m - 1) == Units(i, m)
  {
  }

  /** Devices alone, and one write to the source before its copy, make an exposed copy deliver bytes it
      never read. */
  lemma ExposedGoesWrong(s: State, c: nat, n: nat, d: nat, h: nat) returns (steps: seq<Step>)
    requires Exposed(s, c, n, d, h) && !Behind(s, h, n)
    ensures OnDevices(steps) && IsRun(s, steps) && !Delivers(Run(s, steps))
  {
    hide Orderly, Counted, Recalls, Ready, IsRun, Run, Behind, Execute, Executable, HasLanded;
    var a := MakeReady(s, c, n, d, h);
    var t := Run(s, a);
    OrderlySizes(t);
    ReadyHasTaken(t, c, n, d, h);
    var q := t.progress[h];
    var byte := t.taken[d][q] + 1;
    var b := [Disturb(t.calls[c].src, t.calls[c].srcAt + q, byte)];
    Meddle(t, c, n, d, h, byte);
    RunOfOne(t, b[0]);
    var u := Run(t, b);
    OrderlySizes(u);
    var e := Overwrite(u, c, n, d, h);
    var v := Run(u, e);
    OrderlySizes(v);
    StillTaken(u, v, d);
    var f := DeliverWrongly(v, d, h, byte);
    RunConcat(s, a, b);
    RunConcat(s, a + b, e);
    RunConcat(s, a + b + e, f);
    steps := a + b + e + f;
    LandedWrongly(Run(v, f), d);
  }

  lemma OrderlySizes(s: State)
    requires Orderly(s)
    ensures Sizes(s)
  {
  }

  lemma StillTaken(s: State, t: State, d: nat)
    requires Sizes(s) && Sizes(t) && Recalls(s, t) && Counted(t) && Orderly(t) && d < |s.calls| && |s.taken[d]| == s.calls[d].bytes
    ensures t.taken[d] == s.taken[d]
  {
    assert Placed(t, d);
  }

  lemma LandedWrongly(s: State, d: nat)
    requires Orderly(s) && d < |s.calls| && HasLanded(s, d) && s.wrote[d] != s.taken[d]
    ensures !Delivers(s)
  {
  }

  // ----- The exact condition -----

  lemma {:induction false} OnDevicesIsCareful(s: State, steps: seq<Step>)
    requires IsRun(s, steps) && OnDevices(steps)
    ensures IsCarefulRun(s, steps)
    decreases |steps|
  {
    if steps != [] {
      assert Careful(s, steps[0]);
      hide Do, Enabled, Careful;
      OnDevicesIsCareful(Do(s, steps[0]), steps[1..]);
    }
  }

  /** An earlier call whose bytes a blocking copy does not spare is an event copy in flight. */
  lemma UnsparedIsInFlight(s: State, r: nat, d: nat)
    requires Inv(s) && CanAdvance(s, r) && s.hosts[r].value.stage == Begun && s.calls[s.hosts[r].value.call].blocking
    requires var c := s.hosts[r].value.call; d < c && s.calls[d].src == r && !SparedNext(s, d, s.calls[c].bytes, r)
    ensures var c := s.hosts[r].value.call;
            && d < |s.at| && s.at[d].htod.Some? && !s.calls[d].blocking
            && var h := s.at[d].htod.value;
               && h < |s.log| && s.log[h] == Entry(s.calls[d].dst, HtoD(d))
               && s.progress[h] < s.calls[d].bytes && s.progress[h] < s.calls[c].bytes && !StreamBehind(s, h, r)
  {
    assert Placed(s, d);
    hide Logged, Causal, Disciplined, StreamBehind, Faithful;
  }

  /** What its first step, enqueuing the DtoH, leaves. */
  lemma TakePushed(s: State, r: nat)
    requires Inv(s) && CanAdvance(s, r) && s.hosts[r].value.stage == Begun && s.calls[s.hosts[r].value.call].blocking
    ensures var t, c, n := Do(s, HostStep(r)), s.hosts[r].value.call, |s.log|;
            && Orderly(t) && Counted(t) && Later(s, t)
            && t.calls == s.calls && s.calls[c].src == r && t.log == s.log + [Entry(r, DtoH(c))] && t.progress == s.progress + [0]
            && |t.at| == |s.at| && t.at[c].dtoh == Some(n) && forall d :: 0 <= d < |s.at| && d != c ==> t.at[d] == s.at[d]
  {
    var t, c := Do(s, HostStep(r)), s.hosts[r].value.call;
    DisciplinedIsNoted(s);
    AdvanceOrderly(s, r);
    AdvanceMoves(s, r);
    HostMovedLater(s, t, r, c, |t.log| - |s.log|);
    CallInProgress(s, r);
    forall d | 0 <= d < |s.calls|
      ensures |t.taken[d]| == ProgressAt(t, t.at[d].dtoh) && |t.wrote[d]| == ProgressAt(t, t.at[d].htod)
    {
      assert Placed(s, d) && Faithful(s, d);
      hide Orderly, Disciplined, HostMoved, Later;
    }
    hide Orderly, Disciplined, HostMoved, Later;
  }

  /** The blocking copy may enqueue its DtoH exactly when nothing the devices do afterwards, whatever
      else writes to their memory, makes a copy deliver bytes it did not read. */
  lemma TakeIsSafeIff(s: State, r: nat)
    requires Inv(s) && CanAdvance(s, r)
    ensures Careful(s, HostStep(r)) <==>
            forall steps :: OnDevices(steps) && IsRun(s, [HostStep(r)] + steps) ==> Delivers(Run(s, [HostStep(r)] + steps))
  {
    if Careful(s, HostStep(r)) {
      forall steps | OnDevices(steps) && IsRun(s, [HostStep(r)] + steps)
        ensures Delivers(Run(s, [HostStep(r)] + steps))
      {
        RunConcat(s, [HostStep(r)], steps);
        RunOfOne(s, HostStep(r));
        OnDevicesIsCareful(Do(s, HostStep(r)), steps);
        hide Inv, Run, IsRun, IsCarefulRun, Do, Delivers;
        RunKeepsInv(s, [HostStep(r)] + steps);
        InvDelivers(Run(s, [HostStep(r)] + steps));
      }
    } else {
      var steps := CarelessTake(s, r);
      assert !Delivers(Run(s, [HostStep(r)] + steps));
    }
  }

  lemma CarelessTake(s: State, r: nat) returns (steps: seq<Step>)
    requires Inv(s) && Enabled(s, HostStep(r)) && !Careful(s, HostStep(r))
    ensures OnDevices(steps) && IsRun(s, [HostStep(r)] + steps) && !Delivers(Run(s, [HostStep(r)] + steps))
  {
    var c, n, t := s.hosts[r].value.call, |s.log|, Do(s, HostStep(r));
    var d :| 0 <= d < c && s.calls[d].src == r && !SparedNext(s, d, s.calls[c].bytes, r);
    UnsparedIsInFlight(s, r, d);
    var h := s.at[d].htod.value;
    TakePushed(s, r);
    PushedBehind(s, t, r, h);
    hide Inv, Orderly, Counted, Later, Behind, StreamBehind, Run, IsRun, Do, Delivers, SparedNext;
    assert Exposed(t, c, n, d, h);
    steps := ExposedGoesWrong(t, c, n, d, h);
    RunOfOne(s, HostStep(r));
    RunConcat(s, [HostStep(r)], steps);
  }

  lemma {:induction false} FirstCareless(s: State, steps: seq<Step>) returns (k: nat)
    requires IsRun(s, steps) && !IsCarefulRun(s, steps)
    ensures k < |steps| && IsCarefulRun(s, steps[..k]) && IsRun(s, steps[..k])
    ensures Enabled(Run(s, steps[..k]), steps[k]) && !Careful(Run(s, steps[..k]), steps[k])
    decreases |steps|
  {
    if !Careful(s, steps[0]) {
      k := 0;
      assert steps[..0] == [];
      RunEnds(s);
    } else {
      hide Do, Enabled, Careful;
      k := FirstCareless(Do(s, steps[0]), steps[1..]);
      k := k + 1;
      assert steps[..k][1..] == steps[1..][..k - 1] && steps[..k][0] == steps[0];
      RunUnfolds(s, steps[..k]);
    }
  }

  /** A run, of event and blocking copies in any mixture, is careful exactly when no stretch of it,
      followed by device work, makes a landed copy differ from what it read. */
  lemma RunIsSafeIff(s0: State, steps: seq<Step>)
    requires Initial(s0) && IsRun(s0, steps)
    ensures IsCarefulRun(s0, steps) <==>
            forall k, more :: 0 <= k <= |steps| && OnDevices(more) && IsRun(s0, steps[..k] + more) ==>
              Delivers(Run(s0, steps[..k] + more))
  {
    hide Initial, Run, IsRun, IsCarefulRun, Delivers, OnDevices, Inv, Do, Enabled, Careful;
    if IsCarefulRun(s0, steps) {
      forall k, more | 0 <= k <= |steps| && OnDevices(more) && IsRun(s0, steps[..k] + more)
        ensures Delivers(Run(s0, steps[..k] + more))
      {
        PrefixIsSafe(s0, steps, k, more);
      }
    } else {
      var k := FirstCareless(s0, steps);
      CarelessIsHostStep(Run(s0, steps[..k]), steps[k]);
      InitialInv(s0);
      RunKeepsInv(s0, steps[..k]);
      var more := CarelessTake(Run(s0, steps[..k]), steps[k].rank);
      assert steps[..k + 1] + more == steps[..k] + ([steps[k]] + more);
      RunConcat(s0, steps[..k], [steps[k]] + more);
      assert !Delivers(Run(s0, steps[..k + 1] + more));
    }
  }

  lemma CarelessIsHostStep(s: State, step: Step)
    requires !Careful(s, step)
    ensures step.HostStep?
  {
  }

  lemma PrefixIsSafe(s0: State, steps: seq<Step>, k: nat, more: seq<Step>)
    requires Initial(s0) && IsCarefulRun(s0, steps) && k <= |steps| && OnDevices(more) && IsRun(s0, steps[..k] + more)
    ensures Delivers(Run(s0, steps[..k] + more))
  {
    hide Run, IsRun, IsCarefulRun, Delivers, OnDevices, Inv;
    assert steps == steps[..k] + steps[k..];
    RunConcat(s0, steps[..k], steps[k..]);
    RunConcat(s0, steps[..k], more);
    OnDevicesIsCareful(Run(s0, steps[..k]), more);
    InitialInv(s0);
    RunKeepsInv(s0, steps[..k] + more);
    InvDelivers(Run(s0, steps[..k] + more));
  }
}
