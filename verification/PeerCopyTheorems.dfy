/** Safety and progress of the peer copies, over every interleaving. */
module PeerCopyTheorems {
  import opened PeerCopy
  import opened PeerCopyInvariant
  import opened PeerCopySteps
  import opened PeerCopyDevice

  // ----- Every reachable state -----

  lemma InitialInv(s: State)
    requires Initial(s)
    ensures Inv(s)
  {
  }

  lemma StepKeepsInv(s: State, step: Step)
    requires Inv(s) && Enabled(s, step) && Careful(s, step)
    ensures Inv(Do(s, step))
  {
    match step
    case Begin(call) => BeginKeepsInv(s, call);
    case HostStep(r) =>
      var t, c := Advance(s, r), s.hosts[r].value.call;
      AdvanceMoves(s, r);
      AdvanceDisciplined(s, r);
      HostMovedFaithful(s, t, r, c, |t.log| - |s.log|);
    case Within(call) => SubmitKeepsInv(s, call.dst, WithinOp(call));
    case Submit(stream) => SubmitKeepsInv(s, stream, Work);
    case Device(i) => ExecuteKeepsInv(s, i);
    case Disturb(r, pos, byte) => DisturbKeepsInv(s, r, pos, byte);
  }

  lemma {:induction false} RunKeepsInv(s: State, steps: seq<Step>)
    requires Inv(s) && IsCarefulRun(s, steps)
    ensures Inv(Run(s, steps))
    decreases |steps|
  {
    if steps != [] {
      StepKeepsInv(s, steps[0]);
      hide Inv;
      RunKeepsInv(Do(s, steps[0]), steps[1..]);
    }
  }

  // ----- Safety -----

  /** Whatever the interleaving, a copy that has landed wrote exactly the bytes its own DtoH read,
      all of them; and they are still there unless something wrote over them. */
  lemma LandedCopiesAreFaithful(s0: State, steps: seq<Step>, c: nat)
    requires Initial(s0) && IsCarefulRun(s0, steps)
    ensures var s := Run(s0, steps);
            && Sizes(s)
            && (c < |s.calls| && HasLanded(s, c) ==>
                  var k := s.calls[c];
                  && |s.taken[c]| == k.bytes && s.wrote[c] == s.taken[c]
                  && k.dst < |s.dev| && k.dstAt + k.bytes <= |s.dev[k.dst]|
                  && (c !in s.touched ==> s.dev[k.dst][k.dstAt..k.dstAt + k.bytes] == s.taken[c]))
  {
    InitialInv(s0);
    RunKeepsInv(s0, steps);
    var s := Run(s0, steps);
    if c < |s.calls| && HasLanded(s, c) {
      LandedMeansTaken(s, c);
      assert Faithful(s, c) && Placed(s, c);
    }
  }

  /** A byte of the slab never waits for two calls at once: what one call has brought and not yet
      delivered, no other has overwritten, and it is still there. */
  lemma SlabServesOneCall(s0: State, steps: seq<Step>, c: nat, d: nat, q: nat)
    requires Initial(s0) && IsCarefulRun(s0, steps)
    ensures var s := Run(s0, steps);
            && Sizes(s)
            && ((&& c < |s.calls| && d < |s.calls| && c != d && s.calls[c].src == s.calls[d].src
                 && |s.wrote[c]| <= q < |s.taken[c]|) ==>
                  && s.calls[c].src < |s.slab| && q < |s.slab[s.calls[c].src]|
                  && s.slab[s.calls[c].src][q] == s.taken[c][q]
                  && !(|s.wrote[d]| <= q < |s.taken[d]|))
  {
    InitialInv(s0);
    RunKeepsInv(s0, steps);
    var s := Run(s0, steps);
    if c < |s.calls| && d < |s.calls| && c != d && s.calls[c].src == s.calls[d].src && |s.wrote[c]| <= q < |s.taken[c]| {
      assert Faithful(s, c);
      assert s.taken[c][|s.wrote[c]|..][q - |s.wrote[c]|] == s.taken[c][q];
      if c < d {
        WaitingIsDisjoint(s, c, d);
      } else {
        WaitingIsDisjoint(s, d, c);
      }
    }
  }

  /** Of two calls from one rank, the later one's bytes lie below what the earlier one has read. */
  lemma WaitingIsDisjoint(s: State, d: nat, c: nat)
    requires Inv(s) && d < c < |s.calls| && s.calls[d].src == s.calls[c].src
    ensures s.taken[c] == [] || |s.taken[d]| <= |s.wrote[d]| || |s.taken[c]| <= |s.wrote[d]|
  {
    assert Faithful(s, c) && Faithful(s, d) && Placed(s, c) && Placed(s, d);
    if s.taken[c] != [] {
      TakesAfterEarlierLandings(s, d, c);
    }
  }

  /** When `peer_copy_via_host` has returned, its data has arrived. */
  lemma BlockingCopyHasLanded(s0: State, steps: seq<Step>, c: nat)
    requires Initial(s0) && IsCarefulRun(s0, steps)
    ensures var s := Run(s0, steps);
            Sizes(s) && (c < |s.calls| && s.calls[c].blocking && StageOf(s, c) == Returned ==> HasLanded(s, c))
  {
    InitialInv(s0);
    RunKeepsInv(s0, steps);
    var s := Run(s0, steps);
    if c < |s.calls| {
      assert Placed(s, c);
    }
  }

  // ----- Which runs are careful -----

  predicate OnlyEvents(steps: seq<Step>) {
    forall k :: 0 <= k < |steps| && steps[k].Begin? ==> !steps[k].call.blocking
  }

  predicate OnlyBlocking(steps: seq<Step>) {
    forall k :: 0 <= k < |steps| && steps[k].Begin? ==> steps[k].call.blocking
  }

  lemma HostStepsKeepCalls(s: State, step: Step)
    ensures Do(s, step).calls == s.calls || (step.Begin? && Do(s, step).calls == s.calls + [step.call])
  {
  }

  /** Event copies alone are always careful: no caution is asked of their callers. */
  lemma {:induction false} EventRunsAreCareful(s: State, steps: seq<Step>)
    requires IsRun(s, steps) && OnlyEvents(steps)
    requires forall c :: 0 <= c < |s.calls| ==> !s.calls[c].blocking
    ensures IsCarefulRun(s, steps)
    decreases |steps|
  {
    if steps != [] {
      HostStepsKeepCalls(s, steps[0]);
      hide Do, Enabled;
      EventRunsAreCareful(Do(s, steps[0]), steps[1..]);
    }
  }

  /** So are blocking copies alone, from any number of threads. */
  lemma {:induction false} BlockingRunsAreCareful(s: State, steps: seq<Step>)
    requires Inv(s) && IsRun(s, steps) && OnlyBlocking(steps)
    requires forall c :: 0 <= c < |s.calls| ==> s.calls[c].blocking
    ensures IsCarefulRun(s, steps)
    decreases |steps|
  {
    if steps != [] {
      BlockingStepIsCareful(s, steps[0]);
      StepKeepsInv(s, steps[0]);
      HostStepsKeepCalls(s, steps[0]);
      hide Do, Enabled, Inv, Careful;
      BlockingRunsAreCareful(Do(s, steps[0]), steps[1..]);
    }
  }

  lemma BlockingStepIsCareful(s: State, step: Step)
    requires Inv(s) && forall c :: 0 <= c < |s.calls| ==> s.calls[c].blocking
    ensures Careful(s, step)
  {
    if step.HostStep? && CanAdvance(s, step.rank) {
      assert StoredOk(s, step.rank);
      hide Placed, Logged, Causal, Faithful, Guarded, StreamBehind;
    }
  }

  /** So runs of event copies alone, and of blocking copies alone, deliver what was read, whatever the
      interleaving. */
  lemma PureRunsAreSafe(s0: State, steps: seq<Step>, c: nat)
    requires Initial(s0) && IsRun(s0, steps) && (OnlyEvents(steps) || OnlyBlocking(steps))
    ensures var s := Run(s0, steps);
            && Sizes(s)
            && (c < |s.calls| && HasLanded(s, c) ==> |s.taken[c]| == s.calls[c].bytes && s.wrote[c] == s.taken[c])
            && (c < |s.calls| && s.calls[c].blocking && StageOf(s, c) == Returned ==> HasLanded(s, c))
  {
    InitialInv(s0);
    if OnlyEvents(steps) {
      EventRunsAreCareful(s0, steps);
    } else {
      BlockingRunsAreCareful(s0, steps);
    }
    LandedCopiesAreFaithful(s0, steps, c);
    BlockingCopyHasLanded(s0, steps, c);
  }

  // ----- Progress -----

  lemma StepKeepsOrder(s: State, step: Step)
    requires Orderly(s) && StoredNoted(s) && Enabled(s, step)
    ensures Orderly(Do(s, step)) && StoredNoted(Do(s, step))
  {
    match step
    case Begin(call) => BeginOrderly(s, call);
    case HostStep(r) =>
      AdvanceOrderly(s, r);
      AdvanceNoted(s, r);
    case Within(call) => SubmitOrderly(s, call.dst, WithinOp(call));
    case Submit(stream) => SubmitOrderly(s, stream, Work);
    case Device(i) =>
      ExecuteRuns(s, i);
      RanOrderly(s, Execute(s, i), i);
    case Disturb(r, pos, byte) => DisturbOrderly(s, r, pos, byte);
  }

  /** No step takes anything back. */
  lemma StepIsLater(s: State, step: Step)
    requires Orderly(s) && Enabled(s, step)
    ensures Later(s, Do(s, step))
  {
    if step.HostStep? {
      var t, c := Advance(s, step.rank), s.hosts[step.rank].value.call;
      AdvanceMoves(s, step.rank);
      hide Orderly;
      HostMovedLater(s, t, step.rank, c, |t.log| - |s.log|);
    } else if step.Device? {
      ExecuteRuns(s, step.entry);
      hide Orderly, Execute;
    } else {
      hide Logged, Causal, Locked, Placed;
    }
  }

  lemma LaterChains(s: State, t: State, u: State)
    requires Later(s, t) && Later(t, u)
    ensures Later(s, u)
  {
  }

  lemma {:induction false} RunKeepsOrder(s: State, steps: seq<Step>)
    requires Orderly(s) && StoredNoted(s) && IsRun(s, steps)
    ensures Orderly(Run(s, steps)) && StoredNoted(Run(s, steps)) && Later(s, Run(s, steps))
    decreases |steps|
  {
    if steps != [] {
      StepKeepsOrder(s, steps[0]);
      StepIsLater(s, steps[0]);
      hide Orderly, StoredNoted, Do, Enabled, Later;
      RunKeepsOrder(Do(s, steps[0]), steps[1..]);
      LaterChains(s, Do(s, steps[0]), Run(s, steps));
    }
  }

  /** Nothing runs behind a call's wait on the consumer stream before the data has arrived. */
  lemma BehindTellIsAfterLanding(s: State, c: nat, i: nat)
    requires Orderly(s) && c < |s.calls| && s.at[c].tell.Some? && s.calls[c].consumer.Some?
    requires s.at[c].tell.value < i < |s.log| && s.log[i].stream == s.calls[c].consumer.value && Started(s, i)
    ensures HasLanded(s, c)
  {
    assert Placed(s, c);
    assert Finished(s, s.at[c].tell.value);
    assert Recorded(s, Landing(c));
    assert Started(s, s.at[c].note.value);
    hide Locked, Logged, CallsFit;
  }

  /** The consumer stream of a cross-rank copy runs nothing that was enqueued after the call's wait
      before the data has arrived, in careful runs and others. */
  lemma ConsumerSeesTheData(s0: State, steps: seq<Step>, c: nat, i: nat)
    requires Initial(s0) && IsRun(s0, steps)
    ensures var s := Run(s0, steps);
            && Sizes(s)
            && ((&& c < |s.calls| && s.at[c].tell.Some? && s.calls[c].consumer.Some? && s.at[c].tell.value < i < |s.log|
                 && s.log[i].stream == s.calls[c].consumer.value && Started(s, i)) ==>
                  HasLanded(s, c))
  {
    InitialInv(s0);
    RunKeepsOrder(s0, steps);
    var s := Run(s0, steps);
    if c < |s.calls| && s.at[c].tell.Some? && s.calls[c].consumer.Some? && s.at[c].tell.value < i < |s.log|
       && s.log[i].stream == s.calls[c].consumer.value && Started(s, i) {
      BehindTellIsAfterLanding(s, c, i);
    }
  }

  /** In every reachable state, careful or not, some stream can run as long as anything is
      unfinished: every wait names an event recorded earlier in the log, so waits form no cycle. */
  lemma SomethingCanRun(s0: State, steps: seq<Step>)
    requires Initial(s0) && IsRun(s0, steps)
    ensures var s := Run(s0, steps);
            (exists i :: 0 <= i < |s.log| && !Finished(s, i)) ==> exists i :: Executable(s, i)
  {
    var s := Run(s0, steps);
    InitialInv(s0);
    RunKeepsOrder(s0, steps);
    if i :| 0 <= i < |s.log| && !Finished(s, i) {
      OldestCanRun(s, i);
    }
  }

  lemma {:induction false} OldestCanRun(s: State, i: nat)
    requires Orderly(s) && i < |s.log| && !Finished(s, i)
    ensures exists j :: Executable(s, j)
  {
    if j :| 0 <= j < i && !Finished(s, j) {
      OldestCanRun(s, j);
    } else {
      assert LoggedAt(s, i);
      if s.log[i].op.Wait? {
        var c := s.log[i].op.event.call;
        assert Finished(s, if s.log[i].op.event.Bridge? then s.at[c].mark.value else s.at[c].note.value);
      }
      assert Executable(s, i);
    }
  }

  /** Units of work still to do. */
  function Remaining(s: State, n: nat): int
    requires n <= |s.log| && n <= |s.progress|
  {
    if n == 0 then 0 else Remaining(s, n - 1) + Cost(s.calls, s.log[n - 1].op) - s.progress[n - 1]
  }

  lemma {:induction false} RemainingIsLeft(s: State, n: nat)
    requires Sizes(s) && n <= |s.log|
    ensures Remaining(s, n) >= 0
    ensures Remaining(s, n) == 0 <==> forall i :: 0 <= i < n ==> Finished(s, i)
  {
    if n > 0 {
      RemainingIsLeft(s, n - 1);
      assert s.progress[n - 1] <= Cost(s.calls, s.log[n - 1].op);
      if Remaining(s, n) == 0 {
        assert Finished(s, n - 1);
      }
      if forall i :: 0 <= i < n ==> Finished(s, i) {
        assert Finished(s, n - 1);
      }
    }
  }

  lemma {:induction false} RemainingDrops(s: State, t: State, i: nat, n: nat)
    requires i < |s.log| == |s.progress| && n <= |s.log| && Ran(s, t, i)
    ensures Remaining(t, n) == Remaining(s, n) - if i < n then 1 else 0
  {
    if n > 0 {
      RemainingDrops(s, t, i, n - 1);
    }
  }

  /** Every unit of device work shortens what is left by one, so every schedule of the devices
      drains all queues, in a number of steps that does not depend on the schedule. */
  lemma {:induction false} DevicesDrain(s: State, steps: seq<Step>)
    requires Orderly(s) && IsRun(s, steps) && forall k :: 0 <= k < |steps| ==> steps[k].Device?
    ensures Orderly(Run(s, steps)) && |Run(s, steps).log| == |s.log|
    ensures Remaining(Run(s, steps), |s.log|) == Remaining(s, |s.log|) - |steps|
    ensures |steps| <= Remaining(s, |s.log|)
    ensures |steps| == Remaining(s, |s.log|) <==> forall i :: 0 <= i < |s.log| ==> Finished(Run(s, steps), i)
    decreases |steps|
  {
    if steps == [] {
      RemainingIsLeft(s, |s.log|);
    } else {
      var i, t := steps[0].entry, Do(s, steps[0]);
      ExecuteRuns(s, i);
      RanOrderly(s, t, i);
      RemainingDrops(s, t, i, |s.log|);
      hide Orderly, Executable, Execute;
      DevicesDrain(t, steps[1..]);
    }
  }

  /** A drained machine keeps no host thread waiting. */
  lemma DrainedHostsAdvance(s: State, r: nat)
    requires Orderly(s) && r < |s.hosts| && s.hosts[r].Some? && forall i :: 0 <= i < |s.log| ==> Finished(s, i)
    ensures CanAdvance(s, r)
  {
  }
}
