/** What the callers of the peer copies may rely on, in conditions they can see. */
module PeerCopyCallers {
  import opened Wrappers
  import opened PeerCopy
  import opened PeerCopyInvariant
  import opened PeerCopySteps
  import opened PeerCopyDevice
  import opened PeerCopyTheorems
  import opened PeerCopyOrder
  import opened PeerCopyCluster
  import opened PeerCopyRace

  // ----- An event copy, then a blocking copy -----

  lemma {:induction false} EnqueuedAll(p: seq<Action>)
    requires forall i :: 0 <= i < |p| ==> p[i].Enqueue?
    ensures |Enqueued(p)| == |p| && forall i :: 0 <= i < |p| ==> Enqueued(p)[i] == p[i].entry
  {
    if p != [] {
      EnqueuedAll(p[1..]);
    }
  }

  /** The first event copy of a machine, enqueued and not begun by the devices. */
  ghost predicate Lonely(s: State, a: Call) {
    && Inv(s) && s.calls == [a] && !a.blocking
    && |s.log| == |s.progress| == (if a.consumer.Some? then 6 else 5)
    && s.log[0] == Entry(a.src, DtoH(0)) && s.log[1] == Entry(a.src, Record(Bridge(0))) && s.log[2] == Entry(a.dst, Wait(Bridge(0)))
    && s.log[3] == Entry(a.dst, HtoD(0)) && s.log[4] == Entry(a.dst, Record(Landing(0)))
    && (a.consumer.Some? ==> s.log[5] == Entry(a.consumer.value, Wait(Landing(0))))
    && (forall i :: 0 <= i < |s.progress| ==> s.progress[i] == 0)
    && (forall r :: 0 <= r < |s.hosts| ==> s.hosts[r] == None)
  }

  lemma LonelyBegins(s0: State, a: Call)
    requires Initial(s0) && CanBegin(s0, a) && !a.blocking
    ensures IsCarefulRun(s0, WholeCall(a)) && IsRun(s0, WholeCall(a)) && Lonely(Run(s0, WholeCall(a)), a)
    ensures var s := Run(s0, WholeCall(a)); s.dev == s0.dev && s.slab == s0.slab && |s.hosts| == |s0.hosts|
  {
    hide Run, IsRun, IsCarefulRun, WholeCall, Enqueued, Program, CanBegin;
    InitialInv(s0);
    UninterruptedEventCall(s0, a);
    RunKeepsInv(s0, WholeCall(a));
    FirstProgram(a);
    hide Inv;
  }

  lemma FirstProgram(a: Call)
    requires !a.blocking
    ensures var entries := Enqueued(Program(a, 0, None));
            && |entries| == (if a.consumer.Some? then 6 else 5)
            && entries[0] == Entry(a.src, DtoH(0)) && entries[1] == Entry(a.src, Record(Bridge(0)))
            && entries[2] == Entry(a.dst, Wait(Bridge(0))) && entries[3] == Entry(a.dst, HtoD(0))
            && entries[4] == Entry(a.dst, Record(Landing(0)))
            && (a.consumer.Some? ==> entries[5] == Entry(a.consumer.value, Wait(Landing(0))))
  {
    EnqueuedAll(Program(a, 0, None));
    hide Enqueued;
  }

  lemma LonelyOrder(s: State, a: Call)
    requires Lonely(s, a)
    ensures s.at[0].htod == Some(3)
    ensures StreamBehind(s, 3, a.src) <==> a.consumer == Some(a.src)
  {
    assert LoggedAt(s, 3) && Placed(s, 0);
    assert s.at[0].note == Some(4);
    hide Inv;
    if a.consumer == Some(a.src) {
      assert Edge(s, 3, 4) && Edge(s, 4, 5);
      assert Behind(s, 3, 4);
      assert Behind(s, 3, 5);
    } else {
      forall k | 0 <= k < |s.log| && s.log[k].stream == a.src
        ensures k != 3 && !Behind(s, 3, k)
      {
        if Behind(s, 3, k) {
          BehindIsEarlier(s, 3, k);
        }
      }
    }
  }

  /** A blocking copy right after an event copy from the same rank, whatever their sizes: safe against
      every device schedule exactly when the event copy made the source's own default stream its
      consumer. */
  lemma EventThenBlockingIff(s0: State, a: Call, b: Call)
    requires Initial(s0) && CanBegin(s0, a) && !a.blocking
    requires CanBegin(s0, b) && b.blocking && b.src == a.src
    ensures var steps := WholeCall(a) + [Begin(b)] + [HostStep(a.src)];
            (forall more :: OnDevices(more) && IsRun(s0, steps + more) ==> Delivers(Run(s0, steps + more)))
            <==> a.consumer == Some(a.src)
  {
    hide Inv, Run, IsRun, WholeCall, Lonely, Delivers, OnDevices, CanBegin, Do, Careful, SparedNext;
    var s1 := Run(s0, WholeCall(a));
    var before := WholeCall(a) + [Begin(b)];
    LonelyBegins(s0, a);
    LonelyThenBlocking(s0, s1, a, b);
    var s := Do(s1, Begin(b));
    RunOfOne(s1, Begin(b));
    RunConcat(s0, WholeCall(a), [Begin(b)]);
    TakeIsSafeIff(s, a.src);
    forall more | OnDevices(more)
      ensures IsRun(s0, before + [HostStep(a.src)] + more) <==> IsRun(s, [HostStep(a.src)] + more)
      ensures Run(s0, before + [HostStep(a.src)] + more) == Run(s, [HostStep(a.src)] + more)
    {
      assert before + [HostStep(a.src)] + more == before + ([HostStep(a.src)] + more);
      RunConcat(s0, before, [HostStep(a.src)] + more);
    }
  }

  lemma LonelyThenBlocking(s0: State, s1: State, a: Call, b: Call)
    requires Lonely(s1, a) && s1.dev == s0.dev && s1.slab == s0.slab && |s1.hosts| == |s0.hosts|
    requires CanBegin(s0, b) && b.blocking && b.src == a.src
    ensures Enabled(s1, Begin(b))
    ensures var s := Do(s1, Begin(b));
            Inv(s) && CanAdvance(s, a.src) && (Careful(s, HostStep(a.src)) <==> a.consumer == Some(a.src))
  {
    assert CanBegin(s1, b) by {
      hide Inv;
    }
    var s := Do(s1, Begin(b));
    BeginKeepsInv(s1, b);
    LonelyOrder(s1, a);
    LaterBegin(s1, b);
    StreamStays(s1, s, 3, a.src);
    hide Inv, StreamBehind, Later;
    assert s.at[0] == s1.at[0] && s.progress[3] == 0;
    assert SparedNext(s, 0, b.bytes, a.src) <==> a.consumer == Some(a.src);
    hide SparedNext;
    assert Careful(s, HostStep(a.src)) <==> SparedNext(s, 0, b.bytes, a.src);
  }

  lemma LaterBegin(s: State, k: Call)
    requires Inv(s) && CanBegin(s, k)
    ensures Later(s, DoBegin(s, k))
  {
  }

  lemma StreamStays(s: State, t: State, i: nat, stream: nat)
    requires Orderly(s) && Later(s, t) && t.log == s.log
    ensures StreamBehind(s, i, stream) <==> StreamBehind(t, i, stream)
  {
    forall k | 0 <= k < |s.log|
      ensures Behind(s, i, k) <==> Behind(t, i, k)
    {
      BehindStays(s, t, i, k);
    }
  }

  // ----- The consumer stream -----

  /** What a thread does to make an event copy, uninterrupted. */
  function CallSteps(k: Call): seq<Step> {
    if k.src == k.dst then [Within(k)] else WholeCall(k)
  }

  ghost predicate MayCall(s: State, k: Call) {
    Orderly(s) && StoredNoted(s) && !k.blocking && if k.src == k.dst then Enabled(s, Within(k)) else CanBegin(s, k)
  }

  /** Where the log will hold the operation that brings the data. */
  function CopyPlace(s: State, k: Call): nat
    requires k.src < |s.stored|
  {
    if k.src == k.dst then |s.log| else |s.log| + (if s.stored[k.src].Some? then 4 else 3)
  }

  /** Whatever happens from `s` on, no entry from `from` on that is enqueued on `stream` starts before
      entry `copy` has finished. */
  ghost predicate WaitsFor(s: State, copy: nat, from: nat, stream: nat) {
    forall steps, i | IsRun(s, steps) && from <= i < |Run(s, steps).log| && Run(s, steps).log[i].stream == stream ::
      Started(Run(s, steps), i) ==> Finished(Run(s, steps), copy)
  }

  lemma WithinPushes(s: State, k: Call)
    requires MayCall(s, k) && k.src == k.dst
    ensures var t := Do(s, Within(k));
            Orderly(t) && StoredNoted(t) && t.log == s.log + [Entry(k.dst, WithinOp(k))] && t.progress == s.progress + [0]
  {
    StepKeepsOrder(s, Within(k));
  }

  lemma OwnStreamWaits(s: State, k: Call)
    requires MayCall(s, k) && k.src == k.dst && k.consumer == Some(k.dst)
    ensures WaitsFor(Do(s, Within(k)), |s.log|, |s.log| + 1, k.dst)
  {
    var t, n := Do(s, Within(k)), |s.log|;
    WithinPushes(s, k);
    forall steps, i | IsRun(t, steps) && n + 1 <= i < |Run(t, steps).log| && Run(t, steps).log[i].stream == k.dst
                      && Started(Run(t, steps), i)
      ensures Finished(Run(t, steps), n)
    {
      RunKeepsOrder(t, steps);
      hide Run, IsRun, Locked, Placed, Logged, CallsFit;
      assert Run(t, steps).log[n] == t.log[n];
    }
  }

  lemma OtherStreamRunsEarly(s: State, k: Call, stream: nat)
    requires MayCall(s, k) && k.src == k.dst && stream != k.dst
    ensures !WaitsFor(Do(s, Within(k)), |s.log|, |s.log| + 1, stream)
  {
    var t, n := Do(s, Within(k)), |s.log|;
    WithinPushes(s, k);
    var u := Do(t, Submit(stream));
    StepKeepsOrder(t, Submit(stream));
    RunOfOne(t, Submit(stream));
    assert u.log == t.log + [Entry(stream, Work)] && u.progress == t.progress + [0];
    assert !Behind(u, n, n + 1) by {
      forall j: nat | j <= n && Behind(u, n, j)
        ensures false
      {
        BehindIsEarlier(u, n, j);
      }
    }
    hide Orderly, Behind, Run, IsRun, Do;
    OvertakesIff(u, n, n + 1);
    var more :| DevicesOnly(more) && IsRun(u, more) && Started(Run(u, more), n + 1) && !Finished(Run(u, more), n);
    RunConcat(t, [Submit(stream)], more);
    DevicesKeepLog(u, more);
    assert IsRun(t, [Submit(stream)] + more) && Run(t, [Submit(stream)] + more).log[n + 1].stream == stream;
  }

  /** What a whole call between ranks leaves. */
  lemma CrossCallRuns(s: State, k: Call)
    requires MayCall(s, k) && k.src != k.dst
    ensures IsRun(s, WholeCall(k)) && k.src < |s.stored|
    ensures var t := Run(s, WholeCall(k));
            && Orderly(t) && StoredNoted(t) && t.calls == s.calls + [k]
            && t.log == s.log + Enqueued(Program(k, |s.calls|, s.stored[k.src])) && k.src < |t.hosts| && t.hosts[k.src] == None
  {
    hide Run, IsRun, IsCarefulRun, WholeCall, Enqueued, Program, Later;
    UninterruptedEventCall(s, k);
    RunKeepsOrder(s, WholeCall(k));
    hide Orderly;
  }

  lemma HtoDInProgram(k: Call, c: nat, prev: Option<nat>)
    requires !k.blocking
    ensures var place, entries := if prev.Some? then 4 else 3, Enqueued(Program(k, c, prev));
            place < |entries| && entries[place] == Entry(k.dst, HtoD(c))
  {
    EnqueuedAll(Program(k, c, prev));
    hide Enqueued;
  }

  /** After a whole call between ranks the data arrives where `CopyPlace` says, and the consumer has
      been told. */
  lemma CrossCallLogs(s: State, k: Call)
    requires MayCall(s, k) && k.src != k.dst && k.consumer.Some?
    ensures IsRun(s, WholeCall(k))
    ensures var t, c := Run(s, WholeCall(k)), |s.calls|;
            && Orderly(t) && StoredNoted(t) && c < |t.calls| && t.calls[c] == k && c < |t.at|
            && k.src < |s.stored| && t.at[c].htod == Some(CopyPlace(s, k)) && t.at[c].tell.Some? && t.at[c].tell.value < |t.log|
  {
    hide Run, IsRun, WholeCall, Enqueued, Program, CanBegin;
    CrossCallRuns(s, k);
    HtoDInProgram(k, |s.calls|, s.stored[k.src]);
    var t := Run(s, WholeCall(k));
    assert t.log[CopyPlace(s, k)] == Entry(k.dst, HtoD(|s.calls|));
    ReturnedIsPlaced(t, |s.calls|, CopyPlace(s, k));
  }

  lemma ReturnedIsPlaced(t: State, c: nat, place: nat)
    requires Orderly(t) && c < |t.calls| && !t.calls[c].blocking && t.calls[c].consumer.Some?
    requires t.calls[c].src < |t.hosts| && t.hosts[t.calls[c].src] == None && place < |t.log| && t.log[place].op == HtoD(c)
    ensures c < |t.at| && t.at[c].htod == Some(place) && t.at[c].tell.Some? && t.at[c].tell.value < |t.log|
  {
    assert LoggedAt(t, place) && Placed(t, c);
    hide Logged, Causal, Locked;
  }

  lemma ToldStreamWaits(s: State, k: Call)
    requires MayCall(s, k) && k.src != k.dst && k.consumer.Some?
    ensures k.src < |s.stored|
    ensures var t := Run(s, WholeCall(k)); WaitsFor(t, CopyPlace(s, k), |t.log|, k.consumer.value)
  {
    var t, c := Run(s, WholeCall(k)), |s.calls|;
    CrossCallLogs(s, k);
    var place := CopyPlace(s, k);
    hide WholeCall, CanBegin;
    forall steps, i | IsRun(t, steps) && |t.log| <= i < |Run(t, steps).log| && Run(t, steps).log[i].stream == k.consumer.value
                      && Started(Run(t, steps), i)
      ensures Finished(Run(t, steps), place)
    {
      RunKeepsOrder(t, steps);
      var u := Run(t, steps);
      BehindTellIsAfterLanding(u, c, i);
      hide Run, IsRun, Orderly;
    }
  }

  /** `peer_copy_via_host_event` keeps its promise about the consumer stream - nothing enqueued there
      after the call starts before the data has arrived, from any state and whatever happens later -
      exactly when the ranks differ or the consumer is the rank's own default stream. */
  lemma ConsumerWaitsIff(s: State, k: Call)
    requires MayCall(s, k) && k.consumer.Some?
    ensures k.src < |s.stored| && IsRun(s, CallSteps(k))
    ensures var t := Run(s, CallSteps(k));
            WaitsFor(t, CopyPlace(s, k), |t.log|, k.consumer.value) <==> k.src != k.dst || k.consumer.value == k.dst
  {
    hide WaitsFor, WholeCall, Run, IsRun;
    if k.src == k.dst {
      RunOfOne(s, Within(k));
      WithinPushes(s, k);
      if k.consumer.value == k.dst {
        OwnStreamWaits(s, k);
      } else {
        OtherStreamRunsEarly(s, k, k.consumer.value);
      }
    } else {
      CrossCallLogs(s, k);
      ToldStreamWaits(s, k);
    }
  }
}
