/** Each kind of step keeps the invariant of the peer-copy system. */
module PeerCopySteps {
  import opened Wrappers
  import opened PeerCopy
  import opened PeerCopyInvariant

  // ----- Steps that leave the device alone -----

  predicate SameOr(was: Option<nat>, now: Option<nat>, pos: nat) {
    now == was || (was.None? && now == Some(pos))
  }

  /** Places only fill in, with the position of the entry being pushed. */
  predicate Fills(p: Places, q: Places, n: nat) {
    && (q.guard == p.guard || p.guard.None?)
    && SameOr(p.wait, q.wait, n) && SameOr(p.dtoh, q.dtoh, n) && SameOr(p.mark, q.mark, n) && SameOr(p.join, q.join, n)
    && SameOr(p.htod, q.htod, n) && SameOr(p.note, q.note, n) && SameOr(p.tell, q.tell, n)
  }

  /** `t` is `s` after a host step of call `c` on rank `r` that enqueued `pushed` entries. */
  ghost predicate HostMoved(s: State, t: State, r: nat, c: nat, pushed: nat)
    requires Sizes(s)
  {
    && r < |s.hosts| && c < |s.calls| && s.hosts[r].Some? && s.hosts[r].value.call == c
    && t.calls == s.calls && t.dev == s.dev && t.slab == s.slab && t.taken == s.taken && t.wrote == s.wrote
    && t.touched == s.touched
    && |t.log| == |t.progress| == |s.log| + pushed
    && (forall i :: 0 <= i < |s.log| ==> t.log[i] == s.log[i] && t.progress[i] == s.progress[i])
    && (forall i :: |s.log| <= i < |t.log| ==> t.progress[i] == 0 && Cost(s.calls, t.log[i].op) > 0)
    && |t.at| == |s.at| && Fills(s.at[c], t.at[c], |s.log|)
    && (forall d :: 0 <= d < |s.at| && d != c ==> t.at[d] == s.at[d])
    && |t.hosts| == |t.stored| == |s.hosts|
    && (forall q :: 0 <= q < |s.hosts| && q != r ==> t.hosts[q] == s.hosts[q] && t.stored[q] == s.stored[q])
    && (t.hosts[r].Some? ==> t.hosts[r].value.call == c && t.hosts[r].value.stage != Returned)
  }

  lemma HostMovedSizes(s: State, t: State, r: nat, c: nat, pushed: nat)
    requires Orderly(s) && HostMoved(s, t, r, c, pushed)
    ensures Sizes(t) && CallsFit(t) && t.calls == s.calls && |t.log| == |s.log| + pushed
    ensures forall i :: 0 <= i < |s.log| ==> t.log[i] == s.log[i]
    ensures forall i :: 0 <= i < |s.log| ==> (Finished(t, i) <==> Finished(s, i)) && (Started(t, i) <==> Started(s, i))
    ensures forall i :: |s.log| <= i < |t.log| ==> !Started(t, i) && !Finished(t, i)
    ensures forall d :: 0 <= d < |s.calls| && d != c ==> t.at[d] == s.at[d] && StageOf(t, d) == StageOf(s, d)
    ensures Fills(s.at[c], t.at[c], |s.log|)
    ensures forall q :: 0 <= q < |s.hosts| && q != r ==> t.hosts[q] == s.hosts[q] && t.stored[q] == s.stored[q]
    ensures r < |s.hosts| && s.hosts[r].Some? && s.hosts[r].value.call == c
    ensures t.hosts[r].Some? ==> t.hosts[r].value.call == c && t.hosts[r].value.stage != Returned
    ensures t.dev == s.dev && t.slab == s.slab && t.taken == s.taken && t.wrote == s.wrote && t.touched == s.touched
  {
  }

  lemma HostMovedCausal(s: State, t: State, r: nat, c: nat, pushed: nat)
    requires Orderly(s) && HostMoved(s, t, r, c, pushed)
    ensures Sizes(t) && Causal(t)
  {
    hide HostMoved, Placed, Logged, Locked, Started, CallsFit;
    HostMovedSizes(s, t, r, c, pushed);
    forall i | 0 <= i < |t.log| && t.log[i].op.Wait? && Started(t, i)
      ensures Recorded(t, t.log[i].op.event)
    {
      assert Recorded(s, s.log[i].op.event);
    }
  }

  lemma HostMovedOthers(s: State, t: State, r: nat, c: nat, pushed: nat, d: nat)
    requires Orderly(s) && HostMoved(s, t, r, c, pushed) && d < |s.calls| && d != c
    ensures Sizes(t) && Placed(t, d)
  {
    hide HostMoved, Logged, Locked, Started, CallsFit, Causal, StageOf;
    HostMovedSizes(s, t, r, c, pushed);
    assert Placed(s, d);
  }

  /** Old entries keep their meaning. */
  lemma HostMovedLogged(s: State, t: State, r: nat, c: nat, pushed: nat)
    requires Orderly(s) && HostMoved(s, t, r, c, pushed)
    ensures Sizes(t)
    ensures forall i :: 0 <= i < |s.log| ==> LoggedAt(t, i)
  {
    hide HostMoved, Placed, Locked, Started, Finished, CallsFit, Causal, StageOf;
    HostMovedSizes(s, t, r, c, pushed);
    forall i | 0 <= i < |s.log|
      ensures LoggedAt(t, i)
    {
      assert LoggedAt(s, i);
    }
  }

  lemma HostMovedLocked(s: State, t: State, r: nat, c: nat, pushed: nat)
    requires Orderly(s) && HostMoved(s, t, r, c, pushed)
    requires t.hosts[r].Some? && s.calls[c].blocking ==> t.hosts[r].value.stage in {Begun, Copied, Joined, Landed}
    ensures Sizes(t) && Locked(t)
  {
    hide HostMoved, Placed, Logged, Started, Finished, CallsFit, Causal, StageOf;
    HostMovedSizes(s, t, r, c, pushed);
  }

  /** One host step keeps the orderly part once the stepping call itself is in place. */
  lemma HostMovedOrderly(s: State, t: State, r: nat, c: nat, pushed: nat)
    requires Orderly(s) && HostMoved(s, t, r, c, pushed)
    requires t.hosts[r].Some? && s.calls[c].blocking ==> t.hosts[r].value.stage in {Begun, Copied, Joined, Landed}
    requires Sizes(t) && Placed(t, c)
    requires forall i :: |s.log| <= i < |t.log| ==> LoggedAt(t, i)
    ensures Orderly(t)
  {
    hide HostMoved, Placed, LoggedAt, Finished, Started, Locked, Causal, CallsFit;
    HostMovedSizes(s, t, r, c, pushed);
    HostMovedCausal(s, t, r, c, pushed);
    HostMovedLogged(s, t, r, c, pushed);
    HostMovedLocked(s, t, r, c, pushed);
    forall d | 0 <= d < |t.calls| && d != c
      ensures Placed(t, d)
    {
      HostMovedOthers(s, t, r, c, pushed, d);
    }
  }

  lemma CallInProgress(s: State, r: nat)
    requires Orderly(s) && InProgress(s, r)
    ensures var c, stage := s.hosts[r].value.call, s.hosts[r].value.stage;
            && Sizes(s) && Placed(s, c) && s.calls[c].src == r && StageOf(s, c) == stage && stage != Returned
            && s.calls[c].bytes > 0
            && (s.calls[c].blocking ==> stage in {Begun, Copied, Joined, Landed})
            && var k, p, n := s.calls[c], s.at[c], Rank(stage);
               && (p.dtoh.Some? <==> n >= 2) && (p.htod.Some? <==> n >= 5)
               && (p.mark.Some? <==> !k.blocking && n >= 3) && (p.join.Some? <==> !k.blocking && n >= 4)
               && (p.note.Some? <==> !k.blocking && n >= 6)
               && (p.tell.Some? <==> !k.blocking && n >= 7 && k.consumer.Some?)
               && (n < 1 ==> p.guard.None? && p.wait.None?)
  {
    hide Logged, Causal, Finished, Started;
  }

  lemma SourceMoves(s: State, r: nat)
    requires Orderly(s) && CanAdvance(s, r) && s.hosts[r].value.stage in {Begun, Waited, Copied}
    ensures var c, t := s.hosts[r].value.call, AdvanceSource(s, r);
            && |s.log| <= |t.log| <= |s.log| + 1
            && HostMoved(s, t, r, c, |t.log| - |s.log|)
  {
    hide Orderly, Placed, Finished, Drained;
    CallInProgress(s, r);
  }

  lemma TargetMoves(s: State, r: nat)
    requires Orderly(s) && CanAdvance(s, r) && s.hosts[r].value.stage !in {Begun, Waited, Copied}
    ensures var c, t := s.hosts[r].value.call, AdvanceTarget(s, r);
            && |s.log| <= |t.log| <= |s.log| + 1
            && HostMoved(s, t, r, c, |t.log| - |s.log|)
  {
    hide Orderly, Placed, Finished, Drained;
    CallInProgress(s, r);
  }

  lemma AdvanceMoves(s: State, r: nat)
    requires Orderly(s) && CanAdvance(s, r)
    ensures var c, t := s.hosts[r].value.call, Advance(s, r);
            && |s.log| <= |t.log| <= |s.log| + 1
            && HostMoved(s, t, r, c, |t.log| - |s.log|)
  {
    hide Orderly, HostMoved, AdvanceSource, AdvanceTarget;
    if s.hosts[r].value.stage in {Begun, Waited, Copied} {
      SourceMoves(s, r);
    } else {
      TargetMoves(s, r);
    }
  }

  lemma SourceLogs(s: State, r: nat)
    requires Orderly(s) && CanAdvance(s, r) && StoredNoted(s) && s.hosts[r].value.stage in {Begun, Waited, Copied}
    requires Sizes(AdvanceSource(s, r))
    ensures var t := AdvanceSource(s, r); forall i :: |s.log| <= i < |t.log| ==> LoggedAt(t, i)
  {
    hide Logged, Causal, Finished, Started, Drained;
    var c, stage := s.hosts[r].value.call, s.hosts[r].value.stage;
    assert Placed(s, c);
    if stage == Begun && !s.calls[c].blocking && s.stored[r].Some? {
      assert IsAt(s, s.at[s.stored[r].value].note, s.calls[s.stored[r].value].dst, Record(Landing(s.stored[r].value))) by {
        assert Placed(s, s.stored[r].value);
      }
    }
  }

  lemma TargetLogs(s: State, r: nat)
    requires Orderly(s) && CanAdvance(s, r) && s.hosts[r].value.stage !in {Begun, Waited, Copied}
    requires Sizes(AdvanceTarget(s, r))
    ensures var t := AdvanceTarget(s, r); forall i :: |s.log| <= i < |t.log| ==> LoggedAt(t, i)
  {
    hide Logged, Causal, Finished, Started, Drained;
    assert Placed(s, s.hosts[r].value.call);
  }

  lemma SourcePlaces(s: State, r: nat)
    requires Orderly(s) && CanAdvance(s, r) && s.hosts[r].value.stage in {Begun, Waited, Copied}
    requires Sizes(AdvanceSource(s, r))
    requires forall i :: 0 <= i < |s.log| ==> (Finished(AdvanceSource(s, r), i) <==> Finished(s, i))
    ensures Placed(AdvanceSource(s, r), s.hosts[r].value.call)
  {
    hide Logged, Causal, Started;
    assert Placed(s, s.hosts[r].value.call);
  }

  lemma TargetPlaces(s: State, r: nat)
    requires Orderly(s) && CanAdvance(s, r) && s.hosts[r].value.stage !in {Begun, Waited, Copied}
    requires Sizes(AdvanceTarget(s, r))
    requires forall i :: 0 <= i < |s.log| ==> (Finished(AdvanceTarget(s, r), i) <==> Finished(s, i))
    ensures Placed(AdvanceTarget(s, r), s.hosts[r].value.call)
  {
    hide Logged, Causal, Started, CallsFit;
    assert Placed(s, s.hosts[r].value.call);
    hide Locked, Sizes;
  }

  lemma AdvanceOrderly(s: State, r: nat)
    requires Orderly(s) && CanAdvance(s, r) && StoredNoted(s)
    ensures Orderly(Advance(s, r))
  {
    var c, t := s.hosts[r].value.call, Advance(s, r);
    AdvanceMoves(s, r);
    HostMovedSizes(s, t, r, c, |t.log| - |s.log|);
    AdvanceStages(s, r);
    hide HostMoved, AdvanceSource, AdvanceTarget, Placed, LoggedAt, Locked, Causal, CallsFit, Finished, Started;
    if s.hosts[r].value.stage in {Begun, Waited, Copied} {
      SourceLogs(s, r);
      SourcePlaces(s, r);
    } else {
      TargetLogs(s, r);
      TargetPlaces(s, r);
    }
    HostMovedOrderly(s, t, r, c, |t.log| - |s.log|);
  }

  lemma AdvanceNoted(s: State, r: nat)
    requires Orderly(s) && CanAdvance(s, r) && StoredNoted(s)
    ensures StoredNoted(Advance(s, r))
  {
    hide Orderly, Placed, Finished, Drained;
    CallInProgress(s, r);
  }

  lemma AdvanceStages(s: State, r: nat)
    requires Orderly(s) && CanAdvance(s, r)
    ensures var t, c := Advance(s, r), s.hosts[r].value.call;
            r < |t.hosts| && (t.hosts[r].Some? && s.calls[c].blocking ==> t.hosts[r].value.stage in {Begun, Copied, Joined, Landed})
  {
    hide Logged, Causal, Started, Finished, Placed;
  }

  // ----- Host steps keep the discipline -----

  lemma HostMovedLandings(s: State, t: State, r: nat, c: nat, pushed: nat)
    requires Orderly(s) && HostMoved(s, t, r, c, pushed)
    ensures Sizes(t) && forall d :: 0 <= d < |s.calls| ==> (HasLanded(t, d) <==> HasLanded(s, d))
  {
    HostMovedSizes(s, t, r, c, pushed);
    hide HostMoved, Logged, Causal, Locked, CallsFit;
    forall d | 0 <= d < |s.calls|
      ensures HasLanded(t, d) <==> HasLanded(s, d)
    {
      assert Placed(s, d);
      hide Placed;
      assert s.at[d].htod.Some? ==> s.at[d].htod.value < |s.log|;
    }
  }

  lemma HostMovedLater(s: State, t: State, r: nat, c: nat, pushed: nat)
    requires Orderly(s) && HostMoved(s, t, r, c, pushed)
    ensures Sizes(t) && Later(s, t)
    ensures forall d, e :: 0 <= d < e < |s.calls| && Spared(s, d, e) ==> Spared(t, d, e)
  {
    HostMovedSizes(s, t, r, c, pushed);
    assert s.log <= t.log;
    assert Later(s, t);
    hide HostMoved, Later;
    forall d, e | 0 <= d < e < |s.calls| && Spared(s, d, e)
      ensures Spared(t, d, e)
    {
      SparedStays(s, t, d, e);
    }
  }

  lemma HostMovedElsewhere(s: State, t: State, r: nat, c: nat, pushed: nat)
    requires Orderly(s) && Disciplined(s) && HostMoved(s, t, r, c, pushed)
    ensures Sizes(t)
    ensures forall d :: 0 <= d < |s.calls| && d != c ==> Guarded(t, d)
    ensures forall q :: 0 <= q < |s.hosts| && q != r ==> StoredOk(t, q)
  {
    HostMovedSizes(s, t, r, c, pushed);
    HostMovedLandings(s, t, r, c, pushed);
    HostMovedLater(s, t, r, c, pushed);
    hide HostMoved, Orderly, Finished, Started, CallsFit, HasLanded, StageOf, Spared, Later;
    forall d | 0 <= d < |s.calls| && d != c
      ensures Guarded(t, d)
    {
      assert Guarded(s, d);
    }
    forall q | 0 <= q < |s.hosts| && q != r
      ensures StoredOk(t, q)
    {
      assert StoredOk(s, q);
    }
  }

  /** An entry pushed on a stream waits for what its stream was behind, and nothing else. */
  lemma PushedBehind(s: State, t: State, stream: nat, i: nat)
    requires Orderly(s) && Later(s, t) && |t.log| == |s.log| + 1 && t.log[|s.log|].stream == stream && !t.log[|s.log|].op.Wait?
    ensures Behind(t, i, |s.log|) <==> StreamBehind(s, i, stream)
  {
    var n := |s.log|;
    forall k | 0 <= k < n
      ensures Edge(t, k, n) <==> s.log[k].stream == stream
      ensures Behind(s, i, k) <==> Behind(t, i, k)
    {
      BehindStays(s, t, i, k);
    }
  }

  /** A careful take spares the earlier calls. */
  lemma TakeSpares(s: State, r: nat, d: nat)
    requires Orderly(s) && CanAdvance(s, r) && Careful(s, HostStep(r))
    requires s.hosts[r].value.stage == Begun && s.calls[s.hosts[r].value.call].blocking
    requires var t, c := AdvanceSource(s, r), s.hosts[r].value.call;
             Sizes(t) && t.calls == s.calls && Later(s, t) && d < c && s.calls[d].src == r
    ensures Spared(AdvanceSource(s, r), d, s.hosts[r].value.call)
  {
    var t, c := AdvanceSource(s, r), s.hosts[r].value.call;
    LandingStays(s, t, d);
    assert SparedNext(s, d, s.calls[c].bytes, r);
    if s.at[d].htod.Some? {
      PushedBehind(s, t, r, s.at[d].htod.value);
    }
    hide Orderly, Later, Careful;
  }

  lemma SourceGuards(s: State, r: nat)
    requires Orderly(s) && Disciplined(s) && CanAdvance(s, r) && Careful(s, HostStep(r))
    requires s.hosts[r].value.stage in {Begun, Waited, Copied}
    requires var t := AdvanceSource(s, r); Sizes(t) && Later(s, t)
    requires var t := AdvanceSource(s, r); forall d :: 0 <= d < |s.calls| ==> (HasLanded(t, d) <==> HasLanded(s, d))
    requires var t := AdvanceSource(s, r); forall d, e :: 0 <= d < e < |s.calls| && Spared(s, d, e) ==> Spared(t, d, e)
    ensures Guarded(AdvanceSource(s, r), s.hosts[r].value.call)
  {
    var c, t := s.hosts[r].value.call, AdvanceSource(s, r);
    CallInProgress(s, r);
    assert Guarded(s, c) && StoredOk(s, r);
    forall d | 0 <= d < c && s.calls[d].src == r && s.calls[c].blocking && s.hosts[r].value.stage == Begun
      ensures Spared(t, d, c)
    {
      TakeSpares(s, r, d);
    }
    hide Orderly, Disciplined, Careful, CanAdvance, Finished, HasLanded, DoneAt, Placed, Spared, Later;
  }

  lemma SourceStores(s: State, r: nat)
    requires Orderly(s) && Disciplined(s) && CanAdvance(s, r)
    requires s.hosts[r].value.stage in {Begun, Waited, Copied}
    requires var t := AdvanceSource(s, r); Sizes(t)
    requires var t := AdvanceSource(s, r); forall d :: 0 <= d < |s.calls| ==> (HasLanded(t, d) <==> HasLanded(s, d))
    ensures StoredOk(AdvanceSource(s, r), r)
  {
    CallInProgress(s, r);
    assert StoredOk(s, r);
    assert forall d :: s.hosts[r].value.call < d < |s.calls| ==> s.calls[d].src != r;
    hide Orderly, Disciplined, CanAdvance, Finished, HasLanded, DoneAt, Placed, Guarded;
  }

  lemma TargetGuards(s: State, r: nat)
    requires Orderly(s) && Disciplined(s) && CanAdvance(s, r)
    requires s.hosts[r].value.stage !in {Begun, Waited, Copied}
    requires var t := AdvanceTarget(s, r); Sizes(t)
    requires var t := AdvanceTarget(s, r); forall d :: 0 <= d < |s.calls| ==> (HasLanded(t, d) <==> HasLanded(s, d))
    requires var t := AdvanceTarget(s, r); forall d, e :: 0 <= d < e < |s.calls| && Spared(s, d, e) ==> Spared(t, d, e)
    ensures Guarded(AdvanceTarget(s, r), s.hosts[r].value.call)
  {
    var c := s.hosts[r].value.call;
    CallInProgress(s, r);
    assert Guarded(s, c);
    hide Orderly, Disciplined, CanAdvance, Finished, HasLanded, DoneAt, Placed, StoredOk, Spared;
  }

  lemma TargetEffect(s: State, r: nat)
    requires Orderly(s) && CanAdvance(s, r) && s.hosts[r].value.stage !in {Begun, Waited, Copied}
    ensures var c, stage, t := s.hosts[r].value.call, s.hosts[r].value.stage, AdvanceTarget(s, r);
            && t.calls == s.calls && r < |t.hosts| == |t.stored|
            && s.calls[c].src == r && (forall d :: c < d < |s.calls| ==> s.calls[d].src != r)
            && (s.calls[c].blocking && stage == Landed ==> Sizes(s) && HasLanded(s, c))
            && (stage == Told || (s.calls[c].blocking && stage == Landed) || t.hosts[r].Some?)
            && if stage == Told then t.hosts[r] == None && t.stored[r] == Some(c) && !s.calls[c].blocking
               else if s.calls[c].blocking && stage == Landed then t.hosts[r] == None && t.stored[r] == s.stored[r]
               else t.stored[r] == s.stored[r] && t.hosts[r].value.call == c && (HoldsEvent(t, r) <==> HoldsEvent(s, r))
  {
    CallInProgress(s, r);
    hide Logged, Causal, Placed;
  }

  lemma TargetStores(s: State, r: nat)
    requires Orderly(s) && Disciplined(s) && CanAdvance(s, r)
    requires s.hosts[r].value.stage !in {Begun, Waited, Copied}
    requires var t := AdvanceTarget(s, r); Sizes(t) && forall d :: 0 <= d < |s.calls| ==> (HasLanded(t, d) <==> HasLanded(s, d))
    ensures var t := AdvanceTarget(s, r); r < |t.hosts| && StoredOk(t, r)
  {
    TargetEffect(s, r);
    assert StoredOk(s, r);
    hide Orderly, Disciplined, CanAdvance, AdvanceTarget, HasLanded;
  }

  lemma AdvanceDisciplined(s: State, r: nat)
    requires Orderly(s) && Disciplined(s) && CanAdvance(s, r) && Careful(s, HostStep(r))
    ensures var t := Advance(s, r); Orderly(t) && Disciplined(t)
  {
    var c, t := s.hosts[r].value.call, Advance(s, r);
    AdvanceMoves(s, r);
    DisciplinedIsNoted(s);
    AdvanceOrderly(s, r);
    HostMovedSizes(s, t, r, c, |t.log| - |s.log|);
    HostMovedLandings(s, t, r, c, |t.log| - |s.log|);
    HostMovedElsewhere(s, t, r, c, |t.log| - |s.log|);
    HostMovedLater(s, t, r, c, |t.log| - |s.log|);
    hide Orderly, HostMoved, AdvanceSource, AdvanceTarget, HasLanded, Guarded, StoredOk, Careful, Spared, Later;
    if s.hosts[r].value.stage in {Begun, Waited, Copied} {
      SourceGuards(s, r);
      SourceStores(s, r);
    } else {
      TargetGuards(s, r);
      TargetStores(s, r);
    }
  }

  /** A host step moves no bytes. */
  lemma HostMovedFaithful(s: State, t: State, r: nat, c: nat, pushed: nat)
    requires Inv(s) && HostMoved(s, t, r, c, pushed)
    ensures Sizes(t) && CallsFit(t) && forall d :: 0 <= d < |t.calls| ==> Faithful(t, d)
  {
    HostMovedSizes(s, t, r, c, pushed);
    HostMovedLandings(s, t, r, c, pushed);
    forall d | 0 <= d < |t.calls|
      ensures Faithful(t, d)
    {
      assert Faithful(s, d) && Placed(s, d);
      assert ProgressAt(t, t.at[d].dtoh) == ProgressAt(s, s.at[d].dtoh);
      assert ProgressAt(t, t.at[d].htod) == ProgressAt(s, s.at[d].htod);
      hide HostMoved, Orderly, Placed, ProgressAt, HasLanded;
    }
  }

  // ----- Beginning a call, submitting other work -----

  lemma BeginSizes(s: State, k: Call)
    requires Orderly(s) && CanBegin(s, k)
    ensures var t := DoBegin(s, k); Sizes(t) && CallsFit(t)
    ensures var t := DoBegin(s, k); forall i :: 0 <= i < |s.log| ==> Cost(t.calls, t.log[i].op) == Cost(s.calls, s.log[i].op)
  {
    var t := DoBegin(s, k);
    hide Causal, Locked, Placed;
    forall i | 0 <= i < |s.log|
      ensures Cost(t.calls, t.log[i].op) == Cost(s.calls, s.log[i].op)
    {
      assert LoggedAt(s, i);
    }
  }

  lemma BeginOrderly(s: State, k: Call)
    requires Orderly(s) && CanBegin(s, k)
    ensures Orderly(DoBegin(s, k))
  {
    var t := DoBegin(s, k);
    BeginSizes(s, k);
    forall c | 0 <= c < |t.calls|
      ensures Placed(t, c)
    {
      if c < |s.calls| {
        assert Placed(s, c);
        assert StageOf(t, c) == StageOf(s, c);
      }
    }
    BeginOrder(s, k);
    hide Placed, Logged, Causal;
  }

  lemma BeginOrder(s: State, k: Call)
    requires Orderly(s) && CanBegin(s, k)
    ensures Sizes(DoBegin(s, k)) && Logged(DoBegin(s, k)) && Causal(DoBegin(s, k))
  {
    var t := DoBegin(s, k);
    BeginSizes(s, k);
    hide Placed, Locked, CallsFit;
    forall i | 0 <= i < |t.log|
      ensures LoggedAt(t, i) && (t.log[i].op.Wait? && Started(t, i) ==> Recorded(t, t.log[i].op.event))
    {
      assert LoggedAt(s, i);
    }
  }

  lemma BeginDisciplined(s: State, k: Call)
    requires Inv(s) && CanBegin(s, k)
    ensures Sizes(DoBegin(s, k)) && Disciplined(DoBegin(s, k))
  {
    var t, n := DoBegin(s, k), |s.calls|;
    BeginSizes(s, k);
    forall d | 0 <= d < n
      ensures HasLanded(t, d) <==> HasLanded(s, d)
      ensures StageOf(t, d) == StageOf(s, d)
    {
      assert Placed(s, d);
    }
    assert Later(s, t);
    forall d, e | 0 <= d < e < n && Spared(s, d, e)
      ensures Spared(t, d, e)
    {
      SparedStays(s, t, d, e);
    }
    hide HasLanded, CallsFit, Placed, Logged, Causal, Faithful, StoredOk, Spared, Later;
    assert forall d :: 0 <= d < n ==> Guarded(s, d);
    forall d | 0 <= d <= n
      ensures Guarded(t, d)
    {
      if d < n {
        assert Guarded(s, d);
      }
    }
    hide Guarded;
    forall r | 0 <= r < |t.hosts|
      ensures StoredOk(t, r)
    {
      assert StoredOk(s, r);
      BeginStores(s, k, r);
    }
  }

  lemma BeginStores(s: State, k: Call, r: nat)
    requires Sizes(s) && CanBegin(s, k) && Sizes(DoBegin(s, k)) && r < |s.hosts| && StoredOk(s, r)
    requires forall d :: 0 <= d < |s.calls| && HasLanded(s, d) ==> HasLanded(DoBegin(s, k), d)
    requires s.hosts[r].Some? ==> s.hosts[r].value.call < |s.calls|
    ensures StoredOk(DoBegin(s, k), r)
  {
    hide HasLanded, Sizes;
  }

  lemma BeginKeepsInv(s: State, k: Call)
    requires Inv(s) && CanBegin(s, k)
    ensures Inv(DoBegin(s, k))
  {
    var t := DoBegin(s, k);
    BeginOrderly(s, k);
    BeginDisciplined(s, k);
    forall d | 0 <= d < |t.calls|
      ensures Faithful(t, d)
    {
      if d < |s.calls| {
        assert Faithful(s, d) && Placed(s, d);
        assert HasLanded(t, d) <==> HasLanded(s, d);
        hide Orderly, Disciplined, Placed, HasLanded;
      }
    }
  }

  /** Work that is no part of a cross-rank call. */
  predicate IsPlain(op: Op) {
    op.Work? || (op.DtoD? && op.bytes > 0)
  }

  lemma SubmitOrderly(s: State, stream: nat, op: Op)
    requires Orderly(s) && IsPlain(op)
    ensures Orderly(Push(s, stream, op))
  {
    var t := Push(s, stream, op);
    forall c | 0 <= c < |t.calls|
      ensures Placed(t, c)
    {
      assert Placed(s, c);
      hide Locked, Logged, Causal;
    }
    SubmitOrder(s, stream, op);
    hide Placed, Causal, Logged, Finished, Started;
  }

  lemma SubmitKeepsInv(s: State, stream: nat, op: Op)
    requires Inv(s) && IsPlain(op)
    ensures Inv(Push(s, stream, op))
  {
    var t := Push(s, stream, op);
    SubmitOrderly(s, stream, op);
    forall c | 0 <= c < |t.calls|
      ensures (HasLanded(t, c) <==> HasLanded(s, c)) && Faithful(t, c)
    {
      assert Placed(s, c) && Faithful(s, c);
      hide Locked, Logged, Causal, Disciplined;
    }
    assert Later(s, t);
    hide Orderly, Faithful, HasLanded, Later;
    assert t.calls == s.calls && t.at == s.at && t.hosts == s.hosts && t.stored == s.stored;
    DisciplineCarries(s, t);
  }

  lemma SubmitOrder(s: State, stream: nat, op: Op)
    requires Orderly(s) && IsPlain(op)
    ensures var t := Push(s, stream, op); Sizes(t) && Logged(t) && Causal(t)
  {
    var t := Push(s, stream, op);
    hide Placed, Locked, CallsFit;
    forall i | 0 <= i < |t.log|
      ensures LoggedAt(t, i) && (t.log[i].op.Wait? && Started(t, i) ==> Recorded(t, t.log[i].op.event))
    {
      if i < |s.log| {
        assert LoggedAt(s, i);
      }
    }
  }
}
