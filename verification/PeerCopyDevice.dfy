/** One unit of work on a stream, or of anything else on a device, keeps the invariant. */
module PeerCopyDevice {
  import opened PeerCopy
  import opened PeerCopyInvariant

  // ----- Order -----

  /** `t` is `s` with one more unit of entry `i` done, whatever bytes that moved. */
  ghost predicate Ran(s: State, t: State, i: nat)
    requires i < |s.progress|
  {
    && t.calls == s.calls && t.at == s.at && t.log == s.log && t.hosts == s.hosts && t.stored == s.stored
    && t.progress == s.progress[i := s.progress[i] + 1]
    && |t.dev| == |s.dev| && |t.slab| == |s.slab| && |t.taken| == |s.taken| && |t.wrote| == |s.wrote|
    && (forall r :: 0 <= r < |s.dev| ==> |t.dev[r]| == |s.dev[r]|)
    && (forall r :: 0 <= r < |s.slab| ==> |t.slab[r]| == |s.slab[r]|)
  }

  lemma ExecuteRuns(s: State, i: nat)
    requires Sizes(s) && i < |s.log|
    ensures Ran(s, Execute(s, i), i)
  {
  }

  lemma RanPlaced(s: State, t: State, i: nat, d: nat)
    requires Orderly(s) && Executable(s, i) && Ran(s, t, i) && Sizes(t) && d < |t.calls|
    ensures Placed(t, d)
  {
    assert Placed(s, d);
    hide Logged, Causal, Locked, CallsFit;
  }

  lemma RanLogged(s: State, t: State, i: nat, j: nat)
    requires Orderly(s) && Executable(s, i) && Ran(s, t, i) && Sizes(t) && j < |t.log|
    ensures LoggedAt(t, j)
  {
    assert LoggedAt(s, j);
    hide Placed, Causal, Locked, CallsFit;
  }

  lemma RanCausal(s: State, t: State, i: nat)
    requires Orderly(s) && Executable(s, i) && Ran(s, t, i) && Sizes(t)
    ensures Causal(t)
  {
    hide Placed, Logged, Locked, CallsFit;
  }

  lemma RanFinishes(s: State, t: State, i: nat)
    requires Sizes(s) && Executable(s, i) && Ran(s, t, i) && Sizes(t)
    ensures forall j :: Finished(s, j) ==> Finished(t, j)
    ensures forall j :: j != i ==> (Finished(t, j) <==> Finished(s, j)) && (Started(t, j) <==> Started(s, j))
    ensures forall d :: 0 <= d < |t.calls| && HasLanded(s, d) ==> HasLanded(t, d)
  {
  }

  lemma RanOrderly(s: State, t: State, i: nat)
    requires Orderly(s) && Executable(s, i) && Ran(s, t, i)
    ensures Orderly(t)
    ensures forall j :: Finished(s, j) ==> Finished(t, j)
    ensures forall j :: j != i ==> (Finished(t, j) <==> Finished(s, j)) && (Started(t, j) <==> Started(s, j))
    ensures forall d :: 0 <= d < |t.calls| && HasLanded(s, d) ==> HasLanded(t, d)
  {
    assert Sizes(t) && CallsFit(t) && Locked(t) by {
      hide Placed, Logged, Causal;
    }
    RanCausal(s, t, i);
    RanFinishes(s, t, i);
    hide Causal, Locked, CallsFit, Sizes, Ran, Executable, Finished, Started, HasLanded;
    assert |t.calls| == |s.calls| && |t.log| == |s.log|;
    forall d | 0 <= d < |t.calls|
      ensures Placed(t, d)
    {
      RanPlaced(s, t, i, d);
    }
    forall j | 0 <= j < |t.log|
      ensures LoggedAt(t, j)
    {
      RanLogged(s, t, i, j);
    }
    hide Placed, LoggedAt;
  }

  lemma RanDisciplined(s: State, t: State, i: nat)
    requires Orderly(s) && Disciplined(s) && Executable(s, i) && Ran(s, t, i)
    ensures Orderly(t) && Disciplined(t)
  {
    RanOrderly(s, t, i);
    assert Later(s, t);
    hide Orderly, Disciplined, HasLanded, Later;
    DisciplineCarries(s, t);
  }

  // ----- Bytes -----

  /** While a DtoH runs, no bytes of another call wait in the part of the slab it still writes. */
  lemma SlabIsFree(s: State, t: State, i: nat, c: nat, d: nat)
    requires Inv(s) && Executable(s, i) && Ran(s, t, i) && s.log[i].op == DtoH(c)
    requires Orderly(t) && Disciplined(t)
    requires c < |s.calls| && d < |s.calls| && d != c && s.calls[d].src == s.calls[c].src
    ensures |s.taken[d]| <= |s.wrote[d]| || s.calls[c].bytes <= |s.wrote[d]|
  {
    assert LoggedAt(s, i) && Placed(s, d) && Placed(s, c);
    assert Faithful(s, d);
    if d < c {
      assert StartedAt(t, t.at[c].dtoh);
      TakesAfterEarlierLandings(t, d, c);
      assert ProgressAt(t, t.at[d].htod) == ProgressAt(s, s.at[d].htod);
    } else if s.taken[d] != [] {
      assert StartedAt(s, s.at[d].dtoh);
      TakesAfterEarlierLandings(s, c, d);
      LandsAfterTaking(s, c);
    }
  }

  /** A unit of another kind of work leaves a call's copies where they are. */
  lemma CopiesStand(s: State, t: State, i: nat, d: nat)
    requires Orderly(s) && i < |s.log| && Ran(s, t, i) && d < |s.calls| && Sizes(t)
    ensures s.log[i].op != DtoH(d) ==> ProgressAt(t, t.at[d].dtoh) == ProgressAt(s, s.at[d].dtoh)
    ensures s.log[i].op != HtoD(d) ==> ProgressAt(t, t.at[d].htod) == ProgressAt(s, s.at[d].htod)
    ensures s.log[i].op == DtoH(d) ==> ProgressAt(t, t.at[d].dtoh) == ProgressAt(s, s.at[d].dtoh) + 1 == s.progress[i] + 1
    ensures s.log[i].op == HtoD(d) ==> ProgressAt(t, t.at[d].htod) == ProgressAt(s, s.at[d].htod) + 1 == s.progress[i] + 1
  {
    assert Placed(s, d) && LoggedAt(s, i);
    hide Logged, Causal, Locked, CallsFit;
  }

  lemma DtoHKeepsBytes(s: State, i: nat, c: nat, d: nat)
    requires Inv(s) && Executable(s, i) && s.log[i].op == DtoH(c) && d < |s.calls|
    requires var t := Execute(s, i); Sizes(t) && CallsFit(t) && Ran(s, t, i) && Orderly(t) && Disciplined(t)
    ensures Faithful(Execute(s, i), d)
  {
    var t := Execute(s, i);
    assert LoggedAt(s, i);
    assert Faithful(s, c) && Faithful(s, d);
    CopiesStand(s, t, i, d);
    if d != c && s.calls[d].src == s.calls[c].src {
      SlabIsFree(s, t, i, c, d);
    }
    hide Orderly, Disciplined, HasLanded, ProgressAt, Placed, LoggedAt, Ran;
  }

  /** One more byte leaves the slab and arrives. */
  lemma OneDelivered(taken: seq<int>, wrote: seq<int>, slab: seq<int>, q: nat)
    requires |wrote| == q < |taken| <= |slab| && wrote == taken[..q] && taken[q..] == slab[q..|taken|]
    ensures wrote + [slab[q]] == taken[..q + 1] && taken[q + 1..] == slab[q + 1..|taken|]
  {
    assert slab[q] == slab[q..|taken|][0] == taken[q..][0] == taken[q];
    forall i | q < i < |taken|
      ensures taken[i] == slab[i]
    {
      assert taken[q..][i - q] == slab[q..|taken|][i - q];
    }
  }

  lemma OneArrived(dev: seq<int>, at: nat, wrote: seq<int>, byte: int)
    requires at + |wrote| < |dev| && wrote == dev[at..at + |wrote|]
    ensures wrote + [byte] == dev[at + |wrote| := byte][at..at + |wrote| + 1]
  {
  }

  lemma HtoDKeepsOwnBytes(s: State, i: nat, c: nat)
    requires Inv(s) && Executable(s, i) && s.log[i].op == HtoD(c) && c < |s.calls|
    requires var t := Execute(s, i); Sizes(t) && CallsFit(t) && Ran(s, t, i) && Orderly(t) && Disciplined(t)
    ensures Faithful(Execute(s, i), c)
  {
    var t, q := Execute(s, i), s.progress[i];
    assert LoggedAt(s, i);
    assert Faithful(s, c);
    assert StartedAt(t, t.at[c].htod);
    LandsAfterTaking(t, c);
    assert Placed(s, c);
    assert |s.taken[c]| == s.calls[c].bytes > q;
    var k := s.calls[c];
    hide Orderly, Disciplined, Placed, LoggedAt;
    assert t.wrote[c] == s.wrote[c] + [s.slab[k.src][q]] && t.taken == s.taken && t.slab == s.slab;
    OneDelivered(s.taken[c], s.wrote[c], s.slab[k.src], q);
    if c !in s.touched {
      OneArrived(s.dev[k.dst], k.dstAt, s.wrote[c], s.slab[k.src][q]);
    }
  }

  lemma HtoDKeepsOtherBytes(s: State, i: nat, c: nat, d: nat)
    requires Inv(s) && Executable(s, i) && s.log[i].op == HtoD(c) && d < |s.calls| && d != c && c < |s.calls|
    requires var t := Execute(s, i); Sizes(t) && CallsFit(t) && Ran(s, t, i) && Orderly(t) && Disciplined(t)
    ensures Faithful(Execute(s, i), d)
  {
    var t := Execute(s, i);
    assert LoggedAt(s, i) && Faithful(s, d) && Placed(s, d);
    assert ProgressAt(t, t.at[d].dtoh) == ProgressAt(s, s.at[d].dtoh);
    assert ProgressAt(t, t.at[d].htod) == ProgressAt(s, s.at[d].htod);
    assert HasLanded(t, d) <==> HasLanded(s, d);
    hide Orderly, Disciplined, HasLanded, ProgressAt, Placed, LoggedAt, Ran;
  }

  lemma OtherOpKeepsBytes(s: State, i: nat, d: nat)
    requires Inv(s) && Executable(s, i) && !s.log[i].op.DtoH? && !s.log[i].op.HtoD? && d < |s.calls|
    requires var t := Execute(s, i); Sizes(t) && CallsFit(t) && Ran(s, t, i) && Orderly(t) && Disciplined(t)
    ensures Faithful(Execute(s, i), d)
  {
    var t := Execute(s, i);
    assert Faithful(s, d) && Placed(s, d);
    assert ProgressAt(t, t.at[d].dtoh) == ProgressAt(s, s.at[d].dtoh);
    assert ProgressAt(t, t.at[d].htod) == ProgressAt(s, s.at[d].htod);
    assert HasLanded(t, d) <==> HasLanded(s, d);
    hide Orderly, Disciplined, HasLanded, ProgressAt, Placed, Ran;
  }

  lemma ExecuteKeepsInv(s: State, i: nat)
    requires Inv(s) && Executable(s, i)
    ensures Inv(Execute(s, i))
  {
    var t := Execute(s, i);
    ExecuteRuns(s, i);
    RanDisciplined(s, t, i);
    assert LoggedAt(s, i);
    hide Ran, Executable, Execute, Faithful, Disciplined;
    forall d | 0 <= d < |t.calls|
      ensures Faithful(t, d)
    {
      match s.log[i].op
      case DtoH(c) => DtoHKeepsBytes(s, i, c, d);
      case HtoD(c) => if d == c { HtoDKeepsOwnBytes(s, i, c); } else { HtoDKeepsOtherBytes(s, i, c, d); }
      case _ => OtherOpKeepsBytes(s, i, d);
    }
    hide Orderly;
  }

  lemma DisturbKeepsInv(s: State, r: nat, pos: nat, byte: int)
    requires Inv(s) && Enabled(s, Disturb(r, pos, byte))
    ensures Inv(Do(s, Disturb(r, pos, byte)))
  {
    var t := Do(s, Disturb(r, pos, byte));
    assert Orderly(t) && Disciplined(t) by {
      hide Faithful;
      DisturbOrderly(s, r, pos, byte);
      hide Placed, Logged, Causal, Locked, CallsFit;
      assert forall d :: 0 <= d < |t.calls| ==> (HasLanded(t, d) <==> HasLanded(s, d));
      assert Later(s, t);
      hide HasLanded, Orderly, Later;
      DisciplineCarries(s, t);
    }
    hide Orderly, Disciplined;
    forall d | 0 <= d < |t.calls|
      ensures Faithful(t, d)
    {
      assert Faithful(s, d);
      assert HasLanded(t, d) <==> HasLanded(s, d);
      hide HasLanded;
    }
  }

  lemma DisturbOrderly(s: State, r: nat, pos: nat, byte: int)
    requires Orderly(s) && Enabled(s, Disturb(r, pos, byte))
    ensures Orderly(Do(s, Disturb(r, pos, byte)))
  {
    var t := Do(s, Disturb(r, pos, byte));
    forall c | 0 <= c < |t.calls|
      ensures Placed(t, c)
    {
      assert Placed(s, c);
      hide Logged, Causal, Locked;
    }
    hide Placed;
    forall i | 0 <= i < |t.log|
      ensures LoggedAt(t, i)
    {
      assert LoggedAt(s, i);
      hide Causal, Locked;
    }
  }
}
