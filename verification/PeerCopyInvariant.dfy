/** What every step of the peer-copy system keeps. */
module PeerCopyInvariant {
  import opened Wrappers
  import opened PeerCopy

  // ----- The invariant -----

  ghost predicate Sizes(s: State) {
    && |s.at| == |s.calls| == |s.taken| == |s.wrote|
    && |s.log| == |s.progress|
    && |s.hosts| == |s.stored| == |s.dev| == |s.slab|
    && (forall i :: 0 <= i < |s.log| ==> s.progress[i] <= Cost(s.calls, s.log[i].op))
  }

  ghost predicate CallsFit(s: State)
    requires Sizes(s)
  {
    forall c :: 0 <= c < |s.calls| ==>
      var k := s.calls[c];
      && k.src < |s.hosts| && k.dst < |s.hosts| && k.src != k.dst && k.bytes > 0
      && k.bytes <= |s.slab[k.src]| && k.srcAt + k.bytes <= |s.dev[k.src]| && k.dstAt + k.bytes <= |s.dev[k.dst]|
  }

  function StageOf(s: State, c: nat): Stage
    requires c < |s.calls|
  {
    var r := s.calls[c].src;
    if r < |s.hosts| && s.hosts[r].Some? && s.hosts[r].value.call == c then s.hosts[r].value.stage else Returned
  }

  /** One call at a time holds a source's lock, and it is that source's latest. */
  ghost predicate Locked(s: State)
    requires Sizes(s)
  {
    forall r :: 0 <= r < |s.hosts| && s.hosts[r].Some? ==>
      var InCall(c, stage) := s.hosts[r].value;
      && c < |s.calls| && s.calls[c].src == r && stage != Returned
      && (s.calls[c].blocking ==> stage in {Begun, Copied, Joined, Landed})
      && (forall d :: c < d < |s.calls| ==> s.calls[d].src != r)
  }

  ghost predicate IsAt(s: State, place: Option<nat>, stream: nat, op: Op) {
    place.Some? ==> place.value < |s.log| && s.log[place.value] == Entry(stream, op)
  }

  predicate Before(a: Option<nat>, b: Option<nat>) {
    a.Some? && b.Some? ==> a.value < b.value
  }

  /** The operations of a call are in the log, in order, as far as its host thread has come. */
  ghost predicate Placed(s: State, c: nat)
    requires Sizes(s) && c < |s.calls|
  {
    var k, p, n := s.calls[c], s.at[c], Rank(StageOf(s, c));
    && (p.wait.Some? <==> p.guard.Some?)
    && (p.wait.Some? ==> IsAt(s, p.wait, k.src, Wait(Landing(p.guard.value))))
    && IsAt(s, p.dtoh, k.src, DtoH(c)) && IsAt(s, p.mark, k.src, Record(Bridge(c)))
    && IsAt(s, p.join, k.dst, Wait(Bridge(c))) && IsAt(s, p.htod, k.dst, HtoD(c))
    && IsAt(s, p.note, k.dst, Record(Landing(c)))
    && (p.tell.Some? ==> k.consumer.Some? && IsAt(s, p.tell, k.consumer.value, Wait(Landing(c))))
    && Before(p.wait, p.dtoh) && Before(p.dtoh, p.mark) && Before(p.mark, p.join) && Before(p.join, p.htod)
    && Before(p.htod, p.note) && Before(p.note, p.tell)
    && (p.dtoh.Some? <==> n >= 2) && (p.htod.Some? <==> n >= 5)
    && (k.blocking ==>
          && p.guard.None? && p.mark.None? && p.join.None? && p.note.None? && p.tell.None?
          && (n >= 4 ==> DoneAt(s, p.dtoh)) && (n >= 8 ==> DoneAt(s, p.htod)))
    && (!k.blocking ==>
          && (n < 1 ==> p.guard.None?) && (p.mark.Some? <==> n >= 3) && (p.join.Some? <==> n >= 4)
          && (p.note.Some? <==> n >= 6) && (p.tell.Some? <==> n >= 7 && k.consumer.Some?))
  }

  /** Copies in the log are the copies of their calls; a wait comes after the record it names. */
  ghost predicate LoggedAt(s: State, i: nat)
    requires Sizes(s) && i < |s.log|
  {
    match s.log[i].op
    case DtoH(c) => c < |s.calls| && s.at[c].dtoh == Some(i)
    case HtoD(c) => c < |s.calls| && s.at[c].htod == Some(i)
    case Wait(Bridge(c)) => c < |s.calls| && s.at[c].mark.Some? && s.at[c].mark.value < i
    case Wait(Landing(c)) => c < |s.calls| && s.at[c].note.Some? && s.at[c].note.value < i
    case DtoD(_, _, _, bytes) => bytes > 0
    case _ => true
  }

  ghost predicate Logged(s: State)
    requires Sizes(s)
  {
    forall i :: 0 <= i < |s.log| ==> LoggedAt(s, i)
  }

  /** Streams ran in order and waits were honoured. */
  ghost predicate Causal(s: State)
    requires Sizes(s)
  {
    && (forall i, j :: 0 <= j < i < |s.log| && s.log[j].stream == s.log[i].stream && Started(s, i) ==> Finished(s, j))
    && (forall i :: 0 <= i < |s.log| && s.log[i].op.Wait? && Started(s, i) ==> Recorded(s, s.log[i].op.event))
  }

  ghost predicate HasLanded(s: State, c: nat)
    requires Sizes(s) && c < |s.calls|
  {
    DoneAt(s, s.at[c].htod)
  }

  /** Every call from rank `r` with an id in the given interval, `but` excepted, has landed. */
  ghost predicate AllLanded(s: State, r: nat, from: int, to: int, but: int)
    requires Sizes(s)
  {
    forall d :: from <= d < to && 0 <= d < |s.calls| && d != but && s.calls[d].src == r ==> HasLanded(s, d)
  }

  /** The slab bytes of call `d` are out of reach of the DtoH of call `c`. */
  ghost predicate Spared(s: State, d: nat, c: nat)
    requires Sizes(s) && d < |s.calls| && c < |s.calls|
  {
    || HasLanded(s, d) || s.calls[c].bytes <= ProgressAt(s, s.at[d].htod)
    || (s.at[d].htod.Some? && s.at[c].dtoh.Some? && Behind(s, s.at[d].htod.value, s.at[c].dtoh.value))
  }

  /** A call that may touch the slab knows of a landing after which the slab is free, or spares the
      calls before it. */
  ghost predicate Guarded(s: State, c: nat)
    requires Sizes(s) && c < |s.calls|
  {
    var k, p := s.calls[c], s.at[c];
    if k.blocking then p.dtoh.Some? ==> forall d :: 0 <= d < c && s.calls[d].src == k.src ==> Spared(s, d, c)
    else if Rank(StageOf(s, c)) < 1 then true
    else if p.guard.None? then AllLanded(s, k.src, 0, c, -1)
    else
      var g := p.guard.value;
      g < c && s.calls[g].src == k.src && !s.calls[g].blocking && AllLanded(s, k.src, g + 1, c, -1)
  }

  /** The call in progress has taken the stored event and not yet stored its own. */
  predicate HoldsEvent(s: State, r: nat)
    requires r < |s.hosts|
  {
    && s.hosts[r].Some? && s.hosts[r].value.call < |s.calls|
    && !s.calls[s.hosts[r].value.call].blocking && Rank(s.hosts[r].value.stage) >= 1
  }

  /** The stored event is the landing of the last event call; anything later has landed. */
  ghost predicate StoredOk(s: State, r: nat)
    requires Sizes(s) && r < |s.hosts|
  {
    var current: int := if s.hosts[r].Some? then s.hosts[r].value.call else -1;
    if HoldsEvent(s, r) then s.stored[r].None?
    else if s.stored[r].None? then AllLanded(s, r, 0, |s.calls|, current)
    else
      var g := s.stored[r].value;
      && g < |s.calls| && g != current && s.calls[g].src == r && !s.calls[g].blocking
      && AllLanded(s, r, g + 1, |s.calls|, current)
  }

  /** A stored event has been recorded on its stream. */
  ghost predicate StoredNoted(s: State) {
    forall r :: 0 <= r < |s.stored| && s.stored[r].Some? ==>
      s.stored[r].value < |s.at| && s.at[s.stored[r].value].note.Some?
  }

  /** What the bytes of a call are worth. */
  ghost predicate Faithful(s: State, c: nat)
    requires Sizes(s) && CallsFit(s) && c < |s.calls|
  {
    var k := s.calls[c];
    && |s.taken[c]| == ProgressAt(s, s.at[c].dtoh) <= k.bytes
    && |s.wrote[c]| == ProgressAt(s, s.at[c].htod) <= |s.taken[c]|
    && s.wrote[c] == s.taken[c][..|s.wrote[c]|]
    && s.taken[c][|s.wrote[c]|..] == s.slab[k.src][|s.wrote[c]|..|s.taken[c]|]
    && (c !in s.touched ==> s.wrote[c] == s.dev[k.dst][k.dstAt..k.dstAt + |s.wrote[c]|])
  }

  /** The part of the invariant that is about order. */
  ghost predicate Orderly(s: State) {
    && Sizes(s) && CallsFit(s) && Locked(s) && Logged(s) && Causal(s)
    && (forall c :: 0 <= c < |s.calls| ==> Placed(s, c))
  }

  ghost predicate Disciplined(s: State)
    requires Sizes(s)
  {
    && (forall c :: 0 <= c < |s.calls| ==> Guarded(s, c))
    && (forall r :: 0 <= r < |s.hosts| ==> StoredOk(s, r))
  }

  ghost predicate Inv(s: State) {
    && Orderly(s) && Disciplined(s)
    && (forall c :: 0 <= c < |s.calls| ==> Faithful(s, c))
  }

  // ----- Consequences -----

  /** A call's HtoD starts only after its DtoH has finished. */
  lemma LandsAfterTaking(s: State, c: nat)
    requires Orderly(s) && c < |s.calls| && StartedAt(s, s.at[c].htod)
    ensures DoneAt(s, s.at[c].dtoh)
  {
    assert Placed(s, c);
    var p := s.at[c];
    if !s.calls[c].blocking {
      assert Finished(s, p.join.value);
      assert Recorded(s, Bridge(c));
      assert Finished(s, p.dtoh.value);
    }
  }

  /** What waits for an entry starts after it has finished. */
  lemma {:induction false} StartsBehind(s: State, i: nat, j: nat)
    requires Orderly(s) && Behind(s, i, j) && Started(s, j)
    ensures Finished(s, i)
    decreases j
  {
    var k :| 0 <= k < j && Edge(s, k, j) && (k == i || Behind(s, i, k));
    assert LoggedAt(s, j) && LoggedAt(s, k);
    assert Finished(s, k);
    if k != i {
      assert Started(s, k);
      StartsBehind(s, i, k);
    }
  }

  /** A DtoH starts only after every earlier call from its rank has landed, or at least read what a
      blocking copy is about to overwrite. */
  lemma {:induction false} TakesAfterEarlierLandings(s: State, d: nat, c: nat)
    requires Orderly(s) && Disciplined(s) && d < c < |s.calls| && s.calls[d].src == s.calls[c].src
    requires StartedAt(s, s.at[c].dtoh)
    ensures HasLanded(s, d) || (s.calls[c].blocking && s.calls[c].bytes <= ProgressAt(s, s.at[d].htod))
    decreases c
  {
    assert Placed(s, c) && Guarded(s, c);
    var p := s.at[c];
    if s.calls[c].blocking {
      assert Spared(s, d, c);
      if s.at[d].htod.Some? && Behind(s, s.at[d].htod.value, p.dtoh.value) {
        StartsBehind(s, s.at[d].htod.value, p.dtoh.value);
      }
    } else if p.guard.Some? && d <= p.guard.value {
      var g := p.guard.value;
      assert Finished(s, p.wait.value);
      assert Recorded(s, Landing(g));
      assert Placed(s, g);
      assert Finished(s, s.at[g].htod.value);
      if d < g {
        LandsAfterTaking(s, g);
        TakesAfterEarlierLandings(s, d, g);
      }
    }
  }

  lemma LandedMeansTaken(s: State, c: nat)
    requires Orderly(s) && CallsFit(s) && c < |s.calls| && HasLanded(s, c)
    ensures DoneAt(s, s.at[c].dtoh)
  {
    assert Placed(s, c);
    assert StartedAt(s, s.at[c].htod);
    LandsAfterTaking(s, c);
  }

  lemma DisciplinedIsNoted(s: State)
    requires Orderly(s) && Disciplined(s)
    ensures StoredNoted(s)
  {
    forall r | 0 <= r < |s.stored| && s.stored[r].Some?
      ensures s.stored[r].value < |s.at| && s.at[s.stored[r].value].note.Some?
    {
      assert StoredOk(s, r);
      assert Placed(s, s.stored[r].value);
      hide Logged, Causal, AllLanded;
    }
  }

  // ----- What only grows -----

  predicate Keeps(p: Option<nat>, q: Option<nat>) {
    p.Some? ==> q == p
  }

  /** `t` comes after `s`: entries, places and progress were added, none taken back. */
  ghost predicate Later(s: State, t: State) {
    && s.calls <= t.calls && s.log <= t.log && |s.at| <= |t.at| && |s.progress| <= |t.progress|
    && (forall i :: 0 <= i < |s.progress| ==> s.progress[i] <= t.progress[i])
    && (forall c :: 0 <= c < |s.at| ==>
          && Keeps(s.at[c].dtoh, t.at[c].dtoh) && Keeps(s.at[c].htod, t.at[c].htod)
          && Keeps(s.at[c].mark, t.at[c].mark) && Keeps(s.at[c].note, t.at[c].note) && Keeps(s.at[c].tell, t.at[c].tell))
  }

  /** The order of entries once logged never changes. */
  lemma {:induction false} BehindStays(s: State, t: State, i: nat, j: nat)
    requires Orderly(s) && Later(s, t) && j < |s.log|
    ensures Behind(s, i, j) <==> Behind(t, i, j)
    decreases j
  {
    forall k | 0 <= k < j
      ensures Edge(s, k, j) <==> Edge(t, k, j)
      ensures Behind(s, i, k) <==> Behind(t, i, k)
    {
      assert LoggedAt(s, j);
      BehindStays(s, t, i, k);
    }
  }

  lemma LandingStays(s: State, t: State, d: nat)
    requires Orderly(s) && Later(s, t) && Sizes(t) && d < |s.calls|
    ensures HasLanded(s, d) ==> HasLanded(t, d)
    ensures ProgressAt(s, s.at[d].htod) <= ProgressAt(t, t.at[d].htod)
  {
    assert Placed(s, d);
  }

  lemma SparedStays(s: State, t: State, d: nat, c: nat)
    requires Orderly(s) && Later(s, t) && Sizes(t) && d < |s.calls| && c < |s.calls| && Spared(s, d, c)
    ensures Spared(t, d, c)
  {
    LandingStays(s, t, d);
    if s.at[d].htod.Some? && s.at[c].dtoh.Some? && Behind(s, s.at[d].htod.value, s.at[c].dtoh.value) {
      assert Placed(s, c);
      BehindStays(s, t, s.at[d].htod.value, s.at[c].dtoh.value);
    }
  }

  /** The discipline speaks of host threads, landings and order only. */
  lemma DisciplineCarries(s: State, t: State)
    requires Orderly(s) && Sizes(t) && Disciplined(s) && Later(s, t)
    requires t.calls == s.calls && t.at == s.at && t.hosts == s.hosts && t.stored == s.stored
    ensures Disciplined(t)
  {
    forall d | 0 <= d < |s.calls|
      ensures HasLanded(s, d) ==> HasLanded(t, d)
    {
      LandingStays(s, t, d);
    }
    forall d, c | 0 <= d < c < |s.calls| && Spared(s, d, c)
      ensures Spared(t, d, c)
    {
      SparedStays(s, t, d, c);
    }
    hide HasLanded, Sizes, Spared, Later, Orderly;
    forall d | 0 <= d < |t.calls|
      ensures Guarded(t, d)
    {
      assert Guarded(s, d);
    }
    forall r | 0 <= r < |t.hosts|
      ensures StoredOk(t, r)
    {
      assert StoredOk(s, r);
    }
  }
}
