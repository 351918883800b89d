/** Which of two enqueued operations can overtake the other. */
module PeerCopyOrder {
  import opened PeerCopy
  import opened PeerCopyInvariant
  import opened PeerCopyDevice
  import opened PeerCopyTheorems

  ghost predicate DevicesOnly(steps: seq<Step>) {
    forall k :: 0 <= k < |steps| ==> steps[k].Device?
  }

  /** `t` is `s` after device work. */
  ghost predicate SameLog(s: State, t: State) {
    && t.calls == s.calls && t.at == s.at && t.log == s.log && t.hosts == s.hosts && t.stored == s.stored
    && |t.progress| == |s.progress|
  }

  lemma {:induction false} BehindIsEarlier(s: State, i: nat, j: nat)
    requires Behind(s, i, j)
    ensures i < j < |s.log|
    decreases j
  {
    var k :| 0 <= k < j && Edge(s, k, j) && (k == i || Behind(s, i, k));
    if k != i {
      BehindIsEarlier(s, i, k);
    }
  }

  lemma {:induction false} EdgeThenBehind(s: State, i: nat, k: nat, j: nat)
    requires Edge(s, i, k) && Behind(s, k, j)
    ensures Behind(s, i, j)
    decreases j
  {
    var l :| 0 <= l < j && Edge(s, l, j) && (l == k || Behind(s, k, l));
    if l == k {
      assert Behind(s, i, k);
    } else {
      EdgeThenBehind(s, i, k, l);
    }
  }

  lemma {:induction false} SameOrder(s: State, t: State, i: nat, j: nat)
    requires SameLog(s, t)
    ensures Behind(s, i, j) <==> Behind(t, i, j)
    decreases j
  {
    forall k | 0 <= k < j
      ensures Edge(s, k, j) <==> Edge(t, k, j)
      ensures Behind(s, i, k) <==> Behind(t, i, k)
    {
      SameOrder(s, t, i, k);
    }
  }

  // ----- Running one entry -----

  /** Nothing entry `i` waits for is unfinished. */
  ghost predicate Ready(s: State, i: nat) {
    i < |s.log| && forall k :: 0 <= k < i && Edge(s, k, i) ==> Finished(s, k)
  }

  lemma ReadyRuns(s: State, i: nat)
    requires Orderly(s) && Ready(s, i) && s.progress[i] < Cost(s.calls, s.log[i].op)
    ensures Executable(s, i)
  {
    assert LoggedAt(s, i);
    forall j | 0 <= j < i && s.log[j].stream == s.log[i].stream
      ensures Finished(s, j)
    {
      assert Edge(s, j, i);
    }
    if s.log[i].op.Wait? {
      assert Edge(s, RecordPlace(s, s.log[i].op.event).value, i);
    }
  }

  function Units(i: nat, m: nat): seq<Step> {
    seq(m, _ => Device(i))
  }

  /** `t` is `s` after `m` units of entry `i`, which may run on. */
  ghost predicate UnitsDone(s: State, t: State, i: nat, m: nat) {
    && Orderly(t) && SameLog(s, t) && Ready(t, i)
    && i < |s.progress| && t.progress == s.progress[i := s.progress[i] + m]
  }

  lemma UnitRuns(s: State, i: nat)
    requires Orderly(s) && Ready(s, i) && s.progress[i] < Cost(s.calls, s.log[i].op)
    ensures Executable(s, i) && UnitsDone(s, Execute(s, i), i, 1)
  {
    ReadyRuns(s, i);
    ExecuteRuns(s, i);
    var t := Execute(s, i);
    RanOrderly(s, t, i);
    hide Orderly, Execute;
    forall k | 0 <= k < i && Edge(t, k, i)
      ensures Finished(t, k)
    {
      assert Edge(s, k, i);
    }
  }

  lemma UnitsChain(s: State, t: State, u: State, i: nat, m: nat)
    requires UnitsDone(s, t, i, 1) && UnitsDone(t, u, i, m)
    ensures UnitsDone(s, u, i, m + 1)
  {
    hide Orderly, Ready;
  }

  /** An entry that is ready can be run on its own, as far as one likes. */
  lemma {:induction false} UnitsRun(s: State, i: nat, m: nat)
    requires Orderly(s) && Ready(s, i) && s.progress[i] + m <= Cost(s.calls, s.log[i].op)
    ensures IsRun(s, Units(i, m)) && UnitsDone(s, Run(s, Units(i, m)), i, m)
    decreases m
  {
    if m == 0 {
      RunEnds(s);
      hide Orderly, Run, IsRun, Ready;
    } else {
      UnitRuns(s, i);
      var t := Execute(s, i);
      assert Units(i, m)[0] == Device(i) && Units(i, m)[1..] == Units(i, m - 1);
      RunUnfolds(s, Units(i, m));
      assert Do(s, Device(i)) == t && Enabled(s, Device(i));
      hide Orderly, Execute, Executable, Ready, Run, IsRun, Units, Do, Enabled, Careful, Cost;
      UnitsRun(t, i, m - 1);
      hide UnitsDone;
      UnitsChain(s, t, Run(t, Units(i, m - 1)), i, m - 1);
    }
  }

  // ----- Running what an entry waits for -----

  /** `t` is `s` with everything below `m` that entry `n` waits for finished, and nothing else done. */
  ghost predicate Cleared(s: State, t: State, n: nat, m: nat)
    requires Orderly(s) && n < |s.log|
  {
    && Orderly(t) && SameLog(s, t)
    && forall i :: 0 <= i < |s.log| ==>
         t.progress[i] == if i < m && Behind(s, i, n) then Cost(s.calls, s.log[i].op) else s.progress[i]
  }

  lemma ClearOneMore(s: State, t: State, u: State, n: nat, i: nat)
    requires Orderly(s) && i < n < |s.log| && Behind(s, i, n) && Cleared(s, t, n, i)
    requires t.progress[i] <= Cost(s.calls, s.log[i].op) && UnitsDone(t, u, i, Cost(s.calls, s.log[i].op) - t.progress[i])
    ensures Cleared(s, u, n, i + 1)
  {
    assert |s.progress| == |s.log|;
    hide Orderly, Ready, Behind;
  }

  lemma ClearNext(s: State, n: nat, i: nat, before: seq<Step>) returns (steps: seq<Step>)
    requires Orderly(s) && i < n < |s.log| && Behind(s, i, n)
    requires DevicesOnly(before) && IsRun(s, before) && Cleared(s, Run(s, before), n, i)
    ensures DevicesOnly(steps) && IsRun(s, steps) && Cleared(s, Run(s, steps), n, i + 1)
  {
    var t := Run(s, before);
    ClearedIsReady(s, t, n, i);
    var more := Units(i, Cost(s.calls, s.log[i].op) - t.progress[i]);
    hide IsRun, Run, Behind, Orderly, Ready, Cost;
    UnitsRun(t, i, |more|);
    RunConcat(s, before, more);
    ClearOneMore(s, t, Run(t, more), n, i);
    steps := before + more;
  }

  lemma {:induction false} Clear(s: State, n: nat, m: nat) returns (steps: seq<Step>)
    requires Orderly(s) && m <= n < |s.log|
    ensures DevicesOnly(steps) && IsRun(s, steps) && Cleared(s, Run(s, steps), n, m)
  {
    if m == 0 {
      steps := [];
    } else {
      var i := m - 1;
      steps := Clear(s, n, i);
      if Behind(s, i, n) {
        steps := ClearNext(s, n, i, steps);
      }
    }
  }

  lemma ClearedIsReady(s: State, t: State, n: nat, i: nat)
    requires Orderly(s) && n < |s.log| && i < |s.log| && Cleared(s, t, n, i) && (Behind(s, i, n) || i == n)
    ensures Ready(t, i) && t.progress[i] == s.progress[i] <= Cost(s.calls, s.log[i].op)
  {
    forall k | 0 <= k < i && Edge(t, k, i)
      ensures Finished(t, k)
    {
      assert Edge(s, k, i);
      if i == n {
        assert Behind(s, k, n);
      } else {
        EdgeThenBehind(s, k, i, n);
      }
    }
    hide Behind;
  }

  // ----- Overtaking -----

  /** While entry `h` is unfinished and entry `n` not started, the devices can start `n` before `h`
      finishes exactly when `n` does not wait for `h`, directly or through others. */
  lemma OvertakesIff(s: State, h: nat, n: nat)
    requires Orderly(s) && h < |s.log| && n < |s.log| && h != n && !Finished(s, h) && !Started(s, n)
    ensures (exists steps :: DevicesOnly(steps) && IsRun(s, steps) && Started(Run(s, steps), n) && !Finished(Run(s, steps), h))
            <==> !Behind(s, h, n)
  {
    if Behind(s, h, n) {
      forall steps | DevicesOnly(steps) && IsRun(s, steps) && Started(Run(s, steps), n)
        ensures Finished(Run(s, steps), h)
      {
        DevicesKeepLog(s, steps);
        SameOrder(s, Run(s, steps), h, n);
        StartsBehind(Run(s, steps), h, n);
      }
    } else {
      var steps := Clear(s, n, n);
      var t := Run(s, steps);
      ClearedIsReady(s, t, n, n);
      assert LoggedAt(s, n);
      UnitsRun(t, n, 1);
      RunConcat(s, steps, Units(n, 1));
      assert DevicesOnly(steps + Units(n, 1));
      hide Orderly, Ready, Behind;
      assert Started(Run(s, steps + Units(n, 1)), n) && !Finished(Run(s, steps + Units(n, 1)), h);
    }
  }

  lemma {:induction false} DevicesKeepLog(s: State, steps: seq<Step>)
    requires Orderly(s) && DevicesOnly(steps) && IsRun(s, steps)
    ensures Orderly(Run(s, steps)) && SameLog(s, Run(s, steps))
    decreases |steps|
  {
    if steps != [] {
      ExecuteRuns(s, steps[0].entry);
      RanOrderly(s, Execute(s, steps[0].entry), steps[0].entry);
      hide Orderly, Execute, Executable;
      DevicesKeepLog(Do(s, steps[0]), steps[1..]);
    }
  }
}
