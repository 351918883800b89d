/** The host side of a peer copy: what one call does, in order, and that the transition system takes
    exactly these steps. */
module PeerCopyCluster {
  import opened Wrappers
  import opened PeerCopy

  datatype Action =
    | Enqueue(entry: Entry)
    | SyncStream(stream: nat)
    | SyncDevice(rank: nat)

  datatype CopyError = RankOutOfRange(src: nat, dst: nat, ranks: nat)

  /** The actions of cross-rank call `c`, when `prev` is the landing event stored for its source. */
  function Program(k: Call, c: nat, prev: Option<nat>): seq<Action> {
    if k.blocking then
      [Enqueue(Entry(k.src, DtoH(c))), SyncStream(k.src), Enqueue(Entry(k.dst, HtoD(c))), SyncStream(k.dst)]
    else
      (if prev.Some? then [Enqueue(Entry(k.src, Wait(Landing(prev.value))))] else [])
      + [Enqueue(Entry(k.src, DtoH(c))), Enqueue(Entry(k.src, Record(Bridge(c)))),
         Enqueue(Entry(k.dst, Wait(Bridge(c)))), Enqueue(Entry(k.dst, HtoD(c))), Enqueue(Entry(k.dst, Record(Landing(c))))]
      + (if k.consumer.Some? then [Enqueue(Entry(k.consumer.value, Wait(Landing(c))))] else [])
  }

  /** The slabs are reserved, so a call allocates nothing; HIP calls succeed. */
  class HipCluster {
    const ranks: nat
    /** The cross-rank calls so far. */
    var calls: seq<Call>
    /** What the host threads asked of HIP. */
    var trace: seq<Action>
    /** Per source rank: the call whose landing event is stored. */
    var events: seq<Option<nat>>

    ghost predicate Valid()
      reads this
    {
      && |events| == ranks
      && forall r :: 0 <= r < ranks && events[r].Some? ==>
           && events[r].value < |calls| && calls[events[r].value].src == r && !calls[events[r].value].blocking
    }

    constructor (ranks: nat)
      ensures Valid() && this.ranks == ranks && calls == [] && trace == []
      ensures forall r :: 0 <= r < ranks ==> events[r] == None
    {
      this.ranks := ranks;
      calls := [];
      trace := [];
      events := seq(ranks, _ => None);
    }

    method PeerCopyViaHostEvent(dst: nat, dstAt: nat, src: nat, srcAt: nat, bytes: nat, consumer: Option<nat>)
        returns (r: Result<(), CopyError>)
      requires Valid()
      modifies this
      ensures Valid()
      ensures r.Success? <==> bytes == 0 || (src < ranks && dst < ranks)
      ensures bytes == 0 || r.Failure? ==> calls == old(calls) && trace == old(trace) && events == old(events)
      ensures bytes > 0 && r.Success? && src == dst ==>
                && calls == old(calls) && events == old(events)
                && trace == old(trace) + [Enqueue(Entry(dst, DtoD(dst, srcAt, dstAt, bytes)))]
      ensures bytes > 0 && r.Success? && src != dst ==>
                var k := Call(src, srcAt, dst, dstAt, bytes, false, consumer);
                && calls == old(calls) + [k] && events == old(events)[src := Some(|old(calls)|)]
                && trace == old(trace) + Program(k, |old(calls)|, old(events)[src])
    {
      if bytes == 0 {
        return Success(());
      }
      if src >= ranks || dst >= ranks {
        return Failure(RankOutOfRange(src, dst, ranks));
      }
      if src == dst {
        trace := trace + [Enqueue(Entry(dst, DtoD(dst, srcAt, dstAt, bytes)))];
        return Success(());
      }
      var c := |calls|;
      calls := calls + [Call(src, srcAt, dst, dstAt, bytes, false, consumer)];
      var prev := events[src];
      events := events[src := None];
      if prev.Some? {
        trace := trace + [Enqueue(Entry(src, Wait(Landing(prev.value))))];
      }
      ghost var waited := trace;
      trace := trace + [Enqueue(Entry(src, DtoH(c)))];
      trace := trace + [Enqueue(Entry(src, Record(Bridge(c))))];
      trace := trace + [Enqueue(Entry(dst, Wait(Bridge(c))))];
      trace := trace + [Enqueue(Entry(dst, HtoD(c)))];
      trace := trace + [Enqueue(Entry(dst, Record(Landing(c))))];
      assert trace == waited + [Enqueue(Entry(src, DtoH(c))), Enqueue(Entry(src, Record(Bridge(c)))),
                                Enqueue(Entry(dst, Wait(Bridge(c)))), Enqueue(Entry(dst, HtoD(c))), Enqueue(Entry(dst, Record(Landing(c))))];
      if consumer.Some? {
        trace := trace + [Enqueue(Entry(consumer.value, Wait(Landing(c))))];
      }
      events := events[src := Some(c)];
      return Success(());
    }

    method PeerCopyViaHost(dst: nat, dstAt: nat, src: nat, srcAt: nat, bytes: nat) returns (r: Result<(), CopyError>)
      requires Valid()
      modifies this
      ensures Valid() && events == old(events)
      ensures r.Success? <==> bytes == 0 || (src < ranks && dst < ranks)
      ensures bytes == 0 || r.Failure? ==> calls == old(calls) && trace == old(trace)
      ensures bytes > 0 && r.Success? && src == dst ==>
                && calls == old(calls)
                && trace == old(trace) + [Enqueue(Entry(dst, DtoD(dst, srcAt, dstAt, bytes))), SyncDevice(dst)]
      ensures bytes > 0 && r.Success? && src != dst ==>
                var k := Call(src, srcAt, dst, dstAt, bytes, true, None);
                && calls == old(calls) + [k]
                && trace == old(trace) + Program(k, |old(calls)|, old(events)[src])
    {
      if bytes == 0 {
        return Success(());
      }
      if src >= ranks || dst >= ranks {
        return Failure(RankOutOfRange(src, dst, ranks));
      }
      if src == dst {
        trace := trace + [Enqueue(Entry(dst, DtoD(dst, srcAt, dstAt, bytes)))];
        trace := trace + [SyncDevice(dst)];
        return Success(());
      }
      var c := |calls|;
      calls := calls + [Call(src, srcAt, dst, dstAt, bytes, true, None)];
      trace := trace + [Enqueue(Entry(src, DtoH(c)))];
      trace := trace + [SyncStream(src)];
      trace := trace + [Enqueue(Entry(dst, HtoD(c)))];
      trace := trace + [SyncStream(dst)];
      return Success(());
    }
  }

  // ----- The transition system runs these programs -----

  function Next(k: Call, stage: Stage): Stage {
    match stage
    case Begun => if k.blocking then Copied else Waited
    case Waited => Copied
    case Copied => if k.blocking then Joined else Marked
    case Marked => Joined
    case Joined => Landed
    case Landed => if k.blocking then Returned else Noted
    case Noted => Told
    case Told => Returned
    case Returned => Returned
  }

  /** What is left of the program of call `c` at a stage. */
  function Rest(k: Call, c: nat, prev: Option<nat>, stage: Stage): seq<Action> {
    var program := Program(k, c, prev);
    if k.blocking then
      match stage
      case Begun => program
      case Waited => program[1..]
      case Copied => program[1..]
      case Marked => program[2..]
      case Joined => program[2..]
      case Landed => program[3..]
      case _ => []
    else
      var w := if prev.Some? then 1 else 0;
      match stage
      case Begun => program
      case Waited => program[w..]
      case Copied => program[w + 1..]
      case Marked => program[w + 2..]
      case Joined => program[w + 3..]
      case Landed => program[w + 4..]
      case Noted => program[w + 5..]
      case _ => []
  }

  function Enqueued(actions: seq<Action>): seq<Entry> {
    if actions == [] then []
    else (if actions[0].Enqueue? then [actions[0].entry] else []) + Enqueued(actions[1..])
  }

  /** The action, if any, with which a call leaves its stage. */
  function First(k: Call, c: nat, prev: Option<nat>, stage: Stage): seq<Action> {
    match stage
    case Begun =>
      if k.blocking then [Enqueue(Entry(k.src, DtoH(c)))]
      else if prev.Some? then [Enqueue(Entry(k.src, Wait(Landing(prev.value))))] else []
    case Waited => [Enqueue(Entry(k.src, DtoH(c)))]
    case Copied => if k.blocking then [SyncStream(k.src)] else [Enqueue(Entry(k.src, Record(Bridge(c))))]
    case Marked => [Enqueue(Entry(k.dst, Wait(Bridge(c))))]
    case Joined => [Enqueue(Entry(k.dst, HtoD(c)))]
    case Landed => if k.blocking then [SyncStream(k.dst)] else [Enqueue(Entry(k.dst, Record(Landing(c))))]
    case Noted => if k.consumer.Some? then [Enqueue(Entry(k.consumer.value, Wait(Landing(c))))] else []
    case _ => []
  }

  lemma BlockingRestSplits(k: Call, c: nat, prev: Option<nat>, stage: Stage)
    requires k.blocking && stage in {Begun, Copied, Joined, Landed}
    ensures Rest(k, c, prev, stage) == First(k, c, prev, stage) + Rest(k, c, prev, Next(k, stage))
  {
  }

  lemma TailSplits(program: seq<Action>, i: nat)
    requires i <= |program|
    ensures i < |program| ==> program[i..] == [program[i]] + program[i + 1..]
    ensures i == |program| ==> program[i..] == []
  {
  }

  /** The operations of an event call, one by one. */
  lemma EventProgram(k: Call, c: nat, prev: Option<nat>)
    requires !k.blocking
    ensures var p, w := Program(k, c, prev), if prev.Some? then 1 else 0;
            && |p| == w + 5 + (if k.consumer.Some? then 1 else 0)
            && (prev.Some? ==> [p[0]] == First(k, c, prev, Begun))
            && [p[w]] == First(k, c, prev, Waited) && [p[w + 1]] == First(k, c, prev, Copied)
            && [p[w + 2]] == First(k, c, prev, Marked) && [p[w + 3]] == First(k, c, prev, Joined)
            && [p[w + 4]] == First(k, c, prev, Landed) && (k.consumer.Some? ==> [p[w + 5]] == First(k, c, prev, Noted))
  {
  }

  lemma EventRestSplits(k: Call, c: nat, prev: Option<nat>, stage: Stage)
    requires !k.blocking && stage != Returned
    ensures Rest(k, c, prev, stage) == First(k, c, prev, stage) + Rest(k, c, prev, Next(k, stage))
  {
    EventProgram(k, c, prev);
    hide Program;
    var w := if prev.Some? then 1 else 0;
    TailSplits(Program(k, c, prev), if stage in {Begun, Told} then 0 else w + Rank(stage) - 1);
  }

  lemma RestSplits(k: Call, c: nat, prev: Option<nat>, stage: Stage)
    requires stage != Returned && (k.blocking ==> stage in {Begun, Copied, Joined, Landed})
    ensures Rest(k, c, prev, stage) == First(k, c, prev, stage) + Rest(k, c, prev, Next(k, stage))
  {
    if k.blocking {
      BlockingRestSplits(k, c, prev, stage);
    } else {
      EventRestSplits(k, c, prev, stage);
    }
  }

  lemma EnqueuedOne(act: seq<Action>)
    requires |act| <= 1
    ensures Enqueued(act) == if |act| == 1 && act[0].Enqueue? then [act[0].entry] else []
  {
    if |act| == 1 {
      assert act[1..] == [];
    }
  }

  /** Every host step of the transition system is the next action of the call's program: it can be
      taken exactly when a synchronisation there would return, it enqueues exactly that action's
      entry, and the stored event is taken by the wait and put back by the last step. */
  lemma AdvanceFollowsProgram(s: State, r: nat)
    requires InProgress(s, r)
    requires var InCall(c, stage) := s.hosts[r].value;
             s.calls[c].src == r && stage != Returned && (s.calls[c].blocking ==> stage in {Begun, Copied, Joined, Landed})
             && (stage == Begun ==> s.at[c].guard.None?)
    ensures var InCall(c, stage) := s.hosts[r].value;
            var k, prev, t := s.calls[c], if stage == Begun then s.stored[r] else s.at[c].guard, Advance(s, r);
            var act := First(k, c, prev, stage);
            && (CanAdvance(s, r) <==> (|act| == 1 && act[0].SyncStream? ==> Drained(s, act[0].stream)))
            && t.log == s.log + Enqueued(act)
            && t.hosts[r] == (if Next(k, stage) == Returned then None else Some(InCall(c, Next(k, stage))))
            && (!k.blocking && stage == Begun ==> t.at[c].guard == prev)
            && (stage != Begun ==> t.at[c].guard == s.at[c].guard)
            && t.stored == (if k.blocking then s.stored
                            else if stage == Begun then s.stored[r := None]
                            else if stage == Told then s.stored[r := Some(c)] else s.stored)
  {
    var InCall(c, stage) := s.hosts[r].value;
    EnqueuedOne(First(s.calls[c], c, if stage == Begun then s.stored[r] else s.at[c].guard, stage));
    hide Drained, Enqueued;
  }

  function HostSteps(r: nat, n: nat): seq<Step> {
    seq(n, _ => HostStep(r))
  }

  /** The host steps of a call change no memory and do no device work. */
  ghost predicate HostOnly(s: State, t: State) {
    && t.calls == s.calls && t.dev == s.dev && t.slab == s.slab && t.taken == s.taken && t.wrote == s.wrote
    && t.touched == s.touched && |t.at| == |s.at|
    && (|s.log| == |s.progress| ==>
          && |t.log| == |t.progress| && |s.progress| <= |t.progress|
          && (forall i :: 0 <= i < |s.progress| ==> t.progress[i] == s.progress[i])
          && (forall i :: |s.progress| <= i < |t.progress| ==> t.progress[i] == 0))
  }

  lemma EnqueuedJoins(a: seq<Action>, b: seq<Action>)
    ensures Enqueued(a + b) == Enqueued(a) + Enqueued(b)
  {
    if a != [] {
      assert (a + b)[0] == a[0] && (a + b)[1..] == a[1..] + b;
      EnqueuedJoins(a[1..], b);
    } else {
      assert a + b == b;
    }
  }

  lemma HostOnlyChains(s: State, t: State, u: State)
    requires HostOnly(s, t) && HostOnly(t, u)
    ensures HostOnly(s, u)
  {
  }

  lemma HostStepOnly(s: State, r: nat)
    requires InProgress(s, r)
    ensures HostOnly(s, Advance(s, r)) && |Advance(s, r).hosts| == |s.hosts| == |Advance(s, r).stored|
    ensures forall q :: 0 <= q < |s.hosts| && q != r ==> Advance(s, r).hosts[q] == s.hosts[q]
  {
  }

  /** A thread is in event call `c` from rank `r`, and `prev` is the event it took or will take. */
  ghost predicate InEventCall(s: State, r: nat, c: nat, stage: Stage, prev: Option<nat>) {
    && InProgress(s, r) && s.hosts[r].value == InCall(c, stage) && stage != Returned
    && s.calls[c].src == r && !s.calls[c].blocking
    && (stage == Begun ==> s.at[c].guard.None?)
    && prev == (if stage == Begun then s.stored[r] else s.at[c].guard)
  }

  lemma EventCallSteps(s: State, r: nat, c: nat, stage: Stage, prev: Option<nat>)
    requires InEventCall(s, r, c, stage, prev)
    ensures Enabled(s, HostStep(r)) && Careful(s, HostStep(r))
    ensures var t, k := Do(s, HostStep(r)), s.calls[c];
            && HostOnly(s, t) && |t.hosts| == |s.hosts| == |t.stored| == |s.stored| && r < |s.hosts|
            && t.log == s.log + Enqueued(First(k, c, prev, stage))
            && (Next(k, stage) != Returned ==> InEventCall(t, r, c, Next(k, stage), prev))
            && (Next(k, stage) == Returned ==> t.hosts[r] == None && t.stored[r] == Some(c))
            && forall q :: 0 <= q < |s.hosts| && q != r ==> t.hosts[q] == s.hosts[q] && t.stored[q] == s.stored[q]
  {
    AdvanceFollowsProgram(s, r);
    HostStepOnly(s, r);
    hide Rest, First, Program, Drained, Enqueued, Advance;
  }

  lemma NothingRests(k: Call, c: nat, prev: Option<nat>)
    ensures Enqueued(Rest(k, c, prev, Returned)) == []
  {
  }

  lemma EnqueuedRest(k: Call, c: nat, stage: Stage, prev: Option<nat>, before: seq<Entry>)
    requires stage != Returned && !k.blocking
    ensures before + Enqueued(First(k, c, prev, stage)) + Enqueued(Rest(k, c, prev, Next(k, stage)))
         == before + Enqueued(Rest(k, c, prev, stage))
    ensures Enqueued(Rest(k, c, prev, Returned)) == []
  {
    hide Rest, First, Program, Next, Enqueued;
    RestSplits(k, c, prev, stage);
    EnqueuedJoins(First(k, c, prev, stage), Rest(k, c, prev, Next(k, stage)));
    NothingRests(k, c, prev);
  }

  /** `t` is `s` after the host steps of call `c` on rank `r` that enqueue `entries`; the call is over. */
  ghost predicate CallEnded(s: State, t: State, r: nat, c: nat, entries: seq<Entry>) {
    && HostOnly(s, t) && t.log == s.log + entries
    && r < |s.hosts| == |s.stored| && t.hosts == s.hosts[r := None] && t.stored == s.stored[r := Some(c)]
  }

  lemma CallEndedChains(s: State, r: nat, c: nat, stage: Stage, prev: Option<nat>, u: State)
    requires InEventCall(s, r, c, stage, prev)
    requires var t := Do(s, HostStep(r));
             var next := Next(s.calls[c], stage);
             CallEnded(t, u, r, c, Enqueued(Rest(s.calls[c], c, prev, next))) || (next == Returned && u == t)
    ensures CallEnded(s, u, r, c, Enqueued(Rest(s.calls[c], c, prev, stage)))
  {
    var k, t := s.calls[c], Do(s, HostStep(r));
    assert stage != Returned && !k.blocking;
    hide Rest, Enqueued, Do, Enabled, Careful, InEventCall, First;
    EventCallSteps(s, r, c, stage, prev);
    EnqueuedRest(k, c, stage, prev, s.log);
    if !(u == t && Next(k, stage) == Returned) {
      HostOnlyChains(s, t, u);
    }
    hide HostOnly, Next;
    assert u.hosts[r] == None && u.stored[r] == Some(c);
  }

  /** An event call that nothing interrupts runs to its end without waiting for the devices and
      enqueues the rest of its program. */
  lemma {:induction false} EventCallRuns(s: State, r: nat, c: nat, stage: Stage, prev: Option<nat>)
    requires InEventCall(s, r, c, stage, prev)
    ensures var steps := HostSteps(r, 8 - Rank(stage));
            && IsCarefulRun(s, steps) && IsRun(s, steps)
            && CallEnded(s, Run(s, steps), r, c, Enqueued(Rest(s.calls[c], c, prev, stage)))
    decreases 8 - Rank(stage)
  {
    var t, next := Do(s, HostStep(r)), Next(s.calls[c], stage);
    var steps := HostSteps(r, 8 - Rank(stage));
    EventCallSteps(s, r, c, stage, prev);
    assert steps[0] == HostStep(r) && steps[1..] == HostSteps(r, 8 - Rank(next));
    RunUnfolds(s, steps);
    hide Run, IsRun, IsCarefulRun, Rest, Enqueued, Do, Enabled, Careful, CallEnded;
    if next == Returned {
      assert steps[1..] == [];
      RunEnds(t);
    } else {
      hide HostSteps;
      assert t.calls == s.calls;
      EventCallRuns(t, r, c, next, prev);
    }
    CallEndedChains(s, r, c, stage, prev, Run(s, steps));
  }

  lemma BegunEventCall(s: State, k: Call)
    requires CanBegin(s, k) && !k.blocking && |s.at| == |s.calls| && |s.stored| == |s.hosts|
    ensures InEventCall(DoBegin(s, k), k.src, |s.calls|, Begun, s.stored[k.src])
    ensures Careful(s, Begin(k))
  {
  }

  /** The steps of one thread that makes a whole event call. */
  function WholeCall(k: Call): seq<Step> {
    [Begin(k)] + HostSteps(k.src, 8)
  }

  /** A whole event call that no other thread interrupts is a run, and its log is what the method
      enqueues. */
  lemma UninterruptedEventCall(s: State, k: Call)
    requires CanBegin(s, k) && !k.blocking && |s.at| == |s.calls| && |s.stored| == |s.hosts|
    ensures IsCarefulRun(s, WholeCall(k)) && IsRun(s, WholeCall(k))
    ensures CallEnded(DoBegin(s, k), Run(s, WholeCall(k)), k.src, |s.calls|, Enqueued(Program(k, |s.calls|, s.stored[k.src])))
  {
    hide HostSteps, Run, IsRun, IsCarefulRun, CallEnded, Program, Enqueued, Rest;
    var c, t, steps := |s.calls|, DoBegin(s, k), WholeCall(k);
    assert steps[0] == Begin(k) && steps[1..] == HostSteps(k.src, 8);
    RunUnfolds(s, steps);
    BegunEventCall(s, k);
    EventCallRuns(t, k.src, c, Begun, s.stored[k.src]);
    RestIsWhole(k, c, s.stored[k.src]);
    hide InEventCall, Careful, WholeCall;
  }

  lemma RestIsWhole(k: Call, c: nat, prev: Option<nat>)
    ensures Rest(k, c, prev, Begun) == Program(k, c, prev)
  {
  }
}
