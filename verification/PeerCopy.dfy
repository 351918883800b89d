/** Peer copies through pinned host memory, as a transition system.

    Host threads enqueue operations on streams; every stream runs its operations in order, one
    unit at a time, whenever it likes. A copy advances byte by byte, so copies on different
    streams may be half done at the same moment. All streams share one log of what was enqueued:
    the queue of a stream is the unfinished part of its entries. */
module PeerCopy {
  import opened Wrappers

  /** A cross-rank copy. `blocking` is `peer_copy_via_host`, otherwise it is
      `peer_copy_via_host_event`, which may name a stream that is to see the data. */
  datatype Call = Call(src: nat, srcAt: nat, dst: nat, dstAt: nat, bytes: nat, blocking: bool, consumer: Option<nat>)

  datatype Event = Bridge(call: nat) | Landing(call: nat)

  datatype Op =
    | DtoH(call: nat)
    | HtoD(call: nat)
    | Record(event: Event)
    | Wait(event: Event)
    | DtoD(rank: nat, from: nat, to: nat, bytes: nat)
    | Work

  /** Stream `r` is the default stream of rank `r`; higher numbers are other streams. */
  datatype Entry = Entry(stream: nat, op: Op)

  /** How far the host thread inside a call has come. */
  datatype Stage = Begun | Waited | Copied | Marked | Joined | Landed | Noted | Told | Returned

  function Rank(stage: Stage): nat {
    match stage
    case Begun => 0 case Waited => 1 case Copied => 2 case Marked => 3 case Joined => 4
    case Landed => 5 case Noted => 6 case Told => 7 case Returned => 8
  }

  datatype InCall = InCall(call: nat, stage: Stage)

  /** Where in the log the operations of a call went; `guard` is the earlier call whose landing
      event it took. */
  datatype Places = Places(guard: Option<nat>, wait: Option<nat>, dtoh: Option<nat>, mark: Option<nat>,
                           join: Option<nat>, htod: Option<nat>, note: Option<nat>, tell: Option<nat>)

  const NOWHERE := Places(None, None, None, None, None, None, None, None)

  datatype State = State(
    calls: seq<Call>,
    at: seq<Places>,
    log: seq<Entry>,
    progress: seq<nat>,
    /** Per source rank: who holds `peer_copy_lock`. */
    hosts: seq<Option<InCall>>,
    /** Per source rank: the call whose landing event is stored. */
    stored: seq<Option<nat>>,
    dev: seq<seq<int>>,
    slab: seq<seq<int>>,
    /** Per call: the bytes its DtoH read, and the bytes its HtoD wrote. */
    taken: seq<seq<int>>,
    wrote: seq<seq<int>>,
    /** Calls whose landed bytes something wrote over. */
    touched: set<nat>)

  /** Nothing enqueued; `slab` is what `reserve_bounce_capacity` left behind. */
  ghost predicate Initial(s: State) {
    && s.calls == [] && s.at == [] && s.log == [] && s.progress == [] && s.taken == [] && s.wrote == [] && s.touched == {}
    && |s.hosts| == |s.stored| == |s.dev| == |s.slab|
    && (forall r :: 0 <= r < |s.hosts| ==> s.hosts[r] == None && s.stored[r] == None)
  }

  // ----- Streams -----

  function Cost(calls: seq<Call>, op: Op): nat {
    match op
    case DtoH(c) => if c < |calls| then calls[c].bytes else 1
    case HtoD(c) => if c < |calls| then calls[c].bytes else 1
    case DtoD(_, _, _, bytes) => bytes
    case _ => 1
  }

  ghost predicate Finished(s: State, i: int) {
    0 <= i < |s.log| && i < |s.progress| && s.progress[i] == Cost(s.calls, s.log[i].op)
  }

  ghost predicate Started(s: State, i: int) {
    0 <= i < |s.log| && i < |s.progress| && s.progress[i] > 0
  }

  ghost predicate DoneAt(s: State, place: Option<nat>) {
    place.Some? && Finished(s, place.value)
  }

  ghost predicate StartedAt(s: State, place: Option<nat>) {
    place.Some? && Started(s, place.value)
  }

  ghost predicate Recorded(s: State, e: Event) {
    e.call < |s.at| && DoneAt(s, if e.Bridge? then s.at[e.call].mark else s.at[e.call].note)
  }

  /** Every operation enqueued on `stream` so far has finished: what `hipStreamSynchronize` waits for. */
  ghost predicate Drained(s: State, stream: nat) {
    forall i :: 0 <= i < |s.log| && s.log[i].stream == stream ==> Finished(s, i)
  }

  /** Entry `i` heads its stream and may run. */
  ghost predicate Executable(s: State, i: int) {
    && 0 <= i < |s.log| == |s.progress|
    && s.progress[i] < Cost(s.calls, s.log[i].op)
    && (forall j :: 0 <= j < i && s.log[j].stream == s.log[i].stream ==> Finished(s, j))
    && (s.log[i].op.Wait? ==> Recorded(s, s.log[i].op.event))
  }

  // ----- What comes before what -----

  /** Where an event was recorded. */
  function RecordPlace(s: State, e: Event): Option<nat> {
    if e.call >= |s.at| then None else if e.Bridge? then s.at[e.call].mark else s.at[e.call].note
  }

  /** Entry `j` waits for entry `k` directly: it follows on the same stream, or waits for its event. */
  ghost predicate Edge(s: State, k: nat, j: nat) {
    && k < j < |s.log|
    && (s.log[k].stream == s.log[j].stream || (s.log[j].op.Wait? && RecordPlace(s, s.log[j].op.event) == Some(k)))
  }

  /** Entry `j` waits for entry `i`, perhaps through others. */
  ghost predicate Behind(s: State, i: nat, j: nat)
    decreases j
  {
    exists k :: 0 <= k < j && Edge(s, k, j) && (k == i || Behind(s, i, k))
  }

  /** What is enqueued next on `stream` will wait for entry `i`. */
  ghost predicate StreamBehind(s: State, i: nat, stream: nat) {
    exists k :: 0 <= k < |s.log| && s.log[k].stream == stream && (k == i || Behind(s, i, k))
  }

  function ProgressAt(s: State, place: Option<nat>): nat {
    if place.Some? && place.value < |s.progress| then s.progress[place.value] else 0
  }

  // ----- Host steps -----

  function Push(s: State, stream: nat, op: Op): State {
    s.(log := s.log + [Entry(stream, op)], progress := s.progress + [0])
  }

  ghost predicate CanBegin(s: State, c: Call) {
    && c.src < |s.hosts| && c.dst < |s.hosts| && c.src != c.dst && c.bytes > 0
    && s.hosts[c.src] == None
    && |s.dev| == |s.slab| == |s.hosts|
    && c.bytes <= |s.slab[c.src]|
    && c.srcAt + c.bytes <= |s.dev[c.src]| && c.dstAt + c.bytes <= |s.dev[c.dst]|
  }

  /** A thread takes the source's lock. */
  function DoBegin(s: State, c: Call): State
    requires c.src < |s.hosts|
  {
    s.(calls := s.calls + [c], at := s.at + [NOWHERE], taken := s.taken + [[]], wrote := s.wrote + [[]],
       hosts := s.hosts[c.src := Some(InCall(|s.calls|, Begun))])
  }

  /** A thread is inside a call from rank `r`. */
  predicate InProgress(s: State, r: nat) {
    && r < |s.hosts| == |s.stored| && s.hosts[r].Some?
    && s.hosts[r].value.call < |s.calls| == |s.at|
  }

  /** What the next host step of the call in progress on rank `r` waits for. */
  ghost predicate CanAdvance(s: State, r: nat) {
    && InProgress(s, r)
    && var InCall(c, stage) := s.hosts[r].value;
       stage != Returned
       && (s.calls[c].blocking && stage == Copied ==> Drained(s, r))
       && (s.calls[c].blocking && stage == Landed ==> Drained(s, s.calls[c].dst))
  }

  function Enter(s: State, r: nat, c: nat, stage: Stage, places: Places): State
    requires r < |s.hosts| && c < |s.at|
  {
    s.(hosts := s.hosts[r := if stage == Returned then None else Some(InCall(c, stage))], at := s.at[c := places])
  }

  /** Up to the DtoH and its event: operations on the source's default stream. */
  function AdvanceSource(s: State, r: nat): State
    requires InProgress(s, r)
  {
    var InCall(c, stage) := s.hosts[r].value;
    var call, p, n := s.calls[c], s.at[c], |s.log|;
    match stage
    case Begun =>
      if call.blocking then Push(Enter(s, r, c, Copied, p.(dtoh := Some(n))), r, DtoH(c))
      else if s.stored[r].None? then Enter(s, r, c, Waited, p)
      else Push(Enter(s.(stored := s.stored[r := None]), r, c, Waited, p.(guard := s.stored[r], wait := Some(n))),
                r, Wait(Landing(s.stored[r].value)))
    case Waited => Push(Enter(s, r, c, Copied, p.(dtoh := Some(n))), r, DtoH(c))
    case Copied =>
      if call.blocking then Enter(s, r, c, Joined, p)
      else Push(Enter(s, r, c, Marked, p.(mark := Some(n))), r, Record(Bridge(c)))
    case _ => s
  }

  /** From the destination's wait to the end of the call. */
  function AdvanceTarget(s: State, r: nat): State
    requires InProgress(s, r)
  {
    var InCall(c, stage) := s.hosts[r].value;
    var call, p, n := s.calls[c], s.at[c], |s.log|;
    match stage
    case Marked => Push(Enter(s, r, c, Joined, p.(join := Some(n))), call.dst, Wait(Bridge(c)))
    case Joined => Push(Enter(s, r, c, Landed, p.(htod := Some(n))), call.dst, HtoD(c))
    case Landed =>
      if call.blocking then Enter(s, r, c, Returned, p)
      else Push(Enter(s, r, c, Noted, p.(note := Some(n))), call.dst, Record(Landing(c)))
    case Noted =>
      if call.consumer.None? then Enter(s, r, c, Told, p)
      else Push(Enter(s, r, c, Told, p.(tell := Some(n))), call.consumer.value, Wait(Landing(c)))
    case Told => Enter(s.(stored := s.stored[r := Some(c)]), r, c, Returned, p)
    case _ => s
  }

  /** The next host step of the call in progress on rank `r`: one operation of the source's
      `peer_copy_via_host_event` or `peer_copy_via_host`. */
  function Advance(s: State, r: nat): State
    requires InProgress(s, r)
  {
    if s.hosts[r].value.stage in {Begun, Waited, Copied} then AdvanceSource(s, r) else AdvanceTarget(s, r)
  }

  // ----- Device steps -----

  /** The calls that already landed a byte at `pos` of rank `rank`. */
  function Hit(s: State, rank: nat, pos: nat): set<nat> {
    set c: nat | c < |s.calls| && c < |s.wrote| && s.calls[c].dst == rank
                 && s.calls[c].dstAt <= pos < s.calls[c].dstAt + |s.wrote[c]|
  }

  /** One more unit of entry `i`. */
  function Execute(s: State, i: nat): State {
    if i >= |s.log| || i >= |s.progress| then s else
    var s1 := s.(progress := s.progress[i := s.progress[i] + 1]);
    var q := s.progress[i];
    match s.log[i].op
    case DtoH(c) =>
      if !(c < |s.calls| && c < |s.taken|) then s1 else
      var call := s.calls[c];
      if !(call.src < |s.dev| && call.src < |s.slab| && q < |s.slab[call.src]| && call.srcAt + q < |s.dev[call.src]|) then s1 else
      var byte := s.dev[call.src][call.srcAt + q];
      s1.(slab := s.slab[call.src := s.slab[call.src][q := byte]], taken := s.taken[c := s.taken[c] + [byte]])
    case HtoD(c) =>
      if !(c < |s.calls| && c < |s.wrote|) then s1 else
      var call := s.calls[c];
      if !(call.src < |s.slab| && call.dst < |s.dev| && q < |s.slab[call.src]| && call.dstAt + q < |s.dev[call.dst]|) then s1 else
      var byte := s.slab[call.src][q];
      s1.(dev := s.dev[call.dst := s.dev[call.dst][call.dstAt + q := byte]], wrote := s.wrote[c := s.wrote[c] + [byte]],
          touched := s.touched + Hit(s, call.dst, call.dstAt + q))
    case DtoD(r, from, to, bytes) =>
      if !(r < |s.dev| && from + q < |s.dev[r]| && to + q < |s.dev[r]|) then s1 else
      s1.(dev := s.dev[r := s.dev[r][to + q := s.dev[r][from + q]]], touched := s.touched + Hit(s, r, to + q))
    case _ => s1
  }

  // ----- Steps and runs -----

  datatype Step =
    | Begin(call: Call)
    | HostStep(rank: nat)
    /** A copy within one rank: `call.consumer` is not looked at. */
    | Within(call: Call)
    /** Any other work a thread puts on a stream. */
    | Submit(stream: nat)
    | Device(entry: nat)
    /** Kernels and other copies change device memory: one byte at a time. */
    | Disturb(rank: nat, pos: nat, byte: int)

  ghost predicate Enabled(s: State, step: Step) {
    match step
    case Begin(call) => CanBegin(s, call)
    case HostStep(r) => CanAdvance(s, r)
    case Within(call) => call.src == call.dst < |s.hosts| && call.bytes > 0
    case Submit(_) => true
    case Device(i) => Executable(s, i)
    case Disturb(r, pos, _) => r < |s.dev| && pos < |s.dev[r]|
  }

  function WithinOp(call: Call): Op {
    DtoD(call.dst, call.srcAt, call.dstAt, call.bytes)
  }

  function Do(s: State, step: Step): State {
    match step
    case Begin(call) => if call.src < |s.hosts| then DoBegin(s, call) else s
    case HostStep(r) =>
      if InProgress(s, r) then Advance(s, r) else s
    case Within(call) => Push(s, call.dst, WithinOp(call))
    case Submit(stream) => Push(s, stream, Work)
    case Device(i) => Execute(s, i)
    case Disturb(r, pos, byte) =>
      if r < |s.dev| && pos < |s.dev[r]|
      then s.(dev := s.dev[r := s.dev[r][pos := byte]], touched := s.touched + Hit(s, r, pos)) else s
  }

  /** The slab bytes of call `d` are out of reach of a DtoH of `bytes` bytes enqueued next on `stream`:
      they have landed, or are read beyond its end, or it will wait for them. */
  ghost predicate SparedNext(s: State, d: nat, bytes: nat, stream: nat) {
    d < |s.at| ==>
      var h := s.at[d].htod;
      DoneAt(s, h) || bytes <= ProgressAt(s, h) || (h.Some? && StreamBehind(s, h.value, stream))
  }

  /** A blocking copy enqueues its DtoH only when it spares every earlier copy from the same rank. The
      blocking path itself never looks at the stored event. */
  ghost predicate Careful(s: State, step: Step) {
    step.HostStep? && CanAdvance(s, step.rank) ==>
      var InCall(c, stage) := s.hosts[step.rank].value;
      s.calls[c].blocking && stage == Begun ==>
        forall d :: 0 <= d < c && s.calls[d].src == step.rank ==> SparedNext(s, d, s.calls[c].bytes, step.rank)
  }

  function Run(s: State, steps: seq<Step>): State
    decreases |steps|
  {
    if steps == [] then s else Run(Do(s, steps[0]), steps[1..])
  }

  ghost predicate IsRun(s: State, steps: seq<Step>)
    decreases |steps|
  {
    steps != [] ==> Enabled(s, steps[0]) && IsRun(Do(s, steps[0]), steps[1..])
  }

  ghost predicate IsCarefulRun(s: State, steps: seq<Step>)
    decreases |steps|
  {
    steps != [] ==> Enabled(s, steps[0]) && Careful(s, steps[0]) && IsCarefulRun(Do(s, steps[0]), steps[1..])
  }

  lemma RunUnfolds(s: State, steps: seq<Step>)
    requires steps != []
    ensures Run(s, steps) == Run(Do(s, steps[0]), steps[1..])
    ensures IsRun(s, steps) <==> Enabled(s, steps[0]) && IsRun(Do(s, steps[0]), steps[1..])
    ensures IsCarefulRun(s, steps) <==> Enabled(s, steps[0]) && Careful(s, steps[0]) && IsCarefulRun(Do(s, steps[0]), steps[1..])
  {
  }

  lemma RunEnds(s: State)
    ensures Run(s, []) == s && IsRun(s, []) && IsCarefulRun(s, [])
  {
  }

  lemma {:induction false} RunConcat(s: State, a: seq<Step>, b: seq<Step>)
    ensures Run(s, a + b) == Run(Run(s, a), b)
    ensures IsRun(s, a + b) <==> IsRun(s, a) && IsRun(Run(s, a), b)
    ensures IsCarefulRun(s, a + b) <==> IsCarefulRun(s, a) && IsCarefulRun(Run(s, a), b)
    decreases |a|
  {
    if a == [] {
      assert a + b == b;
    } else {
      assert (a + b)[0] == a[0] && (a + b)[1..] == a[1..] + b;
      hide Do, Enabled, Careful;
      RunConcat(Do(s, a[0]), a[1..], b);
    }
  }

  lemma RunOfOne(s: State, step: Step)
    ensures Run(s, [step]) == Do(s, step)
    ensures IsRun(s, [step]) <==> Enabled(s, step)
    ensures IsCarefulRun(s, [step]) <==> Enabled(s, step) && Careful(s, step)
  {
    hide Do, Enabled, Careful;
    assert [step][1..] == [];
    RunEnds(Do(s, step));
    RunUnfolds(s, [step]);
  }
}
