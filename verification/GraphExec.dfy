/** Capture of a command program into an executable graph, and the slot updates applied to the
    graph between replays. The HIP driver is modelled by what the source's comments state of it:
    nodes come back in dispatch order, parameters are copied by value when a launch is captured
    and again, through every pointer of the array, when a node's parameters are set. */
module GraphExec {
  import opened Wrappers
  import opened GraphCapture

  /** The bytes of host memory that argument pointers lead to, at one moment. */
  type HostMemory = nat -> int

  // ----- Programs and graphs -----

  /** What a capture closure may enqueue. The two raw forms bypass the recorder. */
  datatype Command =
    | Launch(meta: nat, args: Args, host: HostMemory)
    | LaunchRaw(meta: nat, values: seq<int>)
    | Memcpy(params: CopyParams, slot: Option<MemcpySlot>)
    | MemcpyRaw(params: CopyParams)
    | OtherOp(op: nat)

  /** Launches take their arguments from a `KernelArgs`. */
  ghost predicate WellFormed(commands: seq<Command>) {
    forall i :: 0 <= i < |commands| && commands[i].Launch? ==> WellTagged(|commands[i].args.ptrs|, commands[i].args.tagged)
  }

  /** `meta` stands for the function, grid, block and shared memory of a launch. */
  datatype Node =
    | KernelNode(meta: nat, args: seq<int>)
    | MemcpyNode(params: CopyParams)
    | OtherNode(op: nat)

  /** Values chosen for slots: what a caller wants a replay to use. */
  datatype Env = Env(scalars: map<ScalarSlot, int>, dsts: map<MemcpySlot, nat>)

  const UNCHANGED := Env(map[], map[])

  /** Zero-byte copies are neither issued nor recorded. */
  predicate IsIssued(c: Command) {
    c.Memcpy? || c.MemcpyRaw? ==> c.params.count > 0
  }

  function Issued(program: seq<Command>): (r: seq<Command>)
    ensures forall i :: 0 <= i < |r| ==> IsIssued(r[i]) && r[i] in program
  {
    if program == [] then []
    else Issued(program[..|program| - 1]) + if IsIssued(program[|program| - 1]) then [program[|program| - 1]] else []
  }

  /** The slot tagged on argument `k`, if any. */
  function SlotAt(tagged: seq<(ScalarSlot, nat)>, k: nat): Option<ScalarSlot> {
    if tagged == [] then None
    else if tagged[0].1 == k then Some(tagged[0].0)
    else SlotAt(tagged[1..], k)
  }

  function ArgValue(args: Args, host: HostMemory, env: Env, k: nat): int
    requires k < |args.ptrs|
  {
    var s := SlotAt(args.tagged, k);
    if s.Some? && s.value in env.scalars then env.scalars[s.value] else host(args.ptrs[k])
  }

  /** The work one issued command stands for when the slots have the values of `env`. */
  function NodeOf(c: Command, env: Env): Node {
    match c
    case Launch(meta, args, host) =>
      KernelNode(meta, seq(|args.ptrs|, k requires 0 <= k < |args.ptrs| => ArgValue(args, host, env, k)))
    case LaunchRaw(meta, values) => KernelNode(meta, values)
    case Memcpy(params, slot) =>
      MemcpyNode(if slot.Some? && slot.value in env.dsts then params.(dst := env.dsts[slot.value]) else params)
    case MemcpyRaw(params) => MemcpyNode(params)
    case OtherOp(op) => OtherNode(op)
  }

  function Nodes(issued: seq<Command>, env: Env): seq<Node> {
    seq(|issued|, h requires 0 <= h < |issued| => NodeOf(issued[h], env))
  }

  // ----- The two buckets -----

  predicate IsKernel(c: Command) {
    c.Launch? || c.LaunchRaw?
  }

  predicate IsCopy(c: Command) {
    c.Memcpy? || c.MemcpyRaw?
  }

  function KernelHandles(issued: seq<Command>): seq<nat> {
    if issued == [] then []
    else
      var n := |issued| - 1;
      KernelHandles(issued[..n]) + if IsKernel(issued[n]) then [n] else []
  }

  function CopyHandles(issued: seq<Command>): seq<nat> {
    if issued == [] then []
    else
      var n := |issued| - 1;
      CopyHandles(issued[..n]) + if IsCopy(issued[n]) then [n] else []
  }

  function LaunchRecords(issued: seq<Command>): seq<LaunchRecord> {
    if issued == [] then []
    else
      var c := issued[|issued| - 1];
      LaunchRecords(issued[..|issued| - 1]) + if c.Launch? then [LaunchRecord(|c.args.ptrs|, c.args.tagged)] else []
  }

  function MemcpyRecords(issued: seq<Command>): seq<MemcpyRecord> {
    if issued == [] then []
    else
      var c := issued[|issued| - 1];
      MemcpyRecords(issued[..|issued| - 1]) + if c.Memcpy? then [MemcpyRecord(c.slot, c.params)] else []
  }

  // ----- The driver's stream -----

  /** What was enqueued: the nodes of a graph during a capture, work to be done otherwise. */
  class HipStream {
    var graph: seq<Node>

    constructor ()
      ensures graph == []
    {
      graph := [];
    }

    method Append(node: Node)
      modifies this
      ensures graph == old(graph) + [node]
    {
      graph := graph + [node];
    }
  }

  /** The recorder after a launch, and after copies: outside a capture it stays closed. */
  function WithLaunch(state: Option<CaptureState>, launch: LaunchRecord): Option<CaptureState> {
    if state.None? then None else Some(state.value.(launches := state.value.launches + [launch]))
  }

  function WithCopies(state: Option<CaptureState>, memcpys: seq<MemcpyRecord>): Option<CaptureState> {
    if state.None? then None else Some(state.value.(memcpys := state.value.memcpys + memcpys))
  }

  /** `HipKernel::launch`: record, then submit. The driver reads every argument pointer now. */
  method LaunchKernel(recorder: Recorder, stream: HipStream, meta: nat, args: Args, host: HostMemory)
    modifies recorder, stream
    ensures stream.graph == old(stream.graph) + [NodeOf(Launch(meta, args, host), UNCHANGED)]
    ensures var node := stream.graph[|old(stream.graph)|];
            && node.KernelNode? && node.meta == meta && |node.args| == |args.ptrs|
            && forall k :: 0 <= k < |args.ptrs| ==> node.args[k] == host(args.ptrs[k])
    ensures recorder.state == WithLaunch(old(recorder.state), LaunchRecord(|args.ptrs|, args.tagged))
  {
    recorder.RecordLaunch(|args.ptrs|, args.tagged);
    var values := seq(|args.ptrs|, k requires 0 <= k < |args.ptrs| => host(args.ptrs[k]));
    assert values == NodeOf(Launch(meta, args, host), UNCHANGED).args;
    stream.Append(KernelNode(meta, values));
  }

  /** `memcpy_async` and `memcpy_async_slot`. */
  method MemcpyAsync(recorder: Recorder, stream: HipStream, params: CopyParams, slot: Option<MemcpySlot>)
    modifies recorder, stream
    ensures params.count == 0 ==> stream.graph == old(stream.graph) && recorder.state == old(recorder.state)
    ensures params.count > 0 ==>
              && stream.graph == old(stream.graph) + [MemcpyNode(params)]
              && recorder.state == WithCopies(old(recorder.state), [MemcpyRecord(slot, params)])
  {
    if params.count == 0 {
      return;
    }
    recorder.RecordMemcpy(slot, params);
    stream.Append(MemcpyNode(params));
  }

  /** `collect_nodes_by_type`: two buckets of handles, each in dispatch order. */
  method CollectNodesByType(graph: seq<Node>, ghost issued: seq<Command>) returns (kernels: seq<nat>, copies: seq<nat>)
    requires graph == Nodes(issued, UNCHANGED)
    ensures kernels == KernelHandles(issued) && copies == CopyHandles(issued)
  {
    kernels, copies := [], [];
    for h := 0 to |graph|
      invariant kernels == KernelHandles(issued[..h]) && copies == CopyHandles(issued[..h])
    {
      assert issued[..h + 1][..h] == issued[..h];
      match graph[h]
      case KernelNode(_, _) => kernels := kernels + [h];
      case MemcpyNode(_) => copies := copies + [h];
      case OtherNode(_) =>
    }
    assert issued[..|graph|] == issued;
  }

  // ----- The executable graph -----

  /** An entry of a `kernelParams` array: into the driver's copy of the captured arguments, or
      into host memory. */
  datatype Ptr = Staging(handle: nat, arg: nat) | Host(addr: nat)

  datatype NodeShadow = NodeShadow(ptrs: seq<Ptr>, meta: nat)

  datatype ExecState = ExecState(
    captured: seq<Node>,
    ops: seq<Node>,
    kernelNodes: seq<nat>,
    memcpyNodes: seq<nat>,
    slotMap: SlotMap,
    nodeShadows: seq<NodeShadow>,
    memcpyShadows: seq<CopyParams>)

  /** The shadow of kernel node `n`: pointers only where a slot is bound and the driver exposes
      its parameter array. */
  function InitialShadow(h: nat, c: Command, exposed: bool): NodeShadow
    requires c.Launch?
  {
    NodeShadow(if c.args.tagged != [] && exposed then seq(|c.args.ptrs|, k requires 0 <= k => Staging(h, k)) else [], c.meta)
  }

  ghost predicate RecordsMatch(issued: seq<Command>) {
    && |LaunchRecords(issued)| == |KernelHandles(issued)|
    && |MemcpyRecords(issued)| == |CopyHandles(issued)|
  }

  /** The exec just captured from the issued commands. `exposed` says for which nodes the driver
      hands out its parameter array. */
  ghost predicate JustCaptured(e: ExecState, issued: seq<Command>, exposed: nat -> bool) {
    && RecordsMatch(issued)
    && e.captured == e.ops == Nodes(issued, UNCHANGED)
    && e.kernelNodes == KernelHandles(issued)
    && e.memcpyNodes == CopyHandles(issued)
    && HoldsExactly(e.slotMap, LaunchRecords(issued), MemcpyRecords(issued))
    && |e.nodeShadows| == |e.kernelNodes|
    && |e.memcpyShadows| == |e.memcpyNodes|
    && (forall n :: 0 <= n < |e.kernelNodes| ==>
          && e.kernelNodes[n] < |issued|
          && issued[e.kernelNodes[n]].Launch?
          && e.nodeShadows[n] == InitialShadow(e.kernelNodes[n], issued[e.kernelNodes[n]], exposed(e.kernelNodes[n])))
    && (forall n :: 0 <= n < |e.memcpyNodes| ==>
          && e.memcpyNodes[n] < |issued|
          && issued[e.memcpyNodes[n]].Memcpy?
          && e.memcpyShadows[n] == issued[e.memcpyNodes[n]].params)
  }

  /** Both buckets zip with their records: if the counts match, the n-th record was made by the
      very command behind the n-th node of its kind, however the two kinds interleave. */
  lemma {:induction false} BucketsZip(issued: seq<Command>)
    ensures |LaunchRecords(issued)| <= |KernelHandles(issued)|
    ensures |MemcpyRecords(issued)| <= |CopyHandles(issued)|
    ensures forall n :: 0 <= n < |KernelHandles(issued)| ==> KernelHandles(issued)[n] < |issued|
    ensures forall n :: 0 <= n < |CopyHandles(issued)| ==> CopyHandles(issued)[n] < |issued|
    ensures |LaunchRecords(issued)| == |KernelHandles(issued)| ==>
              forall n :: 0 <= n < |KernelHandles(issued)| ==>
                var c := issued[KernelHandles(issued)[n]];
                c.Launch? && LaunchRecords(issued)[n] == LaunchRecord(|c.args.ptrs|, c.args.tagged)
    ensures |MemcpyRecords(issued)| == |CopyHandles(issued)| ==>
              forall n :: 0 <= n < |CopyHandles(issued)| ==>
                var c := issued[CopyHandles(issued)[n]];
                c.Memcpy? && MemcpyRecords(issued)[n] == MemcpyRecord(c.slot, c.params)
  {
    if issued != [] {
      BucketsZip(issued[..|issued| - 1]);
    }
  }

  lemma {:induction false} RecordsAreFew(issued: seq<Command>)
    ensures |LaunchRecords(issued)| <= |KernelHandles(issued)|
    ensures |MemcpyRecords(issued)| <= |CopyHandles(issued)|
    ensures issued != [] ==>
              var rest, c := issued[..|issued| - 1], issued[|issued| - 1];
              && |LaunchRecords(issued)| == |LaunchRecords(rest)| + (if c.Launch? then 1 else 0)
              && |KernelHandles(issued)| == |KernelHandles(rest)| + (if IsKernel(c) then 1 else 0)
              && |MemcpyRecords(issued)| == |MemcpyRecords(rest)| + (if c.Memcpy? then 1 else 0)
              && |CopyHandles(issued)| == |CopyHandles(rest)| + (if IsCopy(c) then 1 else 0)
  {
    if issued != [] {
      RecordsAreFew(issued[..|issued| - 1]);
    }
  }

  ghost predicate NothingBypassed(issued: seq<Command>) {
    forall i :: 0 <= i < |issued| ==> !issued[i].LaunchRaw? && !issued[i].MemcpyRaw?
  }

  /** The counts match exactly when nothing bypassed the recorder. */
  lemma {:induction false} RecordsMatchIff(issued: seq<Command>)
    ensures RecordsMatch(issued) <==> NothingBypassed(issued)
  {
    if issued != [] {
      hide LaunchRecords, KernelHandles, MemcpyRecords, CopyHandles;
      var n := |issued| - 1;
      var rest := issued[..n];
      RecordsMatchIff(rest);
      RecordsAreFew(rest);
      RecordsAreFew(issued);
      assert issued == rest + [issued[n]];
      assert NothingBypassed(issued) <==> NothingBypassed(rest) && !issued[n].LaunchRaw? && !issued[n].MemcpyRaw?;
    }
  }

  datatype CaptureError = ClosureFailed | BadSlotMap(why: SlotMapError)

  datatype SetOutcome = Updated | NotBound | Panicked

  /** What a stored pointer leads to. */
  function Deref(captured: seq<Node>, host: HostMemory, p: Ptr): int {
    match p
    case Host(addr) => host(addr)
    case Staging(h, k) =>
      if h < |captured| && captured[h].KernelNode? && k < |captured[h].args| then captured[h].args[k] else 0
  }

  function DerefAll(captured: seq<Node>, host: HostMemory, ptrs: seq<Ptr>): seq<int> {
    seq(|ptrs|, k requires 0 <= k < |ptrs| => Deref(captured, host, ptrs[k]))
  }

  /** Every index the updates use is inside its vector. */
  predicate InRange(e: ExecState) {
    && |e.nodeShadows| == |e.kernelNodes| && |e.memcpyShadows| == |e.memcpyNodes|
    && |e.ops| == |e.captured|
    && (forall n :: 0 <= n < |e.kernelNodes| ==> e.kernelNodes[n] < |e.ops|)
    && (forall n :: 0 <= n < |e.memcpyNodes| ==> e.memcpyNodes[n] < |e.ops|)
    && (forall s :: s in e.slotMap.entries ==> e.slotMap.entries[s].node < |e.kernelNodes|)
    && (forall s :: s in e.slotMap.memcpyEntries ==> e.slotMap.memcpyEntries[s].node < |e.memcpyNodes|)
  }

  function SetSlotOutcome(e: ExecState, slot: ScalarSlot): SetOutcome
    requires InRange(e)
  {
    if slot !in e.slotMap.entries then NotBound
    else
      var b := e.slotMap.entries[slot];
      if b.arg < |e.nodeShadows[b.node].ptrs| then Updated else Panicked
  }

  function SetSlotState(e: ExecState, slot: ScalarSlot, addr: nat, host: HostMemory): ExecState
    requires InRange(e)
  {
    if SetSlotOutcome(e, slot) != Updated then e
    else
      var b := e.slotMap.entries[slot];
      var shadow := e.nodeShadows[b.node];
      var ptrs := shadow.ptrs[b.arg := Host(addr)];
      e.(nodeShadows := e.nodeShadows[b.node := shadow.(ptrs := ptrs)],
         ops := e.ops[e.kernelNodes[b.node] := KernelNode(shadow.meta, DerefAll(e.captured, host, ptrs))])
  }

  function SetMemcpySlotState(e: ExecState, slot: MemcpySlot, dst: nat): ExecState
    requires InRange(e)
  {
    if slot !in e.slotMap.memcpyEntries then e
    else
      var n := e.slotMap.memcpyEntries[slot].node;
      var shadow := e.memcpyShadows[n].(dst := dst);
      e.(memcpyShadows := e.memcpyShadows[n := shadow],
         ops := e.ops[e.memcpyNodes[n] := MemcpyNode(shadow)])
  }

  class HipGraphExec {
    const captured: seq<Node>
    const kernelNodes: seq<nat>
    const memcpyNodes: seq<nat>
    const slotMap: SlotMap
    var ops: seq<Node>
    var nodeShadows: seq<NodeShadow>
    var memcpyShadows: seq<CopyParams>

    ghost function State(): ExecState
      reads this
    {
      ExecState(captured, ops, kernelNodes, memcpyNodes, slotMap, nodeShadows, memcpyShadows)
    }

    constructor (captured: seq<Node>, kernelNodes: seq<nat>, memcpyNodes: seq<nat>, slotMap: SlotMap,
                 nodeShadows: seq<NodeShadow>, memcpyShadows: seq<CopyParams>)
      ensures State() == ExecState(captured, captured, kernelNodes, memcpyNodes, slotMap, nodeShadows, memcpyShadows)
    {
      this.captured, this.kernelNodes, this.memcpyNodes, this.slotMap := captured, kernelNodes, memcpyNodes, slotMap;
      this.ops, this.nodeShadows, this.memcpyShadows := captured, nodeShadows, memcpyShadows;
    }

    /** `set_slot`: point the shadow's entry at the new value, then hand the whole array to the
        driver, which reads through every pointer of it. */
    method SetSlot(slot: ScalarSlot, addr: nat, host: HostMemory) returns (outcome: SetOutcome)
      requires InRange(State())
      modifies this
      ensures outcome == SetSlotOutcome(old(State()), slot)
      ensures State() == SetSlotState(old(State()), slot, addr, host)
    {
      if slot !in slotMap.entries {
        return NotBound;
      }
      var binding := slotMap.entries[slot];
      var shadow := nodeShadows[binding.node];
      if binding.arg >= |shadow.ptrs| {
        return Panicked;
      }
      shadow := shadow.(ptrs := shadow.ptrs[binding.arg := Host(addr)]);
      nodeShadows := nodeShadows[binding.node := shadow];
      ops := ops[kernelNodes[binding.node] := KernelNode(shadow.meta, DerefAll(captured, host, shadow.ptrs))];
      return Updated;
    }

    /** `set_memcpy_slot`: only the destination moves; source, count and kind come from the shadow. */
    method SetMemcpySlot(slot: MemcpySlot, dst: nat) returns (outcome: SetOutcome)
      requires InRange(State())
      modifies this
      ensures outcome == if slot in slotMap.memcpyEntries then Updated else NotBound
      ensures State() == SetMemcpySlotState(old(State()), slot, dst)
    {
      if slot !in slotMap.memcpyEntries {
        return NotBound;
      }
      var node := slotMap.memcpyEntries[slot].node;
      var shadow := memcpyShadows[node];
      shadow := shadow.(dst := dst);
      memcpyShadows := memcpyShadows[node := shadow];
      ops := ops[memcpyNodes[node] := MemcpyNode(shadow)];
      return Updated;
    }
  }

  // ----- Capture -----

  /** One command of the closure on a capturing stream. */
  method RunCommand(c: Command, recorder: Recorder, stream: HipStream)
    requires recorder.state.Some?
    modifies recorder, stream
    ensures stream.graph == old(stream.graph) + if IsIssued(c) then [NodeOf(c, UNCHANGED)] else []
    ensures recorder.state.Some?
    ensures recorder.state.value.launches == old(recorder.state).value.launches
              + if c.Launch? then [LaunchRecord(|c.args.ptrs|, c.args.tagged)] else []
    ensures recorder.state.value.memcpys == old(recorder.state).value.memcpys
              + if c.Memcpy? && IsIssued(c) then [MemcpyRecord(c.slot, c.params)] else []
  {
    match c
    case Launch(meta, args, host) => LaunchKernel(recorder, stream, meta, args, host);
    case LaunchRaw(meta, values) => stream.Append(KernelNode(meta, values));
    case Memcpy(params, slot) => MemcpyAsync(recorder, stream, params, slot);
    case MemcpyRaw(params) => if params.count > 0 { stream.Append(MemcpyNode(params)); }
    case OtherOp(op) => stream.Append(OtherNode(op));
  }

  /** The graph and the records agree with the same list of issued commands. */
  ghost predicate InStep(graph: seq<Node>, state: Option<CaptureState>, issued: seq<Command>) {
    && graph == Nodes(issued, UNCHANGED)
    && state == Some(CaptureState(LaunchRecords(issued), MemcpyRecords(issued)))
  }

  /** Runs the closure's commands. */
  method RunClosure(program: seq<Command>, recorder: Recorder, stream: HipStream)
    requires recorder.state == Some(CaptureState([], [])) && stream.graph == []
    modifies recorder, stream
    ensures InStep(stream.graph, recorder.state, Issued(program))
  {
    assert InStep([], Some(CaptureState([], [])), Issued(program[..0]));
    hide Issued, InStep, IsIssued, NodeOf;
    for i := 0 to |program|
      invariant InStep(stream.graph, recorder.state, Issued(program[..i]))
      invariant recorder.state.Some?
    {
      ghost var graph, state := stream.graph, recorder.state;
      RunCommand(program[i], recorder, stream);
      StaysInStep(program, i, graph, state, stream.graph, recorder.state);
    }
    assert program[..|program|] == program;
  }

  lemma StaysInStep(program: seq<Command>, i: nat, graph: seq<Node>, state: Option<CaptureState>,
                    graph': seq<Node>, state': Option<CaptureState>)
    requires i < |program| && state.Some? && state'.Some?
    requires InStep(graph, state, Issued(program[..i]))
    requires var c := program[i];
             && graph' == graph + (if IsIssued(c) then [NodeOf(c, UNCHANGED)] else [])
             && state'.value.launches == state.value.launches
                                         + (if c.Launch? then [LaunchRecord(|c.args.ptrs|, c.args.tagged)] else [])
             && state'.value.memcpys == state.value.memcpys
                                        + (if c.Memcpy? && IsIssued(c) then [MemcpyRecord(c.slot, c.params)] else [])
    ensures InStep(graph', state', Issued(program[..i + 1]))
  {
    hide Issued, NodeOf, Nodes, LaunchRecords, MemcpyRecords;
    IssueOne(program, i);
    AppendCommand(Issued(program[..i]), program[i], UNCHANGED);
    var more := Issued(program[..i + 1]);
    if !IsIssued(program[i]) {
      assert more == Issued(program[..i]);
    }
    assert graph' == Nodes(more, UNCHANGED);
    assert state'.value.launches == LaunchRecords(more) && state'.value.memcpys == MemcpyRecords(more);
  }

  lemma IssueOne(program: seq<Command>, i: nat)
    requires i < |program|
    ensures Issued(program[..i + 1]) == Issued(program[..i]) + if IsIssued(program[i]) then [program[i]] else []
  {
    assert program[..i + 1][..i] == program[..i];
  }

  lemma AppendCommand(issued: seq<Command>, c: Command, env: Env)
    ensures Nodes(issued + [c], env) == Nodes(issued, env) + [NodeOf(c, env)]
    ensures LaunchRecords(issued + [c]) == LaunchRecords(issued)
                                           + if c.Launch? then [LaunchRecord(|c.args.ptrs|, c.args.tagged)] else []
    ensures MemcpyRecords(issued + [c]) == MemcpyRecords(issued)
                                           + if c.Memcpy? then [MemcpyRecord(c.slot, c.params)] else []
  {
    var more := issued + [c];
    assert more[..|more| - 1] == issued;
    hide NodeOf;
    assert forall h :: 0 <= h < |issued| ==> more[h] == issued[h];
  }

  /** A capture is bound to succeed when nothing bypasses the recorder and no slot is tagged
      twice. */
  ghost predicate Recordable(issued: seq<Command>) {
    && NothingBypassed(issued)
    && TaggedOnce(LaunchRecords(issued))
    && CopiedOnceBefore(MemcpyRecords(issued), |MemcpyRecords(issued)|)
  }

  /** `HipGraphExec::capture`. `closureOk` is the closure's own outcome and `program` what it
      enqueued before returning. */
  method Capture(recorder: Recorder, stream: HipStream, program: seq<Command>, closureOk: bool, exposed: nat -> bool)
    returns (r: Result<HipGraphExec, CaptureError>)
    requires recorder.state.None? && stream.graph == []
    modifies recorder, stream
    ensures recorder.state == None
    ensures r.Success? <==> closureOk && Recordable(Issued(program))
    ensures r.Success? ==> fresh(r.value) && JustCaptured(r.value.State(), Issued(program), exposed)
  {
    ghost var issued := Issued(program);
    recorder.Begin();
    RunClosure(program, recorder, stream);
    var graph := stream.graph;
    var state := recorder.End();
    if !closureOk {
      return Failure(ClosureFailed);
    }
    var kernels, copies := CollectNodesByType(graph, issued);
    RecordsMatchIff(issued);
    BucketsZip(issued);
    var built := FromRecorder(state.launches, |kernels|, state.memcpys, |copies|);
    if built.Failure? {
      return Failure(BadSlotMap(built.error));
    }
    var shadows := ShadowKernels(graph, kernels, built.value, issued, exposed);
    var copyShadows: seq<CopyParams> := [];
    for n := 0 to |state.memcpys|
      invariant |copyShadows| == n
      invariant forall i :: 0 <= i < n ==> copyShadows[i] == state.memcpys[i].params
    {
      copyShadows := copyShadows + [state.memcpys[n].params];
    }
    var exec := new HipGraphExec(graph, kernels, copies, built.value, shadows, copyShadows);
    return Success(exec);
  }

  /** The shadow of every kernel node, sized by the arity of any binding that targets it. */
  method ShadowKernels(graph: seq<Node>, kernels: seq<nat>, slotMap: SlotMap, ghost issued: seq<Command>, exposed: nat -> bool)
    returns (shadows: seq<NodeShadow>)
    requires graph == Nodes(issued, UNCHANGED) && kernels == KernelHandles(issued) && RecordsMatch(issued)
    requires HoldsExactly(slotMap, LaunchRecords(issued), MemcpyRecords(issued))
    ensures |shadows| == |kernels|
    ensures forall n :: 0 <= n < |kernels| ==>
              && kernels[n] < |issued| && issued[kernels[n]].Launch?
              && shadows[n] == InitialShadow(kernels[n], issued[kernels[n]], exposed(kernels[n]))
  {
    BucketsZip(issued);
    shadows := [];
    for n := 0 to |kernels|
      invariant |shadows| == n
      invariant forall i :: 0 <= i < n ==>
                  shadows[i] == InitialShadow(kernels[i], issued[kernels[i]], exposed(kernels[i]))
    {
      var h := kernels[n];
      var arity := BoundArity(slotMap.entries, n, LaunchRecords(issued));
      hide LaunchRecords, MemcpyRecords, KernelHandles;
      assert graph[h].meta == issued[h].meta;
      var ptrs: seq<Ptr> := if arity > 0 && exposed(h) then seq(arity, k requires 0 <= k => Staging(h, k)) else [];
      shadows := shadows + [NodeShadow(ptrs, graph[h].meta)];
    }
  }

  /** The arity of a node with bound slots, zero without. */
  method BoundArity(entries: map<ScalarSlot, SlotBinding>, n: nat, ghost launches: seq<LaunchRecord>) returns (arity: nat)
    requires n < |launches| && HoldsTagsBefore(entries, launches, |launches|, 0)
    ensures arity == if launches[n].tagged == [] then 0 else launches[n].arity
  {
    BindingsOfNode(entries, launches, n);
    hide HoldsTagsBefore;
    var bound := set s | s in entries && entries[s].node == n;
    assert forall s | s in entries && entries[s].node == n :: s in bound;
    arity := 0;
    if bound != {} {
      var s :| s in bound;
      arity := entries[s].arity;
    }
  }

  /** The bindings that target a node exist exactly when its launch carries a tag, and all have
      the launch's arity. */
  lemma BindingsOfNode(entries: map<ScalarSlot, SlotBinding>, launches: seq<LaunchRecord>, n: nat)
    requires n < |launches| && HoldsTagsBefore(entries, launches, |launches|, 0)
    ensures forall s :: s in entries && entries[s].node == n ==>
              launches[n].tagged != [] && entries[s].arity == launches[n].arity
    ensures launches[n].tagged != [] ==> exists s :: s in entries && entries[s].node == n
  {
    forall s | s in entries && entries[s].node == n
      ensures launches[n].tagged != [] && entries[s].arity == launches[n].arity
    {
      var m, j :| TagBefore(launches, m, j, |launches|, 0) && launches[m].tagged[j].0 == s;
    }
    if launches[n].tagged != [] {
      assert TagBefore(launches, n, 0, |launches|, 0);
    }
  }
}
