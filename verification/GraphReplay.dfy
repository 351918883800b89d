/** What a replay computes after any history of slot updates. */
module GraphReplay {
  import opened Wrappers
  import opened GraphCapture
  import opened GraphExec

  // ----- Histories of updates -----

  /** One call of `set_slot` or `set_memcpy_slot`, with the host memory it found. */
  datatype Update =
    | SetScalar(slot: ScalarSlot, addr: nat, host: HostMemory)
    | SetCopy(memcpySlot: MemcpySlot, dst: nat)

  function Apply(e: ExecState, u: Update): (r: ExecState)
    requires InRange(e)
    ensures InRange(r) && r.slotMap == e.slotMap && |r.ops| == |e.ops|
  {
    match u
    case SetScalar(slot, addr, host) => SetSlotState(e, slot, addr, host)
    case SetCopy(slot, dst) => SetMemcpySlotState(e, slot, dst)
  }

  function After(e: ExecState, history: seq<Update>): (r: ExecState)
    requires InRange(e)
    ensures InRange(r) && r.slotMap == e.slotMap && |r.ops| == |e.ops|
  {
    if history == [] then e else Apply(After(e, history[..|history| - 1]), history[|history| - 1])
  }

  /** The value each slot was last given: what the callers of the updates meant. */
  function EnvOf(history: seq<Update>): Env {
    if history == [] then UNCHANGED
    else
      var env := EnvOf(history[..|history| - 1]);
      match history[|history| - 1]
      case SetScalar(slot, addr, host) => env.(scalars := env.scalars[slot := host(addr)])
      case SetCopy(slot, dst) => env.(dsts := env.dsts[slot := dst])
  }

  /** Where the last value of a slot was stored, and host memory at that call. */
  datatype Setting = Setting(addr: nat, host: HostMemory)

  function LastSet(history: seq<Update>, s: ScalarSlot): Option<Setting> {
    if history == [] then None
    else
      var u := history[|history| - 1];
      if u.SetScalar? && u.slot == s then Some(Setting(u.addr, u.host)) else LastSet(history[..|history| - 1], s)
  }

  /** Host memory at the last update of any slot of kernel node `n`: the moment the driver last
      read the node's arguments. */
  function LastRead(history: seq<Update>, entries: map<ScalarSlot, SlotBinding>, n: nat): Option<HostMemory> {
    if history == [] then None
    else
      var u := history[|history| - 1];
      if u.SetScalar? && u.slot in entries && entries[u.slot].node == n then Some(u.host)
      else LastRead(history[..|history| - 1], entries, n)
  }

  /** The value of every slot is still where its `set_slot` found it when the driver last read
      the node that slot belongs to. */
  ghost predicate StorageKept(entries: map<ScalarSlot, SlotBinding>, history: seq<Update>) {
    forall s | s in entries && LastSet(history, s).Some? ::
      var setting, read := LastSet(history, s).value, LastRead(history, entries, entries[s].node);
      read.Some? && read.value(setting.addr) == setting.host(setting.addr)
  }

  // ----- Slots and nodes -----

  lemma {:induction false} SlotAtFinds(tagged: seq<(ScalarSlot, nat)>, k: nat)
    requires forall i, j :: 0 <= i < j < |tagged| ==> tagged[i].1 < tagged[j].1
    ensures forall j :: 0 <= j < |tagged| && tagged[j].1 == k ==> SlotAt(tagged, k) == Some(tagged[j].0)
    ensures SlotAt(tagged, k).Some? ==> exists j :: 0 <= j < |tagged| && tagged[j] == (SlotAt(tagged, k).value, k)
  {
    if tagged != [] {
      var rest := tagged[1..];
      SlotAtFinds(rest, k);
      if tagged[0].1 == k {
        assert tagged[0] == (SlotAt(tagged, k).value, k);
      } else if SlotAt(rest, k).Some? {
        var j :| 0 <= j < |rest| && rest[j] == (SlotAt(rest, k).value, k);
        assert tagged[j + 1] == rest[j];
      }
      forall j | 0 <= j < |tagged| && tagged[j].1 == k
        ensures SlotAt(tagged, k) == Some(tagged[j].0)
      {
        if j > 0 {
          assert rest[j - 1] == tagged[j];
        }
      }
    }
  }

  /** The node of a launch, said of its pointers, tags and host memory: as many arguments as pointers; a
      tagged argument whose slot has a value has that value, any other what its own pointer leads to. */
  lemma LaunchArguments(meta: nat, args: Args, host: HostMemory, env: Env)
    requires WellTagged(|args.ptrs|, args.tagged)
    ensures var node := NodeOf(Launch(meta, args, host), env);
            && node.KernelNode? && node.meta == meta && |node.args| == |args.ptrs|
            && (forall j :: 0 <= j < |args.tagged| && args.tagged[j].0 in env.scalars ==>
                  node.args[args.tagged[j].1] == env.scalars[args.tagged[j].0])
            && (forall k :: 0 <= k < |args.ptrs| && (forall j :: 0 <= j < |args.tagged| && args.tagged[j].1 == k ==>
                                                       args.tagged[j].0 !in env.scalars) ==>
                  node.args[k] == host(args.ptrs[k]))
  {
    forall k | 0 <= k < |args.ptrs|
      ensures forall j :: 0 <= j < |args.tagged| && args.tagged[j].1 == k ==> SlotAt(args.tagged, k) == Some(args.tagged[j].0)
      ensures SlotAt(args.tagged, k).Some? ==> exists j :: 0 <= j < |args.tagged| && args.tagged[j] == (SlotAt(args.tagged, k).value, k)
    {
      SlotAtFinds(args.tagged, k);
    }
    hide SlotAt;
  }

  /** The slot map and the tags of the launches are the same relation. */
  lemma BoundIffTagged(entries: map<ScalarSlot, SlotBinding>, launches: seq<LaunchRecord>, n: nat, k: nat, s: ScalarSlot)
    requires n < |launches| && HoldsTagsBefore(entries, launches, |launches|, 0)
    requires WellTagged(launches[n].arity, launches[n].tagged)
    ensures SlotAt(launches[n].tagged, k) == Some(s) <==> s in entries && entries[s].node == n && entries[s].arg == k
  {
    var tagged := launches[n].tagged;
    SlotAtFinds(tagged, k);
    if SlotAt(tagged, k) == Some(s) {
      var j :| 0 <= j < |tagged| && tagged[j] == (s, k);
      assert TagBefore(launches, n, j, |launches|, 0);
    }
    if s in entries && entries[s].node == n && entries[s].arg == k {
      var m, j :| TagBefore(launches, m, j, |launches|, 0) && launches[m].tagged[j].0 == s;
    }
  }

  lemma {:induction false} HandlesAreSorted(issued: seq<Command>)
    ensures forall n :: 0 <= n < |KernelHandles(issued)| ==>
              KernelHandles(issued)[n] < |issued| && IsKernel(issued[KernelHandles(issued)[n]])
    ensures forall n :: 0 <= n < |CopyHandles(issued)| ==>
              CopyHandles(issued)[n] < |issued| && IsCopy(issued[CopyHandles(issued)[n]])
    ensures forall m, n :: 0 <= m < n < |KernelHandles(issued)| ==> KernelHandles(issued)[m] < KernelHandles(issued)[n]
    ensures forall m, n :: 0 <= m < n < |CopyHandles(issued)| ==> CopyHandles(issued)[m] < CopyHandles(issued)[n]
  {
    if issued != [] {
      HandlesAreSorted(issued[..|issued| - 1]);
    }
  }

  lemma {:induction false} HandlesAreComplete(issued: seq<Command>, h: nat)
    requires h < |issued|
    ensures IsKernel(issued[h]) ==> h in KernelHandles(issued)
    ensures IsCopy(issued[h]) ==> h in CopyHandles(issued)
  {
    if h < |issued| - 1 {
      HandlesAreComplete(issued[..|issued| - 1], h);
    }
  }

  // ----- The state after a history -----

  /** Entry `k` of the shadow of the launch at `h`: the last value of its slot, or the captured
      argument. */
  function CurrentPtr(h: nat, tagged: seq<(ScalarSlot, nat)>, k: nat, history: seq<Update>): Ptr {
    var s := SlotAt(tagged, k);
    if s.None? then Staging(h, k)
    else
      var last := LastSet(history, s.value);
      if last.None? then Staging(h, k) else Host(last.value.addr)
  }

  function CurrentPtrs(h: nat, args: Args, history: seq<Update>): seq<Ptr> {
    seq(|args.ptrs|, k requires 0 <= k => CurrentPtr(h, args.tagged, k, history))
  }

  /** A capture of well-formed commands. */
  ghost predicate Ready(e0: ExecState, issued: seq<Command>, exposed: nat -> bool) {
    JustCaptured(e0, issued, exposed) && WellFormed(issued)
  }

  /** The updates are of nodes whose parameters the driver exposes: those that do not panic. */
  ghost predicate Harmless(e0: ExecState, exposed: nat -> bool, history: seq<Update>) {
    forall i :: 0 <= i < |history| ==> IsHarmless(e0, exposed, history[i])
  }

  ghost predicate IsHarmless(e0: ExecState, exposed: nat -> bool, u: Update) {
    u.SetScalar? && u.slot in e0.slotMap.entries ==>
      var n := e0.slotMap.entries[u.slot].node;
      n < |e0.kernelNodes| && exposed(e0.kernelNodes[n])
  }

  ghost predicate KernelFollows(e: ExecState, e0: ExecState, issued: seq<Command>, exposed: nat -> bool, history: seq<Update>, n: nat)
    requires n < |e0.kernelNodes| == |e.nodeShadows| && e0.kernelNodes[n] < |issued| == |e.ops| == |e0.captured|
    requires issued[e0.kernelNodes[n]].Launch?
  {
    var h := e0.kernelNodes[n];
    var c := issued[h];
    var read := LastRead(history, e0.slotMap.entries, n);
    && e.nodeShadows[n].meta == c.meta
    && (c.args.tagged != [] && exposed(h) ==> e.nodeShadows[n].ptrs == CurrentPtrs(h, c.args, history))
    && e.ops[h] == (if read.None? then e0.captured[h]
                    else KernelNode(c.meta, DerefAll(e0.captured, read.value, CurrentPtrs(h, c.args, history))))
  }

  ghost predicate CopyFollows(e: ExecState, e0: ExecState, issued: seq<Command>, env: Env, n: nat)
    requires n < |e0.memcpyNodes| == |e.memcpyShadows| && e0.memcpyNodes[n] < |issued| == |e.ops|
    requires issued[e0.memcpyNodes[n]].Memcpy?
  {
    var node := NodeOf(issued[e0.memcpyNodes[n]], env);
    e.memcpyShadows[n] == node.params && e.ops[e0.memcpyNodes[n]] == node
  }

  ghost predicate SameShape(e: ExecState, e0: ExecState, issued: seq<Command>) {
    && e.captured == e0.captured && e.kernelNodes == e0.kernelNodes && e.memcpyNodes == e0.memcpyNodes
    && e.slotMap == e0.slotMap
    && |e.ops| == |issued| == |e0.captured|
    && |e.nodeShadows| == |e0.kernelNodes| && |e.memcpyShadows| == |e0.memcpyNodes|
  }

  /** Every shadow and every node is what the history makes of the capture. */
  ghost predicate Follows(e: ExecState, e0: ExecState, issued: seq<Command>, exposed: nat -> bool, history: seq<Update>)
    requires Ready(e0, issued, exposed)
  {
    && SameShape(e, e0, issued)
    && (forall n :: 0 <= n < |e0.kernelNodes| ==> KernelFollows(e, e0, issued, exposed, history, n))
    && (forall n :: 0 <= n < |e0.memcpyNodes| ==> CopyFollows(e, e0, issued, EnvOf(history), n))
    && (forall h :: 0 <= h < |issued| && !IsKernel(issued[h]) && !IsCopy(issued[h]) ==> e.ops[h] == e0.captured[h])
  }

  lemma SlotMapInRange(e0: ExecState, issued: seq<Command>, exposed: nat -> bool)
    requires JustCaptured(e0, issued, exposed)
    ensures InRange(e0)
  {
    forall s | s in e0.slotMap.entries
      ensures e0.slotMap.entries[s].node < |e0.kernelNodes|
    {
      var n, j :| TagBefore(LaunchRecords(issued), n, j, |LaunchRecords(issued)|, 0)
                  && LaunchRecords(issued)[n].tagged[j].0 == s;
    }
  }

  lemma ReadyInRange(e0: ExecState, issued: seq<Command>, exposed: nat -> bool)
    requires Ready(e0, issued, exposed)
    ensures InRange(e0)
  {
    SlotMapInRange(e0, issued, exposed);
  }

  lemma StartFollows(e0: ExecState, issued: seq<Command>, exposed: nat -> bool)
    requires Ready(e0, issued, exposed)
    ensures Follows(e0, e0, issued, exposed, [])
  {
    forall n | 0 <= n < |e0.kernelNodes|
      ensures KernelFollows(e0, e0, issued, exposed, [], n)
    {
      var h := e0.kernelNodes[n];
      assert forall k :: CurrentPtr(h, issued[h].args.tagged, k, []) == Staging(h, k);
    }
  }

  /** The binding of a bound slot, in terms of the launch that carries its tag. */
  lemma BindingOf(e0: ExecState, issued: seq<Command>, exposed: nat -> bool, s: ScalarSlot)
    requires Ready(e0, issued, exposed) && s in e0.slotMap.entries
    ensures var b := e0.slotMap.entries[s];
            && b.node < |e0.kernelNodes|
            && b.arg < |issued[e0.kernelNodes[b.node]].args.ptrs|
            && SlotAt(issued[e0.kernelNodes[b.node]].args.tagged, b.arg) == Some(s)
  {
    ReadyInRange(e0, issued, exposed);
    BucketsZip(issued);
    var b := e0.slotMap.entries[s];
    BoundIffTagged(e0.slotMap.entries, LaunchRecords(issued), b.node, b.arg, s);
    SlotAtFinds(LaunchRecords(issued)[b.node].tagged, b.arg);
  }

  lemma TaggedIsBound(e0: ExecState, issued: seq<Command>, exposed: nat -> bool, n: nat, k: nat, s: ScalarSlot)
    requires Ready(e0, issued, exposed) && n < |e0.kernelNodes|
    requires SlotAt(issued[e0.kernelNodes[n]].args.tagged, k) == Some(s)
    ensures s in e0.slotMap.entries && e0.slotMap.entries[s].node == n && e0.slotMap.entries[s].arg == k
  {
    BucketsZip(issued);
    BoundIffTagged(e0.slotMap.entries, LaunchRecords(issued), n, k, s);
  }

  /** An update moves the entry of its own slot and no other. */
  lemma PtrsStep(e0: ExecState, issued: seq<Command>, exposed: nat -> bool, history: seq<Update>, u: Update, n: nat)
    requires Ready(e0, issued, exposed) && n < |e0.kernelNodes|
    ensures var h, entries := e0.kernelNodes[n], e0.slotMap.entries;
            var ptrs := CurrentPtrs(h, issued[h].args, history);
            CurrentPtrs(h, issued[h].args, history + [u])
            == if u.SetScalar? && u.slot in entries && entries[u.slot].node == n && entries[u.slot].arg < |ptrs|
               then ptrs[entries[u.slot].arg := Host(u.addr)] else ptrs
  {
    var h := e0.kernelNodes[n];
    var tagged := issued[h].args.tagged;
    var more := history + [u];
    assert more[..|more| - 1] == history;
    forall k | 0 <= k < |issued[h].args.ptrs|
      ensures CurrentPtr(h, tagged, k, more)
              == if u.SetScalar? && SlotAt(tagged, k) == Some(u.slot) then Host(u.addr) else CurrentPtr(h, tagged, k, history)
    {
    }
    if u.SetScalar? && u.slot in e0.slotMap.entries {
      BindingOf(e0, issued, exposed, u.slot);
    }
    forall k | 0 <= k < |issued[h].args.ptrs| && u.SetScalar? && SlotAt(tagged, k) == Some(u.slot)
      ensures u.slot in e0.slotMap.entries && e0.slotMap.entries[u.slot].node == n && e0.slotMap.entries[u.slot].arg == k
    {
      TaggedIsBound(e0, issued, exposed, n, k, u.slot);
    }
  }

  lemma ScalarStep(e: ExecState, e0: ExecState, issued: seq<Command>, exposed: nat -> bool, history: seq<Update>, u: Update)
    requires Ready(e0, issued, exposed) && Follows(e, e0, issued, exposed, history) && InRange(e) && u.SetScalar?
    requires IsHarmless(e0, exposed, u)
    ensures SetSlotOutcome(e, u.slot) == if u.slot in e0.slotMap.entries then Updated else NotBound
    ensures Follows(Apply(e, u), e0, issued, exposed, history + [u])
  {
    var more, e' := history + [u], Apply(e, u);
    assert more[..|more| - 1] == history;
    var entries := e0.slotMap.entries;
    HandlesAreSorted(issued);
    if u.slot in entries {
      BindingOf(e0, issued, exposed, u.slot);
      assert KernelFollows(e, e0, issued, exposed, history, entries[u.slot].node);
    }
    forall n | 0 <= n < |e0.kernelNodes|
      ensures KernelFollows(e', e0, issued, exposed, more, n)
    {
      PtrsStep(e0, issued, exposed, history, u, n);
      assert KernelFollows(e, e0, issued, exposed, history, n);
      hide CurrentPtrs, DerefAll;
      if u.slot in entries && entries[u.slot].node != n {
        assert e0.kernelNodes[n] != e0.kernelNodes[entries[u.slot].node];
      }
    }
    forall n | 0 <= n < |e0.memcpyNodes|
      ensures CopyFollows(e', e0, issued, EnvOf(more), n)
    {
      assert CopyFollows(e, e0, issued, EnvOf(history), n);
    }
  }

  /** A copy slot belongs to the one copy that carries it. */
  lemma CopyBinding(e0: ExecState, issued: seq<Command>, exposed: nat -> bool, n: nat, s: MemcpySlot)
    requires Ready(e0, issued, exposed) && n < |e0.memcpyNodes|
    ensures issued[e0.memcpyNodes[n]].slot == Some(s) <==>
            s in e0.slotMap.memcpyEntries && e0.slotMap.memcpyEntries[s].node == n
  {
    BucketsZip(issued);
    var records := MemcpyRecords(issued);
    if s in e0.slotMap.memcpyEntries {
      var i :| 0 <= i < |records| && records[i].slot == Some(s);
    }
    assert records[n].slot == issued[e0.memcpyNodes[n]].slot;
  }

  lemma CopyStep(e: ExecState, e0: ExecState, issued: seq<Command>, exposed: nat -> bool, history: seq<Update>, u: Update)
    requires Ready(e0, issued, exposed) && Follows(e, e0, issued, exposed, history) && InRange(e) && u.SetCopy?
    ensures Follows(Apply(e, u), e0, issued, exposed, history + [u])
  {
    var more, e' := history + [u], Apply(e, u);
    assert more[..|more| - 1] == history;
    HandlesAreSorted(issued);
    forall n | 0 <= n < |e0.kernelNodes|
      ensures KernelFollows(e', e0, issued, exposed, more, n)
    {
      PtrsStep(e0, issued, exposed, history, u, n);
      assert KernelFollows(e, e0, issued, exposed, history, n);
      hide CurrentPtrs, DerefAll;
    }
    forall n | 0 <= n < |e0.memcpyNodes|
      ensures CopyFollows(e', e0, issued, EnvOf(more), n)
    {
      CopyBinding(e0, issued, exposed, n, u.memcpySlot);
      assert CopyFollows(e, e0, issued, EnvOf(history), n);
      var entries := e0.slotMap.memcpyEntries;
      if u.memcpySlot in entries && entries[u.memcpySlot].node != n {
        assert e0.memcpyNodes[n] != e0.memcpyNodes[entries[u.memcpySlot].node];
      }
    }
  }

  lemma {:induction false} HistoryFollows(e0: ExecState, issued: seq<Command>, exposed: nat -> bool, history: seq<Update>)
    requires Ready(e0, issued, exposed) && Harmless(e0, exposed, history)
    ensures InRange(e0) && Follows(After(e0, history), e0, issued, exposed, history)
  {
    ReadyInRange(e0, issued, exposed);
    if history == [] {
      StartFollows(e0, issued, exposed);
    } else {
      var rest, u := history[..|history| - 1], history[|history| - 1];
      assert history == rest + [u];
      HistoryFollows(e0, issued, exposed, rest);
      if u.SetScalar? {
        ScalarStep(After(e0, rest), e0, issued, exposed, rest, u);
      } else {
        CopyStep(After(e0, rest), e0, issued, exposed, rest, u);
      }
    }
  }

  /** Updates never change the length of an argument array, hidden or exposed. */
  lemma {:induction false} ShadowLengthsStay(e0: ExecState, history: seq<Update>)
    requires InRange(e0)
    ensures var e := After(e0, history);
            && |e.nodeShadows| == |e0.nodeShadows| && e.kernelNodes == e0.kernelNodes
            && forall n :: 0 <= n < |e0.nodeShadows| ==> |e.nodeShadows[n].ptrs| == |e0.nodeShadows[n].ptrs|
  {
    if history != [] {
      ShadowLengthsStay(e0, history[..|history| - 1]);
    }
  }

  /** After any history of updates, of this node and others, an update of a bound slot runs off its
      argument array exactly when the driver hid that node's parameters. */
  lemma HiddenParametersPanic(e0: ExecState, issued: seq<Command>, exposed: nat -> bool, history: seq<Update>, s: ScalarSlot)
    requires JustCaptured(e0, issued, exposed) && WellFormed(issued) && s in e0.slotMap.entries
    ensures InRange(e0) && e0.slotMap.entries[s].node < |e0.kernelNodes|
    ensures SetSlotOutcome(After(e0, history), s) == Panicked <==> !exposed(e0.kernelNodes[e0.slotMap.entries[s].node])
  {
    SlotMapInRange(e0, issued, exposed);
    ShadowLengthsStay(e0, history);
    BucketsZip(issued);
    var b := e0.slotMap.entries[s];
    BoundIffTagged(e0.slotMap.entries, LaunchRecords(issued), b.node, b.arg, s);
    SlotAtFinds(LaunchRecords(issued)[b.node].tagged, b.arg);
    hide After, LaunchRecords, KernelHandles;
  }

  /** So with exposed parameters, and whatever was updated before, the update is done. */
  lemma SetSlotNeverPanics(e0: ExecState, issued: seq<Command>, exposed: nat -> bool, history: seq<Update>, s: ScalarSlot)
    requires Ready(e0, issued, exposed) && InRange(e0)
    requires s in e0.slotMap.entries ==> exposed(e0.kernelNodes[e0.slotMap.entries[s].node])
    ensures SetSlotOutcome(After(e0, history), s) == if s in e0.slotMap.entries then Updated else NotBound
  {
    if s in e0.slotMap.entries {
      HiddenParametersPanic(e0, issued, exposed, history, s);
    }
    hide Ready;
  }

  // ----- Replaying -----

  lemma {:induction false} EnvIsLastSet(history: seq<Update>, s: ScalarSlot)
    ensures s in EnvOf(history).scalars <==> LastSet(history, s).Some?
    ensures LastSet(history, s).Some? ==>
              EnvOf(history).scalars[s] == LastSet(history, s).value.host(LastSet(history, s).value.addr)
  {
    if history != [] {
      EnvIsLastSet(history[..|history| - 1], s);
    }
  }

  lemma {:induction false} SetMeansRead(history: seq<Update>, entries: map<ScalarSlot, SlotBinding>, s: ScalarSlot)
    requires s in entries
    ensures LastSet(history, s).Some? ==> LastRead(history, entries, entries[s].node).Some?
  {
    if history != [] {
      SetMeansRead(history[..|history| - 1], entries, s);
    }
  }

  /** Argument `k` as the driver last read it, and as the slots' values make it. */
  lemma ArgumentAfter(e0: ExecState, issued: seq<Command>, exposed: nat -> bool, history: seq<Update>, n: nat, k: nat, read: HostMemory)
    requires Ready(e0, issued, exposed) && n < |e0.kernelNodes|
    requires k < |issued[e0.kernelNodes[n]].args.ptrs|
    ensures var h := e0.kernelNodes[n];
            var args, s := issued[h].args, SlotAt(issued[h].args.tagged, k);
            && (s.Some? && LastSet(history, s.value).Some? ==>
                  var last := LastSet(history, s.value).value;
                  && Deref(e0.captured, read, CurrentPtr(h, args.tagged, k, history)) == read(last.addr)
                  && ArgValue(args, issued[h].host, EnvOf(history), k) == last.host(last.addr))
            && (s.None? || LastSet(history, s.value).None? ==>
                  Deref(e0.captured, read, CurrentPtr(h, args.tagged, k, history))
                  == ArgValue(args, issued[h].host, EnvOf(history), k))
  {
    var h := e0.kernelNodes[n];
    var s := SlotAt(issued[h].args.tagged, k);
    if s.Some? {
      EnvIsLastSet(history, s.value);
    }
    assert e0.captured[h] == NodeOf(issued[h], UNCHANGED);
  }

  /** Kernel node `n` runs with the intended arguments exactly when its slots' values were kept. */
  lemma KernelMeansProgram(e0: ExecState, issued: seq<Command>, exposed: nat -> bool, history: seq<Update>, n: nat)
    requires Ready(e0, issued, exposed) && InRange(e0) && Harmless(e0, exposed, history) && n < |e0.kernelNodes|
    ensures var h, entries := e0.kernelNodes[n], e0.slotMap.entries;
            After(e0, history).ops[h] == NodeOf(issued[h], EnvOf(history))
            <==> forall s | s in entries && entries[s].node == n && LastSet(history, s).Some? ::
                   var setting, read := LastSet(history, s).value, LastRead(history, entries, n);
                   read.Some? && read.value(setting.addr) == setting.host(setting.addr)
  {
    var h, entries := e0.kernelNodes[n], e0.slotMap.entries;
    var c := issued[h];
    HistoryFollows(e0, issued, exposed, history);
    assert KernelFollows(After(e0, history), e0, issued, exposed, history, n);
    var read := LastRead(history, entries, n);
    var want := NodeOf(c, EnvOf(history));
    forall s | s in entries && entries[s].node == n
      ensures LastSet(history, s).Some? ==> read.Some?
    {
      SetMeansRead(history, entries, s);
    }
    var memory := if read.Some? then read.value else c.host;
    var was := NodeOf(c, UNCHANGED);
    assert e0.captured[h] == was;
    forall k | 0 <= k < |c.args.ptrs|
      ensures var s := SlotAt(c.args.tagged, k);
              && (s.Some? ==> s.value in entries && entries[s.value].node == n)
              && (read.None? ==> was.args[k] == want.args[k])
    {
      ArgumentAfter(e0, issued, exposed, history, n, k, memory);
      if SlotAt(c.args.tagged, k).Some? {
        TaggedIsBound(e0, issued, exposed, n, k, SlotAt(c.args.tagged, k).value);
      }
    }
    if read.None? {
      assert e0.captured[h] == want;
    } else {
      KernelReads(e0, issued, exposed, history, n);
    }
  }

  /** Argument `k` as the driver last read it, and as the program wants it: the value behind the last
      setting of its slot, then and now; else the same. */
  lemma ArgumentRead(e0: ExecState, issued: seq<Command>, exposed: nat -> bool, history: seq<Update>, n: nat, read: HostMemory, k: nat)
    requires Ready(e0, issued, exposed) && n < |e0.kernelNodes| && k < |issued[e0.kernelNodes[n]].args.ptrs|
    ensures var h, entries := e0.kernelNodes[n], e0.slotMap.entries;
            var got := Deref(e0.captured, read, CurrentPtr(h, issued[h].args.tagged, k, history));
            var want := ArgValue(issued[h].args, issued[h].host, EnvOf(history), k);
            got == want || exists s :: s in entries && entries[s].node == n && LastSet(history, s).Some? && entries[s].arg == k
  {
    var s := SlotAt(issued[e0.kernelNodes[n]].args.tagged, k);
    hide Ready, Deref, CurrentPtr, ArgValue, LastSet, SlotAt;
    ArgumentAfter(e0, issued, exposed, history, n, k, read);
    if s.Some? && LastSet(history, s.value).Some? {
      TaggedIsBound(e0, issued, exposed, n, k, s.value);
    }
  }

  lemma SlotRead(e0: ExecState, issued: seq<Command>, exposed: nat -> bool, history: seq<Update>, n: nat, read: HostMemory, s: ScalarSlot)
    requires Ready(e0, issued, exposed) && n < |e0.kernelNodes|
    requires s in e0.slotMap.entries && e0.slotMap.entries[s].node == n && LastSet(history, s).Some?
    ensures var h, last, k := e0.kernelNodes[n], LastSet(history, s).value, e0.slotMap.entries[s].arg;
            && k < |issued[h].args.ptrs|
            && Deref(e0.captured, read, CurrentPtr(h, issued[h].args.tagged, k, history)) == read(last.addr)
            && ArgValue(issued[h].args, issued[h].host, EnvOf(history), k) == last.host(last.addr)
  {
    hide Ready, Deref, CurrentPtr, ArgValue, LastSet, SlotAt;
    BindingOf(e0, issued, exposed, s);
    ArgumentAfter(e0, issued, exposed, history, n, e0.slotMap.entries[s].arg, read);
  }

  lemma KernelReads(e0: ExecState, issued: seq<Command>, exposed: nat -> bool, history: seq<Update>, n: nat)
    requires Ready(e0, issued, exposed) && n < |e0.kernelNodes|
    requires LastRead(history, e0.slotMap.entries, n).Some?
    ensures var h, entries := e0.kernelNodes[n], e0.slotMap.entries;
            var read := LastRead(history, entries, n).value;
            KernelNode(issued[h].meta, DerefAll(e0.captured, read, CurrentPtrs(h, issued[h].args, history)))
            == NodeOf(issued[h], EnvOf(history))
            <==> forall s | s in entries && entries[s].node == n && LastSet(history, s).Some? ::
                   read(LastSet(history, s).value.addr) == LastSet(history, s).value.host(LastSet(history, s).value.addr)
  {
    var h, entries := e0.kernelNodes[n], e0.slotMap.entries;
    var c := issued[h];
    var read := LastRead(history, entries, n).value;
    var got, want := DerefAll(e0.captured, read, CurrentPtrs(h, c.args, history)), NodeOf(c, EnvOf(history)).args;
    assert |got| == |want| == |c.args.ptrs|;
    assert forall k :: 0 <= k < |got| ==> got[k] == Deref(e0.captured, read, CurrentPtr(h, c.args.tagged, k, history));
    assert forall k :: 0 <= k < |want| ==> want[k] == ArgValue(c.args, c.host, EnvOf(history), k);
    hide Ready, Deref, CurrentPtr, CurrentPtrs, DerefAll, ArgValue, LastSet, SlotAt, NodeOf;
    forall s | s in entries && entries[s].node == n && LastSet(history, s).Some?
      ensures var last, k := LastSet(history, s).value, entries[s].arg;
              && k < |c.args.ptrs| && got[k] == read(last.addr) && want[k] == last.host(last.addr)
    {
      SlotRead(e0, issued, exposed, history, n, read, s);
    }
    forall k | 0 <= k < |c.args.ptrs|
      ensures got[k] == want[k]
              || exists s :: s in entries && entries[s].node == n && LastSet(history, s).Some? && entries[s].arg == k
    {
      ArgumentRead(e0, issued, exposed, history, n, read, k);
    }
  }

  /** The exec holds the program with every slot at its last value, exactly when those values
      stayed in place until the driver last read them. */
  lemma ExecMeansProgram(e0: ExecState, issued: seq<Command>, exposed: nat -> bool, history: seq<Update>)
    requires Ready(e0, issued, exposed) && InRange(e0) && Harmless(e0, exposed, history)
    ensures After(e0, history).ops == Nodes(issued, EnvOf(history)) <==> StorageKept(e0.slotMap.entries, history)
  {
    var e, want := After(e0, history), Nodes(issued, EnvOf(history));
    HistoryFollows(e0, issued, exposed, history);
    HandlesAreSorted(issued);
    forall n | 0 <= n < |e0.kernelNodes|
      ensures e.ops[e0.kernelNodes[n]] == want[e0.kernelNodes[n]]
              <==> forall s | s in e0.slotMap.entries && e0.slotMap.entries[s].node == n && LastSet(history, s).Some? ::
                     var setting, read := LastSet(history, s).value, LastRead(history, e0.slotMap.entries, n);
                     read.Some? && read.value(setting.addr) == setting.host(setting.addr)
    {
      KernelMeansProgram(e0, issued, exposed, history, n);
    }
    forall h | 0 <= h < |issued| && !IsKernel(issued[h])
      ensures e.ops[h] == want[h]
    {
      HandlesAreComplete(issued, h);
      if IsCopy(issued[h]) {
        var n :| 0 <= n < |e0.memcpyNodes| && e0.memcpyNodes[n] == h;
        assert CopyFollows(e, e0, issued, EnvOf(history), n);
      }
    }
    if StorageKept(e0.slotMap.entries, history) {
      forall h | 0 <= h < |issued|
        ensures e.ops[h] == want[h]
      {
        HandlesAreComplete(issued, h);
        if IsKernel(issued[h]) {
          var n :| 0 <= n < |e0.kernelNodes| && e0.kernelNodes[n] == h;
        }
      }
    }
  }

  // ----- Keeping the storage -----

  lemma {:induction false} LastSetIsAnUpdate(history: seq<Update>, s: ScalarSlot) returns (i: nat)
    requires LastSet(history, s).Some?
    ensures i < |history| && history[i].SetScalar? && history[i].slot == s
    ensures LastSet(history, s).value == Setting(history[i].addr, history[i].host)
  {
    var u := history[|history| - 1];
    if u.SetScalar? && u.slot == s {
      i := |history| - 1;
    } else {
      i := LastSetIsAnUpdate(history[..|history| - 1], s);
    }
  }

  /** No later update finds an earlier update's value changed. */
  ghost predicate NeverOverwritten(history: seq<Update>) {
    forall i, j :: 0 <= i < j < |history| && history[i].SetScalar? && history[j].SetScalar? ==>
      history[j].host(history[i].addr) == history[i].host(history[i].addr)
  }

  /** Giving every value storage of its own and leaving it alone is enough. */
  lemma {:induction false} KeptWhenNeverOverwritten(entries: map<ScalarSlot, SlotBinding>, history: seq<Update>)
    requires NeverOverwritten(history)
    ensures StorageKept(entries, history)
  {
    if history != [] {
      var rest, u := history[..|history| - 1], history[|history| - 1];
      KeptWhenNeverOverwritten(entries, rest);
      forall s | s in entries && LastSet(history, s).Some?
        ensures var setting, read := LastSet(history, s).value, LastRead(history, entries, entries[s].node);
                read.Some? && read.value(setting.addr) == setting.host(setting.addr)
      {
        SetMeansRead(history, entries, s);
        if !(u.SetScalar? && u.slot == s) {
          var i := LastSetIsAnUpdate(rest, s);
          assert history[i] == rest[i];
        }
      }
    }
  }

  /** Keeping a value alive only until its own `set_slot` returns is not enough: reusing its
      storage for a second slot of the same launch changes the first slot's value too. */
  lemma ReusedStorageGoesStale(e0: ExecState, issued: seq<Command>, exposed: nat -> bool,
                               a: ScalarSlot, b: ScalarSlot, addr: nat, v: int, w: int)
    requires Ready(e0, issued, exposed) && InRange(e0)
    requires a != b && a in e0.slotMap.entries && b in e0.slotMap.entries
    requires e0.slotMap.entries[a].node == e0.slotMap.entries[b].node && v != w
    requires exposed(e0.kernelNodes[e0.slotMap.entries[a].node])
    ensures var history := [SetScalar(a, addr, p => v), SetScalar(b, addr, p => w)];
            && EnvOf(history).scalars == map[a := v, b := w]
            && After(e0, history).ops != Nodes(issued, EnvOf(history))
  {
    var first, second: Update := SetScalar(a, addr, p => v), SetScalar(b, addr, p => w);
    var history := [first, second];
    assert history[..1] == [first] && [first][..0] == [];
    assert LastSet(history, a) == LastSet([first], a) == Some(Setting(addr, first.host));
    assert LastRead(history, e0.slotMap.entries, e0.slotMap.entries[a].node) == Some(second.host);
    assert EnvOf([first]).scalars == map[a := v];
    ExecMeansProgram(e0, issued, exposed, history);
  }

  // ----- Meaning: kernels and copies as arbitrary functions on memory -----

  datatype Machine<!M> = Machine(
    kernel: (nat, seq<int>, M) -> M,
    copy: (CopyParams, M) -> M,
    other: (nat, M) -> M)

  function Execute<M>(machine: Machine<M>, node: Node, m: M): M {
    match node
    case KernelNode(meta, args) => machine.kernel(meta, args, m)
    case MemcpyNode(params) => machine.copy(params, m)
    case OtherNode(op) => machine.other(op, m)
  }

  /** Launching a graph: its nodes in dispatch order. */
  function RunGraph<M>(machine: Machine<M>, nodes: seq<Node>, m: M): M {
    if nodes == [] then m
    else Execute(machine, nodes[|nodes| - 1], RunGraph(machine, nodes[..|nodes| - 1], m))
  }

  /** The values with those of tagged arguments put in, tag by tag. */
  function Substituted(values: seq<int>, tagged: seq<(ScalarSlot, nat)>, scalars: map<ScalarSlot, int>): (r: seq<int>)
    ensures |r| == |values|
  {
    if tagged == [] then values
    else
      var rest, (s, k) := Substituted(values, tagged[..|tagged| - 1], scalars), tagged[|tagged| - 1];
      if s in scalars && k < |rest| then rest[k := scalars[s]] else rest
  }

  /** What a command does when it is not captured, with the slots at `env`: a launch runs its kernel on what
      its pointers lead to, a copy of no bytes does nothing. */
  function RunOne<M>(machine: Machine<M>, c: Command, env: Env, m: M): M {
    match c
    case Launch(meta, args, host) =>
      var values := seq(|args.ptrs|, k requires 0 <= k < |args.ptrs| => host(args.ptrs[k]));
      machine.kernel(meta, Substituted(values, args.tagged, env.scalars), m)
    case LaunchRaw(meta, values) => machine.kernel(meta, values, m)
    case Memcpy(CopyParams(dst, src, count, kind), slot) =>
      if count == 0 then m
      else machine.copy(CopyParams(if slot.Some? && slot.value in env.dsts then env.dsts[slot.value] else dst, src, count, kind), m)
    case MemcpyRaw(params) => if params.count == 0 then m else machine.copy(params, m)
    case OtherOp(op) => machine.other(op, m)
  }

  /** Running the closure's commands directly, without a graph. */
  function RunProgram<M>(machine: Machine<M>, program: seq<Command>, env: Env, m: M): M {
    if program == [] then m
    else RunOne(machine, program[|program| - 1], env, RunProgram(machine, program[..|program| - 1], env, m))
  }

  lemma {:induction false} SubstitutedAt(values: seq<int>, tagged: seq<(ScalarSlot, nat)>, scalars: map<ScalarSlot, int>, k: nat)
    requires WellTagged(|values|, tagged) && k < |values|
    ensures forall j :: 0 <= j < |tagged| && tagged[j].1 == k && tagged[j].0 in scalars ==>
              Substituted(values, tagged, scalars)[k] == scalars[tagged[j].0]
    ensures (forall j :: 0 <= j < |tagged| && tagged[j].1 == k ==> tagged[j].0 !in scalars) ==>
              Substituted(values, tagged, scalars)[k] == values[k]
  {
    if tagged != [] {
      SubstitutedAt(values, tagged[..|tagged| - 1], scalars, k);
    }
  }

  /** The node of an issued command, executed, does what the command does. */
  lemma NodeDoesCommand<M>(machine: Machine<M>, c: Command, env: Env, m: M)
    requires c.Launch? ==> WellTagged(|c.args.ptrs|, c.args.tagged)
    ensures RunOne(machine, c, env, m) == if IsIssued(c) then Execute(machine, NodeOf(c, env), m) else m
  {
    if c.Launch? {
      var values := seq(|c.args.ptrs|, k requires 0 <= k < |c.args.ptrs| => c.host(c.args.ptrs[k]));
      var node := NodeOf(c, env);
      LaunchArguments(c.meta, c.args, c.host, env);
      hide NodeOf, Substituted;
      forall k | 0 <= k < |values|
        ensures Substituted(values, c.args.tagged, env.scalars)[k] == node.args[k]
      {
        SubstitutedAt(values, c.args.tagged, env.scalars, k);
      }
      assert Substituted(values, c.args.tagged, env.scalars) == node.args;
    }
  }

  lemma {:induction false} LaunchesAreIssued(program: seq<Command>)
    requires WellFormed(Issued(program))
    ensures WellFormed(program)
  {
    if program != [] {
      var rest, c := program[..|program| - 1], program[|program| - 1];
      var issued := Issued(program);
      assert forall i :: 0 <= i < |Issued(rest)| ==> issued[i] == Issued(rest)[i];
      LaunchesAreIssued(rest);
      if c.Launch? {
        assert issued[|issued| - 1] == c;
      }
      hide Issued;
      forall i | 0 <= i < |program| && program[i].Launch?
        ensures WellTagged(|program[i].args.ptrs|, program[i].args.tagged)
      {
        if i < |rest| {
          assert rest[i] == program[i];
        }
      }
    }
  }

  lemma EmptyGraph(env: Env)
    ensures Nodes([], env) == []
  {
  }

  lemma OneMoreNode<M>(machine: Machine<M>, nodes: seq<Node>, node: Node, m: M)
    ensures RunGraph(machine, nodes + [node], m) == Execute(machine, node, RunGraph(machine, nodes, m))
  {
    assert (nodes + [node])[..|nodes|] == nodes;
  }

  /** Running the nodes of the issued commands is running the program. */
  lemma {:induction false} GraphOfProgram<M>(machine: Machine<M>, program: seq<Command>, env: Env, m: M)
    requires WellFormed(program)
    ensures RunGraph(machine, Nodes(Issued(program), env), m) == RunProgram(machine, program, env, m)
  {
    hide Execute, NodeOf, Nodes, RunOne;
    if program == [] {
      EmptyGraph(env);
    } else {
      var rest, c := program[..|program| - 1], program[|program| - 1];
      GraphOfProgram(machine, rest, env, m);
      NodeDoesCommand(machine, c, env, RunProgram(machine, rest, env, m));
      if IsIssued(c) {
        assert Issued(program) == Issued(rest) + [c];
        AppendCommand(Issued(rest), c, env);
        OneMoreNode(machine, Nodes(Issued(rest), env), NodeOf(c, env), m);
      } else {
        assert Issued(program) == Issued(rest);
      }
    }
  }

  /** What happens to an exec between its capture and its last use. */
  datatype Event = Set(update: Update) | Replay

  function UpdatesOf(events: seq<Event>): seq<Update> {
    if events == [] then []
    else UpdatesOf(events[..|events| - 1]) + if events[|events| - 1].Set? then [events[|events| - 1].update] else []
  }

  /** Memory after the events, replaying the captured graph. */
  function Replayed<M>(machine: Machine<M>, e0: ExecState, events: seq<Event>, m: M): M
    requires InRange(e0)
  {
    if events == [] then m
    else
      var before := Replayed(machine, e0, events[..|events| - 1], m);
      if events[|events| - 1].Set? then before else RunGraph(machine, After(e0, UpdatesOf(events)).ops, before)
  }

  /** Memory after the events, running the program afresh at every replay. */
  function Rerun<M>(machine: Machine<M>, program: seq<Command>, events: seq<Event>, m: M): M {
    if events == [] then m
    else
      var before := Rerun(machine, program, events[..|events| - 1], m);
      if events[|events| - 1].Set? then before else RunProgram(machine, program, EnvOf(UpdatesOf(events)), before)
  }

  /** Whenever the graph is replayed, the slots' values have been kept. */
  ghost predicate KeptAtReplays(entries: map<ScalarSlot, SlotBinding>, events: seq<Event>) {
    forall i :: 0 <= i < |events| ==> KeptAt(entries, events, i)
  }

  ghost predicate KeptAt(entries: map<ScalarSlot, SlotBinding>, events: seq<Event>, i: nat)
    requires i < |events|
  {
    events[i].Replay? ==> StorageKept(entries, UpdatesOf(events[..i + 1]))
  }

  lemma KeptBefore(entries: map<ScalarSlot, SlotBinding>, events: seq<Event>, n: nat, i: nat)
    requires i < n <= |events|
    ensures KeptAt(entries, events[..n], i) <==> KeptAt(entries, events, i)
  {
    assert events[..n][..i + 1] == events[..i + 1];
    hide StorageKept, UpdatesOf;
  }

  lemma FewerAreHarmless(e0: ExecState, exposed: nat -> bool, events: seq<Event>)
    requires events != [] && Harmless(e0, exposed, UpdatesOf(events))
    ensures Harmless(e0, exposed, UpdatesOf(events[..|events| - 1]))
  {
    var rest := UpdatesOf(events[..|events| - 1]);
    hide IsHarmless;
    forall i | 0 <= i < |rest|
      ensures IsHarmless(e0, exposed, rest[i])
    {
      assert UpdatesOf(events)[i] == rest[i];
    }
  }

  /** Replay preserves meaning: over any sequence of updates and replays, and for any meaning of
      kernels and copies, the captured graph leaves the memory that running the program with
      every slot at its last value would leave. */
  lemma {:induction false} ReplayPreservesMeaning<M>(machine: Machine<M>, program: seq<Command>, e0: ExecState,
                                                     exposed: nat -> bool, events: seq<Event>, m: M)
    requires Ready(e0, Issued(program), exposed) && InRange(e0) && Harmless(e0, exposed, UpdatesOf(events))
    requires KeptAtReplays(e0.slotMap.entries, events)
    ensures Replayed(machine, e0, events, m) == Rerun(machine, program, events, m)
  {
    if events != [] {
      var n := |events| - 1;
      var rest := events[..n];
      forall i | 0 <= i < n
        ensures KeptAt(e0.slotMap.entries, rest, i)
      {
        KeptBefore(e0.slotMap.entries, events, n, i);
      }
      FewerAreHarmless(e0, exposed, events);
      ReplayPreservesMeaning(machine, program, e0, exposed, rest, m);
      if events[n].Replay? {
        assert events[..n + 1] == events;
        assert KeptAt(e0.slotMap.entries, events, n);
        ExecMeansProgram(e0, Issued(program), exposed, UpdatesOf(events));
        LaunchesAreIssued(program);
        GraphOfProgram(machine, program, EnvOf(UpdatesOf(events)), Replayed(machine, e0, rest, m));
      }
    }
  }

  // ----- And only then -----

  /** The machine that writes down what it executes. */
  function Logger(): Machine<seq<Node>> {
    Machine((meta, args, m) => m + [KernelNode(meta, args)], (params, m) => m + [MemcpyNode(params)], (op, m) => m + [OtherNode(op)])
  }

  lemma {:induction false} LoggerLogs(nodes: seq<Node>, m: seq<Node>)
    ensures RunGraph(Logger(), nodes, m) == m + nodes
  {
    if nodes != [] {
      var n := |nodes| - 1;
      LoggerLogs(nodes[..n], m);
      assert nodes == nodes[..n] + [nodes[n]];
    }
  }

  lemma SameLengthSplits<T>(a: seq<T>, b: seq<T>, c: seq<T>, d: seq<T>)
    requires a + b == c + d && |b| == |d|
    ensures a == c && b == d
  {
    assert a == (a + b)[..|a|] && c == (c + d)[..|c|];
    assert b == (a + b)[|a|..] && d == (c + d)[|c|..];
  }

  lemma OpsCount(e0: ExecState, issued: seq<Command>, exposed: nat -> bool, history: seq<Update>)
    requires Ready(e0, issued, exposed) && InRange(e0)
    ensures |After(e0, history).ops| == |Nodes(issued, EnvOf(history))|
  {
  }

  /** A replay at the end, with the same log on both sides: the logs agreed before, and the slots'
      values were kept. */
  lemma LastReplayKept(program: seq<Command>, e0: ExecState, exposed: nat -> bool, events: seq<Event>)
    requires Ready(e0, Issued(program), exposed) && InRange(e0) && Harmless(e0, exposed, UpdatesOf(events))
    requires events != [] && events[|events| - 1].Replay?
    requires Replayed(Logger(), e0, events, []) == Rerun(Logger(), program, events, [])
    ensures Replayed(Logger(), e0, events[..|events| - 1], []) == Rerun(Logger(), program, events[..|events| - 1], [])
    ensures StorageKept(e0.slotMap.entries, UpdatesOf(events))
  {
    var rest, updates := events[..|events| - 1], UpdatesOf(events);
    var before, again := Replayed(Logger(), e0, rest, []), Rerun(Logger(), program, rest, []);
    assert Replayed(Logger(), e0, events, []) == RunGraph(Logger(), After(e0, updates).ops, before);
    assert Rerun(Logger(), program, events, []) == RunProgram(Logger(), program, EnvOf(updates), again);
    assert WellFormed(Issued(program));
    hide Ready, InRange, Harmless, After, StorageKept, RunGraph, RunProgram, Replayed, Rerun, Nodes, EnvOf, Issued, Logger;
    var ops, want := After(e0, updates).ops, Nodes(Issued(program), EnvOf(updates));
    LoggerLogs(ops, before);
    LaunchesAreIssued(program);
    GraphOfProgram(Logger(), program, EnvOf(updates), again);
    LoggerLogs(want, again);
    OpsCount(e0, Issued(program), exposed, updates);
    SameLengthSplits(before, ops, again, want);
    ExecMeansProgram(e0, Issued(program), exposed, updates);
  }

  lemma KeptLast(entries: map<ScalarSlot, SlotBinding>, events: seq<Event>)
    requires events != []
    ensures KeptAt(entries, events, |events| - 1) <==> (events[|events| - 1].Replay? ==> StorageKept(entries, UpdatesOf(events)))
  {
    assert events[..|events|] == events;
    hide StorageKept, UpdatesOf;
  }

  lemma KeptGrows(entries: map<ScalarSlot, SlotBinding>, events: seq<Event>, n: nat)
    requires |events| == n + 1 && KeptAtReplays(entries, events[..n])
    requires events[n].Replay? ==> StorageKept(entries, UpdatesOf(events))
    ensures KeptAtReplays(entries, events)
  {
    hide StorageKept, UpdatesOf, KeptAt;
    KeptLast(entries, events);
    forall i: nat | i < |events|
      ensures KeptAt(entries, events, i)
    {
      if i < n {
        KeptThen(entries, events, n, i);
      } else {
        assert i == n;
      }
    }
  }

  lemma KeptThen(entries: map<ScalarSlot, SlotBinding>, events: seq<Event>, n: nat, i: nat)
    requires i < n <= |events| && KeptAtReplays(entries, events[..n])
    ensures KeptAt(entries, events, i)
  {
    KeptBefore(entries, events, n, i);
    hide StorageKept, UpdatesOf;
  }

  lemma {:induction false} LoggedMeansKept(program: seq<Command>, e0: ExecState, exposed: nat -> bool, events: seq<Event>)
    requires Ready(e0, Issued(program), exposed) && InRange(e0) && Harmless(e0, exposed, UpdatesOf(events))
    requires Replayed(Logger(), e0, events, []) == Rerun(Logger(), program, events, [])
    ensures KeptAtReplays(e0.slotMap.entries, events)
  {
    if events != [] {
      FewerAreHarmless(e0, exposed, events);
      if events[|events| - 1].Replay? {
        LastReplayKept(program, e0, exposed, events);
      }
      hide Ready, InRange, Harmless, StorageKept, RunGraph, RunProgram, KeptAtReplays, Logger;
      LoggedMeansKept(program, e0, exposed, events[..|events| - 1]);
      KeptGrows(e0.slotMap.entries, events, |events| - 1);
    }
  }

  /** The captured graph leaves what the program would leave, whatever the kernels and copies do to
      memory, exactly when every replay found the slots' values kept. */
  lemma ReplayMeansProgramIff(program: seq<Command>, e0: ExecState, exposed: nat -> bool, events: seq<Event>)
    requires Ready(e0, Issued(program), exposed) && InRange(e0) && Harmless(e0, exposed, UpdatesOf(events))
    ensures KeptAtReplays(e0.slotMap.entries, events) <==>
            forall machine: Machine<seq<Node>>, m: seq<Node> :: Replayed(machine, e0, events, m) == Rerun(machine, program, events, m)
  {
    hide Ready, InRange, Harmless, KeptAtReplays, Replayed, Rerun;
    if KeptAtReplays(e0.slotMap.entries, events) {
      forall machine: Machine<seq<Node>>, m: seq<Node>
        ensures Replayed(machine, e0, events, m) == Rerun(machine, program, events, m)
      {
        ReplayPreservesMeaning(machine, program, e0, exposed, events, m);
      }
    } else {
      var logger := Logger();
      if Replayed(logger, e0, events, []) == Rerun(logger, program, events, []) {
        LoggedMeansKept(program, e0, exposed, events);
      }
      assert Replayed(logger, e0, events, []) != Rerun(logger, program, events, []);
    }
  }
}
