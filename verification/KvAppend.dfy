/** The capturable append to a KV cache: two tagged copies at the cache's tail, retargeted before
    every replay. */
module KvAppend {
  import opened Wrappers
  import opened GraphCapture
  import opened GraphExec
  import opened GraphReplay

  /** Where a cache lives and how many bytes a token takes in each of its tensors. */
  datatype Layout = Layout(k: nat, v: nat, tokenBytes: nat, maxTokens: nat)

  datatype Source = Source(k: nat, v: nat, tokens: nat)

  datatype Slots = Slots(k: MemcpySlot, v: MemcpySlot)

  /** The two copies of an append of `src` at tail `tail`. */
  function AppendCommands(at: Layout, tail: nat, src: Source, slots: Slots): seq<Command> {
    var offset, total := tail * at.tokenBytes, src.tokens * at.tokenBytes;
    [Memcpy(CopyParams(at.k + offset, src.k, total, DeviceToDevice), Some(slots.k)),
     Memcpy(CopyParams(at.v + offset, src.v, total, DeviceToDevice), Some(slots.v))]
  }

  /** Both copies are issued, or neither is: an append of no bytes leaves no trace. */
  lemma AppendIssues(at: Layout, tail: nat, src: Source, slots: Slots)
    ensures var commands := AppendCommands(at, tail, src, slots);
            var issued := if src.tokens * at.tokenBytes > 0 then commands else [];
            && Issued(commands) == issued
            && Nodes(issued, UNCHANGED) == seq(|issued|, i requires 0 <= i < |issued| => MemcpyNode(issued[i].params))
            && MemcpyRecords(issued)
               == seq(|issued|, i requires 0 <= i < |issued| => MemcpyRecord(issued[i].slot, issued[i].params))
  {
    var commands := AppendCommands(at, tail, src, slots);
    assert commands[..1] == [commands[0]] && commands[..1][..0] == [];
    assert Issued(commands[..1]) == if IsIssued(commands[0]) then [commands[0]] else [];
    assert MemcpyRecords(commands[..1]) == [MemcpyRecord(commands[0].slot, commands[0].params)];
  }

  /** The two nodes and the two records, one by one. */
  lemma AppendNodes(at: Layout, tail: nat, src: Source, slots: Slots, offset: nat, total: nat)
    requires offset == tail * at.tokenBytes && total == src.tokens * at.tokenBytes
    ensures var issued := Issued(AppendCommands(at, tail, src, slots));
            var k, v := CopyParams(at.k + offset, src.k, total, DeviceToDevice), CopyParams(at.v + offset, src.v, total, DeviceToDevice);
            && Nodes(issued, UNCHANGED) == (if total > 0 then [MemcpyNode(k), MemcpyNode(v)] else [])
            && MemcpyRecords(issued) == (if total > 0 then [MemcpyRecord(Some(slots.k), k), MemcpyRecord(Some(slots.v), v)] else [])
  {
    AppendIssues(at, tail, src, slots);
    hide Issued, Nodes, MemcpyRecords;
  }

  lemma WithCopiesTwice(state: Option<CaptureState>, a: MemcpyRecord, b: MemcpyRecord)
    ensures WithCopies(WithCopies(state, [a]), [b]) == WithCopies(state, [a, b])
    ensures WithCopies(state, []) == state
  {
    if state.Some? {
      assert state.value.memcpys + [a] + [b] == state.value.memcpys + [a, b];
      assert state.value.memcpys + [] == state.value.memcpys;
    }
  }

  /** The copies of an append are issued and, in a capture, recorded: the keys' rows go to the key tensor at
      the tail, the values' rows to the value tensor. */
  ghost predicate Appended(at: Layout, tail: nat, src: Source, slots: Slots, was: seq<Node>, graph: seq<Node>,
                           before: Option<CaptureState>, state: Option<CaptureState>)
  {
    var issued := Issued(AppendCommands(at, tail, src, slots));
    && graph == was + Nodes(issued, UNCHANGED) && state == WithCopies(before, MemcpyRecords(issued))
    && (src.tokens * at.tokenBytes > 0 ==>
          var offset, total := tail * at.tokenBytes, src.tokens * at.tokenBytes;
          graph == was + [MemcpyNode(CopyParams(at.k + offset, src.k, total, DeviceToDevice)),
                          MemcpyNode(CopyParams(at.v + offset, src.v, total, DeviceToDevice))])
  }

  lemma CopiesAppend(at: Layout, tail: nat, src: Source, slots: Slots, offset: nat, total: nat, was: seq<Node>, graph: seq<Node>,
                     before: Option<CaptureState>, state: Option<CaptureState>)
    requires offset == tail * at.tokenBytes && total == src.tokens * at.tokenBytes
    requires var k, v := CopyParams(at.k + offset, src.k, total, DeviceToDevice), CopyParams(at.v + offset, src.v, total, DeviceToDevice);
             && graph == (if total > 0 then was + [MemcpyNode(k)] + [MemcpyNode(v)] else was)
             && state == (if total > 0 then WithCopies(WithCopies(before, [MemcpyRecord(Some(slots.k), k)]), [MemcpyRecord(Some(slots.v), v)])
                          else before)
    ensures Appended(at, tail, src, slots, was, graph, before, state)
  {
    var k, v := CopyParams(at.k + offset, src.k, total, DeviceToDevice), CopyParams(at.v + offset, src.v, total, DeviceToDevice);
    hide Issued, Nodes, NodeOf, MemcpyRecords, AppendCommands, WithCopies;
    AppendNodes(at, tail, src, slots, offset, total);
    WithCopiesTwice(before, MemcpyRecord(Some(slots.k), k), MemcpyRecord(Some(slots.v), v));
    if total == 0 {
      assert was + [] == was;
    } else {
      assert was + [MemcpyNode(k)] + [MemcpyNode(v)] == was + [MemcpyNode(k), MemcpyNode(v)];
    }
  }

  class KvCache {
    const layout: Layout
    var tail: nat

    constructor (layout: Layout)
      ensures this.layout == layout && tail == 0
    {
      this.layout, tail := layout, 0;
    }

    /** `kv_cache_append_hip_slot`: nothing happens unless the rows fit, and then the copies are issued,
        and recorded under a capture, before the tail moves. */
    method AppendSlotted(recorder: Recorder, stream: HipStream, src: Source, slots: Slots) returns (ok: bool)
      modifies this, recorder, stream
      ensures ok <==> old(tail) + src.tokens <= layout.maxTokens
      ensures !ok ==> tail == old(tail) && stream.graph == old(stream.graph) && recorder.state == old(recorder.state)
      ensures ok ==> tail == old(tail) + src.tokens
      ensures ok ==> Appended(layout, old(tail), src, slots, old(stream.graph), stream.graph, old(recorder.state), recorder.state)
    {
      if tail + src.tokens > layout.maxTokens {
        return false;
      }
      var offset, total := tail * layout.tokenBytes, src.tokens * layout.tokenBytes;
      ghost var graph, state := stream.graph, recorder.state;
      hide Appended, WithCopies;
      var k := CopyParams(layout.k + offset, src.k, total, DeviceToDevice);
      var v := CopyParams(layout.v + offset, src.v, total, DeviceToDevice);
      MemcpyAsync(recorder, stream, k, Some(slots.k));
      MemcpyAsync(recorder, stream, v, Some(slots.v));
      CopiesAppend(layout, tail, src, slots, offset, total, graph, stream.graph, state, recorder.state);
      tail := tail + src.tokens;
      return true;
    }
  }

  // ----- What an append leaves in memory -----

  type Memory = nat -> int

  /** Copies move bytes; kernels and other work are not part of an append. */
  function Copier(): Machine<Memory> {
    Machine((meta, args, m) => m,
            (params: CopyParams, m: Memory) =>
              (a: nat) => if params.dst <= a < params.dst + params.count then m(params.src + (a - params.dst)) else m(a),
            (op, m) => m)
  }

  /** `n` bytes from `dst` on are what the bytes from `src` on were. */
  ghost predicate Copied(after: Memory, dst: nat, before: Memory, src: nat, n: nat) {
    forall a: nat :: dst <= a < dst + n ==> after(a) == before(src + (a - dst))
  }

  predicate Apart(a: nat, b: nat, n: nat) {
    a + n <= b || b + n <= a
  }

  lemma CopiedOnce(c: Command, m: Memory)
    requires c.Memcpy?
    ensures var after := RunOne(Copier(), c, UNCHANGED, m);
            && Copied(after, c.params.dst, m, c.params.src, c.params.count)
            && (forall a: nat :: !(c.params.dst <= a < c.params.dst + c.params.count) ==> after(a) == m(a))
  {
  }

  lemma TwoCopies(c: Command, d: Command, m: Memory, n: nat)
    requires c.Memcpy? && d.Memcpy? && c.params.count == d.params.count == n
    requires Apart(c.params.dst, d.params.src, n) && Apart(c.params.dst, d.params.dst, n)
    ensures var after := RunProgram(Copier(), [c, d], UNCHANGED, m);
            && Copied(after, c.params.dst, m, c.params.src, n) && Copied(after, d.params.dst, m, d.params.src, n)
            && forall a: nat :: !(c.params.dst <= a < c.params.dst + n) && !(d.params.dst <= a < d.params.dst + n) ==> after(a) == m(a)
  {
    hide RunOne, Copier;
    var first := RunOne(Copier(), c, UNCHANGED, m);
    assert [c, d][..1] == [c] && [c][..0] == [];
    assert RunProgram(Copier(), [], UNCHANGED, m) == m;
    assert RunProgram(Copier(), [c], UNCHANGED, m) == first;
    assert RunProgram(Copier(), [c, d], UNCHANGED, m) == RunOne(Copier(), d, UNCHANGED, first);
    hide RunProgram;
    CopiedOnce(c, m);
    CopiedOnce(d, first);
  }

  /** The new keys and values are in the rows at the tail, byte for byte, and nothing else has changed -
      the rows before the tail least of all - when neither the values' source nor their rows lie where
      the keys go. */
  lemma AppendedRows(at: Layout, tail: nat, src: Source, slots: Slots, mem: Memory)
    requires var offset, total := tail * at.tokenBytes, src.tokens * at.tokenBytes;
             Apart(at.k + offset, src.v, total) && Apart(at.k + offset, at.v + offset, total)
    ensures var offset, total := tail * at.tokenBytes, src.tokens * at.tokenBytes;
            var after := RunProgram(Copier(), AppendCommands(at, tail, src, slots), UNCHANGED, mem);
            && Copied(after, at.k + offset, mem, src.k, total) && Copied(after, at.v + offset, mem, src.v, total)
            && (forall a: nat :: !(at.k + offset <= a < at.k + offset + total) && !(at.v + offset <= a < at.v + offset + total) ==>
                  after(a) == mem(a))
  {
    hide RunProgram, Copied;
    var commands := AppendCommands(at, tail, src, slots);
    TwoCopies(commands[0], commands[1], mem, src.tokens * at.tokenBytes);
  }

  // ----- Retargeting -----

  function Retarget(at: Layout, to: nat, slots: Slots): seq<Update> {
    [SetCopy(slots.k, at.k + to * at.tokenBytes), SetCopy(slots.v, at.v + to * at.tokenBytes)]
  }

  lemma EnvOfRetarget(at: Layout, to: nat, slots: Slots)
    ensures EnvOf(Retarget(at, to, slots)).dsts
            == map[slots.k := at.k + to * at.tokenBytes, slots.v := at.v + to * at.tokenBytes]
  {
    var retarget := Retarget(at, to, slots);
    assert retarget[..1] == [retarget[0]] && retarget[..1][..0] == [];
    assert EnvOf(retarget[..1]).dsts == map[slots.k := retarget[0].dst];
  }

  lemma RetargetedCommands(at: Layout, from: nat, to: nat, src: Source, slots: Slots)
    requires slots.k != slots.v
    ensures Nodes(Issued(AppendCommands(at, from, src, slots)), EnvOf(Retarget(at, to, slots)))
            == Nodes(Issued(AppendCommands(at, to, src, slots)), UNCHANGED)
  {
    hide EnvOf, Retarget;
    var env := EnvOf(Retarget(at, to, slots));
    EnvOfRetarget(at, to, slots);
    AppendIssues(at, from, src, slots);
    AppendIssues(at, to, src, slots);
    hide Issued;
    var was, now := AppendCommands(at, from, src, slots), AppendCommands(at, to, src, slots);
    assert NodeOf(was[0], env) == NodeOf(now[0], UNCHANGED) && NodeOf(was[1], env) == NodeOf(now[1], UNCHANGED);
  }

  /** An append captured at one tail and retargeted to another does what an append issued at
      that other tail does. */
  lemma RetargetedAppend<M>(machine: Machine<M>, at: Layout, from: nat, to: nat, src: Source, slots: Slots,
                            e0: ExecState, exposed: nat -> bool, m: M)
    requires slots.k != slots.v
    requires Ready(e0, Issued(AppendCommands(at, from, src, slots)), exposed) && InRange(e0)
    ensures RunGraph(machine, After(e0, Retarget(at, to, slots)).ops, m)
            == RunProgram(machine, AppendCommands(at, to, src, slots), UNCHANGED, m)
  {
    var retarget := Retarget(at, to, slots);
    assert NeverOverwritten(retarget);
    assert WellFormed(AppendCommands(at, to, src, slots));
    hide Issued, EnvOf, After, RunGraph, RunProgram, AppendCommands, Retarget, Ready, InRange, StorageKept;
    KeptWhenNeverOverwritten(e0.slotMap.entries, retarget);
    ExecMeansProgram(e0, Issued(AppendCommands(at, from, src, slots)), exposed, retarget);
    RetargetedCommands(at, from, to, src, slots);
    GraphOfProgram(machine, AppendCommands(at, to, src, slots), UNCHANGED, m);
  }
}
