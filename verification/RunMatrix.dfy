/** The resumable benchmark driver: which cells it runs, and what its results file holds after any
    number of crashes and resumed runs. File writes are atomic; the file stays readable. */
module RunMatrix {
  import opened Wrappers

  datatype Key = Key(model: string, topo: string, path: string)

  datatype Cell = Skip(model: string, topo: string) | Bench(model: string, topo: string, path: string)

  const SKIPPED := "_skipped"
  const ALL_TOPOLOGIES := "(all)"

  function KeyOf(cell: Cell): Key {
    if cell.Skip? then Key(cell.model, cell.topo, SKIPPED) else Key(cell.model, cell.topo, cell.path)
  }

  /** An entry of the results file; `Measured` holds one result per concurrency. */
  datatype Entry = SkippedEntry(model: string, topo: string)
                 | Measured(model: string, topo: string, path: string, results: nat)
                 | BootFailed(model: string, topo: string, path: string)

  function EntryKey(e: Entry): Key {
    if e.SkippedEntry? then Key(e.model, e.topo, SKIPPED) else Key(e.model, e.topo, e.path)
  }

  /** A resumed run will not touch the entry's cell again. */
  predicate Completes(e: Entry) {
    e.SkippedEntry? || (e.Measured? && e.results > 0)
  }

  // ----- Which cells -----

  datatype Model = Model(id: string, branchOnly: bool)

  /** An empty selection selects everything. */
  predicate Wanted(id: string, only: set<string>) {
    only == {} || id in only
  }

  predicate Parked(m: Model, onlyModels: set<string>, allowBranchOnly: bool) {
    m.branchOnly && onlyModels == {} && !allowBranchOnly
  }

  /** The cell belongs to one of the models, wanted or parked. */
  ghost predicate Requested(models: seq<Model>, topos: seq<string>, paths: seq<string>, feasible: (string, string) -> bool,
                            onlyModels: set<string>, onlyTopos: set<string>, onlyPaths: set<string>, allowBranchOnly: bool, cell: Cell)
  {
    exists i :: 0 <= i < |models| && OfModel(models[i], topos, paths, feasible, onlyModels, onlyTopos, onlyPaths, allowBranchOnly, cell)
  }

  ghost predicate OfModel(m: Model, topos: seq<string>, paths: seq<string>, feasible: (string, string) -> bool,
                          onlyModels: set<string>, onlyTopos: set<string>, onlyPaths: set<string>, allowBranchOnly: bool, cell: Cell)
  {
    && cell.model == m.id && (onlyModels == {} || m.id in onlyModels)
    && if m.branchOnly && onlyModels == {} && !allowBranchOnly then cell == Skip(m.id, ALL_TOPOLOGIES)
       else cell.topo in topos && OfTopo(m, cell.topo, paths, feasible, onlyTopos, onlyPaths, cell)
  }

  ghost predicate OfTopo(m: Model, topo: string, paths: seq<string>, feasible: (string, string) -> bool,
                         onlyTopos: set<string>, onlyPaths: set<string>, cell: Cell)
  {
    && cell.model == m.id && cell.topo == topo && (onlyTopos == {} || topo in onlyTopos)
    && if !feasible(m.id, topo) then cell.Skip?
       else cell.Bench? && cell.path in paths && (onlyPaths == {} || cell.path in onlyPaths)
  }

  predicate Distinct<T(==)>(s: seq<T>) {
    forall i, j :: 0 <= i < j < |s| ==> s[i] != s[j]
  }

  predicate DistinctKeys(cells: seq<Cell>) {
    forall i, j :: 0 <= i < j < |cells| ==> KeyOf(cells[i]) != KeyOf(cells[j])
  }

  /** The cells of one model on one topology. */
  method ListPaths(m: Model, topo: string, paths: seq<string>, feasible: (string, string) -> bool,
                   onlyTopos: set<string>, onlyPaths: set<string>) returns (cells: seq<Cell>)
    requires Distinct(paths)
    ensures forall c :: c in cells <==> OfTopo(m, topo, paths, feasible, onlyTopos, onlyPaths, c)
    ensures DistinctKeys(cells)
  {
    if !Wanted(topo, onlyTopos) {
      return [];
    }
    if !feasible(m.id, topo) {
      return [Skip(m.id, topo)];
    }
    cells := [];
    for k := 0 to |paths|
      invariant forall c :: c in cells <==>
                  c.Bench? && c.model == m.id && c.topo == topo && c.path in paths[..k] && Wanted(c.path, onlyPaths)
      invariant DistinctKeys(cells)
    {
      assert paths[..k + 1] == paths[..k] + [paths[k]];
      if Wanted(paths[k], onlyPaths) {
        cells := cells + [Bench(m.id, topo, paths[k])];
      }
    }
    assert paths[..|paths|] == paths;
  }

  method ListTopologies(m: Model, topos: seq<string>, paths: seq<string>, feasible: (string, string) -> bool,
                        onlyTopos: set<string>, onlyPaths: set<string>) returns (cells: seq<Cell>)
    requires Distinct(topos) && Distinct(paths)
    ensures forall c :: c in cells <==> c.topo in topos && OfTopo(m, c.topo, paths, feasible, onlyTopos, onlyPaths, c)
    ensures DistinctKeys(cells)
  {
    cells := [];
    for j := 0 to |topos|
      invariant forall c :: c in cells <==> c.topo in topos[..j] && OfTopo(m, c.topo, paths, feasible, onlyTopos, onlyPaths, c)
      invariant DistinctKeys(cells)
    {
      assert topos[..j + 1] == topos[..j] + [topos[j]];
      var more := ListPaths(m, topos[j], paths, feasible, onlyTopos, onlyPaths);
      hide OfTopo;
      JoinKeepsDistinct(cells, more);
      cells := cells + more;
    }
    assert topos[..|topos|] == topos;
  }

  lemma JoinKeepsDistinct(a: seq<Cell>, b: seq<Cell>)
    requires DistinctKeys(a) && DistinctKeys(b)
    requires forall c, d :: c in a && d in b ==> KeyOf(c) != KeyOf(d)
    ensures DistinctKeys(a + b)
  {
  }

  /** The cell list of `run_matrix`: exactly the requested cells, none twice. */
  method ListCells(models: seq<Model>, topos: seq<string>, paths: seq<string>, feasible: (string, string) -> bool,
                   onlyModels: set<string>, onlyTopos: set<string>, onlyPaths: set<string>, allowBranchOnly: bool)
      returns (cells: seq<Cell>)
    requires Distinct(topos) && Distinct(paths)
    requires forall i, j :: 0 <= i < j < |models| ==> models[i].id != models[j].id
    ensures forall c :: c in cells <==> Requested(models, topos, paths, feasible, onlyModels, onlyTopos, onlyPaths, allowBranchOnly, c)
    ensures DistinctKeys(cells)
  {
    cells := [];
    for i := 0 to |models|
      invariant forall c :: c in cells <==>
                  Requested(models[..i], topos, paths, feasible, onlyModels, onlyTopos, onlyPaths, allowBranchOnly, c)
      invariant DistinctKeys(cells)
    {
      var m := models[i];
      var more: seq<Cell> := [];
      if Wanted(m.id, onlyModels) {
        if Parked(m, onlyModels, allowBranchOnly) {
          more := [Skip(m.id, ALL_TOPOLOGIES)];
        } else {
          more := ListTopologies(m, topos, paths, feasible, onlyTopos, onlyPaths);
        }
      }
      assert forall c :: c in more <==> OfModel(m, topos, paths, feasible, onlyModels, onlyTopos, onlyPaths, allowBranchOnly, c);
      JoinKeepsDistinct(cells, more);
      cells := cells + more;
    }
    assert models[..|models|] == models;
  }

  // ----- One run -----

  /** How booting a cell's server and measuring it turns out; a crash in between is a run that makes
      no more writes. */
  datatype Fate = NoBoot | Measures(results: nat)

  /** The entry a cell gets, unless an earlier run completed it. */
  function EntryOf(cell: Cell, fate: Fate): Entry {
    match cell
    case Skip(m, topo) => SkippedEntry(m, topo)
    case Bench(m, topo, path) => if fate.NoBoot? then BootFailed(m, topo, path) else Measured(m, topo, path, fate.results)
  }

  /** What a run adds to the file if nothing stops it. */
  function Additions(done: set<Key>, cells: seq<Cell>, fates: seq<Fate>): seq<Entry>
    requires |fates| == |cells|
  {
    if cells == [] then []
    else
      var n := |cells| - 1;
      var before := Additions(done, cells[..n], fates[..n]);
      if KeyOf(cells[n]) in done then before else before + [EntryOf(cells[n], fates[n])]
  }

  function CompletedKeys(entries: seq<Entry>): set<Key> {
    if entries == [] then {}
    else
      var n := |entries| - 1;
      CompletedKeys(entries[..n]) + (if Completes(entries[n]) then {EntryKey(entries[n])} else {})
  }

  function Min(a: nat, b: nat): nat {
    if a < b then a else b
  }

  /** The file after a resumed run that lives for `writes` writes: the first rewrites the file as it
      was, each later one adds an entry, the last marks the run finished. */
  function AfterRun(file: Option<seq<Entry>>, cells: seq<Cell>, fates: seq<Fate>, writes: nat): Option<seq<Entry>>
    requires |fates| == |cells|
  {
    var base := if file.Some? then file.value else [];
    var more := Additions(CompletedKeys(base), cells, fates);
    if writes == 0 then file else Some(base + more[..Min(writes - 1, |more|)])
  }

  class Driver {
    /** The results file, if it exists. */
    var file: Option<seq<Entry>>

    constructor ()
      ensures file == None
    {
      file := None;
    }

    /** `run_matrix`, killed after `writes` file writes. Without `resume` it starts over. */
    method Run(resume: bool, cells: seq<Cell>, fates: seq<Fate>, writes: nat) returns (finished: bool)
      requires |fates| == |cells|
      modifies this
      ensures file == if resume then AfterRun(old(file), cells, fates, writes)
                      else if writes == 0 then old(file) else AfterRun(None, cells, fates, writes)
      ensures var base := if resume && old(file).Some? then old(file).value else [];
              finished <==> writes >= |Additions(CompletedKeys(base), cells, fates)| + 2
    {
      var out: seq<Entry> := [];
      var completed: set<Key> := {};
      if resume && file.Some? {
        out := file.value;
        completed := ReadCompleted(out);
      }
      assert CompletedKeys([]) == {};
      if writes == 0 {
        return false;
      }
      finished := Drive(out, completed, cells, fates, writes);
    }

    /** The cell loop, rewriting the file after every entry. */
    method Drive(base: seq<Entry>, completed: set<Key>, cells: seq<Cell>, fates: seq<Fate>, writes: nat) returns (finished: bool)
      requires |fates| == |cells| && writes > 0
      modifies this
      ensures var more := Additions(completed, cells, fates);
              file == Some(base + more[..Min(writes - 1, |more|)]) && (finished <==> writes >= |more| + 2)
    {
      hide Additions;
      var out := base;
      file := Some(out);
      var left := writes - 1;
      ghost var more := Additions(completed, cells, fates);
      ghost var added: seq<Entry> := [];
      NothingAdded(completed, cells, fates);
      for i := 0 to |cells|
        invariant added == Additions(completed, cells[..i], fates[..i])
        invariant out == base + added && file == Some(out) && left == writes - 1 - |added|
      {
        AdditionsGrow(completed, cells, fates, i);
        if KeyOf(cells[i]) !in completed {
          out := out + [EntryOf(cells[i], fates[i])];
          if left == 0 {
            AdditionsArePrefix(completed, cells, fates, i + 1);
            assert more[..writes - 1] == added;
            return false;
          }
          file := Some(out);
          left := left - 1;
          added := added + [EntryOf(cells[i], fates[i])];
        }
      }
      assert cells[..|cells|] == cells && fates[..|fates|] == fates;
      assert more[..|more|] == more;
      return left > 0;
    }

    method ReadCompleted(entries: seq<Entry>) returns (completed: set<Key>)
      ensures completed == CompletedKeys(entries)
    {
      completed := {};
      for i := 0 to |entries|
        invariant completed == CompletedKeys(entries[..i])
      {
        assert entries[..i + 1][..i] == entries[..i];
        if Completes(entries[i]) {
          completed := completed + {EntryKey(entries[i])};
        }
      }
      assert entries[..|entries|] == entries;
    }
  }

  lemma NothingAdded(done: set<Key>, cells: seq<Cell>, fates: seq<Fate>)
    requires |fates| == |cells|
    ensures Additions(done, cells[..0], fates[..0]) == []
  {
  }

  lemma AdditionsGrow(done: set<Key>, cells: seq<Cell>, fates: seq<Fate>, i: nat)
    requires |fates| == |cells| && i < |cells|
    ensures Additions(done, cells[..i + 1], fates[..i + 1])
         == Additions(done, cells[..i], fates[..i]) + if KeyOf(cells[i]) in done then [] else [EntryOf(cells[i], fates[i])]
  {
    assert cells[..i + 1][..i] == cells[..i] && fates[..i + 1][..i] == fates[..i];
  }

  lemma {:induction false} AdditionsArePrefix(done: set<Key>, cells: seq<Cell>, fates: seq<Fate>, i: nat)
    requires |fates| == |cells| && i <= |cells|
    ensures Additions(done, cells[..i], fates[..i]) <= Additions(done, cells, fates)
    decreases |cells|
  {
    var n := |cells| - 1;
    if i == |cells| {
      assert cells[..i] == cells && fates[..i] == fates;
    } else {
      AdditionsArePrefix(done, cells[..n], fates[..n], i);
      assert cells[..n][..i] == cells[..i] && fates[..n][..i] == fates[..i];
    }
  }

  // ----- Crashes and resumptions -----

  lemma {:induction false} CompletedKeysAre(entries: seq<Entry>, key: Key)
    ensures key in CompletedKeys(entries) <==> exists i :: 0 <= i < |entries| && Completes(entries[i]) && EntryKey(entries[i]) == key
  {
    if entries != [] {
      var n := |entries| - 1;
      CompletedKeysAre(entries[..n], key);
      if i :| 0 <= i < |entries| && Completes(entries[i]) && EntryKey(entries[i]) == key {
        assert i < n ==> entries[..n][i] == entries[i];
      }
    }
  }

  ghost predicate IsOneOf(cells: seq<Cell>, fates: seq<Fate>, e: Entry)
    requires |fates| == |cells|
  {
    exists i :: 0 <= i < |cells| && e == EntryOf(cells[i], fates[i])
  }

  /** Every entry added is that of a cell. */
  lemma {:induction false} AdditionsFromCells(done: set<Key>, cells: seq<Cell>, fates: seq<Fate>)
    requires |fates| == |cells|
    ensures forall e :: e in Additions(done, cells, fates) ==> IsOneOf(cells, fates, e)
  {
    if cells != [] {
      var n, more := |cells| - 1, Additions(done, cells, fates);
      var cs, fs := cells[..n], fates[..n];
      var before := Additions(done, cs, fs);
      AdditionsFromCells(done, cs, fs);
      forall e | e in more
        ensures IsOneOf(cells, fates, e)
      {
        if e in before {
          var i :| 0 <= i < |cs| && e == EntryOf(cs[i], fs[i]);
          assert e == EntryOf(cells[i], fates[i]);
        }
      }
    }
  }

  /** What a run adds: cells nobody completed before, each once. */
  lemma {:induction false} AdditionsAre(done: set<Key>, cells: seq<Cell>, fates: seq<Fate>)
    requires |fates| == |cells| && DistinctKeys(cells)
    ensures var more := Additions(done, cells, fates);
            && (forall k :: 0 <= k < |more| ==> EntryKey(more[k]) !in done)
            && (forall k, l :: 0 <= k < l < |more| ==> EntryKey(more[k]) != EntryKey(more[l]))
            && (forall i :: 0 <= i < |cells| && KeyOf(cells[i]) !in done ==> EntryOf(cells[i], fates[i]) in more)
  {
    if cells != [] {
      var n := |cells| - 1;
      var cs, fs := cells[..n], fates[..n];
      var before := Additions(done, cs, fs);
      AdditionsAre(done, cs, fs);
      AdditionsFromCells(done, cs, fs);
      forall i | 0 <= i < n && KeyOf(cells[i]) !in done
        ensures EntryOf(cells[i], fates[i]) in before
      {
        assert cs[i] == cells[i] && fs[i] == fates[i];
      }
      forall k | 0 <= k < |before|
        ensures EntryKey(before[k]) != KeyOf(cells[n])
      {
        assert IsOneOf(cs, fs, before[k]);
        var i :| 0 <= i < |cs| && before[k] == EntryOf(cs[i], fs[i]);
        assert EntryKey(before[k]) == KeyOf(cells[i]);
      }
      assert Additions(done, cells, fates) == before + if KeyOf(cells[n]) in done then [] else [EntryOf(cells[n], fates[n])];
      hide Additions, KeyOf, EntryOf, EntryKey;
    }
  }

  /** A completed cell never gets another entry: neither measured again nor entered twice. */
  ghost predicate SettledOnce(entries: seq<Entry>) {
    forall i, j :: 0 <= i < j < |entries| && Completes(entries[i]) ==> EntryKey(entries[i]) != EntryKey(entries[j])
  }

  datatype Session = Session(cells: seq<Cell>, fates: seq<Fate>, writes: nat)

  ghost predicate Proper(s: Session) {
    |s.fates| == |s.cells| && DistinctKeys(s.cells)
  }

  /** The file after any number of resumed runs, each over its own cells, each killed at its own time. */
  function AfterAll(file: Option<seq<Entry>>, sessions: seq<Session>): Option<seq<Entry>>
    requires forall k :: 0 <= k < |sessions| ==> Proper(sessions[k])
  {
    if sessions == [] then file
    else
      var n := |sessions| - 1;
      assert Proper(sessions[n]);
      AfterRun(AfterAll(file, sessions[..n]), sessions[n].cells, sessions[n].fates, sessions[n].writes)
  }

  function EntriesOf(file: Option<seq<Entry>>): seq<Entry> {
    if file.Some? then file.value else []
  }

  lemma RunKeeps(file: Option<seq<Entry>>, s: Session)
    requires Proper(s) && SettledOnce(EntriesOf(file))
    ensures var after := AfterRun(file, s.cells, s.fates, s.writes);
            EntriesOf(file) <= EntriesOf(after) && SettledOnce(EntriesOf(after))
  {
    var base := EntriesOf(file);
    var after := EntriesOf(AfterRun(file, s.cells, s.fates, s.writes));
    AdditionsAre(CompletedKeys(base), s.cells, s.fates);
    hide Additions;
    forall i, j | 0 <= i < j < |after| && Completes(after[i])
      ensures EntryKey(after[i]) != EntryKey(after[j])
    {
      if i < |base| <= j {
        CompletedKeysAre(base, EntryKey(after[i]));
      }
    }
  }

  /** Over any crashes and resumptions the file only grows at its end, so nothing written is lost, and
      no completed cell is run again. */
  lemma {:induction false} ResumingIsSafe(file: Option<seq<Entry>>, sessions: seq<Session>)
    requires SettledOnce(EntriesOf(file)) && forall k :: 0 <= k < |sessions| ==> Proper(sessions[k])
    ensures EntriesOf(file) <= EntriesOf(AfterAll(file, sessions)) && SettledOnce(EntriesOf(AfterAll(file, sessions)))
  {
    if sessions != [] {
      var n := |sessions| - 1;
      assert Proper(sessions[n]);
      var before := AfterAll(file, sessions[..n]);
      assert AfterAll(file, sessions) == AfterRun(before, sessions[n].cells, sessions[n].fates, sessions[n].writes);
      hide SettledOnce, AfterRun, AfterAll;
      ResumingIsSafe(file, sessions[..n]);
      RunKeeps(before, sessions[n]);
    }
  }

  /** From no file: at most one completed entry for every cell. */
  lemma OneCompletedEntry(sessions: seq<Session>, i: nat, j: nat)
    requires forall k :: 0 <= k < |sessions| ==> Proper(sessions[k])
    ensures var entries := EntriesOf(AfterAll(None, sessions));
            (&& i < |entries| && j < |entries| && Completes(entries[i]) && Completes(entries[j])
             && EntryKey(entries[i]) == EntryKey(entries[j])) ==>
              i == j
  {
    ResumingIsSafe(None, sessions);
  }

  ghost predicate HasEntry(entries: seq<Entry>, key: Key) {
    exists i :: 0 <= i < |entries| && EntryKey(entries[i]) == key
  }

  /** A run that is not interrupted leaves an entry for every requested cell, and completes exactly the
      cells that were complete before, the skipped ones, and those whose server booted and measured. */
  lemma UninterruptedRunCovers(file: Option<seq<Entry>>, s: Session, i: nat)
    requires Proper(s) && i < |s.cells|
    requires s.writes > |Additions(CompletedKeys(EntriesOf(file)), s.cells, s.fates)|
    ensures var after := EntriesOf(AfterRun(file, s.cells, s.fates, s.writes));
            && HasEntry(after, KeyOf(s.cells[i]))
            && (KeyOf(s.cells[i]) in CompletedKeys(after) <==>
                  || KeyOf(s.cells[i]) in CompletedKeys(EntriesOf(file))
                  || s.cells[i].Skip? || (s.fates[i].Measures? && s.fates[i].results > 0))
  {
    var base := EntriesOf(file);
    var done, key, mine := CompletedKeys(base), KeyOf(s.cells[i]), EntryOf(s.cells[i], s.fates[i]);
    var more := Additions(done, s.cells, s.fates);
    var after := EntriesOf(AfterRun(file, s.cells, s.fates, s.writes));
    assert more[..|more|] == more && after == base + more;
    AdditionsAre(done, s.cells, s.fates);
    hide Additions, AfterRun;
    CompletedKeysAre(base, key);
    CompletedKeysAre(base + more, key);
    hide CompletedKeys;
    if key in done {
      var k :| 0 <= k < |base| && Completes(base[k]) && EntryKey(base[k]) == key;
      assert (base + more)[k] == base[k];
    } else {
      OnlyMine(base, more, mine, key);
    }
  }

  lemma OnlyMine(base: seq<Entry>, more: seq<Entry>, mine: Entry, key: Key)
    requires mine in more && EntryKey(mine) == key
    requires forall k, l :: 0 <= k < l < |more| ==> EntryKey(more[k]) != EntryKey(more[l])
    requires forall k :: 0 <= k < |base| && Completes(base[k]) ==> EntryKey(base[k]) != key
    ensures HasEntry(base + more, key)
    ensures (exists k :: 0 <= k < |base + more| && Completes((base + more)[k]) && EntryKey((base + more)[k]) == key) <==> Completes(mine)
  {
    var k :| 0 <= k < |more| && more[k] == mine;
    assert (base + more)[|base| + k] == mine;
    if l :| 0 <= l < |base + more| && Completes((base + more)[l]) && EntryKey((base + more)[l]) == key {
      assert l >= |base| && more[l - |base|] == (base + more)[l];
    }
  }

  /** A resumed run that lives to add an entry leaves the file as it is exactly when there is nothing
      left to complete. */
  lemma NothingLeftIff(file: Option<seq<Entry>>, s: Session)
    requires Proper(s) && file.Some? && s.writes >= 2
    ensures AfterRun(file, s.cells, s.fates, s.writes) == file <==>
            forall i :: 0 <= i < |s.cells| ==> KeyOf(s.cells[i]) in CompletedKeys(file.value)
  {
    var done := CompletedKeys(file.value);
    var more := Additions(done, s.cells, s.fates);
    AdditionsAre(done, s.cells, s.fates);
    if more != [] {
      var i := AdditionCell(done, s.cells, s.fates, 0);
    }
    hide Additions;
    var added := more[..Min(s.writes - 1, |more|)];
    assert AfterRun(file, s.cells, s.fates, s.writes) == Some(file.value + added);
    if more == [] {
      assert file.value + added == file.value;
    } else {
      assert |file.value + added| > |file.value|;
    }
  }

  // ----- Failures -----

  /** Where the entry of a cell goes among the additions. */
  lemma {:induction false} AdditionAt(done: set<Key>, cells: seq<Cell>, fates: seq<Fate>, i: nat)
    requires |fates| == |cells| && i < |cells| && KeyOf(cells[i]) !in done
    ensures var k, more := |Additions(done, cells[..i], fates[..i])|, Additions(done, cells, fates);
            k < |more| && more[k] == EntryOf(cells[i], fates[i])
  {
    AdditionsGrow(done, cells, fates, i);
    AdditionsArePrefix(done, cells, fates, i + 1);
  }

  /** And which cell an addition is of. */
  lemma {:induction false} AdditionCell(done: set<Key>, cells: seq<Cell>, fates: seq<Fate>, k: nat) returns (i: nat)
    requires |fates| == |cells| && k < |Additions(done, cells, fates)|
    ensures i < |cells| && KeyOf(cells[i]) !in done && |Additions(done, cells[..i], fates[..i])| == k
    ensures Additions(done, cells, fates)[k] == EntryOf(cells[i], fates[i])
    decreases |cells|
  {
    var n := |cells| - 1;
    var before := Additions(done, cells[..n], fates[..n]);
    if k < |before| {
      i := AdditionCell(done, cells[..n], fates[..n], k);
      assert cells[..n][..i] == cells[..i] && fates[..n][..i] == fates[..i];
    } else {
      i := n;
    }
  }

  /** The run gets as far as writing an entry for cell `i`. */
  ghost predicate Reaches(file: Option<seq<Entry>>, s: Session, i: nat)
    requires |s.fates| == |s.cells| && i < |s.cells|
  {
    var done := CompletedKeys(EntriesOf(file));
    KeyOf(s.cells[i]) !in done && |Additions(done, s.cells[..i], s.fates[..i])| + 1 < s.writes
  }

  ghost predicate DistinctEntries(entries: seq<Entry>) {
    forall i, j :: 0 <= i < j < |entries| ==> EntryKey(entries[i]) != EntryKey(entries[j])
  }

  lemma JoinedAreDistinctIff(base: seq<Entry>, added: seq<Entry>)
    requires DistinctEntries(base) && DistinctEntries(added)
    ensures DistinctEntries(base + added) <==> forall k :: 0 <= k < |added| ==> !HasEntry(base, EntryKey(added[k]))
  {
    var after := base + added;
    if DistinctEntries(after) {
      forall k | 0 <= k < |added|
        ensures !HasEntry(base, EntryKey(added[k]))
      {
        assert after[|base| + k] == added[k];
        assert forall i :: 0 <= i < |base| ==> after[i] == base[i];
      }
    }
  }

  /** What the run leaves at the end of the file. */
  function Added(file: Option<seq<Entry>>, s: Session): seq<Entry>
    requires |s.fates| == |s.cells| && s.writes > 0
  {
    var more := Additions(CompletedKeys(EntriesOf(file)), s.cells, s.fates);
    more[..Min(s.writes - 1, |more|)]
  }

  lemma AddedIsDistinct(file: Option<seq<Entry>>, s: Session)
    requires Proper(s) && s.writes > 0
    ensures DistinctEntries(Added(file, s))
    ensures EntriesOf(AfterRun(file, s.cells, s.fates, s.writes)) == EntriesOf(file) + Added(file, s)
  {
    AdditionsAre(CompletedKeys(EntriesOf(file)), s.cells, s.fates);
    hide Additions, CompletedKeys;
  }

  lemma ReachedIsAdded(file: Option<seq<Entry>>, s: Session, i: nat)
    requires Proper(s) && s.writes > 0 && i < |s.cells| && Reaches(file, s, i)
    ensures exists k :: 0 <= k < |Added(file, s)| && EntryKey(Added(file, s)[k]) == KeyOf(s.cells[i])
  {
    AdditionAt(CompletedKeys(EntriesOf(file)), s.cells, s.fates, i);
    hide Additions, CompletedKeys;
    var k := |Additions(CompletedKeys(EntriesOf(file)), s.cells[..i], s.fates[..i])|;
    assert EntryKey(Added(file, s)[k]) == KeyOf(s.cells[i]);
  }

  lemma AddedIsReached(file: Option<seq<Entry>>, s: Session, k: nat) returns (i: nat)
    requires Proper(s) && s.writes > 0 && k < |Added(file, s)|
    ensures i < |s.cells| && Reaches(file, s, i) && EntryKey(Added(file, s)[k]) == KeyOf(s.cells[i])
  {
    hide Additions, CompletedKeys;
    i := AdditionCell(CompletedKeys(EntriesOf(file)), s.cells, s.fates, k);
  }

  /** A file with one entry per cell keeps one entry per cell exactly when the run writes none for a
      cell that already has one. */
  lemma OneEntryPerCellIff(file: Option<seq<Entry>>, s: Session)
    requires Proper(s) && DistinctEntries(EntriesOf(file))
    ensures DistinctEntries(EntriesOf(AfterRun(file, s.cells, s.fates, s.writes))) <==>
            forall i :: 0 <= i < |s.cells| && Reaches(file, s, i) ==> !HasEntry(EntriesOf(file), KeyOf(s.cells[i]))
  {
    if s.writes > 0 {
      var base, added := EntriesOf(file), Added(file, s);
      AddedIsDistinct(file, s);
      forall i | 0 <= i < |s.cells| && Reaches(file, s, i)
        ensures exists k :: 0 <= k < |added| && EntryKey(added[k]) == KeyOf(s.cells[i])
      {
        ReachedIsAdded(file, s, i);
      }
      forall k | 0 <= k < |added|
        ensures exists i :: 0 <= i < |s.cells| && Reaches(file, s, i) && EntryKey(added[k]) == KeyOf(s.cells[i])
      {
        var i := AddedIsReached(file, s, k);
      }
      hide Reaches, AfterRun, DistinctEntries, HasEntry, Added, EntryKey, KeyOf;
      JoinedAreDistinctIff(base, added);
    }
  }

  /** Such an entry is a failed boot: a completed cell is passed over. */
  lemma ReachedIsUncompleted(file: Option<seq<Entry>>, s: Session, i: nat, k: nat)
    requires Proper(s) && i < |s.cells| && Reaches(file, s, i)
    requires k < |EntriesOf(file)| && EntryKey(EntriesOf(file)[k]) == KeyOf(s.cells[i])
    ensures !Completes(EntriesOf(file)[k])
  {
    CompletedKeysAre(EntriesOf(file), KeyOf(s.cells[i]));
    hide Additions;
  }

  /** The entries of one cell. */
  function CountOf(entries: seq<Entry>, key: Key): nat {
    if entries == [] then 0
    else CountOf(entries[..|entries| - 1], key) + if EntryKey(entries[|entries| - 1]) == key then 1 else 0
  }

  lemma {:induction false} CountJoins(a: seq<Entry>, b: seq<Entry>, key: Key)
    ensures CountOf(a + b, key) == CountOf(a, key) + CountOf(b, key)
  {
    if b == [] {
      assert a + b == a;
    } else {
      var n := |b| - 1;
      assert (a + b)[..|a + b| - 1] == a + b[..n];
      CountJoins(a, b[..n], key);
    }
  }

  lemma {:induction false} CountsOnce(entries: seq<Entry>, key: Key)
    requires DistinctEntries(entries)
    ensures CountOf(entries, key) == if HasEntry(entries, key) then 1 else 0
  {
    if entries != [] {
      var n := |entries| - 1;
      CountsOnce(entries[..n], key);
      if HasEntry(entries, key) && EntryKey(entries[n]) != key {
        var i :| 0 <= i < |entries| && EntryKey(entries[i]) == key;
        assert entries[..n][i] == entries[i];
      }
    }
  }

  /** The session asks for the cell, its server does not boot, and nothing stops the run. */
  ghost predicate FailsToBoot(s: Session, cell: Cell) {
    && Proper(s) && cell.Bench? && s.writes > |s.cells| + 1
    && exists i :: 0 <= i < |s.cells| && s.cells[i] == cell && s.fates[i].NoBoot?
  }

  lemma {:induction false} AdditionsAreFew(done: set<Key>, cells: seq<Cell>, fates: seq<Fate>)
    requires |fates| == |cells|
    ensures |Additions(done, cells, fates)| <= |cells|
  {
    if cells != [] {
      AdditionsAreFew(done, cells[..|cells| - 1], fates[..|cells| - 1]);
    }
  }

  lemma AddedIsAll(file: Option<seq<Entry>>, s: Session)
    requires Proper(s) && s.writes > |s.cells| + 1
    ensures var more := Additions(CompletedKeys(EntriesOf(file)), s.cells, s.fates); Added(file, s) == more && |more| < s.writes
  {
    AdditionsAreFew(CompletedKeys(EntriesOf(file)), s.cells, s.fates);
    hide Additions, CompletedKeys;
  }

  lemma OneMoreFailure(file: Option<seq<Entry>>, s: Session, cell: Cell)
    requires FailsToBoot(s, cell) && KeyOf(cell) !in CompletedKeys(EntriesOf(file))
    ensures var after := EntriesOf(AfterRun(file, s.cells, s.fates, s.writes));
            && CountOf(after, KeyOf(cell)) == CountOf(EntriesOf(file), KeyOf(cell)) + 1
            && KeyOf(cell) !in CompletedKeys(after)
  {
    hide Additions, AfterRun, CompletedKeys, CountOf;
    var base, key := EntriesOf(file), KeyOf(cell);
    var done := CompletedKeys(base);
    var more := Additions(done, s.cells, s.fates);
    var i :| 0 <= i < |s.cells| && s.cells[i] == cell && s.fates[i].NoBoot?;
    AddedIsAll(file, s);
    UninterruptedRunCovers(file, s, i);
    AddedIsDistinct(file, s);
    hide Added, DistinctEntries, FailsToBoot, DistinctKeys, Completes;
    AdditionsAre(done, s.cells, s.fates);
    CountsTheAddition(base, more, EntryOf(cell, s.fates[i]));
  }

  lemma CountsTheAddition(base: seq<Entry>, more: seq<Entry>, e: Entry)
    requires DistinctEntries(more) && e in more
    ensures CountOf(base + more, EntryKey(e)) == CountOf(base, EntryKey(e)) + 1
  {
    CountJoins(base, more, EntryKey(e));
    CountsOnce(more, EntryKey(e));
    var k :| 0 <= k < |more| && more[k] == e;
    assert HasEntry(more, EntryKey(e));
  }

  /** A cell that is not completed and whose server boots in none of the sessions gets exactly one more
      entry from each, whatever else the sessions do. */
  lemma {:induction false} FailedBootsPileUp(file: Option<seq<Entry>>, sessions: seq<Session>, cell: Cell)
    requires KeyOf(cell) !in CompletedKeys(EntriesOf(file))
    requires forall k :: 0 <= k < |sessions| ==> Proper(sessions[k]) && FailsToBoot(sessions[k], cell)
    ensures var after := EntriesOf(AfterAll(file, sessions));
            && CountOf(after, KeyOf(cell)) == CountOf(EntriesOf(file), KeyOf(cell)) + |sessions|
            && KeyOf(cell) !in CompletedKeys(after)
  {
    if sessions != [] {
      var n := |sessions| - 1;
      var before, last := AfterAll(file, sessions[..n]), sessions[n];
      assert Proper(last) && FailsToBoot(last, cell);
      assert AfterAll(file, sessions) == AfterRun(before, last.cells, last.fates, last.writes);
      hide AfterRun, CompletedKeys, FailsToBoot, CountOf, AfterAll, Proper;
      FailedBootsPileUp(file, sessions[..n], cell);
      OneMoreFailure(before, last, cell);
    }
  }
}
