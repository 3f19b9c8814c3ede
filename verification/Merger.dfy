/** The merger as an object: the store it rewrites call by call, checked against the run described
    in MergeRun. */
module Merger {
  import opened Ordering
  import opened DatasetNames
  import opened ObjectStore
  import opened MergeSpec
  import opened MergeRun
  import opened MergeAll
  import opened Wrappers

  class BlobParquetMerger {
    var store: Store
    var tick: nat
    var passes: nat
    const oracle: Oracle
    const tie: Tie
    /** What `fs.glob` over the whole base path yields on a store. */
    const glob: Store -> seq<string>

    constructor (store: Store, oracle: Oracle, tie: Tie, glob: Store -> seq<string>)
      ensures this.store == store && tick == 0 && passes == 0
      ensures this.oracle == oracle && this.tie == tie && this.glob == glob
    {
      this.store, tick, passes := store, 0, 0;
      this.oracle, this.tie, this.glob := oracle, tie, glob;
    }

    ghost function Now(): (w: World)
      reads this
    {
      World(store, tick, passes)
    }

    method Call(c: Call) returns (error: Option<Error>)
      modifies this`tick
      ensures Step(Now(), error) == Ask(old(Now()), c, oracle)
    {
      var out := oracle(c, tick);
      tick := tick + 1;
      error := if out.ok then None else Some(out.error);
    }

    method Write(c: Call, k: Key, rows: seq<Row>) returns (error: Option<Error>)
      modifies this`store, this`tick
      ensures Step(Now(), error) == Put(old(Now()), c, k, rows, oracle)
    {
      var out := oracle(c, tick);
      tick := tick + 1;
      if out.ok || k in out.reach { store := store[k := rows]; }
      error := if out.ok then None else Some(out.error);
    }

    method RemoveRecursive(folder: string) returns (error: Option<Error>)
      modifies this`store, this`tick
      ensures Step(Now(), error) == RemoveTree(old(Now()), folder, oracle)
    {
      var out := oracle(Remove(folder), tick);
      tick := tick + 1;
      store := map k | k in store && !(k.folder == folder && (out.ok || k in out.reach)) :: store[k];
      error := if out.ok then None else Some(out.error);
    }

    method RemoveDatasetFolder(folder: string) returns (error: Option<Error>)
      modifies this`store, this`tick
      ensures Step(Now(), error) == RemoveDataset(old(Now()), folder, oracle)
    {
      error := Call(Exists(folder));
      if error.None? && HasFolder(store, folder) {
        error := RemoveRecursive(folder);
      }
    }

    method MoveDatasetFolder(src: string, dst: string) returns (error: Option<Error>)
      requires src != dst
      modifies this`store, this`tick
      ensures Step(Now(), error) == MoveFolder(old(Now()), src, dst, oracle)
    {
      hide Children;
      error := Call(ListChildren(src));
      if error.Some? { return; }
      var children := Children(store, src);
      if children == [] {
        error := Some(oracle(ListChildren(src), tick - 1).error);
        return;
      }
      ghost var listed := Now();
      for i := 0 to |children|
        invariant forall f | f in children[i..] :: Key(src, f) in store
        invariant passes == old(passes)
        invariant CopyAll(listed, src, dst, children, oracle) == CopyAll(Now(), src, dst, children[i..], oracle)
      {
        assert children[i..][1..] == children[i + 1..] && children[i..][0] == children[i];
        var k := Key(dst, children[i]);
        error := Write(CopyFile(Key(src, children[i]), k), k, store[Key(src, children[i])]);
        if error.Some? { return; }
      }
      error := RemoveRecursive(src);
    }

    method CleanupOldDatasets(p: Pair, keep: string) returns (error: Option<Error>)
      modifies this`store, this`tick
      ensures Step(Now(), error) == CleanUp(old(Now()), p, keep, oracle)
    {
      hide SortedStrings;
      error := Call(ListFolders);
      if error.Some? { return; }
      var folders := SortedStrings(DatasetFolders(store, p));
      ghost var listed := Now();
      for i := 0 to |folders|
        invariant error.None? && passes == old(passes)
        invariant DropAll(listed, folders, keep, oracle) == DropAll(Now(), folders[i..], keep, oracle)
      {
        assert folders[i..][1..] == folders[i + 1..] && folders[i..][0] == folders[i];
        if folders[i] != keep {
          error := RemoveDatasetFolder(folders[i]);
          if error.Some? { return; }
        }
      }
    }

    /** The body of the attempt; `temp` and `moved` are the variables it shares with `finally`. */
    method MergeWithDuckdb(p: Pair, temp0: Option<string>, moved0: bool)
      returns (temp: Option<string>, moved: bool, error: Option<Error>)
      modifies this
      ensures Pass(Now(), temp, moved, error) == MergePass(old(Now()), p, temp0, moved0, oracle, tie)
    {
      hide RemoveDataset, MoveFolder, CleanUp, Merged, TargetName, Rows, HasFolder, Sources;
      temp, moved := temp0, moved0;
      passes := passes + 1;
      error := Call(ReadRange);
      if error.Some? { return; }
      var rows := Rows(store, p);
      if rows == {} {
        error := Some(oracle(ReadRange, tick - 1).error);
        return;
      }
      var target := TargetName(rows, p);
      var unfinished := TempName(target);
      assert |unfinished| == |target| + 5;
      temp := Some(unfinished);
      error := Write(WriteData, Key(unfinished, PART), Merged(rows, tie));
      if error.Some? { return; }
      error := Write(WriteMarker, Key(unfinished, Marker), []);
      if error.Some? { return; }
      error := RemoveDatasetFolder(target);
      if error.Some? { return; }
      error := MoveDatasetFolder(unfinished, target);
      if error.Some? { return; }
      moved := true;
      error := CleanupOldDatasets(p, target);
    }

    method WithGcsAuthRetry(p: Pair) returns (temp: Option<string>, moved: bool, error: Option<Error>)
      modifies this
      ensures Pass(Now(), temp, moved, error) == AuthRetry(old(Now()), p, oracle, tie)
    {
      hide MergePass;
      temp, moved, error := MergeWithDuckdb(p, None, false);
      if error.Some? && error.value.auth {
        error := Call(Refresh);
        if error.None? {
          temp, moved, error := MergeWithDuckdb(p, temp, moved);
        }
      }
    }

    /** One turn of the attempt loop after its pass: retry, return, or let an exception escape. */
    method WindUp(temp: Option<string>, moved: bool, error: Option<Error>, attempt: nat)
      returns (again: bool, escaped: Option<Error>)
      modifies this`store, this`tick
      ensures var turn := Settle(Pass(old(Now()), temp, moved, error), attempt, oracle);
        if again then turn == Retry(Now()) && escaped.None? else turn == Stop(End(Now(), escaped))
    {
      hide RemoveDataset;
      again := error.Some? && error.value.retriable && attempt < MAX_MERGE_RETRIES;
      escaped := None;
      if again { escaped := Call(NewConnection); }
      if temp.Some? && !moved {
        var failed := RemoveDatasetFolder(temp.value);
        if failed.Some? { escaped := failed; }
      }
      again := again && escaped.None?;
    }

    method MergeSingle(p: Pair) returns (escaped: Option<Error>)
      modifies this
      ensures End(Now(), escaped) == MergeRun.MergeSingle(old(Now()), p, oracle, tie)
    {
      hide AuthRetry, Settle;
      escaped := Call(ListSources);
      if escaped.Some? || Sources(store, p) == {} { return; }
      ghost var listed := Now();
      for attempt := 0 to MAX_MERGE_RETRIES + 1
        invariant escaped.None?
        invariant Attempts(listed, p, 0, oracle, tie) == Attempts(Now(), p, attempt, oracle, tie)
      {
        escaped := Call(Cursor);
        if escaped.Some? { return; }
        var temp, moved, error := WithGcsAuthRetry(p);
        var again;
        again, escaped := WindUp(temp, moved, error, attempt);
        if !again { return; }
      }
    }

    method BatchMerge(tasks: seq<Pair>) returns (escaped: Option<Error>)
      modifies this
      ensures End(Now(), escaped) == MergeRun.BatchMerge(old(Now()), tasks, oracle, tie)
    {
      hide MergeRun.MergeSingle;
      escaped := None;
      for i := 0 to |tasks|
        invariant escaped.None?
        invariant MergeRun.BatchMerge(old(Now()), tasks, oracle, tie)
               == MergeRun.BatchMerge(Now(), tasks[i..], oracle, tie)
      {
        assert tasks[i..][1..] == tasks[i + 1..] && tasks[i..][0] == tasks[i];
        escaped := MergeSingle(tasks[i]);
        if escaped.Some? { return; }
      }
    }

    /** The whole base path is listed, and the pairs listed with several dataset folders are merged,
        in some order. */
    method MergeAllAvailableData() returns (ghost tasks: seq<Pair>, escaped: Option<Error>)
      modifies this
      ensures var list := Ask(old(Now()), ListAll, oracle);
        if list.error.Some? then End(Now(), escaped) == End(list.w, list.error) && tasks == []
        else
          && (forall p :: p in tasks <==> CountOf(glob(old(store)), p) > 1)
          && End(Now(), escaped) == MergeRun.BatchMerge(list.w, tasks, oracle, tie)
    {
      hide MergeRun.MergeSingle, CountOf;
      tasks := [];
      escaped := Call(ListAll);
      if escaped.Some? { return; }
      var counts := CountDatasets(glob(store));
      var several := set p | p in counts && counts[p] > 1;
      var list: seq<Pair> := [];
      var rest := several;
      while rest != {}
        invariant forall p :: p in several <==> p in rest || p in list
        invariant Now() == Ask(old(Now()), ListAll, oracle).w
        decreases |rest|
      {
        var p :| p in rest;
        rest := rest - {p};
        list := list + [p];
      }
      tasks := list;
      escaped := BatchMerge(list);
    }
  }
}
