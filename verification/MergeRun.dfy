/** One run of `merge_single` as the code performs it, call by call. Every call on the object
    store or on DuckDB is answered by an oracle: it succeeds, or raises after any part of its
    effect. Since a call may raise anywhere, the stores at which a pass can stop are all the
    intermediate stores of that pass. */
module MergeRun {
  import opened Ordering
  import opened DatasetNames
  import opened ObjectStore
  import opened MergeSpec
  import opened Wrappers

  datatype Call =
    | ListAll | ListSources | ListFolders | ListChildren(folder: string)
    | Exists(folder: string) | Remove(folder: string) | CopyFile(src: Key, dst: Key)
    | Cursor | ReadRange | WriteData | WriteMarker | Refresh | NewConnection
  {
    /** Calls on the file system; the others go to DuckDB or its pool. */
    predicate OnStore() {
      ListAll? || ListSources? || ListFolders? || ListChildren? || Exists? || Remove? || CopyFile?
    }
  }

  /** What the retry layers read off an exception's message. */
  datatype Error = Error(auth: bool, retriable: bool)

  /** `reach` is the part of the effect a raising call still has. */
  datatype Outcome = Outcome(ok: bool, error: Error, reach: set<Key>)

  type Oracle = (Call, nat) -> Outcome

  datatype World = World(store: Store, tick: nat, passes: nat)

  datatype Step = Step(w: World, error: Option<Error>)

  const MAX_MERGE_RETRIES: nat := 2

  // ----- single calls -----

  /** A call that leaves the store alone. */
  function Ask(w: World, c: Call, o: Oracle): (r: Step) {
    var out := o(c, w.tick);
    Step(w.(tick := w.tick + 1), if out.ok then None else Some(out.error))
  }

  /** A write of one object: there or not there. */
  function Put(w: World, c: Call, k: Key, rows: seq<Row>, o: Oracle): (r: Step) {
    var out := o(c, w.tick);
    var store := if out.ok || k in out.reach then w.store[k := rows] else w.store;
    Step(w.(store := store, tick := w.tick + 1), if out.ok then None else Some(out.error))
  }

  /** `fs.rm(folder, recursive=True)`: on failure any of its objects may be gone. */
  function RemoveTree(w: World, folder: string, o: Oracle): (r: Step) {
    var out := o(Remove(folder), w.tick);
    var store := map k | k in w.store && !(k.folder == folder && (out.ok || k in out.reach)) :: w.store[k];
    Step(w.(store := store, tick := w.tick + 1), if out.ok then None else Some(out.error))
  }

  // ----- the merger's helpers -----

  /** `_remove_dataset_folder`, and the clean-up of `finally`: remove if it exists. */
  function RemoveDataset(w: World, folder: string, o: Oracle): (r: Step) {
    var look := Ask(w, Exists(folder), o);
    if look.error.Some? || !HasFolder(w.store, folder) then look else RemoveTree(look.w, folder, o)
  }

  predicate FileLeq(f: File, g: File) {
    LexLeq(f.Text(), g.Text())
  }

  lemma FileTotalOrder()
    ensures TotalOrder(FileLeq)
  {
    LexTotalOrder();
    forall f, g | FileLeq(f, g) && FileLeq(g, f) ensures f == g { TextInjective(f, g); }
  }

  // The listing of a folder's files, in name order.
  function Children(s: Store, folder: string): (files: seq<File>)
    ensures forall f :: f in files <==> Key(folder, f) in s
  {
    FileTotalOrder();
    var files := Sorted(FilesIn(s, folder), FileLeq);
    assert forall f :: f in FilesIn(s, folder) <==> Key(folder, f) in s;
    files
  }

  function CopyAll(w: World, src: string, dst: string, files: seq<File>, o: Oracle): (r: Step)
    requires src != dst && forall f | f in files :: Key(src, f) in w.store
    decreases |files|
  {
    if files == [] then Step(w, None)
    else
      var k := Key(dst, files[0]);
      var one := Put(w, CopyFile(Key(src, files[0]), k), k, w.store[Key(src, files[0])], o);
      if one.error.Some? then one else CopyAll(one.w, src, dst, files[1..], o)
  }

  /** `_move_dataset_folder`: list, copy file by file, remove the source. */
  function MoveFolder(w: World, src: string, dst: string, o: Oracle): (r: Step)
    requires src != dst
  {
    var list := Ask(w, ListChildren(src), o);
    var files := Children(w.store, src);
    if list.error.Some? then list
    else if files == [] then Step(list.w, Some(o(ListChildren(src), w.tick).error))
    else
      var copied := CopyAll(list.w, src, dst, files, o);
      if copied.error.Some? then copied else RemoveTree(copied.w, src, o)
  }

  function DropAll(w: World, folders: seq<string>, keep: string, o: Oracle): (r: Step)
    decreases |folders|
  {
    if folders == [] then Step(w, None)
    else if folders[0] == keep then DropAll(w, folders[1..], keep, o)
    else
      var one := RemoveDataset(w, folders[0], o);
      if one.error.Some? then one else DropAll(one.w, folders[1..], keep, o)
  }

  /** `_cleanup_old_datasets`. */
  function CleanUp(w: World, p: Pair, keep: string, o: Oracle): (r: Step) {
    var list := Ask(w, ListFolders, o);
    if list.error.Some? then list else DropAll(list.w, SortedStrings(DatasetFolders(w.store, p)), keep, o)
  }

  // ----- one execution of `_merge_with_duckdb` -----

  /** Where the pass stopped, and the two variables its `finally` reads. */
  datatype Pass = Pass(w: World, temp: Option<string>, moved: bool, error: Option<Error>)

  /** The merged rows and the marker written to the unfinished folder. */
  function Prepare(w: World, temp: string, out: seq<Row>, o: Oracle): (r: Step) {
    var data := Put(w, WriteData, Key(temp, PART), out, o);
    if data.error.Some? then data else Put(data.w, WriteMarker, Key(temp, Marker), [], o)
  }

  /** From the removal of the target to the end of the clean-up. */
  function Publish(w: World, p: Pair, temp: string, target: string, moved: bool, o: Oracle): (r: Pass)
    requires temp != target
  {
    var gone := RemoveDataset(w, target, o);
    if gone.error.Some? then Pass(gone.w, Some(temp), moved, gone.error)
    else
      var move := MoveFolder(gone.w, temp, target, o);
      if move.error.Some? then Pass(move.w, Some(temp), moved, move.error)
      else
        var tidy := CleanUp(move.w, p, target, o);
        Pass(tidy.w, Some(temp), true, tidy.error)
  }

  function Write(w: World, p: Pair, target: string, moved: bool, out: seq<Row>, o: Oracle): (r: Pass) {
    var temp := TempName(target);
    assert |temp| == |target| + 5;
    var ready := Prepare(w, temp, out, o);
    if ready.error.Some? then Pass(ready.w, Some(temp), moved, ready.error)
    else Publish(ready.w, p, temp, target, moved, o)
  }

  /** `temp` and `moved` come in as the enclosing variables stand. */
  function MergePass(w: World, p: Pair, temp: Option<string>, moved: bool, o: Oracle, tie: Tie): (r: Pass) {
    var read := Ask(w.(passes := w.passes + 1), ReadRange, o);
    var rows := Rows(w.store, p);
    if read.error.Some? then Pass(read.w, temp, moved, read.error)
    else if rows == {} then Pass(read.w, temp, moved, Some(o(ReadRange, w.tick).error))
    else Write(read.w, p, TargetName(rows, p), moved, Merged(rows, tie), o)
  }

  // ----- the retry layers -----

  /** `with_gcs_auth_retry`: after an auth error, refresh the token and run the pass once more. */
  function AuthRetry(w: World, p: Pair, o: Oracle, tie: Tie): (r: Pass) {
    var first := MergePass(w, p, None, false, o, tie);
    if first.error.None? || !first.error.value.auth then first
    else
      var renewed := Ask(first.w, Refresh, o);
      if renewed.error.Some? then first.(w := renewed.w, error := renewed.error)
      else MergePass(renewed.w, p, first.temp, first.moved, o, tie)
  }

  /** The `finally` block: drop an unfinished folder that was not moved. */
  function Finally(r: Pass, o: Oracle): (f: Step) {
    if r.temp.None? || r.moved then Step(r.w, None) else RemoveDataset(r.w, r.temp.value, o)
  }

  /** How `merge_single` ends: it returns, or an exception escapes. */
  datatype End = End(w: World, escaped: Option<Error>)

  datatype Turn = Retry(w: World) | Stop(e: End)

  /** What follows a pass: the `except` block, then the `finally` block. */
  function Settle(r: Pass, attempt: nat, o: Oracle): (t: Turn) {
    var again := r.error.Some? && r.error.value.retriable && attempt < MAX_MERGE_RETRIES;
    var swap := if again then Ask(r.w, NewConnection, o) else Step(r.w, None);
    var done := Finally(r.(w := swap.w), o);
    if done.error.Some? then Stop(End(done.w, done.error))
    else if swap.error.Some? then Stop(End(done.w, swap.error))
    else if again then Retry(done.w)
    else Stop(End(done.w, None))
  }

  function Attempts(w: World, p: Pair, attempt: nat, o: Oracle, tie: Tie): (e: End)
    requires attempt <= MAX_MERGE_RETRIES + 1
    decreases MAX_MERGE_RETRIES + 1 - attempt
  {
    if attempt == MAX_MERGE_RETRIES + 1 then End(w, None)
    else
      var cursor := Ask(w, Cursor, o);
      if cursor.error.Some? then End(cursor.w, cursor.error)
      else
        match Settle(AuthRetry(cursor.w, p, o, tie), attempt, o)
        case Retry(next) => Attempts(next, p, attempt + 1, o, tie)
        case Stop(e) => e
  }

  /** `merge_single`. */
  function MergeSingle(w: World, p: Pair, o: Oracle, tie: Tie): (e: End) {
    var list := Ask(w, ListSources, o);
    if list.error.Some? then End(list.w, list.error)
    else if Sources(w.store, p) == {} then End(list.w, None)
    else Attempts(list.w, p, 0, o, tie)
  }

  /** `batch_merge`: the pairs in order, until an exception escapes. */
  function BatchMerge(w: World, tasks: seq<Pair>, o: Oracle, tie: Tie): (e: End)
    decreases |tasks|
  {
    if tasks == [] then End(w, None)
    else
      var one := MergeSingle(w, tasks[0], o, tie);
      if one.escaped.Some? then one else BatchMerge(one.w, tasks[1..], o, tie)
  }
}
