/** How a `merge_single` call ends: undisturbed, under DuckDB failures, and under store failures. */
module MergeOutcome {
  import opened Ordering
  import opened DatasetNames
  import opened ObjectStore
  import opened MergeSpec
  import opened MergeRun
  import opened MergeSafety
  import opened Wrappers

  // ----- kinds of failure schedules -----

  ghost predicate StoreOk(o: Oracle) {
    forall c: Call, k: nat :: c.OnStore() ==> o(c, k).ok
  }

  ghost predicate AllOk(o: Oracle) {
    forall c: Call, k: nat :: o(c, k).ok
  }

  /** The unfinished folder of the coming merge holds at most the two files a merge writes there,
      as an interrupted earlier run leaves it. */
  predicate TempClean(s: Store, p: Pair) {
    Rows(s, p) != {} ==>
      forall k | k in s && k.folder == TempName(TargetName(Rows(s, p), p)) :: k.file == PART || k.file == Marker
  }

  // ----- the helpers when the store answers -----

  lemma {:induction false} CopyAllOk(w: World, src: string, dst: string, files: seq<File>, o: Oracle)
    requires StoreOk(o) && src != dst && forall f | f in files :: Key(src, f) in w.store
    ensures CopyAll(w, src, dst, files, o).error.None?
    decreases |files|
  {
    if files != [] {
      var k := Key(dst, files[0]);
      CopyAllOk(Put(w, CopyFile(Key(src, files[0]), k), k, w.store[Key(src, files[0])], o).w, src, dst, files[1..], o);
    }
  }

  lemma {:induction false} DropAllOk(w: World, folders: seq<string>, keep: string, o: Oracle)
    requires StoreOk(o)
    ensures DropAll(w, folders, keep, o).error.None?
    decreases |folders|
  {
    if folders != [] {
      DropAllOk(if folders[0] == keep then w else RemoveDataset(w, folders[0], o).w, folders[1..], keep, o);
    }
  }

  lemma MoveOk(w: World, src: string, dst: string, o: Oracle)
    requires StoreOk(o) && src != dst && Key(src, PART) in w.store
    ensures MoveFolder(w, src, dst, o).error.None?
  {
    hide Children, CopyAll;
    var files := Children(w.store, src);
    assert PART in files;
    CopyAllOk(Ask(w, ListChildren(src), o).w, src, dst, files, o);
  }

  /** Publishing prepared rows without an error ends in the undisturbed result. */
  lemma PublishDone(s: Store, w: World, p: Pair, temp: string, target: string, moved: bool, out: seq<Row>, o: Oracle)
    requires InPair(target, p) && !InPair(temp, p) && temp == TempName(target) && temp != target
    requires w.store == s[Key(temp, PART) := out][Key(temp, Marker) := []]
    requires forall k | k in s && k.folder == temp :: k.file == PART || k.file == Marker
    requires Publish(w, p, temp, target, moved, o).error.None?
    ensures var r := Publish(w, p, temp, target, moved, o); r.moved && r.w.store == Published(s, p, target, out)
  {
    hide MoveFolder, DropAll, CleanUp, InPair, TempName, Published;
    RemoveDatasetEffect(w, target, o);
    var gone := RemoveDataset(w, target, o);
    assert Key(temp, PART) in gone.w.store;
    MoveEffect(gone.w, temp, target, o);
    var move := MoveFolder(gone.w, temp, target, o);
    MovedStore(s, gone.w.store, move.w.store, temp, target, out);
    CleanUpEffect(move.w, p, target, o);
    TidiedStore(s, move.w.store, CleanUp(move.w, p, target, o).w.store, p, temp, target, out);
  }

  lemma CleanUpOk(w: World, p: Pair, keep: string, o: Oracle)
    requires StoreOk(o)
    ensures CleanUp(w, p, keep, o).error.None?
  {
    hide DropAll;
    DropAllOk(Ask(w, ListFolders, o).w, SortedStrings(DatasetFolders(w.store, p)), keep, o);
  }

  /** When the store answers, there is no error. */
  lemma PublishOk(s: Store, w: World, p: Pair, temp: string, target: string, moved: bool, out: seq<Row>, o: Oracle)
    requires StoreOk(o) && InPair(target, p) && !InPair(temp, p) && temp == TempName(target) && temp != target
    requires w.store == s[Key(temp, PART) := out][Key(temp, Marker) := []]
    requires forall k | k in s && k.folder == temp :: k.file == PART || k.file == Marker
    ensures var r := Publish(w, p, temp, target, moved, o);
      r.error.None? && r.moved && r.w.store == Published(s, p, target, out)
  {
    hide MoveFolder, CleanUp, InPair, TempName, Published;
    RemoveDatasetEffect(w, target, o);
    var gone := RemoveDataset(w, target, o);
    assert Key(temp, PART) in gone.w.store;
    MoveOk(gone.w, temp, target, o);
    CleanUpOk(MoveFolder(gone.w, temp, target, o).w, p, target, o);
    PublishDone(s, w, p, temp, target, moved, out, o);
  }

  /** The store between the move and the clean-up. */
  ghost predicate Swapped(s: Store, m: Store, temp: string, target: string, out: seq<Row>) {
    && (forall k: Key :: k.folder != temp && k.folder != target ==> SameAt(s, m, k))
    && !HasFolder(m, temp)
    && (forall f :: Key(target, f) in m <==> f == PART || f == Marker)
    && Holds(m, target, out) && m[Key(target, Marker)] == []
  }

  lemma MovedStore(s: Store, g: Store, m: Store, temp: string, target: string, out: seq<Row>)
    requires temp != target
    requires g == DropFolder(s[Key(temp, PART) := out][Key(temp, Marker) := []], target)
    requires forall k | k in s && k.folder == temp :: k.file == PART || k.file == Marker
    requires forall k: Key :: k.folder != temp && k.folder != target ==> SameAt(g, m, k)
    requires !HasFolder(m, temp)
    requires forall f :: Key(target, f) in m <==> Key(temp, f) in g
    requires forall f | Key(temp, f) in g :: m[Key(target, f)] == g[Key(temp, f)]
    ensures Swapped(s, m, temp, target, out)
  {
    forall k: Key | k.folder != temp && k.folder != target ensures SameAt(s, m, k) {
      assert SameAt(g, m, k);
    }
    forall f ensures Key(temp, f) in g <==> f == PART || f == Marker {
      assert Key(temp, f) in s ==> f == PART || f == Marker;
    }
    assert m[Key(target, Marker)] == g[Key(temp, Marker)];
    assert m[Key(target, PART)] == g[Key(temp, PART)];
  }

  lemma TidiedStore(s: Store, m: Store, t: Store, p: Pair, temp: string, target: string, out: seq<Row>)
    requires Swapped(s, m, temp, target, out) && InPair(target, p) && !InPair(temp, p) && temp == TempName(target)
    requires forall k: Key :: k.folder == target || !InPair(k.folder, p) ==> SameAt(m, t, k)
    requires t.Keys <= m.Keys
    requires forall k | k in t :: k.folder == target || k.folder !in DatasetFolders(m, p)
    requires forall k: Key :: k.folder !in DatasetFolders(m, p) ==> SameAt(m, t, k)
    ensures t == Published(s, p, target, out)
  {
    forall f | f != target ensures f in DatasetFolders(m, p) <==> f in DatasetFolders(s, p) {
      if f in DatasetFolders(m, p) { var k :| k in m && IsSource(k, p) && k.folder == f; assert SameAt(s, m, k); }
      if f in DatasetFolders(s, p) { var k :| k in s && IsSource(k, p) && k.folder == f; assert SameAt(s, m, k); }
    }
    var r := Published(s, p, target, out);
    forall k ensures SameAt(t, r, k) {
      if k.folder == target {
        assert SameAt(m, t, k);
        assert k == Key(target, k.file);
      } else if k.folder == temp {
        assert k !in m;
      } else {
        assert SameAt(s, m, k);
        assert k.folder !in DatasetFolders(m, p) ==> SameAt(m, t, k);
      }
    }
    SameEverywhere(t, r);
  }

  // ----- pairs without rows -----

  lemma PassNoRows(w: World, p: Pair, temp: Option<string>, moved: bool, o: Oracle, tie: Tie)
    requires Rows(w.store, p) == {}
    ensures Idle(w.store, MergePass(w, p, temp, moved, o, tie), temp, moved)
  {
  }

  lemma AttemptsNoRows(w: World, p: Pair, attempt: nat, o: Oracle, tie: Tie)
    requires attempt <= MAX_MERGE_RETRIES + 1 && Rows(w.store, p) == {}
    ensures Attempts(w, p, attempt, o, tie).w.store == w.store
    ensures AllOk(o) ==> Attempts(w, p, attempt, o, tie).escaped.None?
    decreases MAX_MERGE_RETRIES + 1 - attempt
  {
    hide AuthRetry;
    if attempt <= MAX_MERGE_RETRIES && o(Cursor, w.tick).ok {
      var cursor := Ask(w, Cursor, o);
      AuthRetryNoRows(cursor.w, p, o, tie);
      var turn := Settle(AuthRetry(cursor.w, p, o, tie), attempt, o);
      if turn.Retry? {
        AttemptsNoRows(turn.w, p, attempt + 1, o, tie);
      }
    }
  }

  lemma AuthRetryNoRows(w: World, p: Pair, o: Oracle, tie: Tie)
    requires Rows(w.store, p) == {}
    ensures Idle(w.store, AuthRetry(w, p, o, tie), None, false)
  {
    hide MergePass;
    PassNoRows(w, p, None, false, o, tie);
    var first := MergePass(w, p, None, false, o, tie);
    PassNoRows(Ask(first.w, Refresh, o).w, p, None, false, o, tie);
  }

  // ----- failures of DuckDB only: all or nothing -----

  /** The pass prepared at most its unfinished folder. */
  ghost predicate Pending(s: Store, t: Store, temp: string) {
    SameBut(s, t, temp) && forall k | k in t && k.folder == temp :: k.file == PART || k.file == Marker
  }

  function TempOf(s: Store, p: Pair): (temp: string)
    requires Rows(s, p) != {}
  {
    TempName(TargetName(Rows(s, p), p))
  }

  /** The source folders as they were; at most a stale unfinished folder has been cleared. */
  predicate Unmerged(s: Store, t: Store, p: Pair)
    requires Rows(s, p) != {}
  {
    t == s || t == DropFolder(s, TempOf(s, p))
  }

  /** A pass whose store calls succeed merges completely, or fails before it publishes. */
  ghost predicate WholeOrPending(s: Store, t: Store, r: Pass, p: Pair, temp: Option<string>, tie: Tie)
    requires Rows(s, p) != {}
  {
    if r.error.None? then r.moved && r.w.store == MergeOnce(s, p, tie)
    else
      && !r.moved && Pending(s, r.w.store, TempOf(s, p))
      && ((r.temp == temp && r.w.store == t) || r.temp == Some(TempOf(s, p)))
  }

  lemma PublishedSame(s: Store, t: Store, p: Pair, target: string, out: seq<Row>)
    requires SameBut(s, t, TempName(target)) && !InPair(TempName(target), p)
    ensures Published(s, p, target, out) == Published(t, p, target, out)
  {
    SameButReads(s, t, TempName(target), p);
    forall k: Key | k.folder != TempName(target) ensures SameAt(s, t, k) {}
  }

  lemma PassWhole(w: World, p: Pair, temp: Option<string>, o: Oracle, tie: Tie, s: Store)
    requires Mergeable(p) && StoreOk(o) && Rows(s, p) != {} && Pending(s, w.store, TempOf(s, p))
    ensures WholeOrPending(s, w.store, MergePass(w, p, temp, false, o, tie), p, temp, tie)
  {
    hide MergePass, Write, Publish, Prepare, TargetName, Merged, Published, InPair, TempName;
    var rows := Rows(s, p);
    var target, out := TargetName(rows, p), Merged(rows, tie);
    TargetInPair(rows, p);
    SameButReads(s, w.store, TempName(target), p);
    if o(ReadRange, w.tick).ok {
      var ready := World(w.store, w.tick + 1, w.passes + 1);
      PassWrites(w, p, temp, false, o, tie, ready, rows);
      WriteWhole(ready, p, target, out, o, s);
      assert MergeOnce(s, p, tie) == Published(s, p, target, out);
    } else {
      PassReadFails(w, p, temp, false, o, tie);
    }
  }

  lemma PassReadFails(w: World, p: Pair, temp: Option<string>, moved: bool, o: Oracle, tie: Tie)
    requires !o(ReadRange, w.tick).ok
    ensures Idle(w.store, MergePass(w, p, temp, moved, o, tie), temp, moved)
  {
  }

  lemma WriteWhole(w: World, p: Pair, target: string, out: seq<Row>, o: Oracle, s: Store)
    requires StoreOk(o) && InPair(target, p) && !InPair(TempName(target), p) && TempName(target) != target
    requires Pending(s, w.store, TempName(target))
    ensures var r := Write(w, p, target, false, out, o);
      if r.error.None? then r.moved && r.w.store == Published(s, p, target, out)
      else !r.moved && Pending(s, r.w.store, TempName(target)) && r.temp == Some(TempName(target))
  {
    hide Publish, Published, InPair, TempName;
    var temp := TempName(target);
    var ready := Prepare(w, temp, out, o);
    if ready.error.None? {
      PublishOk(w.store, ready.w, p, temp, target, false, out, o);
      PublishedSame(s, w.store, p, target, out);
    }
  }

  lemma AuthRetryWhole(w: World, p: Pair, o: Oracle, tie: Tie, s: Store)
    requires Mergeable(p) && StoreOk(o) && Rows(s, p) != {} && Pending(s, w.store, TempOf(s, p))
    ensures WholeOrPending(s, w.store, AuthRetry(w, p, o, tie), p, None, tie)
  {
    hide MergePass, MergeOnce, TempOf;
    PassWhole(w, p, None, o, tie, s);
    var first := MergePass(w, p, None, false, o, tie);
    if first.error.Some? && first.error.value.auth && o(Refresh, first.w.tick).ok {
      PassWhole(Ask(first.w, Refresh, o).w, p, first.temp, o, tie, s);
    }
  }

  /** After the `finally` of a failed pass no unfinished folder is left behind. */
  lemma SettleWhole(t: Store, r: Pass, p: Pair, attempt: nat, o: Oracle, tie: Tie, s: Store)
    requires StoreOk(o) && Rows(s, p) != {} && Unmerged(s, t, p)
    requires WholeOrPending(s, t, r, p, None, tie)
    ensures var turn := Settle(r, attempt, o);
      match turn
      case Retry(w) => Unmerged(s, w.store, p)
      case Stop(e) => Unmerged(s, e.w.store, p) || e.w.store == MergeOnce(s, p, tie)
    ensures r.error.None? ==> Settle(r, attempt, o) == Stop(End(r.w, None))
  {
    hide MergeOnce, TempOf, RemoveDataset;
    if r.error.Some? && r.temp.Some? {
      forall w: World | w.store == r.w.store ensures var f := RemoveDataset(w, r.temp.value, o);
        f.error.None? && Unmerged(s, f.w.store, p) {
        RemoveDatasetOk(w, r.temp.value, o);
        SameDropped(s, w.store, TempOf(s, p));
      }
    }
  }

  lemma RemoveDatasetOk(w: World, folder: string, o: Oracle)
    requires StoreOk(o)
    ensures var r := RemoveDataset(w, folder, o); r.error.None? && r.w.store == DropFolder(w.store, folder)
  {
  }

  lemma SameDropped(s: Store, t: Store, folder: string)
    requires SameBut(s, t, folder)
    ensures DropFolder(s, folder) == DropFolder(t, folder)
  {
  }

  lemma UnmergedPends(s: Store, t: Store, p: Pair)
    requires Rows(s, p) != {} && TempClean(s, p) && Unmerged(s, t, p)
    ensures Pending(s, t, TempOf(s, p))
  {
  }

  /** When exceptions come only from DuckDB, the retries end with the sources unchanged or with
      the whole merge. */
  lemma AttemptsWhole(w: World, p: Pair, attempt: nat, o: Oracle, tie: Tie, s: Store)
    requires attempt <= MAX_MERGE_RETRIES + 1
    requires Mergeable(p) && StoreOk(o) && Rows(s, p) != {} && TempClean(s, p) && Unmerged(s, w.store, p)
    ensures var e := Attempts(w, p, attempt, o, tie);
      Unmerged(s, e.w.store, p) || e.w.store == MergeOnce(s, p, tie)
    decreases MAX_MERGE_RETRIES + 1 - attempt
  {
    hide AuthRetry, Settle, MergeOnce, TempOf, Unmerged, TempClean;
    if attempt <= MAX_MERGE_RETRIES && o(Cursor, w.tick).ok {
      var cursor := Ask(w, Cursor, o);
      UnmergedPends(s, w.store, p);
      AuthRetryWhole(cursor.w, p, o, tie, s);
      var r := AuthRetry(cursor.w, p, o, tie);
      SettleWhole(w.store, r, p, attempt, o, tie, s);
      var turn := Settle(r, attempt, o);
      if turn.Retry? {
        AttemptsWhole(turn.w, p, attempt + 1, o, tie, s);
      }
    }
  }

  lemma PassesBounded(w: World, p: Pair, attempt: nat, o: Oracle, tie: Tie)
    requires Mergeable(p) && attempt <= MAX_MERGE_RETRIES + 1
    ensures Attempts(w, p, attempt, o, tie).w.passes <= w.passes + 2 * (MAX_MERGE_RETRIES + 1 - attempt)
    decreases MAX_MERGE_RETRIES + 1 - attempt
  {
    hide MergePass, RemoveDataset;
    if attempt <= MAX_MERGE_RETRIES && o(Cursor, w.tick).ok {
      var cursor := Ask(w, Cursor, o);
      PassEffect(cursor.w, p, None, false, o, tie);
      var first := MergePass(cursor.w, p, None, false, o, tie);
      PassEffect(Ask(first.w, Refresh, o).w, p, first.temp, first.moved, o, tie);
      var r := AuthRetry(cursor.w, p, o, tie);
      SettlePasses(r, attempt, o);
      var turn := Settle(r, attempt, o);
      if turn.Retry? {
        PassesBounded(turn.w, p, attempt + 1, o, tie);
      }
    }
  }

  lemma SettlePasses(r: Pass, attempt: nat, o: Oracle)
    ensures match Settle(r, attempt, o) case Retry(w) => w.passes == r.w.passes case Stop(e) => e.w.passes == r.w.passes
  {
  }

  /** Under failures of DuckDB alone, whatever their schedule over both retry layers, a call ends
      with the store as it was or with the merge complete, after at most six passes; it leaves no
      unfinished folder unless it found one and never got to write. */
  lemma AllOrNothing(w: World, p: Pair, o: Oracle, tie: Tie)
    requires Mergeable(p) && StoreOk(o) && TempClean(w.store, p)
    ensures var s, t := w.store, MergeSingle(w, p, o, tie).w.store;
      && (t == s || t == MergeOnce(s, p, tie) || (Rows(s, p) != {} && t == DropFolder(s, TempOf(s, p))))
      && (Rows(s, p) != {} ==> t == s || !HasFolder(t, TempOf(s, p)))
    ensures MergeSingle(w, p, o, tie).w.passes <= w.passes + 6
  {
    hide Attempts, MergeOnce, TempOf;
    var list := Ask(w, ListSources, o);
    PassesBounded(list.w, p, 0, o, tie);
    if Rows(w.store, p) == {} {
      AttemptsNoRows(list.w, p, 0, o, tie);
    } else {
      AttemptsWhole(list.w, p, 0, o, tie, w.store);
      MergedTempGone(w.store, p, tie);
    }
  }

  lemma MergedTempGone(s: Store, p: Pair, tie: Tie)
    requires Mergeable(p) && Rows(s, p) != {}
    ensures !HasFolder(MergeOnce(s, p, tie), TempOf(s, p))
  {
    hide TargetName, Merged, TempName;
    TargetInPair(Rows(s, p), p);
  }

  // ----- no failures -----

  lemma PassOk(w: World, p: Pair, o: Oracle, tie: Tie)
    requires Mergeable(p) && AllOk(o) && Rows(w.store, p) != {} && TempClean(w.store, p)
    ensures MergePass(w, p, None, false, o, tie).error.None?
  {
    hide MergePass, TargetName, Merged, Publish, InPair, TempName;
    var rows := Rows(w.store, p);
    var ready := World(w.store, w.tick + 1, w.passes + 1);
    TargetInPair(rows, p);
    PassWrites(w, p, None, false, o, tie, ready, rows);
    var temp := TempName(TargetName(rows, p));
    var prepared := Prepare(ready, temp, Merged(rows, tie), o);
    PublishOk(w.store, prepared.w, p, temp, TargetName(rows, p), false, Merged(rows, tie), o);
  }

  /** A call in which nothing fails does the undisturbed merge. */
  lemma UndisturbedRun(w: World, p: Pair, o: Oracle, tie: Tie)
    requires Mergeable(p) && AllOk(o) && TempClean(w.store, p)
    ensures MergeSingle(w, p, o, tie).w.store == MergeOnce(w.store, p, tie)
    ensures MergeSingle(w, p, o, tie).escaped.None?
  {
    hide MergePass, MergeOnce, TempOf;
    var list := Ask(w, ListSources, o);
    if Rows(w.store, p) == {} {
      AttemptsNoRows(list.w, p, 0, o, tie);
      assert MergeOnce(w.store, p, tie) == w.store by { NoRowsNoMerge(w.store, p, tie); }
    } else {
      var cursor := Ask(list.w, Cursor, o);
      PassOk(cursor.w, p, o, tie);
      UnmergedPends(w.store, w.store, p);
      PassWhole(cursor.w, p, None, o, tie, w.store);
      RowsHaveSources(w.store, p);
    }
  }

  /** A stray file of the unfinished folder is moved into the target with the rest. */
  lemma StrayFileMoves(w: World, p: Pair, o: Oracle, tie: Tie, f: File)
    requires Mergeable(p) && AllOk(o) && Rows(w.store, p) != {} && Key(TempOf(w.store, p), f) in w.store
    ensures Key(TargetName(Rows(w.store, p), p), f) in MergeSingle(w, p, o, tie).w.store
  {
    hide MergePass, TargetName, Merged, RemoveDataset, MoveFolder, CleanUp, InPair, TempName;
    var rows := Rows(w.store, p);
    var target, temp := TargetName(rows, p), TempOf(w.store, p);
    TargetInPair(rows, p);
    RowsHaveSources(w.store, p);
    var cursor := Ask(Ask(w, ListSources, o).w, Cursor, o).w;
    var read := World(w.store, cursor.tick + 1, cursor.passes + 1);
    PassWrites(cursor, p, None, false, o, tie, read, rows);
    var ready := Prepare(read, temp, Merged(rows, tie), o).w;
    RemoveDatasetOk(ready, target, o);
    var gone := RemoveDataset(ready, target, o).w;
    MoveOk(gone, temp, target, o);
    MoveEffect(gone, temp, target, o);
    var move := MoveFolder(gone, temp, target, o).w;
    assert Key(target, f) in move.store;
    CleanUpOk(move, p, target, o);
    CleanUpEffect(move, p, target, o);
    assert SameAt(move.store, CleanUp(move, p, target, o).w.store, Key(target, f));
  }

  /** A call in which nothing fails does the undisturbed merge if and only if the unfinished folder it
      finds, if any, holds no file but the two it overwrites. */
  lemma UndisturbedExactly(w: World, p: Pair, o: Oracle, tie: Tie)
    requires Mergeable(p) && AllOk(o)
    ensures MergeSingle(w, p, o, tie).w.store == MergeOnce(w.store, p, tie) <==> TempClean(w.store, p)
  {
    hide MergeSingle, TargetName, Merged, TempName;
    if TempClean(w.store, p) {
      UndisturbedRun(w, p, o, tie);
    } else {
      var k :| k in w.store && k.folder == TempOf(w.store, p) && k.file != PART && k.file != Marker;
      assert k == Key(TempOf(w.store, p), k.file);
      StrayFileMoves(w, p, o, tie, k.file);
      assert Key(TargetName(Rows(w.store, p), p), k.file) !in MergeOnce(w.store, p, tie);
    }
  }

  lemma NoRowsNoMerge(s: Store, p: Pair, tie: Tie)
    requires Rows(s, p) == {}
    ensures MergeOnce(s, p, tie) == s
  {}

  lemma RowsHaveSources(s: Store, p: Pair)
    requires Rows(s, p) != {}
    ensures Sources(s, p) != {}
  {
    var r :| r in Rows(s, p);
    var k :| k in s && IsSource(k, p) && r in s[k];
    assert k in Sources(s, p);
  }
}
