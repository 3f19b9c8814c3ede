/** Which rows and keys a reader of the pair can see after a call, when any call may raise any error,
    retried or not. No row is invented; and no key is lost unless something fails between the removal
    of the target and the end of the copy. */
module MergeWindow {
  import opened Ordering
  import opened DatasetNames
  import opened ObjectStore
  import opened MergeSpec
  import opened MergeRun
  import opened MergeSafety
  import opened MergeOutcome
  import opened MergeSurvival
  import opened MergeFrame
  import opened Wrappers

  // ----- what a pass can leave -----

  /** Objects can only have gone. */
  ghost predicate Shrunk(s: Store, t: Store) {
    forall k | k in t :: k in s && t[k] == s[k]
  }

  lemma RemovalShrinks(w: World, folder: string, o: Oracle)
    ensures Shrunk(w.store, RemoveDataset(w, folder, o).w.store)
  {
  }

  lemma {:induction false} DropAllShrinks(w: World, folders: seq<string>, keep: string, o: Oracle)
    ensures Shrunk(w.store, DropAll(w, folders, keep, o).w.store)
    decreases |folders|
  {
    hide RemoveDataset;
    if folders != [] {
      RemovalShrinks(w, folders[0], o);
      DropAllShrinks(if folders[0] == keep then w else RemoveDataset(w, folders[0], o).w, folders[1..], keep, o);
    }
  }

  lemma CleanUpShrinks(w: World, p: Pair, keep: string, o: Oracle)
    ensures Shrunk(w.store, CleanUp(w, p, keep, o).w.store)
  {
    hide DropAll;
    DropAllShrinks(Ask(w, ListFolders, o).w, SortedStrings(DatasetFolders(w.store, p)), keep, o);
  }

  /** Every object is an old one, or a copy of what was prepared, in the target. */
  ghost predicate Explained(s: Store, t: Store, target: string, out: seq<Row>) {
    forall k | k in t ::
      (k in s && t[k] == s[k]) || (k == Key(target, PART) && t[k] == out) || k == Key(target, Marker)
  }

  lemma MoveExplained(w: World, target: string, out: seq<Row>, o: Oracle)
    requires TempName(target) != target && Holds(w.store, TempName(target), out) && !HasFolder(w.store, target)
    requires forall k | k in w.store && k.folder == TempName(target) :: k.file == PART || k.file == Marker
    ensures Explained(w.store, MoveFolder(w, TempName(target), target, o).w.store, target, out)
  {
    hide MoveFolder, TempName;
    var temp := TempName(target);
    MoveEffect(w, temp, target, o);
    var t := MoveFolder(w, temp, target, o).w.store;
    forall k | k in t ensures (k in w.store && t[k] == w.store[k])
                              || (k == Key(target, PART) && t[k] == out) || k == Key(target, Marker) {
      if k.folder == target {
        assert Copied(w.store, t, temp, target, k.file);
        assert k == Key(target, k.file);
      } else if k.folder == temp {
        MoveKeepsSource(w, temp, target, o, k);
      } else {
        assert SameAt(w.store, t, k);
      }
    }
  }

  lemma MoveKeepsSource(w: World, src: string, dst: string, o: Oracle, k: Key)
    requires src != dst && Key(src, PART) in w.store && k.folder == src
    requires k in MoveFolder(w, src, dst, o).w.store
    ensures k in w.store && MoveFolder(w, src, dst, o).w.store[k] == w.store[k]
  {
    hide Children, CopyAll;
    var files := Children(w.store, src);
    assert PART in files;
    CopyAllEffect(Ask(w, ListChildren(src), o).w, src, dst, files, o);
    assert SameAt(w.store, CopyAll(Ask(w, ListChildren(src), o).w, src, dst, files, o).w.store, k);
  }

  lemma PublishExplained(w: World, p: Pair, target: string, moved: bool, out: seq<Row>, o: Oracle)
    requires TempName(target) != target && Holds(w.store, TempName(target), out)
    requires forall k | k in w.store && k.folder == TempName(target) :: k.file == PART || k.file == Marker
    ensures Explained(w.store, Publish(w, p, TempName(target), target, moved, o).w.store, target, out)
  {
    hide RemoveDataset, MoveFolder, CleanUp, TempName;
    RemovalShrinks(w, target, o);
    RemoveDatasetEffect(w, target, o);
    var gone := RemoveDataset(w, target, o);
    if gone.error.None? {
      assert SameAt(w.store, gone.w.store, Key(TempName(target), PART));
      MoveExplained(gone.w, target, out, o);
      CleanUpShrinks(MoveFolder(gone.w, TempName(target), target, o).w, p, target, o);
    }
  }

  /** Outside the pair, what is new is one of the two files a pass writes. */
  ghost predicate NewFilesPlain(s: Store, t: Store, p: Pair) {
    forall k | k in t && !InPair(k.folder, p) :: k in s || k.file == PART || k.file == Marker
  }

  lemma ExplainedRows(s: Store, g: Store, t: Store, p: Pair, target: string, tie: Tie)
    requires InPair(target, p) && !InPair(TempName(target), p)
    requires SameBut(s, g, TempName(target)) && Explained(g, t, target, Merged(Rows(s, p), tie))
    requires forall k | k in g && k.folder == TempName(target) :: k in s || k.file == PART || k.file == Marker
    ensures Rows(t, p) <= Rows(s, p) && NewFilesPlain(s, t, p)
  {
    hide InPair, TempName, Merged;
    MergedSorted(Rows(s, p), tie);
    forall k | k in t && k.folder != TempName(target)
      ensures k in s || k == Key(target, PART) || k == Key(target, Marker) {
      assert SameAt(s, g, k);
    }
    forall r | r in Rows(t, p) ensures r in Rows(s, p) {
      var k :| k in t && IsSource(k, p) && r in t[k];
      assert SameAt(s, g, k);
      if k in g && t[k] == g[k] { assert k in s; }
    }
  }

  lemma PassExplained(w: World, p: Pair, temp: Option<string>, moved: bool, o: Oracle, tie: Tie)
    requires Mergeable(p) && TempClean(w.store, p)
    ensures var t := MergePass(w, p, temp, moved, o, tie).w.store;
      Rows(t, p) <= Rows(w.store, p) && NewFilesPlain(w.store, t, p)
  {
    hide MergePass, Publish, TargetName, Merged, InPair, TempName;
    var rows := Rows(w.store, p);
    if rows == {} {
      PassNoRows(w, p, temp, moved, o, tie);
    } else if !o(ReadRange, w.tick).ok {
      PassReadFails(w, p, temp, moved, o, tie);
    } else {
      var target, out := TargetName(rows, p), Merged(rows, tie);
      TargetInPair(rows, p);
      var read := World(w.store, w.tick + 1, w.passes + 1);
      PassWrites(w, p, temp, moved, o, tie, read, rows);
      PrepareEffect(read, TempName(target), out, o);
      var ready := Prepare(read, TempName(target), out, o);
      if ready.error.None? {
        PublishExplained(ready.w, p, target, moved, out, o);
        var t := Publish(ready.w, p, TempName(target), target, moved, o).w.store;
        ExplainedRows(w.store, ready.w.store, t, p, target, tie);
      } else {
        ExplainedRows(w.store, ready.w.store, ready.w.store, p, target, tie);
      }
    }
  }

  // ----- no row is invented -----

  /** The unfinished folders of the pair hold at most the two files a merge writes. */
  ghost predicate CleanTemps(s: Store, p: Pair) {
    forall k | k in s && IsTemp(k.folder, p) :: k.file == PART || k.file == Marker
  }

  ghost predicate Seen(s: Store, t: Store, p: Pair) {
    Rows(t, p) <= Rows(s, p) && CleanTemps(t, p)
  }

  lemma CleanTempsSuffice(s: Store, p: Pair)
    requires Mergeable(p) && CleanTemps(s, p)
    ensures TempClean(s, p)
  {
    hide TargetName, InPair, TempName;
    if Rows(s, p) != {} {
      TargetInPair(Rows(s, p), p);
      TempOfTarget(TargetName(Rows(s, p), p), p);
    }
  }

  lemma TempsAreNoDatasets(folder: string, p: Pair)
    requires Mergeable(p) && IsTemp(folder, p)
    ensures !InPair(folder, p)
  {
    assert folder == TempName(folder[5..]);
    OwnTempIsNoDataset(folder[5..], p);
  }

  lemma PassSeen(w: World, p: Pair, temp: Option<string>, moved: bool, o: Oracle, tie: Tie, s: Store)
    requires Mergeable(p) && Seen(s, w.store, p)
    ensures Seen(s, MergePass(w, p, temp, moved, o, tie).w.store, p)
  {
    hide MergePass, InPair, IsTemp, TempClean, Rows;
    CleanTempsSuffice(w.store, p);
    PassExplained(w, p, temp, moved, o, tie);
    var t := MergePass(w, p, temp, moved, o, tie).w.store;
    forall k | k in t && IsTemp(k.folder, p) ensures k.file == PART || k.file == Marker {
      TempsAreNoDatasets(k.folder, p);
    }
  }

  lemma ShrunkSeen(s: Store, t: Store, u: Store, p: Pair)
    requires Seen(s, t, p) && Shrunk(t, u)
    ensures Seen(s, u, p)
  {
    hide InPair, IsTemp;
  }

  lemma TurnSeen(w: World, p: Pair, attempt: nat, o: Oracle, tie: Tie, s: Store)
    requires Mergeable(p) && Seen(s, w.store, p)
    ensures match Settle(AuthRetry(w, p, o, tie), attempt, o)
      case Retry(next) => Seen(s, next.store, p)
      case Stop(e) => Seen(s, e.w.store, p)
  {
    hide MergePass, RemoveDataset, Seen, Mergeable;
    PassSeen(w, p, None, false, o, tie, s);
    var first := MergePass(w, p, None, false, o, tie);
    PassSeen(Ask(first.w, Refresh, o).w, p, first.temp, first.moved, o, tie, s);
    var r := AuthRetry(w, p, o, tie);
    forall v: World | v.store == r.w.store ensures Seen(s, Finally(r.(w := v), o).w.store, p) {
      if r.temp.Some? && !r.moved {
        RemovalShrinks(v, r.temp.value, o);
        ShrunkSeen(s, v.store, RemoveDataset(v, r.temp.value, o).w.store, p);
      }
    }
  }

  lemma AttemptsSeen(w: World, p: Pair, attempt: nat, o: Oracle, tie: Tie, s: Store)
    requires Mergeable(p) && attempt <= MAX_MERGE_RETRIES + 1 && Seen(s, w.store, p)
    ensures Seen(s, Attempts(w, p, attempt, o, tie).w.store, p)
    decreases MAX_MERGE_RETRIES + 1 - attempt
  {
    hide AuthRetry, Settle, Seen, Mergeable;
    if attempt <= MAX_MERGE_RETRIES && o(Cursor, w.tick).ok {
      var cursor := Ask(w, Cursor, o);
      TurnSeen(cursor.w, p, attempt, o, tie, s);
      var turn := Settle(AuthRetry(cursor.w, p, o, tie), attempt, o);
      if turn.Retry? {
        AttemptsSeen(turn.w, p, attempt + 1, o, tie, s);
      }
    }
  }

  /** Whatever fails and is retried, every row a reader of the pair sees after a call was there before. */
  lemma NothingInvented(w: World, p: Pair, o: Oracle, tie: Tie)
    requires Mergeable(p) && CleanTemps(w.store, p)
    ensures Rows(MergeSingle(w, p, o, tie).w.store, p) <= Rows(w.store, p)
  {
    hide Attempts, CleanTemps;
    AttemptsSeen(Ask(w, ListSources, o).w, p, 0, o, tie, w.store);
  }

  // ----- a quiet window -----

  /** The pair has the keys it had, and so the target has its name. */
  ghost predicate Steady(s: Store, t: Store, p: Pair) {
    Times(t, p) == Times(s, p) && TempClean(t, p)
  }

  lemma SteadyName(s: Store, t: Store, p: Pair)
    requires Times(t, p) == Times(s, p) && Rows(s, p) != {}
    ensures Rows(t, p) != {} && TargetName(Rows(t, p), p) == TargetName(Rows(s, p), p)
  {
    hide TargetName;
    SameTarget(Rows(t, p), Rows(s, p), p);
  }

  lemma PassSteady(w: World, p: Pair, temp: Option<string>, moved: bool, o: Oracle, tie: Tie, s: Store)
    requires Mergeable(p) && Rows(s, p) != {} && WindowOk(o, TargetName(Rows(s, p), p)) && Steady(s, w.store, p)
    ensures Steady(s, MergePass(w, p, temp, moved, o, tie).w.store, p)
  {
    hide MergePass, TargetName, Merged, InPair, TempName, WindowOk, Rows;
    var t := MergePass(w, p, temp, moved, o, tie).w.store;
    SteadyName(s, w.store, p);
    var rows := Rows(w.store, p);
    TargetInPair(rows, p);
    PassExplained(w, p, temp, moved, o, tie);
    PassWindow(w, p, temp, moved, o, tie);
    if Holds(t, TargetName(rows, p), Merged(rows, tie)) {
      HoldsTimes(t, TargetName(rows, p), rows, tie, p);
    } else {
      SameButReads(w.store, t, TempOf(w.store, p), p);
    }
    assert TimesOf(Rows(t, p)) <= TimesOf(rows);
    SteadyName(s, t, p);
  }

  lemma RemovalSteady(w: World, p: Pair, folder: string, o: Oracle, s: Store)
    requires Mergeable(p) && IsTemp(folder, p) && Steady(s, w.store, p)
    ensures Steady(s, RemoveDataset(w, folder, o).w.store, p)
  {
    hide RemoveDataset, InPair, IsTemp, Mergeable, TargetName, TempName;
    TempsAreNoDatasets(folder, p);
    RemovalShrinks(w, folder, o);
    RemoveDatasetEffect(w, folder, o);
    SameButReads(w.store, RemoveDataset(w, folder, o).w.store, folder, p);
  }

  lemma TurnSteady(w: World, p: Pair, attempt: nat, o: Oracle, tie: Tie, s: Store)
    requires Mergeable(p) && Rows(s, p) != {} && WindowOk(o, TargetName(Rows(s, p), p)) && Steady(s, w.store, p)
    ensures match Settle(AuthRetry(w, p, o, tie), attempt, o)
      case Retry(next) => Steady(s, next.store, p)
      case Stop(e) => Steady(s, e.w.store, p)
  {
    hide MergePass, RemoveDataset, Steady, Mergeable, WindowOk, TargetName, Rows, IsTemp;
    PassSteady(w, p, None, false, o, tie, s);
    PassIsLocal(w, p, None, false, o, tie);
    var first := MergePass(w, p, None, false, o, tie);
    var again := Ask(first.w, Refresh, o).w;
    PassSteady(again, p, first.temp, first.moved, o, tie, s);
    PassIsLocal(again, p, first.temp, first.moved, o, tie);
    var r := AuthRetry(w, p, o, tie);
    forall v: World | v.store == r.w.store ensures Steady(s, Finally(r.(w := v), o).w.store, p) {
      if r.temp.Some? && !r.moved {
        RemovalSteady(v, p, r.temp.value, o, s);
      }
    }
  }

  lemma AttemptsSteady(w: World, p: Pair, attempt: nat, o: Oracle, tie: Tie, s: Store)
    requires Mergeable(p) && Rows(s, p) != {} && WindowOk(o, TargetName(Rows(s, p), p)) && Steady(s, w.store, p)
    requires attempt <= MAX_MERGE_RETRIES + 1
    ensures Steady(s, Attempts(w, p, attempt, o, tie).w.store, p)
    decreases MAX_MERGE_RETRIES + 1 - attempt
  {
    hide AuthRetry, Settle, Steady, Mergeable, WindowOk, TargetName, Rows;
    if attempt <= MAX_MERGE_RETRIES && o(Cursor, w.tick).ok {
      var cursor := Ask(w, Cursor, o);
      TurnSteady(cursor.w, p, attempt, o, tie, s);
      var turn := Settle(AuthRetry(cursor.w, p, o, tie), attempt, o);
      if turn.Retry? {
        AttemptsSteady(turn.w, p, attempt + 1, o, tie, s);
      }
    }
  }

  /** If nothing fails between the removal of the target and the end of the copy, a call ends with
      exactly the keys it found, whatever else fails, in its clean-up too, and is retried. */
  lemma WindowKeepsTimes(w: World, p: Pair, o: Oracle, tie: Tie)
    requires Mergeable(p) && TempClean(w.store, p)
    requires Rows(w.store, p) != {} ==> WindowOk(o, TargetName(Rows(w.store, p), p))
    ensures Times(MergeSingle(w, p, o, tie).w.store, p) == Times(w.store, p)
  {
    hide Attempts, WindowOk, TempClean, TargetName, Rows;
    var list := Ask(w, ListSources, o);
    if Rows(w.store, p) == {} {
      AttemptsNoRows(list.w, p, 0, o, tie);
    } else {
      AttemptsSteady(list.w, p, 0, o, tie, w.store);
    }
  }
}
