/** `merge_all_available_data`: counting datasets from a listing, and the normal form one run
    reaches. */
module MergeAll {
  import opened Calendar
  import opened DatasetNames
  import opened ObjectStore
  import opened MergeSpec
  import opened MergeRun
  import opened MergeOutcome
  import opened MergeBatch
  import opened MergeFrame

  // ----- counting -----

  function FoldersOf(paths: seq<string>): (fs: set<string>) {
    set x | x in paths :: DatasetOf(x)
  }

  /** The parser reads this pair off a dataset folder. */
  predicate Parsed(folder: string, p: Pair) {
    var parts := ParsePair(folder);
    |parts| >= 2 && p == Pair(parts[0], parts[1])
  }

  /** The number of distinct dataset folders of a pair in a listing. */
  function CountOf(paths: seq<string>, p: Pair): (n: nat) {
    |set f | f in FoldersOf(paths) && Parsed(f, p)|
  }

  ghost predicate Counted(counts: map<Pair, nat>, paths: seq<string>) {
    forall p :: if p in counts then counts[p] == CountOf(paths, p) > 0 else CountOf(paths, p) == 0
  }

  /** The counting loop: paths of one dataset count once, however many part files are listed. */
  method CountDatasets(paths: seq<string>) returns (counts: map<Pair, nat>)
    ensures forall p :: p in counts <==> CountOf(paths, p) > 0
    ensures forall p | p in counts :: counts[p] == CountOf(paths, p)
  {
    hide DatasetOf, ParsePair, CountOf;
    counts := map[];
    CountEmpty();
    var seen: set<string> := {};
    for i := 0 to |paths|
      invariant seen == FoldersOf(paths[..i])
      invariant Counted(counts, paths[..i])
    {
      var dataset := DatasetOf(paths[i]);
      assert paths[..i + 1] == paths[..i] + [paths[i]];
      NextFolders(paths[..i], paths[i]);
      ghost var before := counts;
      if dataset !in seen {
        seen := seen + {dataset};
        var parts := ParsePair(dataset);
        if |parts| >= 2 {
          var p := Pair(parts[0], parts[1]);
          counts := counts[p := (if p in counts then counts[p] else 0) + 1];
        }
      }
      CountedNext(before, counts, paths[..i], paths[i]);
    }
    assert paths[..|paths|] == paths;
  }

  lemma CountEmpty()
    ensures forall p :: CountOf([], p) == 0
  {
  }

  /** One turn of the loop. */
  lemma CountedNext(before: map<Pair, nat>, after: map<Pair, nat>, paths: seq<string>, path: string)
    requires Counted(before, paths)
    requires forall p :: (if p in after then after[p] else 0) == (if p in before then before[p] else 0)
                         + (if DatasetOf(path) !in FoldersOf(paths) && Parsed(DatasetOf(path), p) then 1 else 0)
    requires forall p | p in after :: after[p] > 0
    ensures Counted(after, paths + [path])
  {
    hide CountOf, Parsed, FoldersOf;
    forall p
      ensures if p in after then after[p] == CountOf(paths + [path], p) > 0 else CountOf(paths + [path], p) == 0 {
      NextCount(paths, path, p);
    }
  }

  lemma NextFolders(paths: seq<string>, path: string)
    ensures FoldersOf(paths + [path]) == FoldersOf(paths) + {DatasetOf(path)}
  {
  }

  lemma NextCount(paths: seq<string>, path: string, p: Pair)
    ensures var d := DatasetOf(path);
      CountOf(paths + [path], p) == CountOf(paths, p) + (if d !in FoldersOf(paths) && Parsed(d, p) then 1 else 0)
  {
    NextFolders(paths, path);
    var d := DatasetOf(path);
    var a, b := set f | f in FoldersOf(paths) && Parsed(f, p), set f | f in FoldersOf(paths + [path]) && Parsed(f, p);
    if d !in FoldersOf(paths) && Parsed(d, p) {
      assert b == a + {d};
    } else {
      assert b == a;
    }
  }

  // ----- the listing of a store -----

  // The recursive `fs.glob` for *.parquet: every part file, and possibly the folders that hold one.
  ghost predicate Lists(paths: seq<string>, s: Store) {
    && (forall k | k in s && k.file.Part? :: PathText(k) in paths)
    && (forall x | x in paths :: exists k :: k in s && k.file.Part? && (x == PathText(k) || x == k.folder))
  }

  /** A folder with the name of a pair, or one the parser finds no pair in. */
  ghost predicate WellNamedFolder(folder: string) {
    '/' !in folder && ((exists p :: PlainPair(p) && InPair(folder, p)) || |ParsePair(folder)| < 2)
  }

  /** Dataset folders carry the names of pairs; so do unfinished ones, of pairs ("TEMP", code). */
  ghost predicate WellNamed(s: Store) {
    forall k | k in s && k.file.Part? :: WellNamedFolder(k.folder)
  }

  /** How the counting reads an unfinished folder: its candle is lost. */
  lemma UnfinishedIsPair(folder: string, p: Pair)
    requires CleanPair(p) && InPair(folder, p)
    ensures InPair(TempName(folder), Pair("TEMP", p.code)) && Mergeable(Pair("TEMP", p.code))
    ensures '/' !in folder ==> WellNamedFolder(TempName(folder))
  {
    assert Prefix(Pair("TEMP", p.code)) == "TEMP_" + p.code + "_";
    assert Prefix(Pair("TEMP", p.code)) <= "TEMP_" + Prefix(p) <= TempName(folder);
    assert PlainPair(Pair("TEMP", p.code)) by {
      assert |SUFFIX| > |"TEMP"|;
    }
  }

  lemma PartText(k: Key)
    requires k.file.Part?
    ensures "part-" <= k.file.Text()
  {
  }

  lemma ListedFolders(paths: seq<string>, s: Store)
    requires WellNamed(s) && Lists(paths, s)
    ensures FoldersOf(paths) == set k | k in s && k.file.Part? :: k.folder
  {
    forall k | k in s && k.file.Part? ensures DatasetOf(PathText(k)) == k.folder && DatasetOf(k.folder) == k.folder {
      assert WellNamedFolder(k.folder);
      PartText(k);
      DatasetOfPart(k.folder, k.file.Text());
      CutNowhere(k.folder, "/part-");
    }
    forall f | f in FoldersOf(paths) ensures exists k :: k in s && k.file.Part? && k.folder == f {
      var x :| x in paths && DatasetOf(x) == f;
      var k :| k in s && k.file.Part? && (x == PathText(k) || x == k.folder);
    }
    forall k | k in s && k.file.Part? ensures k.folder in FoldersOf(paths) {
      assert PathText(k) in paths;
    }
  }

  /** Parsing agrees with the merger's glob. */
  lemma ParsedIsInPair(folder: string, p: Pair)
    requires WellNamedFolder(folder)
    ensures Parsed(folder, p) <==> PlainPair(p) && InPair(folder, p)
  {
    hide PlainPair, InPair, ParsePair;
    if PlainPair(p) && InPair(folder, p) {
      ParseInvertsPrint(folder, p);
    } else if Parsed(folder, p) {
      var q :| PlainPair(q) && InPair(folder, q);
      ParseInvertsPrint(folder, q);
    }
  }

  /** The count of a pair is the number of its dataset folders. */
  lemma CountIsFolders(paths: seq<string>, s: Store, p: Pair)
    requires WellNamed(s) && Lists(paths, s)
    ensures CountOf(paths, p) == if PlainPair(p) then |DatasetFolders(s, p)| else 0
  {
    hide PlainPair, InPair, Parsed, DatasetOf;
    ListedFolders(paths, s);
    var counted := set f | f in FoldersOf(paths) && Parsed(f, p);
    forall f | f in FoldersOf(paths) ensures Parsed(f, p) <==> PlainPair(p) && InPair(f, p) {
      ParsedIsInPair(f, p);
    }
    if PlainPair(p) {
      forall f ensures f in counted <==> f in DatasetFolders(s, p) {
        if f in counted { var k :| k in s && k.file.Part? && k.folder == f; }
        if f in DatasetFolders(s, p) { var k :| k in s && IsSource(k, p) && k.folder == f; }
      }
      assert counted == DatasetFolders(s, p);
    } else {
      assert counted == {};
    }
  }

  // ----- unfinished folders in the listing -----

  /** No code has two unfinished folders, of whatever candles. */
  ghost predicate FewUnfinished(s: Store) {
    forall code: string | PlainPair(Pair("TEMP", code)) :: |DatasetFolders(s, Pair("TEMP", code))| <= 1
  }

  /** The pairs to be merged are pairs of the writer if and only if no code has two unfinished folders. */
  lemma TasksCleanExactly(paths: seq<string>, s: Store, tasks: seq<Pair>)
    requires WellNamed(s) && Lists(paths, s) && forall p :: p in tasks <==> CountOf(paths, p) > 1
    ensures CleanTasks(tasks) <==> FewUnfinished(s)
  {
    hide PlainPair, CountOf, DatasetFolders, WellNamed, Lists;
    forall p ensures p in tasks <==> PlainPair(p) && |DatasetFolders(s, p)| > 1 {
      CountIsFolders(paths, s, p);
    }
    forall p | p in tasks ensures CleanPair(p) || p == Pair("TEMP", p.candle) {}
    forall code: string | Pair("TEMP", code) in tasks ensures !CleanPair(Pair("TEMP", code)) {}
  }

  /** Otherwise the unfinished folders of the code are merged like datasets: one folder is left, under a
      name without a candle, with one row for each time. */
  lemma UnfinishedAreMixed(w: World, code: string, o: Oracle, tie: Tie)
    requires Mergeable(Pair("TEMP", code)) && AllOk(o)
    requires TempClean(w.store, Pair("TEMP", code)) && Rows(w.store, Pair("TEMP", code)) != {}
    ensures var p := Pair("TEMP", code);
      var e, target := MergeSingle(w, p, o, tie), TargetName(Rows(w.store, p), p);
      && e.escaped.None? && DatasetFolders(e.w.store, p) == {target} && Times(e.w.store, p) == Times(w.store, p)
      && Sources(e.w.store, p) == {Key(target, PART)} && TimesIncrease(e.w.store[Key(target, PART)])
  {
    hide MergeSingle, Mergeable, TargetName, TempClean;
    var p := Pair("TEMP", code);
    UndisturbedRun(w, p, o, tie);
    MergeConserves(w.store, p, tie);
    MergedSorted(Rows(w.store, p), tie);
    assert Key(TargetName(Rows(w.store, p), p), PART) in Sources(MergeOnce(w.store, p, tie), p);
  }

  // ----- the normal form -----

  lemma FolderNameHasNoSlash(p: Pair, start: Date, end: Date)
    requires PlainPair(p)
    ensures '/' !in FolderName(p, start, end)
  {
  }

  /** Merging keeps every folder well named, so the next listing parses as well as this one. */
  lemma {:induction false} WellNamedKept(s: Store, tasks: seq<Pair>, tie: Tie)
    requires WellNamed(s) && forall p | p in tasks :: Mergeable(p)
    ensures WellNamed(BatchOnce(s, tasks, tie))
    decreases |tasks|
  {
    hide Mergeable, WellNamedFolder, MergeOnce;
    if tasks != [] {
      WellNamedOnce(s, tasks[0], tie);
      WellNamedKept(MergeOnce(s, tasks[0], tie), tasks[1..], tie);
    }
  }

  lemma WellNamedOnce(s: Store, p: Pair, tie: Tie)
    requires WellNamed(s) && Mergeable(p)
    ensures WellNamed(MergeOnce(s, p, tie))
  {
    hide Merged, PlainPair, FolderName, InPair;
    var rows := Rows(s, p);
    if rows != {} {
      SomeDate(rows);
      FolderNameHasNoSlash(p, MinDate(Dates(rows)), MaxDate(Dates(rows)));
      TargetInPair(rows, p);
      assert WellNamedFolder(TargetName(rows, p));
    }
  }

  /** The task list: pairs with more than one dataset folder. */
  ghost predicate IsTaskList(tasks: seq<Pair>, s: Store) {
    forall p :: p in tasks <==> CleanPair(p) && |DatasetFolders(s, p)| > 1
  }

  lemma OneFolder(s: Store, p: Pair, tie: Tie)
    requires CleanPair(p) && Rows(s, p) != {}
    ensures |DatasetFolders(MergeOnce(s, p, tie), p)| == 1
  {
    MergeConserves(s, p, tie);
  }

  /** One undisturbed run merges exactly the pairs with several folders: no pair's keys change,
      pairs with one folder are not rewritten, and every pair with rows ends with at most one. */
  lemma NormalForm(s: Store, tasks: seq<Pair>, tie: Tie, p: Pair)
    requires CleanPair(p) && IsTaskList(tasks, s)
    ensures var r := BatchOnce(s, tasks, tie);
      && Times(r, p) == Times(s, p)
      && (|DatasetFolders(s, p)| <= 1 ==> Region(r, p) == Region(s, p))
      && (Rows(s, p) != {} ==> |DatasetFolders(r, p)| <= 1)
      && (Rows(s, p) == {} ==> DatasetFolders(r, p) == DatasetFolders(s, p))
  {
    hide MergeOnce, PlainPair, BatchOnce, Region;
    assert CleanTasks(tasks);
    BatchReads(s, tasks, tie, p);
    if Rows(s, p) == {} {
      NoRowsNoMerge(s, p, tie);
    } else if p in tasks {
      MergeConserves(s, p, tie);
      OneFolder(s, p, tie);
    }
  }

  /** The second run has nothing to do if and only if every pair the first run merged had a row. */
  lemma SecondRunIdle(s: Store, tasks: seq<Pair>, tie: Tie, again: seq<Pair>)
    requires IsTaskList(tasks, s) && IsTaskList(again, BatchOnce(s, tasks, tie))
    ensures again == [] <==> forall p | p in tasks :: Rows(s, p) != {}
  {
    hide PlainPair, BatchOnce, DatasetFolders, Rows;
    forall p | CleanPair(p) ensures p in again <==> p in tasks && Rows(s, p) == {} {
      NormalForm(s, tasks, tie, p);
    }
    if again != [] {
      assert again[0] in again;
      assert CleanPair(again[0]);
    }
    forall p | p in tasks && Rows(s, p) == {} ensures again != [] {
      assert CleanPair(p) && p in again;
    }
  }

  lemma TasksFromListing(paths: seq<string>, s: Store, tasks: seq<Pair>)
    requires WellNamed(s) && Lists(paths, s) && forall p :: p in tasks <==> CountOf(paths, p) > 1
    requires FewUnfinished(s)
    ensures IsTaskList(tasks, s)
  {
    hide PlainPair, CountOf, DatasetFolders;
    TasksCleanExactly(paths, s, tasks);
    forall p ensures p in tasks <==> CleanPair(p) && |DatasetFolders(s, p)| > 1 {
      CountIsFolders(paths, s, p);
    }
  }

  /** Merges of the writer's pairs add no unfinished folders. */
  lemma FewUnfinishedOnce(s: Store, p: Pair, tie: Tie)
    requires FewUnfinished(s) && CleanPair(p)
    ensures FewUnfinished(MergeOnce(s, p, tie))
  {
    hide Merged, PlainPair, FolderName, InPair, TargetName;
    if Rows(s, p) != {} {
      TargetInPair(Rows(s, p), p);
      forall code: string | PlainPair(Pair("TEMP", code))
        ensures |DatasetFolders(MergeOnce(s, p, tie), Pair("TEMP", code))| <= 1 {
        var q := Pair("TEMP", code);
        if InPair(TargetName(Rows(s, p), p), q) { PairOfFolderUnique(TargetName(Rows(s, p), p), p, q); }
        assert DatasetFolders(MergeOnce(s, p, tie), q) <= DatasetFolders(s, q);
        Fewer(DatasetFolders(MergeOnce(s, p, tie), q), DatasetFolders(s, q));
      }
    }
  }

  lemma Fewer(a: set<string>, b: set<string>)
    requires a <= b
    ensures |a| <= |b|
  {
    assert b == a + (b - a);
  }

  lemma {:induction false} FewUnfinishedKept(s: Store, tasks: seq<Pair>, tie: Tie)
    requires FewUnfinished(s) && CleanTasks(tasks)
    ensures FewUnfinished(BatchOnce(s, tasks, tie))
    decreases |tasks|
  {
    hide PlainPair, FewUnfinished, MergeOnce;
    if tasks != [] {
      assert CleanPair(tasks[0]);
      FewUnfinishedOnce(s, tasks[0], tie);
      FewUnfinishedKept(MergeOnce(s, tasks[0], tie), tasks[1..], tie);
    }
  }

  /** A run over a true listing in which nothing fails, with at most one unfinished folder a code: keys
      are kept, single folders are not rewritten, pairs with rows end with one folder, and the next
      listing yields tasks only for pairs without rows. */
  lemma RunReachesNormalForm(w: World, paths: seq<string>, tasks: seq<Pair>, o: Oracle, tie: Tie,
                             paths': seq<string>, p: Pair)
    requires WellNamed(w.store) && FewUnfinished(w.store) && Lists(paths, w.store) && AllOk(o)
    requires forall q :: q in tasks <==> CountOf(paths, q) > 1
    requires forall q | q in tasks :: TempClean(w.store, q)
    requires CleanPair(p)
    ensures var s, e := w.store, BatchMerge(w, tasks, o, tie);
      && e.escaped.None? && WellNamed(e.w.store) && FewUnfinished(e.w.store)
      && Times(e.w.store, p) == Times(s, p)
      && (|DatasetFolders(s, p)| <= 1 ==> Region(e.w.store, p) == Region(s, p))
      && (Rows(s, p) != {} ==> |DatasetFolders(e.w.store, p)| <= 1)
      && (Lists(paths', e.w.store) && CountOf(paths', p) > 1 ==> Rows(s, p) == {})
  {
    hide BatchMerge, BatchOnce, TempClean, CountOf, PlainPair, Region, Rows, Lists, WellNamed, FewUnfinished;
    TasksFromListing(paths, w.store, tasks);
    UndisturbedBatch(w, tasks, o, tie);
    WellNamedKept(w.store, tasks, tie);
    FewUnfinishedKept(w.store, tasks, tie);
    NormalForm(w.store, tasks, tie, p);
    if Lists(paths', BatchOnce(w.store, tasks, tie)) {
      CountIsFolders(paths', BatchOnce(w.store, tasks, tie), p);
    }
  }

  // ----- with any number of unfinished folders -----

  /** Unfinished folders hold at most the two files a merge writes. */
  predicate PlainTemps(s: Store) {
    forall k | k in s && "TEMP_" <= k.folder :: k.file == PART || k.file == Marker
  }

  lemma PlainTempsOnce(s: Store, p: Pair, tie: Tie)
    requires PlainTemps(s)
    ensures TempClean(s, p) && PlainTemps(MergeOnce(s, p, tie))
  {
    hide TargetName, Merged;
  }

  lemma {:induction false} UndisturbedMixed(w: World, tasks: seq<Pair>, o: Oracle, tie: Tie)
    requires AllOk(o) && PlainTemps(w.store) && forall p | p in tasks :: Mergeable(p)
    ensures BatchMerge(w, tasks, o, tie).w.store == BatchOnce(w.store, tasks, tie)
    ensures BatchMerge(w, tasks, o, tie).escaped.None?
    decreases |tasks|
  {
    hide MergeSingle, MergeOnce, Mergeable, TempClean, PlainTemps;
    if tasks != [] {
      PlainTempsOnce(w.store, tasks[0], tie);
      UndisturbedRun(w, tasks[0], o, tie);
      UndisturbedMixed(MergeSingle(w, tasks[0], o, tie).w, tasks[1..], o, tie);
    }
  }

  /** A reader of the pair sees the same in both stores. */
  predicate ReadsAlike(s: Store, t: Store, p: Pair) {
    Rows(s, p) == Rows(t, p) && DatasetFolders(s, p) == DatasetFolders(t, p)
  }

  lemma OtherMergeReads(s: Store, q: Pair, tie: Tie, p: Pair)
    requires Mergeable(q) && CleanPair(p) && p != q
    ensures ReadsAlike(s, MergeOnce(s, q, tie), p)
  {
    hide MergeOnce, InPair, PlainPair, InRegion;
    MergeIsLocal(s, q, tie);
    forall k: Key | InPair(k.folder, p) ensures SameAt(s, MergeOnce(s, q, tie), k) {
      OutsideOthers(k, q, p);
    }
    SamePairReads(s, MergeOnce(s, q, tie), p);
  }

  lemma MergeReadsAlike(s: Store, t: Store, tie: Tie, p: Pair)
    requires CleanPair(p) && ReadsAlike(s, t, p)
    ensures ReadsAlike(MergeOnce(s, p, tie), MergeOnce(t, p, tie), p)
  {
    hide TargetName, Merged, PlainPair;
    if Rows(s, p) != {} {
      MergeConserves(s, p, tie);
      MergeConserves(t, p, tie);
    }
  }

  /** Merges of unfinished folders are nothing to the readers of a pair. */
  lemma {:induction false} MixedBatchReads(s: Store, tasks: seq<Pair>, tie: Tie, p: Pair)
    requires CleanPair(p) && forall q | q in tasks :: Mergeable(q)
    ensures ReadsAlike(BatchOnce(s, tasks, tie), if p in tasks then MergeOnce(s, p, tie) else s, p)
    decreases |tasks|
  {
    hide MergeOnce, Mergeable, PlainPair, Rows, DatasetFolders;
    if tasks != [] {
      var q, rest := tasks[0], tasks[1..];
      assert p in tasks <==> p == q || p in rest;
      var t := MergeOnce(s, q, tie);
      MixedBatchReads(t, rest, tie, p);
      if p == q {
        MergeIdempotent(s, p, tie, tie);
      } else {
        OtherMergeReads(s, q, tie, p);
        MergeReadsAlike(s, t, tie, p);
      }
    }
  }

  /** Whatever unfinished folders the listing shows, for the readers of a pair the run reaches the same
      normal form. Only the pair ("TEMP", "TEMP") must not be among the tasks. */
  lemma ReadersReachNormalForm(w: World, paths: seq<string>, tasks: seq<Pair>, o: Oracle, tie: Tie,
                               paths': seq<string>, p: Pair)
    requires WellNamed(w.store) && Lists(paths, w.store) && AllOk(o) && PlainTemps(w.store)
    requires forall q :: q in tasks <==> CountOf(paths, q) > 1
    requires Pair("TEMP", "TEMP") !in tasks && CleanPair(p)
    ensures var s, e := w.store, BatchMerge(w, tasks, o, tie);
      && e.escaped.None? && WellNamed(e.w.store)
      && Times(e.w.store, p) == Times(s, p)
      && (|DatasetFolders(s, p)| <= 1 ==> ReadsAlike(e.w.store, s, p))
      && (Rows(s, p) != {} ==> |DatasetFolders(e.w.store, p)| <= 1)
      && (Lists(paths', e.w.store) && CountOf(paths', p) > 1 ==> Rows(s, p) == {})
  {
    hide BatchMerge, BatchOnce, MergeOnce, CountOf, PlainPair, Rows, DatasetFolders, Lists, WellNamed, PlainTemps;
    forall q ensures q in tasks <==> PlainPair(q) && |DatasetFolders(w.store, q)| > 1 {
      CountIsFolders(paths, w.store, q);
    }
    forall q | q in tasks ensures Mergeable(q) {}
    UndisturbedMixed(w, tasks, o, tie);
    WellNamedKept(w.store, tasks, tie);
    MixedBatchReads(w.store, tasks, tie, p);
    if Rows(w.store, p) == {} {
      NoRowsNoMerge(w.store, p, tie);
    } else {
      MergeConserves(w.store, p, tie);
      OneFolder(w.store, p, tie);
    }
    if Lists(paths', BatchOnce(w.store, tasks, tie)) {
      CountIsFolders(paths', BatchOnce(w.store, tasks, tie), p);
    }
  }
}
