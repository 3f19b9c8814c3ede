/** Merging many pairs: `batch_merge` depends only on the set of pairs it is given, and
    `merge_all_available_data` brings the store to a normal form. */
module MergeBatch {
  import opened Ordering
  import opened DatasetNames
  import opened ObjectStore
  import opened MergeSpec
  import opened MergeRun
  import opened MergeOutcome
  import opened Wrappers

  ghost predicate CleanTasks(tasks: seq<Pair>) {
    forall p | p in tasks :: CleanPair(p)
  }

  /** The pairs merged one after the other, undisturbed. */
  function BatchOnce(s: Store, tasks: seq<Pair>, tie: Tie): (r: Store)
    decreases |tasks|
  {
    if tasks == [] then s else BatchOnce(MergeOnce(s, tasks[0], tie), tasks[1..], tie)
  }

  // ----- order and repetition do not matter -----

  /** A batch does to each region what one merge of its pair does, or nothing. */
  lemma {:induction false} BatchByRegion(s: Store, tasks: seq<Pair>, tie: Tie, p: Pair)
    requires CleanTasks(tasks) && CleanPair(p)
    ensures Region(BatchOnce(s, tasks, tie), p) == if p in tasks then MergeOnce(Region(s, p), p, tie) else Region(s, p)
    decreases |tasks|
  {
    hide MergeOnce, Region, PlainPair;
    if tasks != [] {
      var q, rest := tasks[0], tasks[1..];
      var t := MergeOnce(s, q, tie);
      assert p in tasks <==> p == q || p in rest;
      BatchByRegion(t, rest, tie, p);
      if p == q {
        MergeIsLocal(s, p, tie);
        MergeIdempotent(Region(s, p), p, tie, tie);
      } else {
        MergeElsewhere(s, q, p, tie);
      }
    }
  }

  lemma {:induction false} BatchOutside(s: Store, tasks: seq<Pair>, tie: Tie, k: Key)
    requires CleanTasks(tasks) && forall p | p in tasks :: !InRegion(k, p)
    ensures SameAt(s, BatchOnce(s, tasks, tie), k)
    decreases |tasks|
  {
    hide MergeOnce, PlainPair;
    if tasks != [] {
      assert CleanPair(tasks[0]);
      MergeIsLocal(s, tasks[0], tie);
      assert SameAt(s, MergeOnce(s, tasks[0], tie), k);
      BatchOutside(MergeOnce(s, tasks[0], tie), tasks[1..], tie, k);
    }
  }

  lemma BatchSameAt(s: Store, tasks: seq<Pair>, tasks': seq<Pair>, tie: Tie, k: Key)
    requires CleanTasks(tasks) && CleanTasks(tasks') && Elements(tasks) == Elements(tasks')
    ensures SameAt(BatchOnce(s, tasks, tie), BatchOnce(s, tasks', tie), k)
  {
    hide MergeOnce, Region, PlainPair, BatchOnce, InRegion;
    assert forall p :: p in tasks <==> p in Elements(tasks);
    assert forall p :: p in tasks' <==> p in Elements(tasks');
    if p :| p in tasks && InRegion(k, p) {
      BatchByRegion(s, tasks, tie, p);
      BatchByRegion(s, tasks', tie, p);
      AtRegion(BatchOnce(s, tasks, tie), k, p);
      AtRegion(BatchOnce(s, tasks', tie), k, p);
    } else {
      BatchOutside(s, tasks, tie, k);
      BatchOutside(s, tasks', tie, k);
    }
  }

  /** Two task lists with the same pairs, in any order and with any repetitions, leave the same
      store. */
  lemma BatchDependsOnSet(s: Store, tasks: seq<Pair>, tasks': seq<Pair>, tie: Tie)
    requires CleanTasks(tasks) && CleanTasks(tasks') && Elements(tasks) == Elements(tasks')
    ensures BatchOnce(s, tasks, tie) == BatchOnce(s, tasks', tie)
  {
    forall k ensures SameAt(BatchOnce(s, tasks, tie), BatchOnce(s, tasks', tie), k) {
      BatchSameAt(s, tasks, tasks', tie, k);
    }
    SameEverywhere(BatchOnce(s, tasks, tie), BatchOnce(s, tasks', tie));
  }

  // ----- what a pair's readers see after a batch -----

  lemma RegionEqualReads(s: Store, t: Store, p: Pair)
    requires Region(s, p) == Region(t, p)
    ensures Rows(s, p) == Rows(t, p) && DatasetFolders(s, p) == DatasetFolders(t, p)
  {
    hide Region;
    RegionReads(s, p);
    RegionReads(t, p);
  }

  /** A pair in the batch ends as if merged alone; any other pair is as before. */
  lemma BatchReads(s: Store, tasks: seq<Pair>, tie: Tie, p: Pair)
    requires CleanTasks(tasks) && CleanPair(p)
    ensures var r, m := BatchOnce(s, tasks, tie), if p in tasks then MergeOnce(s, p, tie) else s;
      && Region(r, p) == Region(m, p)
      && Rows(r, p) == Rows(m, p) && DatasetFolders(r, p) == DatasetFolders(m, p)
  {
    hide MergeOnce, Region, PlainPair, BatchOnce;
    BatchByRegion(s, tasks, tie, p);
    MergeIsLocal(s, p, tie);
    RegionEqualReads(BatchOnce(s, tasks, tie), if p in tasks then MergeOnce(s, p, tie) else s, p);
  }

  // ----- the run of a batch -----

  lemma TempCleanKept(s: Store, q: Pair, p: Pair, tie: Tie)
    requires CleanPair(p) && CleanPair(q) && TempClean(s, p)
    ensures TempClean(MergeOnce(s, q, tie), p)
  {
    hide TargetName, Merged, PlainPair;
    var r := MergeOnce(s, q, tie);
    if Rows(s, p) != {} && p == q {
      MergedTempGone(s, p, tie);
      MergeConserves(s, p, tie);
    } else if p != q {
      MergeElsewhere(s, q, p, tie);
      RegionEqualReads(s, r, p);
      if Rows(s, p) != {} {
        var target := TargetName(Rows(s, p), p);
        TargetInPair(Rows(s, p), p);
        assert TempName(target)[5..] == target;
        forall k | k in r && k.folder == TempName(target) ensures k.file == PART || k.file == Marker {
          AtRegion(r, k, p);
          AtRegion(s, k, p);
        }
      }
    }
  }

  /** A batch in which nothing fails does the undisturbed merges. */
  lemma {:induction false} UndisturbedBatch(w: World, tasks: seq<Pair>, o: Oracle, tie: Tie)
    requires CleanTasks(tasks) && AllOk(o) && forall p | p in tasks :: TempClean(w.store, p)
    ensures BatchMerge(w, tasks, o, tie).w.store == BatchOnce(w.store, tasks, tie)
    ensures BatchMerge(w, tasks, o, tie).escaped.None?
    decreases |tasks|
  {
    hide MergeSingle, MergeOnce, PlainPair, TempClean;
    if tasks != [] {
      assert CleanPair(tasks[0]);
      UndisturbedRun(w, tasks[0], o, tie);
      forall p | p in tasks[1..] ensures TempClean(MergeOnce(w.store, tasks[0], tie), p) {
        TempCleanKept(w.store, tasks[0], p, tie);
      }
      UndisturbedBatch(MergeSingle(w, tasks[0], o, tie).w, tasks[1..], o, tie);
    }
  }

  /** `ws` are the worlds the merges saw: each found what the one before it left, no exception escaped
      from any but the last, and not all were made only if one escaped from the last. */
  ghost predicate BatchRan(w: World, tasks: seq<Pair>, o: Oracle, tie: Tie, e: End, ws: seq<World>) {
    && 1 <= |ws| <= |tasks| + 1 && ws[0] == w && ws[|ws| - 1] == e.w
    && (forall i | 0 <= i < |ws| - 1 :: MergeSingle(ws[i], tasks[i], o, tie).w == ws[i + 1])
    && (forall i | 0 <= i < |ws| - 2 :: MergeSingle(ws[i], tasks[i], o, tie).escaped == None)
    && e.escaped == (if |ws| == 1 then None else MergeSingle(ws[|ws| - 2], tasks[|ws| - 2], o, tie).escaped)
    && (|ws| <= |tasks| ==> e.escaped.Some?)
  }

  /** A batch merges its pairs in order until an exception escapes. */
  lemma {:induction false} BatchStops(w: World, tasks: seq<Pair>, o: Oracle, tie: Tie) returns (ws: seq<World>)
    ensures BatchRan(w, tasks, o, tie, BatchMerge(w, tasks, o, tie), ws)
    decreases |tasks|
  {
    hide MergeSingle;
    if tasks == [] {
      ws := [w];
    } else {
      var one := MergeSingle(w, tasks[0], o, tie);
      if one.escaped.Some? {
        ws := [w, one.w];
      } else {
        var rest := BatchStops(one.w, tasks[1..], o, tie);
        ws := [w] + rest;
      }
    }
  }
}
