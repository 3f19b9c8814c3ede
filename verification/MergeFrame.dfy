/** What a call cannot do, whatever fails: touch another pair, or show a reader of its own pair a row
    that was not there. */
module MergeFrame {
  import opened DatasetNames
  import opened ObjectStore
  import opened MergeSpec
  import opened MergeRun
  import opened MergeSafety
  import opened MergeBatch
  import opened Wrappers

  // ----- other pairs -----

  /** The stores agree outside the region of the pair. */
  ghost predicate OnlyRegion(s: Store, t: Store, p: Pair) {
    forall k: Key :: !InRegion(k, p) ==> SameAt(s, t, k)
  }

  /** An unfinished folder of the pair. */
  predicate IsTemp(folder: string, p: Pair) {
    "TEMP_" <= folder && InPair(folder[5..], p)
  }

  lemma TempOfTarget(target: string, p: Pair)
    requires InPair(target, p)
    ensures IsTemp(TempName(target), p)
  {
    assert TempName(target)[5..] == target;
  }

  lemma PassIsLocal(w: World, p: Pair, temp: Option<string>, moved: bool, o: Oracle, tie: Tie)
    requires Mergeable(p) && (temp.Some? ==> IsTemp(temp.value, p))
    ensures var r := MergePass(w, p, temp, moved, o, tie);
      OnlyRegion(w.store, r.w.store, p) && (r.temp.Some? ==> IsTemp(r.temp.value, p))
  {
    hide MergePass, TargetName, Merged, InPair, TempName, Holds;
    PassEffect(w, p, temp, moved, o, tie);
    var rows, r := Rows(w.store, p), MergePass(w, p, temp, moved, o, tie);
    if !Idle(w.store, r, temp, moved) {
      TargetInPair(rows, p);
      TempOfTarget(TargetName(rows, p), p);
    }
  }

  lemma RemovalIsLocal(w: World, p: Pair, folder: string, o: Oracle)
    requires IsTemp(folder, p)
    ensures OnlyRegion(w.store, RemoveDataset(w, folder, o).w.store, p)
  {
    hide RemoveDataset, InPair;
    RemoveDatasetEffect(w, folder, o);
  }

  lemma LocalTwice(s: Store, t: Store, u: Store, p: Pair)
    requires OnlyRegion(s, t, p) && OnlyRegion(t, u, p)
    ensures OnlyRegion(s, u, p)
  {
    hide InRegion;
    forall k: Key | !InRegion(k, p) ensures SameAt(s, u, k) {
      assert SameAt(s, t, k) && SameAt(t, u, k);
    }
  }

  /** One attempt with its `finally`. */
  lemma TurnIsLocal(w: World, p: Pair, attempt: nat, o: Oracle, tie: Tie)
    requires Mergeable(p)
    ensures match Settle(AuthRetry(w, p, o, tie), attempt, o)
      case Retry(next) => OnlyRegion(w.store, next.store, p)
      case Stop(e) => OnlyRegion(w.store, e.w.store, p)
  {
    hide MergePass, RemoveDataset, OnlyRegion, IsTemp;
    PassIsLocal(w, p, None, false, o, tie);
    var first := MergePass(w, p, None, false, o, tie);
    var again := Ask(first.w, Refresh, o).w;
    PassIsLocal(again, p, first.temp, first.moved, o, tie);
    var r := AuthRetry(w, p, o, tie);
    assert OnlyRegion(w.store, r.w.store, p) by {
      LocalTwice(w.store, first.w.store, MergePass(again, p, first.temp, first.moved, o, tie).w.store, p);
    }
    forall v: World | v.store == r.w.store ensures OnlyRegion(w.store, Finally(r.(w := v), o).w.store, p) {
      if r.temp.Some? && !r.moved {
        RemovalIsLocal(v, p, r.temp.value, o);
        LocalTwice(w.store, v.store, RemoveDataset(v, r.temp.value, o).w.store, p);
      }
    }
  }

  lemma AttemptsAreLocal(w: World, p: Pair, attempt: nat, o: Oracle, tie: Tie)
    requires Mergeable(p) && attempt <= MAX_MERGE_RETRIES + 1
    ensures OnlyRegion(w.store, Attempts(w, p, attempt, o, tie).w.store, p)
    decreases MAX_MERGE_RETRIES + 1 - attempt
  {
    hide AuthRetry, Settle, InRegion;
    if attempt <= MAX_MERGE_RETRIES && o(Cursor, w.tick).ok {
      var cursor := Ask(w, Cursor, o);
      TurnIsLocal(cursor.w, p, attempt, o, tie);
      var turn := Settle(AuthRetry(cursor.w, p, o, tie), attempt, o);
      if turn.Retry? {
        AttemptsAreLocal(turn.w, p, attempt + 1, o, tie);
        LocalTwice(w.store, turn.w.store, Attempts(turn.w, p, attempt + 1, o, tie).w.store, p);
      }
    }
  }

  /** Whatever fails, a call leaves every object outside the folders of its pair and their unfinished
      folders alone. */
  lemma CallIsLocal(w: World, p: Pair, o: Oracle, tie: Tie)
    requires Mergeable(p)
    ensures OnlyRegion(w.store, MergeSingle(w, p, o, tie).w.store, p)
  {
    hide Attempts, InRegion;
    AttemptsAreLocal(Ask(w, ListSources, o).w, p, 0, o, tie);
  }

  /** The same of a batch, wherever it stops. */
  lemma {:induction false} BatchIsLocal(w: World, tasks: seq<Pair>, o: Oracle, tie: Tie, k: Key)
    requires forall p | p in tasks :: Mergeable(p) && !InRegion(k, p)
    ensures SameAt(w.store, BatchMerge(w, tasks, o, tie).w.store, k)
    decreases |tasks|
  {
    hide MergeSingle, InRegion, Mergeable;
    if tasks != [] {
      CallIsLocal(w, tasks[0], o, tie);
      var one := MergeSingle(w, tasks[0], o, tie);
      assert SameAt(w.store, one.w.store, k);
      if one.escaped.None? {
        BatchIsLocal(one.w, tasks[1..], o, tie, k);
      }
    }
  }

  lemma OutsideOthers(k: Key, p: Pair, q: Pair)
    requires Mergeable(p) && CleanPair(q) && p != q && InPair(k.folder, q)
    ensures !InRegion(k, p)
  {
    if InPair(k.folder, p) { PairOfFolderUnique(k.folder, p, q); }
    if "TEMP_" <= k.folder {
      assert k.folder == TempName(k.folder[5..]);
      TempIsNoDataset(k.folder[5..], q);
    }
  }

  lemma SamePairReads(s: Store, t: Store, q: Pair)
    requires forall k: Key | InPair(k.folder, q) :: SameAt(s, t, k)
    ensures Rows(t, q) == Rows(s, q) && DatasetFolders(t, q) == DatasetFolders(s, q)
  {
  }

  /** Whatever fails in a batch, and wherever it stops, every pair that is not in it keeps its rows and
      folders, even if the batch holds pairs made of unfinished folders; and if it holds none, its
      unfinished folders too. */
  lemma BatchLeavesOthers(w: World, tasks: seq<Pair>, o: Oracle, tie: Tie, q: Pair)
    requires CleanPair(q) && q !in tasks && forall p | p in tasks :: Mergeable(p)
    ensures var t := BatchMerge(w, tasks, o, tie).w.store;
      && Rows(t, q) == Rows(w.store, q) && DatasetFolders(t, q) == DatasetFolders(w.store, q)
      && (CleanTasks(tasks) ==> Region(t, q) == Region(w.store, q))
  {
    hide BatchMerge, InRegion, PlainPair, Rows, DatasetFolders;
    var t := BatchMerge(w, tasks, o, tie).w.store;
    forall k: Key | InPair(k.folder, q) ensures SameAt(w.store, t, k) {
      forall p | p in tasks ensures !InRegion(k, p) {
        OutsideOthers(k, p, q);
      }
      BatchIsLocal(w, tasks, o, tie, k);
    }
    SamePairReads(w.store, t, q);
    if CleanTasks(tasks) {
      forall k: Key | InRegion(k, q) ensures SameAt(w.store, t, k) {
        forall p | p in tasks ensures !InRegion(k, p) {
          if InRegion(k, p) { RegionsDisjoint(k, p, q); }
        }
        BatchIsLocal(w, tasks, o, tie, k);
      }
    }
  }
}
