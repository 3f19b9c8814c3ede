/** What becomes of an unfinished folder that a crash, or a call that lost track of it, left behind. */
module MergeCrash {
  import opened DatasetNames
  import opened ObjectStore
  import opened MergeSpec
  import opened MergeRun
  import opened MergeSafety
  import opened MergeOutcome
  import opened MergeFrame
  import opened MergeWindow
  import opened Wrappers

  /** A later merge of the pair removes the unfinished folder of its own target and leaves every other
      one as it is; none is ever read. */
  lemma StaleFolderFate(s: Store, p: Pair, folder: string, tie: Tie)
    requires Mergeable(p) && IsTemp(folder, p)
    ensures var t := MergeOnce(s, p, tie);
      && Times(t, p) == Times(s, p)
      && if Rows(s, p) != {} && folder == TempOf(s, p) then !HasFolder(t, folder)
         else forall k: Key | k.folder == folder :: SameAt(s, t, k)
  {
    hide TargetName, Merged, InPair, TempName, IsTemp;
    TempsAreNoDatasets(folder, p);
    if Rows(s, p) != {} {
      MergeConserves(s, p, tie);
      MergedTempGone(s, p, tie);
      TargetInPair(Rows(s, p), p);
    }
  }

  lemma SameFolderTimes(s: Store, t: Store, folder: string)
    requires forall k: Key | k.folder == folder :: SameAt(s, t, k)
    ensures FolderTimes(s, folder) == FolderTimes(t, folder)
  {
  }

  lemma NoFolderTimes(s: Store, folder: string)
    requires !HasFolder(s, folder)
    ensures FolderTimes(s, folder) == {}
  {
  }

  /** A process that dies in a pass leaves each key in a folder of the pair or in the pass's unfinished
      folder. No later call that is undisturbed makes the latter readable again; it destroys them exactly
      if it publishes under the name the dead pass had, that is, if the rows still readable span the same
      dates. */
  lemma CrashedKeys(w: World, p: Pair, temp: Option<string>, moved: bool, o: Oracle, tie: Tie, later: World, o': Oracle,
                    tie': Tie)
    requires Mergeable(p) && (temp.Some? ==> IsTemp(temp.value, p)) && AllOk(o')
    requires later.store == MergePass(w, p, temp, moved, o, tie).w.store && TempClean(later.store, p)
    ensures var r, u, t := MergePass(w, p, temp, moved, o, tie), later.store, MergeSingle(later, p, o', tie').w.store;
      && Times(w.store, p) <= AtHand(u, p, r.temp)
      && Times(t, p) == Times(u, p)
      && (Times(w.store, p) <= AtHand(t, p, r.temp) <==>
            Times(w.store, p) <= Times(u, p) || Rows(u, p) == {} || r.temp != Some(TempOf(u, p)))
  {
    hide MergePass, MergeSingle, MergeOnce, Times, FolderTimes, TempOf, IsTemp, TempClean, AllOk, Rows;
    var r, u := MergePass(w, p, temp, moved, o, tie), later.store;
    PassKeepsKeys(w, p, temp, moved, o, tie);
    PassIsLocal(w, p, temp, moved, o, tie);
    UndisturbedRun(later, p, o', tie');
    var t := MergeOnce(u, p, tie');
    if r.temp.Some? {
      StaleFolderFate(u, p, r.temp.value, tie');
      if Rows(u, p) != {} && r.temp.value == TempOf(u, p) {
        NoFolderTimes(t, r.temp.value);
      } else {
        SameFolderTimes(u, t, r.temp.value);
      }
    } else {
      KeysOfMerge(u, p, tie');
    }
  }

  lemma KeysOfMerge(s: Store, p: Pair, tie: Tie)
    requires Mergeable(p)
    ensures Times(MergeOnce(s, p, tie), p) == Times(s, p)
  {
    if Rows(s, p) != {} { MergeConserves(s, p, tie); }
  }
}
