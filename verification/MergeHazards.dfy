/** Two runs that show what the retry layers do when a store error after the move is taken for a
    retriable or an auth error. Both exist for every store in which the pair has a row. */
module MergeHazards {
  import opened Ordering
  import opened DatasetNames
  import opened ObjectStore
  import opened MergeSpec
  import opened MergeRun
  import opened MergeSafety
  import opened MergeOutcome
  import opened Wrappers

  /** `last` is the last folder a clean-up removes. */
  predicate LastRemoved(folders: seq<string>, keep: string, last: string) {
    && last in folders && last != keep
    && forall i, j :: 0 <= i < j < |folders| && folders[i] == last ==> folders[j] == keep
  }

  lemma {:induction false} SomeLast(folders: seq<string>, keep: string, f: string) returns (last: string)
    requires f in folders && f != keep
    requires forall i, j :: 0 <= i < j < |folders| ==> folders[i] != folders[j]
    ensures LastRemoved(folders, keep, last) && last != keep
  {
    var n := |folders| - 1;
    if folders[n] != keep {
      last := folders[n];
    } else {
      last := SomeLast(folders[..n], keep, f);
    }
  }

  /** Removing `last` raises a retriable error and, from a call on, removing `target` a final one,
      both after the objects are gone; everything else succeeds. */
  ghost predicate LateErrors(o: Oracle, last: string, target: string, all: set<Key>, from: nat) {
    forall c: Call, k: nat {:trigger o(c, k)} ::
      && (o(c, k).ok <==> c != Remove(last) && !(c == Remove(target) && k >= from))
      && o(c, k).error == Error(false, c == Remove(last))
      && (!o(c, k).ok ==> o(c, k).reach == all)
  }

  lemma LateErrorsExist(last: string, target: string, all: set<Key>, from: nat) returns (o: Oracle)
    ensures LateErrors(o, last, target, all, from)
  {
    o := (c: Call, k: nat) =>
      Outcome(c != Remove(last) && !(c == Remove(target) && k >= from), Error(false, c == Remove(last)), all);
  }

  /** Listing the old folders fails with an auth error and, from a call on, removing `target` at once. */
  ghost function StaleMoved(target: string, from: nat): (o: Oracle) {
    (c: Call, k: nat) =>
      Outcome(c != ListFolders && !(c == Remove(target) && k >= from), Error(c == ListFolders, false), {})
  }

  /** The calls a first pass makes before its clean-up succeed. */
  ghost predicate FirstHalfOk(o: Oracle, temp: string) {
    forall c: Call, k: nat :: c == Remove(temp) || !(c.Remove? || c.ListFolders?) ==> o(c, k).ok
  }

  lemma {:induction false} CopyAllFine(w: World, src: string, dst: string, files: seq<File>, o: Oracle)
    requires FirstHalfOk(o, src) && src != dst && forall f | f in files :: Key(src, f) in w.store
    ensures CopyAll(w, src, dst, files, o).error.None?
    decreases |files|
  {
    if files != [] {
      var k := Key(dst, files[0]);
      var one := Put(w, CopyFile(Key(src, files[0]), k), k, w.store[Key(src, files[0])], o);
      CopyAllFine(one.w, src, dst, files[1..], o);
    }
  }

  // ----- calls only go forward -----

  lemma {:induction false} CopyAllTick(w: World, src: string, dst: string, files: seq<File>, o: Oracle)
    requires src != dst && forall f | f in files :: Key(src, f) in w.store
    ensures CopyAll(w, src, dst, files, o).w.tick >= w.tick
    decreases |files|
  {
    if files != [] {
      var k := Key(dst, files[0]);
      var one := Put(w, CopyFile(Key(src, files[0]), k), k, w.store[Key(src, files[0])], o);
      CopyAllTick(one.w, src, dst, files[1..], o);
    }
  }

  lemma {:induction false} DropAllTick(w: World, folders: seq<string>, keep: string, o: Oracle)
    ensures DropAll(w, folders, keep, o).w.tick >= w.tick
    decreases |folders|
  {
    if folders != [] {
      DropAllTick(if folders[0] == keep then w else RemoveDataset(w, folders[0], o).w, folders[1..], keep, o);
    }
  }

  lemma CleanUpTick(w: World, p: Pair, keep: string, o: Oracle)
    ensures CleanUp(w, p, keep, o).w.tick >= w.tick
  {
    DropAllTick(Ask(w, ListFolders, o).w, SortedStrings(DatasetFolders(w.store, p)), keep, o);
  }

  lemma RemovalFine(w: World, folder: string, o: Oracle)
    requires o(Exists(folder), w.tick).ok && o(Remove(folder), w.tick + 1).ok
    ensures var r := RemoveDataset(w, folder, o);
      r.error.None? && r.w.store == DropFolder(w.store, folder) && r.w.tick >= w.tick + 1
  {
    RemoveDatasetEffect(w, folder, o);
  }

  lemma PreparedFine(w: World, temp: string, out: seq<Row>, o: Oracle)
    requires FirstHalfOk(o, temp)
    ensures var r := Prepare(w, temp, out, o);
      r.error.None? && r.w.tick == w.tick + 2 && r.w.store == w.store[Key(temp, PART) := out][Key(temp, Marker) := []]
  {
  }

  /** A first pass whose removal of the target succeeds gets as far as its clean-up. */
  lemma FirstPass(s: Store, w: World, p: Pair, target: string, out: seq<Row>, o: Oracle) returns (m: World)
    requires FirstHalfOk(o, TempName(target)) && TempName(target) != target
    requires InPair(target, p) && !InPair(TempName(target), p)
    requires w.store == s && o(Remove(target), w.tick + 3).ok
    requires forall k | k in s && k.folder == TempName(target) :: k.file == PART || k.file == Marker
    ensures Swapped(s, m.store, TempName(target), target, out) && m.tick >= w.tick + 4
    ensures var tidy := CleanUp(m, p, target, o);
      Write(w, p, target, false, out, o) == Pass(tidy.w, Some(TempName(target)), true, tidy.error)
  {
    hide Children, CopyAll, CleanUp, InPair, TempName, Prepare, RemoveDataset, Swapped;
    var temp := TempName(target);
    PreparedFine(w, temp, out, o);
    var ready := Prepare(w, temp, out, o);
    RemovalFine(ready.w, target, o);
    var gone := RemoveDataset(ready.w, target, o);
    assert gone.w.store == DropFolder(ready.w.store, target);
    var files := Children(gone.w.store, temp);
    assert PART in files;
    CopyAllFine(Ask(gone.w, ListChildren(temp), o).w, temp, target, files, o);
    CopyAllTick(Ask(gone.w, ListChildren(temp), o).w, temp, target, files, o);
    var move := MoveFolder(gone.w, temp, target, o);
    MoveEffect(gone.w, temp, target, o);
    MovedStore(s, gone.w.store, move.w.store, temp, target, out);
    m := move.w;
  }

  lemma RemovalBroken(w: World, folder: string, o: Oracle)
    requires HasFolder(w.store, folder) && o(Exists(folder), w.tick).ok && !o(Remove(folder), w.tick + 1).ok
    ensures var r, out := RemoveDataset(w, folder, o), o(Remove(folder), w.tick + 1);
      && r.error == Some(out.error) && SameBut(w.store, r.w.store, folder)
      && ((forall k | k in w.store && k.folder == folder :: k in out.reach) ==> !HasFolder(r.w.store, folder))
  {
  }

  lemma WriteStopsAtRemoval(w: World, p: Pair, target: string, moved: bool, out: seq<Row>, o: Oracle)
    requires HasFolder(w.store, target) && TempName(target) != target
    requires forall c: Call, k: nat :: !c.Remove? && !c.ListFolders? ==> o(c, k).ok
    requires !o(Remove(target), w.tick + 3).ok
    ensures var r, last := Write(w, p, target, moved, out, o), o(Remove(target), w.tick + 3);
      && r.temp == Some(TempName(target)) && r.moved == moved && r.error == Some(last.error)
      && Holds(r.w.store, TempName(target), out)
      && (forall k: Key :: k.folder != target && k.folder != TempName(target) ==> SameAt(w.store, r.w.store, k))
      && (w.store.Keys <= last.reach ==> !HasFolder(r.w.store, target))
  {
    hide TempName, MoveFolder, CleanUp, RemoveDataset;
    var prepared := Prepare(w, TempName(target), out, o);
    assert forall k: Key | k.folder != TempName(target) :: SameAt(w.store, prepared.w.store, k);
    assert HasFolder(prepared.w.store, target) by {
      var k :| k in w.store && k.folder == target;
      assert k in prepared.w.store;
    }
    RemovalBroken(prepared.w, target, o);
    var gone := RemoveDataset(prepared.w, target, o);
    assert SameAt(prepared.w.store, gone.w.store, Key(TempName(target), PART));
    forall k: Key | k.folder != target && k.folder != TempName(target) ensures SameAt(w.store, gone.w.store, k) {
      assert SameAt(prepared.w.store, gone.w.store, k);
    }
  }

  /** A pass that finds its target in place and fails to remove it. */
  lemma PassStopsAtRemoval(w: World, p: Pair, temp: Option<string>, moved: bool, o: Oracle, tie: Tie, target: string)
    requires Rows(w.store, p) != {} && target == TargetName(Rows(w.store, p), p) && HasFolder(w.store, target)
    requires InPair(target, p) && !InPair(TempName(target), p) && TempName(target) != target
    requires forall c: Call, k: nat :: !c.Remove? && !c.ListFolders? ==> o(c, k).ok
    requires forall k: nat | k >= w.tick ::
      !o(Remove(target), k).ok && o(Remove(target), k).error == Error(false, false)
    ensures var r := MergePass(w, p, temp, moved, o, tie);
      && r.temp == Some(TempName(target)) && r.moved == moved && r.error == Some(Error(false, false))
      && Holds(r.w.store, TempName(target), Merged(Rows(w.store, p), tie))
      && (forall k: Key :: k.folder != target && k.folder != TempName(target) ==> SameAt(w.store, r.w.store, k))
      && ((forall k: nat | k >= w.tick :: w.store.Keys <= o(Remove(target), k).reach) ==> !HasFolder(r.w.store, target))
  {
    hide TargetName, Merged, InPair, TempName, MergePass, Write;
    var ready := World(w.store, w.tick + 1, w.passes + 1);
    PassWrites(w, p, temp, moved, o, tie, ready, Rows(w.store, p));
    WriteStopsAtRemoval(ready, p, target, moved, Merged(Rows(w.store, p), tie), o);
  }

  lemma SwappedTimes(s: Store, m: Store, p: Pair, target: string, tie: Tie)
    requires InPair(target, p) && !InPair(TempName(target), p) && TempName(target) != target
    requires Swapped(s, m, TempName(target), target, Merged(Rows(s, p), tie))
    ensures Times(m, p) == Times(s, p)
  {
    hide InPair, TempName, Merged;
    MergedSorted(Rows(s, p), tie);
    HoldsTimes(m, target, Rows(s, p), tie, p);
    forall r | r in Rows(m, p) ensures r in Rows(s, p) {
      var k :| k in m && IsSource(k, p) && r in m[k];
      if k.folder != target { assert SameAt(s, m, k); } else { assert k == Key(target, PART); }
    }
  }

  /** The first pass moves its rows and fails to list what it is to clean up. */
  lemma StaleFirstPass(w: World, p: Pair, tie: Tie, o: Oracle, target: string) returns (first: Pass)
    requires Mergeable(p) && Rows(w.store, p) != {} && TempClean(w.store, p)
    requires target == TargetName(Rows(w.store, p), p) && o == StaleMoved(target, w.tick + 5)
    ensures first == MergePass(w, p, None, false, o, tie)
    ensures first.temp == Some(TempName(target)) && first.moved && first.error == Some(Error(true, false))
    ensures Rows(first.w.store, p) != {} && TargetName(Rows(first.w.store, p), p) == target
    ensures Key(target, PART) in first.w.store && first.w.tick >= w.tick + 5
  {
    hide MergePass, Write, TargetName, Merged, InPair, TempName, Mergeable;
    var rows := Rows(w.store, p);
    TargetInPair(rows, p);
    var ready := World(w.store, w.tick + 1, w.passes + 1);
    PassWrites(w, p, None, false, o, tie, ready, rows);
    var m := FirstPass(w.store, ready, p, target, Merged(rows, tie), o);
    SwappedTimes(w.store, m.store, p, target, tie);
    SameTarget(Rows(m.store, p), rows, p);
    first := MergePass(w, p, None, false, o, tie);
  }

  /** An auth error in the clean-up after a move re-runs the pass with `moved` still set, so a
      failure of the second pass leaves its unfinished folder behind. */
  lemma StaleMovedLeavesTemp(w: World, p: Pair, tie: Tie)
    requires Mergeable(p) && Rows(w.store, p) != {} && TempClean(w.store, p)
    ensures var e := MergeSingle(w, p, StaleMoved(TargetName(Rows(w.store, p), p), w.tick + 7), tie);
      e.escaped.None? && HasFolder(e.w.store, TempOf(w.store, p))
  {
    hide MergePass, TargetName, Merged, InPair, TempName, Mergeable, Rows;
    var target := TargetName(Rows(w.store, p), p);
    var o, temp := StaleMoved(target, w.tick + 7), TempName(target);
    TargetInPair(Rows(w.store, p), p);
    RowsHaveSources(w.store, p);
    var cursor := Ask(Ask(w, ListSources, o).w, Cursor, o);
    var first := StaleFirstPass(cursor.w, p, tie, o, target);
    var renewed := Ask(first.w, Refresh, o);
    PassStopsAtRemoval(renewed.w, p, first.temp, true, o, tie, target);
    var second := MergePass(renewed.w, p, first.temp, true, o, tie);
    assert AuthRetry(cursor.w, p, o, tie) == second;
    assert MergeSingle(w, p, o, tie) == End(second.w, None);
    assert Key(temp, PART) in second.w.store;
  }

  lemma {:induction false} DropAllBroken(w: World, folders: seq<string>, keep: string, last: string,
                                        all: set<Key>, from: nat, o: Oracle)
    requires LateErrors(o, last, keep, all, from)
    requires LastRemoved(folders, keep, last)
    requires HasFolder(w.store, last) && w.store.Keys <= all
    ensures var r := DropAll(w, folders, keep, o);
      && r.error == Some(Error(false, true))
      && (forall k | k in r.w.store :: k.folder == keep || k.folder !in folders)
      && (forall k: Key :: k.folder == keep || k.folder !in folders ==> SameAt(w.store, r.w.store, k))
    decreases |folders|
  {
    hide SameBut;
    var rest := folders[1..];
    assert forall f :: f in folders <==> f == folders[0] || f in rest;
    var one := RemoveDataset(w, folders[0], o);
    if folders[0] == last {
      assert forall f | f in rest :: f == keep;
    } else {
      assert LastRemoved(rest, keep, last) by {
        assert forall i | 0 <= i < |rest| :: rest[i] == folders[i + 1];
      }
      if folders[0] == keep {
        DropAllBroken(w, rest, keep, last, all, from, o);
      } else {
        var k :| k in w.store && k.folder == last;
        assert k in one.w.store;
        DropAllBroken(one.w, rest, keep, last, all, from, o);
      }
    }
  }

  /** After the broken clean-up the merged folder is all there is, and it will be the target again. */
  lemma OnlyTargetLeft(s: Store, m: Store, t: Store, p: Pair, target: string, tie: Tie)
    requires Mergeable(p) && Rows(s, p) != {} && target == TargetName(Rows(s, p), p)
    requires Swapped(s, m, TempName(target), target, Merged(Rows(s, p), tie))
    requires forall k | k in t :: k.folder == target || k.folder !in DatasetFolders(m, p)
    requires forall k: Key :: k.folder == target || k.folder !in DatasetFolders(m, p) ==> SameAt(m, t, k)
    ensures HasFolder(t, target) && Sources(t, p) == {Key(target, PART)}
    ensures Rows(t, p) != {} && TargetName(Rows(t, p), p) == target
  {
    hide Merged, InPair, TempName;
    TargetInPair(Rows(s, p), p);
    var data := Key(target, PART);
    assert SameAt(m, t, data);
    forall k | k in t && IsSource(k, p) ensures k == data {
      assert SameAt(m, t, k);
      assert k.folder in DatasetFolders(m, p);
    }
    assert data in Sources(t, p);
    OneSource(t, p, data);
    MergedSorted(Rows(s, p), tie);
    SameDates(Rows(t, p), Rows(s, p));
  }

  lemma SwappedFolders(s: Store, m: Store, p: Pair, target: string, out: seq<Row>)
    requires InPair(target, p) && !InPair(TempName(target), p) && TempName(target) != target
    requires Swapped(s, m, TempName(target), target, out)
    ensures DatasetFolders(m, p) == DatasetFolders(s, p) + {target}
    ensures m.Keys <= s.Keys + {Key(target, PART), Key(target, Marker)}
  {
  }

  predicate LastOld(s: Store, p: Pair, target: string, last: string) {
    LastRemoved(SortedStrings(DatasetFolders(s, p) + {target}), target, last)
  }

  lemma ChooseLast(s: Store, p: Pair, target: string) returns (last: string)
    requires exists f :: f in DatasetFolders(s, p) && f != target
    ensures LastOld(s, p, target, last) && last != target && last in DatasetFolders(s, p)
  {
    var f :| f in DatasetFolders(s, p) && f != target;
    last := SomeLast(SortedStrings(DatasetFolders(s, p) + {target}), target, f);
  }

  /** The clean-up of the losing run: every old folder goes, then a retriable error. */
  lemma LateCleanUp(m: World, p: Pair, target: string, last: string, all: set<Key>, from: nat, o: Oracle)
    requires LateErrors(o, last, target, all, from)
    requires target in DatasetFolders(m.store, p) && LastOld(m.store, p, target, last)
    requires m.store.Keys <= all
    ensures var tidy := CleanUp(m, p, target, o);
      && tidy.error == Some(Error(false, true))
      && (forall k | k in tidy.w.store :: k.folder == target || k.folder !in DatasetFolders(m.store, p))
      && (forall k: Key :: k.folder == target || k.folder !in DatasetFolders(m.store, p) ==>
            SameAt(m.store, tidy.w.store, k))
  {
    hide DropAll;
    var list := Ask(m, ListFolders, o);
    assert DatasetFolders(m.store, p) + {target} == DatasetFolders(m.store, p);
    assert last in DatasetFolders(m.store, p);
    DropAllBroken(list.w, SortedStrings(DatasetFolders(m.store, p)), target, last, all, from, o);
  }

  lemma SameLastOld(s: Store, m: Store, p: Pair, target: string, last: string)
    requires LastOld(s, p, target, last) && DatasetFolders(m, p) == DatasetFolders(s, p) + {target}
    ensures LastOld(m, p, target, last)
  {
    assert DatasetFolders(m, p) + {target} == DatasetFolders(s, p) + {target};
  }

  /** What decides the turn after a pass that moved its rows and then met a retriable error. */
  lemma RetryAfterMove(w: World, p: Pair, o: Oracle, tie: Tie, r: Pass)
    requires MergePass(w, p, None, false, o, tie) == r
    requires r.moved && r.error == Some(Error(false, true)) && o(NewConnection, r.w.tick).ok
    ensures Settle(AuthRetry(w, p, o, tie), 0, o) == Retry(Ask(r.w, NewConnection, o).w)
  {
    hide MergePass, RemoveDataset;
  }

  /** The first attempt of the losing run: it moves the merged rows and fails in the clean-up. */
  lemma LateFirstAttempt(w: World, p: Pair, tie: Tie, last: string, all: set<Key>, target: string, from: nat, o: Oracle)
    returns (w1: World)
    requires LateErrors(o, last, target, all, from)
    requires Mergeable(p) && Rows(w.store, p) != {} && TempClean(w.store, p)
    requires target == TargetName(Rows(w.store, p), p) && from == w.tick + 5
    requires LastOld(w.store, p, target, last) && last != target && last in DatasetFolders(w.store, p)
    requires all == w.store.Keys + {Key(target, PART), Key(target, Marker)}
    ensures Settle(AuthRetry(w, p, o, tie), 0, o) == Retry(w1)
    ensures w1.store.Keys <= all && HasFolder(w1.store, target) && Sources(w1.store, p) == {Key(target, PART)}
    ensures w1.tick >= from
    ensures Rows(w1.store, p) != {} && TargetName(Rows(w1.store, p), p) == target
    ensures last != target && last != TempName(target)
  {
    hide MergePass, AuthRetry, Settle, Write, TargetName, Merged, InPair, TempName, CleanUp, Swapped, LastOld,
         SortedStrings;
    var s, rows := w.store, Rows(w.store, p);
    TargetInPair(rows, p);
    assert InPair(last, p);
    var ready := World(s, w.tick + 1, w.passes + 1);
    PassWrites(w, p, None, false, o, tie, ready, rows);
    var m := FirstPass(s, ready, p, target, Merged(rows, tie), o);
    SwappedFolders(s, m.store, p, target, Merged(rows, tie));
    assert LastOld(m.store, p, target, last) by { SameLastOld(s, m.store, p, target, last); }
    LateCleanUp(m, p, target, last, all, from, o);
    CleanUpTick(m, p, target, o);
    var tidy := CleanUp(m, p, target, o);
    RetryAfterMove(w, p, o, tie, Pass(tidy.w, Some(TempName(target)), true, tidy.error));
    w1 := Ask(tidy.w, NewConnection, o).w;
    OnlyTargetLeft(s, m.store, tidy.w.store, p, target, tie);
    CleanUpEffect(m, p, target, o);
  }

  lemma NextAttempt(w: World, p: Pair, attempt: nat, o: Oracle, tie: Tie, w1: World)
    requires attempt <= MAX_MERGE_RETRIES && o(Cursor, w.tick).ok
    requires Settle(AuthRetry(Ask(w, Cursor, o).w, p, o, tie), attempt, o) == Retry(w1)
    ensures Attempts(w, p, attempt, o, tie) == Attempts(w1, p, attempt + 1, o, tie)
  {
    hide Settle, AuthRetry;
  }

  /** A pair whose rows are all in its target loses them in any attempt: the removal takes them and
      fails for good, and the clean-up of the unfinished folder leaves nothing. */
  lemma LateLastAttempt(w: World, p: Pair, tie: Tie, attempt: nat, last: string, all: set<Key>,
                        target: string, from: nat, o: Oracle)
    requires LateErrors(o, last, target, all, from) && w.tick >= from && attempt <= MAX_MERGE_RETRIES
    requires w.store.Keys <= all && HasFolder(w.store, target) && DatasetFolders(w.store, p) <= {target}
    requires Mergeable(p) && Rows(w.store, p) != {} && TargetName(Rows(w.store, p), p) == target
    requires last != TempName(target) && last != target
    ensures Times(Attempts(w, p, attempt, o, tie).w.store, p) == {}
  {
    hide MergePass, TargetName, Merged, InPair, TempName;
    var temp := TempName(target);
    TargetInPair(Rows(w.store, p), p);
    var cursor := Ask(w, Cursor, o);
    PassStopsAtRemoval(cursor.w, p, None, false, o, tie, target);
    var r := MergePass(cursor.w, p, None, false, o, tie);
    assert Key(temp, PART) in r.w.store;
    var t := RemoveDataset(r.w, temp, o).w.store;
    assert Attempts(w, p, attempt, o, tie).w.store == t;
    RemoveDatasetEffect(r.w, temp, o);
    forall k | k in t ensures !IsSource(k, p) {
      assert k.folder != temp ==> SameAt(r.w.store, t, k);
      if k.folder != target && k.folder != temp {
        assert SameAt(w.store, r.w.store, k);
        assert IsSource(k, p) ==> k.folder in DatasetFolders(w.store, p);
      }
    }
  }

  /** For every store in which the pair has a row there are store errors, none of them an auth error
      and all of them of removals, under which a call ends with no key of the pair left. If there is
      a folder besides the target, one retriable error of the clean-up is enough: the next attempt
      reads only the merged folder, removes it, fails, and drops its unfinished folder. */
  lemma RetryCanLoseEverything(w: World, p: Pair, tie: Tie) returns (o: Oracle)
    requires Mergeable(p) && Rows(w.store, p) != {} && TempClean(w.store, p)
    ensures forall c: Call, k: nat :: !o(c, k).ok ==> c.Remove? && !o(c, k).error.auth
    ensures Times(MergeSingle(w, p, o, tie).w.store, p) == {}
  {
    hide AuthRetry, Settle, Attempts, TargetName, InPair, TempName, Times, LastOld, Rows, Sources, TempClean;
    var target := TargetName(Rows(w.store, p), p);
    RowsHaveSources(w.store, p);
    var all := w.store.Keys + {Key(target, PART), Key(target, Marker)};
    if exists f :: f in DatasetFolders(w.store, p) && f != target {
      var last := ChooseLast(w.store, p, target);
      o := LateErrorsExist(last, target, all, w.tick + 7);
      var list := Ask(w, ListSources, o);
      var w1 := LateFirstAttempt(Ask(list.w, Cursor, o).w, p, tie, last, all, target, w.tick + 7, o);
      NextAttempt(list.w, p, 0, o, tie, w1);
      SoleFolder(w1.store, p, target);
      LateLastAttempt(w1, p, tie, 1, last, all, target, w.tick + 7, o);
    } else {
      OnlyFolder(w.store, p, target);
      var other := TempName(TempName(target));
      LongerName(target);
      o := LateErrorsExist(other, target, all, 0);
      LateLastAttempt(Ask(w, ListSources, o).w, p, tie, 0, other, all, target, 0, o);
    }
  }

  /** Whatever is to be said of the store before a call, no condition on it alone saves the keys: a
      call keeps every key under all schedules if and only if there is none to keep. */
  lemma NoStoreIsSafe(w: World, p: Pair, tie: Tie)
    requires Mergeable(p) && TempClean(w.store, p)
    ensures Rows(w.store, p) == {} <==>
      forall o: Oracle :: Times(w.store, p) <= Times(MergeSingle(w, p, o, tie).w.store, p)
  {
    hide MergeSingle, TempClean, Rows;
    if Rows(w.store, p) != {} {
      var o := RetryCanLoseEverything(w, p, tie);
      var r :| r in Rows(w.store, p);
      assert r.time in Times(w.store, p);
      assert !(Times(w.store, p) <= Times(MergeSingle(w, p, o, tie).w.store, p));
    }
  }

  lemma LongerName(target: string)
    ensures TempName(TempName(target)) != TempName(target) && TempName(TempName(target)) != target
  {
    assert |TempName(target)| == |target| + 5;
    assert |TempName(TempName(target))| == |TempName(target)| + 5;
  }

  lemma SoleFolder(s: Store, p: Pair, target: string)
    requires Sources(s, p) == {Key(target, PART)}
    ensures DatasetFolders(s, p) <= {target}
  {
    forall k | k in s && IsSource(k, p) ensures k.folder == target {
      assert k in Sources(s, p);
    }
  }

  lemma OnlyFolder(s: Store, p: Pair, target: string)
    requires Sources(s, p) != {} && forall f | f in DatasetFolders(s, p) :: f == target
    ensures HasFolder(s, target) && DatasetFolders(s, p) <= {target}
  {
    var k :| k in Sources(s, p);
    assert k.folder in DatasetFolders(s, p);
  }
}
