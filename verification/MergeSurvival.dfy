/** Which rows survive failures of the store. While a call publishes, the folder that already bears
    the target's name is removed before the merged rows are copied into it. Here: one pass with its
    `finally`, and whole calls in which errors of the store are final. */
module MergeSurvival {
  import opened Calendar
  import opened DatasetNames
  import opened ObjectStore
  import opened MergeSpec
  import opened MergeRun
  import opened MergeErrors
  import opened MergeSafety
  import opened MergeOutcome
  import opened Wrappers

  /** Errors of the store are never taken for retriable ones. */
  ghost predicate StoreErrorsFinal(o: Oracle) {
    forall c: Call, k: nat :: c.OnStore() ==> !o(c, k).error.auth && !o(c, k).error.retriable
  }

  /** No failure between the removal of the target and the end of the copy. */
  ghost predicate WindowOk(o: Oracle, target: string) {
    forall c: Call, k: nat ::
      c == Remove(target) || c == ListChildren(TempName(target)) || (c.CopyFile? && c.dst.folder == target) ==>
        o(c, k).ok
  }

  /** The keys in the pair's folders other than `folder`. */
  function OtherTimes(s: Store, p: Pair, folder: string): (ts: set<Instant>) {
    set k, r | k in s && IsSource(k, p) && k.folder != folder && r in s[k] :: r.time
  }

  /** Each key of the folder that bears the target's name, if there is one, is also elsewhere. */
  predicate TargetCovered(s: Store, p: Pair) {
    Rows(s, p) != {} ==> Times(s, p) <= OtherTimes(s, p, TargetName(Rows(s, p), p))
  }

  /** A pair without a folder of the target's name is covered. */
  lemma AbsentIsCovered(s: Store, p: Pair)
    requires Rows(s, p) != {} ==> !HasFolder(s, TargetName(Rows(s, p), p))
    ensures TargetCovered(s, p)
  {
  }

  // ----- publishing under store failures -----

  lemma PublishFinal(w: World, p: Pair, temp: string, target: string, o: Oracle)
    requires temp != target && Key(temp, PART) in w.store
    ensures var r := Publish(w, p, temp, target, false, o);
      StoreErrorsFinal(o) && r.error.Some? ==> !r.error.value.auth && !r.error.value.retriable
  {
    hide Publish;
    PublishError(w, p, temp, target, false, o);
  }

  /** Without a failure in the window the old target is only gone once the merged rows are there. */
  lemma PublishWindow(w: World, p: Pair, target: string, moved: bool, out: seq<Row>, o: Oracle)
    requires WindowOk(o, target) && TempName(target) != target && Holds(w.store, TempName(target), out)
    ensures var r := Publish(w, p, TempName(target), target, moved, o);
      r.w.store == w.store || Holds(r.w.store, target, out)
  {
    hide RemoveDataset, MoveFolder, CleanUp, TempName;
    var temp := TempName(target);
    RemoveDatasetEffect(w, target, o);
    RemoveDatasetError(w, target, o);
    var gone := RemoveDataset(w, target, o);
    if gone.error.None? {
      assert SameAt(w.store, gone.w.store, Key(temp, PART));
      MoveEffect(gone.w, temp, target, o);
      MoveError(gone.w, temp, target, o);
      var move := MoveFolder(gone.w, temp, target, o);
      assert Holds(move.w.store, target, out);
      CleanUpEffect(move.w, p, target, o);
      assert SameAt(move.w.store, CleanUp(move.w, p, target, o).w.store, Key(target, PART));
    }
  }

  // ----- one pass and its clean-up, whatever is raised -----

  lemma PassWindow(w: World, p: Pair, temp: Option<string>, moved: bool, o: Oracle, tie: Tie)
    requires Mergeable(p) && Rows(w.store, p) != {} && WindowOk(o, TargetName(Rows(w.store, p), p))
    ensures var r, target := MergePass(w, p, temp, moved, o, tie), TargetName(Rows(w.store, p), p);
      SameBut(w.store, r.w.store, TempName(target)) || Holds(r.w.store, target, Merged(Rows(w.store, p), tie))
  {
    hide MergePass, Publish, Prepare, TargetName, Merged, InPair, TempName, WindowOk;
    var rows := Rows(w.store, p);
    var target, out := TargetName(rows, p), Merged(rows, tie);
    TargetInPair(rows, p);
    if o(ReadRange, w.tick).ok {
      var read := World(w.store, w.tick + 1, w.passes + 1);
      PassWrites(w, p, temp, moved, o, tie, read, rows);
      PrepareEffect(read, TempName(target), out, o);
      var ready := Prepare(read, TempName(target), out, o);
      if ready.error.None? {
        PublishWindow(ready.w, p, target, moved, out, o);
      }
    } else {
      PassReadFails(w, p, temp, moved, o, tie);
    }
  }

  /** Crash safety of one pass with its `finally`, under errors of any kind: no key is lost if the
      target is covered, or if nothing fails between the removal of the target and the copy. The pass
      may be a first one, or the second of an auth retry whose first one moved nothing. */
  lemma PassThenFinally(w: World, p: Pair, temp: Option<string>, o: Oracle, tie: Tie)
    requires Mergeable(p) && (temp.None? || !InPair(temp.value, p))
    requires Rows(w.store, p) != {} ==> TargetCovered(w.store, p) || WindowOk(o, TargetName(Rows(w.store, p), p))
    ensures Times(w.store, p) <= Times(Finally(MergePass(w, p, temp, false, o, tie), o).w.store, p)
  {
    hide MergePass, RemoveDataset, TargetCovered, WindowOk, TargetName, Merged, InPair, TempName;
    PassEffect(w, p, temp, false, o, tie);
    var r := MergePass(w, p, temp, false, o, tie);
    var t := Finally(r, o).w.store;
    if r.temp.Some? {
      RemoveDatasetEffect(r.w, r.temp.value, o);
    }
    if Idle(w.store, r, temp, false) {
      if temp.Some? { SameButReads(w.store, t, temp.value, p); }
    } else {
      if WindowOk(o, TargetName(Rows(w.store, p), p)) {
        PassWindow(w, p, temp, false, o, tie);
      }
      StartedThenFinally(w.store, r, t, p, o, tie);
    }
  }

  lemma StartedThenFinally(s: Store, r: Pass, t: Store, p: Pair, o: Oracle, tie: Tie)
    requires Mergeable(p) && Rows(s, p) != {}
    requires Started(s, r, p, TargetName(Rows(s, p), p), false, Merged(Rows(s, p), tie))
    requires SameBut(r.w.store, t, TempOf(s, p)) && (r.moved ==> t == r.w.store)
    requires TargetCovered(s, p) || SameBut(s, r.w.store, TempOf(s, p))
             || Holds(r.w.store, TargetName(Rows(s, p), p), Merged(Rows(s, p), tie))
    ensures Times(s, p) <= Times(t, p)
  {
    hide TargetName, Merged, InPair, TempName, OtherTimes;
    var target, temp, out := TargetName(Rows(s, p), p), TempOf(s, p), Merged(Rows(s, p), tie);
    TargetInPair(Rows(s, p), p);
    assert SameAt(r.w.store, t, Key(target, PART));
    if Holds(r.w.store, target, out) {
      HoldsTimes(t, target, Rows(s, p), tie, p);
    } else if SameBut(s, r.w.store, temp) {
      forall k: Key | k.folder != temp ensures SameAt(s, t, k) {
        assert SameAt(s, r.w.store, k) && SameAt(r.w.store, t, k);
      }
      SameButReads(s, t, temp, p);
    } else {
      forall k: Key | k.folder != target && k.folder != temp ensures SameAt(s, t, k) {
        assert SameAt(s, r.w.store, k) && SameAt(r.w.store, t, k);
      }
      OthersSurvive(s, t, p, target, temp);
    }
  }

  // ----- a whole call -----

  /** What a pass may have done when store errors are final, seen from store `s`. */
  ghost predicate Safe(s: Store, r: Pass, p: Pair, o: Oracle, tie: Tie)
    requires Rows(s, p) != {}
  {
    var target, temp, out := TargetName(Rows(s, p), p), TempOf(s, p), Merged(Rows(s, p), tie);
    && (r.temp.None? || r.temp == Some(temp))
    && (r.moved ==> Holds(r.w.store, target, out))
    && (!r.moved ==> forall k: Key :: k.folder != target && k.folder != temp ==> SameAt(s, r.w.store, k))
    && (WindowOk(o, target) ==> SameBut(s, r.w.store, temp) || Holds(r.w.store, target, out))
    && (r.error.Some? && (r.error.value.auth || r.error.value.retriable) ==> !r.moved && SameBut(s, r.w.store, temp))
  }

  lemma PassSafe(w: World, p: Pair, temp: Option<string>, o: Oracle, tie: Tie, s: Store)
    requires Mergeable(p) && StoreErrorsFinal(o) && Rows(s, p) != {} && SameBut(s, w.store, TempOf(s, p))
    requires temp.None? || temp == Some(TempOf(s, p))
    ensures Safe(s, MergePass(w, p, temp, false, o, tie), p, o, tie)
  {
    hide MergePass, Write, TargetName, Merged, InPair, TempName;
    var rows := Rows(s, p);
    var target, out := TargetName(rows, p), Merged(rows, tie);
    TargetInPair(rows, p);
    SameButReads(s, w.store, TempName(target), p);
    if o(ReadRange, w.tick).ok {
      var ready := World(w.store, w.tick + 1, w.passes + 1);
      PassWrites(w, p, temp, false, o, tie, ready, rows);
      WriteSafe(ready, p, target, out, o, s);
    } else {
      PassReadFails(w, p, temp, false, o, tie);
    }
  }

  lemma WriteSafe(w: World, p: Pair, target: string, out: seq<Row>, o: Oracle, s: Store)
    requires StoreErrorsFinal(o) && InPair(target, p) && !InPair(TempName(target), p) && TempName(target) != target
    requires SameBut(s, w.store, TempName(target))
    ensures var r, temp := Write(w, p, target, false, out, o), TempName(target);
      && r.temp == Some(temp)
      && (r.moved ==> Holds(r.w.store, target, out))
      && (!r.moved ==> forall k: Key :: k.folder != target && k.folder != temp ==> SameAt(s, r.w.store, k))
      && (WindowOk(o, target) ==> SameBut(s, r.w.store, temp) || Holds(r.w.store, target, out))
      && (r.error.Some? && (r.error.value.auth || r.error.value.retriable) ==> !r.moved && SameBut(s, r.w.store, temp))
  {
    hide Publish, Prepare, InPair, TempName, WindowOk, StoreErrorsFinal;
    var temp := TempName(target);
    PrepareEffect(w, temp, out, o);
    var ready := Prepare(w, temp, out, o);
    forall k: Key | k.folder != temp ensures SameAt(s, ready.w.store, k) {
      assert SameAt(s, w.store, k) && SameAt(w.store, ready.w.store, k);
    }
    if ready.error.None? {
      PublishEffect(ready.w, p, temp, target, false, out, o);
      PublishFinal(ready.w, p, temp, target, o);
      var r := Publish(ready.w, p, temp, target, false, o);
      if WindowOk(o, target) {
        PublishWindow(ready.w, p, target, false, out, o);
      }
      forall k: Key | k.folder != temp && SameAt(ready.w.store, r.w.store, k) ensures SameAt(s, r.w.store, k) {
        assert SameAt(s, ready.w.store, k);
      }
    }
  }

  lemma AuthRetrySafe(w: World, p: Pair, o: Oracle, tie: Tie, s: Store)
    requires Mergeable(p) && StoreErrorsFinal(o) && Rows(s, p) != {} && SameBut(s, w.store, TempOf(s, p))
    ensures Safe(s, AuthRetry(w, p, o, tie), p, o, tie)
  {
    hide MergePass, TempOf, TargetName, Merged, WindowOk;
    PassSafe(w, p, None, o, tie, s);
    var first := MergePass(w, p, None, false, o, tie);
    if first.error.Some? && first.error.value.auth && o(Refresh, first.w.tick).ok {
      PassSafe(Ask(first.w, Refresh, o).w, p, first.temp, o, tie, s);
    }
  }

  lemma OthersSurvive(s: Store, t: Store, p: Pair, target: string, temp: string)
    requires !InPair(temp, p)
    requires forall k: Key :: k.folder != target && k.folder != temp ==> SameAt(s, t, k)
    ensures OtherTimes(s, p, target) <= Times(t, p)
  {
  }

  /** How a pass with final store errors is wound up. */
  lemma SettleSafe(r: Pass, p: Pair, attempt: nat, o: Oracle, tie: Tie, s: Store)
    requires Mergeable(p) && Rows(s, p) != {} && Safe(s, r, p, o, tie)
    ensures match Settle(r, attempt, o)
      case Retry(w) => SameBut(s, w.store, TempOf(s, p))
      case Stop(e) =>
        TargetCovered(s, p) || WindowOk(o, TargetName(Rows(s, p), p)) ==> Times(s, p) <= Times(e.w.store, p)
  {
    hide RemoveDataset, TargetName, Merged, InPair, WindowOk, TempName, Times, OtherTimes;
    var temp := TempOf(s, p);
    TargetInPair(Rows(s, p), p);
    forall w: World | w.store == r.w.store ensures SameBut(r.w.store, RemoveDataset(w, temp, o).w.store, temp) {
      RemoveDatasetEffect(w, temp, o);
    }
    var turn := Settle(r, attempt, o);
    var t := if turn.Retry? then turn.w.store else turn.e.w.store;
    assert r.moved ==> t == r.w.store;
    assert SameBut(r.w.store, t, temp);
    if turn.Retry? {
      forall k: Key | k.folder != temp ensures SameAt(s, t, k) {
        assert SameAt(s, r.w.store, k) && SameAt(r.w.store, t, k);
      }
    } else {
      SettledKeys(r, t, p, o, tie, s);
    }
  }

  lemma SettledKeys(r: Pass, t: Store, p: Pair, o: Oracle, tie: Tie, s: Store)
    requires Mergeable(p) && Rows(s, p) != {} && Safe(s, r, p, o, tie)
    requires SameBut(r.w.store, t, TempOf(s, p))
    ensures TargetCovered(s, p) || WindowOk(o, TargetName(Rows(s, p), p)) ==> Times(s, p) <= Times(t, p)
  {
    hide TargetName, Merged, InPair, WindowOk, TempName, OtherTimes;
    var target, temp, out := TargetName(Rows(s, p), p), TempOf(s, p), Merged(Rows(s, p), tie);
    TargetInPair(Rows(s, p), p);
    assert SameAt(r.w.store, t, Key(target, PART));
    if Holds(r.w.store, target, out) {
      HoldsTimes(t, target, Rows(s, p), tie, p);
    } else if WindowOk(o, target) {
      forall k: Key | k.folder != temp ensures SameAt(s, t, k) {
        assert SameAt(s, r.w.store, k) && SameAt(r.w.store, t, k);
      }
      SameButReads(s, t, temp, p);
    } else if TargetCovered(s, p) {
      forall k: Key | k.folder != target && k.folder != temp ensures SameAt(s, t, k) {
        assert SameAt(s, r.w.store, k) && SameAt(r.w.store, t, k);
      }
      OthersSurvive(s, t, p, target, temp);
    }
  }

  lemma AttemptsSafe(w: World, p: Pair, attempt: nat, o: Oracle, tie: Tie, s: Store)
    requires attempt <= MAX_MERGE_RETRIES + 1
    requires Mergeable(p) && StoreErrorsFinal(o) && Rows(s, p) != {} && SameBut(s, w.store, TempOf(s, p))
    requires TargetCovered(s, p) || WindowOk(o, TargetName(Rows(s, p), p))
    ensures Times(s, p) <= Times(Attempts(w, p, attempt, o, tie).w.store, p)
    decreases MAX_MERGE_RETRIES + 1 - attempt
  {
    hide AuthRetry, Settle, Safe, WindowOk, StoreErrorsFinal, TargetCovered, Times, TargetName, TempName, InPair;
    TargetInPair(Rows(s, p), p);
    if attempt == MAX_MERGE_RETRIES + 1 || !o(Cursor, w.tick).ok {
      SameButTimes(s, w.store, TempOf(s, p), p);
    } else {
      var cursor := Ask(w, Cursor, o);
      AuthRetrySafe(cursor.w, p, o, tie, s);
      var r := AuthRetry(cursor.w, p, o, tie);
      SettleSafe(r, p, attempt, o, tie, s);
      var turn := Settle(r, attempt, o);
      if turn.Retry? {
        AttemptsSafe(turn.w, p, attempt + 1, o, tie, s);
      }
    }
  }

  lemma SameButTimes(s: Store, t: Store, folder: string, p: Pair)
    requires SameBut(s, t, folder) && !InPair(folder, p)
    ensures Times(s, p) == Times(t, p)
  {
  }

  /** With final store errors a call keeps every key if its target is covered, or if the failure
      is not between the removal of the target and the copy. */
  lemma FinalKeysSurvive(w: World, p: Pair, o: Oracle, tie: Tie)
    requires Mergeable(p) && StoreErrorsFinal(o)
    requires Rows(w.store, p) != {} ==> TargetCovered(w.store, p) || WindowOk(o, TargetName(Rows(w.store, p), p))
    ensures Times(w.store, p) <= Times(MergeSingle(w, p, o, tie).w.store, p)
  {
    hide Attempts, TargetCovered, WindowOk, StoreErrorsFinal, TargetName;
    var list := Ask(w, ListSources, o);
    if Rows(w.store, p) != {} {
      AttemptsSafe(list.w, p, 0, o, tie, w.store);
    }
  }

  // ----- the copy that fails -----

  /** Everything succeeds except copying data files into place. */
  ghost function DataCopyFails(): (o: Oracle)
    ensures StoreErrorsFinal(o)
  {
    (c: Call, k: nat) => Outcome(!(c.CopyFile? && c.dst.file.Part?), Error(false, false), {})
  }

  lemma {:induction false} CopyAllBroken(w: World, src: string, dst: string, files: seq<File>)
    requires src != dst && forall f | f in files :: Key(src, f) in w.store
    ensures var r := CopyAll(w, src, dst, files, DataCopyFails());
      && (PART in files ==> r.error == Some(Error(false, false)))
      && (forall k | k in r.w.store && k.folder == dst && k.file.Part? :: k in w.store)
    decreases |files|
  {
    if files != [] {
      var k := Key(dst, files[0]);
      var one := Put(w, CopyFile(Key(src, files[0]), k), k, w.store[Key(src, files[0])], DataCopyFails());
      CopyAllBroken(one.w, src, dst, files[1..]);
    }
  }

  lemma PublishBroken(w: World, p: Pair, temp: string, target: string)
    requires temp != target && Key(temp, PART) in w.store
    ensures var r := Publish(w, p, temp, target, false, DataCopyFails());
      && r.error == Some(Error(false, false)) && !r.moved && r.temp == Some(temp)
      && (forall k | k in r.w.store && k.folder == target :: !k.file.Part?)
      && (forall k: Key :: k.folder != target && k.folder != temp ==> SameAt(w.store, r.w.store, k))
  {
    hide CopyAll, Children;
    var o := DataCopyFails();
    RemoveDatasetEffect(w, target, o);
    var gone := RemoveDataset(w, target, o);
    var files := Children(gone.w.store, temp);
    assert SameAt(w.store, gone.w.store, Key(temp, PART));
    assert PART in files;
    var list := Ask(gone.w, ListChildren(temp), o);
    CopyAllBroken(list.w, temp, target, files);
    CopyAllEffect(list.w, temp, target, files, o);
  }

  /** When the data copy fails, only the keys of the other folders are left. */
  lemma BrokenCopyKeepsOthers(w: World, p: Pair, tie: Tie)
    requires Mergeable(p) && Rows(w.store, p) != {}
    ensures var s, t := w.store, MergeSingle(w, p, DataCopyFails(), tie).w.store;
      Times(t, p) <= OtherTimes(s, p, TargetName(Rows(s, p), p))
  {
    hide MergePass, Publish, TargetName, Merged, InPair, TempName, Times, OtherTimes;
    var o, s, rows := DataCopyFails(), w.store, Rows(w.store, p);
    var target, temp := TargetName(rows, p), TempName(TargetName(rows, p));
    TargetInPair(rows, p);
    RowsHaveSources(s, p);
    var cursor := Ask(Ask(w, ListSources, o).w, Cursor, o);
    var ready := World(s, cursor.w.tick + 1, cursor.w.passes + 1);
    PassWrites(cursor.w, p, None, false, o, tie, ready, rows);
    var prepared := Prepare(ready, temp, Merged(rows, tie), o);
    PublishBroken(prepared.w, p, temp, target);
    var r := MergePass(cursor.w, p, None, false, o, tie);
    RemoveDatasetEffect(r.w, temp, o);
    var t := RemoveDataset(r.w, temp, o).w.store;
    assert MergeSingle(w, p, o, tie).w.store == t by { hide Prepare, RemoveDataset; }
    forall k: Key | k.folder != target && k.folder != temp ensures SameAt(s, t, k) {
      assert SameAt(prepared.w.store, r.w.store, k) && SameAt(r.w.store, t, k);
    }
    forall k | k in t && k.folder == target ensures !k.file.Part? {
      assert SameAt(r.w.store, t, k);
    }
    OnlyOthers(s, t, p, target, temp);
  }

  lemma OnlyOthers(s: Store, t: Store, p: Pair, target: string, temp: string)
    requires !InPair(temp, p)
    requires forall k: Key :: k.folder != target && k.folder != temp ==> SameAt(s, t, k)
    requires forall k | k in t && k.folder == target :: !k.file.Part?
    ensures Times(t, p) <= OtherTimes(s, p, target)
  {
  }
}
