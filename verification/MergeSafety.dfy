/** Crash safety of a merge pass and of a whole `merge_single` call: which `trade_time` keys
    survive which failures. */
module MergeSafety {
  import opened Ordering
  import opened Calendar
  import opened DatasetNames
  import opened ObjectStore
  import opened MergeSpec
  import opened MergeRun
  import opened Wrappers

  /** The stores agree outside one folder. */
  ghost predicate SameBut(s: Store, t: Store, folder: string) {
    forall k: Key :: k.folder != folder ==> SameAt(s, t, k)
  }

  // ----- what the helpers do, whatever fails -----

  lemma RemoveDatasetEffect(w: World, folder: string, o: Oracle)
    ensures var r := RemoveDataset(w, folder, o);
      && SameBut(w.store, r.w.store, folder)
      && r.w.store.Keys <= w.store.Keys
      && r.w.passes == w.passes
      && (r.error.None? ==> r.w.store == DropFolder(w.store, folder))
  {
  }

  /** A folder that is not there is only looked for. */
  lemma AbsentIsLeft(w: World, folder: string, o: Oracle)
    requires !HasFolder(w.store, folder)
    ensures var r, answer := RemoveDataset(w, folder, o), o(Exists(folder), w.tick);
      r == Step(World(w.store, w.tick + 1, w.passes), if answer.ok then None else Some(answer.error))
  {
  }

  predicate Copied(s: Store, t: Store, src: string, dst: string, f: File) {
    Key(src, f) in s && Key(dst, f) in t && t[Key(dst, f)] == s[Key(src, f)]
  }

  lemma {:induction false} CopyAllEffect(w: World, src: string, dst: string, files: seq<File>, o: Oracle)
    requires src != dst && forall f | f in files :: Key(src, f) in w.store
    ensures var r := CopyAll(w, src, dst, files, o);
      && SameBut(w.store, r.w.store, dst)
      && w.store.Keys <= r.w.store.Keys
      && r.w.passes == w.passes
      && (r.error.None? ==> forall f | f in files :: Copied(w.store, r.w.store, src, dst, f))
      && (forall f | Key(dst, f) in r.w.store ::
            SameAt(w.store, r.w.store, Key(dst, f)) || (f in files && Copied(w.store, r.w.store, src, dst, f)))
    decreases |files|
  {
    if files != [] {
      var k := Key(dst, files[0]);
      var one := Put(w, CopyFile(Key(src, files[0]), k), k, w.store[Key(src, files[0])], o);
      if one.error.None? {
        var rest := files[1..];
        CopyAllEffect(one.w, src, dst, rest, o);
        var r := CopyAll(one.w, src, dst, rest, o);
        forall f | Copied(one.w.store, r.w.store, src, dst, f) ensures Copied(w.store, r.w.store, src, dst, f) {
          assert SameAt(w.store, one.w.store, Key(src, f));
        }
      }
    }
  }

  lemma {:induction false} DropAllEffect(w: World, folders: seq<string>, keep: string, o: Oracle)
    ensures var r := DropAll(w, folders, keep, o);
      && (forall k: Key :: k.folder == keep || k.folder !in folders ==> SameAt(w.store, r.w.store, k))
      && r.w.store.Keys <= w.store.Keys
      && r.w.passes == w.passes
      && (r.error.None? ==> forall k | k in r.w.store :: k.folder == keep || k.folder !in folders)
    decreases |folders|
  {
    if folders != [] {
      var rest := folders[1..];
      assert forall f :: f in folders <==> f == folders[0] || f in rest;
      if folders[0] == keep {
        DropAllEffect(w, rest, keep, o);
      } else {
        RemoveDatasetEffect(w, folders[0], o);
        var one := RemoveDataset(w, folders[0], o);
        if one.error.None? {
          DropAllEffect(one.w, rest, keep, o);
        }
      }
    }
  }

  /** Before it is done, a move only adds to the destination; the source goes last, when every
      file is copied. */
  lemma MoveEffect(w: World, src: string, dst: string, o: Oracle)
    requires src != dst && Key(src, PART) in w.store && !HasFolder(w.store, dst)
    ensures var r := MoveFolder(w, src, dst, o);
      && (forall k: Key :: k.folder != src && k.folder != dst ==> SameAt(w.store, r.w.store, k))
      && r.w.passes == w.passes
      && (SameAt(w.store, r.w.store, Key(src, PART)) ||
          (Key(dst, PART) in r.w.store && r.w.store[Key(dst, PART)] == w.store[Key(src, PART)]))
      && (r.error.None? ==>
           && !HasFolder(r.w.store, src)
           && (forall f :: Key(dst, f) in r.w.store <==> Key(src, f) in w.store)
           && (forall f | Key(src, f) in w.store :: r.w.store[Key(dst, f)] == w.store[Key(src, f)]))
      && (forall f | Key(dst, f) in r.w.store :: Copied(w.store, r.w.store, src, dst, f))
      && (forall f | Key(src, f) in r.w.store :: Key(src, f) in w.store)
  {
    hide Children, CopyAll;
    var files := Children(w.store, src);
    assert PART in files;
    var list := Ask(w, ListChildren(src), o);
    if list.error.None? {
      CopyAllEffect(list.w, src, dst, files, o);
      var copied := CopyAll(list.w, src, dst, files, o);
      forall f ensures copied.error.None? && Key(dst, f) in copied.w.store ==> Key(src, f) in w.store {
        assert !(Key(dst, f) in w.store);
      }
    }
  }

  // ----- one pass -----

  /** Where the merged rows are while they are being published. */
  predicate Holds(s: Store, folder: string, out: seq<Row>) {
    Key(folder, PART) in s && s[Key(folder, PART)] == out
  }

  lemma CleanUpEffect(w: World, p: Pair, keep: string, o: Oracle)
    ensures var r := CleanUp(w, p, keep, o);
      && (forall k: Key :: k.folder == keep || !InPair(k.folder, p) || k.folder !in DatasetFolders(w.store, p) ==>
            SameAt(w.store, r.w.store, k))
      && r.w.store.Keys <= w.store.Keys
      && r.w.passes == w.passes
      && (r.error.None? ==> forall k | k in r.w.store :: k.folder == keep || k.folder !in DatasetFolders(w.store, p))
  {
    var list := Ask(w, ListFolders, o);
    if list.error.None? {
      assert forall f | f in DatasetFolders(w.store, p) :: InPair(f, p);
      DropAllEffect(list.w, SortedStrings(DatasetFolders(w.store, p)), keep, o);
    }
  }

  /** From the removal of the target on: the merged rows are always in the unfinished folder or in
      the target, and until they are moved no other folder is touched. */
  lemma PublishEffect(w: World, p: Pair, temp: string, target: string, moved: bool, out: seq<Row>, o: Oracle)
    requires InPair(target, p) && !InPair(temp, p) && temp != target && Holds(w.store, temp, out)
    ensures var r := Publish(w, p, temp, target, moved, o);
      && r.temp == Some(temp)
      && (forall k: Key :: !InPair(k.folder, p) && k.folder != temp ==> SameAt(w.store, r.w.store, k))
      && r.w.passes == w.passes
      && (r.moved && !moved ==> Holds(r.w.store, target, out) && !HasFolder(r.w.store, temp))
      && (Holds(r.w.store, target, out) || Holds(r.w.store, temp, out))
      && (!r.moved ==> forall k: Key :: k.folder != target && k.folder != temp ==> SameAt(w.store, r.w.store, k))
      && (r.error.None? ==> r.moved)
  {
    hide RemoveDataset, MoveFolder, CleanUp, InPair;
    RemoveDatasetEffect(w, target, o);
    var gone := RemoveDataset(w, target, o);
    assert SameAt(w.store, gone.w.store, Key(temp, PART));
    if gone.error.None? {
      MoveEffect(gone.w, temp, target, o);
      var move := MoveFolder(gone.w, temp, target, o);
      if move.error.None? {
        assert Holds(move.w.store, target, out);
        CleanUpEffect(move.w, p, target, o);
        assert SameAt(move.w.store, CleanUp(move.w, p, target, o).w.store, Key(target, PART));
      }
    }
  }

  lemma PrepareEffect(w: World, temp: string, out: seq<Row>, o: Oracle)
    ensures var r := Prepare(w, temp, out, o);
      && SameBut(w.store, r.w.store, temp)
      && r.w.passes == w.passes
      && (r.error.None? ==> r.w.store == w.store[Key(temp, PART) := out][Key(temp, Marker) := []])
  {}

  /** What a reader of the pair sees does not depend on folders outside the pair. */
  lemma SameButReads(s: Store, t: Store, folder: string, p: Pair)
    requires SameBut(s, t, folder) && !InPair(folder, p)
    ensures Rows(s, p) == Rows(t, p) && DatasetFolders(s, p) == DatasetFolders(t, p) && Sources(s, p) == Sources(t, p)
  {
  }

  lemma HoldsTimes(s: Store, folder: string, rows: set<Row>, tie: Tie, p: Pair)
    requires Holds(s, folder, Merged(rows, tie))
    ensures TimesOf(rows) <= FolderTimes(s, folder)
    ensures InPair(folder, p) ==> TimesOf(rows) <= Times(s, p)
  {
    MergedSorted(rows, tie);
    var k := Key(folder, PART);
    forall t | t in TimesOf(rows) ensures t in FolderTimes(s, folder) && (InPair(folder, p) ==> t in Times(s, p)) {
      assert t in TimesOf(Elements(s[k]));
      var r :| r in Elements(s[k]) && r.time == t;
      assert InPair(folder, p) ==> r in Rows(s, p);
    }
  }

  /** The possible ends of a pass on store `s`: before it wrote anything; before it began to
      publish; and after, with the merged rows in the unfinished folder or in the target. */
  ghost predicate PassEnds(s: Store, r: Pass, p: Pair, temp: Option<string>, moved: bool, tie: Tie) {
    var rows := Rows(s, p);
    && (r.error.None? ==> r.moved && rows != {})
    && (Idle(s, r, temp, moved) || (rows != {} && Started(s, r, p, TargetName(rows, p), moved, Merged(rows, tie))))
  }

  lemma PassEffect(w: World, p: Pair, temp: Option<string>, moved: bool, o: Oracle, tie: Tie)
    requires Mergeable(p)
    ensures PassEnds(w.store, MergePass(w, p, temp, moved, o, tie), p, temp, moved, tie)
    ensures MergePass(w, p, temp, moved, o, tie).w.passes == w.passes + 1
  {
    hide Write, TargetName, Merged, Started;
    var rows, r := Rows(w.store, p), MergePass(w, p, temp, moved, o, tie);
    if rows == {} || !o(ReadRange, w.tick).ok {
      assert Idle(w.store, r, temp, moved);
    } else {
      var read := Ask(w.(passes := w.passes + 1), ReadRange, o);
      TargetInPair(rows, p);
      StartedEffect(w.store, read.w, p, TargetName(rows, p), moved, Merged(rows, tie), o);
      PassWrites(w, p, temp, moved, o, tie, read.w, rows);
    }
  }

  lemma PassWrites(w: World, p: Pair, temp: Option<string>, moved: bool, o: Oracle, tie: Tie, ready: World,
                   rows: set<Row>)
    requires rows == Rows(w.store, p) && rows != {} && o(ReadRange, w.tick).ok
    requires ready == World(w.store, w.tick + 1, w.passes + 1)
    ensures MergePass(w, p, temp, moved, o, tie) == Write(ready, p, TargetName(rows, p), moved, Merged(rows, tie), o)
  {
    hide Write, TargetName, Merged;
    assert Ask(w.(passes := w.passes + 1), ReadRange, o).w == ready;
  }

  lemma StartedEffect(s: Store, w: World, p: Pair, target: string, moved: bool, out: seq<Row>, o: Oracle)
    requires Mergeable(p) && InPair(target, p) && w.store == s
    ensures var r := Write(w, p, target, moved, out, o);
      Started(s, r, p, target, moved, out) && r.w.passes == w.passes && (r.error.None? ==> r.moved)
  {
    hide Prepare, Publish, InPair;
    var temp := TempName(target);
    OwnTempIsNoDataset(target, p);
    PrepareEffect(w, temp, out, o);
    var ready := Prepare(w, temp, out, o);
    if ready.error.None? {
      PublishEffect(ready.w, p, temp, target, moved, out, o);
    }
  }

  predicate Idle(s: Store, r: Pass, temp: Option<string>, moved: bool) {
    r.w.store == s && r.temp == temp && r.moved == moved && r.error.Some?
  }

  ghost predicate Started(s: Store, r: Pass, p: Pair, target: string, moved: bool, out: seq<Row>) {
    && r.temp == Some(TempName(target))
    && (Prepared(s, r, TempName(target), moved) || PublishedPart(s, r, p, TempName(target), target, moved, out))
  }

  ghost predicate Prepared(s: Store, r: Pass, temp: string, moved: bool) {
    SameBut(s, r.w.store, temp) && r.moved == moved && r.error.Some?
  }

  /** A pass that reached the publishing stage, seen from the store it started on. */
  ghost predicate PublishedPart(s: Store, r: Pass, p: Pair, temp: string, target: string, moved: bool, out: seq<Row>) {
    && (Holds(r.w.store, target, out) || Holds(r.w.store, temp, out))
    && (r.moved && !moved ==> Holds(r.w.store, target, out) && !HasFolder(r.w.store, temp))
    && (!r.moved ==> forall k: Key :: k.folder != target && k.folder != temp ==> SameAt(s, r.w.store, k))
    && (forall k: Key :: !InPair(k.folder, p) && k.folder != temp ==> SameAt(s, r.w.store, k))
  }

  // ----- which keys survive -----

  /** The keys that a reader of the pair sees, and those in the unfinished folder of a pass. */
  function AtHand(s: Store, p: Pair, temp: Option<string>): set<Instant> {
    Times(s, p) + (if temp.Some? then FolderTimes(s, temp.value) else {})
  }

  /** At every point where a pass can stop, each key is in a folder of the pair or in the pass's
      unfinished folder: for a first pass, and for the second one of an auth retry whatever the first
      one left. */
  lemma PassKeepsKeys(w: World, p: Pair, temp: Option<string>, moved: bool, o: Oracle, tie: Tie)
    requires Mergeable(p)
    ensures var r := MergePass(w, p, temp, moved, o, tie);
      Times(w.store, p) <= AtHand(r.w.store, p, r.temp)
  {
    hide MergePass, PassEnds, Times, AtHand;
    PassEffect(w, p, temp, moved, o, tie);
    EndKeepsKeys(w.store, MergePass(w, p, temp, moved, o, tie), p, temp, moved, tie);
  }

  lemma EndKeepsKeys(s: Store, r: Pass, p: Pair, temp: Option<string>, moved: bool, tie: Tie)
    requires Mergeable(p) && PassEnds(s, r, p, temp, moved, tie)
    ensures Times(s, p) <= AtHand(r.w.store, p, r.temp)
  {
    if !Idle(s, r, temp, moved) {
      var rows := Rows(s, p);
      var target, unfinished := TargetName(rows, p), r.temp.value;
      TargetInPair(rows, p);
      if Prepared(s, r, unfinished, moved) {
        SameButReads(s, r.w.store, unfinished, p);
      } else if Holds(r.w.store, target, Merged(rows, tie)) {
        HoldsTimes(r.w.store, target, rows, tie, p);
      } else {
        HoldsTimes(r.w.store, unfinished, rows, tie, p);
      }
    }
  }
}
