/** Which calls the errors of a pass come from. */
module MergeErrors {
  import opened Ordering
  import opened DatasetNames
  import opened ObjectStore
  import opened MergeRun
  import opened MergeSafety

  predicate RaisedBy(o: Oracle, e: Error, c: Call, k: nat) {
    !o(c, k).ok && o(c, k).error == e
  }

  /** The error comes from looking for or removing one of the folders. */
  ghost predicate RaisedByRemoval(o: Oracle, e: Error, folder: string) {
    exists k: nat :: RaisedBy(o, e, Exists(folder), k) || RaisedBy(o, e, Remove(folder), k)
  }

  lemma RemoveDatasetError(w: World, folder: string, o: Oracle)
    ensures var r := RemoveDataset(w, folder, o);
      && (r.error.Some? ==> RaisedByRemoval(o, r.error.value, folder))
      && (r.error.Some? && (forall k: nat :: o(Remove(folder), k).ok) ==> r.w.store == w.store)
  {
    if !o(Exists(folder), w.tick).ok {
      assert RaisedBy(o, o(Exists(folder), w.tick).error, Exists(folder), w.tick);
    } else if HasFolder(w.store, folder) && !o(Remove(folder), w.tick + 1).ok {
      assert RaisedBy(o, o(Remove(folder), w.tick + 1).error, Remove(folder), w.tick + 1);
    }
  }

  lemma {:induction false} CopyAllError(w: World, src: string, dst: string, files: seq<File>, o: Oracle)
    requires src != dst && forall f | f in files :: Key(src, f) in w.store
    ensures var e := CopyAll(w, src, dst, files, o).error;
      e.Some? ==> exists f: File, k: nat :: RaisedBy(o, e.value, CopyFile(Key(src, f), Key(dst, f)), k)
    decreases |files|
  {
    if files != [] {
      var k := Key(dst, files[0]);
      var c := CopyFile(Key(src, files[0]), k);
      if o(c, w.tick).ok {
        CopyAllError(Put(w, c, k, w.store[Key(src, files[0])], o).w, src, dst, files[1..], o);
      } else {
        assert RaisedBy(o, o(c, w.tick).error, CopyFile(Key(src, files[0]), Key(dst, files[0])), w.tick);
      }
    }
  }

  /** A move raises from the listing, from a copy, or, with everything copied, from the removal. */
  lemma MoveError(w: World, src: string, dst: string, o: Oracle)
    requires src != dst && Key(src, PART) in w.store && !HasFolder(w.store, dst)
    ensures var r := MoveFolder(w, src, dst, o);
      r.error.Some? ==>
        || (exists k: nat :: RaisedBy(o, r.error.value, ListChildren(src), k))
        || (exists f: File, k: nat :: RaisedBy(o, r.error.value, CopyFile(Key(src, f), Key(dst, f)), k))
        || ((exists k: nat :: RaisedBy(o, r.error.value, Remove(src), k)) && Copied(w.store, r.w.store, src, dst, PART))
  {
    hide Children, CopyAll;
    var files := Children(w.store, src);
    assert PART in files;
    var list := Ask(w, ListChildren(src), o);
    if list.error.Some? {
      assert RaisedBy(o, list.error.value, ListChildren(src), w.tick);
    } else {
      CopyAllError(list.w, src, dst, files, o);
      CopyAllEffect(list.w, src, dst, files, o);
      var copied := CopyAll(list.w, src, dst, files, o);
      if copied.error.None? && !o(Remove(src), copied.w.tick).ok {
        assert RaisedBy(o, o(Remove(src), copied.w.tick).error, Remove(src), copied.w.tick);
      }
    }
  }

  lemma {:induction false} DropAllError(w: World, folders: seq<string>, keep: string, o: Oracle)
    ensures var e := DropAll(w, folders, keep, o).error;
      e.Some? ==> exists f: string :: f in folders && f != keep && RaisedByRemoval(o, e.value, f)
    decreases |folders|
  {
    hide RemoveDataset;
    if folders != [] {
      assert forall f | f in folders[1..] :: f in folders;
      if folders[0] == keep {
        DropAllError(w, folders[1..], keep, o);
      } else {
        RemoveDatasetError(w, folders[0], o);
        assert folders[0] in folders;
        var one := RemoveDataset(w, folders[0], o);
        if one.error.None? {
          DropAllError(one.w, folders[1..], keep, o);
        }
      }
    }
  }

  /** A clean-up raises from the listing, before it did anything, or from one of the pair's other folders. */
  lemma CleanUpError(w: World, p: Pair, keep: string, o: Oracle)
    ensures var r := CleanUp(w, p, keep, o);
      r.error.Some? ==>
        || ((exists k: nat :: RaisedBy(o, r.error.value, ListFolders, k)) && r.w.store == w.store)
        || (exists f: string :: InPair(f, p) && f != keep && RaisedByRemoval(o, r.error.value, f))
  {
    hide DropAll;
    if !o(ListFolders, w.tick).ok {
      assert RaisedBy(o, o(ListFolders, w.tick).error, ListFolders, w.tick);
    } else {
      DropAllError(Ask(w, ListFolders, o).w, SortedStrings(DatasetFolders(w.store, p)), keep, o);
      assert forall f | f in DatasetFolders(w.store, p) :: InPair(f, p);
    }
  }

  /** Every error from the removal of the target on is one of the store. */
  lemma PublishError(w: World, p: Pair, temp: string, target: string, moved: bool, o: Oracle)
    requires temp != target && Key(temp, PART) in w.store
    ensures var r := Publish(w, p, temp, target, moved, o);
      r.error.Some? ==> exists c: Call, k: nat :: c.OnStore() && RaisedBy(o, r.error.value, c, k)
  {
    hide RemoveDataset, MoveFolder, CleanUp;
    RemoveDatasetError(w, target, o);
    RemoveDatasetEffect(w, target, o);
    var gone := RemoveDataset(w, target, o);
    if gone.error.None? {
      assert SameAt(w.store, gone.w.store, Key(temp, PART));
      MoveError(gone.w, temp, target, o);
      var move := MoveFolder(gone.w, temp, target, o);
      if move.error.None? {
        CleanUpError(move.w, p, target, o);
      }
    }
  }
}
