/** When a call leaves an unfinished folder behind although its clean-up raises no auth error: an
    auth error of the target's removal makes the second pass publish under another name. */
module MergeLeftovers {
  import opened DatasetNames
  import opened ObjectStore
  import opened Ordering
  import opened MergeSpec
  import opened MergeRun
  import opened MergeSafety
  import opened MergeOutcome
  import opened MergeSurvival
  import opened MergeTidy
  import opened MergeRetries
  import opened Wrappers

  /** Removing superseded folders fails for good if it fails, and listing them without an auth error. */
  ghost predicate CleanUpSpared(o: Oracle, s: Store, p: Pair) {
    Rows(s, p) != {} ==> CleanUpFinal(o, TargetName(Rows(s, p), p)) && ListNeverAuth(o)
  }

  /** One removal of the target fails with an auth error after the objects in `reach` are gone, and
      no data can be written from then on. */
  ghost function AuthAtRemoval(target: string, at: nat, reach: set<Key>): (o: Oracle)
    ensures CleanUpFinal(o, target) && ListNeverAuth(o)
  {
    (c: Call, k: nat) =>
      Outcome(!(c == Remove(target) && k == at) && !(c == WriteData && k > at), Error(c.Remove?, false),
              if c.Remove? then reach else {})
  }

  function Without(s: Store, folder: string, reach: set<Key>): (t: Store) {
    map k | k in s && !(k.folder == folder && k in reach) :: s[k]
  }

  /** Such a loss of the target's objects leaves rows with another range of dates. */
  ghost predicate Renames(s: Store, p: Pair, reach: set<Key>)
    requires Rows(s, p) != {}
  {
    var target := TargetName(Rows(s, p), p);
    var t := Without(s, target, reach);
    HasFolder(s, target) && Rows(t, p) != {} && TargetName(Rows(t, p), p) != target
  }

  lemma RenamesExists(s: Store, p: Pair) returns (reach: set<Key>)
    requires !NameIsStable(s, p)
    ensures Rows(s, p) != {} && Renames(s, p, reach)
  {
    hide TargetName;
    var target := TargetName(Rows(s, p), p);
    var others := OtherRows(s, p, target);
    if others != {} {
      reach := s.Keys;
      OtherObjects(s, p, target);
    } else {
      var k :| k in s && IsSource(k, p) && Elements(s[k]) != {} && TargetName(Elements(s[k]), p) != target;
      reach := s.Keys - {k};
      LoneObject(s, p, target, k);
    }
    assert HasFolder(s, target) || others == Rows(s, p);
  }

  lemma OtherObjects(s: Store, p: Pair, target: string)
    ensures Rows(Without(s, target, s.Keys), p) == OtherRows(s, p, target)
  {
    var t := Without(s, target, s.Keys);
    forall r | r in OtherRows(s, p, target) ensures r in Rows(t, p) {
      var k :| k in s && IsSource(k, p) && k.folder != target && r in s[k];
      assert k in t;
    }
  }

  lemma LoneObject(s: Store, p: Pair, target: string, k: Key)
    requires k in s && IsSource(k, p) && OtherRows(s, p, target) == {}
    ensures Rows(Without(s, target, s.Keys - {k}), p) == Elements(s[k])
  {
    var t := Without(s, target, s.Keys - {k});
    forall r | r in Rows(t, p) ensures r in Elements(s[k]) {
      var j :| j in t && IsSource(j, p) && r in t[j];
      assert j == k || r in OtherRows(s, p, target);
    }
    forall r | r in Elements(s[k]) ensures r in Rows(t, p) {
      assert k.folder == target || r in OtherRows(s, p, target);
      assert k in t;
    }
  }

  lemma RemovalStops(w: World, target: string, reach: set<Key>)
    requires HasFolder(w.store, target)
    ensures RemoveDataset(w, target, AuthAtRemoval(target, w.tick + 1, reach))
      == Step(World(Without(w.store, target, reach), w.tick + 2, w.passes), Some(Error(true, false)))
  {
  }

  lemma WrittenWithout(s: Store, t: Store, target: string, temp: string, out: seq<Row>, reach: set<Key>)
    requires temp != target && t == s[Key(temp, PART) := out][Key(temp, Marker) := []] && HasFolder(s, target)
    ensures HasFolder(t, target)
    ensures SameBut(Without(s, target, reach), Without(t, target, reach), temp)
    ensures Key(temp, PART) in Without(t, target, reach)
  {
    var k :| k in s && k.folder == target;
    assert k in t;
  }

  lemma WriteStops(w: World, p: Pair, target: string, out: seq<Row>, reach: set<Key>) returns (u: Store)
    requires HasFolder(w.store, target) && TempName(target) != target
    ensures Write(w, p, target, false, out, AuthAtRemoval(target, w.tick + 3, reach))
      == Pass(World(u, w.tick + 4, w.passes), Some(TempName(target)), false, Some(Error(true, false)))
    ensures SameBut(Without(w.store, target, reach), u, TempName(target)) && Key(TempName(target), PART) in u
  {
    hide TempName, RemoveDataset, Without, MoveFolder, CleanUp;
    var o, temp := AuthAtRemoval(target, w.tick + 3, reach), TempName(target);
    var written := w.store[Key(temp, PART) := out][Key(temp, Marker) := []];
    assert Prepare(w, temp, out, o) == Step(World(written, w.tick + 2, w.passes), None);
    WrittenWithout(w.store, written, target, temp, out, reach);
    RemovalStops(World(written, w.tick + 2, w.passes), target, reach);
    u := Without(written, target, reach);
  }

  /** The first pass: everything is written, then the removal of the target stops on the way. */
  lemma FirstStops(w: World, p: Pair, tie: Tie, reach: set<Key>) returns (u: Store)
    requires Mergeable(p) && Rows(w.store, p) != {} && Renames(w.store, p, reach)
    ensures var target := TargetName(Rows(w.store, p), p);
      && MergePass(w, p, None, false, AuthAtRemoval(target, w.tick + 4, reach), tie)
         == Pass(World(u, w.tick + 5, w.passes + 1), Some(TempName(target)), false, Some(Error(true, false)))
      && SameBut(Without(w.store, target, reach), u, TempName(target))
      && Key(TempName(target), PART) in u
  {
    hide MergePass, Write, TargetName, Merged, InPair, TempName, Without, Mergeable;
    var rows := Rows(w.store, p);
    TargetInPair(rows, p);
    var read := World(w.store, w.tick + 1, w.passes + 1);
    PassWrites(w, p, None, false, AuthAtRemoval(TargetName(rows, p), w.tick + 4, reach), tie, read, rows);
    u := WriteStops(read, p, TargetName(rows, p), Merged(rows, tie), reach);
  }

  /** The second pass: it publishes under another name, fails at once, and tidies up only there. */
  lemma SecondStops(w: World, p: Pair, temp: Option<string>, o: Oracle, tie: Tie)
    requires Rows(w.store, p) != {} && o(ReadRange, w.tick).ok
    requires o(WriteData, w.tick + 1) == Outcome(false, Error(false, false), {})
    ensures MergePass(w, p, temp, false, o, tie)
      == Pass(World(w.store, w.tick + 2, w.passes + 1), Some(TempOf(w.store, p)), false, Some(Error(false, false)))
  {
    hide MergePass, TargetName, Merged, TempName;
    PassWrites(w, p, temp, false, o, tie, World(w.store, w.tick + 1, w.passes + 1), Rows(w.store, p));
  }

  lemma TempInjective(a: string, b: string)
    requires a != b
    ensures TempName(a) != TempName(b)
  {
    assert TempName(a)[5..] == a && TempName(b)[5..] == b;
  }

  /** If some loss of the target's objects changes the range of dates, a call can end without an
      exception and leave the unfinished folder of its first pass behind. */
  lemma RenamedLeavesTemp(w: World, p: Pair, tie: Tie, reach: set<Key>)
    requires Mergeable(p) && Rows(w.store, p) != {} && Renames(w.store, p, reach)
    ensures var e := MergeSingle(w, p, AuthAtRemoval(TargetName(Rows(w.store, p), p), w.tick + 6, reach), tie);
      e.escaped.None? && Key(TempOf(w.store, p), PART) in e.w.store
  {
    hide MergePass, TargetName, InPair, TempName, Rows, Without, RemoveDataset;
    var target := TargetName(Rows(w.store, p), p);
    var o := AuthAtRemoval(target, w.tick + 6, reach);
    RowsHaveSources(w.store, p);
    TargetInPair(Rows(w.store, p), p);
    var cursor := World(w.store, w.tick + 2, w.passes);
    var u := FirstStops(cursor, p, tie, reach);
    SameButReads(Without(w.store, target, reach), u, TempName(target), p);
    var renewed := World(u, w.tick + 8, w.passes + 1);
    SecondStops(renewed, p, Some(TempName(target)), o, tie);
    var second := MergePass(renewed, p, Some(TempName(target)), false, o, tie);
    assert AuthRetry(cursor, p, o, tie) == second;
    TempInjective(target, TargetName(Rows(u, p), p));
    RemoveDatasetEffect(second.w, TempOf(u, p), o);
    assert SameAt(u, RemoveDataset(second.w, TempOf(u, p), o).w.store, Key(TempName(target), PART));
    RemovalAnswers(second.w, TempOf(u, p), target, w.tick + 6, reach);
    assert Settle(second, 0, o) == Stop(End(RemoveDataset(second.w, TempOf(u, p), o).w, None));
  }

  lemma RemovalAnswers(w: World, folder: string, target: string, at: nat, reach: set<Key>)
    requires w.tick > at
    ensures RemoveDataset(w, folder, AuthAtRemoval(target, at, reach)).error.None?
  {
  }

  lemma NoRowsNoChange(w: World, p: Pair, o: Oracle, tie: Tie)
    requires Rows(w.store, p) == {}
    ensures MergeSingle(w, p, o, tie).w.store == w.store
  {
    hide Attempts;
    AttemptsNoRows(Ask(w, ListSources, o).w, p, 0, o, tie);
  }

  /** If the name of the target survives every loss of the target's objects, a call whose clean-up
      raises no auth error leaves nothing behind, unless its `finally` is kept from it. */
  lemma StableLeavesNothing(w: World, p: Pair, o: Oracle, tie: Tie)
    requires Mergeable(p) && NameIsStable(w.store, p) && CleanUpSpared(o, w.store, p)
    requires TempClean(w.store, p)
    ensures TidyEnd(w.store, MergeSingle(w, p, o, tie), p, o)
  {
    hide MergeSingle, TargetName, Rows, InPair, TempName, NameIsStable, CleanUpFinal, ListNeverAuth, RaisedInFinally,
         OtherTimes, TempClean;
    if Rows(w.store, p) == {} {
      NoRowsNoChange(w, p, o, tie);
    } else {
      CallGoes(w, Aim(w.store, p, TargetName(Rows(w.store, p), p), {}), o, tie);
    }
  }

  /** A call whose clean-up raises no auth error leaves nothing behind outside the pair, unless its
      `finally` is kept from removing the unfinished folder, in every schedule of the other failures
      if and only if the name of the target survives every loss of the target's objects. */
  lemma NothingLeftExactly(w: World, p: Pair, tie: Tie)
    requires Mergeable(p) && (Rows(w.store, p) != {} ==> !HasFolder(w.store, TempOf(w.store, p)))
    ensures NameIsStable(w.store, p) <==>
      forall o: Oracle :: CleanUpSpared(o, w.store, p) ==> TidyEnd(w.store, MergeSingle(w, p, o, tie), p, o)
  {
    hide MergeSingle, TargetName, Rows, InPair, TempName, NameIsStable, RaisedInFinally;
    var s := w.store;
    if NameIsStable(s, p) {
      forall o: Oracle | CleanUpSpared(o, s, p) ensures TidyEnd(s, MergeSingle(w, p, o, tie), p, o) {
        StableLeavesNothing(w, p, o, tie);
      }
    } else {
      var reach := RenamesExists(s, p);
      TargetInPair(Rows(s, p), p);
      var o := AuthAtRemoval(TargetName(Rows(s, p), p), w.tick + 6, reach);
      RenamedLeavesTemp(w, p, tie, reach);
      var k := Key(TempOf(s, p), PART);
      assert !SameAt(s, MergeSingle(w, p, o, tie).w.store, k);
      assert !TidyEnd(s, MergeSingle(w, p, o, tie), p, o);
    }
  }
}
