/** What the two retry layers keep when calls of the store fail with errors that are retried. As
    long as no superseded folder is removed before the clean-up, every pass of a call reads the same
    range of dates, publishes under the same name, and finds the keys in the other folders. */
module MergeRetries {
  import opened Ordering
  import opened Calendar
  import opened DatasetNames
  import opened ObjectStore
  import opened MergeSpec
  import opened MergeRun
  import opened MergeErrors
  import opened MergeSafety
  import opened MergeOutcome
  import opened MergeSurvival
  import opened MergeTidy
  import opened MergeWindow
  import opened Wrappers

  /** Errors of looking for or removing a superseded folder end the call. */
  ghost predicate CleanUpFinal(o: Oracle, target: string) {
    forall c: Call, k: nat ::
      (c.Exists? || c.Remove?) && c.folder != target && c.folder != TempName(target) && !o(c, k).ok ==>
        !o(c, k).error.auth && !o(c, k).error.retriable
  }

  // ----- the name of the target, pass after pass -----

  /** The rows in the pair's folders other than `folder`. */
  function OtherRows(s: Store, p: Pair, folder: string): (rows: set<Row>) {
    set k, r | k in s && IsSource(k, p) && k.folder != folder && r in s[k] :: r
  }

  /** Whatever objects of the target are lost, the remaining rows span the same dates: those of the
      other folders do, or, if there are none, those of every object of the target. */
  predicate NameIsStable(s: Store, p: Pair) {
    Rows(s, p) != {} ==>
      var target := TargetName(Rows(s, p), p);
      if OtherRows(s, p, target) != {} then TargetName(OtherRows(s, p, target), p) == target
      else forall k | k in s && IsSource(k, p) && Elements(s[k]) != {} :: TargetName(Elements(s[k]), p) == target
  }

  lemma CoveredIsStable(s: Store, p: Pair)
    requires TargetCovered(s, p)
    ensures NameIsStable(s, p)
  {
    hide TargetName;
    if Rows(s, p) != {} {
      var others := OtherRows(s, p, TargetName(Rows(s, p), p));
      assert TimesOf(others) == OtherTimes(s, p, TargetName(Rows(s, p), p));
      assert others <= Rows(s, p);
      assert TimesOf(others) == TimesOf(Rows(s, p));
      SameTarget(others, Rows(s, p), p);
    }
  }

  /** Rows between and around two sets with the same span have that span. */
  lemma SameSpan(lo: set<Row>, mid: set<Row>, hi: set<Row>, p: Pair)
    requires Mergeable(p) && lo != {} && hi != {} && lo <= mid <= lo + hi
    requires TargetName(lo, p) == TargetName(hi, p)
    ensures TargetName(mid, p) == TargetName(lo, p)
  {
    hide FolderName;
    SomeDate(lo);
    SomeDate(mid);
    SomeDate(hi);
    FolderNameInjective(p, p, MinDate(Dates(lo)), MaxDate(Dates(lo)), MinDate(Dates(hi)), MaxDate(Dates(hi)));
    assert Dates(lo) <= Dates(mid) <= Dates(lo) + Dates(hi);
    assert MinDate(Dates(mid)) == MinDate(Dates(lo));
    assert MaxDate(Dates(mid)) == MaxDate(Dates(lo));
  }

  // ----- where a call stands between two passes -----

  /** What a call sets out with: the store, the pair and the name of its target, and the keys to be kept. */
  datatype Aim = Aim(s: Store, p: Pair, target: string, keys: set<Instant>)

  ghost predicate Proper(a: Aim) {
    InPair(a.target, a.p) && !InPair(TempName(a.target), a.p) && TempName(a.target) != a.target
  }

  /** Rows that make up a whole target. */
  ghost predicate Complete(out: seq<Row>, a: Aim) {
    Elements(out) != {} && TargetName(Elements(out), a.p) == a.target && a.keys <= TimesOf(Elements(out))
  }

  ghost predicate OnlyPart(t: Store, folder: string) {
    forall f | Key(folder, f) in t && f.Part? :: f == PART
  }

  /** The target holds the rows of an earlier pass. */
  ghost predicate Whole(t: Store, a: Aim) {
    var data := Key(a.target, PART);
    data in t && Complete(t[data], a) && OnlyPart(t, a.target)
  }

  /** The target has lost objects at most. */
  ghost predicate Kept(t: Store, a: Aim) {
    forall f: File | f.Part? && Key(a.target, f) in t :: SameAt(a.s, t, Key(a.target, f))
  }

  ghost predicate SameAround(t: Store, a: Aim) {
    forall k: Key | k.folder != a.target && k.folder != TempName(a.target) :: SameAt(a.s, t, k)
  }

  ghost predicate TempFiles(t: Store, temp: string) {
    forall k | k in t && k.folder == temp :: k.file == PART || k.file == Marker
  }

  ghost predicate Going(t: Store, a: Aim) {
    SameAround(t, a) && TempFiles(t, TempName(a.target)) && (Whole(t, a) || Kept(t, a))
  }

  ghost predicate Reads(t: Store, a: Aim) {
    a.keys <= Times(t, a.p) && (Rows(t, a.p) == {} || TargetName(Rows(t, a.p), a.p) == a.target)
  }

  /** Wherever the call stands, it finds its keys and the name of its target. */
  ghost predicate Fit(a: Aim) {
    forall t: Store :: Going(t, a) ==> Reads(t, a)
  }

  lemma WholeReads(t: Store, a: Aim)
    requires Mergeable(a.p) && Proper(a) && SameAround(t, a) && Whole(t, a)
    requires Rows(a.s, a.p) != {} && a.target == TargetName(Rows(a.s, a.p), a.p)
    ensures Reads(t, a)
  {
    hide TargetName, Mergeable, InPair, TempName;
    var data := Key(a.target, PART);
    var rows := Elements(t[data]);
    assert IsSource(data, a.p);
    assert rows <= Rows(t, a.p);
    forall r | r in Rows(t, a.p) ensures r in rows + Rows(a.s, a.p) {
      var k :| k in t && IsSource(k, a.p) && r in t[k];
      if k.folder != a.target { assert SameAt(a.s, t, k); } else { assert k == Key(a.target, k.file); }
    }
    SameSpan(rows, Rows(t, a.p), Rows(a.s, a.p), a.p);
  }

  lemma KeptRows(t: Store, a: Aim)
    requires Proper(a) && SameAround(t, a) && Kept(t, a)
    ensures OtherRows(a.s, a.p, a.target) <= Rows(t, a.p) <= Rows(a.s, a.p)
  {
    hide InPair, TempName;
    forall k | IsSource(k, a.p)
      ensures (k in t ==> SameAt(a.s, t, k)) && (k.folder != a.target ==> SameAt(a.s, t, k)) {
      if k.folder == a.target { assert k == Key(a.target, k.file); }
    }
  }

  lemma KeptReads(t: Store, a: Aim)
    requires Mergeable(a.p) && Proper(a) && SameAround(t, a) && Kept(t, a)
    requires Rows(a.s, a.p) != {} && a.target == TargetName(Rows(a.s, a.p), a.p)
    requires NameIsStable(a.s, a.p) && a.keys <= OtherTimes(a.s, a.p, a.target)
    ensures Reads(t, a)
  {
    hide TargetName, Mergeable, InPair, TempName, SameAround;
    KeptRows(t, a);
    var others, rows := OtherRows(a.s, a.p, a.target), Rows(t, a.p);
    assert TimesOf(others) == OtherTimes(a.s, a.p, a.target);
    assert TimesOf(others) <= TimesOf(rows);
    if rows != {} {
      if others != {} {
        SameSpan(others, rows, Rows(a.s, a.p), a.p);
      } else {
        var k, r :| k in t && IsSource(k, a.p) && r in t[k];
        SoleObject(t, a, k, r);
        SameSpan(Elements(t[k]), rows, Rows(a.s, a.p), a.p);
      }
    }
  }

  lemma SoleObject(t: Store, a: Aim, k: Key, r: Row)
    requires Kept(t, a) && SameAround(t, a) && Proper(a)
    requires OtherRows(a.s, a.p, a.target) == {} && NameIsStable(a.s, a.p)
    requires Rows(a.s, a.p) != {} && a.target == TargetName(Rows(a.s, a.p), a.p)
    requires k in t && IsSource(k, a.p) && r in t[k]
    ensures r in Elements(t[k]) && Elements(t[k]) <= Rows(t, a.p)
    ensures TargetName(Elements(t[k]), a.p) == a.target
  {
    hide TargetName, InPair, TempName;
    assert r in Elements(t[k]);
    assert SameAt(a.s, t, k) by {
      if k.folder == a.target { assert k == Key(a.target, k.file); }
    }
  }

  lemma AimFits(a: Aim)
    requires Mergeable(a.p) && Proper(a) && Rows(a.s, a.p) != {} && a.target == TargetName(Rows(a.s, a.p), a.p)
    requires NameIsStable(a.s, a.p) && a.keys <= OtherTimes(a.s, a.p, a.target)
    ensures Fit(a)
  {
    hide TargetName, Mergeable, Proper, SameAround, Whole, Kept, Reads, NameIsStable, OtherTimes, Times, Rows;
    forall t: Store | Going(t, a) ensures Reads(t, a) {
      if Whole(t, a) { WholeReads(t, a); } else { KeptReads(t, a); }
    }
  }

  // ----- one pass -----

  /** The clean-up has begun: the target is whole, nothing is left in the unfinished folder, and an
      error ends the call. */
  ghost predicate Done(r: Pass, a: Aim) {
    && r.moved && !HasFolder(r.w.store, TempName(a.target)) && Whole(r.w.store, a)
    && (forall k: Key | !InPair(k.folder, a.p) && k.folder != TempName(a.target) :: SameAt(a.s, r.w.store, k))
    && (r.error.Some? ==> !r.error.value.auth && !r.error.value.retriable)
  }

  /** The clean-up could not list the folders. */
  ghost predicate Unlisted(r: Pass, a: Aim, o: Oracle) {
    && r.moved && !HasFolder(r.w.store, TempName(a.target)) && Going(r.w.store, a)
    && r.error.Some? && exists k: nat :: RaisedBy(o, r.error.value, ListFolders, k)
  }

  ghost predicate Written(r: Pass, a: Aim, moved: bool, o: Oracle) {
    && r.temp == Some(TempName(a.target))
    && ((r.moved == moved && r.error.Some? && Going(r.w.store, a)) || Unlisted(r, a, o) || Done(r, a))
  }

  lemma MergedIsComplete(rows: set<Row>, a: Aim, tie: Tie)
    requires rows != {} && TargetName(rows, a.p) == a.target && a.keys <= TimesOf(rows)
    ensures Complete(Merged(rows, tie), a)
  {
    MergedSorted(rows, tie);
    SameTarget(Elements(Merged(rows, tie)), rows, a.p);
  }

  lemma PreparedGoes(t: Store, u: Store, a: Aim)
    requires Proper(a) && Going(t, a) && SameBut(t, u, TempName(a.target)) && TempFiles(u, TempName(a.target))
    ensures Going(u, a)
  {
    hide InPair, TempName, Complete;
    forall k: Key | k.folder != TempName(a.target) ensures SameAt(t, u, k) {}
    forall k: Key | k.folder != a.target && k.folder != TempName(a.target) ensures SameAt(a.s, u, k) {
      assert SameAt(a.s, t, k) && SameAt(t, u, k);
    }
    forall f: File ensures SameAt(t, u, Key(a.target, f)) {}
    if Whole(t, a) {
      assert Whole(u, a);
    } else {
      assert Kept(u, a);
    }
  }

  /** The removal of the target, finished or not. */
  lemma ShrunkGoes(t: Store, u: Store, a: Aim)
    requires Proper(a) && Going(t, a) && SameBut(t, u, a.target)
    requires forall k | k in u && k.folder == a.target :: k in t && t[k] == u[k]
    ensures Going(u, a)
  {
    hide InPair, TempName, Complete;
    forall k: Key | k.folder != a.target && k.folder != TempName(a.target) ensures SameAt(a.s, u, k) {
      assert SameAt(a.s, t, k) && SameAt(t, u, k);
    }
    forall k | k in u && k.folder == TempName(a.target) ensures k.file == PART || k.file == Marker {
      assert SameAt(t, u, k);
    }
    if Whole(t, a) && Key(a.target, PART) in u {
      assert Whole(u, a);
    } else {
      assert Kept(u, a);
    }
  }

  lemma RemovalGoes(w: World, a: Aim, o: Oracle)
    requires Proper(a) && Going(w.store, a)
    ensures var r := RemoveDataset(w, a.target, o);
      r.error.Some? ==> Going(r.w.store, a)
  {
    hide InPair, TempName, Going;
    var r := RemoveDataset(w, a.target, o);
    RemoveDatasetEffect(w, a.target, o);
    assert forall k | k in r.w.store && k.folder == a.target :: k in w.store && w.store[k] == r.w.store[k];
    ShrunkGoes(w.store, r.w.store, a);
  }

  /** The move into the place of the removed target, finished or not. */
  lemma MoveGoes(w: World, a: Aim, out: seq<Row>, o: Oracle)
    requires Proper(a) && SameAround(w.store, a) && TempFiles(w.store, TempName(a.target))
    requires !HasFolder(w.store, a.target) && Holds(w.store, TempName(a.target), out) && Complete(out, a)
    ensures var r := MoveFolder(w, TempName(a.target), a.target, o);
      && Going(r.w.store, a)
      && (r.error.None? ==> Whole(r.w.store, a) && !HasFolder(r.w.store, TempName(a.target)))
  {
    hide InPair, TempName, Complete, MoveFolder;
    var temp := TempName(a.target);
    var r := MoveFolder(w, temp, a.target, o);
    MoveEffect(w, temp, a.target, o);
    forall k: Key | k.folder != a.target && k.folder != temp ensures SameAt(a.s, r.w.store, k) {
      assert SameAt(a.s, w.store, k) && SameAt(w.store, r.w.store, k);
    }
    forall k | k in r.w.store && k.folder == temp ensures k.file == PART || k.file == Marker {
      assert Key(temp, k.file) in w.store;
    }
    forall f | Key(a.target, f) in r.w.store && f.Part? ensures f == PART && r.w.store[Key(a.target, f)] == out {
      assert Copied(w.store, r.w.store, temp, a.target, f);
    }
  }

  lemma CleanUpGoes(w: World, a: Aim, o: Oracle)
    requires Proper(a) && Going(w.store, a) && Whole(w.store, a) && !HasFolder(w.store, TempName(a.target))
    requires CleanUpFinal(o, a.target)
    ensures var tidy := CleanUp(w, a.p, a.target, o);
      var r := Pass(tidy.w, Some(TempName(a.target)), true, tidy.error);
      Unlisted(r, a, o) || Done(r, a)
  {
    hide InPair, TempName, CleanUp, Complete;
    var tidy := CleanUp(w, a.p, a.target, o);
    CleanUpEffect(w, a.p, a.target, o);
    CleanUpError(w, a.p, a.target, o);
    forall f: File ensures SameAt(w.store, tidy.w.store, Key(a.target, f)) {}
    forall k: Key | !InPair(k.folder, a.p) && k.folder != TempName(a.target) ensures SameAt(a.s, tidy.w.store, k) {
      assert SameAt(a.s, w.store, k) && SameAt(w.store, tidy.w.store, k);
    }
    assert Whole(tidy.w.store, a);
  }

  lemma PublishGoes(w: World, a: Aim, moved: bool, out: seq<Row>, o: Oracle)
    requires Proper(a) && Going(w.store, a) && Holds(w.store, TempName(a.target), out) && Complete(out, a)
    requires CleanUpFinal(o, a.target)
    ensures Written(Publish(w, a.p, TempName(a.target), a.target, moved, o), a, moved, o)
  {
    hide InPair, TempName, RemoveDataset, MoveFolder, CleanUp, Complete, Going, Whole, CleanUpFinal;
    var temp := TempName(a.target);
    RemovalGoes(w, a, o);
    RemoveDatasetEffect(w, a.target, o);
    var gone := RemoveDataset(w, a.target, o);
    if gone.error.None? {
      GoneStill(w.store, gone.w.store, a, out);
      MoveGoes(gone.w, a, out, o);
      var move := MoveFolder(gone.w, temp, a.target, o);
      if move.error.None? {
        CleanUpGoes(move.w, a, o);
      }
    }
  }

  lemma GoneStill(t: Store, u: Store, a: Aim, out: seq<Row>)
    requires Proper(a) && Going(t, a) && Holds(t, TempName(a.target), out) && u == DropFolder(t, a.target)
    ensures SameAround(u, a) && TempFiles(u, TempName(a.target))
    ensures !HasFolder(u, a.target) && Holds(u, TempName(a.target), out)
  {
    hide InPair, TempName, Whole, Kept;
    forall k: Key | k.folder != a.target && k.folder != TempName(a.target) ensures SameAt(a.s, u, k) {
      assert SameAt(a.s, t, k);
    }
  }

  lemma WriteGoes(w: World, a: Aim, moved: bool, out: seq<Row>, o: Oracle)
    requires Proper(a) && Going(w.store, a) && Complete(out, a)
    requires CleanUpFinal(o, a.target)
    ensures Written(Write(w, a.p, a.target, moved, out, o), a, moved, o)
  {
    hide InPair, TempName, Publish, Complete, Whole, Kept, SameAround, CleanUpFinal;
    var ready := Prepare(w, TempName(a.target), out, o);
    PrepareEffect(w, TempName(a.target), out, o);
    assert TempFiles(ready.w.store, TempName(a.target));
    PreparedGoes(w.store, ready.w.store, a);
    if ready.error.None? {
      PublishGoes(ready.w, a, moved, out, o);
    }
  }

  lemma PassGoes(w: World, a: Aim, temp: Option<string>, moved: bool, o: Oracle, tie: Tie)
    requires Proper(a) && Fit(a) && Going(w.store, a)
    requires CleanUpFinal(o, a.target)
    ensures var r := MergePass(w, a.p, temp, moved, o, tie);
      Idle(w.store, r, temp, moved) || Written(r, a, moved, o)
  {
    hide MergePass, Write, TargetName, Merged, Going, Written, Complete, Proper, CleanUpFinal;
    var rows := Rows(w.store, a.p);
    assert Reads(w.store, a);
    if rows == {} {
      PassNoRows(w, a.p, temp, moved, o, tie);
    } else if o(ReadRange, w.tick).ok {
      var read := World(w.store, w.tick + 1, w.passes + 1);
      PassWrites(w, a.p, temp, moved, o, tie, read, rows);
      MergedIsComplete(rows, a, tie);
      WriteGoes(read, a, moved, Merged(rows, tie), o);
    } else {
      PassReadFails(w, a.p, temp, moved, o, tie);
    }
  }

  // ----- a whole call -----

  /** What an attempt hands to its `finally`. */
  ghost predicate Turned(r: Pass, a: Aim) {
    (r.temp.None? || r.temp == Some(TempName(a.target))) && (Going(r.w.store, a) || Done(r, a))
  }

  ghost predicate ListNeverAuth(o: Oracle) {
    forall k: nat :: !o(ListFolders, k).ok ==> !o(ListFolders, k).error.auth
  }

  /** What is new outside the pair is in the unfinished folder, and the `finally` removes it. */
  lemma GoingTidy(r: Pass, a: Aim)
    requires Proper(a) && Going(r.w.store, a)
    requires if r.moved then !HasFolder(r.w.store, TempName(a.target)) else r.temp == Some(TempName(a.target))
    ensures Tidy(a.s, r, a.p)
  {
    hide InPair, TempName, Whole, Kept;
  }

  lemma DoneTidy(r: Pass, a: Aim)
    requires Proper(a) && Done(r, a)
    ensures Tidy(a.s, r, a.p)
  {
    hide InPair, TempName, Whole;
  }

  lemma WrittenTidy(r: Pass, a: Aim, o: Oracle)
    requires Proper(a) && Written(r, a, false, o)
    ensures Tidy(a.s, r, a.p)
    ensures ListNeverAuth(o) && r.error.Some? && r.error.value.auth ==> !r.moved && Going(r.w.store, a)
  {
    hide Going, Tidy, Whole, InPair, TempName;
    if Done(r, a) { DoneTidy(r, a); } else { GoingTidy(r, a); }
  }

  lemma AuthRetryGoes(w: World, a: Aim, o: Oracle, tie: Tie)
    requires Proper(a) && Fit(a) && Going(w.store, a)
    requires CleanUpFinal(o, a.target)
    ensures Turned(AuthRetry(w, a.p, o, tie), a)
    ensures ListNeverAuth(o) && NothingNew(a.s, w.store, a.p) ==> Tidy(a.s, AuthRetry(w, a.p, o, tie), a.p)
  {
    hide MergePass, Going, Whole, Proper, Fit, CleanUpFinal, InPair, TempName, ListNeverAuth, NothingNew,
         NewOnlyIn;
    PassGoes(w, a, None, false, o, tie);
    var first := MergePass(w, a.p, None, false, o, tie);
    if Written(first, a, false, o) { WrittenTidy(first, a, o); }
    if first.error.Some? && first.error.value.auth && o(Refresh, first.w.tick).ok {
      var renewed := Ask(first.w, Refresh, o);
      PassGoes(renewed.w, a, first.temp, first.moved, o, tie);
      if !first.moved {
        SecondTidy(renewed.w.store, MergePass(renewed.w, a.p, first.temp, false, o, tie), a, first.temp, o);
      }
    }
  }

  lemma SecondTidy(t: Store, r: Pass, a: Aim, temp: Option<string>, o: Oracle)
    requires Proper(a) && Going(t, a) && (Idle(t, r, temp, false) || Written(r, a, false, o))
    requires temp.None? || temp == Some(TempName(a.target))
    ensures temp.Some? || NothingNew(a.s, t, a.p) ==> Tidy(a.s, r, a.p)
  {
    hide Going, Whole, Proper, InPair, TempName, NothingNew, NewOnlyIn;
    if Written(r, a, false, o) {
      WrittenTidy(r, a, o);
    } else if temp.Some? {
      GoingTidy(r, a);
    }
  }

  ghost predicate EndsWell(t: Store, a: Aim) {
    && a.keys <= Times(t, a.p)
    && (forall k: Key | !InPair(k.folder, a.p) && k.folder != TempName(a.target) :: SameAt(a.s, t, k))
  }

  lemma GoingEndsWell(t: Store, a: Aim)
    requires Proper(a) && Fit(a) && Going(t, a)
    ensures EndsWell(t, a)
  {
    hide InPair, TempName, Whole, Kept, Times;
    assert Reads(t, a);
  }

  lemma DoneEndsWell(r: Pass, a: Aim)
    requires Proper(a) && Done(r, a)
    ensures EndsWell(r.w.store, a)
  {
    hide InPair, TempName, TargetName;
    var data := Key(a.target, PART);
    assert IsSource(data, a.p);
    assert Elements(r.w.store[data]) <= Rows(r.w.store, a.p);
  }

  lemma ClearedGoes(t: Store, u: Store, a: Aim)
    requires Proper(a) && Going(t, a) && SameBut(t, u, TempName(a.target)) && u.Keys <= t.Keys
    ensures Going(u, a)
  {
    hide InPair, TempName;
    PreparedGoes(t, u, a);
  }

  lemma SettleGoes(r: Pass, a: Aim, attempt: nat, o: Oracle)
    requires Proper(a) && Fit(a) && Turned(r, a)
    ensures match Settle(r, attempt, o)
      case Retry(w) => Going(w.store, a)
      case Stop(e) => EndsWell(e.w.store, a)
  {
    hide Going, Whole, EndsWell, Proper, Fit, RemoveDataset, InPair, TempName, Done;
    if Done(r, a) {
      DoneEndsWell(r, a);
      assert r.moved && !(r.error.Some? && r.error.value.retriable) by { DoneStops(r, a); }
    } else {
      forall w: World | w.store == r.w.store ensures Going(Finally(r.(w := w), o).w.store, a) {
        if r.temp.Some? && !r.moved {
          RemoveDatasetEffect(w, r.temp.value, o);
          ClearedGoes(w.store, RemoveDataset(w, r.temp.value, o).w.store, a);
        }
      }
      forall t: Store | Going(t, a) ensures EndsWell(t, a) {
        GoingEndsWell(t, a);
      }
    }
  }

  lemma DoneStops(r: Pass, a: Aim)
    requires Done(r, a)
    ensures r.moved && !(r.error.Some? && r.error.value.retriable)
  {
  }

  lemma AttemptsGo(w: World, a: Aim, attempt: nat, o: Oracle, tie: Tie)
    requires attempt <= MAX_MERGE_RETRIES + 1 && Proper(a) && Fit(a) && Going(w.store, a)
    requires CleanUpFinal(o, a.target)
    ensures EndsWell(Attempts(w, a.p, attempt, o, tie).w.store, a)
    ensures ListNeverAuth(o) && NothingNew(a.s, w.store, a.p) ==>
      TidyEnd(a.s, Attempts(w, a.p, attempt, o, tie), a.p, o)
    decreases MAX_MERGE_RETRIES + 1 - attempt
  {
    hide AuthRetry, Settle, Going, EndsWell, Proper, Fit, Turned, Tidy, CleanUpFinal, ListNeverAuth,
         NothingNew, RaisedInFinally;
    if attempt == MAX_MERGE_RETRIES + 1 || !o(Cursor, w.tick).ok {
      GoingEndsWell(w.store, a);
    } else {
      var cursor := Ask(w, Cursor, o);
      AuthRetryGoes(cursor.w, a, o, tie);
      var r := AuthRetry(cursor.w, a.p, o, tie);
      SettleGoes(r, a, attempt, o);
      if Tidy(a.s, r, a.p) { SettleTidy(r, a.p, attempt, o, a.s); }
      var turn := Settle(r, attempt, o);
      if turn.Retry? {
        AttemptsGo(turn.w, a, attempt + 1, o, tie);
      }
    }
  }

  // ----- which keys survive -----

  /** The failures under which keys are safe: those of the store are final, or at least those that
      remove superseded folders, if the unfinished folder holds nothing foreign. */
  ghost predicate Harmless(o: Oracle, s: Store, p: Pair) {
    StoreErrorsFinal(o) ||
    (TempClean(s, p) && (Rows(s, p) != {} ==> CleanUpFinal(o, TargetName(Rows(s, p), p))))
  }

  lemma StartGoes(a: Aim)
    requires Proper(a) && Rows(a.s, a.p) != {} && a.target == TargetName(Rows(a.s, a.p), a.p) && TempClean(a.s, a.p)
    ensures Going(a.s, a)
  {
    hide InPair, TempName, TargetName;
  }

  lemma CallGoes(w: World, a: Aim, o: Oracle, tie: Tie)
    requires Mergeable(a.p) && a.s == w.store && Rows(a.s, a.p) != {} && a.target == TargetName(Rows(a.s, a.p), a.p)
    requires TempClean(a.s, a.p) && CleanUpFinal(o, a.target)
    requires NameIsStable(a.s, a.p) && a.keys <= OtherTimes(a.s, a.p, a.target)
    ensures EndsWell(MergeSingle(w, a.p, o, tie).w.store, a)
    ensures ListNeverAuth(o) ==> TidyEnd(a.s, MergeSingle(w, a.p, o, tie), a.p, o)
  {
    hide Attempts, Going, EndsWell, TargetName, Fit, CleanUpFinal, ListNeverAuth, NameIsStable, TempClean,
         Times, OtherTimes, Rows, Sources, InPair, TempName, RaisedInFinally;
    TargetInPair(Rows(a.s, a.p), a.p);
    AimFits(a);
    StartGoes(a);
    GoingEndsWell(a.s, a);
    RowsHaveSources(a.s, a.p);
    AttemptsGo(Ask(w, ListSources, o).w, a, 0, o, tie);
  }

  /** A call keeps every key, through all retries, if its target is covered and errors of removing
      superseded folders are final; or, whatever fails, if nothing fails between the removal of the
      target and the copy. */
  lemma KeysSurvive(w: World, p: Pair, o: Oracle, tie: Tie)
    requires Mergeable(p) && (TempClean(w.store, p) || StoreErrorsFinal(o))
    requires Rows(w.store, p) != {} ==>
      (TargetCovered(w.store, p) && Harmless(o, w.store, p)) || WindowOk(o, TargetName(Rows(w.store, p), p))
    ensures Times(w.store, p) <= Times(MergeSingle(w, p, o, tie).w.store, p)
  {
    hide MergeSingle, TargetCovered, WindowOk, StoreErrorsFinal, CleanUpFinal, TargetName, TempClean, Rows, OtherTimes,
         NameIsStable, InPair, TempName;
    var s := w.store;
    if StoreErrorsFinal(o) {
      FinalKeysSurvive(w, p, o, tie);
    } else if Rows(s, p) == {} {
      NoKeys(s, p);
    } else if WindowOk(o, TargetName(Rows(s, p), p)) {
      WindowKeepsTimes(w, p, o, tie);
    } else {
      CoveredIsStable(s, p);
      CoveredTimes(s, p);
      CallGoes(w, Aim(s, p, TargetName(Rows(s, p), p), Times(s, p)), o, tie);
    }
  }

  lemma NoKeys(s: Store, p: Pair)
    requires Rows(s, p) == {}
    ensures Times(s, p) == {}
  {
  }

  lemma CoveredTimes(s: Store, p: Pair)
    requires TargetCovered(s, p) && Rows(s, p) != {}
    ensures Times(s, p) <= OtherTimes(s, p, TargetName(Rows(s, p), p))
  {
  }

  /** A call keeps every key under all harmless failures if and only if every key of the folder bearing
      the target's name also occurs in another folder of the pair. */
  lemma SurvivalExact(w: World, p: Pair, tie: Tie)
    requires Mergeable(p)
    ensures TargetCovered(w.store, p) <==>
      forall o: Oracle :: Harmless(o, w.store, p) ==> Times(w.store, p) <= Times(MergeSingle(w, p, o, tie).w.store, p)
  {
    hide MergeSingle, Times, OtherTimes, TargetName, TempClean, CleanUpFinal;
    if TargetCovered(w.store, p) {
      forall o: Oracle | Harmless(o, w.store, p)
        ensures Times(w.store, p) <= Times(MergeSingle(w, p, o, tie).w.store, p) {
        KeysSurvive(w, p, o, tie);
      }
    } else {
      BrokenCopyKeepsOthers(w, p, tie);
      assert !(Times(w.store, p) <= Times(MergeSingle(w, p, DataCopyFails(), tie).w.store, p));
    }
  }
}
