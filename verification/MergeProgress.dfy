/** What the two retry layers achieve: which failures a call recovers from, with what result, how many
    executions of the body it makes, and which exceptions escape from it. */
module MergeProgress {
  import opened Ordering
  import opened DatasetNames
  import opened ObjectStore
  import opened MergeSpec
  import opened MergeRun
  import opened MergeErrors
  import opened MergeSafety
  import opened MergeOutcome
  import opened MergeSurvival
  import opened MergeTidy
  import opened MergeFrame
  import opened MergeWindow
  import opened Wrappers

  // ----- where the error of a pass comes from -----

  /** The error was raised by one of the calls made in between. */
  ghost predicate RaisedIn(o: Oracle, e: Error, from: nat, to: nat) {
    exists c: Call, k: nat :: from <= k < to && RaisedBy(o, e, c, k)
  }

  /** A step goes forward, and its error is that of a call it made. */
  ghost predicate Reports(o: Oracle, from: nat, r: Step) {
    from <= r.w.tick && (r.error.Some? ==> RaisedIn(o, r.error.value, from, r.w.tick))
  }

  lemma CallReports(o: Oracle, c: Call, w: World, r: Step)
    requires r.w.tick == w.tick + 1 && r.error == if o(c, w.tick).ok then None else Some(o(c, w.tick).error)
    ensures Reports(o, w.tick, r)
  {
    if !o(c, w.tick).ok { assert RaisedBy(o, o(c, w.tick).error, c, w.tick); }
  }

  lemma Later(o: Oracle, from: nat, w: World, r: Step)
    requires from <= w.tick && Reports(o, w.tick, r)
    ensures Reports(o, from, r)
  {
    if r.error.Some? {
      var c, k :| w.tick <= k < r.w.tick && RaisedBy(o, r.error.value, c, k);
      assert from <= k < r.w.tick && RaisedBy(o, r.error.value, c, k);
    }
  }

  lemma RemovalReports(w: World, folder: string, o: Oracle)
    ensures Reports(o, w.tick, RemoveDataset(w, folder, o))
  {
    hide Reports;
    var look := Ask(w, Exists(folder), o);
    CallReports(o, Exists(folder), w, look);
    if look.error.None? && HasFolder(w.store, folder) {
      CallReports(o, Remove(folder), look.w, RemoveTree(look.w, folder, o));
      Later(o, w.tick, look.w, RemoveTree(look.w, folder, o));
    }
  }

  lemma {:induction false} CopyAllReports(w: World, src: string, dst: string, files: seq<File>, o: Oracle)
    requires src != dst && forall f | f in files :: Key(src, f) in w.store
    ensures Reports(o, w.tick, CopyAll(w, src, dst, files, o))
    decreases |files|
  {
    if files != [] {
      var k := Key(dst, files[0]);
      var one := Put(w, CopyFile(Key(src, files[0]), k), k, w.store[Key(src, files[0])], o);
      CallReports(o, CopyFile(Key(src, files[0]), k), w, one);
      if one.error.None? {
        CopyAllReports(one.w, src, dst, files[1..], o);
        Later(o, w.tick, one.w, CopyAll(one.w, src, dst, files[1..], o));
      }
    }
  }

  lemma MoveReports(w: World, src: string, dst: string, o: Oracle)
    requires src != dst && Key(src, PART) in w.store
    ensures Reports(o, w.tick, MoveFolder(w, src, dst, o))
  {
    hide Children, CopyAll, Reports;
    var files := Children(w.store, src);
    assert PART in files;
    var list := Ask(w, ListChildren(src), o);
    CallReports(o, ListChildren(src), w, list);
    if list.error.None? {
      CopyAllReports(list.w, src, dst, files, o);
      var copied := CopyAll(list.w, src, dst, files, o);
      Later(o, w.tick, list.w, copied);
      Forward(o, w.tick, copied);
      if copied.error.None? {
        CallReports(o, Remove(src), copied.w, RemoveTree(copied.w, src, o));
        Later(o, w.tick, copied.w, RemoveTree(copied.w, src, o));
      }
    }
  }

  lemma Forward(o: Oracle, from: nat, r: Step)
    requires Reports(o, from, r)
    ensures from <= r.w.tick
  {
  }

  lemma {:induction false} DropAllReports(w: World, folders: seq<string>, keep: string, o: Oracle)
    ensures Reports(o, w.tick, DropAll(w, folders, keep, o))
    decreases |folders|
  {
    hide RemoveDataset;
    if folders != [] {
      if folders[0] == keep {
        DropAllReports(w, folders[1..], keep, o);
      } else {
        RemovalReports(w, folders[0], o);
        var one := RemoveDataset(w, folders[0], o);
        if one.error.None? {
          DropAllReports(one.w, folders[1..], keep, o);
          Later(o, w.tick, one.w, DropAll(one.w, folders[1..], keep, o));
        }
      }
    }
  }

  lemma CleanUpReports(w: World, p: Pair, keep: string, o: Oracle)
    ensures Reports(o, w.tick, CleanUp(w, p, keep, o))
  {
    hide DropAll, Reports;
    var list := Ask(w, ListFolders, o);
    CallReports(o, ListFolders, w, list);
    if list.error.None? {
      DropAllReports(list.w, SortedStrings(DatasetFolders(w.store, p)), keep, o);
      Later(o, w.tick, list.w, CleanUp(w, p, keep, o));
    }
  }

  lemma PublishReports(w: World, p: Pair, temp: string, target: string, moved: bool, o: Oracle)
    requires temp != target && Key(temp, PART) in w.store
    ensures var r := Publish(w, p, temp, target, moved, o); Reports(o, w.tick, Step(r.w, r.error))
  {
    hide RemoveDataset, MoveFolder, CleanUp, Reports;
    RemovalReports(w, target, o);
    RemoveDatasetEffect(w, target, o);
    var gone := RemoveDataset(w, target, o);
    Forward(o, w.tick, gone);
    if gone.error.None? {
      assert SameAt(w.store, gone.w.store, Key(temp, PART));
      MoveReports(gone.w, temp, target, o);
      var move := MoveFolder(gone.w, temp, target, o);
      Later(o, w.tick, gone.w, move);
      Forward(o, w.tick, move);
      if move.error.None? {
        CleanUpReports(move.w, p, target, o);
        Later(o, w.tick, move.w, CleanUp(move.w, p, target, o));
      }
    }
  }

  /** What a pass over a pair with rows reports was raised by one of its own calls. */
  lemma PassReports(w: World, p: Pair, temp: Option<string>, moved: bool, o: Oracle, tie: Tie)
    requires Mergeable(p) && Rows(w.store, p) != {}
    ensures var r := MergePass(w, p, temp, moved, o, tie);
      w.tick < r.w.tick && Reports(o, w.tick, Step(r.w, r.error))
  {
    hide MergePass, Publish, Reports, TargetName, Merged, InPair, TempName, Rows, Mergeable;
    var rows := Rows(w.store, p);
    var target, out := TargetName(rows, p), Merged(rows, tie);
    TargetInPair(rows, p);
    var read := World(w.store, w.tick + 1, w.passes + 1);
    if !o(ReadRange, w.tick).ok {
      ReadFails(w, p, temp, moved, o, tie);
      CallReports(o, ReadRange, w, Step(read, Some(o(ReadRange, w.tick).error)));
    } else {
      PassWrites(w, p, temp, moved, o, tie, read, rows);
      var data := Put(read, WriteData, Key(TempName(target), PART), out, o);
      CallReports(o, WriteData, read, data);
      Later(o, w.tick, read, data);
      var mark := Put(data.w, WriteMarker, Key(TempName(target), Marker), [], o);
      CallReports(o, WriteMarker, data.w, mark);
      Later(o, w.tick, data.w, mark);
      if data.error.None? && mark.error.None? {
        PublishReports(mark.w, p, TempName(target), target, moved, o);
        var r := Publish(mark.w, p, TempName(target), target, moved, o);
        Forward(o, mark.w.tick, Step(r.w, r.error));
        Later(o, w.tick, mark.w, Step(r.w, r.error));
      }
    }
  }

  lemma ReadFails(w: World, p: Pair, temp: Option<string>, moved: bool, o: Oracle, tie: Tie)
    requires !o(ReadRange, w.tick).ok
    ensures MergePass(w, p, temp, moved, o, tie)
      == Pass(World(w.store, w.tick + 1, w.passes + 1), temp, moved, Some(o(ReadRange, w.tick).error))
  {
  }

  /** A pass without an error has done the undisturbed merge. */
  lemma PassDone(w: World, p: Pair, temp: Option<string>, moved: bool, o: Oracle, tie: Tie)
    requires Mergeable(p) && TempClean(w.store, p) && MergePass(w, p, temp, moved, o, tie).error.None?
    ensures var r := MergePass(w, p, temp, moved, o, tie); r.moved && r.w.store == MergeOnce(w.store, p, tie)
  {
    hide MergePass, Publish, TargetName, Merged, InPair, TempName, Published, Mergeable;
    var rows := Rows(w.store, p);
    if rows == {} {
      PassNoRows(w, p, temp, moved, o, tie);
    } else if !o(ReadRange, w.tick).ok {
      ReadFails(w, p, temp, moved, o, tie);
    } else {
      var target, out := TargetName(rows, p), Merged(rows, tie);
      TargetInPair(rows, p);
      var read := World(w.store, w.tick + 1, w.passes + 1);
      PassWrites(w, p, temp, moved, o, tie, read, rows);
      var ready := Prepare(read, TempName(target), out, o);
      PrepareEffect(read, TempName(target), out, o);
      PublishDone(w.store, ready.w, p, TempName(target), target, moved, out, o);
    }
  }

  // ----- failures of the data calls -----

  predicate IsDataCall(c: Call) {
    c.ReadRange? || c.WriteData? || c.WriteMarker?
  }

  /** Only data calls fail, at the moments in `fails`, with errors that are retried: by either layer if
      there is one such moment, else by the attempts. */
  ghost predicate Recoverable(o: Oracle, fails: set<nat>) {
    forall c: Call, k: nat :: !o(c, k).ok ==>
      IsDataCall(c) && k in fails && (o(c, k).error.retriable || (o(c, k).error.auth && |fails| <= 1))
  }

  function Left(fails: set<nat>, from: nat): (rest: set<nat>) {
    set k | k in fails && k >= from
  }

  lemma OneLess(fails: set<nat>, from: nat, k: nat, to: nat)
    requires k in fails && from <= k < to
    ensures |Left(fails, to)| < |Left(fails, from)|
  {
    assert Left(fails, to) < Left(fails, from) by { assert k in Left(fails, from); }
    Smaller(Left(fails, to), Left(fails, from));
  }

  lemma Smaller(a: set<nat>, b: set<nat>)
    requires a < b
    ensures |a| < |b|
  {
    assert b == a + (b - a) && b - a != {};
  }

  lemma TwoMoments(fails: set<nat>, k: nat, j: nat)
    requires k in fails && j in fails && k != j
    ensures |fails| >= 2
  {
    assert fails == {k, j} + (fails - {k, j});
  }

  /** A failed pass met one of the moments; the error is as assumed. */
  ghost predicate FailedIn(o: Oracle, r: Pass, from: nat, fails: set<nat>) {
    && r.error.Some? && (r.error.value.retriable || (r.error.value.auth && |fails| <= 1))
    && exists k: nat :: k in fails && from <= k < r.w.tick
  }

  lemma PassRecovers(w: World, p: Pair, temp: Option<string>, o: Oracle, tie: Tie, s: Store, fails: set<nat>)
    requires Mergeable(p) && Recoverable(o, fails) && Rows(s, p) != {} && Pending(s, w.store, TempOf(s, p))
    ensures var r := MergePass(w, p, temp, false, o, tie);
      && StoreOk(o) && WholeOrPending(s, w.store, r, p, temp, tie) && w.tick < r.w.tick
      && (r.error.Some? ==> FailedIn(o, r, w.tick, fails))
  {
    hide MergePass, MergeOnce, InPair, TempName, TargetName, Mergeable;
    TargetInPair(Rows(s, p), p);
    SameButReads(s, w.store, TempOf(s, p), p);
    PassWhole(w, p, temp, o, tie, s);
    PassReports(w, p, temp, false, o, tie);
    var r := MergePass(w, p, temp, false, o, tie);
    if r.error.Some? {
      var c, k :| w.tick <= k < r.w.tick && RaisedBy(o, r.error.value, c, k);
      assert k in fails && w.tick <= k < r.w.tick;
    }
  }

  lemma AuthRetryRecovers(w: World, p: Pair, o: Oracle, tie: Tie, s: Store, fails: set<nat>)
    requires Mergeable(p) && Recoverable(o, fails) && Rows(s, p) != {} && Pending(s, w.store, TempOf(s, p))
    ensures var r := AuthRetry(w, p, o, tie);
      && WholeOrPending(s, w.store, r, p, None, tie) && w.tick < r.w.tick
      && (r.error.Some? ==> r.error.value.retriable && exists k: nat :: k in fails && w.tick <= k < r.w.tick)
  {
    hide MergePass, MergeOnce, TempOf, Mergeable, StoreOk;
    PassRecovers(w, p, None, o, tie, s, fails);
    var first := MergePass(w, p, None, false, o, tie);
    if first.error.Some? && first.error.value.auth {
      var renewed := Ask(first.w, Refresh, o);
      assert renewed.error.None?;
      PassRecovers(renewed.w, p, first.temp, o, tie, s, fails);
      var second := MergePass(renewed.w, p, first.temp, false, o, tie);
      var k :| k in fails && w.tick <= k < first.w.tick;
      if second.error.Some? {
        var j :| j in fails && renewed.w.tick <= j < second.w.tick;
        TwoMoments(fails, k, j);
      }
    }
  }

  lemma SettleRecovers(t: Store, r: Pass, p: Pair, attempt: nat, o: Oracle, tie: Tie, s: Store)
    requires StoreOk(o) && Rows(s, p) != {} && Unmerged(s, t, p) && WholeOrPending(s, t, r, p, None, tie)
    requires r.error.Some? && r.error.value.retriable && attempt < MAX_MERGE_RETRIES
    requires forall k: nat :: o(NewConnection, k).ok
    ensures var turn := Settle(r, attempt, o);
      turn.Retry? && Unmerged(s, turn.w.store, p) && turn.w.tick >= r.w.tick
  {
    hide MergeOnce, TempOf, Unmerged;
    SettleWhole(t, r, p, attempt, o, tie, s);
    SettleGoesOn(r, attempt, o);
  }

  lemma SettleGoesOn(r: Pass, attempt: nat, o: Oracle)
    requires StoreOk(o) && r.error.Some? && r.error.value.retriable && attempt < MAX_MERGE_RETRIES
    requires forall k: nat :: o(NewConnection, k).ok
    ensures Settle(r, attempt, o).Retry? && Settle(r, attempt, o).w.tick >= r.w.tick
  {
  }

  lemma AttemptsRecover(w: World, p: Pair, attempt: nat, o: Oracle, tie: Tie, s: Store, fails: set<nat>)
    requires Mergeable(p) && Recoverable(o, fails) && Rows(s, p) != {} && TempClean(s, p) && Unmerged(s, w.store, p)
    requires attempt + |Left(fails, w.tick)| <= MAX_MERGE_RETRIES
    ensures var e := Attempts(w, p, attempt, o, tie); e.w.store == MergeOnce(s, p, tie) && e.escaped.None?
    decreases MAX_MERGE_RETRIES + 1 - attempt
  {
    hide AuthRetry, Settle, MergeOnce, TempOf, Unmerged, TempClean, Mergeable;
    var cursor := Ask(w, Cursor, o);
    UnmergedPends(s, w.store, p);
    AuthRetryRecovers(cursor.w, p, o, tie, s, fails);
    var r := AuthRetry(cursor.w, p, o, tie);
    if r.error.None? {
      SettleWhole(w.store, r, p, attempt, o, tie, s);
    } else {
      var k :| k in fails && cursor.w.tick <= k < r.w.tick;
      OneLess(fails, w.tick, k, r.w.tick);
      SettleRecovers(w.store, r, p, attempt, o, tie, s);
      var next := Settle(r, attempt, o).w;
      OneLess(fails, w.tick, k, next.tick);
      AttemptsRecover(next, p, attempt + 1, o, tie, s, fails);
    }
  }

  /** A call recovers from failures of its data calls at any two moments with errors that the attempts
      retry, or at one moment with an auth error: it returns, with the undisturbed merge done. */
  lemma FailuresAreRetried(w: World, p: Pair, o: Oracle, tie: Tie, fails: set<nat>)
    requires Mergeable(p) && TempClean(w.store, p) && Rows(w.store, p) != {}
    requires Recoverable(o, fails) && |fails| <= 2
    ensures var e := MergeSingle(w, p, o, tie); e.w.store == MergeOnce(w.store, p, tie) && e.escaped.None?
  {
    hide Attempts, MergeOnce, TempClean, Mergeable;
    RowsHaveSources(w.store, p);
    var list := Ask(w, ListSources, o);
    assert Left(fails, list.w.tick) <= fails;
    if Left(fails, list.w.tick) != fails { Smaller(Left(fails, list.w.tick), fails); }
    AttemptsRecover(list.w, p, 0, o, tie, w.store, fails);
  }

  // ----- how often the body is executed -----

  /** Reading always fails with `e`, and if `g` is given so does the refresh, with that. */
  ghost predicate ReadNeverWorks(o: Oracle, e: Error, g: Option<Error>) {
    forall c: Call, k: nat ::
      && (o(c, k).ok <==> !c.ReadRange? && (c.Refresh? ==> g.None?))
      && (c.ReadRange? ==> o(c, k).error == e) && (c.Refresh? && g.Some? ==> o(c, k).error == g.value)
  }

  lemma UnreadAuthRetry(w: World, p: Pair, o: Oracle, tie: Tie, e: Error, g: Option<Error>) returns (r: Pass)
    requires ReadNeverWorks(o, e, g)
    ensures r == AuthRetry(w, p, o, tie) && r.w.store == w.store && r.temp == None && !r.moved
    ensures r.w.passes == w.passes + (if e.auth && g.None? then 2 else 1)
    ensures r.error == Some(if e.auth && g.Some? then g.value else e)
  {
    hide MergePass;
    ReadFails(w, p, None, false, o, tie);
    var first := MergePass(w, p, None, false, o, tie);
    ReadFails(Ask(first.w, Refresh, o).w, p, None, false, o, tie);
    r := AuthRetry(w, p, o, tie);
  }

  lemma UnreadAttempts(w: World, p: Pair, attempt: nat, o: Oracle, tie: Tie, e: Error, g: Option<Error>)
    requires ReadNeverWorks(o, e, g) && attempt <= MAX_MERGE_RETRIES
    ensures var r := Attempts(w, p, attempt, o, tie);
      var runs := if e.auth && g.None? then 2 else 1;
      var last := if e.auth && g.Some? then g.value else e;
      && r.w.store == w.store && r.escaped == None
      && r.w.passes == w.passes + runs * (if last.retriable then MAX_MERGE_RETRIES + 1 - attempt else 1)
    decreases MAX_MERGE_RETRIES + 1 - attempt
  {
    hide AuthRetry;
    var cursor := Ask(w, Cursor, o);
    var r := UnreadAuthRetry(cursor.w, p, o, tie, e, g);
    if r.error.value.retriable && attempt < MAX_MERGE_RETRIES {
      UnreadAttempts(Ask(r.w, NewConnection, o).w, p, attempt + 1, o, tie, e, g);
    }
  }

  /** If the read never works, the body is executed once for an error that neither layer retries, once
      more for an auth error unless the refresh fails, and all that three times if the error that comes
      out of it is retried. Then the call gives up, and the store is as it was. */
  lemma PassesExactly(w: World, p: Pair, o: Oracle, tie: Tie, e: Error, g: Option<Error>)
    requires Sources(w.store, p) != {} && ReadNeverWorks(o, e, g)
    ensures var r := MergeSingle(w, p, o, tie);
      && r.w.store == w.store && r.escaped == None
      && r.w.passes == w.passes + (if e.auth && g.None? then 2 else 1)
                                * (if (e.auth && g.Some? && g.value.retriable) || (!(e.auth && g.Some?) && e.retriable)
                                   then 3 else 1)
  {
    hide Attempts;
    UnreadAttempts(Ask(w, ListSources, o).w, p, 0, o, tie, e, g);
  }

  // ----- one failure anywhere in the body -----

  /** The call `c` fails when it is made at `f`, and nothing else does. */
  ghost predicate OnlyFailure(o: Oracle, c: Call, f: nat) {
    forall d: Call, k: nat :: o(d, k).ok <==> !(d == c && k == f)
  }

  ghost predicate QuietFrom(o: Oracle, n: nat) {
    forall c: Call, k: nat | k >= n :: o(c, k).ok
  }

  /** A pass keeps the keys of the pair if its target is covered or nothing fails in the window. */
  lemma PassKeepsTimes(w: World, p: Pair, o: Oracle, tie: Tie)
    requires Mergeable(p) && CleanTemps(w.store, p) && Rows(w.store, p) != {}
    requires TargetCovered(w.store, p) || WindowOk(o, TargetName(Rows(w.store, p), p))
    ensures Times(MergePass(w, p, None, false, o, tie).w.store, p) == Times(w.store, p)
  {
    hide MergePass, TargetName, Merged, InPair, TempName, Mergeable, TempClean, OtherTimes, WindowOk, CleanTemps;
    CleanTempsSuffice(w.store, p);
    PassExplained(w, p, None, false, o, tie);
    var s, r := w.store, MergePass(w, p, None, false, o, tie);
    FewerTimes(Rows(r.w.store, p), Rows(s, p));
    if WindowOk(o, TargetName(Rows(s, p), p)) {
      PassSteady(w, p, None, false, o, tie, s);
    } else {
      PassEffect(w, p, None, false, o, tie);
      if !Idle(s, r, None, false) { StartedKeepsTimes(s, r, p, tie); }
    }
  }

  lemma FewerTimes(a: set<Row>, b: set<Row>)
    requires a <= b
    ensures TimesOf(a) <= TimesOf(b)
  {
  }

  lemma StartedKeepsTimes(s: Store, r: Pass, p: Pair, tie: Tie)
    requires Mergeable(p) && Rows(s, p) != {} && TargetCovered(s, p)
    requires Started(s, r, p, TargetName(Rows(s, p), p), false, Merged(Rows(s, p), tie))
    ensures Times(s, p) <= Times(r.w.store, p)
  {
    hide TargetName, Merged, InPair, TempName, OtherTimes, Mergeable;
    var target, temp := TargetName(Rows(s, p), p), TempOf(s, p);
    TargetInPair(Rows(s, p), p);
    if Prepared(s, r, temp, false) {
      SameButReads(s, r.w.store, temp, p);
    } else if Holds(r.w.store, target, Merged(Rows(s, p), tie)) {
      HoldsTimes(r.w.store, target, Rows(s, p), tie, p);
    } else {
      OthersSurvive(s, r.w.store, p, target, temp);
    }
  }

  /** When the first pass is over: it has merged, or the one failure is behind it and the keys are there. */
  lemma FirstPassIsOver(w: World, p: Pair, o: Oracle, tie: Tie, c: Call, f: nat)
    requires Mergeable(p) && CleanTemps(w.store, p) && Rows(w.store, p) != {} && OnlyFailure(o, c, f)
    requires TargetCovered(w.store, p) || WindowOk(o, TargetName(Rows(w.store, p), p))
    ensures var r := MergePass(w, p, None, false, o, tie);
      && r.w.passes == w.passes + 1
      && CleanTemps(r.w.store, p) && Times(r.w.store, p) == Times(w.store, p)
      && (r.temp.Some? ==> IsTemp(r.temp.value, p))
      && if r.error.None? then r.moved && r.w.store == MergeOnce(w.store, p, tie)
         else r.error.value == o(c, f).error && QuietFrom(o, r.w.tick)
  {
    hide MergePass, MergeOnce, TargetName, Mergeable, TempClean, CleanTemps, WindowOk, TargetCovered, IsTemp, Rows,
         PassEnds;
    CleanTempsSuffice(w.store, p);
    PassEffect(w, p, None, false, o, tie);
    PassSeen(w, p, None, false, o, tie, w.store);
    PassKeepsTimes(w, p, o, tie);
    PassIsLocal(w, p, None, false, o, tie);
    PassReports(w, p, None, false, o, tie);
    var r := MergePass(w, p, None, false, o, tie);
    if r.error.None? {
      PassDone(w, p, None, false, o, tie);
    } else {
      var d, k :| w.tick <= k < r.w.tick && RaisedBy(o, r.error.value, d, k);
    }
  }

  /** From then on a pass merges what is there. */
  lemma QuietPass(w: World, p: Pair, temp: Option<string>, moved: bool, o: Oracle, tie: Tie)
    requires Mergeable(p) && CleanTemps(w.store, p) && Rows(w.store, p) != {} && QuietFrom(o, w.tick)
    ensures var r := MergePass(w, p, temp, moved, o, tie);
      r.error.None? && r.moved && r.w.store == MergeOnce(w.store, p, tie) && r.w.passes == w.passes + 1
  {
    hide MergePass, MergeOnce, Mergeable, TempClean, CleanTemps, Rows, PassEnds;
    CleanTempsSuffice(w.store, p);
    PassEffect(w, p, temp, moved, o, tie);
    PassReports(w, p, temp, moved, o, tie);
    var r := MergePass(w, p, temp, moved, o, tie);
    assert r.error.None?;
    PassDone(w, p, temp, moved, o, tie);
  }

  /** One folder with the keys of `s`, named by their dates, and no unfinished folder of that name. */
  ghost predicate InOneFolder(s: Store, t: Store, p: Pair)
    requires Rows(s, p) != {}
  {
    var target := TargetName(Rows(s, p), p);
    && Times(t, p) == Times(s, p) && Sources(t, p) == {Key(target, PART)} && DatasetFolders(t, p) == {target}
    && TimesIncrease(t[Key(target, PART)]) && !HasFolder(t, TempName(target))
  }

  lemma MergedInOneFolder(s: Store, u: Store, p: Pair, tie: Tie)
    requires Mergeable(p) && Rows(s, p) != {} && Times(u, p) == Times(s, p)
    ensures Rows(u, p) != {} && InOneFolder(s, MergeOnce(u, p, tie), p)
  {
    hide TargetName, Merged, Mergeable, MergeOnce, TempName;
    SteadyName(s, u, p);
    MergeConserves(u, p, tie);
    MergedSorted(Rows(u, p), tie);
    MergedTempGone(u, p, tie);
    assert Key(TargetName(Rows(u, p), p), PART) in Sources(MergeOnce(u, p, tie), p);
  }

  lemma ClearedKeeps(w: World, p: Pair, folder: string, o: Oracle)
    requires Mergeable(p) && IsTemp(folder, p) && CleanTemps(w.store, p) && QuietFrom(o, w.tick)
    ensures var r := RemoveDataset(w, folder, o);
      && r.error.None? && r.w.tick > w.tick && r.w.passes == w.passes
      && Times(r.w.store, p) == Times(w.store, p) && CleanTemps(r.w.store, p)
  {
    hide InPair, IsTemp, Mergeable;
    TempsAreNoDatasets(folder, p);
    RemoveDatasetEffect(w, folder, o);
    RemovalShrinks(w, folder, o);
    SameButReads(w.store, RemoveDataset(w, folder, o).w.store, folder, p);
  }

  /** What follows a first pass whose error the attempts retry. */
  lemma SettledAfter(r: Pass, p: Pair, o: Oracle)
    requires Mergeable(p) && CleanTemps(r.w.store, p) && QuietFrom(o, r.w.tick)
    requires r.error.Some? && r.error.value.retriable && (r.temp.Some? ==> IsTemp(r.temp.value, p))
    ensures var turn := Settle(r, 0, o);
      && turn.Retry? && turn.w.tick > r.w.tick && turn.w.passes == r.w.passes
      && Times(turn.w.store, p) == Times(r.w.store, p) && CleanTemps(turn.w.store, p)
  {
    hide RemoveDataset, Mergeable, IsTemp, CleanTemps;
    var swap := Ask(r.w, NewConnection, o);
    if r.temp.Some? && !r.moved { ClearedKeeps(swap.w, p, r.temp.value, o); }
  }

  /** If one call of the first execution fails with an error that either layer retries, and nothing else
      fails, the call returns with all keys in one folder after at most one more execution, provided
      that the target is covered or the failure is not in its window. */
  lemma FailureIsRetried(w: World, p: Pair, o: Oracle, tie: Tie, c: Call, f: nat)
    requires Mergeable(p) && CleanTemps(w.store, p) && Rows(w.store, p) != {}
    requires OnlyFailure(o, c, f) && f >= w.tick + 2 && (o(c, f).error.auth || o(c, f).error.retriable)
    requires TargetCovered(w.store, p) || WindowOk(o, TargetName(Rows(w.store, p), p))
    ensures var e := MergeSingle(w, p, o, tie);
      && e.escaped == None && e.w.passes <= w.passes + 2 && InOneFolder(w.store, e.w.store, p)
  {
    hide MergePass, MergeOnce, TargetName, Mergeable, CleanTemps, WindowOk, TargetCovered, IsTemp, Rows, InOneFolder,
         Times, Settle;
    RowsHaveSources(w.store, p);
    var s := w.store;
    var cursor := World(s, w.tick + 2, w.passes);
    FirstPassIsOver(cursor, p, o, tie, c, f);
    var first := MergePass(cursor, p, None, false, o, tie);
    if first.error.None? {
      MergedInOneFolder(s, s, p, tie);
      assert AuthRetry(cursor, p, o, tie) == first;
      SettledDone(first, o);
    } else if first.error.value.auth {
      var again := Ask(first.w, Refresh, o);
      MergedInOneFolder(s, first.w.store, p, tie);
      QuietPass(again.w, p, first.temp, first.moved, o, tie);
      var second := MergePass(again.w, p, first.temp, first.moved, o, tie);
      assert AuthRetry(cursor, p, o, tie) == second;
      SettledDone(second, o);
    } else {
      assert AuthRetry(cursor, p, o, tie) == first;
      SettledAfter(first, p, o);
      var next := Settle(first, 0, o).w;
      var ready := Ask(next, Cursor, o);
      MergedInOneFolder(s, next.store, p, tie);
      QuietPass(ready.w, p, None, false, o, tie);
      var second := MergePass(ready.w, p, None, false, o, tie);
      assert AuthRetry(ready.w, p, o, tie) == second;
      SettledDone(second, o);
      assert Attempts(next, p, 1, o, tie) == End(second.w, None);
    }
  }

  lemma SettledDone(r: Pass, o: Oracle)
    requires r.error.None? && r.moved
    ensures forall attempt: nat :: Settle(r, attempt, o) == Stop(End(r.w, None))
  {
  }

  // ----- which exceptions escape -----

  /** The calls outside the `try`, and the removal in the `finally`. */
  ghost predicate MayEscape(o: Oracle, e: Error, p: Pair) {
    || (exists k: nat ::
          RaisedBy(o, e, ListSources, k) || RaisedBy(o, e, Cursor, k) || RaisedBy(o, e, NewConnection, k))
    || RaisedInFinally(o, e, p)
  }

  lemma TurnEscapes(w: World, p: Pair, attempt: nat, o: Oracle, tie: Tie)
    requires Mergeable(p)
    ensures var turn := Settle(AuthRetry(w, p, o, tie), attempt, o);
      turn.Stop? && turn.e.escaped.Some? ==> MayEscape(o, turn.e.escaped.value, p)
  {
    hide MergePass, RemoveDataset, OnlyRegion, IsTemp, InPair, Mergeable;
    PassIsLocal(w, p, None, false, o, tie);
    var first := MergePass(w, p, None, false, o, tie);
    PassIsLocal(Ask(first.w, Refresh, o).w, p, first.temp, first.moved, o, tie);
    var r := AuthRetry(w, p, o, tie);
    assert r.temp.Some? ==> IsTemp(r.temp.value, p);
    if !o(NewConnection, r.w.tick).ok {
      assert RaisedBy(o, o(NewConnection, r.w.tick).error, NewConnection, r.w.tick);
    }
    if r.temp.Some? && !r.moved {
      TempsAreNoDatasets(r.temp.value, p);
      forall v: World ensures var f := RemoveDataset(v, r.temp.value, o);
        f.error.Some? ==> RaisedInFinally(o, f.error.value, p) {
        RemoveDatasetError(v, r.temp.value, o);
      }
    }
  }

  lemma AttemptsEscape(w: World, p: Pair, attempt: nat, o: Oracle, tie: Tie)
    requires Mergeable(p) && attempt <= MAX_MERGE_RETRIES + 1
    ensures var e := Attempts(w, p, attempt, o, tie); e.escaped.Some? ==> MayEscape(o, e.escaped.value, p)
    decreases MAX_MERGE_RETRIES + 1 - attempt
  {
    hide AuthRetry, Settle, Mergeable, RaisedInFinally;
    if attempt <= MAX_MERGE_RETRIES {
      if !o(Cursor, w.tick).ok {
        assert RaisedBy(o, o(Cursor, w.tick).error, Cursor, w.tick);
      } else {
        var cursor := Ask(w, Cursor, o);
        TurnEscapes(cursor.w, p, attempt, o, tie);
        var turn := Settle(AuthRetry(cursor.w, p, o, tie), attempt, o);
        if turn.Retry? { AttemptsEscape(turn.w, p, attempt + 1, o, tie); }
      }
    }
  }

  /** Only exceptions of the listing, of a cursor, of a new connection or of the `finally` escape; every
      exception of the body is swallowed or retried. */
  lemma EscapesFrom(w: World, p: Pair, o: Oracle, tie: Tie)
    requires Mergeable(p)
    ensures var e := MergeSingle(w, p, o, tie); e.escaped.Some? ==> MayEscape(o, e.escaped.value, p)
  {
    hide Attempts, Mergeable, RaisedInFinally;
    if !o(ListSources, w.tick).ok {
      assert RaisedBy(o, o(ListSources, w.tick).error, ListSources, w.tick);
    }
    AttemptsEscape(Ask(w, ListSources, o).w, p, 0, o, tie);
  }

  /** And each of them does, ending the call: a failing listing or cursor before anything is read, a
      failing new connection after a retried error, a failing look of the `finally` after a final one. A
      pair without sources is left alone after the listing. */
  lemma EscapesAt(w: World, p: Pair, o: Oracle, tie: Tie)
    requires Mergeable(p)
    ensures var e, t, answer := MergeSingle(w, p, o, tie), w.tick, o(ListSources, w.tick);
      && (!answer.ok ==> e == End(World(w.store, t + 1, w.passes), Some(answer.error)))
      && (answer.ok && Sources(w.store, p) == {} ==> e == End(World(w.store, t + 1, w.passes), None))
    ensures var e, t, answer := MergeSingle(w, p, o, tie), w.tick, o(Cursor, w.tick + 1);
      o(ListSources, t).ok && Sources(w.store, p) != {} && !answer.ok ==>
        e == End(World(w.store, t + 2, w.passes), Some(answer.error))
    ensures var e, t, answer := MergeSingle(w, p, o, tie), w.tick, o(NewConnection, w.tick + 3);
      o(ListSources, t).ok && Sources(w.store, p) != {} && o(Cursor, t + 1).ok && !answer.ok
      && !o(ReadRange, t + 2).ok && !o(ReadRange, t + 2).error.auth && o(ReadRange, t + 2).error.retriable ==>
        e == End(World(w.store, t + 4, w.passes + 1), Some(answer.error))
  {
    hide MergePass, Mergeable;
    if !o(ReadRange, w.tick + 2).ok { ReadFails(World(w.store, w.tick + 2, w.passes), p, None, false, o, tie); }
  }

  lemma FinallyEscapes(r: Pass, attempt: nat, o: Oracle)
    requires r.temp.Some? && !r.moved && r.error.Some? && !r.error.value.retriable
    ensures var answer := o(Exists(r.temp.value), r.w.tick);
      !answer.ok ==> Settle(r, attempt, o) == Stop(End(World(r.w.store, r.w.tick + 1, r.w.passes), Some(answer.error)))
  {
  }
}
