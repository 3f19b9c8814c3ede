/** What a call leaves behind outside the pair's dataset folders, under failures of any kind. */
module MergeTidy {
  import opened DatasetNames
  import opened ObjectStore
  import opened MergeSpec
  import opened MergeRun
  import opened MergeErrors
  import opened MergeSafety
  import opened MergeOutcome
  import opened Wrappers

  /** Outside the pair's folders objects can only have gone. */
  ghost predicate NothingNew(s: Store, t: Store, p: Pair) {
    forall k: Key :: !InPair(k.folder, p) && k in t ==> SameAt(s, t, k)
  }

  ghost predicate NewOnlyIn(s: Store, t: Store, p: Pair, folder: string) {
    forall k: Key :: !InPair(k.folder, p) && k.folder != folder && k in t ==> SameAt(s, t, k)
  }

  /** What the `finally` of a pass is not going to remove is not new. */
  ghost predicate Tidy(s: Store, r: Pass, p: Pair) {
    if r.moved || r.temp.None? then NothingNew(s, r.w.store, p)
    else NewOnlyIn(s, r.w.store, p, r.temp.value) && !InPair(r.temp.value, p)
  }

  ghost predicate TidyEnd(s: Store, e: End, p: Pair, o: Oracle) {
    NothingNew(s, e.w.store, p) || (e.escaped.Some? && RaisedInFinally(o, e.escaped.value, p))
  }

  /** The error comes from the removal of an unfinished folder. */
  ghost predicate RaisedInFinally(o: Oracle, e: Error, p: Pair) {
    exists folder: string :: !InPair(folder, p) && RaisedByRemoval(o, e, folder)
  }

  // ----- the `finally` block -----

  lemma FinallyTidy(r: Pass, p: Pair, o: Oracle, s: Store)
    requires Tidy(s, r, p)
    ensures var f := Finally(r, o);
      if f.error.None? then NothingNew(s, f.w.store, p) else RaisedInFinally(o, f.error.value, p)
  {
    hide InPair, RemoveDataset;
    if r.temp.Some? && !r.moved {
      RemoveDatasetEffect(r.w, r.temp.value, o);
      RemoveDatasetError(r.w, r.temp.value, o);
      var f := RemoveDataset(r.w, r.temp.value, o);
      forall k: Key | f.error.None? && !InPair(k.folder, p) && k in f.w.store ensures SameAt(s, f.w.store, k) {
        assert SameAt(r.w.store, f.w.store, k) && k.folder != r.temp.value;
      }
    }
  }

  lemma SettleTidy(r: Pass, p: Pair, attempt: nat, o: Oracle, s: Store)
    requires Tidy(s, r, p)
    ensures match Settle(r, attempt, o)
      case Retry(w) => NothingNew(s, w.store, p)
      case Stop(e) => TidyEnd(s, e, p, o)
  {
    hide Finally, NothingNew, NewOnlyIn, RaisedInFinally, InPair;
    forall w: World | w.store == r.w.store ensures var f := Finally(r.(w := w), o);
      if f.error.None? then NothingNew(s, f.w.store, p) else RaisedInFinally(o, f.error.value, p) {
      FinallyTidy(r.(w := w), p, o, s);
    }
  }

  // ----- when the store raises no auth errors -----

  ghost predicate StoreNeverAuth(o: Oracle) {
    forall c: Call, k: nat :: c.OnStore() && !o(c, k).ok ==> !o(c, k).error.auth
  }

  /** A pass that may start with what an auth error left: nothing but its own unfinished folder. */
  ghost predicate TidyStart(s: Store, t: Store, p: Pair, temp: Option<string>) {
    if temp.None? then NothingNew(s, t, p)
    else NewOnlyIn(s, t, p, temp.value) && Rows(t, p) != {} && temp.value == TempOf(t, p)
  }

  lemma PassTidy(w: World, p: Pair, temp: Option<string>, o: Oracle, tie: Tie, s: Store)
    requires Mergeable(p) && TidyStart(s, w.store, p, temp)
    ensures var r := MergePass(w, p, temp, false, o, tie);
      && Tidy(s, r, p)
      && (StoreNeverAuth(o) && r.error.Some? && r.error.value.auth ==>
            !r.moved && TidyStart(s, r.w.store, p, r.temp))
  {
    hide MergePass, TargetName, Merged, InPair, TempName, NothingNew, NewOnlyIn, Holds;
    PassEffect(w, p, temp, false, o, tie);
    var rows, r := Rows(w.store, p), MergePass(w, p, temp, false, o, tie);
    if rows != {} {
      TargetInPair(rows, p);
      if !Idle(w.store, r, temp, false) {
        StartedTidy(s, w.store, r, p, temp, Merged(rows, tie));
        if StoreNeverAuth(o) { PassAuth(w, p, temp, o, tie); }
      }
    }
  }

  lemma StartedTidy(s: Store, t: Store, r: Pass, p: Pair, temp: Option<string>, out: seq<Row>)
    requires Mergeable(p) && TidyStart(s, t, p, temp) && Rows(t, p) != {}
    requires Started(t, r, p, TargetName(Rows(t, p), p), false, out) && !InPair(TempOf(t, p), p)
    ensures Tidy(s, r, p)
    ensures Prepared(t, r, TempOf(t, p), false) ==> TidyStart(s, r.w.store, p, r.temp)
  {
    hide InPair, TargetName, Holds, TempName;
    var x := TempOf(t, p);
    forall k: Key | !InPair(k.folder, p) && k.folder != x && k in r.w.store ensures SameAt(s, r.w.store, k) {
      assert SameAt(t, r.w.store, k);
      assert SameAt(s, t, k);
    }
    if Prepared(t, r, x, false) {
      SameButReads(t, r.w.store, x, p);
    }
  }

  /** Auth errors that are not the store's come before anything is published. */
  lemma PassAuth(w: World, p: Pair, temp: Option<string>, o: Oracle, tie: Tie)
    requires Mergeable(p) && Rows(w.store, p) != {} && StoreNeverAuth(o)
    ensures var r := MergePass(w, p, temp, false, o, tie);
      r.error.Some? && r.error.value.auth ==>
        || Idle(w.store, r, temp, false)
        || (Prepared(w.store, r, TempOf(w.store, p), false) && r.temp == Some(TempOf(w.store, p)))
  {
    hide MergePass, Publish, Prepare, TargetName, Merged, InPair, TempName, StoreNeverAuth;
    var rows := Rows(w.store, p);
    var target, out := TargetName(rows, p), Merged(rows, tie);
    TargetInPair(rows, p);
    if o(ReadRange, w.tick).ok {
      var read := World(w.store, w.tick + 1, w.passes + 1);
      PassWrites(w, p, temp, false, o, tie, read, rows);
      PrepareEffect(read, TempName(target), out, o);
      var ready := Prepare(read, TempName(target), out, o);
      if ready.error.None? {
        PublishError(ready.w, p, TempName(target), target, false, o);
        StoreErrorIsNoAuth(Publish(ready.w, p, TempName(target), target, false, o).error, o);
      }
    } else {
      PassReadFails(w, p, temp, false, o, tie);
    }
  }

  lemma StoreErrorIsNoAuth(e: Option<Error>, o: Oracle)
    requires StoreNeverAuth(o) && (e.Some? ==> exists c: Call, k: nat :: c.OnStore() && RaisedBy(o, e.value, c, k))
    ensures e.Some? ==> !e.value.auth
  {
  }

  lemma AuthRetryTidy(w: World, p: Pair, o: Oracle, tie: Tie, s: Store)
    requires Mergeable(p) && StoreNeverAuth(o) && NothingNew(s, w.store, p)
    ensures Tidy(s, AuthRetry(w, p, o, tie), p)
  {
    hide MergePass, NothingNew, NewOnlyIn, InPair, TempOf, StoreNeverAuth;
    PassTidy(w, p, None, o, tie, s);
    var first := MergePass(w, p, None, false, o, tie);
    if first.error.Some? && first.error.value.auth && o(Refresh, first.w.tick).ok {
      PassTidy(Ask(first.w, Refresh, o).w, p, first.temp, o, tie, s);
    }
  }

  lemma AttemptsTidy(w: World, p: Pair, attempt: nat, o: Oracle, tie: Tie, s: Store)
    requires attempt <= MAX_MERGE_RETRIES + 1
    requires Mergeable(p) && StoreNeverAuth(o) && NothingNew(s, w.store, p)
    ensures TidyEnd(s, Attempts(w, p, attempt, o, tie), p, o)
    decreases MAX_MERGE_RETRIES + 1 - attempt
  {
    hide AuthRetry, Settle, NothingNew, RaisedInFinally, Tidy;
    if attempt <= MAX_MERGE_RETRIES && o(Cursor, w.tick).ok {
      var cursor := Ask(w, Cursor, o);
      AuthRetryTidy(cursor.w, p, o, tie, s);
      var r := AuthRetry(cursor.w, p, o, tie);
      SettleTidy(r, p, attempt, o, s);
      var turn := Settle(r, attempt, o);
      if turn.Retry? {
        AttemptsTidy(turn.w, p, attempt + 1, o, tie, s);
      }
    }
  }

  /** If the store raises no auth errors, then whatever else fails and however often, a call leaves
      nothing behind outside the pair's folders, unless it ends with the exception that kept its
      `finally` from removing the unfinished folder. */
  lemma NothingLeftBehind(w: World, p: Pair, o: Oracle, tie: Tie)
    requires Mergeable(p) && StoreNeverAuth(o)
    ensures TidyEnd(w.store, MergeSingle(w, p, o, tie), p, o)
  {
    hide Attempts, StoreNeverAuth, RaisedInFinally;
    AttemptsTidy(Ask(w, ListSources, o).w, p, 0, o, tie, w.store);
  }
}
