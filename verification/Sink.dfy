/** From a frame of trade prices to dataset folders: the date columns, the grouping, and the write
    of one folder per (code, candle). */
module Sink {
  import opened Ordering
  import opened Calendar
  import opened DatasetNames
  import opened ObjectStore
  import opened MergeSpec
  import opened MergeRun
  import opened MergeErrors
  import opened MergeSafety
  import opened MergeOutcome
  import opened Wrappers

  /** A row of the frame with its `start_date` and `end_date` columns. */
  datatype Record = Record(row: Row, start: Date, end: Date)

  type Frame = seq<Record>

  function PairOf(r: Row): (p: Pair) {
    Pair(r.code, r.candle)
  }

  /** The rows of one group, in frame order: `df[(df.code == code) & (df.candle == candle)]`. */
  function Group(df: Frame, p: Pair): (rows: seq<Row>) {
    if df == [] then []
    else (if PairOf(df[0].row) == p then [df[0].row] else []) + Group(df[1..], p)
  }

  function PairsOf(df: Frame): (ps: set<Pair>) {
    set x | x in df :: PairOf(x.row)
  }

  lemma {:induction false} GroupMembers(df: Frame, p: Pair)
    ensures forall r :: r in Group(df, p) <==> PairOf(r) == p && exists x :: x in df && x.row == r
    ensures Group(df, p) != [] <==> p in PairsOf(df)
  {
    if df != [] {
      GroupMembers(df[1..], p);
      assert forall x :: x in df <==> x == df[0] || x in df[1..];
      assert p in PairsOf(df) <==> PairOf(df[0].row) == p || p in PairsOf(df[1..]);
      assert PairOf(df[0].row) == p ==> Group(df, p)[0] == df[0].row;
      assert df[0] in df;
    }
  }

  /** A group is the rows of its pair in frame order, each as often as the frame has it. */
  lemma {:induction false} GroupIsFilter(a: Frame, b: Frame, p: Pair)
    ensures Group(a + b, p) == Group(a, p) + Group(b, p)
    decreases |a|
  {
    if a == [] {
      assert a + b == b;
    } else {
      assert (a + b)[0] == a[0] && (a + b)[1..] == a[1..] + b;
      GroupIsFilter(a[1..], b, p);
    }
  }

  lemma GroupOfOne(x: Record, p: Pair)
    ensures Group([x], p) == if x.row.code == p.code && x.row.candle == p.candle then [x.row] else []
  {
    assert [x][1..] == [];
  }

  // ----- trade_price_post_process -----

  /** The date columns: earliest and latest day of the row's group. */
  function Stamp(df: Frame, x: Record): (y: Record)
    requires x in df
  {
    var rows := Elements(Group(df, PairOf(x.row)));
    GroupMembers(df, PairOf(x.row));
    assert x.row in rows;
    SomeDate(rows);
    Record(x.row, MinDate(Dates(rows)), MaxDate(Dates(rows)))
  }

  function PostProcess(df: Frame): (out: Frame)
    ensures |out| == |df| && forall i | 0 <= i < |df| :: out[i] == Stamp(df, df[i])
  {
    seq(|df|, i requires 0 <= i < |df| => Stamp(df, df[i]))
  }

  lemma {:induction false} SameGroups(df: Frame, out: Frame, p: Pair)
    requires |out| == |df| && forall i | 0 <= i < |df| :: out[i].row == df[i].row
    ensures Group(out, p) == Group(df, p)
  {
    if df != [] { SameGroups(df[1..], out[1..], p); }
  }

  // ----- grouping -----

  datatype GroupKey = GroupKey(pair: Pair, start: Date, end: Date) {
    function Folder(): (name: string) {
      FolderName(pair, start, end)
    }
  }

  function KeyOf(x: Record): (g: GroupKey) {
    GroupKey(PairOf(x.row), x.start, x.end)
  }

  /** `drop_duplicates`: the first occurrence of each value stays. */
  function Distinct<T(==, !new)>(xs: seq<T>): (ys: seq<T>)
    ensures forall x :: x in ys <==> x in xs
    ensures forall i, j :: 0 <= i < j < |ys| ==> ys[i] != ys[j]
  {
    if xs == [] then []
    else
      var n := |xs| - 1;
      var rest := Distinct(xs[..n]);
      assert forall x :: x in xs <==> x in xs[..n] || x == xs[n];
      if xs[n] in rest then rest else rest + [xs[n]]
  }

  /** Where `x` first occurs. */
  function First<T(==)>(xs: seq<T>, x: T): (i: nat)
    requires x in xs
    ensures i < |xs| && xs[i] == x && x !in xs[..i]
  {
    if xs[0] == x then 0 else First(xs[1..], x) + 1
  }

  lemma {:induction false} FirstOfPrefix<T>(xs: seq<T>, n: nat, x: T)
    requires n <= |xs| && x in xs[..n]
    ensures First(xs, x) == First(xs[..n], x)
  {
    if xs[0] != x {
      assert xs[..n][1..] == xs[1..][..n - 1];
      FirstOfPrefix(xs[1..], n - 1, x);
    }
  }

  /** The values stay in the order of their first occurrences. */
  lemma {:induction false} DistinctInOrder<T(!new)>(xs: seq<T>, i: nat, j: nat)
    requires i < j < |Distinct(xs)|
    ensures First(xs, Distinct(xs)[i]) < First(xs, Distinct(xs)[j])
    decreases |xs|
  {
    var n := |xs| - 1;
    var rest := Distinct(xs[..n]);
    var x, y := Distinct(xs)[i], Distinct(xs)[j];
    assert x == rest[i] && x in xs[..n];
    FirstOfPrefix(xs, n, x);
    if j < |rest| {
      assert y == rest[j] && y in xs[..n];
      FirstOfPrefix(xs, n, y);
      DistinctInOrder(xs[..n], i, j);
    } else {
      assert y == xs[n] && y !in xs[..n];
      assert forall k | 0 <= k < n :: xs[k] in xs[..n];
    }
  }

  function GroupKeys(df: Frame): (gs: seq<GroupKey>) {
    Distinct(seq(|df|, i requires 0 <= i < |df| => KeyOf(df[i])))
  }

  /** The date columns are a function of the pair, as the post-processing stage leaves them. */
  ghost predicate Stamped(df: Frame) {
    forall x | x in df :: Group(df, PairOf(x.row)) != [] && KeyOf(x) == KeyFor(df, PairOf(x.row))
  }

  /** The group of a pair: its exact date range. */
  function KeyFor(df: Frame, p: Pair): (g: GroupKey)
    requires Group(df, p) != []
  {
    var rows := Elements(Group(df, p));
    assert Group(df, p)[0] in rows;
    SomeDate(rows);
    GroupKey(p, MinDate(Dates(rows)), MaxDate(Dates(rows)))
  }

  lemma PostProcessStamps(df: Frame)
    ensures Stamped(PostProcess(df))
    ensures forall p :: Group(PostProcess(df), p) == Group(df, p)
  {
    hide MinDate, MaxDate;
    var out := PostProcess(df);
    forall p ensures Group(out, p) == Group(df, p) { SameGroups(df, out, p); }
    forall x | x in out ensures Group(out, PairOf(x.row)) != [] && KeyOf(x) == KeyFor(out, PairOf(x.row)) {
      var i :| 0 <= i < |out| && out[i] == x;
      GroupMembers(out, PairOf(x.row));
    }
  }

  /** The stage keeps every row where it is; the dates it adds bound all rows of the same code and candle,
      start first, and are days of such rows. */
  lemma StampsAreRange(df: Frame, i: nat)
    requires i < |df|
    ensures var x, y := df[i], PostProcess(df)[i];
      && y.row == x.row
      && (forall z | z in df && z.row.code == x.row.code && z.row.candle == x.row.candle ::
            DateLeq(y.start, z.row.time.date) && DateLeq(z.row.time.date, y.end))
      && (exists z :: z in df && PairOf(z.row) == PairOf(x.row) && z.row.time.date == y.start)
      && (exists z :: z in df && PairOf(z.row) == PairOf(x.row) && z.row.time.date == y.end)
  {
    hide Group;
    var p := PairOf(df[i].row);
    GroupMembers(df, p);
    var rows := Elements(Group(df, p));
    assert df[i] in df && df[i].row in rows;
    SomeDate(rows);
    forall z | z in df && PairOf(z.row) == p ensures z.row.time.date in Dates(rows) {
      assert z.row in rows;
    }
    var first :| first in rows && first.time.date == MinDate(Dates(rows));
    var last :| last in rows && last.time.date == MaxDate(Dates(rows));
  }

  /** Sink partition: the distinct grouping has exactly one group for each pair of the frame, and
      that group carries the exact first and last day of the pair's rows. */
  lemma OneGroupPerPair(df: Frame)
    requires Stamped(df)
    ensures var gs := GroupKeys(df);
      && (forall i, j :: 0 <= i < j < |gs| ==> gs[i].pair != gs[j].pair)
      && (forall g | g in gs :: g.pair in PairsOf(df))
      && (forall p | p in PairsOf(df) :: Group(df, p) != [] && KeyFor(df, p) in gs)
  {
    hide KeyFor, MinDate, MaxDate;
    var keys := seq(|df|, i requires 0 <= i < |df| => KeyOf(df[i]));
    var gs := GroupKeys(df);
    forall g | g in gs ensures g.pair in PairsOf(df) && Group(df, g.pair) != [] && g == KeyFor(df, g.pair) {
      assert g in keys;
      var i :| 0 <= i < |keys| && keys[i] == g;
      assert df[i] in df;
    }
    forall p | p in PairsOf(df) ensures Group(df, p) != [] && KeyFor(df, p) in gs {
      var x :| x in df && PairOf(x.row) == p;
      var i :| 0 <= i < |df| && df[i] == x;
      assert keys[i] == KeyOf(x);
      assert KeyOf(x) in keys;
    }
  }

  // ----- writing -----

  /** One group: data file and marker, with one more try after an auth error. */
  function SaveGroup(w: World, df: Frame, g: GroupKey, o: Oracle): (r: Step) {
    var first := Prepare(w, g.Folder(), Group(df, g.pair), o);
    if first.error.None? || !first.error.value.auth then first
    else
      var renewed := Ask(first.w, Refresh, o);
      if renewed.error.Some? then renewed else Prepare(renewed.w, g.Folder(), Group(df, g.pair), o)
  }

  /** `_save`: the groups in order, until a write fails for good. */
  function SaveAll(w: World, df: Frame, gs: seq<GroupKey>, o: Oracle): (r: Step)
    decreases |gs|
  {
    if gs == [] then Step(w, None)
    else
      var one := SaveGroup(w, df, gs[0], o);
      if one.error.Some? then one else SaveAll(one.w, df, gs[1..], o)
  }

  /** The store after all groups are written. */
  function Saved(s: Store, df: Frame, gs: seq<GroupKey>): (r: Store)
    decreases |gs|
  {
    if gs == [] then s
    else Saved(s[Key(gs[0].Folder(), PART) := Group(df, gs[0].pair)][Key(gs[0].Folder(), Marker) := []], df, gs[1..])
  }

  lemma {:induction false} SaveAllOk(w: World, df: Frame, gs: seq<GroupKey>, o: Oracle)
    requires AllOk(o)
    ensures SaveAll(w, df, gs, o).w.store == Saved(w.store, df, gs) && SaveAll(w, df, gs, o).error.None?
    decreases |gs|
  {
    hide Group, FolderName;
    if gs != [] {
      SaveAllOk(SaveGroup(w, df, gs[0], o).w, df, gs[1..], o);
    }
  }

  // ----- what a save reports -----

  /** The store with the two files of one group. */
  function Stored(s: Store, df: Frame, g: GroupKey): (r: Store) {
    s[Key(g.Folder(), PART) := Group(df, g.pair)][Key(g.Folder(), Marker) := []]
  }

  /** What one group's save reports and how many calls it makes, for every answer of these calls: an
      error that is no auth error at once, else that of the refresh or of the second try. A write that
      raised may have been made. */
  lemma SaveGroupAnswers(w: World, df: Frame, g: GroupKey, o: Oracle)
    ensures var r, t, data, mark := SaveGroup(w, df, g, o), w.tick, o(WriteData, w.tick), o(WriteMarker, w.tick + 1);
      && (data.ok && mark.ok ==> r.error == None && r.w.tick == t + 2)
      && (!data.ok && !data.error.auth ==>
            && r.error == Some(data.error) && r.w.tick == t + 1
            && var k := Key(g.Folder(), PART);
            r.w.store == if k in data.reach then w.store[k := Group(df, g.pair)] else w.store)
      && (data.ok && !mark.ok && !mark.error.auth ==> r.error == Some(mark.error) && r.w.tick == t + 2)
    ensures var r, t, data := SaveGroup(w, df, g, o), w.tick, o(WriteData, w.tick);
      !data.ok && data.error.auth ==> AfterAuth(r, o, t + 1)
    ensures var r, t, mark := SaveGroup(w, df, g, o), w.tick, o(WriteMarker, w.tick + 1);
      o(WriteData, t).ok && !mark.ok && mark.error.auth ==> AfterAuth(r, o, t + 2)
  {
    hide Group, FolderName;
  }

  /** A refresh at `t`, and if it succeeds a second and last try. */
  predicate AfterAuth(r: Step, o: Oracle, t: nat) {
    if !o(Refresh, t).ok then r.error == Some(o(Refresh, t).error) && r.w.tick == t + 1
    else if !o(WriteData, t + 1).ok then r.error == Some(o(WriteData, t + 1).error) && r.w.tick == t + 2
    else if !o(WriteMarker, t + 2).ok then r.error == Some(o(WriteMarker, t + 2).error) && r.w.tick == t + 3
    else r.error == None && r.w.tick == t + 3
  }

  /** The error was raised by a call that a save makes. */
  ghost predicate RaisedInSave(o: Oracle, e: Error) {
    exists k: nat :: RaisedBy(o, e, WriteData, k) || RaisedBy(o, e, WriteMarker, k) || RaisedBy(o, e, Refresh, k)
  }

  lemma PrepareReports(w: World, temp: string, out: seq<Row>, o: Oracle)
    ensures var r := Prepare(w, temp, out, o);
      && (r.error.None? ==> r.w.store == w.store[Key(temp, PART) := out][Key(temp, Marker) := []])
      && (r.error.Some? ==> RaisedInSave(o, r.error.value))
      && (forall k: Key | k != Key(temp, PART) && k != Key(temp, Marker) :: SameAt(w.store, r.w.store, k))
  {
    if !o(WriteData, w.tick).ok {
      assert RaisedBy(o, o(WriteData, w.tick).error, WriteData, w.tick);
    } else if !o(WriteMarker, w.tick + 1).ok {
      assert RaisedBy(o, o(WriteMarker, w.tick + 1).error, WriteMarker, w.tick + 1);
    }
  }

  lemma SaveGroupReports(w: World, df: Frame, g: GroupKey, o: Oracle)
    ensures var r := SaveGroup(w, df, g, o);
      && (r.error.None? ==> r.w.store == Stored(w.store, df, g))
      && (r.error.Some? ==> SameBut(w.store, r.w.store, g.Folder()) && RaisedInSave(o, r.error.value))
  {
    hide Prepare, Group, FolderName;
    var folder, rows := g.Folder(), Group(df, g.pair);
    PrepareReports(w, folder, rows, o);
    var first := Prepare(w, folder, rows, o);
    if first.error.Some? && first.error.value.auth {
      if o(Refresh, first.w.tick).ok {
        var again := Ask(first.w, Refresh, o).w;
        PrepareReports(again, folder, rows, o);
        OverwrittenTwice(w.store, first.w.store, folder, rows);
        forall k: Key | k.folder != folder ensures SameAt(w.store, Prepare(again, folder, rows, o).w.store, k) {
          assert SameAt(w.store, first.w.store, k);
          assert SameAt(first.w.store, Prepare(again, folder, rows, o).w.store, k);
        }
      } else {
        assert RaisedBy(o, o(Refresh, first.w.tick).error, Refresh, first.w.tick);
      }
    }
  }

  lemma OverwrittenTwice(s: Store, t: Store, folder: string, rows: seq<Row>)
    requires forall k: Key | k != Key(folder, PART) && k != Key(folder, Marker) :: SameAt(s, t, k)
    ensures t[Key(folder, PART) := rows][Key(folder, Marker) := []]
         == s[Key(folder, PART) := rows][Key(folder, Marker) := []]
  {
    var a := t[Key(folder, PART) := rows][Key(folder, Marker) := []];
    var b := s[Key(folder, PART) := rows][Key(folder, Marker) := []];
    forall k ensures SameAt(a, b, k) {
      if k != Key(folder, PART) && k != Key(folder, Marker) { assert SameAt(s, t, k); }
    }
    SameEverywhere(a, b);
  }

  /** A save that reports no error has written every group. One that reports an error stopped at a
      group, with the error of a call made for it: the groups before it are written, of it any part may
      be, and nothing else has changed. */
  lemma {:induction false} SaveAllReports(w: World, df: Frame, gs: seq<GroupKey>, o: Oracle) returns (k: nat)
    ensures k <= |gs|
    ensures var r := SaveAll(w, df, gs, o);
      if r.error.None? then k == |gs| && r.w.store == Saved(w.store, df, gs)
      else
        && k < |gs| && RaisedInSave(o, r.error.value)
        && SameBut(Saved(w.store, df, gs[..k]), r.w.store, gs[k].Folder())
    decreases |gs|
  {
    hide Group, SaveGroup, FolderName, SameBut, RaisedInSave;
    if gs == [] {
      k := 0;
    } else {
      SaveGroupReports(w, df, gs[0], o);
      var one := SaveGroup(w, df, gs[0], o);
      if one.error.Some? {
        k := 0;
      } else {
        k := SaveAllReports(one.w, df, gs[1..], o);
        if k < |gs[1..]| {
          assert gs[..k + 1][0] == gs[0] && gs[..k + 1][1..] == gs[1..][..k];
        }
        k := k + 1;
      }
    }
  }

  lemma NoErrorNoGap(w: World, df: Frame, gs: seq<GroupKey>, o: Oracle)
    ensures SaveAll(w, df, gs, o).error.None? ==> SaveAll(w, df, gs, o).w.store == Saved(w.store, df, gs)
  {
    var _ := SaveAllReports(w, df, gs, o);
  }

  /** With groups that lead to different folders: where a save stopped, the groups before hold their
      rows, and the folders of those after are as they were. */
  lemma SaveStopsAt(w: World, df: Frame, gs: seq<GroupKey>, o: Oracle, key: Key) returns (k: nat)
    requires DistinctFolders(gs) && SaveAll(w, df, gs, o).error.Some?
    ensures var r := SaveAll(w, df, gs, o).w.store;
      && k < |gs| && RaisedInSave(o, SaveAll(w, df, gs, o).error.value)
      && (forall i | 0 <= i < k && key.folder == gs[i].Folder() && (key.file == PART || key.file == Marker) ::
            WrittenFor(r, df, gs[i], key))
      && ((forall i | 0 <= i <= k :: key.folder != gs[i].Folder()) ==> SameAt(w.store, r, key))
  {
    hide Group, SaveAll, FolderName, RaisedInSave, Saved;
    k := SaveAllReports(w, df, gs, o);
    var done, t, r := gs[..k], Saved(w.store, df, gs[..k]), SaveAll(w, df, gs, o).w.store;
    assert DistinctFolders(done) by {
      assert forall i | 0 <= i < |done| :: done[i] == gs[i];
    }
    SavedAt(w.store, df, done, key);
    if key.folder != gs[k].Folder() { assert SameAt(t, r, key); }
    forall i | 0 <= i < k && key.folder == gs[i].Folder() ensures gs[i] in done && gs[i].Folder() != gs[k].Folder() {
      assert done[i] == gs[i];
    }
  }

  /** `k` is one of the two files of a group, with the group's content. */
  predicate WrittenFor(r: Store, df: Frame, g: GroupKey, k: Key) {
    && k in r && k.folder == g.Folder()
    && ((k.file == PART && r[k] == Group(df, g.pair)) || (k.file == Marker && r[k] == []))
  }

  lemma SaveGroupFrame(w: World, df: Frame, g: GroupKey, o: Oracle, k: Key)
    ensures var r := SaveGroup(w, df, g, o).w.store; SameAt(w.store, r, k) || WrittenFor(r, df, g, k)
  {
    hide Group, FolderName;
  }

  /** Whatever fails, a save only writes the two files of the folders it was asked for, each with
      the rows of its group. */
  lemma {:induction false} SaveFrame(w: World, df: Frame, gs: seq<GroupKey>, o: Oracle, k: Key)
    ensures var r := SaveAll(w, df, gs, o).w.store;
      SameAt(w.store, r, k) || exists g :: g in gs && WrittenFor(r, df, g, k)
    decreases |gs|
  {
    hide Group, SaveGroup, FolderName;
    if gs != [] {
      assert gs[0] in gs && forall g | g in gs[1..] :: g in gs;
      SaveGroupFrame(w, df, gs[0], o, k);
      var one := SaveGroup(w, df, gs[0], o);
      if one.error.None? {
        SaveFrame(one.w, df, gs[1..], o, k);
      }
    }
  }

  /** The groups lead to different folders. */
  ghost predicate DistinctFolders(gs: seq<GroupKey>) {
    forall i, j :: 0 <= i < j < |gs| ==> gs[i].Folder() != gs[j].Folder()
  }

  lemma FoldersDiffer(df: Frame)
    requires Stamped(df) && forall p | p in PairsOf(df) :: CleanPair(p)
    ensures DistinctFolders(GroupKeys(df))
  {
    hide KeyFor, PlainPair, GroupKeys, Stamped;
    OneGroupPerPair(df);
    var gs := GroupKeys(df);
    forall i, j | 0 <= i < j < |gs| ensures gs[i].Folder() != gs[j].Folder() {
      assert gs[i] in gs && gs[j] in gs;
      if gs[i].Folder() == gs[j].Folder() {
        FolderNameInjective(gs[i].pair, gs[j].pair, gs[i].start, gs[i].end, gs[j].start, gs[j].end);
      }
    }
  }

  /** Every group ends up in its own folder and nothing else changes. */
  lemma {:induction false} SavedAt(s: Store, df: Frame, gs: seq<GroupKey>, k: Key)
    requires DistinctFolders(gs)
    ensures var r := Saved(s, df, gs);
      && ((forall g | g in gs :: k.folder != g.Folder()) ==> SameAt(s, r, k))
      && (forall g | g in gs && k.folder == g.Folder() ::
            && (k.file == PART ==> k in r && r[k] == Group(df, g.pair))
            && (k.file == Marker ==> k in r && r[k] == [])
            && (k.file != PART && k.file != Marker ==> SameAt(s, r, k)))
    decreases |gs|
  {
    hide Group, FolderName;
    if gs != [] {
      var t := s[Key(gs[0].Folder(), PART) := Group(df, gs[0].pair)][Key(gs[0].Folder(), Marker) := []];
      var rest := gs[1..];
      assert forall g :: g in gs <==> g == gs[0] || g in rest;
      forall g | g in rest ensures g.Folder() != gs[0].Folder() {
        var i :| 0 <= i < |rest| && rest[i] == g;
        assert gs[i + 1] == g;
      }
      assert DistinctFolders(rest) by {
        assert forall i | 0 <= i < |rest| :: rest[i] == gs[i + 1];
      }
      SavedAt(t, df, rest, k);
    }
  }

  // ----- the pairs merged afterwards -----

  predicate PairLeq(p: Pair, q: Pair) {
    if p.code == q.code then LexLeq(p.candle, q.candle) else LexLeq(p.code, q.code)
  }

  lemma PairTotalOrder()
    ensures TotalOrder(PairLeq)
  {
    LexTotalOrder();
  }

  /** `distinct_code_candle_pairs`: the frame's pairs without duplicates, sorted. */
  function DistinctPairs(df: Frame): (ps: seq<Pair>)
    ensures forall p :: p in ps <==> p in PairsOf(df)
    ensures StrictlySorted(ps, PairLeq)
  {
    PairTotalOrder();
    Sorted(PairsOf(df), PairLeq)
  }

  /** They are sorted by code and, for one code, by candle. */
  lemma DistinctPairsSorted(df: Frame, i: nat, j: nat)
    requires i < j < |DistinctPairs(df)|
    ensures var p, q := DistinctPairs(df)[i], DistinctPairs(df)[j];
      LexLeq(p.code, q.code) && (p.code == q.code ==> LexLeq(p.candle, q.candle) && p.candle != q.candle)
  {
    hide LexLeq;
    assert PairLeq(DistinctPairs(df)[i], DistinctPairs(df)[j]);
    LexReflexive(DistinctPairs(df)[i].code);
  }

  /** The pairs merged after a save are exactly the pairs that were written. */
  lemma MergedAreWritten(df: Frame)
    requires Stamped(df)
    ensures Elements(DistinctPairs(df)) == set g | g in GroupKeys(df) :: g.pair
  {
    hide KeyFor, GroupKeys, Stamped, PairsOf, Group, DistinctPairs, PairLeq;
    OneGroupPerPair(df);
    var pairs := set g | g in GroupKeys(df) :: g.pair;
    forall p ensures p in Elements(DistinctPairs(df)) <==> p in pairs {
      if p in PairsOf(df) {
        KeyForPair(df, p);
        assert KeyFor(df, p) in GroupKeys(df);
      }
    }
  }

  lemma KeyForPair(df: Frame, p: Pair)
    requires Group(df, p) != []
    ensures KeyFor(df, p).pair == p
  {}

  /** The sink as an object over the store it writes. */
  class TradePriceParquetSink {
    var store: Store
    var tick: nat
    const oracle: Oracle

    constructor (store: Store, oracle: Oracle)
      ensures this.store == store && tick == 0 && this.oracle == oracle
    {
      this.store, tick, this.oracle := store, 0, oracle;
    }

    ghost function Now(): (w: World)
      reads this
    {
      World(store, tick, 0)
    }

    method WriteGroup(folder: string, rows: seq<Row>) returns (error: Option<Error>)
      modifies this
      ensures Step(Now(), error) == Prepare(old(Now()), folder, rows, oracle)
    {
      var out := oracle(WriteData, tick);
      if out.ok || Key(folder, PART) in out.reach { store := store[Key(folder, PART) := rows]; }
      tick := tick + 1;
      if !out.ok { return Some(out.error); }
      out := oracle(WriteMarker, tick);
      if out.ok || Key(folder, Marker) in out.reach { store := store[Key(folder, Marker) := []]; }
      tick := tick + 1;
      error := if out.ok then None else Some(out.error);
    }

    method Save(df: Frame) returns (error: Option<Error>)
      modifies this
      ensures Step(Now(), error) == SaveAll(old(Now()), df, GroupKeys(df), oracle)
      ensures error.None? ==> store == Saved(old(store), df, GroupKeys(df))
    {
      hide Prepare, Group, GroupKeys, Saved, FolderName;
      var groups := GroupKeys(df);
      NoErrorNoGap(Now(), df, groups, oracle);
      error := None;
      for i := 0 to |groups|
        invariant error.None?
        invariant SaveAll(old(Now()), df, groups, oracle) == SaveAll(Now(), df, groups[i..], oracle)
      {
        assert groups[i..][0] == groups[i] && groups[i..][1..] == groups[i + 1..];
        error := WriteGroup(groups[i].Folder(), Group(df, groups[i].pair));
        if error.Some? && error.value.auth {
          var out := oracle(Refresh, tick);
          tick := tick + 1;
          error := if out.ok then None else Some(out.error);
          if error.None? {
            error := WriteGroup(groups[i].Folder(), Group(df, groups[i].pair));
          }
        }
        if error.Some? { return; }
      }
    }
  }
}
