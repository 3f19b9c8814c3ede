/** What one undisturbed merge of a (code, candle) pair does to the store, and the laws it obeys:
    conservation, framing, idempotence, commutation. */
module MergeSpec {
  import opened Ordering
  import opened Calendar
  import opened DatasetNames
  import opened ObjectStore

  /** How the query's ROW_NUMBER picks among rows that share a `trade_time`: any choice function
      of the rows read. */
  type Tie = f: (set<Row>, Instant) -> Row | Chooses(f) ghost witness AnyTie()

  ghost predicate Chooses(f: (set<Row>, Instant) -> Row) {
    forall rows: set<Row>, t: Instant {:trigger f(rows, t)} ::
      t in TimesOf(rows) ==> f(rows, t) in rows && f(rows, t).time == t
  }

  ghost function AnyTie(): (f: (set<Row>, Instant) -> Row)
    ensures Chooses(f)
  {
    (rows: set<Row>, t: Instant) =>
      if t in TimesOf(rows) then var r :| r in rows && r.time == t; r else Row("", "", t, 0)
  }

  /** One row per `trade_time`, ordered by `trade_time`. */
  function Merged(rows: set<Row>, tie: Tie): (out: seq<Row>)
    ensures |out| == |TimesOf(rows)|
  {
    var ts := SortedInstants(TimesOf(rows));
    seq(|ts|, i requires 0 <= i < |ts| => tie(rows, ts[i]))
  }

  function Dates(rows: set<Row>): (ds: set<Date>) {
    set r | r in rows :: r.time.date
  }

  /** `{code}_{candle}_{MIN(date)}_{MAX(date)}.parquet` over the rows read. */
  function TargetName(rows: set<Row>, p: Pair): (name: string)
    requires rows != {}
  {
    SomeDate(rows);
    FolderName(p, MinDate(Dates(rows)), MaxDate(Dates(rows)))
  }

  lemma SomeDate(rows: set<Row>)
    requires rows != {}
    ensures Dates(rows) != {} && TimesOf(rows) != {}
  {
    var r :| r in rows;
    assert r.time.date in Dates(rows) && r.time in TimesOf(rows);
  }

  /** `out` published as the only object of data in `target`; the pair's other dataset folders,
      what `target` held before and the unfinished folder are gone. */
  function Published(s: Store, p: Pair, target: string, out: seq<Row>): (r: Store) {
    var gone := DatasetFolders(s, p) + {target, TempName(target)};
    (map k | k in s && k.folder !in gone :: s[k])[Key(target, PART) := out][Key(target, Marker) := []]
  }

  /** The store after an undisturbed merge. A pair without rows is left alone: it has no sources,
      or its date range is empty and the merge gives up. */
  function MergeOnce(s: Store, p: Pair, tie: Tie): (r: Store) {
    var rows := Rows(s, p);
    if rows == {} then s else Published(s, p, TargetName(rows, p), Merged(rows, tie))
  }

  // ----- the merged rows -----

  /** Strictly increasing `trade_time`. */
  predicate TimesIncrease(out: seq<Row>) {
    forall i, j :: 0 <= i < j < |out| ==> InstantLeq(out[i].time, out[j].time) && out[i].time != out[j].time
  }

  lemma MergedSorted(rows: set<Row>, tie: Tie)
    ensures var out := Merged(rows, tie);
      && TimesIncrease(out)
      && (forall r | r in out :: r in rows)
      && TimesOf(Elements(out)) == TimesOf(rows)
  {
    var out, ts := Merged(rows, tie), SortedInstants(TimesOf(rows));
    forall i | 0 <= i < |out| ensures out[i] in rows && out[i].time == ts[i] {
      assert ts[i] in TimesOf(rows);
      var r :| r in rows && r.time == ts[i];
      assert tie(rows, r.time) in rows;
    }
    forall t | t in TimesOf(rows) ensures t in TimesOf(Elements(out)) {
      assert t in ts;
      var i :| 0 <= i < |ts| && ts[i] == t;
      assert out[i] in Elements(out);
    }
  }

  /** Rows that already have distinct times are only sorted, whatever the tie-break. */
  lemma MergedFixed(out: seq<Row>, tie: Tie)
    requires TimesIncrease(out)
    ensures Merged(Elements(out), tie) == out
  {
    var rows := Elements(out);
    var ts := seq(|out|, i requires 0 <= i < |out| => out[i].time);
    TimesColumn(out, ts);
    forall i | 0 <= i < |out| ensures tie(rows, ts[i]) == out[i] {
      OnlyChoice(out, i, tie);
    }
  }

  lemma OnlyChoice(out: seq<Row>, i: nat, tie: Tie)
    requires TimesIncrease(out) && i < |out|
    ensures tie(Elements(out), out[i].time) == out[i]
  {
  }

  lemma TimesColumn(out: seq<Row>, ts: seq<Instant>)
    requires TimesIncrease(out)
    requires |ts| == |out| && forall i | 0 <= i < |out| :: ts[i] == out[i].time
    ensures ts == SortedInstants(TimesOf(Elements(out)))
  {
    ColumnElements(out, ts);
    InstantTotalOrder();
    SortedUnique(ts, SortedInstants(TimesOf(Elements(out))), InstantLeq);
  }

  lemma ColumnElements(out: seq<Row>, ts: seq<Instant>)
    requires |ts| == |out| && forall i | 0 <= i < |out| :: ts[i] == out[i].time
    ensures Elements(ts) == TimesOf(Elements(out)) == Elements(SortedInstants(TimesOf(Elements(out))))
  {
  }

  // ----- conservation -----

  lemma TargetInPair(rows: set<Row>, p: Pair)
    requires rows != {} && Mergeable(p)
    ensures InPair(TargetName(rows, p), p)
    ensures !InPair(TempName(TargetName(rows, p)), p)
    ensures TempName(TargetName(rows, p)) != TargetName(rows, p)
  {
    SomeDate(rows);
    OwnTempIsNoDataset(TargetName(rows, p), p);
  }

  lemma OneSource(s: Store, p: Pair, data: Key)
    requires Sources(s, p) == {data}
    ensures Rows(s, p) == Elements(s[data]) && DatasetFolders(s, p) == {data.folder}
  {
    assert data in Sources(s, p);
    assert forall k | k in s && IsSource(k, p) :: k in Sources(s, p);
  }

  lemma PublishedSource(s: Store, p: Pair, target: string, out: seq<Row>)
    requires InPair(target, p)
    ensures var r := Published(s, p, target, out);
      Sources(r, p) == {Key(target, PART)} && r[Key(target, PART)] == out
  {
  }

  /** After a merge the pair has one dataset folder, named by the exact date range, holding
      one object of data: the merged rows. No `trade_time` is lost or invented. */
  lemma MergeConserves(s: Store, p: Pair, tie: Tie)
    requires Mergeable(p) && Rows(s, p) != {}
    ensures var r, rows := MergeOnce(s, p, tie), Rows(s, p);
      && Sources(r, p) == {Key(TargetName(rows, p), PART)}
      && DatasetFolders(r, p) == {TargetName(rows, p)}
      && r[Key(TargetName(rows, p), PART)] == Merged(rows, tie)
      && Rows(r, p) == Elements(Merged(rows, tie))
      && Rows(r, p) <= rows
      && Times(r, p) == Times(s, p)
      && Rows(r, p) != {} && TargetName(Rows(r, p), p) == TargetName(rows, p)
  {
    TargetInPair(Rows(s, p), p);
    PublishedSource(s, p, TargetName(Rows(s, p), p), Merged(Rows(s, p), tie));
    OneSource(MergeOnce(s, p, tie), p, Key(TargetName(Rows(s, p), p), PART));
    MergedSorted(Rows(s, p), tie);
    SameDates(Elements(Merged(Rows(s, p), tie)), Rows(s, p));
  }

  /** The dates read from the name of the merged folder, start first, bound every row that was read
      and are days of such rows. */
  lemma MergedName(rows: set<Row>, p: Pair) returns (first: Date, last: Date)
    requires rows != {}
    ensures var name, n := TargetName(rows, p), |p.code| + |p.candle| + 2;
      && |name| == n + 29
      && name[..n] == p.code + "_" + p.candle + "_" && name[n + 10] == '_' && name[n + 21..] == ".parquet"
      && Denotes(name[n..n + 10], first) && Denotes(name[n + 11..n + 21], last)
    ensures forall r | r in rows :: DateLeq(first, r.time.date) && DateLeq(r.time.date, last)
    ensures (exists r :: r in rows && r.time.date == first) && (exists r :: r in rows && r.time.date == last)
  {
    SomeDate(rows);
    first, last := MinDate(Dates(rows)), MaxDate(Dates(rows));
    FolderNameReads(p, first, last);
    hide FolderName, Denotes;
    assert first in Dates(rows) && last in Dates(rows);
    assert forall r | r in rows :: r.time.date in Dates(rows);
  }

  lemma PublishedObjects(s: Store, p: Pair, target: string, out: seq<Row>)
    ensures var r := Published(s, p, target, out);
      && (forall f :: Key(target, f) in r <==> f == PART || f == Marker) && r[Key(target, Marker)] == []
      && (forall k | k in r && (k.folder in DatasetFolders(s, p) || k.folder == "TEMP_" + target) :: k.folder == target)
      && (forall k: Key | k.folder !in DatasetFolders(s, p) && k.folder != target && k.folder != "TEMP_" + target ::
            SameAt(s, r, k))
  {
    hide DatasetFolders;
  }

  /** The objects of the pair after a merge: the two files of the merged folder; every folder with a
      part file and the unfinished folder are gone, anything else is as it was. */
  lemma MergedObjects(s: Store, p: Pair, tie: Tie)
    requires Mergeable(p) && Rows(s, p) != {}
    ensures var r, target := MergeOnce(s, p, tie), TargetName(Rows(s, p), p);
      && (forall f :: Key(target, f) in r <==> f == PART || f == Marker) && r[Key(target, Marker)] == []
      && (forall k | k in r && (k.folder in DatasetFolders(s, p) || k.folder == "TEMP_" + target) :: k.folder == target)
      && (forall k: Key | k.folder !in DatasetFolders(s, p) && k.folder != target && k.folder != "TEMP_" + target ::
            SameAt(s, r, k))
  {
    hide TargetName, Merged, Published, DatasetFolders, Rows;
    PublishedObjects(s, p, TargetName(Rows(s, p), p), Merged(Rows(s, p), tie));
  }

  /** The day is part of the time, so equal key sets span equal dates. */
  lemma SameDates(a: set<Row>, b: set<Row>)
    requires TimesOf(a) == TimesOf(b)
    ensures Dates(a) == Dates(b) && (a == {} <==> b == {})
  {
    DatesFollowTimes(a, b);
    DatesFollowTimes(b, a);
  }

  lemma SameTarget(a: set<Row>, b: set<Row>, p: Pair)
    requires TimesOf(a) == TimesOf(b) && b != {}
    ensures a != {} && TargetName(a, p) == TargetName(b, p)
  {
    SameDates(a, b);
  }

  lemma DatesFollowTimes(a: set<Row>, b: set<Row>)
    requires TimesOf(a) <= TimesOf(b)
    ensures Dates(a) <= Dates(b) && (b == {} ==> a == {})
  {
    forall r | r in a ensures r.time.date in Dates(b) && b != {} {
      assert r.time in TimesOf(a);
      var q :| q in b && q.time == r.time;
    }
  }

  // ----- framing -----

  /** The part of the store a merge of `p` reads or writes. */
  function Region(s: Store, p: Pair): (r: Store) {
    map k | k in s && InRegion(k, p) :: s[k]
  }

  lemma RegionReads(s: Store, p: Pair)
    ensures Rows(Region(s, p), p) == Rows(s, p)
    ensures DatasetFolders(Region(s, p), p) == DatasetFolders(s, p)
  {
    var q := Region(s, p);
    assert forall k | IsSource(k, p) :: (k in s <==> k in q) && (k in s ==> s[k] == q[k]);
    forall r | r in Rows(s, p) ensures r in Rows(q, p) {
      var k :| k in s && IsSource(k, p) && r in s[k];
      assert k in q;
    }
    forall f | f in DatasetFolders(s, p) ensures f in DatasetFolders(q, p) {
      var k :| k in s && IsSource(k, p) && k.folder == f;
      assert k in q;
    }
  }

  lemma PublishedIsLocal(s: Store, p: Pair, target: string, out: seq<Row>)
    requires InPair(target, p)
    ensures forall k :: !InRegion(k, p) ==>
      (k in Published(s, p, target, out) <==> k in s) && (k in s ==> Published(s, p, target, out)[k] == s[k])
    ensures Region(Published(s, p, target, out), p) == Published(Region(s, p), p, target, out)
  {
    RegionReads(s, p);
    assert TempName(target)[5..] == target;
    assert forall f | f in DatasetFolders(s, p) :: InPair(f, p);
  }

  /** A merge leaves every object outside its region alone, and what it does inside depends on
      nothing outside. */
  lemma MergeIsLocal(s: Store, p: Pair, tie: Tie)
    requires Mergeable(p)
    ensures forall k :: !InRegion(k, p) ==>
      (k in MergeOnce(s, p, tie) <==> k in s) && (k in s ==> MergeOnce(s, p, tie)[k] == s[k])
    ensures Region(MergeOnce(s, p, tie), p) == MergeOnce(Region(s, p), p, tie)
  {
    RegionReads(s, p);
    if Rows(s, p) != {} {
      TargetInPair(Rows(s, p), p);
      PublishedIsLocal(s, p, TargetName(Rows(s, p), p), Merged(Rows(s, p), tie));
    }
  }

  // ----- idempotence -----

  lemma PublishedTwice(s: Store, p: Pair, target: string, out: seq<Row>)
    requires InPair(target, p)
    ensures Published(Published(s, p, target, out), p, target, out) == Published(s, p, target, out)
  {
  }

  /** Merging a merged pair again changes nothing, even if the second run breaks ties differently. */
  lemma MergeIdempotent(s: Store, p: Pair, tie: Tie, tie': Tie)
    requires Mergeable(p)
    ensures MergeOnce(MergeOnce(s, p, tie), p, tie') == MergeOnce(s, p, tie)
  {
    var rows := Rows(s, p);
    if rows != {} {
      MergeConserves(s, p, tie);
      MergedSorted(rows, tie);
      MergedFixed(Merged(rows, tie), tie');
      TargetInPair(rows, p);
      PublishedTwice(s, p, TargetName(rows, p), Merged(rows, tie));
    }
  }

  // ----- commutation -----

  lemma MergesCommute(s: Store, p: Pair, q: Pair, tie: Tie)
    requires CleanPair(p) && CleanPair(q)
    ensures MergeOnce(MergeOnce(s, p, tie), q, tie) == MergeOnce(MergeOnce(s, q, tie), p, tie)
  {
    if p != q {
      MergeElsewhere(s, p, q, tie);
      MergeElsewhere(s, q, p, tie);
      var a, b := MergeOnce(s, p, tie), MergeOnce(s, q, tie);
      MergeIsLocal(a, q, tie);
      MergeIsLocal(b, p, tie);
      MergeIsLocal(s, p, tie);
      MergeIsLocal(s, q, tie);
      var ab, ba := MergeOnce(a, q, tie), MergeOnce(b, p, tie);
      forall k ensures SameAt(ab, ba, k) {
        if InRegion(k, p) && InRegion(k, q) { RegionsDisjoint(k, p, q); }
        AtRegion(ab, k, q);
        AtRegion(ba, k, p);
        AtRegion(a, k, p);
        AtRegion(b, k, q);
      }
      SameEverywhere(ab, ba);
    }
  }

  lemma AtRegion(s: Store, k: Key, p: Pair)
    ensures InRegion(k, p) ==> (k in s <==> k in Region(s, p)) && (k in s ==> s[k] == Region(s, p)[k])
  {}

  /** Merging `p` leaves the region of another pair exactly as it was. */
  lemma MergeElsewhere(s: Store, p: Pair, q: Pair, tie: Tie)
    requires CleanPair(p) && CleanPair(q) && p != q
    ensures Region(MergeOnce(s, p, tie), q) == Region(s, q)
  {
    MergeIsLocal(s, p, tie);
    forall k | InRegion(k, q) ensures !InRegion(k, p) {
      if InRegion(k, p) { RegionsDisjoint(k, p, q); }
    }
  }
}
