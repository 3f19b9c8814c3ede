/** The bucket: objects addressed by dataset folder and file, holding trade price rows.
    A `_SUCCESS` marker holds none. Object paths relative to the base are `folder/file`. */
module ObjectStore {
  import opened Calendar
  import opened DatasetNames

  datatype Row = Row(code: string, candle: string, time: Instant, body: int)

  /** A dataset folder holds part files `part-{tag}.parquet` and the `_SUCCESS` marker. */
  datatype File = Part(tag: string) | Marker {
    function Text(): (s: string) {
      match this
      case Part(tag) => "part-" + tag + SUFFIX
      case Marker => "_SUCCESS"
    }
  }

  datatype Key = Key(folder: string, file: File)

  type Store = map<Key, seq<Row>>

  /** The one part a COPY of the writer or the merger produces. */
  const PART: File := Part("00000.snappy")

  /** The stores agree at `k`. */
  predicate SameAt(s: Store, t: Store, k: Key) {
    (k in s <==> k in t) && (k in s ==> s[k] == t[k])
  }

  lemma SameEverywhere(s: Store, t: Store)
    requires forall k :: SameAt(s, t, k)
    ensures s == t
  {
    forall k ensures (k in s <==> k in t) && (k in s ==> s[k] == t[k]) {
      assert SameAt(s, t, k);
    }
  }

  predicate HasFolder(s: Store, folder: string) {
    exists k :: k in s && k.folder == folder
  }

  function DropFolder(s: Store, folder: string): (r: Store) {
    map k | k in s && k.folder != folder :: s[k]
  }

  function FilesIn(s: Store, folder: string): (files: set<File>) {
    set k | k in s && k.folder == folder :: k.file
  }

  /** Objects matched by `{code}_{candle}_*` + `/part-*.parquet`. */
  predicate IsSource(k: Key, p: Pair) {
    InPair(k.folder, p) && k.file.Part?
  }

  function PathText(k: Key): (path: string) {
    k.folder + "/" + k.file.Text()
  }

  lemma PartFile(tag: string)
    ensures var text := Part(tag).Text();
      && "part-" <= text && |text| >= 13 && text[|text| - 8..] == ".parquet"
  {
    var text := "part-" + tag + SUFFIX;
    assert text == "part-" + (tag + SUFFIX);
    assert text[|text| - 8..] == SUFFIX;
  }

  lemma MarkerFile()
    ensures Marker.Text() == "_SUCCESS" && !("part-" <= Marker.Text())
    ensures PART.Text() == "part-00000.snappy.parquet"
  {
    assert Marker.Text()[0] == '_';
  }

  /** The sources of a pair are the objects whose folder and file match the glob; the two objects a
      writer makes are spelled out. */
  lemma SourceIsGlob(k: Key, p: Pair)
    ensures IsSource(k, p) <==> p.code + "_" + p.candle + "_" <= k.folder && "part-" <= k.file.Text()
    ensures "part-" <= k.file.Text() ==>
      |k.file.Text()| >= 13 && k.file.Text()[|k.file.Text()| - 8..] == ".parquet"
    ensures PathText(Key(k.folder, PART)) == k.folder + "/part-00000.snappy.parquet"
    ensures PathText(Key(k.folder, Marker)) == k.folder + "/_SUCCESS"
  {
    MarkerFile();
    if k.file.Part? { PartFile(k.file.tag); }
  }

  function Sources(s: Store, p: Pair): (ks: set<Key>) {
    set k | k in s && IsSource(k, p)
  }

  function Rows(s: Store, p: Pair): (rows: set<Row>) {
    set k, r | k in s && IsSource(k, p) && r in s[k] :: r
  }

  function TimesOf(rows: set<Row>): (ts: set<Instant>) {
    set r | r in rows :: r.time
  }

  /** The `trade_time` keys a reader of the pair can see. */
  function Times(s: Store, p: Pair): (ts: set<Instant>) {
    TimesOf(Rows(s, p))
  }

  /** The `trade_time` keys in the part files of one folder. */
  function FolderTimes(s: Store, folder: string): (ts: set<Instant>) {
    set k, r | k in s && k.folder == folder && k.file.Part? && r in s[k] :: r.time
  }

  function DatasetFolders(s: Store, p: Pair): (fs: set<string>) {
    set k | k in s && IsSource(k, p) :: k.folder
  }

  lemma TextInjective(f: File, g: File)
    requires f.Text() == g.Text()
    ensures f == g
  {
    if f.Part? && g.Part? {
      var n := |f.Text()| - |SUFFIX|;
      assert f.Text()[5..n] == f.tag && g.Text()[5..n] == g.tag;
    }
  }

  /** Everything a merge of `p` may touch: its folders and its unfinished folders. */
  predicate InRegion(k: Key, p: Pair) {
    InPair(k.folder, p) || ("TEMP_" <= k.folder && InPair(k.folder[5..], p))
  }

  lemma RegionsDisjoint(k: Key, p: Pair, q: Pair)
    requires CleanPair(p) && CleanPair(q) && InRegion(k, p) && InRegion(k, q)
    ensures p == q
  {
    if "TEMP_" <= k.folder {
      var f := k.folder[5..];
      assert k.folder == TempName(f);
      TempIsNoDataset(f, p);
      TempIsNoDataset(f, q);
      PairOfFolderUnique(f, p, q);
    } else {
      PairOfFolderUnique(k.folder, p, q);
    }
  }
}
