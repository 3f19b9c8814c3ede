/** Dataset folder names `{code}_{candle}_{start}_{end}.parquet`: how they are printed, matched
    by the merger's globs, and parsed back into a (code, candle) pair. */
module DatasetNames {
  import opened Calendar

  datatype Pair = Pair(code: string, candle: string)

  const SUFFIX := ".parquet"

  // ----- Python string operations -----

  /** `s.split(c)` for a one-character separator. */
  function Split(s: string, c: char): (parts: seq<string>)
    ensures parts != []
  {
    if s == "" then [""]
    else
      var rest := Split(s[1..], c);
      if s[0] == c then [""] + rest else [[s[0]] + rest[0]] + rest[1..]
  }

  /** `s.replace(pattern, "")`: occurrences are dropped left to right. */
  function RemoveAll(s: string, pattern: string): (r: string)
    requires pattern != ""
  {
    if s == "" then ""
    else if pattern <= s then RemoveAll(s[|pattern|..], pattern)
    else [s[0]] + RemoveAll(s[1..], pattern)
  }

  /** `s.split(pattern)[0]`: the text before the first occurrence, or all of it. */
  function CutAt(s: string, pattern: string): (r: string)
    requires pattern != ""
    ensures r <= s
  {
    if s == "" || pattern <= s then "" else [s[0]] + CutAt(s[1..], pattern)
  }

  predicate Contains(s: string, pattern: string) {
    exists i :: 0 <= i <= |s| && pattern <= s[i..]
  }

  // ----- printing and matching -----

  function Prefix(p: Pair): (s: string) {
    p.code + "_" + p.candle + "_"
  }

  function FolderName(p: Pair, start: Date, end: Date): (s: string) {
    Prefix(p) + DateText(start) + "_" + DateText(end) + SUFFIX
  }

  function TempName(folder: string): (s: string) {
    "TEMP_" + folder
  }

  /** Codes and candles that can be read back: the glob and the parser cut at `_`, and the parser
      drops `.parquet`. */
  predicate PlainPair(p: Pair) {
    && '_' !in p.code && '_' !in p.candle && '/' !in p.code && '/' !in p.candle
    && !Contains(p.code, SUFFIX) && !Contains(p.candle, SUFFIX)
  }

  /** Codes and candles as the writer uses them: `TEMP` is the marker of unfinished folders. */
  predicate CleanPair(p: Pair) {
    PlainPair(p) && p.code != "TEMP"
  }

  /** Pairs the merger can be asked to merge: the clean ones, and those under which the counting lists
      unfinished folders. */
  predicate Mergeable(p: Pair) {
    PlainPair(p) && !(p.code == "TEMP" && p.candle == "TEMP")
  }

  /** The glob `{code}_{candle}_*` on one path segment. */
  predicate InPair(folder: string, p: Pair) {
    Prefix(p) <= folder
  }

  lemma FirstUnderscore(x: string, y: string, a: string, b: string)
    requires '_' !in x && '_' !in y
    requires x + "_" + a == y + "_" + b
    ensures x == y && a == b
  {
    var s := x + "_" + a;
    assert s[|x|] == '_' && s[|y|] == '_';
    assert forall i | 0 <= i < |x| :: s[i] == x[i];
    assert forall i | 0 <= i < |y| :: s[i] == y[i];
    assert |x| == |y|;
    assert s[..|x|] == x && s[..|x|] == y;
    assert s[|x| + 1..] == a && s[|x| + 1..] == b;
  }

  /** A folder belongs to at most one pair. */
  lemma PairOfFolderUnique(folder: string, p: Pair, q: Pair)
    requires PlainPair(p) && PlainPair(q) && InPair(folder, p) && InPair(folder, q)
    ensures p == q
  {
    var a, b := folder[|Prefix(p)|..], folder[|Prefix(q)|..];
    assert folder == p.code + "_" + (p.candle + "_" + a);
    assert folder == q.code + "_" + (q.candle + "_" + b);
    FirstUnderscore(p.code, q.code, p.candle + "_" + a, q.candle + "_" + b);
    FirstUnderscore(p.candle, q.candle, a, b);
  }

  /** An unfinished `TEMP_` folder is never matched as a dataset of a pair. */
  lemma TempIsNoDataset(folder: string, p: Pair)
    requires CleanPair(p)
    ensures !InPair(TempName(folder), p)
  {
    if InPair(TempName(folder), p) {
      var a := TempName(folder)[|Prefix(p)|..];
      assert TempName(folder) == p.code + "_" + (p.candle + "_" + a);
      assert TempName(folder) == "TEMP" + "_" + folder;
      FirstUnderscore(p.code, "TEMP", p.candle + "_" + a, folder);
    }
  }

  /** The glob of a pair never matches an unfinished folder of its own. */
  lemma OwnTempIsNoDataset(folder: string, p: Pair)
    requires Mergeable(p) && InPair(folder, p)
    ensures !InPair(TempName(folder), p)
  {
    if InPair(TempName(folder), p) {
      var a, b := TempName(folder)[|Prefix(p)|..], folder[|Prefix(p)|..];
      assert TempName(folder) == p.code + "_" + (p.candle + "_" + a);
      assert TempName(folder) == "TEMP" + "_" + folder;
      FirstUnderscore(p.code, "TEMP", p.candle + "_" + a, folder);
      assert folder == p.code + "_" + (p.candle + "_" + b);
      FirstUnderscore(p.candle, p.code, a, p.candle + "_" + b);
    }
  }

  /** The name determines the pair and both dates. */
  lemma FolderNameInjective(p: Pair, q: Pair, s: Date, e: Date, s': Date, e': Date)
    requires PlainPair(p) && PlainPair(q)
    requires FolderName(p, s, e) == FolderName(q, s', e')
    ensures p == q && s == s' && e == e'
  {
    var f := FolderName(p, s, e);
    assert InPair(f, p) && InPair(f, q);
    PairOfFolderUnique(f, p, q);
    var rest, n := f[|Prefix(p)|..], |Prefix(p)|;
    assert rest == DateText(s) + "_" + DateText(e) + SUFFIX;
    assert rest == DateText(s') + "_" + DateText(e') + SUFFIX by {
      assert FolderName(q, s', e')[n..] == DateText(s') + "_" + DateText(e') + SUFFIX;
    }
    assert rest[..10] == DateText(s) == DateText(s');
    assert rest[11..21] == DateText(e) == DateText(e');
    DateTextInjective(s, s');
    DateTextInjective(e, e');
  }

  /** The name spelled out: code, candle, first and last day, each day where it can be read back. */
  lemma FolderNameReads(p: Pair, start: Date, end: Date)
    ensures var name, n := FolderName(p, start, end), |p.code| + |p.candle| + 2;
      && |name| == n + 29
      && name[..n] == p.code + "_" + p.candle + "_" && name[n + 10] == '_' && name[n + 21..] == ".parquet"
      && Denotes(name[n..n + 10], start) && Denotes(name[n + 11..n + 21], end)
  {
    DateTextDenotes(start);
    DateTextDenotes(end);
    hide DateText, Denotes;
    var name, n := FolderName(p, start, end), |p.code| + |p.candle| + 2;
    assert name[n..n + 10] == DateText(start) && name[n + 11..n + 21] == DateText(end);
  }

  // ----- parsing -----

  /** `_normalize_dataset_folder` on a path relative to the base. */
  function DatasetOf(path: string): (folder: string) {
    CutAt(path, "/part-")
  }

  /** The pair counted for a dataset path: first segment, `.parquet` dropped, cut at `_`. */
  function ParsePair(dataset: string): (parts: seq<string>)
    ensures parts != []
  {
    Split(RemoveAll(CutAt(dataset, "/"), SUFFIX), '_')
  }

  lemma {:induction false} CutBefore(x: string, y: string, pattern: string)
    requires pattern != "" && pattern[0] !in x && pattern <= y
    ensures CutAt(x + y, pattern) == x
  {
    if x == "" {
      assert x + y == y;
    } else {
      assert (x + y)[0] == x[0] && (x + y)[1..] == x[1..] + y;
      CutBefore(x[1..], y, pattern);
    }
  }

  lemma {:induction false} CutNowhere(x: string, pattern: string)
    requires pattern != "" && pattern[0] !in x
    ensures CutAt(x, pattern) == x
  {
    if x != "" { CutNowhere(x[1..], pattern); }
  }

  lemma {:induction false} SplitFirst(x: string, y: string, c: char)
    requires c !in x
    ensures Split(x + [c] + y, c) == [x] + Split(y, c)
  {
    var s := x + [c] + y;
    if x == "" {
      assert s[1..] == y;
    } else {
      assert s[0] == x[0] && s[1..] == x[1..] + [c] + y;
      SplitFirst(x[1..], y, c);
      assert [x[0]] + x[1..] == x;
    }
  }

  lemma {:induction false} RemoveNothing(s: string, pattern: string)
    requires pattern != "" && !Contains(s, pattern)
    ensures RemoveAll(s, pattern) == s
  {
    if s != "" {
      assert s[0..] == s;
      forall i | 0 <= i <= |s| - 1 ensures !(pattern <= s[1..][i..]) {
        assert s[1..][i..] == s[i + 1..];
      }
      RemoveNothing(s[1..], pattern);
    }
  }

  lemma UnderscoreStops(x: string, y: string, pattern: string)
    requires '_' !in pattern
    ensures pattern <= x + "_" + y ==> pattern <= x
  {
    var s := x + "_" + y;
    assert s[|x|] == '_';
    assert s[..|x|] == x;
  }

  /** No occurrence of a `_`-free pattern straddles an underscore. */
  lemma {:induction false} RemoveAcross(x: string, y: string, pattern: string)
    requires pattern != "" && '_' !in pattern
    ensures RemoveAll(x + "_" + y, pattern) == RemoveAll(x, pattern) + "_" + RemoveAll(y, pattern)
    decreases |x|
  {
    var s := x + "_" + y;
    if x == "" {
      assert s[0] == '_' && s[1..] == y;
    } else if pattern <= x {
      assert pattern <= s;
      assert s[|pattern|..] == x[|pattern|..] + "_" + y;
      RemoveAcross(x[|pattern|..], y, pattern);
    } else {
      UnderscoreStops(x, y, pattern);
      assert s[0] == x[0] && s[1..] == x[1..] + "_" + y;
      RemoveAcross(x[1..], y, pattern);
      assert RemoveAll(s, pattern) == [x[0]] + RemoveAll(s[1..], pattern);
      assert RemoveAll(x, pattern) == [x[0]] + RemoveAll(x[1..], pattern);
      JoinedOnce(x[0], RemoveAll(x[1..], pattern), RemoveAll(y, pattern));
      hide RemoveAll;
    }
  }

  lemma JoinedOnce(c: char, a: string, b: string)
    ensures [c] + (a + "_" + b) == ([c] + a) + "_" + b
  {
  }

  /** Parsing any folder of a clean pair gives the pair back. */
  lemma ParseInvertsPrint(folder: string, p: Pair)
    requires PlainPair(p) && InPair(folder, p) && '/' !in folder
    ensures |ParsePair(folder)| >= 3
    ensures ParsePair(folder)[0] == p.code && ParsePair(folder)[1] == p.candle
  {
    var rest := folder[|Prefix(p)|..];
    CutNowhere(folder, "/");
    assert folder == p.code + "_" + (p.candle + "_" + rest);
    RemoveAcross(p.code, p.candle + "_" + rest, SUFFIX);
    RemoveAcross(p.candle, rest, SUFFIX);
    RemoveNothing(p.code, SUFFIX);
    RemoveNothing(p.candle, SUFFIX);
    var tail := RemoveAll(rest, SUFFIX);
    assert RemoveAll(folder, SUFFIX) == p.code + ['_'] + (p.candle + ['_'] + tail);
    SplitFirst(p.code, p.candle + ['_'] + tail, '_');
    SplitFirst(p.candle, tail, '_');
  }

  /** A part file's path leads to its folder, whatever the part is called. */
  lemma DatasetOfPart(folder: string, file: string)
    requires '/' !in folder && "part-" <= file
    ensures DatasetOf(folder + "/" + file) == folder
  {
    assert folder + "/" + file == folder + ("/" + file);
    CutBefore(folder, "/" + file, "/part-");
  }
}
