/**
  * How paths become object URIs: on the writer's side from a bucket and a key, on the merger's side
  * from one path. Every string is allowed.
  */
module ObjectUri {

  const DUCKDB_PREFIXES := ["s3://", "gs://", "gcs://"]

  const STORAGE_PREFIXES := ["gs://", "gcs://", "s3://"]

  /** The scheme both sides print. */
  const ROOT := "gs://"

  // ----- Python string operations on '/' -----

  function RStrip(s: string): (r: string)
    ensures r <= s && (r != "" ==> r[|r| - 1] != '/')
    ensures forall i | |r| <= i < |s| :: s[i] == '/'
  {
    if s == "" || s[|s| - 1] != '/' then s else RStrip(s[..|s| - 1])
  }

  function LStrip(s: string): (r: string)
    ensures |r| <= |s| && (r != "" ==> r[0] != '/')
  {
    if s == "" || s[0] != '/' then s else LStrip(s[1..])
  }

  function Strip(s: string): string {
    RStrip(LStrip(s))
  }

  /** The part before the first '/', or all of it. */
  function Head(s: string): (r: string)
    ensures r <= s && '/' !in r && (|r| < |s| ==> s[|r|] == '/')
  {
    if s == "" || s[0] == '/' then "" else [s[0]] + Head(s[1..])
  }

  /** The part after the first '/', if there is one. */
  function Tail(s: string): string {
    if |Head(s)| < |s| then s[|Head(s)| + 1..] else ""
  }

  // ----- the source's functions -----

  /** The first prefix that matches goes, then the slashes at the end. */
  function StripFirst(prefixes: seq<string>, path: string): string {
    if prefixes == [] then RStrip(path)
    else if prefixes[0] <= path then RStrip(path[|prefixes[0]|..])
    else StripFirst(prefixes[1..], path)
  }

  /** `strip_uri_scheme` as the DuckDB side has it. */
  function StripDuckdb(path: string): string {
    StripFirst(DUCKDB_PREFIXES, path)
  }

  /** `strip_uri_scheme` as the object storage side has it. */
  function StripStorage(path: string): string {
    StripFirst(STORAGE_PREFIXES, path)
  }

  /** `object_uri`. */
  function Uri(bucket: string, key: string): string {
    var base := ROOT + Strip(bucket);
    if key == "" then base else base + "/" + LStrip(key)
  }

  /** `to_uri`: the path without scheme is cut at its first slash. */
  function ToUri(path: string): string {
    var normalized := StripDuckdb(path);
    Uri(Head(normalized), Tail(normalized))
  }

  /** Where the sink, made for `base`, writes an object. */
  function SinkUri(base: string, key: string): string {
    Uri(StripDuckdb(base), key)
  }

  /** Where the merger, made for `base`, looks for it. */
  function MergerUri(base: string, key: string): string {
    ToUri(StripDuckdb(base) + "/" + key)
  }

  // ----- properties -----

  /** The order of the prefixes makes no difference, on any string. */
  lemma StripsAgree(path: string)
    ensures StripDuckdb(path) == StripStorage(path)
  {
    assert "gs://" <= path ==> path[0] == 'g' && path[1] == 's';
    assert "gcs://" <= path ==> path[0] == 'g' && path[1] == 'c';
    assert "s3://" <= path ==> path[0] == 's';
    Three(DUCKDB_PREFIXES, path);
    Three(STORAGE_PREFIXES, path);
  }

  lemma Three(prefixes: seq<string>, path: string)
    requires |prefixes| == 3
    ensures StripFirst(prefixes, path)
            == if prefixes[0] <= path then RStrip(path[|prefixes[0]|..])
               else if prefixes[1] <= path then RStrip(path[|prefixes[1]|..])
               else if prefixes[2] <= path then RStrip(path[|prefixes[2]|..])
               else RStrip(path)
  {
    hide RStrip;
    var one, two := prefixes[1..], prefixes[2..];
    assert one[0] == prefixes[1] && one[1..] == two && two[0] == prefixes[2] && two[1..] == [];
    assert StripFirst(two, path) == if two[0] <= path then RStrip(path[|two[0]|..]) else RStrip(path);
    assert StripFirst(one, path) == if one[0] <= path then RStrip(path[|one[0]|..]) else StripFirst(two, path);
  }

  lemma {:induction false} HeadOf(s: string, t: string)
    requires '/' !in s
    ensures Head(s) == s && Tail(s) == "" && Head(s + "/" + t) == s && Tail(s + "/" + t) == t
  {
    if s == "" {
      assert s + "/" + t == "/" + t;
    } else {
      HeadOf(s[1..], t);
      assert (s + "/" + t)[1..] == s[1..] + "/" + t;
    }
    var u := s + "/" + t;
    assert Head(u) == s;
    assert u[|s| + 1..] == t;
  }

  lemma HeadAndTail(s: string)
    ensures s == Head(s) || s == Head(s) + "/" + Tail(s)
  {
  }

  lemma RStripFixed(s: string)
    requires s == "" || s[|s| - 1] != '/'
    ensures RStrip(s) == s
  {
  }

  lemma StripSegment(s: string)
    requires '/' !in s
    ensures Strip(s) == s
  {
  }

  /** A key inside a base: it neither starts nor ends with a slash. */
  predicate IsKey(key: string) {
    key != "" && key[0] != '/' && key[|key| - 1] != '/'
  }

  /** A bucket and a key as they appear in a normal URI. */
  predicate Normal(bucket: string, key: string) {
    '/' !in bucket && (key == "" || IsKey(key))
  }

  function Printed(bucket: string, key: string): string {
    if key == "" then ROOT + bucket else ROOT + bucket + "/" + key
  }

  lemma UriOfNormal(bucket: string, key: string)
    requires Normal(bucket, key)
    ensures Uri(bucket, key) == Printed(bucket, key)
  {
  }

  lemma LStripFixed(s: string)
    ensures LStrip(s) == s <==> s == "" || s[0] != '/'
  {
  }

  lemma StripRooted(rest: string)
    requires rest == "" || rest[|rest| - 1] != '/'
    ensures StripDuckdb(ROOT + rest) == rest
  {
    var uri := ROOT + rest;
    assert uri[0] == 'g' && uri[5..] == rest && "gs://" <= uri && !("s3://" <= uri);
    Three(DUCKDB_PREFIXES, uri);
    RStripFixed(rest);
  }

  lemma StripPrinted(bucket: string, key: string)
    requires Normal(bucket, key)
    ensures StripDuckdb(Printed(bucket, key)) == if key == "" then bucket else bucket + "/" + key
  {
    hide StripDuckdb, ROOT;
    if key == "" {
      assert bucket == "" || bucket[|bucket| - 1] in bucket;
      StripRooted(bucket);
    } else {
      Assoc(ROOT, bucket + "/", key);
      Assoc(ROOT, bucket, "/");
      StripRooted(bucket + "/" + key);
    }
  }

  lemma StripEndsWell(path: string)
    ensures var n := StripDuckdb(path); n == "" || n[|n| - 1] != '/'
  {
    Three(DUCKDB_PREFIXES, path);
  }

  /** A key with something other than slashes keeps its end. */
  lemma {:induction false} LStripKeepsEnd(key: string)
    requires key != "" && key[|key| - 1] != '/'
    ensures IsKey(LStrip(key)) && LStrip(LStrip(key)) == LStrip(key)
  {
    if key[0] == '/' {
      LStripKeepsEnd(key[1..]);
    }
  }

  /** Whatever `to_uri` returns is normal. */
  lemma ToUriIsNormal(path: string)
    ensures var n := StripDuckdb(path);
            Normal(Head(n), LStrip(Tail(n))) && ToUri(path) == Printed(Head(n), LStrip(Tail(n)))
  {
    var n := StripDuckdb(path);
    StripEndsWell(path);
    hide StripDuckdb;
    var b, k := Head(n), Tail(n);
    StripSegment(b);
    if k != "" {
      assert k[|k| - 1] == n[|n| - 1];
      LStripKeepsEnd(k);
    }
    hide LStrip, Strip, ROOT, Head, Tail;
  }

  /** `to_uri` is idempotent on every string. */
  lemma ToUriIdempotent(path: string)
    ensures ToUri(ToUri(path)) == ToUri(path)
  {
    var n := StripDuckdb(path);
    var b, k := Head(n), LStrip(Tail(n));
    ToUriIsNormal(path);
    StripPrinted(b, k);
    HeadOf(b, k);
    assert Head(StripDuckdb(Printed(b, k))) == b && Tail(StripDuckdb(Printed(b, k))) == k;
    UriOfNormal(b, k);
  }

  /** The stripped base is empty, or neither its first nor its second segment is. */
  predicate Plain(base: string) {
    base == "" || (base[0] != '/' && (Tail(base) != "" ==> Tail(base)[0] != '/'))
  }

  /** Of a stripped base the sink only drops the slashes in front. */
  lemma SinkUriOf(base: string, key: string)
    requires IsKey(key)
    ensures SinkUri(base, key) == ROOT + LStrip(StripDuckdb(base)) + "/" + key
  {
    var b := StripDuckdb(base);
    StripEndsWell(base);
    LStripFixed(key);
    if b != "" { LStripKeepsEnd(b); }
    RStripFixed(LStrip(b));
    hide LStrip, RStrip, StripDuckdb, ROOT;
  }

  /** A stripped base that still starts with a scheme has an empty second segment. */
  lemma SchemeIsNotPlain(b: string, key: string, prefix: string)
    requires IsKey(key) && (b == "" || b[|b| - 1] != '/')
    requires prefix in DUCKDB_PREFIXES && prefix <= b + "/" + key
    ensures prefix <= b && b[0] != '/' && !Plain(b)
  {
    var path := b + "/" + key;
    var m := |prefix| - 3;
    assert 2 <= m <= 3 && prefix[m] == ':' && prefix[m + 1] == '/' && prefix[m + 2] == '/';
    assert '/' !in prefix[..m + 1];
    assert path[m] == ':' && path[m + 1] == '/' && path[m + 2] == '/';
    assert path[|b|] == '/' && path[|b| + 1] == key[0];
    assert forall i | 0 <= i <= m :: path[i] == prefix[i] && path[i] != '/' by {
      assert forall i | 0 <= i <= m :: prefix[i] in prefix[..m + 1];
    }
    assert |b| > m;
    assert path[|b| - 1] == b[|b| - 1];
    assert forall i | 0 <= i < |b| :: b[i] == path[i];
    HeadOf(b[..m + 1], b[m + 2..]);
    assert b == b[..m + 1] + "/" + b[m + 2..];
  }

  lemma NoScheme(path: string)
    requires path != "" && path[|path| - 1] != '/'
    requires forall prefix | prefix in DUCKDB_PREFIXES :: !(prefix <= path)
    ensures StripDuckdb(path) == path
  {
    Three(DUCKDB_PREFIXES, path);
    RStripFixed(path);
    assert DUCKDB_PREFIXES[0] in DUCKDB_PREFIXES && DUCKDB_PREFIXES[1] in DUCKDB_PREFIXES
           && DUCKDB_PREFIXES[2] in DUCKDB_PREFIXES;
  }

  lemma SchemeShortens(path: string, prefix: string)
    requires prefix in DUCKDB_PREFIXES && prefix <= path
    ensures |ToUri(path)| < |ROOT| + |path|
  {
    Three(DUCKDB_PREFIXES, path);
    assert |StripDuckdb(path)| < |path|;
    ToUriIsNormal(path);
    HeadAndTail(StripDuckdb(path));
  }

  lemma {:induction false} LStripAppend(t: string, u: string)
    requires t != "" && t[|t| - 1] != '/'
    ensures LStrip(t + u) == LStrip(t) + u
  {
    if t[0] == '/' {
      assert (t + u)[1..] == t[1..] + u;
      LStripAppend(t[1..], u);
    } else {
      assert (t + u)[0] == t[0];
    }
  }

  lemma Assoc(a: string, b: string, c: string)
    ensures (a + b) + c == a + (b + c)
  {
  }

  /** A stripped base with a slash in it is two parts, the second not ending in a slash. */
  lemma TwoParts(b: string)
    requires Head(b) != b && b[|b| - 1] != '/'
    ensures b == Head(b) + "/" + Tail(b) && Tail(b) != "" && Tail(b)[|Tail(b)| - 1] != '/'
  {
    HeadAndTail(b);
    assert b[|Head(b)|] == '/';
  }

  lemma HeadOfPath(b: string, key: string)
    requires b == "" || b[|b| - 1] != '/'
    ensures Head(b) == b ==> Head(b + "/" + key) == b && Tail(b + "/" + key) == key
    ensures Head(b) != b ==> Head(b + "/" + key) == Head(b) && Tail(b + "/" + key) == Tail(b) + ("/" + key)
  {
    if Head(b) == b {
      HeadOf(b, key);
    } else {
      var h, t := Head(b), Tail(b);
      TwoParts(b);
      hide Head, Tail;
      Assoc(h + "/" + t, "/", key);
      Assoc(h + "/", t, "/" + key);
      HeadOf(h, t + ("/" + key));
    }
  }

  lemma UriOfParts(path: string, head: string, key: string)
    requires StripDuckdb(path) == path && Head(path) == head && LStrip(Tail(path)) == key != ""
    ensures ToUri(path) == ROOT + head + "/" + key
  {
  }

  /** The merger's URI of a key when nothing in the base looks like a scheme. */
  lemma MergerUriOf(b: string, key: string)
    requires IsKey(key) && (b == "" || b[|b| - 1] != '/')
    requires StripDuckdb(b + "/" + key) == b + "/" + key
    ensures Head(b) == b ==> ToUri(b + "/" + key) == ROOT + b + "/" + key
    ensures Head(b) != b ==> ToUri(b + "/" + key) == ROOT + Head(b) + "/" + (LStrip(Tail(b)) + ("/" + key))
  {
    HeadOfPath(b, key);
    hide StripDuckdb, ROOT, Head, Tail, ToUri;
    if Head(b) == b {
      LStripFixed(key);
      UriOfParts(b + "/" + key, b, key);
    } else {
      TwoParts(b);
      LStripAppend(Tail(b), "/" + key);
      hide LStrip;
      UriOfParts(b + "/" + key, Head(b), LStrip(Tail(b)) + ("/" + key));
    }
  }

  /** A path that keeps its second segment is spelled the same by both sides. */
  lemma SameSpelling(root: string, h: string, t: string, key: string)
    ensures root + (h + "/" + t) + "/" + key == root + h + "/" + (t + ("/" + key))
  {
    Assoc(root, h + "/", t);
    Assoc(root, h, "/");
    Assoc(root + h + "/", t, "/" + key);
    Assoc(root + h + "/" + t, "/", key);
  }

  /** One that loses slashes is not: the texts differ in length, or right after the root. */
  lemma OtherSpelling(root: string, h: string, s: string, u: string, key: string)
    ensures |s| != |h| + 1 + |u| ==> root + s + "/" + key != root + h + "/" + (u + ("/" + key))
    ensures h == "" && s != "" && s[0] != '/' ==> root + s + "/" + key != root + h + "/" + (u + ("/" + key))
  {
    var x, y := root + s + "/" + key, root + h + "/" + (u + ("/" + key));
    assert |x| == |root| + |s| + 1 + |key| && |y| == |root| + |h| + 1 + |u| + 1 + |key|;
    if h == "" && s != "" {
      assert x[|root|] == s[0] && y[|root|] == '/';
    }
  }

  lemma Spellings(root: string, h: string, t: string, s: string, u: string, key: string)
    requires t != "" && (if h == "" then s != "" && s[0] != '/' else s == h + "/" + t)
    requires if t[0] == '/' then |u| < |t| else u == t
    ensures root + s + "/" + key == root + h + "/" + (u + ("/" + key)) <==> h != "" && t[0] != '/'
  {
    if h == "" || t[0] == '/' {
      OtherSpelling(root, h, s, u, key);
    } else {
      SameSpelling(root, h, t, key);
    }
  }

  lemma CompareSlashed(h: string, t: string, key: string)
    requires '/' !in h && t != "" && t[|t| - 1] != '/'
    ensures ROOT + LStrip(h + "/" + t) + "/" + key == ROOT + h + "/" + (LStrip(t) + ("/" + key))
            <==> h != "" && t[0] != '/'
  {
    var b := h + "/" + t;
    LStripKeepsEnd(b);
    LStripFixed(b);
    LStripFixed(t);
    hide ROOT, LStrip;
    assert h != "" ==> h[0] in h && b[0] == h[0];
    Spellings(ROOT, h, t, LStrip(b), LStrip(t), key);
  }

  lemma CompareUris(b: string, key: string)
    requires b == "" || b[|b| - 1] != '/'
    ensures Head(b) == b ==> ROOT + LStrip(b) + "/" + key == ROOT + b + "/" + key && Plain(b)
    ensures Head(b) != b ==>
              (ROOT + LStrip(b) + "/" + key == ROOT + Head(b) + "/" + (LStrip(Tail(b)) + ("/" + key)) <==> Plain(b))
  {
    if Head(b) == b {
      assert b == "" || b[0] in b;
      LStripFixed(b);
    } else {
      TwoParts(b);
      CompareSlashed(Head(b), Tail(b), key);
      assert b[0] == '/' <==> Head(b) == "";
    }
    hide ROOT, LStrip, Head, Tail;
  }

  /**
    * The sink and the merger address the same object exactly when the base, without its scheme, is
    * empty or starts with two segments that are not.
    */
  lemma SameObjectExactly(base: string, key: string)
    requires IsKey(key)
    ensures SinkUri(base, key) == MergerUri(base, key) <==> Plain(StripDuckdb(base))
  {
    var b := StripDuckdb(base);
    StripEndsWell(base);
    SinkUriOf(base, key);
    hide StripDuckdb;
    var path := b + "/" + key;
    if prefix :| prefix in DUCKDB_PREFIXES && prefix <= path {
      SchemeIsNotPlain(b, key, prefix);
      SchemeShortens(path, prefix);
      LStripFixed(b);
    } else {
      NoScheme(path);
      MergerUriOf(b, key);
      CompareUris(b, key);
    }
  }

  /** With such a base, different keys are different objects. */
  lemma KeysStayApart(base: string, key: string, other: string)
    requires IsKey(key) && IsKey(other)
    ensures Plain(StripDuckdb(base)) && SinkUri(base, key) == MergerUri(base, other) ==> key == other
  {
    SameObjectExactly(base, other);
    SinkUriOf(base, key);
    SinkUriOf(base, other);
    hide StripDuckdb, LStrip, SinkUri, MergerUri;
    var stem := ROOT + LStrip(StripDuckdb(base)) + "/";
    assert (stem + key)[|stem|..] == key && (stem + other)[|stem|..] == other;
  }

  /** A path inside a bucket: it starts and ends with something else than a slash. */
  lemma SchemeGoes(scheme: string, rest: string)
    requires scheme == "gs://" || scheme == "gcs://" || scheme == "s3://"
    requires IsKey(rest)
    ensures StripDuckdb(scheme + rest) == rest && StripStorage(scheme + rest) == rest
  {
    var path := scheme + rest;
    assert path[|scheme|..] == rest && scheme <= path;
    assert scheme == "gs://" ==> path[0] == 'g' && path[1] == 's';
    assert scheme == "gcs://" ==> path[0] == 'g' && path[1] == 'c';
    assert scheme == "s3://" ==> path[0] == 's';
    Three(DUCKDB_PREFIXES, path);
    RStripFixed(rest);
    StripsAgree(path);
  }

  /** The URIs spelled out: whatever scheme the base has, the writer prints `gs://`, the base and the key,
      and the merger the same of a base whose segments are not empty. */
  lemma UrisSpelled(scheme: string, rest: string, key: string)
    requires scheme == "gs://" || scheme == "gcs://" || scheme == "s3://"
    requires IsKey(rest) && IsKey(key)
    ensures SinkUri(scheme + rest, key) == "gs://" + rest + "/" + key
    ensures Plain(rest) ==> MergerUri(scheme + rest, key) == "gs://" + rest + "/" + key
  {
    SchemeGoes(scheme, rest);
    SinkUriOf(scheme + rest, key);
    LStripFixed(rest);
    SameObjectExactly(scheme + rest, key);
    hide StripDuckdb, LStrip, SinkUri, MergerUri;
  }

  lemma BucketUri(scheme: string, bucket: string)
    requires scheme == "gs://" || scheme == "gcs://" || scheme == "s3://"
    requires bucket != "" && '/' !in bucket
    ensures ToUri(scheme + bucket) == "gs://" + bucket
  {
    assert bucket[0] in bucket && bucket[|bucket| - 1] in bucket;
    SchemeGoes(scheme, bucket);
    HeadOf(bucket, "");
    UriOfNormal(bucket, "");
    hide StripDuckdb, Uri, Head, Tail;
  }

  /** `to_uri` of a bucket and a key, with any scheme. */
  lemma ToUriSpelled(scheme: string, bucket: string, key: string)
    requires scheme == "gs://" || scheme == "gcs://" || scheme == "s3://"
    requires bucket != "" && '/' !in bucket && IsKey(key)
    ensures ToUri(scheme + (bucket + "/" + key)) == "gs://" + bucket + "/" + key
    ensures ToUri(scheme + bucket) == "gs://" + bucket
  {
    BucketUri(scheme, bucket);
    var rest := bucket + "/" + key;
    assert rest[0] == bucket[0] && bucket[0] in bucket && rest[|rest| - 1] == key[|key| - 1];
    SchemeGoes(scheme, rest);
    HeadOf(bucket, key);
    UriOfNormal(bucket, key);
    hide StripDuckdb, Uri, Head, Tail;
  }
}
