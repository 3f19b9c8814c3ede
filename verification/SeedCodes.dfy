/**
  * Company codes as the seed generator writes them and as the loader reads them back. The text in
  * between is a JSON array of integers in the grammar of sections 5 and 6 of RFC 8259.
  */
module SeedCodes {
  import opened Decimals
  import opened Wrappers

  // ----- decimal numbers -----

  predicate IsDigit(c: char) {
    '0' <= c <= '9'
  }

  function DigitChar(d: nat): (c: char)
    requires d < 10
    ensures IsDigit(c) && DigitValue(c) == d
  {
    '0' + d as char
  }

  function DigitValue(c: char): (d: nat)
    requires IsDigit(c)
    ensures d < 10
  {
    c as int - '0' as int
  }

  predicate AllDigits(s: string) {
    forall c | c in s :: IsDigit(c)
  }

  function NatText(n: nat): (s: string)
    ensures s != "" && AllDigits(s)
  {
    if n < 10 then [DigitChar(n)] else NatText(n / 10) + [DigitChar(n % 10)]
  }

  /** `str` of an integer. */
  function IntText(n: int): string {
    if n < 0 then "-" + NatText(-n) else NatText(n)
  }

  function Value(digits: string): nat
    requires AllDigits(digits)
  {
    if digits == "" then 0
    else 10 * Value(digits[..|digits| - 1]) + DigitValue(digits[|digits| - 1])
  }

  lemma {:induction false} ValueOfText(n: nat)
    ensures Value(NatText(n)) == n
  {
    if n < 10 {
      assert [DigitChar(n)][..0] == "";
    } else {
      ValueOfText(n / 10);
      assert (NatText(n / 10) + [DigitChar(n % 10)])[..|NatText(n)| - 1] == NatText(n / 10);
    }
  }

  lemma {:induction false} NoLeadingZero(n: nat)
    ensures NatText(n)[0] == '0' <==> n == 0
  {
    if n >= 10 {
      NoLeadingZero(n / 10);
    }
  }

  /** The text of an integer denotes it: a sign for negative ones, no needless zeros. */
  lemma {:induction false} NatTextDenotes(n: nat)
    ensures Decimal(NatText(n)) && Number(NatText(n)) == n
    ensures |NatText(n)| > 1 ==> NatText(n)[0] != '0'
  {
    NoLeadingZero(n);
    if n < 10 {
      assert [DigitChar(n)][..0] == "";
    } else {
      NatTextDenotes(n / 10);
      assert (NatText(n / 10) + [DigitChar(n % 10)])[..|NatText(n)| - 1] == NatText(n / 10);
    }
  }

  lemma IntTextDenotes(n: int)
    ensures var text := IntText(n);
            if n < 0 then text[..1] == "-" && Decimal(text[1..]) && Number(text[1..]) == -n
            else Decimal(text) && Number(text) == n
  {
    NatTextDenotes(if n < 0 then -n else n);
  }

  // ----- the generator -----

  /** `chunk_codes`, from index `i` on. */
  function ChunksFrom(codes: seq<int>, n: nat, i: nat): seq<seq<int>>
    requires n > 0
    decreases |codes| - i
  {
    if i >= |codes| then []
    else [codes[i..if i + n < |codes| then i + n else |codes|]] + ChunksFrom(codes, n, i + n)
  }

  /** `chunk_codes`; nothing stands for the `ValueError`. */
  function ChunkCodes(codes: seq<int>, n: int): Option<seq<seq<int>>> {
    if n < 1 then None else Some(ChunksFrom(codes, n, 0))
  }

  function Joined(codes: seq<int>): string {
    if codes == [] then ""
    else if |codes| == 1 then IntText(codes[0])
    else IntText(codes[0]) + ", " + Joined(codes[1..])
  }

  /** `code_json`. */
  function CodeJson(codes: seq<int>): string {
    "[" + Joined(codes) + "]"
  }

  /** The text of a list: brackets around the texts of the integers, with a comma and a space between. */
  lemma CodeJsonText(c: int)
    ensures CodeJson([]) == "[]" && CodeJson([c]) == "[" + IntText(c) + "]"
  {
  }

  lemma {:induction false} JoinedText(a: seq<int>, b: seq<int>)
    requires a != [] && b != []
    ensures Joined(a + b) == Joined(a) + ", " + Joined(b)
  {
    hide IntText;
    if |a| == 1 {
      assert (a + b)[0] == a[0] && (a + b)[1..] == b;
    } else {
      assert (a + b)[0] == a[0] && (a + b)[1..] == a[1..] + b;
      JoinedText(a[1..], b);
      var x, y, z := IntText(a[0]), Joined(a[1..]), Joined(b);
      assert x + ", " + (y + ", " + z) == (x + ", " + y) + ", " + z;
    }
  }

  // ----- the loader -----

  predicate IsWs(c: char) {
    c == ' ' || c == '\t' || c == '\n' || c == '\r'
  }

  function SkipWs(s: string): (r: string)
    ensures |r| <= |s| && (r != "" ==> !IsWs(r[0]))
  {
    if s != "" && IsWs(s[0]) then SkipWs(s[1..]) else s
  }

  /** The longest run of digits at the start. */
  function Digits(s: string): (r: string)
    ensures r <= s && AllDigits(r) && (|r| < |s| ==> !IsDigit(s[|r|]))
  {
    if s != "" && IsDigit(s[0]) then [s[0]] + Digits(s[1..]) else ""
  }

  /** An unsigned integer and what follows it: no leading zeros, no fraction, no exponent. */
  function ParseNat(s: string): (r: Option<(int, string)>)
    ensures r.Some? ==> |r.value.1| < |s|
  {
    var digits := Digits(s);
    var rest := s[|digits|..];
    if digits == "" || (digits[0] == '0' && |digits| > 1) then None
    else if rest != "" && rest[0] in {'.', 'e', 'E'} then None
    else Some((Value(digits), rest))
  }

  function ParseInt(s: string): (r: Option<(int, string)>)
    ensures r.Some? ==> |r.value.1| < |s|
  {
    if s != "" && s[0] == '-' then
      var r := ParseNat(s[1..]);
      if r.Some? then Some((-r.value.0, r.value.1)) else None
    else
      ParseNat(s)
  }

  /** One or more integers, the closing bracket, and nothing but white space after it. */
  function ParseElements(s: string): Option<seq<int>>
    decreases |s|
  {
    var first := ParseInt(SkipWs(s));
    if first.None? then None
    else
      var rest := SkipWs(first.value.1);
      if rest == "" then None
      else if rest[0] == ',' then
        var others := ParseElements(rest[1..]);
        if others.Some? then Some([first.value.0] + others.value) else None
      else if rest[0] == ']' && SkipWs(rest[1..]) == "" then Some([first.value.0])
      else None
  }

  /** `json.loads` of a text that starts with a bracket, as far as arrays of integers go. */
  function ParseArray(s: string): Option<seq<int>>
    requires s != "" && s[0] == '['
  {
    var rest := SkipWs(s[1..]);
    if rest != "" && rest[0] == ']' && SkipWs(rest[1..]) == "" then Some([]) else ParseElements(rest)
  }

  function Texts(codes: seq<int>): seq<string> {
    seq(|codes|, i requires 0 <= i < |codes| => IntText(codes[i]))
  }

  /** What `str.strip` removes. */
  predicate IsSpace(c: char) {
    || '\U{0009}' <= c <= '\U{000D}' || '\U{001C}' <= c <= '\U{0020}' || c == '\U{0085}' || c == '\U{00A0}'
    || c == '\U{1680}' || '\U{2000}' <= c <= '\U{200A}' || '\U{2028}' <= c <= '\U{2029}' || c == '\U{202F}'
    || c == '\U{205F}' || c == '\U{3000}'
  }

  function Stripped(s: string): string
    decreases |s|
  {
    if s == "" then ""
    else if IsSpace(s[0]) then Stripped(s[1..])
    else if IsSpace(s[|s| - 1]) then Stripped(s[..|s| - 1])
    else s
  }

  /** The items that are not blank, stripped. */
  function Kept(items: seq<string>): seq<string> {
    if items == [] then []
    else (if Stripped(items[0]) == "" then [] else [Stripped(items[0])]) + Kept(items[1..])
  }

  /** `_parse_code_list` of a string; nothing stands for an exception. */
  function ParseCodeList(code: string): Option<seq<string>> {
    if code != "" && code[0] == '[' then
      var codes := ParseArray(code);
      if codes.Some? then Some(Kept(Texts(codes.value))) else None
    else
      Some(Kept([code]))
  }

  /** `str.strip`: the part between the white space at both ends. */
  lemma {:induction false} StrippedIs(s: string) returns (i: nat, j: nat)
    ensures i <= j <= |s| && Stripped(s) == s[i..j]
    ensures forall k | 0 <= k < i || j <= k < |s| :: IsSpace(s[k])
    ensures i < j ==> !IsSpace(s[i]) && !IsSpace(s[j - 1])
    decreases |s|
  {
    hide IsSpace;
    if s == "" {
      i, j := 0, 0;
    } else if IsSpace(s[0]) {
      i, j := StrippedIs(s[1..]);
      assert s[1..][i..j] == s[i + 1..j + 1];
      assert forall k | 0 < k < |s| :: s[k] == s[1..][k - 1];
      i, j := i + 1, j + 1;
    } else if IsSpace(s[|s| - 1]) {
      i, j := StrippedIs(s[..|s| - 1]);
      assert s[..|s| - 1][i..j] == s[i..j];
    } else {
      i, j := 0, |s|;
    }
  }

  lemma KeptOne(code: string)
    ensures Kept([code]) == if Stripped(code) == "" then [] else [Stripped(code)]
  {
    hide Stripped;
    assert [code][1..] == [];
  }

  /** A code that is no list is one code, stripped, or none if it is blank. */
  lemma PlainCode(code: string)
    requires code == "" || code[0] != '['
    ensures ParseCodeList(code) == Some(if Stripped(code) == "" then [] else [Stripped(code)])
    ensures (forall c | c in code :: !IsSpace(c)) && code != "" ==> ParseCodeList(code) == Some([code])
  {
    KeptOne(code);
    if (forall c | c in code :: !IsSpace(c)) && code != "" {
      assert code[0] in code && code[|code| - 1] in code;
    }
  }

  // ----- the round trip -----

  lemma {:induction false} DigitsOf(a: string, b: string)
    requires AllDigits(a) && (b == "" || !IsDigit(b[0]))
    ensures Digits(a + b) == a
  {
    if a == "" {
      assert a + b == b;
    } else {
      assert (a + b)[1..] == a[1..] + b;
      assert a[0] in a && forall c | c in a[1..] :: c in a;
      DigitsOf(a[1..], b);
    }
  }

  /** What may follow a number here. */
  predicate Ends(b: string) {
    b != "" && (b[0] == ',' || b[0] == ']')
  }

  /** How a number starts. */
  predicate Opens(s: string) {
    s != "" && !IsWs(s[0]) && s[0] != ']'
  }

  lemma ParseNatText(n: nat, b: string)
    requires Ends(b)
    ensures ParseNat(NatText(n) + b) == Some((n, b))
  {
    var a := NatText(n);
    DigitsOf(a, b);
    ValueOfText(n);
    NoLeadingZero(n);
    assert (a + b)[|a|..] == b;
    if n >= 10 {
    } else {
      assert |a| == 1;
    }
  }

  lemma ParseIntText(n: int, b: string)
    requires Ends(b)
    ensures ParseInt(IntText(n) + b) == Some((n, b)) && Opens(IntText(n) + b)
  {
    if n < 0 {
      var a := NatText(-n);
      assert (("-" + a) + b)[1..] == a + b;
      ParseNatText(-n, b);
    } else {
      ParseNatText(n, b);
      var a := NatText(n);
      assert a[0] in a && (a + b)[0] == a[0];
    }
  }

  lemma ParseFirst(n: int, rest: string)
    requires Ends(rest)
    ensures rest[0] == ',' ==>
              ParseElements(IntText(n) + rest)
              == var others := ParseElements(rest[1..]); if others.Some? then Some([n] + others.value) else None
    ensures rest[0] == ']' ==>
              ParseElements(IntText(n) + rest) == if SkipWs(rest[1..]) == "" then Some([n]) else None
  {
    ParseIntText(n, rest);
    hide ParseInt, IntText;
    assert SkipWs(IntText(n) + rest) == IntText(n) + rest && SkipWs(rest) == rest;
  }

  lemma ParseNext(n: int, tail: string)
    requires Opens(tail)
    ensures var others := ParseElements(tail);
            ParseElements(IntText(n) + (", " + tail)) == if others.Some? then Some([n] + others.value) else None
    ensures Opens(IntText(n) + (", " + tail))
  {
    var rest := ", " + tail;
    assert rest[1..] == " " + tail;
    SkipOne(tail);
    ParseFirst(n, rest);
    ParseIntText(n, rest);
    hide ParseElements, IntText;
  }

  lemma JoinedStep(codes: seq<int>, after: string)
    requires |codes| > 1
    ensures Joined(codes) + ("]" + after) == IntText(codes[0]) + (", " + (Joined(codes[1..]) + ("]" + after)))
  {
    hide IntText;
    var a, b, c := IntText(codes[0]), Joined(codes[1..]), "]" + after;
    assert (a + ", " + b) + c == a + (", " + (b + c));
  }

  /** The elements are read up to the bracket; what follows it must be blank. */
  lemma {:induction false} ParseJoined(codes: seq<int>, after: string)
    requires codes != []
    ensures ParseElements(Joined(codes) + ("]" + after)) == if SkipWs(after) == "" then Some(codes) else None
    ensures Opens(Joined(codes) + ("]" + after))
  {
    hide ParseElements, IntText, SkipWs;
    var rest := "]" + after;
    assert rest[1..] == after;
    if |codes| == 1 {
      ParseFirst(codes[0], rest);
      ParseIntText(codes[0], rest);
      assert codes == [codes[0]];
    } else {
      JoinedStep(codes, after);
      hide Joined;
      ParseJoined(codes[1..], after);
      ParseNext(codes[0], Joined(codes[1..]) + rest);
      assert codes == [codes[0]] + codes[1..];
    }
  }

  lemma SkipOne(s: string)
    requires s != "" && !IsWs(s[0])
    ensures SkipWs(" " + s) == s && SkipWs(s) == s
    ensures ParseElements(" " + s) == ParseElements(s)
  {
  }

  /** A list with something behind it is refused, unless that is blank. */
  lemma ParseJson(codes: seq<int>, after: string)
    ensures ParseArray(CodeJson(codes) + after) == if SkipWs(after) == "" then Some(codes) else None
  {
    hide ParseElements, IntText;
    var j := Joined(codes);
    assert (("[" + j + "]") + after)[1..] == j + ("]" + after);
    if codes == [] {
      assert j + ("]" + after) == "]" + after && ("]" + after)[1..] == after;
      assert SkipWs("]" + after) == "]" + after;
      if SkipWs(after) != "" { NoElements(after); }
    } else {
      ParseJoined(codes, after);
      hide Joined;
      assert SkipWs(j + ("]" + after)) == j + ("]" + after);
    }
  }

  lemma NoElements(after: string)
    ensures ParseElements("]" + after) == None
  {
    assert SkipWs("]" + after) == "]" + after;
    assert Digits("]" + after) == "";
  }

  /** Numbers with needless zeros are refused. */
  lemma LeadingZeroRefused(digits: string, b: string)
    requires digits != "" && AllDigits(digits) && (b == "" || !IsDigit(b[0]))
    ensures ParseNat("0" + digits + b) == None
  {
    var a := "0" + digits;
    assert AllDigits(a);
    DigitsOf(a, b);
  }

  lemma {:induction false} NothingIsBlank(codes: seq<int>)
    ensures Kept(Texts(codes)) == Texts(codes)
  {
    hide Stripped;
    if codes == [] {
    } else {
      NothingIsBlank(codes[1..]);
      TextIsClean(codes[0]);
      hide IntText;
      var texts := Texts(codes);
      assert texts[0] == IntText(codes[0]) && texts[1..] == Texts(codes[1..]);
    }
  }

  lemma TextIsClean(n: int)
    ensures Stripped(IntText(n)) == IntText(n) != ""
  {
    var s := IntText(n);
    assert forall c | c in s :: IsDigit(c) || c == '-';
    assert s[0] in s && s[|s| - 1] in s;
  }

  /** The loader reads what the generator wrote, for every list of integers. */
  lemma ParseInvertsPrint(codes: seq<int>)
    ensures ParseCodeList(CodeJson(codes)) == Some(Texts(codes))
  {
    ParseJson(codes, "");
    assert CodeJson(codes) + "" == CodeJson(codes);
    NothingIsBlank(codes);
  }

  function Concat<T>(parts: seq<seq<T>>): seq<T> {
    if parts == [] then [] else parts[0] + Concat(parts[1..])
  }

  /** Print every chunk and read every text; nothing if any of them is refused. */
  function ReadBack(chunks: seq<seq<int>>): Option<seq<seq<string>>> {
    if chunks == [] then Some([])
    else
      var first := ParseCodeList(CodeJson(chunks[0]));
      var rest := ReadBack(chunks[1..]);
      if first.Some? && rest.Some? then Some([first.value] + rest.value) else None
  }

  lemma TextsAppend(a: seq<int>, b: seq<int>)
    ensures Texts(a + b) == Texts(a) + Texts(b)
  {
  }

  lemma {:induction false} ReadBackChunks(chunks: seq<seq<int>>)
    ensures ReadBack(chunks).Some? && Concat(ReadBack(chunks).value) == Texts(Concat(chunks))
  {
    if chunks == [] {
    } else {
      ParseInvertsPrint(chunks[0]);
      ReadBackChunks(chunks[1..]);
      TextsAppend(chunks[0], Concat(chunks[1..]));
      var rest := ReadBack(chunks[1..]).value;
      assert ([Texts(chunks[0])] + rest)[1..] == rest;
    }
  }

  /** Every chunk but the last has exactly `n` codes, none is empty, and together they are the list. */
  ghost predicate Chunked(chunks: seq<seq<int>>, codes: seq<int>, n: nat) {
    && Concat(chunks) == codes
    && (forall k | 0 <= k < |chunks| :: 0 < |chunks[k]| <= n)
    && (forall k | 0 <= k < |chunks| - 1 :: |chunks[k]| == n)
  }

  lemma {:induction false} ChunksFromOk(codes: seq<int>, n: nat, i: nat)
    requires n > 0 && i <= |codes|
    ensures Chunked(ChunksFrom(codes, n, i), codes[i..], n)
    decreases |codes| - i
  {
    var chunks := ChunksFrom(codes, n, i);
    if i == |codes| {
    } else if i + n < |codes| {
      ChunksFromOk(codes, n, i + n);
      assert chunks[1..] == ChunksFrom(codes, n, i + n);
      assert codes[i..] == codes[i..i + n] + codes[i + n..];
    } else {
      assert ChunksFrom(codes, n, i + n) == [];
      assert chunks[1..] == [];
    }
  }

  /**
    * For every list and every chunk size from 1 on, printing the chunks and reading them back gives
    * the decimal texts of the list in order; smaller sizes are refused.
    */
  lemma SeedRoundTrip(codes: seq<int>, n: int)
    ensures ChunkCodes(codes, n).Some? <==> n >= 1
    ensures n >= 1 ==>
              && Chunked(ChunkCodes(codes, n).value, codes, n)
              && ReadBack(ChunkCodes(codes, n).value).Some?
              && Concat(ReadBack(ChunkCodes(codes, n).value).value) == Texts(codes)
  {
    if n >= 1 {
      ChunksFromOk(codes, n, 0);
      assert codes[0..] == codes;
      ReadBackChunks(ChunkCodes(codes, n).value);
    }
  }
}
