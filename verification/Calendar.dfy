/** Calendar dates and trade times, as the frames carry them: a trade time is a calendar day
    plus a time of day, and its `trade_time_date` column is that day. */
module Calendar {
  import opened Decimals
  import opened Ordering

  const DAY_MICROS: nat := 86_400_000_000

  datatype RawDate = RawDate(year: nat, month: nat, day: nat)

  type Date = d: RawDate | d.year < 10_000 && 1 <= d.month <= 12 && 1 <= d.day <= 31
    witness RawDate(1970, 1, 1)

  datatype RawInstant = RawInstant(date: Date, micros: nat)

  type Instant = t: RawInstant | t.micros < DAY_MICROS
    witness RawInstant(RawDate(1970, 1, 1), 0)

  function DateRank(d: Date): (n: nat) {
    (d.year * 100 + d.month) * 100 + d.day
  }

  predicate DateLeq(a: Date, b: Date) {
    DateRank(a) <= DateRank(b)
  }

  predicate InstantLeq(a: Instant, b: Instant) {
    DateRank(a.date) < DateRank(b.date) || (a.date == b.date && a.micros <= b.micros)
  }

  lemma DateTotalOrder()
    ensures TotalOrder(DateLeq) && TotalOrder(DateGeq)
  {}

  lemma InstantTotalOrder()
    ensures TotalOrder(InstantLeq)
  {}

  function SortedInstants(s: set<Instant>): (xs: seq<Instant>)
    ensures StrictlySorted(xs, InstantLeq)
    ensures forall x :: x in xs <==> x in s
    ensures |xs| == |s|
  {
    InstantTotalOrder();
    Sorted(s, InstantLeq)
  }

  predicate DateGeq(a: Date, b: Date) {
    DateLeq(b, a)
  }

  /** MIN and MAX over a date column. */
  function MinDate(s: set<Date>): (d: Date)
    requires s != {}
    ensures d in s && forall e | e in s :: DateLeq(d, e)
  {
    DateTotalOrder();
    Least(s, DateLeq)
  }

  function MaxDate(s: set<Date>): (d: Date)
    requires s != {}
    ensures d in s && forall e | e in s :: DateLeq(e, d)
  {
    DateTotalOrder();
    assert forall a: Date, b: Date :: DateGeq(a, b) <==> DateLeq(b, a);
    Least(s, DateGeq)
  }

  /** One decimal digit, and a number printed with exactly `width` digits. */
  function Digit(n: nat): (c: char)
    requires n < 10
    ensures '0' <= c <= '9'
  {
    '0' + n as char
  }

  function Power10(width: nat): (p: nat)
    ensures p > 0
  {
    if width == 0 then 1 else 10 * Power10(width - 1)
  }

  function Padded(n: nat, width: nat): (s: string)
    requires n < Power10(width)
    ensures |s| == width
    ensures forall c | c in s :: '0' <= c <= '9'
  {
    if width == 0 then "" else Padded(n / 10, width - 1) + [Digit(n % 10)]
  }

  lemma {:induction false} PaddedInjective(n: nat, m: nat, width: nat)
    requires n < Power10(width) && m < Power10(width)
    requires Padded(n, width) == Padded(m, width)
    ensures n == m
  {
    if width > 0 {
      var a, b := Padded(n / 10, width - 1), Padded(m / 10, width - 1);
      assert (a + [Digit(n % 10)])[..width - 1] == a && (b + [Digit(m % 10)])[..width - 1] == b;
      assert (a + [Digit(n % 10)])[width - 1] == (b + [Digit(m % 10)])[width - 1];
      PaddedInjective(n / 10, m / 10, width - 1);
    }
  }

  lemma Widths()
    ensures Power10(4) == 10_000 && Power10(2) == 100
  {
  }

  /** The `%Y-%m-%d` text of a date. */
  function DateText(d: Date): (s: string)
    ensures |s| == 10
  {
    Widths();
    Padded(d.year, 4) + "-" + Padded(d.month, 2) + "-" + Padded(d.day, 2)
  }

  lemma DateTextInjective(a: Date, b: Date)
    requires DateText(a) == DateText(b)
    ensures a == b
  {
    Widths();
    var s, t := DateText(a), DateText(b);
    assert s[..4] == Padded(a.year, 4) && t[..4] == Padded(b.year, 4);
    assert s[5..7] == Padded(a.month, 2) && t[5..7] == Padded(b.month, 2);
    assert s[8..10] == Padded(a.day, 2) && t[8..10] == Padded(b.day, 2);
    PaddedInjective(a.year, b.year, 4);
    PaddedInjective(a.month, b.month, 2);
    PaddedInjective(a.day, b.day, 2);
  }

  // ----- reading and comparing the text -----

  /** `text` is a year of four digits, a month of two and a day of two, in this order, with hyphens. */
  predicate Denotes(text: string, d: RawDate) {
    && |text| == 10 && text[4] == '-' && text[7] == '-'
    && Decimal(text[..4]) && Decimal(text[5..7]) && Decimal(text[8..])
    && d == RawDate(Number(text[..4]), Number(text[5..7]), Number(text[8..]))
  }

  lemma {:induction false} NumberOfPadded(n: nat, width: nat)
    requires n < Power10(width)
    ensures Number(Padded(n, width)) == n
  {
    if width > 0 {
      var a := Padded(n / 10, width - 1);
      assert (a + [Digit(n % 10)])[..width - 1] == a;
      NumberOfPadded(n / 10, width - 1);
    }
  }

  /** The printed date reads as the date. */
  lemma DateTextDenotes(d: Date)
    ensures Denotes(DateText(d), d)
  {
    Widths();
    var s := DateText(d);
    assert s[..4] == Padded(d.year, 4) && s[5..7] == Padded(d.month, 2) && s[8..] == Padded(d.day, 2);
    NumberOfPadded(d.year, 4);
    NumberOfPadded(d.month, 2);
    NumberOfPadded(d.day, 2);
  }

  lemma LexSplit(c: char, d: char, a: string, b: string)
    ensures LexLeq([c] + a, [d] + b) <==> c < d || (c == d && LexLeq(a, b))
  {
    assert ([c] + a)[1..] == a && ([d] + b)[1..] == b;
  }

  /** Texts of one length compare by their first parts, or where these are equal by the rest. */
  lemma {:induction false} LexByParts(a: string, b: string, x: string, y: string)
    requires |a| == |b|
    ensures LexLeq(a + x, b + y) <==> if a == b then LexLeq(x, y) else LexLeq(a, b)
  {
    if a == "" {
      assert a + x == x && b + y == y;
    } else {
      var s, t := a[1..], b[1..];
      assert a == [a[0]] + s && b == [b[0]] + t;
      assert a + x == [a[0]] + (s + x) && b + y == [b[0]] + (t + y);
      LexSplit(a[0], b[0], s + x, t + y);
      LexSplit(a[0], b[0], s, t);
      hide LexLeq;
      LexByParts(s, t, x, y);
    }
  }

  lemma {:induction false} PaddedOrder(n: nat, m: nat, width: nat)
    requires n < Power10(width) && m < Power10(width)
    ensures LexLeq(Padded(n, width), Padded(m, width)) <==> n <= m
  {
    if width > 0 {
      PaddedOrder(n / 10, m / 10, width - 1);
      LexByParts(Padded(n / 10, width - 1), Padded(m / 10, width - 1), [Digit(n % 10)], [Digit(m % 10)]);
      if n / 10 != m / 10 {
        if Padded(n / 10, width - 1) == Padded(m / 10, width - 1) { PaddedInjective(n / 10, m / 10, width - 1); }
      } else {
        OneLetter(Digit(n % 10), Digit(m % 10));
      }
    }
  }

  lemma OneLetter(c: char, d: char)
    ensures LexLeq([c], [d]) <==> c <= d
  {
    assert [c][1..] == "" && [d][1..] == "";
  }

  /** Printed dates sort like the dates. */
  lemma DateTextOrder(a: Date, b: Date)
    ensures LexLeq(DateText(a), DateText(b)) <==> DateLeq(a, b)
  {
    Widths();
    var y, z := Padded(a.year, 4), Padded(b.year, 4);
    var m, n := Padded(a.month, 2), Padded(b.month, 2);
    var d, e := Padded(a.day, 2), Padded(b.day, 2);
    hide Padded, LexLeq;
    assert DateText(a) == y + ("-" + (m + ("-" + d))) && DateText(b) == z + ("-" + (n + ("-" + e)));
    LexByParts(y, z, "-" + (m + ("-" + d)), "-" + (n + ("-" + e)));
    LexByParts("-", "-", m + ("-" + d), n + ("-" + e));
    LexByParts(m, n, "-" + d, "-" + e);
    LexByParts("-", "-", d, e);
    PaddedOrder(a.year, b.year, 4);
    PaddedOrder(a.month, b.month, 2);
    PaddedOrder(a.day, b.day, 2);
    PaddedSame(a.year, b.year, 4);
    PaddedSame(a.month, b.month, 2);
  }

  lemma PaddedSame(n: nat, m: nat, width: nat)
    requires n < Power10(width) && m < Power10(width)
    ensures Padded(n, width) == Padded(m, width) <==> n == m
  {
    if Padded(n, width) == Padded(m, width) { PaddedInjective(n, m, width); }
  }

  /** Trade times are in order by the text of the day, and within a day by the time of day. */
  lemma InstantOrder(a: Instant, b: Instant)
    ensures InstantLeq(a, b) <==>
      if a.date == b.date then a.micros <= b.micros else LexLeq(DateText(a.date), DateText(b.date))
  {
    DateTextOrder(a.date, b.date);
  }
}
