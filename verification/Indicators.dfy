/**
  * RSI, EMA, MACD and BIAS of a price series, each as its value at the last price. Over the reals,
  * and RSI before it is rounded.
  */
module Indicators {
  import opened MovingAverage
  import opened Wrappers

  type Prices = seq<real>

  function Transformed(c: real, b: real, prices: Prices): (r: Prices)
    ensures |r| == |prices|
  {
    seq(|prices|, i requires 0 <= i < |prices| => Line(c, b, prices[i]))
  }

  // ----- RSI -----

  /** `diff`: missing at the first price. */
  function Change(prices: Prices, i: nat): Option<real>
    requires i < |prices|
  {
    if i == 0 then None else Some(prices[i] - prices[i - 1])
  }

  function Up(x: Option<real>): Option<real> {
    if x.None? then None else Some(if x.value > 0.0 then x.value else 0.0)
  }

  function Down(x: Option<real>): Option<real> {
    if x.None? then None else Some(if x.value < 0.0 then -x.value else 0.0)
  }

  function Wins(prices: Prices): Series {
    seq(|prices|, i requires 0 <= i < |prices| => Up(Change(prices, i)))
  }

  function Losses(prices: Prices): Series {
    seq(|prices|, i requires 0 <= i < |prices| => Down(Change(prices, i)))
  }

  /** The recursive average with `alpha = 1 / n`. */
  function Average(n: nat, xs: Series): Option<real>
    requires n >= 1
  {
    Ewm(1.0 / n as real, false, n, xs)
  }

  predicate Nonnegative(x: Option<real>) {
    AtLeast(0.0, x)
  }

  /** `100 - 100 / (1 + win / loss)`; a zero loss makes the quotient infinite, or undefined with a zero win. */
  function Index(win: Option<real>, loss: Option<real>): Option<real>
    requires Nonnegative(win) && Nonnegative(loss)
  {
    if win.None? || loss.None? then None
    else if loss.value == 0.0 then
      if win.value == 0.0 then None else Some(100.0)
    else
      QuotientNonnegative(win.value, loss.value);
      Some(100.0 - 100.0 / (1.0 + win.value / loss.value))
  }

  function Rsi(n: nat, prices: Prices): Option<real>
    requires n >= 1
  {
    AveragesNonnegative(n, prices);
    Index(Average(n, Wins(prices)), Average(n, Losses(prices)))
  }

  lemma QuotientNonnegative(w: real, l: real)
    requires w >= 0.0 && l > 0.0
    ensures w / l >= 0.0
  {
  }

  lemma AlphaOk(n: nat)
    requires n >= 1
    ensures IsAlpha(1.0 / n as real) && (n >= 2 ==> 1.0 / n as real < 1.0)
  {
  }

  lemma AveragesNonnegative(n: nat, prices: Prices)
    requires n >= 1
    ensures Nonnegative(Average(n, Wins(prices))) && Nonnegative(Average(n, Losses(prices)))
  {
    AlphaOk(n);
    FoldBetween(1.0 / n as real, false, Wins(prices), 0.0, 0.0);
    FoldBetween(1.0 / n as real, false, Losses(prices), 0.0, 0.0);
  }

  /** The index is the share of the wins in all movement. */
  lemma IndexIsShare(w: real, l: real)
    requires w >= 0.0 && l >= 0.0
    ensures w + l == 0.0 ==> Index(Some(w), Some(l)) == None
    ensures w + l > 0.0 ==> Index(Some(w), Some(l)) == Some(100.0 * w / (w + l))
  {
    if l > 0.0 {
      var rs := w / l;
      QuotientNonnegative(w, l);
      assert rs * l == w;
      Share(w, l, rs);
    } else if w > 0.0 {
      DivUnique(100.0 * w, w, 100.0);
    }
  }

  lemma Share(w: real, l: real, rs: real)
    requires w >= 0.0 && l > 0.0 && rs >= 0.0 && rs * l == w
    ensures 100.0 - 100.0 / (1.0 + rs) == 100.0 * w / (w + l)
  {
    var q := 100.0 / (1.0 + rs);
    assert q * (1.0 + rs) == 100.0;
    assert q * (w + l) == 100.0 * l by {
      assert w + l == (1.0 + rs) * l;
      assert q * ((1.0 + rs) * l) == (q * (1.0 + rs)) * l;
    }
    assert (100.0 - q) * (w + l) == 100.0 * w;
    DivUnique(100.0 * w, w + l, 100.0 - q);
  }

  /** Where it is defined, RSI lies between 0 and 100. */
  lemma RsiInRange(n: nat, prices: Prices)
    requires n >= 1 && Rsi(n, prices).Some?
    ensures 0.0 <= Rsi(n, prices).value <= 100.0
  {
    AveragesNonnegative(n, prices);
    var win, loss := Average(n, Wins(prices)), Average(n, Losses(prices));
    IndexIsShare(win.value, loss.value);
    ShareInRange(win.value, loss.value);
  }

  lemma ShareInRange(w: real, l: real)
    requires w >= 0.0 && l >= 0.0
    ensures w + l > 0.0 ==> 0.0 <= 100.0 * w / (w + l) <= 100.0
  {
  }

  /** Multiplying all prices by a positive number changes nothing. */
  lemma RsiScales(n: nat, prices: Prices, c: real)
    requires n >= 1 && c > 0.0
    ensures Rsi(n, Transformed(c, 0.0, prices)) == Rsi(n, prices)
  {
    var scaled := Transformed(c, 0.0, prices);
    ChangesScale(prices, c);
    AlphaOk(n);
    EwmAffine(1.0 / n as real, false, n, Wins(prices), c, 0.0);
    EwmAffine(1.0 / n as real, false, n, Losses(prices), c, 0.0);
    AveragesNonnegative(n, prices);
    AveragesNonnegative(n, scaled);
    var win, loss := Average(n, Wins(prices)), Average(n, Losses(prices));
    hide Ewm, Index;
    if win.Some? && loss.Some? {
      IndexScales(win.value, loss.value, c);
    } else {
      NoIndex(win, loss);
      NoIndex(Average(n, Wins(scaled)), Average(n, Losses(scaled)));
    }
  }

  lemma NoIndex(win: Option<real>, loss: Option<real>)
    requires Nonnegative(win) && Nonnegative(loss)
    ensures win.None? || loss.None? ==> Index(win, loss) == None
  {
  }

  lemma IndexScales(w: real, l: real, c: real)
    requires w >= 0.0 && l >= 0.0 && c > 0.0
    ensures Line(c, 0.0, w) >= 0.0 && Line(c, 0.0, l) >= 0.0
    ensures Index(Some(Line(c, 0.0, w)), Some(Line(c, 0.0, l))) == Index(Some(w), Some(l))
  {
    assert c * w >= 0.0 && c * l >= 0.0;
    assert c * l == 0.0 <==> l == 0.0;
    assert c * w == 0.0 <==> w == 0.0;
    if l > 0.0 {
      var q := w / l;
      assert q * (c * l) == c * (q * l) == c * w;
      DivUnique(c * w, c * l, q);
    }
  }

  lemma ChangesScale(prices: Prices, c: real)
    requires c > 0.0
    ensures Wins(Transformed(c, 0.0, prices)) == Affine(c, 0.0, Wins(prices))
    ensures Losses(Transformed(c, 0.0, prices)) == Affine(c, 0.0, Losses(prices))
  {
    var scaled := Transformed(c, 0.0, prices);
    forall i | 0 <= i < |prices|
      ensures Up(Change(scaled, i)) == Moved(c, 0.0, Up(Change(prices, i)))
      ensures Down(Change(scaled, i)) == Moved(c, 0.0, Down(Change(prices, i)))
    {
      if i > 0 {
        MoveScales(prices[i - 1], prices[i], c);
      }
    }
  }

  lemma MoveScales(p: real, q: real, c: real)
    requires c > 0.0
    ensures var d, e := q - p, Line(c, 0.0, q) - Line(c, 0.0, p);
            && Up(Some(e)) == Moved(c, 0.0, Up(Some(d))) && Down(Some(e)) == Moved(c, 0.0, Down(Some(d)))
  {
    LinesDiffer(q, p, c, 0.0);
    LineSign(q - p, c);
    hide Line;
  }

  lemma LineSign(d: real, c: real)
    requires c > 0.0
    ensures Line(c, 0.0, d) > 0.0 <==> d > 0.0
    ensures Line(c, 0.0, d) < 0.0 <==> d < 0.0
    ensures Line(c, 0.0, -d) == -Line(c, 0.0, d) && Line(c, 0.0, 0.0) == 0.0
  {
  }

  /** Reflected prices turn RSI around. */
  lemma RsiReflects(n: nat, prices: Prices, c: real)
    requires n >= 1
    ensures Rsi(n, Transformed(-1.0, c, prices)) == Moved(-1.0, 100.0, Rsi(n, prices))
  {
    var reflected := Transformed(-1.0, c, prices);
    ChangesReflect(prices, c);
    AveragesNonnegative(n, prices);
    AveragesNonnegative(n, reflected);
    var win, loss := Average(n, Wins(prices)), Average(n, Losses(prices));
    hide Average, Index;
    if win.Some? && loss.Some? {
      IndexIsShare(win.value, loss.value);
      IndexIsShare(loss.value, win.value);
      SharesAddUp(win.value, loss.value);
    } else {
      NoIndex(win, loss);
      NoIndex(loss, win);
    }
  }

  lemma SharesAddUp(w: real, l: real)
    requires w >= 0.0 && l >= 0.0
    ensures w + l > 0.0 ==> 100.0 * l / (l + w) == Line(-1.0, 100.0, 100.0 * w / (w + l))
  {
    if w + l > 0.0 {
      var d, q := w + l, 100.0 * w / (w + l);
      assert q * d == 100.0 * w;
      assert (100.0 - q) * d == 100.0 * d - q * d == 100.0 * l;
      assert l + w == d;
      DivUnique(100.0 * l, d, 100.0 - q);
    }
  }

  lemma ChangesReflect(prices: Prices, c: real)
    ensures Wins(Transformed(-1.0, c, prices)) == Losses(prices) && Losses(Transformed(-1.0, c, prices)) == Wins(prices)
  {
  }

  predicate Rises(prices: Prices, i: nat)
    requires i < |prices|
  {
    i > 0 && prices[i - 1] < prices[i]
  }

  predicate Falls(prices: Prices, i: nat)
    requires i < |prices|
  {
    i > 0 && prices[i] < prices[i - 1]
  }

  ghost predicate EverRose(prices: Prices) {
    exists i | 0 <= i < |prices| :: Rises(prices, i)
  }

  ghost predicate EverFell(prices: Prices) {
    exists i | 0 <= i < |prices| :: Falls(prices, i)
  }

  lemma {:induction false} ChangesCounted(xs: Series)
    requires forall i | 0 <= i < |xs| :: xs[i].Some? <==> i > 0
    ensures Present(xs) == if xs == [] then 0 else |xs| - 1
  {
    if xs == [] {
    } else {
      ChangesCounted(xs[..|xs| - 1]);
    }
  }

  /** Both averages exist from price `n` on; for `n >= 2` they are zero exactly if there was no such move. */
  lemma AveragesOf(n: nat, prices: Prices)
    requires n >= 1
    ensures Average(n, Wins(prices)).Some? <==> |prices| > n
    ensures Average(n, Losses(prices)).Some? <==> |prices| > n
    ensures |prices| > n && n >= 2 ==>
              && (Average(n, Wins(prices)).value > 0.0 <==> EverRose(prices))
              && (Average(n, Losses(prices)).value > 0.0 <==> EverFell(prices))
  {
    AlphaOk(n);
    var alpha := 1.0 / n as real;
    ChangesCounted(Wins(prices));
    ChangesCounted(Losses(prices));
    SeenIsPresent(alpha, false, Wins(prices));
    SeenIsPresent(alpha, false, Losses(prices));
    hide Fold, Blend;
    if n >= 2 {
      PositiveExactly(alpha, false, Wins(prices));
      PositiveExactly(alpha, false, Losses(prices));
      RoseIsWin(prices);
      FellIsLoss(prices);
    }
  }

  lemma RoseIsWin(prices: Prices)
    ensures EverRose(prices) <==> exists i | 0 <= i < |prices| :: Wins(prices)[i].Some? && Wins(prices)[i].value > 0.0
  {
    if i: nat :| i < |prices| && Rises(prices, i) {
      assert Wins(prices)[i].Some? && Wins(prices)[i].value > 0.0;
    }
    if i :| 0 <= i < |prices| && Wins(prices)[i].Some? && Wins(prices)[i].value > 0.0 {
      assert Rises(prices, i);
    }
  }

  lemma FellIsLoss(prices: Prices)
    ensures EverFell(prices) <==>
      exists i | 0 <= i < |prices| :: Losses(prices)[i].Some? && Losses(prices)[i].value > 0.0
  {
    if i: nat :| i < |prices| && Falls(prices, i) {
      assert Losses(prices)[i].Some? && Losses(prices)[i].value > 0.0;
    }
    if i :| 0 <= i < |prices| && Losses(prices)[i].Some? && Losses(prices)[i].value > 0.0 {
      assert Falls(prices, i);
    }
  }

  lemma IndexAtEnds(w: real, l: real)
    requires w >= 0.0 && l >= 0.0
    ensures Index(Some(w), Some(l)).Some? <==> w > 0.0 || l > 0.0
    ensures Index(Some(w), Some(l)) == Some(100.0) <==> w > 0.0 && l == 0.0
    ensures Index(Some(w), Some(l)) == Some(0.0) <==> w == 0.0 && l > 0.0
  {
  }

  /**
    * For a period of at least two, RSI is 100 exactly when no price fell and some rose, 0 exactly when
    * none rose and some fell, and undefined exactly before price `n` and while all prices are equal.
    */
  lemma RsiAtEnds(n: nat, prices: Prices)
    requires n >= 2
    ensures Rsi(n, prices).Some? <==> |prices| > n && (EverRose(prices) || EverFell(prices))
    ensures |prices| > n ==> (Rsi(n, prices) == Some(100.0) <==> EverRose(prices) && !EverFell(prices))
    ensures |prices| > n ==> (Rsi(n, prices) == Some(0.0) <==> EverFell(prices) && !EverRose(prices))
  {
    AveragesNonnegative(n, prices);
    AveragesOf(n, prices);
    var win, loss := Average(n, Wins(prices)), Average(n, Losses(prices));
    hide Average, Index, EverRose, EverFell;
    NoIndex(win, loss);
    if |prices| > n {
      IndexAtEnds(win.value, loss.value);
    }
  }

  /** For a period of one, RSI only says which way the last price went. */
  lemma RsiOfOne(prices: Prices)
    requires |prices| > 1
    ensures Rsi(1, prices) == if Rises(prices, |prices| - 1) then Some(100.0)
                              else if Falls(prices, |prices| - 1) then Some(0.0) else None
  {
  }

  /** The averages behind RSI are weighted sums of all moves so far, and the weights add up to one. */
  lemma AveragesAreWeightedSums(n: nat, prices: Prices)
    requires n >= 1 && |prices| > n
    ensures var alpha, m := 1.0 / n as real, |prices| - 1;
            && Average(n, Wins(prices)) == Some(WeightedSum(alpha, false, m, Wins(prices)[1..]))
            && Average(n, Losses(prices)) == Some(WeightedSum(alpha, false, m, Losses(prices)[1..]))
            && WeightSum(alpha, false, m, Wins(prices)[1..]) == WeightSum(alpha, false, m, Losses(prices)[1..]) == 1.0
  {
    AlphaOk(n);
    var alpha, wins, losses := 1.0 / n as real, Wins(prices)[1..], Losses(prices)[1..];
    assert Wins(prices) == [None] + wins && Losses(prices) == [None] + losses;
    LeadingGap(alpha, wins);
    LeadingGap(alpha, losses);
    RecursiveIsWeightedSum(alpha, wins);
    RecursiveIsWeightedSum(alpha, losses);
  }

  lemma {:induction false} LeadingGap(alpha: real, xs: Series)
    requires IsAlpha(alpha)
    ensures Fold(alpha, false, [None] + xs) == Fold(alpha, false, xs)
  {
    hide Blend;
    var ys := [None] + xs;
    if xs == [] {
      assert ys[..0] == [];
    } else {
      LeadingGap(alpha, xs[..|xs| - 1]);
      assert ys[..|ys| - 1] == [None] + xs[..|xs| - 1];
    }
  }

  // ----- EMA, MACD and BIAS -----

  function Closes(prices: Prices): Series {
    seq(|prices|, i requires 0 <= i < |prices| => Some(prices[i]))
  }

  /** `alpha` of a span. */
  function SpanAlpha(span: nat): (alpha: real)
    requires span >= 1
    ensures IsAlpha(alpha)
  {
    2.0 / (span as real + 1.0)
  }

  /** `ewm` with a span that is also the least number of entries. */
  function Smoothed(span: nat, xs: Series): Option<real>
    requires span >= 1
  {
    Ewm(SpanAlpha(span), true, span, xs)
  }

  function Ema(span: nat, prices: Prices): Option<real>
    requires span >= 1
  {
    Smoothed(span, Closes(prices))
  }

  function Minus(x: Option<real>, y: Option<real>): Option<real> {
    if x.Some? && y.Some? then Some(x.value - y.value) else None
  }

  function Macd(fast: nat, slow: nat, prices: Prices): Option<real>
    requires fast >= 1 && slow >= 1
  {
    Minus(Ema(fast, prices), Ema(slow, prices))
  }

  /** The column: the value at each price depends on the prices up to it. */
  function MacdColumn(fast: nat, slow: nat, prices: Prices): Series
    requires fast >= 1 && slow >= 1
  {
    seq(|prices|, i requires 0 <= i < |prices| => Macd(fast, slow, prices[..i + 1]))
  }

  function Signal(fast: nat, slow: nat, span: nat, prices: Prices): Option<real>
    requires fast >= 1 && slow >= 1 && span >= 1
  {
    Smoothed(span, MacdColumn(fast, slow, prices))
  }

  function Hist(fast: nat, slow: nat, span: nat, prices: Prices): Option<real>
    requires fast >= 1 && slow >= 1 && span >= 1
  {
    Minus(Macd(fast, slow, prices), Signal(fast, slow, span, prices))
  }

  /** Nothing where the average is missing or zero. */
  function Bias(span: nat, prices: Prices): Option<real>
    requires span >= 1 && prices != []
  {
    var ema := Ema(span, prices);
    if ema.None? || ema.value == 0.0 then None
    else Some((prices[|prices| - 1] - ema.value) / ema.value * 100.0)
  }

  lemma ClosesTransform(prices: Prices, c: real, b: real)
    ensures Closes(Transformed(c, b, prices)) == Affine(c, b, Closes(prices))
  {
  }

  /** EMA commutes with every affine change of the prices. */
  lemma EmaTransforms(span: nat, prices: Prices, c: real, b: real)
    requires span >= 1
    ensures Ema(span, Transformed(c, b, prices)) == Moved(c, b, Ema(span, prices))
  {
    ClosesTransform(prices, c, b);
    EwmAffine(SpanAlpha(span), true, span, Closes(prices), c, b);
  }

  /** EMA never leaves the range of the prices seen. */
  lemma EmaInRange(span: nat, prices: Prices, lo: real, hi: real)
    requires span >= 1 && forall i | 0 <= i < |prices| :: lo <= prices[i] <= hi
    ensures Ema(span, prices).Some? ==> lo <= Ema(span, prices).value <= hi
  {
    EwmBetween(SpanAlpha(span), true, span, Closes(prices), lo, hi);
  }

  /** EMA is the weighted mean of all prices so far, with weights falling by a constant factor. */
  lemma EmaIsWeightedMean(span: nat, prices: Prices)
    requires span >= 1 && Ema(span, prices).Some?
    ensures var n, alpha := |prices|, SpanAlpha(span);
            Times(Ema(span, prices).value, WeightSum(alpha, true, n, Closes(prices)))
            == WeightedSum(alpha, true, n, Closes(prices))
  {
    AdjustedIsWeightedMean(SpanAlpha(span), Closes(prices));
  }

  lemma MinusMoves(x: Option<real>, y: Option<real>, c: real, b: real)
    ensures Minus(Moved(c, b, x), Moved(c, b, y)) == Moved(c, 0.0, Minus(x, y))
  {
    if x.Some? && y.Some? {
      LinesDiffer(x.value, y.value, c, b);
    }
  }

  lemma LinesDiffer(x: real, y: real, c: real, b: real)
    ensures Line(c, b, x) - Line(c, b, y) == Line(c, 0.0, x - y)
  {
  }

  lemma MacdTransforms(fast: nat, slow: nat, prices: Prices, c: real, b: real)
    requires fast >= 1 && slow >= 1
    ensures Macd(fast, slow, Transformed(c, b, prices)) == Moved(c, 0.0, Macd(fast, slow, prices))
  {
    EmaTransforms(fast, prices, c, b);
    EmaTransforms(slow, prices, c, b);
    MinusMoves(Ema(fast, prices), Ema(slow, prices), c, b);
  }

  /** MACD, its signal and its histogram ignore a shift of the prices and follow their scale. */
  lemma MacdFamilyTransforms(fast: nat, slow: nat, span: nat, prices: Prices, c: real, b: real)
    requires fast >= 1 && slow >= 1 && span >= 1
    ensures var after := Transformed(c, b, prices);
            && Macd(fast, slow, after) == Moved(c, 0.0, Macd(fast, slow, prices))
            && Signal(fast, slow, span, after) == Moved(c, 0.0, Signal(fast, slow, span, prices))
            && Hist(fast, slow, span, after) == Moved(c, 0.0, Hist(fast, slow, span, prices))
  {
    var after := Transformed(c, b, prices);
    MacdTransforms(fast, slow, prices, c, b);
    forall i | 0 <= i < |prices|
      ensures MacdColumn(fast, slow, after)[i] == Moved(c, 0.0, MacdColumn(fast, slow, prices)[i])
    {
      assert after[..i + 1] == Transformed(c, b, prices[..i + 1]);
      MacdTransforms(fast, slow, prices[..i + 1], c, b);
    }
    assert MacdColumn(fast, slow, after) == Affine(c, 0.0, MacdColumn(fast, slow, prices));
    EwmAffine(SpanAlpha(span), true, span, MacdColumn(fast, slow, prices), c, 0.0);
    MinusMoves(Macd(fast, slow, prices), Signal(fast, slow, span, prices), c, 0.0);
  }

  /** BIAS ignores the scale of the prices. */
  lemma BiasScales(span: nat, prices: Prices, c: real)
    requires span >= 1 && prices != [] && c != 0.0
    ensures Bias(span, Transformed(c, 0.0, prices)) == Bias(span, prices)
  {
    EmaTransforms(span, prices, c, 0.0);
    hide Ema;
    if Ema(span, prices).Some? {
      BiasRatio(prices[|prices| - 1], Ema(span, prices).value, c);
    }
  }

  lemma BiasRatio(p: real, ema: real, c: real)
    requires c != 0.0
    ensures Line(c, 0.0, ema) == 0.0 <==> ema == 0.0
    ensures ema != 0.0 ==> (Line(c, 0.0, p) - Line(c, 0.0, ema)) / Line(c, 0.0, ema) == (p - ema) / ema
  {
  }

  lemma {:induction false} AllCounted(xs: Series)
    requires AllPresent(xs)
    ensures Present(xs) == |xs|
  {
    if xs == [] {
    } else {
      AllCounted(xs[..|xs| - 1]);
    }
  }

  lemma EmaFrom(span: nat, prices: Prices)
    requires span >= 1
    ensures Ema(span, prices).Some? <==> |prices| >= span
  {
    AllCounted(Closes(prices));
    SeenIsPresent(SpanAlpha(span), true, Closes(prices));
  }

  function Larger(a: nat, b: nat): nat {
    if a < b then b else a
  }

  lemma {:induction false} CountedFrom(xs: Series, start: nat)
    requires start >= 1 && forall i | 0 <= i < |xs| :: xs[i].Some? <==> i + 1 >= start
    ensures Present(xs) == if |xs| >= start then |xs| - start + 1 else 0
  {
    if xs == [] {
    } else {
      CountedFrom(xs[..|xs| - 1], start);
    }
  }

  /**
    * MACD is defined from index `max(fast, slow) - 1` on, and its signal and histogram from index
    * `(max(fast, slow) - 1) + (span - 1)` on.
    */
  lemma SignalFrom(fast: nat, slow: nat, span: nat, prices: Prices)
    requires fast >= 1 && slow >= 1 && span >= 1
    ensures Macd(fast, slow, prices).Some? <==> |prices| - 1 >= Larger(fast, slow) - 1
    ensures Signal(fast, slow, span, prices).Some? <==> |prices| - 1 >= (Larger(fast, slow) - 1) + (span - 1)
    ensures Hist(fast, slow, span, prices).Some? <==> Signal(fast, slow, span, prices).Some?
  {
    EmaFrom(fast, prices);
    EmaFrom(slow, prices);
    var column := MacdColumn(fast, slow, prices);
    forall i | 0 <= i < |prices| ensures column[i].Some? <==> i + 1 >= Larger(fast, slow) {
      EmaFrom(fast, prices[..i + 1]);
      EmaFrom(slow, prices[..i + 1]);
    }
    CountedFrom(column, Larger(fast, slow));
    SeenIsPresent(SpanAlpha(span), true, column);
  }

  /** BIAS is the distance of the last price from EMA in percent of EMA. */
  lemma BiasRecoversPrice(span: nat, prices: Prices)
    requires span >= 1 && prices != [] && Bias(span, prices).Some?
    ensures var ema := Ema(span, prices).value;
            prices[|prices| - 1] == ema + ema * Bias(span, prices).value / 100.0
  {
    var ema, p := Ema(span, prices).value, prices[|prices| - 1];
    hide Ema;
    var q := (p - ema) / ema;
    assert q * ema == p - ema;
    assert ema * (q * 100.0) == (q * ema) * 100.0;
  }

  lemma QuotientSign(n: real, d: real)
    requires d != 0.0
    ensures n / d > 0.0 <==> (d > 0.0 && n > 0.0) || (d < 0.0 && n < 0.0)
  {
    var q := n / d;
    assert q * d == n;
    ProductSign(q, d);
  }

  lemma ProductSign(q: real, d: real)
    requires d != 0.0
    ensures q > 0.0 <==> (d > 0.0 && q * d > 0.0) || (d < 0.0 && q * d < 0.0)
  {
  }

  lemma {:induction false} UpperBound(prices: Prices) returns (hi: real)
    ensures forall i | 0 <= i < |prices| :: prices[i] <= hi
  {
    hi := 0.0;
    if prices != [] {
      var n := |prices| - 1;
      var rest := UpperBound(prices[..n]);
      hi := if rest <= prices[n] then prices[n] else rest;
      assert forall i | 0 <= i < n :: prices[i] == prices[..n][i];
    }
  }

  /**
    * BIAS is positive exactly when the last price is above a positive average, or below a negative one;
    * prices that are not negative have a positive average.
    */
  lemma BiasSign(span: nat, prices: Prices)
    requires span >= 1 && prices != [] && Bias(span, prices).Some?
    ensures var ema, p := Ema(span, prices).value, prices[|prices| - 1];
            && ema != 0.0
            && (Bias(span, prices).value > 0.0 <==> if ema > 0.0 then p > ema else p < ema)
            && ((forall i | 0 <= i < |prices| :: prices[i] >= 0.0) ==> ema > 0.0)
  {
    var ema, p := Ema(span, prices).value, prices[|prices| - 1];
    QuotientSign(p - ema, ema);
    if forall i | 0 <= i < |prices| :: prices[i] >= 0.0 {
      var hi := UpperBound(prices);
      EmaInRange(span, prices, 0.0, hi);
    }
    hide Ema;
  }

  // ----- the sign of MACD -----

  predicate NeverFalls(prices: Prices) {
    forall i | 1 <= i < |prices| :: prices[i - 1] <= prices[i]
  }

  predicate NeverRises(prices: Prices) {
    forall i | 1 <= i < |prices| :: prices[i - 1] >= prices[i]
  }

  lemma TimesSign(a: real, b: real)
    requires a >= 0.0 && b >= 0.0
    ensures Times(a, b) >= 0.0 && (a > 0.0 && b > 0.0 ==> Times(a, b) > 0.0)
  {
  }

  lemma FactorSign(d: real, n: real)
    requires n > 0.0
    ensures Times(d, n) >= 0.0 ==> d >= 0.0
    ensures Times(d, n) > 0.0 ==> d > 0.0
  {
  }

  lemma MeanTimes(k: real, m: real, x: real)
    requires k >= 0.0
    ensures Blend(k, m, 1.0, x) * (k + 1.0) == k * m + x
  {
  }

  lemma Expanded(kf: real, mf: real, ks: real, ms: real, x: real, p: real, q: real)
    requires p == kf * mf + x && q == ks * ms + x
    ensures Times(p, ks + 1.0) - Times(q, kf + 1.0) == Times(Times(kf, ks + 1.0), mf - ms) + Times(ks - kf, x - ms)
  {
  }

  lemma DifferenceTimes(a: real, b: real, u: real, v: real, p: real, q: real)
    requires p == a * u && q == b * v
    ensures Times(a - b, Times(u, v)) == Times(p, v) - Times(q, u)
  {
  }

  lemma BlendDifference(kf: real, mf: real, ks: real, ms: real, x: real)
    requires 0.0 <= kf && 0.0 <= ks
    ensures Times(Blend(kf, mf, 1.0, x) - Blend(ks, ms, 1.0, x), Times(kf + 1.0, ks + 1.0))
            == Times(Times(kf, ks + 1.0), mf - ms) + Times(ks - kf, x - ms)
  {
    hide Times;
    var p, q := kf * mf + x, ks * ms + x;
    MeanTimes(kf, mf, x);
    MeanTimes(ks, ms, x);
    hide Blend;
    DifferenceTimes(Blend(kf, mf, 1.0, x), Blend(ks, ms, 1.0, x), kf + 1.0, ks + 1.0, p, q);
    Expanded(kf, mf, ks, ms, x, p, q);
  }

  /** Of two means below a new entry, the greater one with the smaller weight stays the greater. */
  lemma BlendOrder(kf: real, mf: real, ks: real, ms: real, x: real)
    requires 0.0 <= kf < ks && ms <= mf <= x
    ensures Blend(ks, ms, 1.0, x) <= Blend(kf, mf, 1.0, x)
    ensures ms < x ==> Blend(ks, ms, 1.0, x) < Blend(kf, mf, 1.0, x)
  {
    hide Times, Blend;
    BlendDifference(kf, mf, ks, ms, x);
    TimesSign(kf, ks + 1.0);
    TimesSign(Times(kf, ks + 1.0), mf - ms);
    TimesSign(ks - kf, x - ms);
    TimesSign(kf + 1.0, ks + 1.0);
    FactorSign(Blend(kf, mf, 1.0, x) - Blend(ks, ms, 1.0, x), Times(kf + 1.0, ks + 1.0));
  }

  lemma KeptOrder(fa: real, sa: real, wf: real, ws: real)
    requires IsAlpha(fa) && IsAlpha(sa) && sa < fa && 1.0 <= wf <= ws
    ensures 0.0 <= Kept(fa, wf) < Kept(sa, ws)
  {
    hide Times;
    var a, b := 1.0 - fa, 1.0 - sa;
    TimesSign(a, wf);
    TimesSign(a, ws - wf);
    TimesSign(b - a, ws);
    Split(a, b, wf, ws);
  }

  lemma Split(a: real, b: real, u: real, v: real)
    ensures Times(b, v) == Times(a, u) + Times(a, v - u) + Times(b - a, v)
  {
  }

  lemma BlendBelow(k: real, m: real, x: real)
    requires k >= 0.0 && m <= x
    ensures Blend(k, m, 1.0, x) <= x
  {
    var b := Blend(k, m, 1.0, x);
    assert Times(x - b, k + 1.0) == Times(k, x - m) by { MeanTimes(k, m, x); }
    TimesSign(k, x - m);
    FactorSign(x - b, k + 1.0);
    hide Times, Blend;
  }

  /** While prices never fall, the faster mean is above the slower one, and both are below the price. */
  lemma {:induction false} FasterIsAbove(fa: real, sa: real, prices: Prices)
    requires IsAlpha(fa) && IsAlpha(sa) && sa < fa && prices != [] && NeverFalls(prices)
    ensures var f, s, n := Fold(fa, true, Closes(prices)), Fold(sa, true, Closes(prices)), |prices|;
            && f.mean.Some? && s.mean.Some? && 1.0 <= f.weight <= s.weight
            && s.mean.value <= f.mean.value <= prices[n - 1]
            && (n >= 2 && prices[n - 2] < prices[n - 1] ==> s.mean.value < f.mean.value)
    decreases |prices|
  {
    var n, xs := |prices|, Closes(prices);
    var rest := prices[..n - 1];
    assert xs[..n - 1] == Closes(rest);
    if n == 1 {
      assert Closes(rest) == [];
    } else {
      FasterIsAbove(fa, sa, rest);
      var f, s := Fold(fa, true, Closes(rest)), Fold(sa, true, Closes(rest));
      var kf, ks := Kept(fa, f.weight), Kept(sa, s.weight);
      KeptOrder(fa, sa, f.weight, s.weight);
      BlendOrder(kf, f.mean.value, ks, s.mean.value, prices[n - 1]);
      BlendBelow(kf, f.mean.value, prices[n - 1]);
      hide Kept, Blend;
    }
  }

  lemma SpanAlphaFalls(fast: nat, slow: nat)
    requires 1 <= fast < slow
    ensures SpanAlpha(slow) < SpanAlpha(fast)
  {
    var f, s := fast as real + 1.0, slow as real + 1.0;
    Halves(f, s);
  }

  lemma Halves(f: real, s: real)
    requires 0.0 < f < s
    ensures 2.0 / s < 2.0 / f
  {
    var a, b := 2.0 / f, 2.0 / s;
    assert Times(a - b, Times(f, s)) == 2.0 * s - 2.0 * f by {
      DifferenceTimes(a, b, f, s, 2.0, 2.0);
    }
    TimesSign(f, s);
    FactorSign(a - b, Times(f, s));
    hide Times;
  }

  /**
    * MACD with the fast span first: while prices never fall it is not negative, and positive if the last
    * price rose; while they never rise the other way round.
    */
  lemma MacdSign(fast: nat, slow: nat, prices: Prices)
    requires 1 <= fast < slow && Macd(fast, slow, prices).Some?
    ensures |prices| >= 2
    ensures var m, n := Macd(fast, slow, prices).value, |prices|;
            && (NeverFalls(prices) ==> m >= 0.0 && (prices[n - 2] < prices[n - 1] ==> m > 0.0))
            && (NeverRises(prices) ==> m <= 0.0 && (prices[n - 2] > prices[n - 1] ==> m < 0.0))
  {
    SpanAlphaFalls(fast, slow);
    EmaFrom(slow, prices);
    hide SpanAlpha;
    if NeverFalls(prices) { FasterIsAbove(SpanAlpha(fast), SpanAlpha(slow), prices); }
    if NeverRises(prices) {
      var mirror := Transformed(-1.0, 0.0, prices);
      FasterIsAbove(SpanAlpha(fast), SpanAlpha(slow), mirror);
      MacdTransforms(fast, slow, prices, -1.0, 0.0);
    }
  }

  /**
    * By value: MACD is what the fast average has over the slow one, its histogram what it has over the
    * signal, and the signal is the weighted mean of the MACD values so far.
    */
  lemma MacdParts(fast: nat, slow: nat, span: nat, prices: Prices)
    requires fast >= 1 && slow >= 1 && span >= 1
    ensures var m := Macd(fast, slow, prices);
            var signal, hist := Signal(fast, slow, span, prices), Hist(fast, slow, span, prices);
            && (m.Some? <==> Ema(fast, prices).Some? && Ema(slow, prices).Some?)
            && (m.Some? ==> m.value + Ema(slow, prices).value == Ema(fast, prices).value)
            && (hist.Some? ==> signal.Some? && m.Some? && hist.value + signal.value == m.value)
    ensures var signal, n, alpha := Signal(fast, slow, span, prices), |prices|, SpanAlpha(span);
            var column := MacdColumn(fast, slow, prices);
            && (forall i | 0 <= i < n :: column[i] == Macd(fast, slow, prices[..i + 1]))
            && (signal.Some? ==>
                  Times(signal.value, WeightSum(alpha, true, n, column)) == WeightedSum(alpha, true, n, column))
  {
    var column := MacdColumn(fast, slow, prices);
    if Signal(fast, slow, span, prices).Some? { AdjustedIsWeightedMean(SpanAlpha(span), column); }
  }

  /** Each price weighs `(span - 1) / (span + 1)` of the one after it. */
  lemma SpanWeightsFade(span: nat, n: nat, i: nat)
    requires span >= 1 && i + 1 < n
    ensures (span as real + 1.0) * Weight(SpanAlpha(span), true, n, i)
            == (span as real - 1.0) * Weight(SpanAlpha(span), true, n, i + 1)
  {
    var a, b := SpanAlpha(span), 1.0 - SpanAlpha(span);
    var s, w := span as real + 1.0, Pow(b, n - 2 - i);
    assert a * s == 2.0;
    assert s * b == span as real - 1.0;
    assert Pow(b, n - 1 - i) == b * w;
    assert s * (b * w) == (s * b) * w;
  }

  /** Each move but the first weighs `(n - 1) / n` of the one after it, and the last one `1 / n`. */
  lemma WilderWeightsFade(n: nat, moves: nat, i: nat)
    requires n >= 1 && 1 <= i && i + 1 < moves
    ensures var alpha := 1.0 / n as real;
            && n as real * Weight(alpha, false, moves, i) == (n as real - 1.0) * Weight(alpha, false, moves, i + 1)
            && n as real * Weight(alpha, false, moves, moves - 1) == 1.0
  {
    var a, b := 1.0 / n as real, 1.0 - 1.0 / n as real;
    var w := Pow(b, moves - 2 - i);
    assert n as real * a == 1.0;
    assert n as real * b == n as real - 1.0;
    assert Pow(b, moves - 1 - i) == b * w;
    assert n as real * (a * (b * w)) == (n as real * b) * (a * w);
    LastWeight(a, false, moves - 1);
  }
}
