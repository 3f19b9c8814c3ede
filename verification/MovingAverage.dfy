/**
  * The exponentially weighted mean of a series with gaps, as a running mean and as a weighted sum,
  * over the reals.
  */
module MovingAverage {
  import opened Wrappers

  /** A missing entry is one that is not a number. */
  type Series = seq<Option<real>>

  /** The mean so far, the weight it carries, and the number of entries seen. */
  datatype Running = Running(mean: Option<real>, weight: real, seen: nat)

  predicate IsAlpha(alpha: real) {
    0.0 < alpha <= 1.0
  }

  function NewWeight(alpha: real, adjust: bool): real {
    if adjust then 1.0 else alpha
  }

  /** Products kept from the eyes of proofs that only move them about. */
  function Times(u: real, v: real): real {
    u * v
  }

  function Blend(kept: real, mean: real, added: real, x: real): real
    requires kept >= 0.0 && added > 0.0
  {
    (kept * mean + added * x) / (kept + added)
  }

  /** What is left of a weight one entry later. */
  function Kept(alpha: real, weight: real): real {
    Times(1.0 - alpha, weight)
  }

  /** One more entry. With `adjust` weights add up, without it the mean always weighs one. */
  function Push(alpha: real, adjust: bool, r: Running, x: Option<real>): (next: Running)
    requires IsAlpha(alpha) && r.weight >= 0.0
    ensures next.weight >= 0.0
  {
    if r.mean.None? then
      if x.None? then r else Running(x, 1.0, r.seen + 1)
    else
      KeptIsNonnegative(alpha, r.weight);
      var kept := Kept(alpha, r.weight);
      if x.None? then Running(r.mean, kept, r.seen)
      else
        Running(Some(Blend(kept, r.mean.value, NewWeight(alpha, adjust), x.value)),
                if adjust then kept + 1.0 else 1.0, r.seen + 1)
  }

  function Fold(alpha: real, adjust: bool, xs: Series): (r: Running)
    requires IsAlpha(alpha)
    ensures r.weight >= 0.0
  {
    if xs == [] then Running(None, 1.0, 0)
    else Push(alpha, adjust, Fold(alpha, adjust, xs[..|xs| - 1]), xs[|xs| - 1])
  }

  /** The last value of `ewm(...).mean()`: missing until there are enough entries. */
  function Ewm(alpha: real, adjust: bool, minPeriods: nat, xs: Series): Option<real>
    requires IsAlpha(alpha)
  {
    var r := Fold(alpha, adjust, xs);
    if r.seen >= minPeriods then r.mean else None
  }

  function Present(xs: Series): nat {
    if xs == [] then 0 else Present(xs[..|xs| - 1]) + if xs[|xs| - 1].Some? then 1 else 0
  }

  lemma {:induction false} SeenIsPresent(alpha: real, adjust: bool, xs: Series)
    requires IsAlpha(alpha)
    ensures Fold(alpha, adjust, xs).seen == Present(xs)
    ensures Fold(alpha, adjust, xs).mean.Some? <==> Present(xs) > 0
  {
    hide Blend, NewWeight;
    if xs == [] {
    } else {
      SeenIsPresent(alpha, adjust, xs[..|xs| - 1]);
    }
  }

  lemma DivUnique(n: real, d: real, q: real)
    requires d != 0.0 && q * d == n
    ensures n / d == q
  {
  }

  lemma BlendTimes(kept: real, m: real, added: real, x: real)
    requires kept >= 0.0 && added > 0.0
    ensures Times(Blend(kept, m, added, x), kept + added) == Times(kept, m) + Times(added, x)
  {
  }

  // ----- the mean commutes with affine maps -----

  function Line(c: real, b: real, v: real): real {
    c * v + b
  }

  function Moved(c: real, b: real, x: Option<real>): Option<real> {
    if x.Some? then Some(Line(c, b, x.value)) else None
  }

  function Affine(c: real, b: real, xs: Series): (r: Series)
    ensures |r| == |xs|
  {
    seq(|xs|, i requires 0 <= i < |xs| => Moved(c, b, xs[i]))
  }

  lemma BlendAffine(kept: real, m: real, added: real, x: real, c: real, b: real)
    requires kept >= 0.0 && added > 0.0
    ensures Blend(kept, Line(c, b, m), added, Line(c, b, x)) == Line(c, b, Blend(kept, m, added, x))
  {
  }

  lemma {:induction false} FoldAffine(alpha: real, adjust: bool, xs: Series, c: real, b: real)
    requires IsAlpha(alpha)
    ensures var r := Fold(alpha, adjust, xs);
            Fold(alpha, adjust, Affine(c, b, xs)) == r.(mean := Moved(c, b, r.mean))
  {
    hide Blend, NewWeight;
    if xs == [] {
    } else {
      var shorter := xs[..|xs| - 1];
      assert Affine(c, b, xs)[..|xs| - 1] == Affine(c, b, shorter);
      FoldAffine(alpha, adjust, shorter, c, b);
      var r, x := Fold(alpha, adjust, shorter), xs[|xs| - 1];
      PushAffine(alpha, adjust, r, x, c, b);
    }
  }

  lemma PushAffine(alpha: real, adjust: bool, r: Running, x: Option<real>, c: real, b: real)
    requires IsAlpha(alpha) && r.weight >= 0.0
    ensures var next := Push(alpha, adjust, r, x);
            Push(alpha, adjust, r.(mean := Moved(c, b, r.mean)), Moved(c, b, x))
            == next.(mean := Moved(c, b, next.mean))
  {
    hide Blend, Kept, Line;
    if r.mean.Some? && x.Some? {
      KeptIsNonnegative(alpha, r.weight);
      BlendAffine(Kept(alpha, r.weight), r.mean.value, NewWeight(alpha, adjust), x.value, c, b);
    }
  }

  lemma KeptIsNonnegative(alpha: real, weight: real)
    requires IsAlpha(alpha) && weight >= 0.0
    ensures Kept(alpha, weight) >= 0.0
    ensures alpha < 1.0 && weight > 0.0 ==> Kept(alpha, weight) > 0.0
  {
  }

  /** Scaling and shifting a series does the same to its mean. */
  lemma EwmAffine(alpha: real, adjust: bool, minPeriods: nat, xs: Series, c: real, b: real)
    requires IsAlpha(alpha)
    ensures Ewm(alpha, adjust, minPeriods, Affine(c, b, xs)) == Moved(c, b, Ewm(alpha, adjust, minPeriods, xs))
  {
    FoldAffine(alpha, adjust, xs, c, b);
  }

  // ----- the mean lies among the entries -----

  predicate AtLeast(lo: real, x: Option<real>) {
    x.Some? ==> lo <= x.value
  }

  predicate AtMost(x: Option<real>, hi: real) {
    x.Some? ==> x.value <= hi
  }

  lemma NotBelow(kept: real, m: real, added: real, x: real, q: real, lo: real)
    requires kept >= 0.0 && added > 0.0 && q * (kept + added) == kept * m + added * x && lo <= m && lo <= x
    ensures lo <= q
  {
  }

  lemma BlendBetween(kept: real, m: real, added: real, x: real, lo: real, hi: real)
    requires kept >= 0.0 && added > 0.0
    ensures lo <= m && lo <= x ==> lo <= Blend(kept, m, added, x)
    ensures m <= hi && x <= hi ==> Blend(kept, m, added, x) <= hi
  {
    var q := Blend(kept, m, added, x);
    BlendTimes(kept, m, added, x);
    hide Blend;
    if lo <= m && lo <= x {
      NotBelow(kept, m, added, x, q, lo);
    }
    if m <= hi && x <= hi {
      assert -q * (kept + added) == kept * -m + added * -x;
      NotBelow(kept, -m, added, -x, -q, -hi);
    }
  }

  lemma {:induction false} FoldBetween(alpha: real, adjust: bool, xs: Series, lo: real, hi: real)
    requires IsAlpha(alpha)
    ensures (forall i | 0 <= i < |xs| :: AtLeast(lo, xs[i])) ==> AtLeast(lo, Fold(alpha, adjust, xs).mean)
    ensures (forall i | 0 <= i < |xs| :: AtMost(xs[i], hi)) ==> AtMost(Fold(alpha, adjust, xs).mean, hi)
  {
    hide Blend, Kept;
    if xs == [] {
    } else {
      var shorter := xs[..|xs| - 1];
      FoldBetween(alpha, adjust, shorter, lo, hi);
      var r, x := Fold(alpha, adjust, shorter), xs[|xs| - 1];
      assert forall i | 0 <= i < |shorter| :: shorter[i] == xs[i];
      if r.mean.Some? && x.Some? {
        KeptIsNonnegative(alpha, r.weight);
        BlendBetween(Kept(alpha, r.weight), r.mean.value, NewWeight(alpha, adjust), x.value, lo, hi);
      }
    }
  }

  /** The mean is never below the least entry nor above the greatest. */
  lemma EwmBetween(alpha: real, adjust: bool, minPeriods: nat, xs: Series, lo: real, hi: real)
    requires IsAlpha(alpha)
    requires forall i | 0 <= i < |xs| :: AtLeast(lo, xs[i]) && AtMost(xs[i], hi)
    ensures AtLeast(lo, Ewm(alpha, adjust, minPeriods, xs)) && AtMost(Ewm(alpha, adjust, minPeriods, xs), hi)
  {
    FoldBetween(alpha, adjust, xs, lo, hi);
  }

  /** With `alpha` below one no entry is ever forgotten. */
  lemma {:induction false} PositiveExactly(alpha: real, adjust: bool, xs: Series)
    requires IsAlpha(alpha) && alpha < 1.0 && forall i | 0 <= i < |xs| :: AtLeast(0.0, xs[i])
    ensures var r := Fold(alpha, adjust, xs);
            && r.weight > 0.0 && AtLeast(0.0, r.mean)
            && (r.mean.Some? && r.mean.value > 0.0
                <==> exists i | 0 <= i < |xs| :: xs[i].Some? && xs[i].value > 0.0)
  {
    hide Blend, Kept;
    if xs == [] {
    } else {
      var shorter := xs[..|xs| - 1];
      assert forall i | 0 <= i < |shorter| :: shorter[i] == xs[i];
      PositiveExactly(alpha, adjust, shorter);
      var r, x := Fold(alpha, adjust, shorter), xs[|xs| - 1];
      assert AtLeast(0.0, x);
      KeptIsNonnegative(alpha, r.weight);
      if r.mean.Some? && x.Some? {
        BlendPositive(Kept(alpha, r.weight), r.mean.value, NewWeight(alpha, adjust), x.value);
      }
      assert (exists i | 0 <= i < |xs| :: xs[i].Some? && xs[i].value > 0.0)
        <==>
        (exists i | 0 <= i < |shorter| :: shorter[i].Some? && shorter[i].value > 0.0) || (x.Some? && x.value > 0.0);
    }
  }

  lemma BlendPositive(kept: real, m: real, added: real, x: real)
    requires kept > 0.0 && added > 0.0 && m >= 0.0 && x >= 0.0
    ensures Blend(kept, m, added, x) >= 0.0
    ensures Blend(kept, m, added, x) > 0.0 <==> m > 0.0 || x > 0.0
  {
    var d, q := kept + added, Blend(kept, m, added, x);
    BlendTimes(kept, m, added, x);
    assert kept * m >= 0.0 && added * x >= 0.0;
    assert kept * m > 0.0 <==> m > 0.0;
    assert added * x > 0.0 <==> x > 0.0;
    assert q * d >= 0.0;
  }

  // ----- the closed forms -----

  function Pow(b: real, k: nat): real {
    if k == 0 then 1.0 else b * Pow(b, k - 1)
  }

  /**
    * The weight of entry `i` of `n`: a power of `1 - alpha` for each step since, and without `adjust`
    * a factor `alpha` for all but the first.
    */
  function Weight(alpha: real, adjust: bool, n: nat, i: nat): real
    requires i < n
  {
    if adjust || i == 0 then Pow(1.0 - alpha, n - 1 - i) else alpha * Pow(1.0 - alpha, n - 1 - i)
  }

  /** The sum of the entries present, each with its weight among `n`. */
  function WeightedSum(alpha: real, adjust: bool, n: nat, xs: Series): real
    requires |xs| <= n
  {
    if xs == [] then 0.0
    else
      var k := |xs| - 1;
      WeightedSum(alpha, adjust, n, xs[..k])
      + if xs[k].Some? then Times(Weight(alpha, adjust, n, k), xs[k].value) else 0.0
  }

  function WeightSum(alpha: real, adjust: bool, n: nat, xs: Series): real
    requires |xs| <= n
  {
    if xs == [] then 0.0
    else
      var k := |xs| - 1;
      WeightSum(alpha, adjust, n, xs[..k]) + if xs[k].Some? then Weight(alpha, adjust, n, k) else 0.0
  }

  lemma WeightStep(alpha: real, adjust: bool, n: nat, i: nat)
    requires i < n
    ensures Weight(alpha, adjust, n + 1, i) == Kept(alpha, Weight(alpha, adjust, n, i))
  {
  }

  lemma KeptTimes(alpha: real, u: real, v: real)
    ensures Times(Kept(alpha, u), v) == Kept(alpha, Times(u, v))
  {
  }

  lemma TimesCommutes(u: real, v: real)
    ensures Times(u, v) == Times(v, u)
    ensures u == 1.0 ==> Times(u, v) == v
  {
  }

  lemma KeptPlus(alpha: real, u: real, v: real)
    ensures Kept(alpha, u) + Kept(alpha, v) == Kept(alpha, u + v)
    ensures Kept(alpha, 0.0) == 0.0
  {
  }

  /** One entry later every sum has faded by the same factor. */
  lemma {:induction false} SumsFade(alpha: real, adjust: bool, n: nat, xs: Series)
    requires |xs| <= n
    ensures WeightedSum(alpha, adjust, n + 1, xs) == Kept(alpha, WeightedSum(alpha, adjust, n, xs))
    ensures WeightSum(alpha, adjust, n + 1, xs) == Kept(alpha, WeightSum(alpha, adjust, n, xs))
  {
    hide Kept, Times, Weight;
    if xs == [] {
      KeptPlus(alpha, 0.0, 0.0);
    } else {
      var k := |xs| - 1;
      SumsFade(alpha, adjust, n, xs[..k]);
      if xs[k].Some? {
        var u, v := Weight(alpha, adjust, n, k), xs[k].value;
        WeightStep(alpha, adjust, n, k);
        KeptTimes(alpha, u, v);
        KeptPlus(alpha, WeightedSum(alpha, adjust, n, xs[..k]), Times(u, v));
        KeptPlus(alpha, WeightSum(alpha, adjust, n, xs[..k]), u);
      }
    }
  }

  lemma LastWeight(alpha: real, adjust: bool, n: nat)
    ensures Weight(alpha, adjust, n + 1, n) == if adjust || n == 0 then 1.0 else alpha
  {
  }

  /** What the sums are after one more entry. */
  lemma SumsGrow(alpha: real, adjust: bool, xs: Series)
    requires xs != []
    ensures var n := |xs| - 1;
            var w := if adjust || n == 0 then 1.0 else alpha;
            && WeightedSum(alpha, adjust, n + 1, xs)
                == Kept(alpha, WeightedSum(alpha, adjust, n, xs[..n]))
                   + (if xs[n].Some? then Times(w, xs[n].value) else 0.0)
            && WeightSum(alpha, adjust, n + 1, xs)
               == Kept(alpha, WeightSum(alpha, adjust, n, xs[..n])) + (if xs[n].Some? then w else 0.0)
  {
    hide Kept, Times, Weight;
    var n := |xs| - 1;
    SumsFade(alpha, adjust, n, xs[..n]);
    LastWeight(alpha, adjust, n);
  }

  /**
    * The running mean with `adjust` is the sum of the entries weighted by powers of `1 - alpha`, over
    * the sum of the weights.
    */
  lemma {:induction false} AdjustedIsWeightedMean(alpha: real, xs: Series)
    requires IsAlpha(alpha)
    ensures var r := Fold(alpha, true, xs);
            var total, weight := WeightedSum(alpha, true, |xs|, xs), WeightSum(alpha, true, |xs|, xs);
            && (r.mean.None? ==> total == 0.0 && weight == 0.0)
            && (r.mean.Some? ==> r.weight == weight && Times(r.mean.value, weight) == total)
  {
    hide Blend, Kept, Times, WeightedSum, WeightSum;
    if xs == [] {
      NoSums(alpha, true);
    } else {
      var n := |xs| - 1;
      var x := xs[n];
      AdjustedIsWeightedMean(alpha, xs[..n]);
      SumsGrow(alpha, true, xs);
      KeptPlus(alpha, 0.0, 0.0);
      var r := Fold(alpha, true, xs[..n]);
      KeptIsNonnegative(alpha, r.weight);
      if x.Some? {
        TimesCommutes(1.0, x.value);
      }
      if r.mean.Some? {
        KeptTimes(alpha, r.weight, r.mean.value);
        TimesCommutes(r.weight, r.mean.value);
        TimesCommutes(Kept(alpha, r.weight), r.mean.value);
        if x.Some? {
          BlendTimes(Kept(alpha, r.weight), r.mean.value, 1.0, x.value);
        }
      }
    }
  }

  lemma NoSums(alpha: real, adjust: bool)
    ensures WeightedSum(alpha, adjust, 0, []) == 0.0 && WeightSum(alpha, adjust, 0, []) == 0.0
  {
  }

  predicate AllPresent(xs: Series) {
    forall i | 0 <= i < |xs| :: xs[i].Some?
  }

  lemma BlendRecursive(alpha: real, m: real, x: real)
    requires IsAlpha(alpha)
    ensures Kept(alpha, 1.0) == 1.0 - alpha
    ensures Blend(1.0 - alpha, m, alpha, x) == Kept(alpha, m) + Times(alpha, x)
  {
  }

  /**
    * The recursive average of a series without gaps is the weighted sum of its entries, and its
    * weights add up to one.
    */
  lemma {:induction false} RecursiveIsWeightedSum(alpha: real, xs: Series)
    requires IsAlpha(alpha) && xs != [] && AllPresent(xs)
    ensures Fold(alpha, false, xs) == Running(Some(WeightedSum(alpha, false, |xs|, xs)), 1.0, |xs|)
    ensures WeightSum(alpha, false, |xs|, xs) == 1.0
  {
    hide Blend, Kept, Times, WeightedSum, WeightSum;
    var n := |xs| - 1;
    SumsGrow(alpha, false, xs);
    KeptPlus(alpha, 0.0, 0.0);
    if n == 0 {
      assert xs[..0] == [];
      NoSums(alpha, false);
      TimesCommutes(1.0, xs[0].value);
    } else {
      RecursiveIsWeightedSum(alpha, xs[..n]);
      BlendRecursive(alpha, WeightedSum(alpha, false, n, xs[..n]), xs[n].value);
    }
  }
}
