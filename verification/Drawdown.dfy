/** The deepest fall of a sequence of levels, and the running peak that finds it. */
module Drawdowns {
  import opened Portfolios

  /** The initial cash, and then the equity bar by bar. */
  function Levels(initial: real, equity: seq<real>): (levels: seq<real>) { [initial] + equity }

  /** The loss from level i to level j as a fraction of level i. */
  function Drop(levels: seq<real>, i: nat, j: nat): real
    requires i <= j < |levels| && levels[i] > 0.0
  {
    (levels[i] - levels[j]) / levels[i]
  }

  ghost predicate IsPeak(levels: seq<real>, peak: real) {
    (forall i :: 0 <= i < |levels| ==> levels[i] <= peak) && peak in levels
  }

  ghost predicate IsDeepest(levels: seq<real>, drop: real) {
    && (forall i, j :: 0 <= i <= j < |levels| && levels[i] > 0.0 ==> Drop(levels, i, j) <= drop)
    && (exists i, j :: 0 <= i <= j < |levels| && levels[i] > 0.0 && Drop(levels, i, j) == drop)
  }

  /** A fall to the same level is no deeper from a lower start. */
  lemma {:induction false} DropGrows(x: real, peak: real, level: real)
    requires 0.0 < x <= peak && level >= 0.0
    ensures (x - level) / x <= (peak - level) / peak
  {
    var a := Quotient(x - level, x);
    var b := Quotient(peak - level, peak);
    NonNegative(level, peak - x);
    SignOfProduct(x, peak);
    assert (b - a) * (x * peak) == (b * peak) * x - (a * x) * peak;
    assert (peak - level) * x - (x - level) * peak == level * (peak - x);
    SignOfProduct(b - a, x * peak);
  }

  lemma {:induction false} PeakStep(levels: seq<real>, peak: real, last: real)
    requires IsPeak(levels, peak)
    ensures IsPeak(levels + [last], Max(peak, last))
  {
    var c := levels + [last];
    assert c[|levels|] == last;
    var p :| 0 <= p < |levels| && levels[p] == peak;
    assert c[p] == peak;
  }

  /** The fall from the peak is the deepest that ends at the last level. */
  lemma {:induction false} PeakGivesDeepest(levels: seq<real>, last: real, peak: real)
    requires levels != [] && levels[0] > 0.0 && last >= 0.0 && IsPeak(levels + [last], peak)
    ensures peak > 0.0
    ensures var c, n, fall := levels + [last], |levels|, (peak - last) / peak;
      && (forall i :: 0 <= i <= n && c[i] > 0.0 ==> Drop(c, i, n) <= fall)
      && (exists i :: 0 <= i <= n && c[i] > 0.0 && Drop(c, i, n) == fall)
  {
    var c, n := levels + [last], |levels|;
    assert c[0] == levels[0];
    forall i | 0 <= i <= n && c[i] > 0.0 ensures Drop(c, i, n) <= (peak - last) / peak { DropGrows(c[i], peak, last); }
    var p :| 0 <= p < |c| && c[p] == peak;
    assert Drop(c, p, n) == (peak - last) / peak;
  }

  /** One more level, and the deepest fall that ends there. */
  lemma {:induction false} OneMoreLevel(levels: seq<real>, last: real, peak: real, drop: real)
    requires levels != [] && levels[0] > 0.0 && last >= 0.0 && IsDeepest(levels, drop) && IsPeak(levels + [last], peak)
    ensures peak > 0.0 && IsDeepest(levels + [last], Max(drop, (peak - last) / peak))
  {
    var c, n := levels + [last], |levels|;
    PeakGivesDeepest(levels, last, peak);
    var fall := (peak - last) / peak;
    forall i, j | 0 <= i <= j < |c| && c[i] > 0.0 ensures Drop(c, i, j) <= Max(drop, fall) {
      if j < n { assert Drop(c, i, j) == Drop(levels, i, j); }
    }
    if fall <= drop {
      var i, j :| 0 <= i <= j < n && levels[i] > 0.0 && Drop(levels, i, j) == drop;
      assert Drop(c, i, j) == drop;
    }
  }
}
