/**
 * The font-fit binary search that every layout runs (once, or twice for the shelf and storage
 * layouts): narrow [min, max] by probing the midpoint and keep the last probe whose measured
 * extent fits the pixel budget. The measure is any function of the font size: a line height
 * from the font metrics, or the width of the rendered text for layouts that rotate it.
 */
module FontFit {

  /** The midpoint probed next: Python's (lo + hi) // 2 (floor division by a positive divisor). */
  function Probe(lo: int, hi: int): (mid: int)
    requires hi - lo > 1
    ensures lo < mid < hi
  {
    (lo + hi) / 2
  }

  /**
   * The loop of the source as a function of its three variables: min_font_size (lo),
   * max_font_size (hi) and optimal_font_size (best).
   */
  function Search(m: int -> int, budget: int, lo: int, hi: int, best: int): (r: int)
    ensures r == best || (lo < r < hi && m(r) <= budget)
    decreases hi - lo
  {
    if hi - lo <= 1 then best
    else
      var mid := Probe(lo, hi);
      if m(mid) <= budget then Search(m, budget, mid, hi, mid)
      else Search(m, budget, lo, mid, best)
  }

  /** The fitted size: the search started with optimal_font_size set to the upper bound. */
  function FitSize(m: int -> int, minSize: int, maxSize: int, budget: int): (r: int)
    ensures r == maxSize || (minSize < r < maxSize && m(r) <= budget)
  {
    Search(m, budget, minSize, maxSize, maxSize)
  }

  /** The sizes the search probes, in order. */
  function Probes(m: int -> int, budget: int, lo: int, hi: int): seq<int>
    decreases hi - lo
  {
    if hi - lo <= 1 then []
    else
      var mid := Probe(lo, hi);
      [mid] + (if m(mid) <= budget then Probes(m, budget, mid, hi) else Probes(m, budget, lo, mid))
  }

  /** The measure grows (weakly) with the font size, as glyph extents do. */
  ghost predicate Monotone(m: int -> int)
  {
    forall a, b :: a <= b ==> m(a) <= m(b)
  }

  /** The loop invariant: either nothing has fitted yet, or lo is the last fitting probe. */
  ghost predicate SearchState(m: int -> int, budget: int, minSize: int, maxSize: int, lo: int, hi: int, best: int)
  {
    || (lo == minSize && best == maxSize && (hi == maxSize || (minSize < hi < maxSize && budget < m(hi))))
    || (best == lo && minSize < lo < hi <= maxSize && m(lo) <= budget && (hi == maxSize || budget < m(hi)))
  }

  lemma {:induction false} SearchOutcome(m: int -> int, budget: int, minSize: int, maxSize: int, lo: int, hi: int, best: int)
    requires SearchState(m, budget, minSize, maxSize, lo, hi, best)
    ensures var r := Search(m, budget, lo, hi, best);
      || (r == maxSize && (maxSize <= minSize + 1 || budget < m(minSize + 1)))
      || (minSize < r < maxSize && m(r) <= budget && (r + 1 == maxSize || budget < m(r + 1)))
    decreases hi - lo
  {
    if hi - lo > 1 {
      var mid := Probe(lo, hi);
      if m(mid) <= budget {
        SearchOutcome(m, budget, minSize, maxSize, mid, hi, mid);
      } else {
        SearchOutcome(m, budget, minSize, maxSize, lo, mid, best);
      }
    }
  }

  /**
   * What the fit returns, for any measure: either the upper bound, which happens only when the
   * bracket was at most 1 wide or the smallest probe min+1 overflowed (the result may then
   * overflow the budget too), or a size strictly inside the bracket that fits and whose
   * successor is the upper bound or overflows.
   */
  lemma FitSizeOutcome(m: int -> int, minSize: int, maxSize: int, budget: int)
    ensures var r := FitSize(m, minSize, maxSize, budget);
      || (r == maxSize && (maxSize <= minSize + 1 || budget < m(minSize + 1)))
      || (minSize < r < maxSize && m(r) <= budget && (r + 1 == maxSize || budget < m(r + 1)))
  {
    SearchOutcome(m, budget, minSize, maxSize, minSize, maxSize, maxSize);
  }

  lemma {:induction false} ProbesWithin(m: int -> int, budget: int, lo: int, hi: int)
    ensures forall i :: 0 <= i < |Probes(m, budget, lo, hi)| ==> lo < Probes(m, budget, lo, hi)[i] < hi
    decreases hi - lo
  {
    if hi - lo > 1 {
      var mid := Probe(lo, hi);
      if m(mid) <= budget {
        ProbesWithin(m, budget, mid, hi);
      } else {
        ProbesWithin(m, budget, lo, mid);
      }
    }
  }

  lemma {:induction false} SearchFollowsProbes(m: int -> int, budget: int, lo: int, hi: int, best: int)
    ensures var ps := Probes(m, budget, lo, hi);
      var r := Search(m, budget, lo, hi, best);
      && ((forall i :: 0 <= i < |ps| ==> budget < m(ps[i])) ==> r == best)
      && ((exists i :: 0 <= i < |ps| && m(ps[i]) <= budget) ==> r in ps && m(r) <= budget)
    decreases hi - lo
  {
    if hi - lo > 1 {
      var mid := Probe(lo, hi);
      if m(mid) <= budget {
        SearchFollowsProbes(m, budget, mid, hi, mid);
        var rest := Probes(m, budget, mid, hi);
        var r := Search(m, budget, mid, hi, mid);
        assert Probes(m, budget, lo, hi) == [mid] + rest;
        assert Probes(m, budget, lo, hi)[0] == mid;
        assert r == mid || r in rest;
      } else {
        SearchFollowsProbes(m, budget, lo, mid, best);
        var rest := Probes(m, budget, lo, mid);
        assert Probes(m, budget, lo, hi) == [mid] + rest;
        forall i | 0 <= i < |rest| && m(rest[i]) <= budget
          ensures exists j :: 0 <= j < |Probes(m, budget, lo, hi)| && m(Probes(m, budget, lo, hi)[j]) <= budget
        {
          assert Probes(m, budget, lo, hi)[i + 1] == rest[i];
        }
        if exists i :: 0 <= i < |Probes(m, budget, lo, hi)| && m(Probes(m, budget, lo, hi)[i]) <= budget {
          var i :| 0 <= i < |Probes(m, budget, lo, hi)| && m(Probes(m, budget, lo, hi)[i]) <= budget;
          assert i != 0;
          assert rest[i - 1] == Probes(m, budget, lo, hi)[i];
        }
      }
    }
  }

  /**
   * The fit returns the upper bound exactly when no probe fitted; otherwise it returns a probed
   * size (strictly below the upper bound) that fitted.
   */
  lemma FitSizeProbes(m: int -> int, minSize: int, maxSize: int, budget: int)
    ensures var ps := Probes(m, budget, minSize, maxSize);
      var r := FitSize(m, minSize, maxSize, budget);
      && (r == maxSize <==> forall i :: 0 <= i < |ps| ==> budget < m(ps[i]))
      && (r != maxSize ==> r in ps && m(r) <= budget)
  {
    SearchFollowsProbes(m, budget, minSize, maxSize, maxSize);
    ProbesWithin(m, budget, minSize, maxSize);
  }

  /**
   * For a monotone measure: the fit falls back to the upper bound exactly when the bracket is
   * at most 1 wide or even min+1 overflows; otherwise it is the largest fitting size below the
   * upper bound. The upper bound itself is never probed, so it is not returned even when it fits.
   */
  lemma FitSizeMonotone(m: int -> int, minSize: int, maxSize: int, budget: int)
    requires Monotone(m)
    ensures var r := FitSize(m, minSize, maxSize, budget);
      && (r == maxSize <==> (maxSize <= minSize + 1 || budget < m(minSize + 1)))
      && (r != maxSize ==> minSize < r < maxSize && m(r) <= budget && forall s :: r < s < maxSize ==> budget < m(s))
  {
    var r := FitSize(m, minSize, maxSize, budget);
    FitSizeOutcome(m, minSize, maxSize, budget);
    if r != maxSize {
      assert m(minSize + 1) <= m(r);
    }
  }

  /**
   * A text that measures at least as much as another at every size (a longer text) gets a font
   * size no larger, as long as the longer text fits somewhere in the bracket.
   */
  lemma FitSizeAntitone(short: int -> int, long: int -> int, minSize: int, maxSize: int, budget: int)
    requires Monotone(short) && Monotone(long)
    requires forall s :: short(s) <= long(s)
    requires minSize + 1 < maxSize && long(minSize + 1) <= budget
    ensures FitSize(long, minSize, maxSize, budget) <= FitSize(short, minSize, maxSize, budget)
  {
    FitSizeMonotone(short, minSize, maxSize, budget);
    FitSizeMonotone(long, minSize, maxSize, budget);
    var rl := FitSize(long, minSize, maxSize, budget);
    var rs := FitSize(short, minSize, maxSize, budget);
    assert short(minSize + 1) <= long(minSize + 1);
    assert rl < maxSize && rs < maxSize;
    assert short(rl) <= long(rl) <= budget;
  }

  /**
   * Without that proviso the ordering fails: a text that overflows at every size gets the upper
   * bound, larger than the size a text that always fits gets.
   */
  lemma FitSizeNotAntitoneWhenNothingFits(minSize: int, maxSize: int, budget: int)
    requires minSize + 1 < maxSize && 0 <= budget
    ensures var short := (s: int) => 0;
      var long := (s: int) => budget + 1;
      FitSize(short, minSize, maxSize, budget) < FitSize(long, minSize, maxSize, budget)
  {
    var short := (s: int) => 0;
    var long := (s: int) => budget + 1;
    FitSizeOutcome(short, minSize, maxSize, budget);
    FitSizeOutcome(long, minSize, maxSize, budget);
  }

  /** A text that overflows even at the smallest probe comes back at the upper bound, overflowing. */
  lemma DegenerateFitOverflows(minSize: int, maxSize: int, budget: int)
    requires minSize + 1 < maxSize
    ensures var m := (s: int) => s;
      budget < minSize + 1 ==> FitSize(m, minSize, maxSize, budget) == maxSize && budget < m(maxSize)
  {
    var m := (s: int) => s;
    FitSizeOutcome(m, minSize, maxSize, budget);
  }

  /** The search as the source runs it: a while loop over min_font_size and max_font_size. */
  method FitFontSize(m: int -> int, minSize: int, maxSize: int, budget: int) returns (size: int)
    ensures size == FitSize(m, minSize, maxSize, budget)
    ensures size == maxSize || (minSize < size < maxSize && m(size) <= budget)
  {
    var lo, hi := minSize, maxSize;
    size := maxSize;
    while hi - lo > 1
      invariant SearchState(m, budget, minSize, maxSize, lo, hi, size)
      invariant Search(m, budget, lo, hi, size) == FitSize(m, minSize, maxSize, budget)
      decreases hi - lo
    {
      var mid := (lo + hi) / 2;
      if m(mid) <= budget {
        lo := mid;
        size := mid;
      } else {
        hi := mid;
      }
    }
  }
}
