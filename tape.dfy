/** Option and Result, used for the renderer's error paths. */
module Wrappers {
  datatype Option<+T> = None | Some(value: T)

  datatype Result<+T, +E> = Success(value: T) | Failure(error: E)
}

/** The tape table and the scale model (TAPE_WIDTHS and get_scale_factor). */
module Tape {

  /** Tape class in millimetres to bitmap height in pixels at 300 dpi. */
  const TapeWidths: map<int, nat> := map[29 := 306, 38 := 413, 50 := 554, 62 := 696]

  /** The supported classes, in the order the error message lists them. */
  const SupportedWidths: seq<int> := [29, 38, 50, 62]

  /** 29 mm is the reference class; its height is the denominator of every scale. */
  const ReferencePixels: nat := 306

  lemma {:induction false} SupportedWidthsAreTableKeys()
    ensures TapeWidths.Keys == set w | w in SupportedWidths
    ensures forall mm :: mm in TapeWidths <==> mm in SupportedWidths
  {
    assert TapeWidths.Keys == {29, 38, 50, 62};
  }

  /** Larger tape classes have strictly taller bitmaps. */
  lemma HeightIncreasing(a: int, b: int)
    requires a in TapeWidths && b in TapeWidths && a < b
    ensures TapeWidths[a] < TapeWidths[b]
  {
  }

  /** get_scale_factor: 1.0 for a class outside the table, else height / 306. */
  function Scale(mm: int): (s: real)
    ensures mm !in TapeWidths ==> s == 1.0
    ensures mm in TapeWidths ==> s * (ReferencePixels as real) == TapeWidths[mm] as real
  {
    if mm !in TapeWidths then 1.0 else TapeWidths[mm] as real / ReferencePixels as real
  }

  lemma ScaleOfReference()
    ensures Scale(29) == 1.0
  {
  }

  /** The scale never shrinks anything, and grows with the tape class. */
  lemma ScaleMonotone(a: int, b: int)
    requires a in TapeWidths && b in TapeWidths && a <= b
    ensures 1.0 <= Scale(a) <= Scale(b)
  {
  }

  /** Python's int() on a real: truncation toward zero. */
  function Trunc(x: real): (n: int)
    ensures 0.0 <= x ==> 0 <= n && n as real <= x < n as real + 1.0
    ensures x < 0.0 ==> n <= 0 && n as real - 1.0 < x <= n as real
  {
    if x >= 0.0 then x.Floor else -((-x).Floor)
  }

  lemma FloorOfQuotient(a: nat, d: nat)
    requires d > 0
    ensures (a as real / d as real).Floor == a / d
  {
    var q, r := a / d, a % d;
    assert a == q * d + r;
    assert a as real == q as real * d as real + r as real;
    assert a as real / d as real == q as real + r as real / d as real;
    assert 0.0 <= r as real / d as real < 1.0;
  }

  /** The height a scaled constant is computed against (306 outside the table, where the scale is 1). */
  function BaseHeight(mm: int): nat
  {
    if mm in TapeWidths then TapeWidths[mm] else ReferencePixels
  }

  /**
   * int(k * scale), computed exactly: truncating division of k * height by 306.
   * Every padding, gap, icon side and font-search bound of the layouts is one of these.
   */
  function Scaled(k: int, mm: int): (n: int)
    ensures n == Trunc(k as real * Scale(mm))
  {
    var p := k * BaseHeight(mm);
    ScaledIsTrunc(k, mm);
    if p >= 0 then p / ReferencePixels else -((-p) / ReferencePixels)
  }

  lemma ScaledIsTrunc(k: int, mm: int)
    ensures var p := k * BaseHeight(mm);
      Trunc(k as real * Scale(mm)) == if p >= 0 then p / ReferencePixels else -((-p) / ReferencePixels)
  {
    var h := BaseHeight(mm);
    var p := k * h;
    assert Scale(mm) == h as real / 306.0;
    assert k as real * Scale(mm) == p as real / 306.0;
    if p >= 0 {
      FloorOfQuotient(p, 306);
    } else {
      FloorOfQuotient(-p, 306);
      assert -(p as real / 306.0) == (-p) as real / 306.0;
    }
  }

  /** A non-negative constant is never scaled down, and stays within the scale of the largest class. */
  lemma {:induction false} ScaledBounds(k: int, mm: int)
    requires 0 <= k
    ensures k <= Scaled(k, mm) <= 3 * k
  {
    var h := BaseHeight(mm);
    assert 306 <= h <= 696;
    assert 306 * k <= k * h <= 918 * k;
  }

  /** int(h * pct / 100) for a non-negative height: the code-bitmap side and the margin ratios. */
  function PercentOf(h: nat, pct: nat): (r: nat)
    ensures r * 100 <= h * pct < (r + 1) * 100
  {
    h * pct / 100
  }

  lemma {:induction false} PercentWithinWhole(h: nat, pct: nat)
    requires pct <= 100
    ensures PercentOf(h, pct) <= h
  {
    assert h * pct <= h * 100;
  }
}
