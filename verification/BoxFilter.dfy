/** The avatar scaling of firmware/apps/wownny-muse/voice_ui.cc: a box filter from a square of `width` cells to
    one of `px` pixels, with integer weights. */
module BoxFilter {
  // ---------------------------------------------------------------- sums

  function Sum(n: nat, f: nat -> int): int { if n == 0 then 0 else Sum(n - 1, f) + f(n - 1) }

  lemma {:induction false} SumEqual(n: nat, f: nat -> int, g: nat -> int)
    requires forall i: nat :: i < n ==> f(i) == g(i)
    ensures Sum(n, f) == Sum(n, g)
  {
    if n > 0 { SumEqual(n - 1, f, g); }
  }

  lemma {:induction false} SumScaled(n: nat, f: nat -> int, k: int)
    ensures Sum(n, (i: nat) => k * f(i)) == k * Sum(n, f)
  {
    if n > 0 { SumScaled(n - 1, f, k); }
  }

  lemma {:induction false} SumPlus(n: nat, f: nat -> int, g: nat -> int)
    ensures Sum(n, (i: nat) => f(i) + g(i)) == Sum(n, f) + Sum(n, g)
  {
    if n > 0 { SumPlus(n - 1, f, g); }
  }

  lemma {:induction false} SumSwap(m: nat, n: nat, f: (nat, nat) -> int)
    ensures Sum(m, (i: nat) => Sum(n, (j: nat) => f(i, j))) == Sum(n, (j: nat) => Sum(m, (i: nat) => f(i, j)))
  {
    var columns := (j: nat) => Sum(m, (i: nat) => f(i, j));
    if m == 0 {
      SumZero(n, columns);
    } else {
      SumSwap(m - 1, n, f);
      var shorter := (j: nat) => Sum(m - 1, (i: nat) => f(i, j));
      var last := (j: nat) => f(m - 1, j);
      SumPlus(n, shorter, last);
      SumEqual(n, columns, (j: nat) => shorter(j) + last(j));
    }
  }

  lemma {:induction false} SumZero(n: nat, f: nat -> int)
    requires forall i: nat :: i < n ==> f(i) == 0
    ensures Sum(n, f) == 0
  {
    if n > 0 { SumZero(n - 1, f); }
  }

  lemma {:induction false} SumBetween(n: nat, f: nat -> int, g: nat -> int)
    requires forall i: nat :: i < n ==> f(i) <= g(i)
    ensures Sum(n, f) <= Sum(n, g)
  {
    if n > 0 { SumBetween(n - 1, f, g); }
  }

  // ---------------------------------------------------------------- weights

  function Max(a: int, b: int): int { if a < b then b else a }

  function Min(a: int, b: int): int { if a < b then a else b }

  /** How much of source cell `c` lies under output pixel `o`, on an axis of `width * px` units. */
  function Overlap(px: nat, width: nat, o: nat, c: nat): nat {
    Max(0, Min((o + 1) * width, (c + 1) * px) - Max(o * width, c * px))
  }

  /** A point of the axis brought into a stretch. */
  function Clip(t: int, lo: int, hi: int): int { Min(Max(t, lo), hi) }

  lemma OverlapIsDifference(px: nat, width: nat, o: nat, c: nat)
    ensures Overlap(px, width, o, c) == Clip((c + 1) * px, o * width, (o + 1) * width) - Clip(c * px, o * width, (o + 1) * width)
    ensures Overlap(px, width, o, c) == Clip((o + 1) * width, c * px, (c + 1) * px) - Clip(o * width, c * px, (c + 1) * px)
  {
    assert c * px <= (c + 1) * px && o * width <= (o + 1) * width;
  }

  lemma {:induction false} OverlapsUpTo(px: nat, width: nat, o: nat, n: nat)
    ensures Sum(n, (c: nat) => Overlap(px, width, o, c))
      == Clip(n * px, o * width, (o + 1) * width) - Clip(0, o * width, (o + 1) * width)
  {
    if n > 0 {
      OverlapsUpTo(px, width, o, n - 1);
      OverlapIsDifference(px, width, o, n - 1);
    }
  }

  lemma ClipWhole(t: int, lo: int, hi: int)
    requires 0 <= lo <= hi <= t
    ensures Clip(t, lo, hi) - Clip(0, lo, hi) == hi - lo
  {
  }

  /** The weights of an output pixel sum to `width`. */
  lemma WeightsOfPixel(px: nat, width: nat, o: nat)
    requires o < px
    ensures Sum(width, (c: nat) => Overlap(px, width, o, c)) == width
  {
    hide Overlap, Clip, Sum;
    OverlapsUpTo(px, width, o, width);
    Grow(o + 1, px, width);
    assert width * px == px * width && (o + 1) * width == o * width + width;
    ClipWhole(width * px, o * width, (o + 1) * width);
  }

  lemma {:induction false} OverlapsDownTo(px: nat, width: nat, c: nat, n: nat)
    ensures Sum(n, (o: nat) => Overlap(px, width, o, c))
      == Clip(n * width, c * px, (c + 1) * px) - Clip(0, c * px, (c + 1) * px)
  {
    if n > 0 {
      OverlapsDownTo(px, width, c, n - 1);
      OverlapIsDifference(px, width, n - 1, c);
    }
  }

  /** The weights a source cell gets from all output pixels sum to `px`. */
  lemma WeightsOfCell(px: nat, width: nat, c: nat)
    requires c < width
    ensures Sum(px, (o: nat) => Overlap(px, width, o, c)) == px
  {
    hide Overlap, Clip, Sum;
    OverlapsDownTo(px, width, c, px);
    Grow(c + 1, width, px);
    assert width * px == px * width && (c + 1) * px == c * px + px;
    ClipWhole(px * width, c * px, (c + 1) * px);
  }

  lemma Grow(a: nat, b: nat, c: nat)
    requires a <= b
    ensures a * c <= b * c
  {
  }

  // ---------------------------------------------------------------- the filter as a value

  /** One axis: the cells under an output pixel, each by its weight. */
  function Weighted(px: nat, width: nat, o: nat, v: nat -> int): int {
    Sum(width, (c: nat) => Overlap(px, width, o, c) * v(c))
  }

  /** Both axes. */
  function Blend(px: nat, width: nat, y: nat, x: nat, v: (nat, nat) -> int): int {
    Weighted(px, width, y, (r: nat) => Weighted(px, width, x, (c: nat) => v(r, c)))
  }

  function Rounded(sum: nat, width: nat): nat
    requires width > 0
  {
    (sum + width * width / 2) / (width * width)
  }

  /** The nearest whole number to the mean. */
  lemma RoundedIsNearest(sum: nat, width: nat)
    requires width > 0
    ensures var whole := width * width; -whole <= 2 * (Rounded(sum, width) * whole - sum) <= whole
  {
    var whole := width * width;
    var q := Rounded(sum, width);
    assert sum + whole / 2 == q * whole + (sum + whole / 2) % whole;
  }

  lemma {:induction false} WeightedUpTo(px: nat, width: nat, o: nat, v: nat -> int, lo: int, hi: int, n: nat)
    requires forall c: nat :: c < n && Overlap(px, width, o, c) > 0 ==> lo <= v(c) <= hi
    ensures var weights := Sum(n, (c: nat) => Overlap(px, width, o, c));
      lo * weights <= Sum(n, (c: nat) => Overlap(px, width, o, c) * v(c)) <= hi * weights
  {
    hide Overlap;
    if n > 0 {
      WeightedUpTo(px, width, o, v, lo, hi, n - 1);
      var w := Overlap(px, width, o, n - 1);
      if w > 0 { Between(w, lo, v(n - 1), hi); }
      Spread(lo, Sum(n - 1, (c: nat) => Overlap(px, width, o, c)), w);
      Spread(hi, Sum(n - 1, (c: nat) => Overlap(px, width, o, c)), w);
    }
  }

  lemma Spread(k: int, a: int, b: int)
    ensures k * (a + b) == k * a + k * b
  {
  }

  lemma WeightedBetween(px: nat, width: nat, o: nat, v: nat -> int, lo: int, hi: int)
    requires o < px && forall c: nat :: c < width && Overlap(px, width, o, c) > 0 ==> lo <= v(c) <= hi
    ensures lo * width <= Weighted(px, width, o, v) <= hi * width
  {
    hide Overlap;
    WeightsOfPixel(px, width, o);
    WeightedUpTo(px, width, o, v, lo, hi, width);
  }

  lemma Between(w: nat, lo: int, v: int, hi: int)
    requires lo <= v <= hi
    ensures lo * w <= w * v <= hi * w
  {
  }

  /** Every channel of an output pixel stays between the least and the greatest value it averages. */
  lemma BlendBetween(px: nat, width: nat, y: nat, x: nat, v: (nat, nat) -> int, lo: nat, hi: nat)
    requires 0 < width && y < px && x < px
    requires forall r: nat, c: nat | r < width && c < width && Overlap(px, width, y, r) > 0 && Overlap(px, width, x, c) > 0 ::
      lo <= v(r, c) <= hi
    ensures 0 <= Blend(px, width, y, x, v) && lo <= Rounded(Blend(px, width, y, x, v), width) <= hi
  {
    hide Overlap;
    var rows := (r: nat) => Weighted(px, width, x, (c: nat) => v(r, c));
    forall r: nat | r < width && Overlap(px, width, y, r) > 0 ensures lo * width <= rows(r) <= hi * width {
      hide Weighted;
      WeightedBetween(px, width, x, (c: nat) => v(r, c), lo, hi);
    }
    hide Weighted;
    WeightedBetween(px, width, y, rows, lo * width, hi * width);
    RoundedBetween(Blend(px, width, y, x, v), width, lo, hi);
  }

  lemma RoundedBetween(sum: int, width: nat, lo: nat, hi: nat)
    requires 0 < width && lo * width * width <= sum <= hi * width * width
    ensures 0 <= sum && lo <= Rounded(sum, width) <= hi
  {
    var k := width * width;
    assert lo * width * width == lo * k && hi * width * width == hi * k;
    assert 0 <= lo * k && k > 0;
    Quotient(sum + k / 2, k, lo, hi);
  }

  lemma Quotient(a: int, k: nat, lo: nat, hi: nat)
    requires k > 0 && lo * k <= a < hi * k + k
    ensures lo <= a / k <= hi
  {
    if a / k < lo { Grow(a / k + 1, lo, k); }
    if a / k > hi { Grow(hi + 1, a / k, k); }
  }

  // ---------------------------------------------------------------- conservation

  lemma {:induction false} CellUpTo(px: nat, width: nat, c: nat, k: int, n: nat)
    ensures Sum(n, (o: nat) => Overlap(px, width, o, c) * k) == k * Sum(n, (o: nat) => Overlap(px, width, o, c))
  {
    hide Overlap;
    if n > 0 {
      CellUpTo(px, width, c, k, n - 1);
      Spread(k, Sum(n - 1, (o: nat) => Overlap(px, width, o, c)), Overlap(px, width, n - 1, c));
    }
  }

  /** One axis: summed over all output pixels every cell counts `px` times. */
  lemma WeightedTotal(px: nat, width: nat, v: nat -> int)
    ensures Sum(px, (o: nat) => Weighted(px, width, o, v)) == px * Sum(width, v)
  {
    hide Overlap, Weighted;
    var f := (o: nat, c: nat) => Overlap(px, width, o, c) * v(c);
    var pixels := (o: nat) => Sum(width, (c: nat) => f(o, c));
    var cells := (c: nat) => Sum(px, (o: nat) => f(o, c));
    assert Sum(px, pixels) == Sum(width, cells) by { SumSwap(px, width, f); }
    forall o: nat | o < px ensures Weighted(px, width, o, v) == pixels(o) { PixelIs(px, width, o, v); }
    SumEqual(px, (o: nat) => Weighted(px, width, o, v), pixels);
    forall c: nat | c < width ensures cells(c) == px * v(c) { CellIs(px, width, c, v); }
    SumEqual(width, cells, (c: nat) => px * v(c));
    SumScaled(width, v, px);
  }

  lemma WeightedIs(px: nat, width: nat, o: nat, v: nat -> int)
    ensures Weighted(px, width, o, v) == Sum(width, (c: nat) => Overlap(px, width, o, c) * v(c))
  {
  }

  lemma PixelIs(px: nat, width: nat, o: nat, v: nat -> int)
    ensures var f := (i: nat, c: nat) => Overlap(px, width, i, c) * v(c);
      Weighted(px, width, o, v) == Sum(width, (c: nat) => f(o, c))
  {
    hide Overlap;
    var f := (i: nat, c: nat) => Overlap(px, width, i, c) * v(c);
    SumEqual(width, (c: nat) => Overlap(px, width, o, c) * v(c), (c: nat) => f(o, c));
  }

  lemma CellIs(px: nat, width: nat, c: nat, v: nat -> int)
    requires c < width
    ensures var f := (o: nat, k: nat) => Overlap(px, width, o, k) * v(k);
      Sum(px, (o: nat) => f(o, c)) == px * v(c)
  {
    hide Overlap;
    var f := (o: nat, k: nat) => Overlap(px, width, o, k) * v(k);
    SumEqual(px, (o: nat) => f(o, c), (o: nat) => Overlap(px, width, o, c) * v(c));
    CellUpTo(px, width, c, v(c), px);
    WeightsOfCell(px, width, c);
  }

  /** No light is lost: before rounding, the output pixels together weigh every cell exactly `px * px` times. */
  lemma BlendTotal(px: nat, width: nat, v: (nat, nat) -> int)
    ensures Sum(px, (y: nat) => Sum(px, (x: nat) => Blend(px, width, y, x, v)))
      == px * (px * Sum(width, (r: nat) => Sum(width, (c: nat) => v(r, c))))
  {
    hide Weighted, Blend;
    var rowTotal := (r: nat) => px * Sum(width, (c: nat) => v(r, c));
    forall y: nat | y < px ensures Sum(px, (x: nat) => Blend(px, width, y, x, v)) == Weighted(px, width, y, rowTotal) {
      LineTotal(px, width, y, v);
    }
    SumEqual(px, (y: nat) => Sum(px, (x: nat) => Blend(px, width, y, x, v)), (y: nat) => Weighted(px, width, y, rowTotal));
    WeightedTotal(px, width, rowTotal);
    SumScaled(width, (r: nat) => Sum(width, (c: nat) => v(r, c)), px);
    SumEqual(width, rowTotal, (r: nat) => px * ((k: nat) => Sum(width, (c: nat) => v(k, c)))(r));
  }

  /** One line of output. */
  lemma LineTotal(px: nat, width: nat, y: nat, v: (nat, nat) -> int)
    ensures var rowTotal := (r: nat) => px * Sum(width, (c: nat) => v(r, c));
      Sum(px, (x: nat) => Blend(px, width, y, x, v)) == Weighted(px, width, y, rowTotal)
  {
    hide Overlap;
    var rowTotal := (r: nat) => px * Sum(width, (c: nat) => v(r, c));
    var f := (x: nat, r: nat) => Overlap(px, width, y, r) * Weighted(px, width, x, (c: nat) => v(r, c));
    var rows := (r: nat) => Sum(px, (x: nat) => f(x, r));
    var columns := (x: nat) => Sum(width, (r: nat) => f(x, r));
    assert Sum(px, columns) == Sum(width, rows) by { SumSwap(px, width, f); }
    forall x: nat | x < px ensures Blend(px, width, y, x, v) == columns(x) {
      SumEqual(width, (r: nat) => Overlap(px, width, y, r) * ((k: nat) => Weighted(px, width, x, (c: nat) => v(k, c)))(r),
               (r: nat) => f(x, r));
    }
    SumEqual(px, (x: nat) => Blend(px, width, y, x, v), columns);
    hide Weighted;
    forall r: nat | r < width ensures rows(r) == Overlap(px, width, y, r) * rowTotal(r) {
      RowIs(px, width, y, r, v);
    }
    SumEqual(width, rows, (r: nat) => Overlap(px, width, y, r) * rowTotal(r));
    WeightedIs(px, width, y, rowTotal);
  }

  lemma RowIs(px: nat, width: nat, y: nat, r: nat, v: (nat, nat) -> int)
    ensures var f := (x: nat, k: nat) => Overlap(px, width, y, k) * Weighted(px, width, x, (c: nat) => v(k, c));
      Sum(px, (x: nat) => f(x, r)) == Overlap(px, width, y, r) * (px * Sum(width, (c: nat) => v(r, c)))
  {
    hide Overlap, Weighted;
    var f := (x: nat, k: nat) => Overlap(px, width, y, k) * Weighted(px, width, x, (c: nat) => v(k, c));
    var line := (c: nat) => v(r, c);
    var w := Overlap(px, width, y, r);
    SumEqual(px, (x: nat) => f(x, r), (x: nat) => w * ((k: nat) => Weighted(px, width, k, line))(x));
    SumScaled(px, (x: nat) => Weighted(px, width, x, line), w);
    WeightedTotal(px, width, line);
  }
}
