/** The loops of firmware/apps/wownny-muse/voice_ui.cc that fill the tap table and shrink the avatar, against
    the box filter. */
module AvatarScaler {
  import opened BoxFilter

  type Pixel = p: int | 0 <= p < 0x1_0000

  /** The source cells one output pixel takes, with their weights. */
  datatype Taps = Taps(first: nat, w: seq<nat>)

  datatype Channel = Red | Green | Blue

  function Brightest(k: Channel): nat { if k == Green then 63 else 31 }

  /** RGB565. */
  function Level(k: Channel, p: Pixel): (v: nat)
    ensures v <= Brightest(k)
  {
    match k
    case Red => p / 2048
    case Green => p / 32 % 64
    case Blue => p % 32
  }

  function Packed(r: nat, g: nat, b: nat): Pixel
    requires r <= 31 && g <= 63 && b <= 31
  {
    r * 2048 + g * 32 + b
  }

  lemma PackedLevels(r: nat, g: nat, b: nat)
    requires r <= 31 && g <= 63 && b <= 31
    ensures Level(Red, Packed(r, g, b)) == r && Level(Green, Packed(r, g, b)) == g && Level(Blue, Packed(r, g, b)) == b
  {
    var p := r * 2048 + g * 32 + b;
    assert p / 32 == r * 64 + g && p / 2048 == r;
  }

  lemma LevelsPacked(p: Pixel)
    ensures Packed(Level(Red, p), Level(Green, p), Level(Blue, p)) == p
  {
  }

  /** The image's cells of one channel. */
  function Cells(image: seq<Pixel>, width: nat, k: Channel): (nat, nat) -> int {
    (r: nat, c: nat) => if r * width + c < |image| then Level(k, image[r * width + c]) else 0
  }

  /** The output pixel the filter owes. */
  function Scaled(image: seq<Pixel>, width: nat, px: nat, y: nat, x: nat): Pixel
    requires 0 < width && y < px && x < px
  {
    LevelsStay(image, width, px, y, x);
    assert Fits(image, width, px, y, x, Red) && Fits(image, width, px, y, x, Green) && Fits(image, width, px, y, x, Blue);
    Packed(Rounded(Blend(px, width, y, x, Cells(image, width, Red)), width),
           Rounded(Blend(px, width, y, x, Cells(image, width, Green)), width),
           Rounded(Blend(px, width, y, x, Cells(image, width, Blue)), width))
  }

  /** A channel the filter gives fits its bits. */
  predicate Fits(image: seq<Pixel>, width: nat, px: nat, y: nat, x: nat, k: Channel)
    requires 0 < width
  {
    var sum := Blend(px, width, y, x, Cells(image, width, k));
    0 <= sum && Rounded(sum, width) <= Brightest(k)
  }

  lemma LevelsStay(image: seq<Pixel>, width: nat, px: nat, y: nat, x: nat)
    requires 0 < width && y < px && x < px
    ensures forall k :: Fits(image, width, px, y, x, k)
  {
    hide Overlap, Blend, Level;
    forall k ensures Fits(image, width, px, y, x, k) {
      forall r: nat, c: nat ensures 0 <= Cells(image, width, k)(r, c) <= Brightest(k) {
        var n := r * width + c;
        if n < |image| { assert Cells(image, width, k)(r, c) == Level(k, image[n]); }
      }
      BlendBetween(px, width, y, x, Cells(image, width, k), 0, Brightest(k));
    }
  }

  /** Each channel of a scaled pixel lies between the least and the greatest of the cells under it. */
  lemma ScaledBetween(image: seq<Pixel>, width: nat, px: nat, y: nat, x: nat, k: Channel, lo: nat, hi: nat)
    requires 0 < width && y < px && x < px && |image| == width * width
    requires forall r: nat, c: nat | r < width && c < width && Overlap(px, width, y, r) > 0 && Overlap(px, width, x, c) > 0 ::
      lo <= Cells(image, width, k)(r, c) <= hi
    ensures lo <= Level(k, Scaled(image, width, px, y, x)) <= hi
  {
    hide Overlap, Blend;
    LevelsStay(image, width, px, y, x);
    assert Fits(image, width, px, y, x, Red) && Fits(image, width, px, y, x, Green) && Fits(image, width, px, y, x, Blue);
    BlendBetween(px, width, y, x, Cells(image, width, k), lo, hi);
    PackedLevels(Rounded(Blend(px, width, y, x, Cells(image, width, Red)), width),
                 Rounded(Blend(px, width, y, x, Cells(image, width, Green)), width),
                 Rounded(Blend(px, width, y, x, Cells(image, width, Blue)), width));
    hide Level, Packed, Rounded;
  }

  lemma OneColour(image: seq<Pixel>, width: nat, px: nat, y: nat, x: nat, p: Pixel)
    requires 0 < width && y < px && x < px && |image| == width * width
    requires forall r: nat, c: nat, k | r < width && c < width && Overlap(px, width, y, r) > 0 && Overlap(px, width, x, c) > 0 ::
      Cells(image, width, k)(r, c) == Level(k, p)
    ensures Scaled(image, width, px, y, x) == p
  {
    hide Overlap, Blend, Scaled, Level, Packed;
    ScaledBetween(image, width, px, y, x, Red, Level(Red, p), Level(Red, p));
    ScaledBetween(image, width, px, y, x, Green, Level(Green, p), Level(Green, p));
    ScaledBetween(image, width, px, y, x, Blue, Level(Blue, p), Level(Blue, p));
    LevelsPacked(p);
    LevelsPacked(Scaled(image, width, px, y, x));
  }

  /** An image of one colour keeps it at every size. */
  lemma ConstantStays(image: seq<Pixel>, width: nat, px: nat, y: nat, x: nat, p: Pixel)
    requires 0 < width && y < px && x < px && |image| == width * width && forall n :: 0 <= n < |image| ==> image[n] == p
    ensures Scaled(image, width, px, y, x) == p
  {
    hide Overlap, Scaled, Level;
    forall r: nat, c: nat, k | r < width && c < width ensures Cells(image, width, k)(r, c) == Level(k, p) {
      InImage(r, c, width);
    }
    OneColour(image, width, px, y, x, p);
  }

  lemma InImage(r: nat, c: nat, width: nat)
    requires r < width && c < width
    ensures r * width + c < width * width
  {
    Grow(r + 1, width, width);
  }

  /** At the image's own size the filter changes nothing, so copying is right. */
  lemma SameSizeStays(image: seq<Pixel>, width: nat, y: nat, x: nat)
    requires y < width && x < width && |image| == width * width
    ensures y * width + x < |image| && Scaled(image, width, width, y, x) == image[y * width + x]
  {
    hide Scaled, Overlap, Cells;
    InImage(y, x, width);
    forall r: nat, c: nat, k | r < width && c < width && Overlap(width, width, y, r) > 0 && Overlap(width, width, x, c) > 0
      ensures Cells(image, width, k)(r, c) == Level(k, image[y * width + x])
    {
      OwnLevel(image, width, y, x, r, c, k);
    }
    OneColour(image, width, width, y, x, image[y * width + x]);
  }

  lemma OwnLevel(image: seq<Pixel>, width: nat, y: nat, x: nat, r: nat, c: nat, k: Channel)
    requires |image| == width * width && r < width && c < width && y * width + x < |image|
    requires Overlap(width, width, y, r) > 0 && Overlap(width, width, x, c) > 0
    ensures Cells(image, width, k)(r, c) == Level(k, image[y * width + x])
  {
    OwnCell(width, y, r);
    OwnCell(width, x, c);
    hide Overlap;
  }

  lemma OwnCell(width: nat, o: nat, c: nat)
    requires Overlap(width, width, o, c) > 0
    ensures c == o
  {
    if c < o { Grow(c + 1, o, width); }
    if o < c { Grow(o + 1, c, width); }
  }

  // ---------------------------------------------------------------- taps

  /** The taps are the whole of what lies under the pixel. */
  ghost predicate AreTaps(t: Taps, px: nat, width: nat, o: nat) {
    && |t.w| <= 3 && t.first + |t.w| <= width
    && (forall i :: 0 <= i < |t.w| ==> t.w[i] == Overlap(px, width, o, t.first + i))
    && (forall c: nat :: c < t.first || t.first + |t.w| <= c ==> Overlap(px, width, o, c) == 0)
  }

  lemma BeforeFirst(px: nat, width: nat, o: nat, c: nat)
    requires 0 < px && c < o * width / px
    ensures Overlap(px, width, o, c) == 0
  {
    Grow(c + 1, o * width / px, px);
    assert o * width / px * px <= o * width;
  }

  lemma AfterLast(px: nat, width: nat, o: nat, last: nat, c: nat)
    requires (o + 1) * width <= last * px && last <= c
    ensures Overlap(px, width, o, c) == 0
  {
    Grow(last, c, px);
  }

  lemma FirstCell(a: nat, px: nat)
    requires 0 < px
    ensures a / px * px <= a < (a / px + 1) * px && (a / px + 3) * px == (a / px + 1) * px + 2 * px
  {
  }

  lemma CellInside(px: nat, width: nat, o: nat, c: nat)
    requires o < px && c * px < (o + 1) * width
    ensures c < width
  {
    if c >= width {
      Grow(o + 1, px, width);
      Grow(width, c, px);
    }
  }

  lemma FirstInside(px: nat, width: nat, o: nat)
    requires 0 < px <= width && o < px
    ensures 0 <= o * width / px < width
  {
    FirstCell(o * width, px);
    CellInside(px, width, o, o * width / px);
  }

  /** The end of a pixel is less than three cells behind its first one. */
  lemma ThirdAtMost(px: nat, lo: nat, hi: nat, c: nat)
    requires 0 < px && lo <= hi <= lo + 2 * px && c * px < hi
    ensures c < lo / px + 3
  {
    FirstCell(lo, px);
    if c >= lo / px + 3 { Grow(lo / px + 3, c, px); }
  }

  lemma CellUnder(px: nat, lo: nat, hi: nat, c: nat)
    requires 0 < px && lo <= hi && lo / px <= c && c * px < hi
    ensures 0 <= Min(hi, (c + 1) * px) - Max(lo, c * px) <= px
  {
    FirstCell(lo, px);
    Grow(lo / px + 1, c + 1, px);
    assert (c + 1) * px == c * px + px;
  }

  /** A cell the loop reaches is under the pixel, inside the image, and the third at most. */
  lemma CellReached(px: nat, width: nat, o: nat, c: nat)
    requires 0 < px <= width <= 2 * px && o < px && o * width / px <= c && c * px < (o + 1) * width
    ensures c < width && c < o * width / px + 3
    ensures Overlap(px, width, o, c) == Min((o + 1) * width, (c + 1) * px) - Max(o * width, c * px) <= px
  {
    assert (o + 1) * width == o * width + width;
    CellInside(px, width, o, c);
    ThirdAtMost(px, o * width, (o + 1) * width, c);
    CellUnder(px, o * width, (o + 1) * width, c);
  }

  lemma TapsComplete(px: nat, width: nat, o: nat, c: nat, t: Taps)
    requires 0 < px && t.first == o * width / px && c == t.first + |t.w| <= width && |t.w| <= 3 && (o + 1) * width <= c * px
    requires forall i :: 0 <= i < |t.w| ==> t.w[i] == Overlap(px, width, o, t.first + i)
    ensures AreTaps(t, px, width, o)
  {
    hide Overlap;
    forall k: nat | k < t.first || c <= k ensures Overlap(px, width, o, k) == 0 {
      if k < t.first { BeforeFirst(px, width, o, k); } else { AfterLast(px, width, o, c, k); }
    }
  }

  predicate TapsSoFar(px: nat, width: nat, o: nat, first: nat, w: seq<nat>) {
    forall i :: 0 <= i < |w| ==> w[i] == Overlap(px, width, o, first + i) <= 255
  }

  lemma TapAdded(px: nat, width: nat, o: nat, first: nat, w: seq<nat>, weight: nat)
    requires TapsSoFar(px, width, o, first, w) && weight == Overlap(px, width, o, first + |w|) <= 255
    ensures TapsSoFar(px, width, o, first, w + [weight])
  {
    hide Overlap;
    var more := w + [weight];
    forall i | 0 <= i < |more| ensures more[i] == Overlap(px, width, o, first + i) <= 255 {
      if i < |w| { assert more[i] == w[i]; }
    }
  }

  // ---------------------------------------------------------------- the sums over taps

  /** The first `n` taps of one axis. */
  function TapSum(t: Taps, v: nat -> int, n: nat): int
    requires n <= |t.w|
  {
    if n == 0 then 0 else TapSum(t, v, n - 1) + t.w[n - 1] * v(t.first + n - 1)
  }

  lemma {:induction false} TapSumUpTo(t: Taps, px: nat, width: nat, o: nat, v: nat -> int, n: nat)
    requires AreTaps(t, px, width, o)
    ensures Sum(n, (c: nat) => Overlap(px, width, o, c) * v(c))
      == TapSum(t, v, if n <= t.first then 0 else if n <= t.first + |t.w| then n - t.first else |t.w|)
  {
    hide Overlap;
    if n > 0 { TapSumUpTo(t, px, width, o, v, n - 1); }
  }

  lemma TapSumIsWeighted(t: Taps, px: nat, width: nat, o: nat, v: nat -> int)
    requires AreTaps(t, px, width, o)
    ensures TapSum(t, v, |t.w|) == Weighted(px, width, o, v)
  {
    TapSumUpTo(t, px, width, o, v, width);
  }

  lemma {:induction false} TapSumEqual(t: Taps, v: nat -> int, w: nat -> int, n: nat)
    requires n <= |t.w| && forall r: nat :: v(r) == w(r)
    ensures TapSum(t, v, n) == TapSum(t, w, n)
  {
    if n > 0 { TapSumEqual(t, v, w, n - 1); }
  }

  /** Both axes by their taps. */
  lemma TapsBlend(ty: Taps, tx: Taps, px: nat, width: nat, y: nat, x: nat, v: (nat, nat) -> int)
    requires AreTaps(ty, px, width, y) && AreTaps(tx, px, width, x)
    ensures TapSum(ty, (r: nat) => TapSum(tx, (c: nat) => v(r, c), |tx.w|), |ty.w|) == Blend(px, width, y, x, v)
  {
    hide AreTaps, Weighted;
    var byTaps := (r: nat) => TapSum(tx, (c: nat) => v(r, c), |tx.w|);
    var weighted := (r: nat) => Weighted(px, width, x, (c: nat) => v(r, c));
    forall r: nat ensures byTaps(r) == weighted(r) { TapSumIsWeighted(tx, px, width, x, (c: nat) => v(r, c)); }
    TapSumEqual(ty, byTaps, weighted, |ty.w|);
    TapSumIsWeighted(ty, px, width, y, weighted);
  }

  /** The first `j` lines of taps. */
  ghost function Lines(ty: Taps, tx: Taps, image: seq<Pixel>, width: nat, k: Channel, j: nat): int
    requires j <= |ty.w|
  {
    TapSum(ty, (r: nat) => TapSum(tx, (c: nat) => Cells(image, width, k)(r, c), |tx.w|), j)
  }

  /** And the first `i` taps of the next one. */
  ghost function Partly(ty: Taps, tx: Taps, image: seq<Pixel>, width: nat, k: Channel, j: nat, i: nat): int
    requires j < |ty.w| && i <= |tx.w|
  {
    Lines(ty, tx, image, width, k, j) + ty.w[j] * TapSum(tx, (c: nat) => Cells(image, width, k)(ty.first + j, c), i)
  }

  lemma LinesBlend(ty: Taps, tx: Taps, px: nat, width: nat, y: nat, x: nat, image: seq<Pixel>, k: Channel)
    requires AreTaps(ty, px, width, y) && AreTaps(tx, px, width, x)
    ensures Lines(ty, tx, image, width, k, |ty.w|) == Blend(px, width, y, x, Cells(image, width, k))
  {
    hide AreTaps, Blend, TapSum, Cells;
    TapsBlend(ty, tx, px, width, y, x, Cells(image, width, k));
  }

  lemma NoTaps(ty: Taps, tx: Taps, image: seq<Pixel>, width: nat, k: Channel)
    ensures Lines(ty, tx, image, width, k, 0) == 0
  {
  }

  lemma OneTapMore(ty: Taps, tx: Taps, image: seq<Pixel>, width: nat, k: Channel, j: nat, i: nat)
    requires j < |ty.w| && i < |tx.w| && (ty.first + j) * width + (tx.first + i) < |image|
    ensures var v := Level(k, image[(ty.first + j) * width + (tx.first + i)]);
      Partly(ty, tx, image, width, k, j, i + 1) == Partly(ty, tx, image, width, k, j, i) + ty.w[j] * tx.w[i] * v
  {
    hide Level, Lines;
    var v := Level(k, image[(ty.first + j) * width + (tx.first + i)]);
    var line := (c: nat) => Cells(image, width, k)(ty.first + j, c);
    CellAt(image, width, k, ty.first + j, tx.first + i);
    Spread(ty.w[j], TapSum(tx, line, i), tx.w[i] * v);
    Regroup(ty.w[j], tx.w[i], v);
  }

  lemma CellAt(image: seq<Pixel>, width: nat, k: Channel, r: nat, c: nat)
    requires r * width + c < |image|
    ensures Cells(image, width, k)(r, c) == Level(k, image[r * width + c])
  {
  }

  lemma Regroup(a: int, b: int, c: int)
    ensures a * (b * c) == a * b * c
  {
  }

  lemma LineStarts(ty: Taps, tx: Taps, image: seq<Pixel>, width: nat, k: Channel, j: nat)
    requires j < |ty.w|
    ensures Lines(ty, tx, image, width, k, j) == Partly(ty, tx, image, width, k, j, 0)
  {
    hide Lines;
  }

  lemma LineDone(ty: Taps, tx: Taps, image: seq<Pixel>, width: nat, k: Channel, j: nat)
    requires j < |ty.w|
    ensures Partly(ty, tx, image, width, k, j, |tx.w|) == Lines(ty, tx, image, width, k, j + 1)
  {
  }

  /** Pixel `n` of the output, line by line. */
  function Owed(image: seq<Pixel>, width: nat, px: nat, n: nat): Pixel
    requires 0 < width && n < px * px
  {
    LineOf(n, px);
    Scaled(image, width, px, n / px, n % px)
  }

  lemma LineOf(n: nat, px: nat)
    requires n < px * px
    ensures n / px < px && n / px * px + n % px == n
  {
    if n / px >= px { Grow(px, n / px, px); }
  }

  lemma OwedAt(image: seq<Pixel>, width: nat, px: nat, y: nat, x: nat)
    requires 0 < width && y < px && x < px
    ensures y * px + x < px * px && Owed(image, width, px, y * px + x) == Scaled(image, width, px, y, x)
  {
    hide Scaled;
    PlaceOf(y, x, px);
  }

  lemma CopyIsScaled(image: seq<Pixel>, width: nat)
    requires 0 < width && |image| == width * width
    ensures forall n :: 0 <= n < width * width ==> image[n] == Owed(image, width, width, n)
  {
    hide Scaled;
    forall n | 0 <= n < width * width ensures image[n] == Owed(image, width, width, n) {
      LineOf(n, width);
      SameSizeStays(image, width, n / width, n % width);
    }
  }

  lemma NextLine(y: nat, px: nat)
    requires y < px
    ensures (y + 1) * px == y * px + px && y * px + px <= px * px
  {
    Grow(y + 1, px, px);
  }

  lemma PlaceOf(y: nat, x: nat, px: nat)
    requires y < px && x < px
    ensures y * px + x < px * px && (y * px + x) / px == y && (y * px + x) % px == x
  {
    Grow(y + 1, px, px);
    var n := y * px + x;
    if n / px < y { Grow(n / px + 1, y, px); }
    if n / px > y { Grow(y + 1, n / px, px); }
  }

  class Avatar {
    const width: nat
    const grid: array<Pixel>
    const taps: array<Taps>
    const buffer: array<Pixel>

    ghost predicate Valid()
      reads this
    {
      0 < width <= 255 && grid.Length == width * width && grid != buffer
    }

    ghost predicate TapsFor(px: nat)
      reads this, taps
    {
      px <= taps.Length && forall o :: 0 <= o < px ==> AreTaps(taps[o], px, width, o)
    }

    constructor (w: nat, biggest: nat)
      requires 0 < w <= 255
      ensures Valid() && width == w && taps.Length == biggest && buffer.Length == biggest * biggest
      ensures fresh(grid) && fresh(taps) && fresh(buffer)
    {
      width := w;
      grid := new Pixel[w * w];
      taps := new Taps[biggest](_ => Taps(0, []));
      buffer := new Pixel[biggest * biggest];
    }

    /** The table for a size at most the image's and at least half of it: three taps a pixel at most, their
        weights single bytes. */
    method InitTaps(px: nat)
      requires Valid() && 0 < px <= width <= 2 * px && px <= taps.Length
      modifies taps
      ensures TapsFor(px)
      ensures forall o, i :: 0 <= o < px && 0 <= i < |taps[o].w| ==> taps[o].w[i] <= 255
    {
      hide AreTaps;
      for o := 0 to px
        invariant forall k :: 0 <= k < o ==> AreTaps(taps[k], px, width, k) && forall i :: 0 <= i < |taps[k].w| ==> taps[k].w[i] <= 255
      {
        var t := TapsOf(px, o);
        taps[o] := t;
      }
    }

    method TapsOf(px: nat, o: nat) returns (t: Taps)
      requires Valid() && 0 < px <= width <= 2 * px && o < px
      ensures AreTaps(t, px, width, o) && forall i :: 0 <= i < |t.w| ==> t.w[i] <= 255
    {
      hide Overlap, AreTaps;
      FirstInside(px, width, o);
      var first: nat := o * width / px;
      var w: seq<nat> := [];
      while (first + |w|) * px < (o + 1) * width
        invariant first + |w| <= width && |w| <= 3
        invariant TapsSoFar(px, width, o, first, w)
        decreases 3 - |w|
      {
        var weight := WeightOf(px, o, first + |w|);
        TapAdded(px, width, o, first, w, weight);
        w := w + [weight];
      }
      t := Taps(first, w);
      TapsComplete(px, width, o, first + |w|, t);
    }

    /** What of a cell that the loop reaches lies under the pixel. */
    method WeightOf(px: nat, o: nat, c: nat) returns (weight: nat)
      requires Valid() && 0 < px <= width <= 2 * px && o < px && o * width / px <= c && c * px < (o + 1) * width
      ensures weight == Overlap(px, width, o, c) <= 255 && c < width && c < o * width / px + 3
    {
      hide Overlap, Min, Max;
      CellReached(px, width, o, c);
      weight := Min((o + 1) * width, (c + 1) * px) - Max(o * width, c * px);
    }

    /** Fills the buffer with the scaled image. */
    method ShrinkAvatar(px: nat)
      requires Valid() && 0 < px <= width && TapsFor(px) && px * px <= buffer.Length
      modifies buffer
      ensures Filled(px, px * px)
    {
      hide Owed, TapsFor;
      if px == width {
        forall n | 0 <= n < px * px { buffer[n] := grid[n]; }
        CopyIsScaled(grid[..], width);
        return;
      }
      for y := 0 to px
        invariant y * px <= px * px && Filled(px, y * px)
      {
        NextLine(y, px);
        ShrinkLine(px, y);
      }
    }

    /** The first `n` pixels are done. */
    ghost predicate Filled(px: nat, n: nat)
      reads this, grid, buffer
      requires Valid() && n <= px * px <= buffer.Length
    {
      forall k :: 0 <= k < n ==> buffer[k] == Owed(grid[..], width, px, k)
    }

    method ShrinkLine(px: nat, y: nat)
      requires Valid() && 0 < px <= width && TapsFor(px) && y < px && y * px + px <= px * px <= buffer.Length && Filled(px, y * px)
      modifies buffer
      ensures Filled(px, y * px + px)
    {
      hide Owed, Scaled, AreTaps;
      var base := y * px;
      for x := 0 to px
        invariant Filled(px, base + x)
      {
        var p := BlendPixel(px, y, x);
        OwedAt(grid[..], width, px, y, x);
        buffer[base + x] := p;
      }
    }

    method BlendPixel(px: nat, y: nat, x: nat) returns (p: Pixel)
      requires Valid() && TapsFor(px) && y < px && x < px
      ensures p == Scaled(grid[..], width, px, y, x)
    {
      hide Blend, AreTaps, Rounded, Packed;
      var r, g, b := SumChannels(taps[y], taps[x], px, y, x);
      LevelsStay(grid[..], width, px, y, x);
      assert Fits(grid[..], width, px, y, x, Red) && Fits(grid[..], width, px, y, x, Green) && Fits(grid[..], width, px, y, x, Blue);
      p := Packed(Rounded(r, width), Rounded(g, width), Rounded(b, width));
    }

    /** The weighted sums of the three channels over the taps of both axes. */
    method SumChannels(ty: Taps, tx: Taps, px: nat, y: nat, x: nat) returns (r: int, g: int, b: int)
      requires Valid() && AreTaps(ty, px, width, y) && AreTaps(tx, px, width, x)
      ensures r == Blend(px, width, y, x, Cells(grid[..], width, Red))
      ensures g == Blend(px, width, y, x, Cells(grid[..], width, Green))
      ensures b == Blend(px, width, y, x, Cells(grid[..], width, Blue))
    {
      hide Level, Blend, Overlap, TapSum, Lines, Partly;
      ghost var image := grid[..];
      r, g, b := 0, 0, 0;
      NoTaps(ty, tx, image, width, Red);
      NoTaps(ty, tx, image, width, Green);
      NoTaps(ty, tx, image, width, Blue);
      for j := 0 to |ty.w|
        invariant r == Lines(ty, tx, image, width, Red, j)
        invariant g == Lines(ty, tx, image, width, Green, j)
        invariant b == Lines(ty, tx, image, width, Blue, j)
      {
        r, g, b := AddLine(ty, tx, j, r, g, b);
      }
      LinesBlend(ty, tx, px, width, y, x, image, Red);
      LinesBlend(ty, tx, px, width, y, x, image, Green);
      LinesBlend(ty, tx, px, width, y, x, image, Blue);
    }

    /** The inner loop: one line of taps. */
    method AddLine(ty: Taps, tx: Taps, j: nat, r0: int, g0: int, b0: int) returns (r: int, g: int, b: int)
      requires Valid() && j < |ty.w| && ty.first + |ty.w| <= width && tx.first + |tx.w| <= width
      requires r0 == Lines(ty, tx, grid[..], width, Red, j)
      requires g0 == Lines(ty, tx, grid[..], width, Green, j)
      requires b0 == Lines(ty, tx, grid[..], width, Blue, j)
      ensures r == Lines(ty, tx, grid[..], width, Red, j + 1)
      ensures g == Lines(ty, tx, grid[..], width, Green, j + 1)
      ensures b == Lines(ty, tx, grid[..], width, Blue, j + 1)
    {
      hide Level, Lines, Partly, TapSum;
      ghost var image := grid[..];
      r, g, b := r0, g0, b0;
      LineStarts(ty, tx, image, width, Red, j);
      LineStarts(ty, tx, image, width, Green, j);
      LineStarts(ty, tx, image, width, Blue, j);
      for i := 0 to |tx.w|
        invariant r == Partly(ty, tx, image, width, Red, j, i)
        invariant g == Partly(ty, tx, image, width, Green, j, i)
        invariant b == Partly(ty, tx, image, width, Blue, j, i)
      {
        var w := ty.w[j] * tx.w[i];
        InImage(ty.first + j, tx.first + i, width);
        var p := grid[(ty.first + j) * width + (tx.first + i)];
        OneTapMore(ty, tx, image, width, Red, j, i);
        OneTapMore(ty, tx, image, width, Green, j, i);
        OneTapMore(ty, tx, image, width, Blue, j, i);
        r := r + w * Level(Red, p);
        g := g + w * Level(Green, p);
        b := b + w * Level(Blue, p);
      }
      LineDone(ty, tx, image, width, Red, j);
      LineDone(ty, tx, image, width, Green, j);
      LineDone(ty, tx, image, width, Blue, j);
    }
  }
}
