/** firmware/apps/waveshare-epaper-397-wifi/epaper_frame.h: the 1-bit-per-pixel frame of the 3.97" panel.
    The buffer is laid out for the 800x480 panel, the user interface is 480x800 and turned by a quarter. */
module EpaperFrame {
  const PANEL_WIDTH := 800
  const PANEL_HEIGHT := 480
  const UI_WIDTH := 480
  const UI_HEIGHT := 800
  const STRIDE := 100
  const FRAME_BYTES := 48000

  /** Native pixels, end exclusive. */
  datatype Rect = Rect(x0: int, y0: int, x1: int, y1: int)

  predicate InTextBox(x: int, y: int, left: int, top: int, right: int, bottom: int) {
    left <= x < right && top <= y < bottom
  }

  predicate OnUi(x: int, y: int) { 0 <= x < UI_WIDTH && 0 <= y < UI_HEIGHT }

  predicate OnPanel(nx: int, ny: int) { 0 <= nx < PANEL_WIDTH && 0 <= ny < PANEL_HEIGHT }

  /** `0x80 >> bit`. */
  function Mask(bit: nat): bv8
    requires bit < 8
  {
    match bit
    case 0 => 0x80 case 1 => 0x40 case 2 => 0x20 case 3 => 0x10
    case 4 => 0x08 case 5 => 0x04 case 6 => 0x02 case _ => 0x01
  }

  predicate BitSet(b: bv8, bit: nat)
    requires bit < 8
  {
    b & Mask(bit) != 0
  }

  /** The panel's own pixel: a set bit is white. */
  predicate PanelWhite(frame: seq<bv8>, nx: int, ny: int)
    requires |frame| == FRAME_BYTES && OnPanel(nx, ny)
  {
    BitSet(frame[ny * STRIDE + nx / 8], nx % 8)
  }

  /** The user interface's pixel: its x runs up the panel's rows, its y along the columns. */
  predicate White(frame: seq<bv8>, x: int, y: int)
    requires |frame| == FRAME_BYTES && OnUi(x, y)
  {
    PanelWhite(frame, y, PANEL_HEIGHT - 1 - x)
  }

  // ---------------------------------------------------------------- bits

  lemma ClearedBit(b: bv8, bit: nat, other: nat)
    requires bit < 8 && other < 8
    ensures BitSet(b & !Mask(bit), other) == (BitSet(b, other) && other != bit)
  {
  }

  lemma RaisedBit(b: bv8, bit: nat, other: nat)
    requires bit < 8 && other < 8
    ensures BitSet(b | Mask(bit), other) == (BitSet(b, other) || other == bit)
  {
  }

  lemma SameBits(a: bv8, b: bv8)
    requires forall bit: nat :: bit < 8 ==> BitSet(a, bit) == BitSet(b, bit)
    ensures a == b
  {
    assert BitSet(a, 0) == BitSet(b, 0) && BitSet(a, 1) == BitSet(b, 1) && BitSet(a, 2) == BitSet(b, 2) && BitSet(a, 3) == BitSet(b, 3);
    assert BitSet(a, 4) == BitSet(b, 4) && BitSet(a, 5) == BitSet(b, 5) && BitSet(a, 6) == BitSet(b, 6) && BitSet(a, 7) == BitSet(b, 7);
  }

  /** A byte holds eight pixels of one panel row. */
  lemma ByteOfPixels(k: nat, bit: nat)
    requires k < FRAME_BYTES && bit < 8
    ensures OnPanel(k % STRIDE * 8 + bit, k / STRIDE)
    ensures k / STRIDE * STRIDE + (k % STRIDE * 8 + bit) / 8 == k
    ensures (k % STRIDE * 8 + bit) % 8 == bit
  {
  }

  /** Two frames with the same pixels are the same bytes. */
  lemma SamePixels(f: seq<bv8>, g: seq<bv8>)
    requires |f| == |g| == FRAME_BYTES
    requires forall x, y :: OnUi(x, y) ==> White(f, x, y) == White(g, x, y)
    ensures f == g
  {
    forall k | 0 <= k < FRAME_BYTES ensures f[k] == g[k] {
      forall bit: nat | bit < 8 ensures BitSet(f[k], bit) == BitSet(g[k], bit) {
        ByteOfPixels(k, bit);
        var nx, ny := k % STRIDE * 8 + bit, k / STRIDE;
        assert White(f, PANEL_HEIGHT - 1 - ny, nx) == White(g, PANEL_HEIGHT - 1 - ny, nx);
      }
      SameBits(f[k], g[k]);
    }
  }

  /** Distinct pixels sit in distinct bits. */
  lemma PixelPlace(x: int, y: int, u: int, v: int)
    requires OnUi(x, y) && OnUi(u, v)
    ensures var i := (PANEL_HEIGHT - 1 - x) * STRIDE + y / 8;
      var j := (PANEL_HEIGHT - 1 - u) * STRIDE + v / 8;
      0 <= i < FRAME_BYTES && 0 <= j < FRAME_BYTES && (i == j && y % 8 == v % 8 <==> x == u && y == v)
  {
  }

  // ---------------------------------------------------------------- drawing

  method BlackPixel(frame: array<bv8>, x: int, y: int)
    requires frame.Length == FRAME_BYTES
    modifies frame
    ensures forall u, v :: OnUi(u, v) ==> White(frame[..], u, v) == (White(old(frame[..]), u, v) && !(u == x && v == y))
  {
    if x < 0 || x >= UI_WIDTH || y < 0 || y >= UI_HEIGHT { return; }
    var nx, ny := y, PANEL_HEIGHT - 1 - x;
    var i := ny * STRIDE + nx / 8;
    frame[i] := frame[i] & !Mask(nx % 8);
    hide White, Mask;
    assert frame[..] == Blackened(old(frame[..]), x, y);
    forall u, v | OnUi(u, v)
      ensures White(frame[..], u, v) == (White(old(frame[..]), u, v) && !(u == x && v == y))
    {
      BlackenedPixel(old(frame[..]), x, y, u, v);
    }
  }

  function Blackened(f: seq<bv8>, x: int, y: int): seq<bv8>
    requires |f| == FRAME_BYTES && OnUi(x, y)
  {
    var i := (PANEL_HEIGHT - 1 - x) * STRIDE + y / 8;
    f[i := f[i] & !Mask(y % 8)]
  }

  lemma BlackenedPixel(f: seq<bv8>, x: int, y: int, u: int, v: int)
    requires |f| == FRAME_BYTES && OnUi(x, y) && OnUi(u, v)
    ensures White(Blackened(f, x, y), u, v) == (White(f, u, v) && !(u == x && v == y))
  {
    hide Mask, BitSet;
    PixelPlace(x, y, u, v);
    ClearedBit(f[(PANEL_HEIGHT - 1 - x) * STRIDE + y / 8], y % 8, v % 8);
  }

  function Whitened(f: seq<bv8>, x: int, y: int): seq<bv8>
    requires |f| == FRAME_BYTES && OnUi(x, y)
  {
    var i := (PANEL_HEIGHT - 1 - x) * STRIDE + y / 8;
    f[i := f[i] | Mask(y % 8)]
  }

  lemma WhitenedPixel(f: seq<bv8>, x: int, y: int, u: int, v: int)
    requires |f| == FRAME_BYTES && OnUi(x, y) && OnUi(u, v)
    ensures White(Whitened(f, x, y), u, v) == (White(f, u, v) || (u == x && v == y))
  {
    hide Mask, BitSet;
    PixelPlace(x, y, u, v);
    RaisedBit(f[(PANEL_HEIGHT - 1 - x) * STRIDE + y / 8], y % 8, v % 8);
  }

  /** Whitens the pixels of the box that lie on the panel. */
  method ClearBox(frame: array<bv8>, x0: int, y0: int, x1: int, y1: int)
    requires frame.Length == FRAME_BYTES
    modifies frame
    ensures forall u, v :: OnUi(u, v) ==>
      White(frame[..], u, v) == (White(old(frame[..]), u, v) || InTextBox(u, v, x0, y0, x1, y1))
  {
    hide White;
    var x := x0;
    while x < x1
      invariant x == x0 || x0 < x <= x1
      invariant forall u, v :: OnUi(u, v) ==>
        White(frame[..], u, v) == (White(old(frame[..]), u, v) || InTextBox(u, v, x0, y0, x, y1))
    {
      var y := y0;
      while y < y1
        invariant y == y0 || y0 < y <= y1
        invariant forall u, v :: OnUi(u, v) ==>
          White(frame[..], u, v) ==
            (White(old(frame[..]), u, v) || InTextBox(u, v, x0, y0, x, y1) || InTextBox(u, v, x, y0, x + 1, y))
      {
        if x < 0 || x >= UI_WIDTH || y < 0 || y >= UI_HEIGHT {
        } else {
          WhitePixel(frame, x, y);
        }
        y := y + 1;
      }
      x := x + 1;
    }
  }

  /** The body of ClearBox's inner loop on a pixel of the panel. */
  method WhitePixel(frame: array<bv8>, x: int, y: int)
    requires frame.Length == FRAME_BYTES && OnUi(x, y)
    modifies frame
    ensures forall u, v :: OnUi(u, v) ==> White(frame[..], u, v) == (White(old(frame[..]), u, v) || (u == x && v == y))
  {
    var nx, ny := y, PANEL_HEIGHT - 1 - x;
    var i := ny * STRIDE + nx / 8;
    frame[i] := frame[i] | Mask(nx % 8);
    hide White, Mask;
    assert frame[..] == Whitened(old(frame[..]), x, y);
    forall u, v | OnUi(u, v)
      ensures White(frame[..], u, v) == (White(old(frame[..]), u, v) || (u == x && v == y))
    {
      WhitenedPixel(old(frame[..]), x, y, u, v);
    }
  }

  // ---------------------------------------------------------------- the changed region

  predicate InRect(nx: int, ny: int, r: Rect) { r.x0 <= nx < r.x1 && r.y0 <= ny < r.y1 }

  /** Every panel pixel in which the two frames differ lies in the rectangle. */
  ghost predicate CoversChanges(f: seq<bv8>, g: seq<bv8>, r: Rect)
    requires |f| == |g| == FRAME_BYTES
  {
    forall nx, ny :: OnPanel(nx, ny) && PanelWhite(f, nx, ny) != PanelWhite(g, nx, ny) ==> InRect(nx, ny, r)
  }

  /** The smallest rectangle with byte-aligned columns that covers every changed pixel. */
  ghost predicate Smallest(f: seq<bv8>, g: seq<bv8>, rect: Rect)
    requires |f| == |g| == FRAME_BYTES
  {
    && rect.x0 % 8 == 0 && rect.x1 % 8 == 0 && CoversChanges(f, g, rect)
    && forall r: Rect :: r.x0 % 8 == 0 && r.x1 % 8 == 0 && CoversChanges(f, g, r)
         ==> r.x0 <= rect.x0 && rect.x1 <= r.x1 && r.y0 <= rect.y0 && rect.y1 <= r.y1
  }

  lemma SmallestIsOne(f: seq<bv8>, g: seq<bv8>, r: Rect, s: Rect)
    requires |f| == |g| == FRAME_BYTES && Smallest(f, g, r) && Smallest(f, g, s)
    ensures r == s
  {
    hide CoversChanges;
  }

  /** Some pixel of a byte that differs differs. */
  lemma DifferingPixel(f: seq<bv8>, g: seq<bv8>, k: nat) returns (nx: int, ny: int)
    requires |f| == |g| == FRAME_BYTES && k < FRAME_BYTES && f[k] != g[k]
    ensures OnPanel(nx, ny) && PanelWhite(f, nx, ny) != PanelWhite(g, nx, ny)
    ensures nx / 8 == k % STRIDE && ny == k / STRIDE
  {
    if forall bit: nat :: bit < 8 ==> BitSet(f[k], bit) == BitSet(g[k], bit) {
      SameBits(f[k], g[k]);
    }
    var bit: nat :| bit < 8 && BitSet(f[k], bit) != BitSet(g[k], bit);
    ByteOfPixels(k, bit);
    nx, ny := k % STRIDE * 8 + bit, k / STRIDE;
  }

  /** False exactly when nothing changed; otherwise the smallest rectangle, and it lies on the panel. */
  method ChangedRect(frame: array<bv8>, previous: array<bv8>) returns (changed: bool, rect: Rect)
    requires frame.Length == previous.Length == FRAME_BYTES
    ensures changed == (frame[..] != previous[..])
    ensures changed ==>
      && 0 <= rect.x0 < rect.x1 <= PANEL_WIDTH && 0 <= rect.y0 < rect.y1 <= PANEL_HEIGHT
      && Smallest(frame[..], previous[..], rect)
  {
    hide Bounds, CoversChanges;
    var left, right, top, bottom := STRIDE, -1, PANEL_HEIGHT, -1;
    // The bytes that last moved each bound.
    ghost var seen := Seen(0, 0, 0, 0);
    NoBytes(frame[..], previous[..], seen);
    for y := 0 to PANEL_HEIGHT
      invariant Bounds(frame[..], previous[..], y * STRIDE, left, right, top, bottom, seen)
    {
      for x := 0 to STRIDE
        invariant Bounds(frame[..], previous[..], y * STRIDE + x, left, right, top, bottom, seen)
      {
        var k := y * STRIDE + x;
        NextByte(frame[..], previous[..], x, y, left, right, top, bottom, seen);
        if frame[k] == previous[k] { continue; }
        if x < left { left := x; seen := seen.(left := k); }
        if x > right { right := x; seen := seen.(right := k); }
        if y < top { top := y; seen := seen.(top := k); }
        if y > bottom { bottom := y; seen := seen.(bottom := k); }
      }
    }
    if right < 0 {
      NothingSeen(frame[..], previous[..], left, right, top, bottom, seen);
      return false, Rect(0, 0, 0, 0);
    }
    changed, rect := true, Rect(left * 8, top, (right + 1) * 8, bottom + 1);
    BoundsAreTight(frame[..], previous[..], left, right, top, bottom, seen);
  }

  /** For each bound, the byte that moved it last. */
  datatype Seen = Seen(left: nat, right: nat, top: nat, bottom: nat)

  /** ChangedRect after `n` bytes: no difference outside the bounds, and each bound is a difference. */
  ghost predicate Bounds(f: seq<bv8>, g: seq<bv8>, n: nat, left: int, right: int, top: int, bottom: int, seen: Seen)
    requires |f| == |g| == FRAME_BYTES
  {
    && n <= FRAME_BYTES
    && (forall k :: 0 <= k < n && f[k] != g[k] ==> left <= k % STRIDE <= right && top <= k / STRIDE <= bottom)
    && (if right < 0 then left == STRIDE && right == -1 && top == PANEL_HEIGHT && bottom == -1 else
          && seen.left < n && seen.right < n && seen.top < n && seen.bottom < n
          && f[seen.left] != g[seen.left] && seen.left % STRIDE == left
          && f[seen.right] != g[seen.right] && seen.right % STRIDE == right
          && f[seen.top] != g[seen.top] && seen.top / STRIDE == top
          && f[seen.bottom] != g[seen.bottom] && seen.bottom / STRIDE == bottom)
  }

  lemma NoBytes(f: seq<bv8>, g: seq<bv8>, seen: Seen)
    requires |f| == |g| == FRAME_BYTES
    ensures Bounds(f, g, 0, STRIDE, -1, PANEL_HEIGHT, -1, seen)
  {
  }

  lemma NothingSeen(f: seq<bv8>, g: seq<bv8>, left: int, right: int, top: int, bottom: int, seen: Seen)
    requires |f| == |g| == FRAME_BYTES
    requires Bounds(f, g, FRAME_BYTES, left, right, top, bottom, seen) && right < 0
    ensures f == g
  {
  }

  lemma NextByte(f: seq<bv8>, g: seq<bv8>, x: nat, y: nat, left: int, right: int, top: int, bottom: int, seen: Seen)
    requires |f| == |g| == FRAME_BYTES && x < STRIDE && y < PANEL_HEIGHT
    requires Bounds(f, g, y * STRIDE + x, left, right, top, bottom, seen)
    ensures var k := y * STRIDE + x;
      if f[k] == g[k] then Bounds(f, g, k + 1, left, right, top, bottom, seen) else
        Bounds(f, g, k + 1, if x < left then x else left, if x > right then x else right,
               if y < top then y else top, if y > bottom then y else bottom,
               Seen(if x < left then k else seen.left, if x > right then k else seen.right,
                    if y < top then k else seen.top, if y > bottom then k else seen.bottom))
  {
    hide Bounds;
    var k := y * STRIDE + x;
    PlaceOfByte(x, y);
    if f[k] == g[k] {
      SameBounds(f, g, k, left, right, top, bottom, seen);
    } else {
      WiderBounds(f, g, k, left, right, top, bottom, seen);
    }
  }

  lemma SameBounds(f: seq<bv8>, g: seq<bv8>, k: nat, left: int, right: int, top: int, bottom: int, seen: Seen)
    requires |f| == |g| == FRAME_BYTES && k < FRAME_BYTES && f[k] == g[k]
    requires Bounds(f, g, k, left, right, top, bottom, seen)
    ensures Bounds(f, g, k + 1, left, right, top, bottom, seen)
  {
  }

  lemma PlaceOfByte(x: nat, y: nat)
    requires x < STRIDE && y < PANEL_HEIGHT
    ensures y * STRIDE + x < FRAME_BYTES && (y * STRIDE + x) / STRIDE == y && (y * STRIDE + x) % STRIDE == x
  {
  }

  /** Byte `k` differs. */
  lemma WiderBounds(f: seq<bv8>, g: seq<bv8>, k: nat, left: int, right: int, top: int, bottom: int, seen: Seen)
    requires |f| == |g| == FRAME_BYTES && k < FRAME_BYTES && f[k] != g[k]
    requires Bounds(f, g, k, left, right, top, bottom, seen)
    ensures var x, y := k % STRIDE, k / STRIDE;
      Bounds(f, g, k + 1, if x < left then x else left, if x > right then x else right,
             if y < top then y else top, if y > bottom then y else bottom,
             Seen(if x < left then k else seen.left, if x > right then k else seen.right,
                  if y < top then k else seen.top, if y > bottom then k else seen.bottom))
  {
  }

  lemma BoundsAreTight(f: seq<bv8>, g: seq<bv8>, left: int, right: int, top: int, bottom: int, seen: Seen)
    requires |f| == |g| == FRAME_BYTES && 0 <= right
    requires Bounds(f, g, FRAME_BYTES, left, right, top, bottom, seen)
    ensures f != g
    ensures 0 <= left <= right < STRIDE && 0 <= top <= bottom < PANEL_HEIGHT
    ensures var rect := Rect(left * 8, top, (right + 1) * 8, bottom + 1);
      && CoversChanges(f, g, rect)
      && forall r: Rect :: r.x0 % 8 == 0 && r.x1 % 8 == 0 && CoversChanges(f, g, r)
           ==> r.x0 <= rect.x0 && rect.x1 <= r.x1 && r.y0 <= rect.y0 && rect.y1 <= r.y1
  {
    hide PanelWhite;
    var rect := Rect(left * 8, top, (right + 1) * 8, bottom + 1);
    forall nx, ny | OnPanel(nx, ny) && PanelWhite(f, nx, ny) != PanelWhite(g, nx, ny) ensures InRect(nx, ny, rect) {
      SameBytePixel(f, g, nx, ny);
      var k := ny * STRIDE + nx / 8;
      assert k % STRIDE == nx / 8 && k / STRIDE == ny;
    }
    var leftX, leftY := DifferingPixel(f, g, seen.left);
    var rightX, rightY := DifferingPixel(f, g, seen.right);
    var topX, topY := DifferingPixel(f, g, seen.top);
    var lowX, lowY := DifferingPixel(f, g, seen.bottom);
    forall r: Rect | r.x0 % 8 == 0 && r.x1 % 8 == 0 && CoversChanges(f, g, r)
      ensures r.x0 <= rect.x0 && rect.x1 <= r.x1 && r.y0 <= rect.y0 && rect.y1 <= r.y1
    {
      assert InRect(leftX, leftY, r) && InRect(rightX, rightY, r) && InRect(topX, topY, r) && InRect(lowX, lowY, r);
    }
  }

  lemma SameBytePixel(f: seq<bv8>, g: seq<bv8>, nx: int, ny: int)
    requires |f| == |g| == FRAME_BYTES && OnPanel(nx, ny) && PanelWhite(f, nx, ny) != PanelWhite(g, nx, ny)
    ensures f[ny * STRIDE + nx / 8] != g[ny * STRIDE + nx / 8]
  {
  }
}
