/** The RGBA software canvas: a row-major byte buffer of `width * height`
    pixels, four bytes each, written in place by `clear`, `put_pixel`,
    `fill_rect` and the Bresenham `draw_line`. The buffer is read through
    `Grid()`, one colour per pixel, row by row; pixel `(x, y)` is the four
    bytes from `(y*width + x)*4`. */
module Render2d {
  import opened Common
  import opened Core

  datatype Color = Color(r: u8, g: u8, b: u8, a: u8)

  const BLACK: Color := Color(0, 0, 0, 255)
  const WHITE: Color := Color(255, 255, 255, 255)
  const RED: Color := Color(220, 20, 60, 255)
  const GREEN: Color := Color(0, 200, 0, 255)
  const BLUE: Color := Color(0, 120, 255, 255)
  const GRAY: Color := Color(180, 180, 180, 255)

  // ------------------------------------------------------------ pixel grid

  /** Whether `(x, y)` is a pixel of a `w` by `h` canvas. */
  predicate OnCanvas(w: nat, h: nat, x: int, y: int)
  {
    0 <= x < w && 0 <= y < h
  }

  /** A `w` by `h` picture, row by row. */
  predicate IsGrid(g: seq<seq<Color>>, w: nat, h: nat)
  {
    |g| == h && forall r :: 0 <= r < h ==> |g[r]| == w
  }

  /** A picture of one colour. */
  function Fill(w: nat, h: nat, c: Color): (g: seq<seq<Color>>)
    ensures IsGrid(g, w, h)
    ensures forall r, col :: 0 <= r < h && 0 <= col < w ==> g[r][col] == c
  {
    seq(h, _ => seq(w, _ => c))
  }

  /** Integers `i`, `j` with `i*w <= a < j*w + w` for positive `w` have
      `i <= j`. */
  lemma MulLe(a: int, w: int, i: int, j: int)
    requires w > 0 && i * w <= a < j * w + w
    ensures i <= j
  {
    assert (i - j - 1) * w == i * w - j * w - w;
  }

  /** Row-major numbering `y*w + x` of a `w` by `h` grid stays below `w*h`. */
  lemma CellBound(w: nat, h: nat, x: nat, y: nat)
    requires x < w && y < h
    ensures y * w + x < w * h
  {
    assert y * w + w == (y + 1) * w <= h * w;
  }

  /** Row-major numbering gives different pixels different numbers. */
  lemma CellInjective(w: nat, x: nat, y: nat, x': nat, y': nat)
    requires x < w && x' < w && y * w + x == y' * w + x'
    ensures x == x' && y == y'
  {
    var n := y * w + x;
    MulLe(n, w, y, y');
    MulLe(n, w, y', y);
  }

  /** `put_pixel` on the picture: an on-canvas point gets the colour, any
      other point changes nothing. */
  function PutCell(g: seq<seq<Color>>, w: nat, h: nat, x: int, y: int, c: Color): (r: seq<seq<Color>>)
    requires IsGrid(g, w, h)
    ensures IsGrid(r, w, h)
  {
    if OnCanvas(w, h, x, y) then g[y := g[y][x := c]] else g
  }

  /** `put_pixel` writes exactly one pixel: the target when it is on the
      canvas, and no other. */
  lemma PutCellExactly(g: seq<seq<Color>>, w: nat, h: nat, x: int, y: int, c: Color, px: nat, py: nat)
    requires IsGrid(g, w, h) && OnCanvas(w, h, px, py)
    ensures PutCell(g, w, h, x, y, c)[py][px] == if (px, py) == (x, y) then c else g[py][px]
  {
    if OnCanvas(w, h, x, y) && py == y {
      assert PutCell(g, w, h, x, y, c)[py] == g[y][x := c];
    }
  }

  /** The column and row of pixel number `n` in rows of `w`. */
  function Coords(n: nat, w: nat): (p: (nat, nat))
    ensures w > 0 ==> p.0 < w && n == p.1 * w + p.0
  {
    if w == 0 then (0, 0) else (n % w, n / w)
  }

  /** Pixel number `y*w + x` has coordinates `(x, y)`, so different
      pixels have different numbers. */
  lemma CoordsOfCell(w: nat, x: nat, y: nat)
    requires x < w
    ensures Coords(y * w + x, w) == (x, y)
  {
    var n := y * w + x;
    var p := Coords(n, w);
    MulLe(n, w, p.1, y);
    MulLe(n, w, y, p.1);
  }

  /** The colour stored in the four bytes from `i`. */
  function CellAt(bytes: seq<u8>, i: nat): Color
    requires i + 4 <= |bytes|
  {
    Color(bytes[i], bytes[i + 1], bytes[i + 2], bytes[i + 3])
  }

  /** The four-byte write of a colour at byte `i`, red first. */
  function WriteCell(bytes: seq<u8>, i: nat, c: Color): (r: seq<u8>)
    requires i + 4 <= |bytes|
    ensures |r| == |bytes|
  {
    bytes[i := c.r][i + 1 := c.g][i + 2 := c.b][i + 3 := c.a]
  }

  /** A four-byte write sets the colour it writes and leaves every colour
      stored four or more bytes away. */
  lemma WriteCellAt(bytes: seq<u8>, i: nat, c: Color, j: nat)
    requires i + 4 <= |bytes| && j + 4 <= |bytes|
    requires j == i || j + 4 <= i || i + 4 <= j
    ensures CellAt(WriteCell(bytes, i, c), j) == if j == i then c else CellAt(bytes, j)
  {
  }

  /** Pixel `(x, y)` of a `w` by `h` RGBA buffer: the four bytes from
      `(y*w + x)*4`. */
  function PixelOf(bytes: seq<u8>, w: nat, h: nat, x: nat, y: nat): Color
    requires |bytes| == w * h * 4 && x < w && y < h
  {
    CellBound(w, h, x, y);
    CellAt(bytes, (y * w + x) * 4)
  }

  /** A `w` by `h` RGBA buffer read as a picture, row by row. */
  function GridOf(bytes: seq<u8>, w: nat, h: nat): (g: seq<seq<Color>>)
    requires |bytes| == w * h * 4
    ensures IsGrid(g, w, h)
  {
    seq(h, r requires 0 <= r < h => seq(w, col requires 0 <= col < w => PixelOf(bytes, w, h, col, r)))
  }

  /** Writing pixel `(x, y)`'s four bytes changes that pixel of the picture
      and no other. */
  lemma GridAfterWrite(bytes: seq<u8>, w: nat, h: nat, x: nat, y: nat, c: Color)
    requires |bytes| == w * h * 4 && x < w && y < h
    ensures (y * w + x) * 4 + 4 <= |bytes|
    ensures var g := GridOf(bytes, w, h);
      GridOf(WriteCell(bytes, (y * w + x) * 4, c), w, h) == g[y := g[y][x := c]]
  {
    CellBound(w, h, x, y);
    var n := y * w + x;
    CoordsOfCell(w, x, y);
    var g := GridOf(bytes, w, h);
    var b' := WriteCell(bytes, n * 4, c);
    var g' := GridOf(b', w, h);
    forall r, col | 0 <= r < h && 0 <= col < w
      ensures g'[r][col] == if (col, r) == (x, y) then c else g[r][col]
    {
      CellBound(w, h, col, r);
      var m := r * w + col;
      if (col, r) != (x, y) {
        if m == n {
          CellInjective(w, col, r, x, y);
        }
        assert m * 4 + 4 <= n * 4 || n * 4 + 4 <= m * 4;
      }
      WriteCellAt(bytes, n * 4, c, m * 4);
      assert g'[r][col] == PixelOf(b', w, h, col, r) == CellAt(b', m * 4);
      assert g[r][col] == CellAt(bytes, m * 4);
    }
    assert forall r :: 0 <= r < h ==> g'[r] == g[y := g[y][x := c]][r];
  }

  /** The pixels covered by a rectangle with top-left `(x, y)`, width `w` and
      height `h`. */
  predicate InRect(col: int, row: int, x: int, y: int, w: int, h: int)
  {
    x <= col < x + w && y <= row < y + h
  }

  // ------------------------------------------------------- fill_rect span end

  /** What line 60 of `fill_rect` computes as the end of a span: the start
      plus the extent, capped at the canvas size, then cast from `i32` to
      `u32`, which wraps a negative value to a huge one. */
  function SpanEndAsWritten(e: int, limit: nat): (r: int)
    requires -0x8000_0000 <= Min(e, limit) < 0x8000_0000
    ensures Min(e, limit) < 0 ==> r == Min(e, limit) + U32_LIMIT
    ensures Min(e, limit) >= 0 ==> r == Min(e, limit)
  {
    var m := Min(e, limit);
    if m < 0 then m + U32_LIMIT else m
  }

  /** A rectangle lying wholly left of (or above) the canvas has a span end
      that wraps past the canvas edge: the row loop would run far beyond the
      buffer instead of writing nothing. */
  lemma SpanEndOverrun(x: int, w: int, limit: nat)
    requires limit < 0x8000_0000 && w > 0 && -0x8000_0000 <= x + w < 0
    ensures SpanEndAsWritten(x + w, limit) > limit
  {
  }

  /** The intended span end: capped at the canvas size and at 0 below. */
  function ClippedSpanEnd(e: int, limit: nat): (r: nat)
    ensures r <= limit
    ensures e <= 0 ==> r == 0
    ensures 0 <= e <= limit ==> r == e
  {
    Max(0, Min(e, limit))
  }

  /** Wherever the cast cannot wrap, the intended span end is the one the
      code computes. */
  lemma ClippedSpanEndAgrees(e: int, limit: nat)
    requires 0 <= e < 0x8000_0000
    ensures ClippedSpanEnd(e, limit) == SpanEndAsWritten(e, limit)
  {
  }

  // ------------------------------------------------------------- draw_line

  /** The fixed data of a Bresenham walk: the target, `dx = |x1 - x0|`,
      `dy = -|y1 - y0|` and the step directions. */
  datatype Walk = Walk(x1: int, y1: int, dx: int, dy: int, sx: int, sy: int)

  function IAbs(x: int): nat { if x < 0 then -x else x }

  /** The walk `draw_line(x0, y0, x1, y1)` sets up. */
  function WalkOf(x0: int, y0: int, x1: int, y1: int): Walk
  {
    Walk(x1, y1, IAbs(x1 - x0), -(IAbs(y1 - y0) as int), if x0 < x1 then 1 else -1, if y0 < y1 then 1 else -1)
  }

  /** The loop state `(x, y, err)` of a walk: still heading for the target,
      at most `dx` and `-dy` steps left, and the error term
      `dx + dy - p*dy - q*dx` for `p`, `q` steps left in `x` and `y`. */
  predicate Tracking(l: Walk, x: int, y: int, err: int)
  {
    var p := IAbs(l.x1 - x);
    var q := IAbs(l.y1 - y);
    && l.dx >= 0 && l.dy <= 0
    && p <= l.dx && q <= -l.dy
    && (l.sx == 1 || l.sx == -1) && (l.sy == 1 || l.sy == -1)
    && (x != l.x1 ==> l.sx == (if x < l.x1 then 1 else -1))
    && (y != l.y1 ==> l.sy == (if y < l.y1 then 1 else -1))
    && err == l.dx + l.dy - p * l.dy - q * l.dx
  }

  /** The loop starts on track. */
  lemma WalkStarts(x0: int, y0: int, x1: int, y1: int)
    ensures var l := WalkOf(x0, y0, x1, y1); Tracking(l, x0, y0, l.dx + l.dy)
  {
    var l := WalkOf(x0, y0, x1, y1);
    assert l.dx * l.dy == l.dy * l.dx;
  }

  /** One pass of the loop after plotting: a step in `x` when `2*err >= dy`,
      a step in `y` when `2*err <= dx`, judged on the same `2*err`. */
  function WalkStep(l: Walk, x: int, y: int, err: int): (s: (int, int, int))
  {
    var e2 := 2 * err;
    var (x', err1) := if e2 >= l.dy then (x + l.sx, err + l.dy) else (x, err);
    var (y', err2) := if e2 <= l.dx then (y + l.sy, err1 + l.dx) else (y, err1);
    (x', y', err2)
  }

  /** Bresenham never overshoots: with no `x` steps left the `x` test
      fails, and with no `y` steps left the `y` test fails. */
  lemma NoOvershoot(dx: int, dy: int, p: int, q: int, err: int)
    requires 0 <= p <= dx && 0 <= q <= -dy && p + q > 0
    requires err == dx + dy - p * dy - q * dx
    ensures p == 0 ==> 2 * err < dy
    ensures q == 0 ==> 2 * err > dx
  {
    if p == 0 {
      assert (q - 1) * dx >= 0;
    }
    if q == 0 {
      assert (p - 1) * (-dy) >= 0;
    }
  }

  /** Adding `dy` (or `dx`) to the error term accounts for one step in `x`
      (or `y`). */
  lemma ErrorAfterStep(dx: int, dy: int, p: int, q: int)
    ensures (dx + dy - p * dy - q * dx) + dy == dx + dy - (p - 1) * dy - q * dx
    ensures (dx + dy - p * dy - q * dx) + dx == dx + dy - p * dy - (q - 1) * dx
    ensures (dx + dy - p * dy - q * dx) + dy + dx == dx + dy - (p - 1) * dy - (q - 1) * dx
  {
  }

  /** A step from a state short of the target stays on track and brings
      the walk closer to the target. */
  lemma WalkStepTracks(l: Walk, x: int, y: int, err: int)
    requires Tracking(l, x, y, err) && (x, y) != (l.x1, l.y1)
    ensures var s := WalkStep(l, x, y, err);
      && Tracking(l, s.0, s.1, s.2)
      && IAbs(l.x1 - s.0) + IAbs(l.y1 - s.1) < IAbs(l.x1 - x) + IAbs(l.y1 - y)
  {
    var p := IAbs(l.x1 - x);
    var q := IAbs(l.y1 - y);
    var e2 := 2 * err;
    NoOvershoot(l.dx, l.dy, p, q, err);
    ErrorAfterStep(l.dx, l.dy, p, q);
    var s := WalkStep(l, x, y, err);
    var p' := if e2 >= l.dy then p - 1 else p;
    var q' := if e2 <= l.dx then q - 1 else q;
    assert IAbs(l.x1 - s.0) == p';
    assert IAbs(l.y1 - s.1) == q';
    assert s.2 == l.dx + l.dy - p' * l.dy - q' * l.dx;
  }

  /** The points `draw_line` plots from loop state `(x, y, err)`, in order. */
  function WalkFrom(l: Walk, x: int, y: int, err: int): (pts: seq<(int, int)>)
    requires Tracking(l, x, y, err)
    ensures |pts| >= 1 && pts[0] == (x, y)
    decreases IAbs(l.x1 - x) + IAbs(l.y1 - y)
  {
    if (x, y) == (l.x1, l.y1) then [(x, y)]
    else
      WalkStepTracks(l, x, y, err);
      var s := WalkStep(l, x, y, err);
      [(x, y)] + WalkFrom(l, s.0, s.1, s.2)
  }

  /** The points `draw_line(x0, y0, x1, y1)` plots, in order. */
  function LinePoints(x0: int, y0: int, x1: int, y1: int): (pts: seq<(int, int)>)
    ensures |pts| >= 1 && pts[0] == (x0, y0)
  {
    WalkStarts(x0, y0, x1, y1);
    var l := WalkOf(x0, y0, x1, y1);
    WalkFrom(l, x0, y0, l.dx + l.dy)
  }

  /** A walk ends at its target and reaches it nowhere earlier, so the loop
      stops right after plotting the target. */
  lemma {:induction false} WalkEndsAtTarget(l: Walk, x: int, y: int, err: int)
    requires Tracking(l, x, y, err)
    ensures var pts := WalkFrom(l, x, y, err);
      && pts[|pts| - 1] == (l.x1, l.y1)
      && forall k :: 0 <= k < |pts| - 1 ==> pts[k] != (l.x1, l.y1)
    decreases IAbs(l.x1 - x) + IAbs(l.y1 - y)
  {
    if (x, y) != (l.x1, l.y1) {
      WalkStepTracks(l, x, y, err);
      var s := WalkStep(l, x, y, err);
      WalkEndsAtTarget(l, s.0, s.1, s.2);
      var rest := WalkFrom(l, s.0, s.1, s.2);
      assert WalkFrom(l, x, y, err) == [(x, y)] + rest;
    }
  }

  /** `b` is a different point next to `a`, reached by moving each
      coordinate by at most one step in the walk's directions. */
  predicate Adjacent(l: Walk, a: (int, int), b: (int, int))
  {
    a != b && (b.0 == a.0 || b.0 == a.0 + l.sx) && (b.1 == a.1 || b.1 == a.1 + l.sy)
  }

  /** Each step moves to a neighbour: at least one coordinate changes,
      and each by at most one step in the walk's direction. */
  lemma WalkStepAdjacent(l: Walk, x: int, y: int, err: int)
    requires l.dy <= l.dx && l.sx != 0 && l.sy != 0
    ensures var s := WalkStep(l, x, y, err); Adjacent(l, (x, y), (s.0, s.1))
  {
  }

  /** Whether every two consecutive points are adjacent. */
  predicate Connected(l: Walk, pts: seq<(int, int)>)
  {
    forall k :: 0 <= k < |pts| - 1 ==> Adjacent(l, pts[k], pts[k + 1])
  }

  /** A point adjacent to the head of a connected sequence extends it. */
  lemma ConnectedCons(l: Walk, a: (int, int), rest: seq<(int, int)>)
    requires |rest| > 0 && Adjacent(l, a, rest[0]) && Connected(l, rest)
    ensures Connected(l, [a] + rest)
  {
    var pts := [a] + rest;
    forall k | 0 <= k < |pts| - 1
      ensures Adjacent(l, pts[k], pts[k + 1])
    {
      if k > 0 {
        assert pts[k] == rest[k - 1] && pts[k + 1] == rest[k];
      }
    }
  }

  /** Consecutive points of a walk are distinct neighbours: each
      coordinate moves by at most one, in the target's direction. */
  lemma {:induction false} WalkConnected(l: Walk, x: int, y: int, err: int)
    requires Tracking(l, x, y, err)
    ensures Connected(l, WalkFrom(l, x, y, err))
    decreases IAbs(l.x1 - x) + IAbs(l.y1 - y)
  {
    if (x, y) != (l.x1, l.y1) {
      WalkStepTracks(l, x, y, err);
      WalkStepAdjacent(l, x, y, err);
      var s := WalkStep(l, x, y, err);
      WalkConnected(l, s.0, s.1, s.2);
      ConnectedCons(l, (x, y), WalkFrom(l, s.0, s.1, s.2));
    }
  }

  /** Whether every point lies in the box spanned by `(xa, ya)` and
      `(xb, yb)`. */
  predicate WithinBox(pts: seq<(int, int)>, xa: int, ya: int, xb: int, yb: int)
  {
    forall pt :: pt in pts ==> Min(xa, xb) <= pt.0 <= Max(xa, xb) && Min(ya, yb) <= pt.1 <= Max(ya, yb)
  }

  /** A step stays between the current point and the target, coordinate by
      coordinate. */
  lemma WalkStepInBox(l: Walk, x: int, y: int, err: int)
    requires Tracking(l, x, y, err) && (x, y) != (l.x1, l.y1)
    ensures var s := WalkStep(l, x, y, err);
      && Min(x, l.x1) <= s.0 <= Max(x, l.x1) && Min(y, l.y1) <= s.1 <= Max(y, l.y1)
  {
    var p := IAbs(l.x1 - x);
    var q := IAbs(l.y1 - y);
    NoOvershoot(l.dx, l.dy, p, q, err);
  }

  /** Every point of a walk lies in the box spanned by its start and its
      target. */
  lemma {:induction false} WalkInBox(l: Walk, x: int, y: int, err: int)
    requires Tracking(l, x, y, err)
    ensures WithinBox(WalkFrom(l, x, y, err), x, y, l.x1, l.y1)
    decreases IAbs(l.x1 - x) + IAbs(l.y1 - y)
  {
    if (x, y) != (l.x1, l.y1) {
      WalkStepTracks(l, x, y, err);
      WalkStepInBox(l, x, y, err);
      var s := WalkStep(l, x, y, err);
      WalkInBox(l, s.0, s.1, s.2);
      var rest := WalkFrom(l, s.0, s.1, s.2);
      assert WalkFrom(l, x, y, err) == [(x, y)] + rest;
    }
  }

  /** One pass of the `draw_line` loop short of the target: the state
      stays on track, the plotted prefix grows by the current point and what
      is left of the walk is the walk from the new state. */
  lemma WalkAdvance(l: Walk, x: int, y: int, err: int, done: seq<(int, int)>, full: seq<(int, int)>)
    requires Tracking(l, x, y, err) && (x, y) != (l.x1, l.y1)
    requires done + WalkFrom(l, x, y, err) == full
    ensures var s := WalkStep(l, x, y, err);
      && Tracking(l, s.0, s.1, s.2)
      && IAbs(l.x1 - s.0) + IAbs(l.y1 - s.1) < IAbs(l.x1 - x) + IAbs(l.y1 - y)
      && (done + [(x, y)]) + WalkFrom(l, s.0, s.1, s.2) == full
  {
    WalkStepTracks(l, x, y, err);
    var s := WalkStep(l, x, y, err);
    assert WalkFrom(l, x, y, err) == [(x, y)] + WalkFrom(l, s.0, s.1, s.2);
    assert (done + [(x, y)]) + WalkFrom(l, s.0, s.1, s.2) == done + ([(x, y)] + WalkFrom(l, s.0, s.1, s.2));
  }

  /** `draw_line` stops at the far endpoint: the plotted points start at
      `(x0, y0)`, end at `(x1, y1)` and reach it only once. */
  lemma LineEndpoints(x0: int, y0: int, x1: int, y1: int)
    ensures var pts := LinePoints(x0, y0, x1, y1);
      && pts[0] == (x0, y0)
      && pts[|pts| - 1] == (x1, y1)
      && (forall k :: 0 <= k < |pts| - 1 ==> pts[k] != (x1, y1))
  {
    WalkStarts(x0, y0, x1, y1);
    var l := WalkOf(x0, y0, x1, y1);
    WalkEndsAtTarget(l, x0, y0, l.dx + l.dy);
  }

  /** The plotted line has no gaps: consecutive points are 8-neighbours. */
  lemma LineConnected(x0: int, y0: int, x1: int, y1: int)
    ensures Connected(WalkOf(x0, y0, x1, y1), LinePoints(x0, y0, x1, y1))
  {
    WalkStarts(x0, y0, x1, y1);
    var l := WalkOf(x0, y0, x1, y1);
    WalkConnected(l, x0, y0, l.dx + l.dy);
  }

  /** The plotted line stays inside the bounding box of its endpoints. */
  lemma LineInBox(x0: int, y0: int, x1: int, y1: int)
    ensures WithinBox(LinePoints(x0, y0, x1, y1), x0, y0, x1, y1)
  {
    WalkStarts(x0, y0, x1, y1);
    var l := WalkOf(x0, y0, x1, y1);
    WalkInBox(l, x0, y0, l.dx + l.dy);
  }

  /** Plotting a sequence of points with `put_pixel`, in order. */
  function PlotAll(g: seq<seq<Color>>, w: nat, h: nat, pts: seq<(int, int)>, c: Color): (r: seq<seq<Color>>)
    requires IsGrid(g, w, h)
    ensures IsGrid(r, w, h)
    decreases |pts|
  {
    if pts == [] then g
    else
      var last := pts[|pts| - 1];
      PutCell(PlotAll(g, w, h, pts[..|pts| - 1], c), w, h, last.0, last.1, c)
  }

  /** Plotting changes only points in the list: a pixel none of the points
      hits keeps its colour, and a pixel some point hits ends up `c`. */
  lemma {:induction false} PlotAllExactly(g: seq<seq<Color>>, w: nat, h: nat, pts: seq<(int, int)>, c: Color, px: nat, py: nat)
    requires IsGrid(g, w, h) && OnCanvas(w, h, px, py)
    ensures PlotAll(g, w, h, pts, c)[py][px] == if (px, py) in pts then c else g[py][px]
    decreases |pts|
  {
    if pts != [] {
      var init := pts[..|pts| - 1];
      var last := pts[|pts| - 1];
      PlotAllExactly(g, w, h, init, c, px, py);
      PutCellExactly(PlotAll(g, w, h, init, c), w, h, last.0, last.1, c, px, py);
      assert pts == init + [last];
      assert (px, py) in pts <==> (px, py) in init || (px, py) == last;
    }
  }

  // ------------------------------------------------------------- channels

  /** The channel count the PNG encoder infers from a pixel buffer of `len`
      bytes for `width * height` pixels: 3 if `len` is three bytes per
      pixel, else 4 if it is four, else an error. */
  function PixelChannels(width: u32, height: u32, len: nat): (r: Result<nat, GymError>)
    ensures r.Ok? <==> len == width * height * 3 || len == width * height * 4
    ensures r.Ok? ==> (r.value == 3 <==> len == width * height * 3)
    ensures r.Ok? ==> r.value == 3 || r.value == 4
  {
    var count := width * height;
    if len == count * 3 then Ok(3)
    else if len == count * 4 then Ok(4)
    else Err(InvalidObservation("Pixel data length does not match width*height*3 or *4"))
  }

  /** A non-empty canvas frame is read as RGBA. */
  lemma CanvasFrameIsRgba(width: u32, height: u32)
    requires width * height > 0
    ensures PixelChannels(width, height, width * height * 4) == Ok(4)
  {
  }

  // --------------------------------------------------------------- Canvas

  class Canvas {
    const width: u32
    const height: u32
    const pixels: array<u8>

    ghost predicate Valid()
      reads this
    {
      pixels.Length == width * height * 4
    }

    /** The buffer as a picture, row by row. */
    ghost function Grid(): (g: seq<seq<Color>>)
      requires Valid()
      reads this, pixels
      ensures IsGrid(g, width, height)
    {
      GridOf(pixels[..], width, height)
    }

    /** `new(width, height)`: a zeroed buffer of `width * height * 4` bytes,
        then cleared to black. */
    constructor (width: u32, height: u32)
      ensures this.width == width && this.height == height
      ensures Valid() && fresh(pixels)
      ensures Grid() == Fill(width, height, BLACK)
    {
      this.width := width;
      this.height := height;
      pixels := new u8[width * height * 4](_ => 0);
      new;
      Clear(BLACK);
    }

    /** The four-byte write of pixel `(x, y)` at byte `(y*width + x)*4`,
        as `clear`, `put_pixel` and `fill_rect` each do it. */
    method SetCell(x: nat, y: nat, c: Color)
      requires Valid() && x < width && y < height
      modifies pixels
      ensures Grid() == old(Grid())[y := old(Grid())[y][x := c]]
    {
      GridAfterWrite(pixels[..], width, height, x, y, c);
      WriteBytes((y * width + x) * 4, c);
    }

    /** The bytes of colour `c`, red first, written from byte `i`. */
    method WriteBytes(i: nat, c: Color)
      requires i + 4 <= pixels.Length
      modifies pixels
      ensures pixels[..] == WriteCell(old(pixels[..]), i, c)
    {
      pixels[i] := c.r;
      pixels[i + 1] := c.g;
      pixels[i + 2] := c.b;
      pixels[i + 3] := c.a;
    }

    /** `clear(c)`: every pixel, row by row, becomes `c`. */
    method Clear(c: Color)
      requires Valid()
      modifies pixels
      ensures Grid() == Fill(width, height, c)
    {
      for y := 0 to height
        invariant forall r, col :: 0 <= r < y && 0 <= col < width ==> Grid()[r][col] == c
      {
        for x := 0 to width
          invariant forall r, col :: 0 <= r < y && 0 <= col < width ==> Grid()[r][col] == c
          invariant forall col :: 0 <= col < x ==> Grid()[y][col] == c
        {
          SetCell(x, y, c);
        }
      }
      assert forall r :: 0 <= r < height ==> Grid()[r] == Fill(width, height, c)[r];
    }

    /** `put_pixel(x, y, c)`: writes pixel `(x, y)` when it is on the canvas
        and does nothing otherwise. */
    method PutPixel(x: int, y: int, c: Color)
      requires Valid()
      modifies pixels
      ensures Grid() == PutCell(old(Grid()), width, height, x, y, c)
    {
      if x < 0 || y < 0 {
        return;
      }
      if x >= width || y >= height {
        return;
      }
      SetCell(x, y, c);
    }

    /** `fill_rect(x, y, w, h, c)`: paints exactly the on-canvas pixels of the
        rectangle `[x, x+w) x [y, y+h)` and leaves every other pixel alone;
        nothing when `w <= 0` or `h <= 0`. The span ends are the clipped
        ones of `ClippedSpanEnd`. */
    method FillRect(x: int, y: int, w: int, h: int, c: Color)
      requires Valid()
      modifies pixels
      ensures forall row, col :: 0 <= row < height && 0 <= col < width ==>
        Grid()[row][col] == if InRect(col, row, x, y, w, h) then c else old(Grid())[row][col]
    {
      ghost var before := Grid();
      if w <= 0 || h <= 0 {
        return;
      }
      var x0 := Max(x, 0);
      var y0 := Max(y, 0);
      var x1 := ClippedSpanEnd(x + w, width);
      var y1 := ClippedSpanEnd(y + h, height);
      var yy := y0;
      while yy < y1
        invariant y0 <= yy && (yy > y0 ==> yy <= y1)
        invariant forall row, col :: 0 <= row < height && 0 <= col < width ==>
          Grid()[row][col] == if InRect(col, row, x, y, w, h) && row < yy then c else before[row][col]
      {
        var xx := x0;
        while xx < x1
          invariant x0 <= xx && (xx > x0 ==> xx <= x1)
          invariant forall row, col :: 0 <= row < height && 0 <= col < width ==>
            Grid()[row][col] ==
              if InRect(col, row, x, y, w, h) && (row < yy || (row == yy && col < xx)) then c else before[row][col]
        {
          SetCell(xx, yy, c);
          xx := xx + 1;
        }
        yy := yy + 1;
      }
    }

    /** `draw_line(x0, y0, x1, y1, c)`: plots the Bresenham points from
        `(x0, y0)` to `(x1, y1)` with `put_pixel`, in order. */
    method DrawLine(x0: int, y0: int, x1: int, y1: int, c: Color)
      requires Valid()
      modifies pixels
      ensures Grid() == PlotAll(old(Grid()), width, height, LinePoints(x0, y0, x1, y1), c)
    {
      ghost var start := Grid();
      var x := x0;
      var y := y0;
      var dx: int := IAbs(x1 - x0);
      var sx := if x0 < x1 then 1 else -1;
      var dy: int := -(IAbs(y1 - y0) as int);
      var sy := if y0 < y1 then 1 else -1;
      var err := dx + dy;
      var l := Walk(x1, y1, dx, dy, sx, sy);
      WalkStarts(x0, y0, x1, y1);
      ghost var full := LinePoints(x0, y0, x1, y1);
      assert full == WalkFrom(l, x0, y0, err);
      ghost var done: seq<(int, int)> := [];
      while true
        invariant Tracking(l, x, y, err)
        invariant done + WalkFrom(l, x, y, err) == full
        invariant Grid() == PlotAll(start, width, height, done, c)
        decreases IAbs(l.x1 - x) + IAbs(l.y1 - y)
      {
        PutPixel(x, y, c);
        ghost var done' := done + [(x, y)];
        assert done'[..|done'| - 1] == done;
        assert Grid() == PlotAll(start, width, height, done', c);
        if x == x1 && y == y1 {
          assert done' == full;
          break;
        }
        WalkAdvance(l, x, y, err, done, full);
        done := done';
        var s := WalkStep(l, x, y, err);
        x, y, err := s.0, s.1, s.2;
      }
    }

    /** `into_render_frame`: the canvas as a `Pixels` frame, four bytes per
        pixel, which the PNG encoder reads as RGBA when non-empty. */
    function IntoRenderFrame(): (f: RenderFrame)
      requires Valid()
      reads this, pixels
      ensures f.Pixels? && f.width == width && f.height == height && f.data == pixels[..]
      ensures width * height > 0 ==> PixelChannels(f.width, f.height, |f.data|) == Ok(4)
    {
      Pixels(width, height, pixels[..])
    }
  }
}
