/** `Domain` and `DomainIterator` (src/domain.rs): the rectangle of the plane that the
    canvas shows, the projection of pixel coordinates into it, pan, zoom, and the
    row-by-row walk over the canvas. */
module Domains {
  import opened Wrappers
  import opened Points

  /** The state of a `Domain`: the corners `min` and `max` of the plane rectangle and
      the canvas `size` (width, height) in pixels. */
  datatype Viewport = Viewport(min: Point, max: Point, size: Point)

  /** The extent `max - min` of the plane rectangle. */
  function Range(v: Viewport): Point { Sub(v.max, v.min) }

  /** The divisor the corner formula of `new` and `resize` uses is nonzero. */
  predicate CornerDefined(size: Point)
  {
    if size.x > size.y then size.y != 0.0 else size.x != 0.0
  }

  /** The `max` corner chosen by `new` and `resize`: the base half-extent (2, 1.5)
      stretched along the longer canvas side. */
  function Corner(size: Point): Point
    requires CornerDefined(size)
  {
    if size.x > size.y then Point(2.0 * size.x / size.y, 1.5)
    else Point(2.0, 1.5 * size.y / size.x)
  }

  /** The state `Domain::new(size)` builds and `resize(size)` sets: `max` the corner,
      `min` its mirror `corner * (-1, -1)`. */
  function Initial(size: Point): Viewport
    requires CornerDefined(size)
  {
    var corner := Corner(size);
    Viewport(Mul(corner, Point(-1.0, -1.0)), corner, size)
  }

  /** The initial rectangle is centred on the origin (min = -max), keeps `size`, and
      its corner is (2·w/h, 1.5) on a wide canvas and (2, 1.5·h/w) otherwise. */
  lemma InitialSymmetric(size: Point)
    requires CornerDefined(size)
    ensures Initial(size).min == Point(-Initial(size).max.x, -Initial(size).max.y)
    ensures Initial(size).size == size
    ensures size.x > size.y ==> Initial(size).max == Point(2.0 * size.x / size.y, 1.5)
    ensures size.x <= size.y ==> Initial(size).max == Point(2.0, 1.5 * size.y / size.x)
  {
  }

  /** On a canvas of positive size the initial rectangle contains the base rectangle
      (-2, -1.5)..(2, 1.5), is tight along the shorter side, and gives every pixel the
      same 4:3 ratio of plane width to plane height whatever the canvas shape. */
  lemma InitialCoversBase(size: Point)
    requires size.x > 0.0 && size.y > 0.0
    ensures CornerDefined(size)
    ensures Initial(size).max.x >= 2.0 && Initial(size).max.y >= 1.5
    ensures Initial(size).max.x == 2.0 || Initial(size).max.y == 1.5
    ensures 3.0 * Range(Initial(size)).x * size.y == 4.0 * Range(Initial(size)).y * size.x
  {
    var w, h := size.x, size.y;
    var r := Range(Initial(size));
    if w > h {
      var q := 2.0 * w / h;
      assert q * h == 2.0 * w;
      QuotientAtLeast(2.0 * w, h, 2.0);
      assert r.x == 2.0 * q && r.y == 3.0;
      assert 3.0 * (2.0 * q) * h == 6.0 * (q * h);
    } else {
      var q := 1.5 * h / w;
      assert q * w == 1.5 * h;
      QuotientAtLeast(1.5 * h, w, 1.5);
      assert r.x == 4.0 && r.y == 2.0 * q;
      assert 4.0 * (2.0 * q) * w == 8.0 * (q * w);
    }
  }

  /** A quotient by a positive number is at least c when the dividend is at least c times it. */
  lemma QuotientAtLeast(a: real, b: real, c: real)
    requires b > 0.0 && a >= c * b
    ensures a / b >= c
  {
    assert a / b - c == (a - c * b) / b;
  }

  /** `project`: the plane point of a pixel coordinate, `min + point · (max - min) / size`. */
  function Project(v: Viewport, point: Point): Point
    requires NonZero(v.size)
  {
    Add(v.min, Div(Mul(point, Range(v)), v.size))
  }

  /** Pixel (0, 0) projects to `min` and pixel `size` projects to `max`. */
  lemma ProjectCorners(v: Viewport)
    requires NonZero(v.size)
    ensures Project(v, Point(0.0, 0.0)) == v.min
    ensures Project(v, v.size) == v.max
  {
    var r := Range(v);
    assert v.size.x * r.x / v.size.x == r.x;
    assert v.size.y * r.y / v.size.y == r.y;
  }

  /** The state after `shift(point)`: both corners move by the plane offset of pixel
      `point` from `min`. */
  function Shifted(v: Viewport, point: Point): Viewport
    requires NonZero(v.size)
  {
    var offset := Sub(Project(v, point), v.min);
    Viewport(Sub(v.min, offset), Sub(v.max, offset), v.size)
  }

  /** Panning keeps the extent of the rectangle and the canvas size. */
  lemma ShiftKeepsRange(v: Viewport, point: Point)
    requires NonZero(v.size)
    ensures Range(Shifted(v, point)) == Range(v)
    ensures Shifted(v, point).size == v.size
  {
  }

  /** Panning by a pixel offset and then by its opposite restores both corners. */
  lemma {:induction false} ShiftUndone(v: Viewport, point: Point)
    requires NonZero(v.size)
    ensures Shifted(Shifted(v, point), Point(-point.x, -point.y)) == v
  {
    var r := Range(v);
    var s := v.size;
    var w := Shifted(v, point);
    ShiftKeepsRange(v, point);
    assert Range(w) == r;
    assert Sub(Project(v, point), v.min) == Point(point.x * r.x / s.x, point.y * r.y / s.y);
    assert Sub(Project(w, Point(-point.x, -point.y)), w.min)
        == Point((-point.x) * r.x / s.x, (-point.y) * r.y / s.y);
    assert (-point.x) * r.x / s.x == -(point.x * r.x / s.x);
    assert (-point.y) * r.y / s.y == -(point.y * r.y / s.y);
  }

  /** The state after `scale(factor, center)`: the extent is multiplied by `factor`,
      split on either side of the pixel `center` in proportion to where it lies. */
  function Scaled(v: Viewport, factor: Point, center: Point): Viewport
    requires NonZero(v.size) && NonZero(Range(v))
  {
    var one := Point(1.0, 1.0);
    var range := Range(v);
    var shift := Div(Sub(Project(v, center), v.min), range);
    var growth := Mul(range, Sub(factor, one));
    Viewport(Sub(v.min, Mul(growth, shift)), Add(v.max, Mul(growth, Sub(one, shift))), v.size)
  }

  /** Zooming by (1, 1) changes nothing. */
  lemma ScaleByOne(v: Viewport, center: Point)
    requires NonZero(v.size) && NonZero(Range(v))
    ensures Scaled(v, Point(1.0, 1.0), center) == v
  {
  }

  /** x·r = y·r with r nonzero gives x = y. */
  lemma MulRightCancel(x: real, y: real, r: real)
    requires r != 0.0 && x * r == y * r
    ensures x == y
  {
    assert (x - y) * r == 0.0;
  }

  /** Multiplying by r before a division and dividing by r after cancel. */
  lemma CancelDiv(a: real, r: real, size: real)
    requires size != 0.0 && r != 0.0
    ensures a * r / size / r == a / size
  {
    var t := a * r / size;
    assert t * size == a * r;
    var s := t / r;
    assert s * r == t;
    assert (s * size) * r == a * r by {
      calc {
        (s * size) * r;
        == (s * r) * size;
        == t * size;
      }
    }
    MulRightCancel(s * size, a, r);
    assert s == (s * size) / size;
  }

  /** One coordinate of `scale`: the new low and high ends. */
  function AxisLow(lo: real, hi: real, size: real, f: real, c: real): real
    requires size != 0.0 && hi - lo != 0.0
  {
    var r := hi - lo;
    lo - r * (f - 1.0) * ((lo + c * r / size - lo) / r)
  }

  function AxisHigh(lo: real, hi: real, size: real, f: real, c: real): real
    requires size != 0.0 && hi - lo != 0.0
  {
    var r := hi - lo;
    hi + r * (f - 1.0) * (1.0 - (lo + c * r / size - lo) / r)
  }

  /** The one-axis algebra of `scale`: the extent grows by f and the projection of c stays. */
  lemma ScaleAxis(lo: real, hi: real, size: real, f: real, c: real)
    requires size != 0.0 && hi - lo != 0.0
    ensures AxisHigh(lo, hi, size, f, c) - AxisLow(lo, hi, size, f, c) == (hi - lo) * f
    ensures AxisLow(lo, hi, size, f, c) + c * (AxisHigh(lo, hi, size, f, c) - AxisLow(lo, hi, size, f, c)) / size
         == lo + c * (hi - lo) / size
  {
    var r := hi - lo;
    var s := (lo + c * r / size - lo) / r;
    assert s == c / size by {
      assert lo + c * r / size - lo == c * r / size;
      CancelDiv(c, r, size);
    }
    var lo' := lo - r * (f - 1.0) * s;
    var hi' := hi + r * (f - 1.0) * (1.0 - s);
    assert hi' - lo' == r * f;
    assert lo' + c * (r * f) / size == lo + c * r / size by {
      assert r * (f - 1.0) * s == r * f * (c / size) - r * (c / size);
      assert c * (r * f) / size == r * f * (c / size);
      assert c * r / size == r * (c / size);
    }
  }

  /** `Scaled`, coordinate by coordinate. */
  lemma ScaledAxes(v: Viewport, factor: Point, center: Point)
    requires NonZero(v.size) && NonZero(Range(v))
    ensures Scaled(v, factor, center) == Viewport(
      Point(AxisLow(v.min.x, v.max.x, v.size.x, factor.x, center.x),
            AxisLow(v.min.y, v.max.y, v.size.y, factor.y, center.y)),
      Point(AxisHigh(v.min.x, v.max.x, v.size.x, factor.x, center.x),
            AxisHigh(v.min.y, v.max.y, v.size.y, factor.y, center.y)),
      v.size)
  {
  }

  /** The x coordinate of `ScaleFixesCenter`. */
  lemma ScaleFixesCenterX(v: Viewport, factor: Point, center: Point)
    requires NonZero(v.size) && NonZero(Range(v))
    ensures Range(Scaled(v, factor, center)).x == Range(v).x * factor.x
    ensures Project(Scaled(v, factor, center), center).x == Project(v, center).x
  {
    ScaledAxes(v, factor, center);
    ScaleAxis(v.min.x, v.max.x, v.size.x, factor.x, center.x);
  }

  /** The y coordinate of `ScaleFixesCenter`. */
  lemma ScaleFixesCenterY(v: Viewport, factor: Point, center: Point)
    requires NonZero(v.size) && NonZero(Range(v))
    ensures Range(Scaled(v, factor, center)).y == Range(v).y * factor.y
    ensures Project(Scaled(v, factor, center), center).y == Project(v, center).y
  {
    ScaledAxes(v, factor, center);
    ScaleAxis(v.min.y, v.max.y, v.size.y, factor.y, center.y);
  }

  /** Zooming multiplies the extent by `factor` component-wise and keeps the plane
      point under the pixel `center` where it was. */
  lemma ScaleFixesCenter(v: Viewport, factor: Point, center: Point)
    requires NonZero(v.size) && NonZero(Range(v))
    ensures Range(Scaled(v, factor, center)) == Mul(Range(v), factor)
    ensures Scaled(v, factor, center).size == v.size
    ensures Project(Scaled(v, factor, center), center) == Project(v, center)
  {
    ScaleFixesCenterX(v, factor, center);
    ScaleFixesCenterY(v, factor, center);
  }

  /** The counters of a `DomainIterator`: the column `x` last projected and the row `y`. */
  datatype Cursor = Cursor(x: nat, y: nat)

  /** What one `next` call does: it moves the counters to `at` and either projects
      the pixel `at` (`Yield`) or reports the end (`Stop`). */
  datatype Move = Yield(at: Cursor) | Stop(at: Cursor)

  /** `DomainIterator::next` on the counters: past the last column it wraps to the next
      row, and past the last row it stops; otherwise it advances the column. */
  function Advance(size: Point, c: Cursor): Move
  {
    if c.x as real >= size.x then
      if (c.y + 1) as real >= size.y then Stop(Cursor(0, c.y + 1))
      else Yield(Cursor(1, c.y + 1))
    else Yield(Cursor(c.x + 1, c.y))
  }

  /** The pixel coordinate of a cursor. */
  function CellPoint(c: Cursor): Point { Point(c.x as real, c.y as real) }

  /** The canvas size of an integer width and height. */
  function Size(width: nat, height: nat): Point { Point(width as real, height as real) }

  /** The pixel cell the k-th point (from 0) comes from, on a canvas `width` wide:
      row k / width, column k % width + 1, because `next` counts the column up before
      projecting. */
  function Cell(width: nat, k: nat): Cursor
    requires width >= 1
  {
    Cursor(k % width + 1, k / width)
  }

  /** The counters after k points of the walk: zero before the first. */
  function CursorAfter(width: nat, k: nat): Cursor
    requires width >= 1
  {
    if k == 0 then Cursor(0, 0) else Cell(width, k - 1)
  }

  /** The k-th point the iterator yields. */
  function DomainPoint(v: Viewport, width: nat, k: nat): Point
    requires width >= 1 && NonZero(v.size)
  {
    Project(v, CellPoint(Cell(width, k)))
  }

  /** Euclidean division of a natural number, stated once. */
  lemma DivMod(k: nat, width: nat)
    requires width >= 1
    ensures k == (k / width) * width + k % width
    ensures 0 <= k % width < width
  {
  }

  /** Stepping from cell k - 1 to cell k on a row, or wrapping to the next row. */
  lemma {:induction false} CellSuccessor(width: nat, k: nat)
    requires width >= 1 && k >= 1
    ensures var prev := Cell(width, k - 1);
      if prev.x >= width then Cell(width, k) == Cursor(1, prev.y + 1)
      else Cell(width, k) == Cursor(prev.x + 1, prev.y)
  {
    var q, r := (k - 1) / width, (k - 1) % width;
    DivMod(k - 1, width);
    if r + 1 == width {
      assert k == (q + 1) * width;
      DivModUnique(k, width, q + 1, 0);
    } else {
      assert k == q * width + (r + 1);
      DivModUnique(k, width, q, r + 1);
    }
  }

  /** Quotient and remainder are determined by any decomposition k = q·width + r. */
  lemma DivModUnique(k: nat, width: nat, q: nat, r: nat)
    requires width >= 1 && r < width && k == q * width + r
    ensures k / width == q && k % width == r
  {
    var q', r' := k / width, k % width;
    assert k == q' * width + r' && r' < width;
    if q' > q {
      MulMono(q + 1, q', width);
      assert false;
    } else if q' < q {
      MulMono(q' + 1, q, width);
      assert false;
    }
  }

  /** Multiplication by a natural number is monotone. */
  lemma MulMono(a: nat, b: nat, w: nat)
    requires a <= b
    ensures a * w <= b * w
  {
    var d: nat := b - a;
    assert b * w == a * w + d * w;
  }

  /** On a canvas of integer size at least 1×1, while fewer than width·height points
      have come, the next call yields the next cell in row-major order. */
  lemma {:induction false} AdvanceYields(width: nat, height: nat, k: nat)
    requires width >= 1 && height >= 1 && k < width * height
    ensures Advance(Size(width, height), CursorAfter(width, k)) == Yield(Cell(width, k))
  {
    if k == 0 {
      assert Cell(width, 0) == Cursor(1, 0);
    } else {
      CellSuccessor(width, k);
      var prev := Cell(width, k - 1);
      if prev.x >= width {
        assert Cell(width, k).y == prev.y + 1;
        RowBound(width, height, k);
      }
    }
  }

  /** Cells of points before width·height lie on rows below `height`. */
  lemma RowBound(width: nat, height: nat, k: nat)
    requires width >= 1 && k < width * height
    ensures k / width < height
  {
    DivMod(k, width);
    if k / width >= height {
      MulMono(height, k / width, width);
      assert false;
    }
  }

  /** After width·height points, the next call stops. */
  lemma AdvanceStops(width: nat, height: nat)
    requires width >= 1 && height >= 1
    ensures Advance(Size(width, height), CursorAfter(width, width * height)).Stop?
  {
    var k := width * height - 1;
    assert k == (height - 1) * width + (width - 1);
    DivModUnique(k, width, height - 1, width - 1);
  }

  /** The cells cover the canvas without repetition: the k-th cell lies in columns
      1..width and rows 0..height-1, and k = row·width + column - 1. */
  lemma CellIndex(width: nat, height: nat, k: nat)
    requires width >= 1 && k < width * height
    ensures 1 <= Cell(width, k).x <= width && Cell(width, k).y < height
    ensures k == Cell(width, k).y * width + Cell(width, k).x - 1
  {
    DivMod(k, width);
    RowBound(width, height, k);
  }

  /** The first row is walked before any row check, so on a canvas of height 0 the
      iterator still yields `width` points before it stops. */
  lemma {:induction false} EmptyHeightYieldsOneRow(width: nat, k: nat)
    requires width >= 1 && k <= width
    ensures k < width ==> Advance(Size(width, 0), CursorAfter(width, k)) == Yield(Cell(width, k))
    ensures k == width ==> Advance(Size(width, 0), CursorAfter(width, k)).Stop?
  {
    if k > 0 {
      DivModUnique(k - 1, width, 0, k - 1);
    }
    if k < width {
      DivModUnique(k, width, 0, k);
    }
  }

  /** `Domain`: the viewport state that `resize`, `change`, `shift` and `scale` update
      in place. */
  class Domain {
    var min: Point
    var max: Point
    var size: Point

    function State(): Viewport
      reads this
    {
      Viewport(min, max, size)
    }

    /** `Domain::new(size)` */
    constructor (size: Point)
      requires CornerDefined(size)
      ensures State() == Initial(size)
    {
      var point := Corner(size);
      min := Mul(point, Point(-1.0, -1.0));
      max := point;
      this.size := size;
    }

    /** `resize(size)`: the same rectangle as `new(size)`, and the new size. */
    method Resize(size: Point)
      requires CornerDefined(size)
      modifies this
      ensures State() == Initial(size)
    {
      var point := Corner(size);
      min := Mul(point, Point(-1.0, -1.0));
      max := point;
      this.size := size;
    }

    /** `iter()`: a walk over this domain's canvas, from the start. */
    method Iter() returns (it: DomainIterator)
      ensures fresh(it) && it.view == State() && it.Counters() == Cursor(0, 0)
    {
      it := new DomainIterator(State());
    }

    /** `change(min, max)`: sets the rectangle; the size stays. */
    method Change(min: Point, max: Point)
      modifies this
      ensures State() == Viewport(min, max, old(size))
    {
      this.min := min;
      this.max := max;
    }

    /** `shift(point)`: pans by the plane offset of pixel `point`. */
    method Shift(point: Point)
      requires NonZero(size)
      modifies this
      ensures State() == Shifted(old(State()), point)
    {
      var projectedShift := Sub(Project(State(), point), min);
      min := Sub(min, projectedShift);
      max := Sub(max, projectedShift);
    }

    /** `scale(factor, center)`: zooms about the pixel `center`. */
    method Scale(factor: Point, center: Point)
      requires NonZero(size) && NonZero(Range(State()))
      modifies this
      ensures State() == Scaled(old(State()), factor, center)
    {
      var one := Point(1.0, 1.0);
      var currentRange := Sub(max, min);
      var shift := Div(Sub(Project(State(), center), min), currentRange);
      min := Sub(min, Mul(Mul(currentRange, Sub(factor, one)), shift));
      max := Add(max, Mul(Mul(currentRange, Sub(factor, one)), Sub(one, shift)));
    }
  }

  /** `DomainIterator`: two counters over a borrowed (so unchanging) domain state. */
  class DomainIterator {
    var x: nat
    var y: nat
    const view: Viewport

    function Counters(): Cursor
      reads this
    {
      Cursor(x, y)
    }

    constructor (view: Viewport)
      ensures this.view == view && Counters() == Cursor(0, 0)
    {
      this.view := view;
      x, y := 0, 0;
    }

    /** `next()`: the counters move as `Advance` says, and a yielded point is the
        projection of the new counters; only a yielding call projects, so only it
        needs a canvas with nonzero sides. */
    method Next() returns (r: Option<Point>)
      requires Advance(view.size, Counters()).Yield? ==> NonZero(view.size)
      modifies this
      ensures var m := Advance(view.size, old(Counters()));
        Counters() == m.at &&
        r == if m.Yield? then Some(Project(view, CellPoint(m.at))) else None
    {
      if x as real >= view.size.x {
        x := 0;
        y := y + 1;
        if y as real >= view.size.y {
          return None;
        }
      }
      x := x + 1;
      return Some(Project(view, Point(x as real, y as real)));
    }
  }
}
