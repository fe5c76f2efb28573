/** `Frustal` (src/lib.rs): the frame buffer the web page draws, the preset table it
    starts from, and the render loop that fills the buffer one domain point at a time.
    This file is written against an older interface of the other modules: its domain
    carries an integer `width` and `height`, and its presets build a fractal from a
    precision, a smoothing flag and an order. */
module Frustals {
  import opened Wrappers
  import opened Points
  import opened Pixels
  import Domains

  /** The `Options { precision, smooth }` of the older fractal interface. */
  datatype LegacyOptions = LegacyOptions(precision: real, smooth: bool)

  /** `Mandelbrot::new(options, order)` and `Newton::new(options)`. */
  datatype PresetFractal =
    | MandelbrotOf(options: LegacyOptions, order: int)
    | NewtonOf(options: LegacyOptions)

  /** `Preset` */
  datatype Preset = Mandelbrot | Mandelbrot3 | Mandelbrot4 | Mandelbrot5 | Newton

  /** `get_from_preset`: the four Mandelbrot presets differ only in the order. */
  function GetFromPreset(preset: Preset): (f: PresetFractal)
    ensures f.options.smooth
    ensures f.MandelbrotOf? <==> preset != Newton
  {
    match preset
    case Mandelbrot => MandelbrotOf(LegacyOptions(25.0, true), 2)
    case Mandelbrot3 => MandelbrotOf(LegacyOptions(25.0, true), 3)
    case Mandelbrot4 => MandelbrotOf(LegacyOptions(25.0, true), 4)
    case Mandelbrot5 => MandelbrotOf(LegacyOptions(25.0, true), 5)
    case Newton => NewtonOf(LegacyOptions(20.0, true))
  }

  /** The order a Mandelbrot preset names: 2 for the plain one, else its suffix. */
  function PresetOrder(preset: Preset): int
    requires preset != Newton
  {
    match preset
    case Mandelbrot => 2
    case Mandelbrot3 => 3
    case Mandelbrot4 => 4
    case Mandelbrot5 => 5
  }

  /** Every preset smooths; the Mandelbrot presets run 25 steps at their own order,
      Newton runs 20, and no two presets build the same fractal. */
  lemma PresetTable(p: Preset, q: Preset)
    ensures GetFromPreset(p).options.smooth
    ensures GetFromPreset(p).MandelbrotOf? <==> p != Newton
    ensures p != Newton ==>
      GetFromPreset(p).options.precision == 25.0 && GetFromPreset(p).order == PresetOrder(p)
    ensures p == Newton ==> GetFromPreset(p).options.precision == 20.0
    ensures GetFromPreset(p) == GetFromPreset(q) <==> p == q
  {
  }

  /** The older `Domain { min, max, width, height }`. */
  datatype FrameDomain = FrameDomain(min: Point, max: Point, width: nat, height: nat)

  /** The same domain in the terms of `Domains`: the canvas size is (width, height). */
  function AsView(d: FrameDomain): Domains.Viewport
  {
    Domains.Viewport(d.min, d.max, Domains.Size(d.width, d.height))
  }

  /** The rectangle a new `Frustal` shows: (-2, -1.5) to (2, 1.5). */
  function StartDomain(width: nat, height: nat): FrameDomain
  {
    FrameDomain(Point(-2.0, -1.5), Point(2.0, 1.5), width, height)
  }

  /** On every other canvas the buffer is empty and yet the first call of the walk
      yields a point, so `render` would index past the end of its buffer. */
  lemma OtherCanvasesOverrun(width: nat, height: nat)
    requires !((width >= 1 && height >= 1) || (width == 0 && height <= 1))
    ensures width * height == 0
    ensures Domains.Advance(Domains.Size(width, height), Domains.Cursor(0, 0)).Yield?
  {
    if width >= 1 {
      Domains.EmptyHeightYieldsOneRow(width, 0);
    }
  }

  /** `Frustal`: the canvas size, its `width * height` pixels in row order, the domain
      shown and the fractal drawn. The pixel a fractal gives for a plane point is
      `get_pixel_at_point`, which `render` receives as `pixelAt`. */
  class Frustal {
    var width: nat
    var height: nat
    var data: array<Pixel>
    var domain: FrameDomain
    var fractal: PresetFractal

    /** The buffer holds one pixel per canvas cell and the domain has the canvas size. */
    predicate Valid()
      reads this
    {
      data.Length == width * height && domain.width == width && domain.height == height
    }

    /** `Frustal::new(width, height)`: a void buffer, the start domain and the
        order-2 Mandelbrot preset. */
    constructor (width: nat, height: nat)
      ensures Valid()
      ensures this.width == width && this.height == height
      ensures fresh(data) && forall j :: 0 <= j < data.Length ==> data[j] == Void()
      ensures domain == StartDomain(width, height)
      ensures fractal == GetFromPreset(Mandelbrot)
    {
      this.width := width;
      this.height := height;
      data := new Pixel[width * height](_ => Void());
      domain := StartDomain(width, height);
      fractal := GetFromPreset(Mandelbrot);
    }

    /** `set_from_preset(preset)`: only the fractal changes. */
    method SetFromPreset(preset: Preset)
      modifies this
      ensures fractal == GetFromPreset(preset)
      ensures width == old(width) && height == old(height)
      ensures data == old(data) && domain == old(domain)
    {
      fractal := GetFromPreset(preset);
    }

    /** `resize(width, height)`: the new size in the frame and in the domain, whose
        rectangle stays, and a fresh void buffer of the new size. */
    method Resize(width: nat, height: nat)
      modifies this
      ensures Valid()
      ensures this.width == width && this.height == height
      ensures domain == old(domain).(width := width, height := height)
      ensures fresh(data) && forall j :: 0 <= j < data.Length ==> data[j] == Void()
      ensures fractal == old(fractal)
    {
      this.width := width;
      this.height := height;
      domain := domain.(width := width, height := height);
      data := new Pixel[width * height](_ => Void());
    }

    /** `render()`: walks the domain and stores the k-th point's pixel at `data[k]`.
        Every index written is in bounds, every cell is written, and nothing but the
        buffer's contents changes. The canvases allowed are those on which the walk
        stays inside the buffer: at least 1×1, or 0 wide and at most 1 high, where
        the walk yields nothing. */
    method Render(pixelAt: (PresetFractal, Point) -> Pixel)
      requires Valid() && ((width >= 1 && height >= 1) || (width == 0 && height <= 1))
      modifies data
      ensures forall k :: 0 <= k < data.Length ==>
        data[k] == pixelAt(fractal, Domains.DomainPoint(AsView(domain), width, k))
    {
      var view := AsView(domain);
      var it := new Domains.DomainIterator(view);
      var i: nat := 0;
      if width >= 1 {
        Domains.AdvanceYields(width, height, 0);
      }
      var point := it.Next();
      while point.Some?
        invariant i <= width * height && it.view == view && fresh(it)
        invariant width >= 1 && i < width * height ==>
          it.Counters() == Domains.CursorAfter(width, i + 1) &&
          point == Some(Domains.DomainPoint(view, width, i))
        invariant i == width * height ==> point.None?
        invariant forall k :: 0 <= k < i ==> data[k] == pixelAt(fractal, Domains.DomainPoint(view, width, k))
        decreases width * height - i
      {
        Pixels.From(data, i, pixelAt(fractal, point.value));
        i := i + 1;
        if i < width * height {
          Domains.AdvanceYields(width, height, i);
        } else {
          Domains.AdvanceStops(width, height);
        }
        point := it.Next();
      }
    }
  }
}
