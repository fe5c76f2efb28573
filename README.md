# frustals, modelled in Dafny

frustals is a fractal renderer written in Rust and compiled to WebAssembly. For every
canvas pixel, it projects the pixel into a rectangle of the complex plane (the
*domain*), runs one of nine fractal iterations there, and turns the iteration result
into an RGBA pixel that is stored in a row-major frame buffer. The web page then draws
that buffer. The domain can be panned, zoomed, resized or set outright.

The fractals come in two families:

- **Four escape-time iterations** count the steps until |z|² > 4: Mandelbrot z^d + c,
  Julia, Mandelbar conj(z)^d + c, and Burning Ship (|re z| + |im z| i)^d + c.
- **Five Newton presets** run z ↦ z − c·p(z)/p'(z) until z lies within √ε of one of a
  list of roots. Each root carries its own colour channel.

Four colouring modes turn a result into a pixel: Relative, RelativeBnW, AbsoluteHSL
and AbsoluteLogHSL.

This project is a Dafny model of that core and proves the model's properties. Each file
is one module and follows one source file:

| file | module | models |
|---|---|---|
| `wrappers.dfy` | `Wrappers` | `Option` |
| `complex.dfy` | `Complexes` | the part of `num_complex::Complex64` the loops use |
| `point.dfy` | `Points` | `src/point.rs` |
| `pixel.dfy` | `Pixels` | `src/pixel.rs` |
| `domain.dfy` | `Domains` | `src/domain.rs` |
| `fractals.dfy` | `Fractals` | `src/fractals.rs` |
| `frustal.dfy` | `Frustals` | `src/lib.rs` |

The model takes the shape of the Rust code:

- Pure Rust code becomes datatypes and functions.
- What Rust changes in place becomes classes, or methods over arrays, with `modifies`
  clauses:
  - `Domain` (`resize`, `change`, `shift`, `scale`);
  - `DomainIterator::next`;
  - the `*Assign` operators;
  - `Pixel::from`, which works on a slot of the frame buffer array;
  - the `Frustal` frame buffer.
- Each Rust loop becomes a `while` loop with invariants:
  - the escape-time loop;
  - Newton's step loop, with its inner `for` loop over the roots;
  - the render loop.

Each loop is proved equal to a specification function: the escape-time and Newton loops
to the recursive functions `FirstEscape`, `NewtonFrom` and `FirstRoot`, and the render
loop to the closed-form `DomainPoint`, the projection `Project(v, CellPoint(Cell(width, k)))`
of the k-th cell. The properties are then proved about those functions. The
square-and-multiply loop of `num_traits::pow`, which `powi` runs, is the method `Pow`,
proved equal to repeated multiplication `PowNat`.

Numbers:

- `f64` is modelled as `real`.
- A NaN that `num_complex` produces by dividing by zero is modelled as `None`. NaN never
  passes an escape test (`> 4`) or a convergence test (`< ε`), so a NaN orbit never
  gives a result, just as in the Rust code.
- The smoothing corrections use `ln`, `sqrt` and `powf`, so they are parameters (the
  `Smoothing` record).
- The external `Color::new_hsl` and `f64::ln` of the HSL modes are parameters too (the
  `HslBackend` record).

Points worth knowing about the code:

- The domain iterator counts the column up before it projects. Its points are therefore
  the pixel coordinates x = 1..width, y = 0..height−1, so point k lies in column
  k mod width + 1, not column k mod width.
- A missing result is opaque black (0, 0, 0, 255) in every mode.
- A Newton result carries the (possibly smoothed) step count and the channel of the root it reached, never
  `All` (`PresetNewtonNeverAll`).
- With smoothing on, a count is not confined to [0, precision]. The bound holds for the
  unsmoothed count.
- The second Newton preset (src/fractals.rs:47-48) iterates p(z) = z³ − 2z + 2 but codes
  its derivative as 3z² − 4, where the derivative of p is 3z² − 2. The model copies the
  code (`Newton2Derivative`), so this preset is a Newton-like iteration, not textbook
  Newton's method for p.

## Model

| member | source | states |
|---|---|---|
| `Complexes.DivTimesDivisor` | src/fractals.rs:313 | Complex division (a·conj(b)) / norm_sqr(b) is defined whenever norm_sqr(b) ≠ 0 and undoes multiplication: (a / b)·b = a |
| `Complexes.Powi` | src/fractals.rs:269 | `powi` is NaN exactly for a negative exponent at z = 0; a non-negative exponent gives z multiplied by itself n times |
| `Complexes.Pow` | src/fractals.rs:269 | the square-and-multiply loop of `num_traits::pow` that `powi` runs computes z multiplied by itself n times |
| `Complexes.PowNatAdd` | src/fractals.rs:269 | z^(m+n) = z^m · z^n |
| `Complexes.PowNatOfProduct` | src/fractals.rs:269 | (a·b)^n = a^n · b^n |
| `Complexes.PowiInverse` | src/fractals.rs:269 | for z ≠ 0 and every integer n, both `powi(n)` and `powi(−n)` are defined and z^(−n) · z^n = 1, so the negative branch computes the inverse power |
| `Complexes.AddTo` | src/fractals.rs:269 | adding the constant c to a power is NaN exactly when the power is NaN |
| `Complexes.PowNatTwo` | src/fractals.rs:266-270 | z² is z·z, so the order-2 shortcut `z * z + c` equals `z.powi(2) + c` |
| `Points.Conj` | src/point.rs:17-22 | `conj`, specified by `ConjInvolutive` |
| `Points.Add` | src/point.rs:25-34 | `+`, specified with `Sub` by `AddSubCancel` |
| `Points.Sub` | src/point.rs:45-54 | `-`, specified with `Add` by `AddSubCancel` |
| `Points.Mul` | src/point.rs:65-74 | component-wise `*`, specified with `Div` by `MulDivCancel` |
| `Points.Div` | src/point.rs:85-94 | component-wise `/`, defined when both components of the divisor are nonzero, specified by `MulDivCancel` |
| `Points.ConjInvolutive` | src/point.rs:17-22 | `conj` keeps x, negates y, and applied twice gives the point back |
| `Points.AddSubCancel` | src/point.rs:25-54 | component-wise subtraction undoes addition and vice versa: (a + b) − b = a, (a − b) + b = a |
| `Points.MulDivCancel` | src/point.rs:65-94 | component-wise division undoes the component-wise product when both components of b are nonzero |
| `Points.PointVar.constructor` | src/point.rs:13-15 | `Point::new(x, y)` stores x and y unchanged |
| `Points.PointVar.AddAssign` | src/point.rs:36-43 | after `self += other` the stored point is the old point plus `other` |
| `Points.PointVar.SubAssign` | src/point.rs:56-63 | after `self -= other` the stored point is the old point minus `other` |
| `Points.PointVar.MulAssign` | src/point.rs:76-83 | after `self *= other` the stored point is the component-wise product of the old point and `other` |
| `Pixels.Quantize` | src/pixel.rs:19-21 | a channel value ≤ 0 gives 0, a value ≥ 255 gives 255, and a value in [0, 255] gives the byte nearest to it (halves rounded up) |
| `Pixels.QuantizeMonotone` | src/pixel.rs:19-21 | clamping and rounding never reorder two channel values |
| `Pixels.FromF64` | src/pixel.rs:17-24 | `from_f64` is opaque (alpha 255) |
| `Pixels.FromF64InRange` | src/pixel.rs:17-24 | per channel, `from_f64` gives 0 for a value ≤ 0, 255 for a value ≥ 255, and the nearest byte (halves up) for a value in [0, 255]; alpha is 255 |
| `Pixels.FromColor` | src/pixel.rs:26-33 | `from_color` is opaque (alpha 255) |
| `Pixels.Black` | src/pixel.rs:35-37 | `black()` is the pixel (0, 0, 0, 255): opaque black, what `NoResultIsBlack` says every missing result gives |
| `Pixels.Void` | src/pixel.rs:39-41 | `void()` is the pixel (0, 0, 0, 0), fully transparent; a new or resized frame buffer holds only these |
| `Pixels.From` | src/pixel.rs:43-48 | `from(source)` makes the slot equal to `source` in all four fields and changes no other slot of the buffer |
| `Domains.InitialSymmetric` | src/domain.rs:42-53 | `new(size)` gives min = −max, stores `size`, and takes max = (2·w/h, 1.5) when w > h, else (2, 1.5·h/w) |
| `Domains.InitialCoversBase` | src/domain.rs:42-53 | on a canvas of positive size the initial rectangle contains (−2, −1.5)..(2, 1.5), is tight along one side, and per pixel has plane width : height = 4 : 3 |
| `Domains.Project` | src/domain.rs:70-72 | `project(point)` = min + point · (max − min) / size, defined when both canvas sides are nonzero; specified by `ProjectCorners` and the `ScaleFixesCenter` lemmas |
| `Domains.ProjectCorners` | src/domain.rs:70-72 | `project((0, 0)) = min` and `project(size) = max` |
| `Domains.ShiftKeepsRange` | src/domain.rs:79-83 | `shift(p)` leaves `max − min` and `size` unchanged |
| `Domains.ShiftUndone` | src/domain.rs:79-83 | `shift(p)` followed by `shift(−p)` restores `min` and `max` |
| `Domains.ScaleByOne` | src/domain.rs:85-92 | `scale((1, 1), center)` changes nothing |
| `Domains.ScaleFixesCenterX` | src/domain.rs:85-92 | `scale(f, center)` multiplies the x extent by f.x and keeps the x of `project(center)` |
| `Domains.ScaleFixesCenterY` | src/domain.rs:85-92 | `scale(f, center)` multiplies the y extent by f.y and keeps the y of `project(center)` |
| `Domains.ScaleFixesCenter` | src/domain.rs:85-92 | `scale(f, center)` multiplies `max − min` component-wise by f, keeps `size`, and keeps the plane point under `center` fixed |
| `Domains.Advance` | src/domain.rs:18-32 | the counters' move on one `next` call, specified by `CellSuccessor`, `AdvanceYields`, `AdvanceStops` and `EmptyHeightYieldsOneRow` |
| `Domains.CellSuccessor` | src/domain.rs:19-26 | the cell after cell k − 1 is the next column on its row, or column 1 of the next row after the last column |
| `Domains.AdvanceYields` | src/domain.rs:18-32 | on a canvas of at least 1×1, while fewer than width·height points have come, `next` yields the next cell in row-major order |
| `Domains.AdvanceStops` | src/domain.rs:18-32 | after width·height points `next` returns `None` |
| `Domains.CellIndex` | src/domain.rs:18-32 | the k-th cell lies in columns 1..width and rows 0..height−1, and k = row·width + column − 1, so no cell comes twice |
| `Domains.EmptyHeightYieldsOneRow` | src/domain.rs:18-32 | on a canvas of height 0 the first row is still walked: `width` points, then `None` |
| `Domains.Domain.constructor` | src/domain.rs:42-53 | `Domain::new(size)` builds the initial rectangle for `size` |
| `Domains.Domain.Resize` | src/domain.rs:55-64 | `resize(size)` gives the same `min` and `max` as `new(size)` and stores `size` |
| `Domains.Domain.Iter` | src/domain.rs:66-68 | `iter()` starts a walk over this domain with both counters at 0 |
| `Domains.Domain.Change` | src/domain.rs:74-77 | `change(min, max)` sets exactly those two fields; `size` is untouched |
| `Domains.Domain.Shift` | src/domain.rs:79-83 | `shift(point)` moves both corners back by the plane offset of `point` |
| `Domains.Domain.Scale` | src/domain.rs:85-92 | `scale(factor, center)` produces the scaled rectangle whose properties the `ScaleFixesCenter` lemmas state |
| `Domains.DomainIterator.constructor` | src/domain.rs:10-12 | a new iterator starts at x = y = 0 over the borrowed domain |
| `Domains.DomainIterator.Next` | src/domain.rs:18-32 | `next` moves to the next row after the last column and stops past the last row; otherwise it counts the column up and yields the projection of the new (x, y), and only a yielding call projects |
| `Fractals.GetFractal` | src/fractals.rs:23-94 | `get_fractal` gives Newton's method exactly for the five Newton variants (root channels in `PresetRootChannels`) |
| `Fractals.Channels` | src/fractals.rs:39-91 | the channels of a root list, one per root, in list order |
| `Fractals.PresetRootChannels` | src/fractals.rs:23-94 | `get_fractal` gives Newton's method exactly for the five Newton variants, each with at least three roots, each root in its own channel, none `All` |
| `Fractals.EscapeStep` | src/fractals.rs:266-270 | one escape-time step (Mandelbrot here, Julia at 344, Mandelbar at 369, Burning Ship at 406) is NaN exactly when a negative power of z = 0 is taken; the order-2 Mandelbrot shortcut never is |
| `Fractals.MandelbrotShortcut` | src/fractals.rs:266-270 | the order-2 Mandelbrot step `z * z + c` is the general step `z.powi(2) + c` |
| `Fractals.FirstEscapeSpec` | src/fractals.rs:263-292 | the escape search finds nothing exactly when no step in range has norm_sqr(z) > 4; otherwise it finds the first such step and its norm_sqr(z) |
| `Fractals.FirstIterate` | src/fractals.rs:251-269 | for order ≥ 1 the first Mandelbrot, Mandelbar and Burning Ship iterate (from z = 0) is the point, and the first Julia iterate (from z = point) is point^d + constant |
| `Fractals.CardioidTestExact` | src/fractals.rs:254-261 | the square-root-free cardioid test agrees with the source's test `x < p − 2p² + 1/4` for p = √((x − 1/4)² + y²) |
| `Fractals.EscapeIterations` | src/fractals.rs:250-293 | `get_iterations_at_point` of Mandelbrot (the same loop is Julia's at 337-357, Mandelbar's at 362-393 and Burning Ship's at 398-430): `None` when the order-2 pre-test holds, else the loop's result |
| `Fractals.EscapeLoop` | src/fractals.rs:263-292 | the loop returns the (smoothed) index of the first step with norm_sqr(z) > 4 below `precision`, all in channel `All`, and `None` if there is none |
| `Fractals.EscapeLoopStep` | src/fractals.rs:266-275 | one turn of the loop: the new z is the next orbit point; if it escapes, that step is the first escape, otherwise the search goes on from the next step |
| `Fractals.EscapeTimeCount` | src/fractals.rs:250-292 | unsmoothed, the result is `None` exactly when the order-2 Mandelbrot pre-test holds or no step below `precision` escapes; a `Some` result passed the pre-test and is `(All, n)` with n the 0-based index of the first escaping step and 0 ≤ n < precision |
| `Fractals.MandelbrotAtOne` | src/fractals.rs:254-292 | order 2, unsmoothed, precision ≥ 3: c = 1 gives `Some(All, 2)` |
| `Fractals.OrbitOfOne` | src/fractals.rs:266-273 | from 0 under z² + 1 the iterates are 1, 2, 5 with norm_sqr(z) = 1, 4, 25 |
| `Fractals.MandelbrotAtMinusOne` | src/fractals.rs:254-261 | order 2: c = −1 lies in the period-2 bulb, so the pre-test returns `None` |
| `Fractals.MinusOneCycle` | src/fractals.rs:266-270 | the orbit of c = −1 from 0 only ever visits 0 and −1 |
| `Fractals.MinusOneNeverEscapes` | src/fractals.rs:263-292 | for c = −1 the escape loop itself never finds an escape, for any precision, so the pre-test agrees with it |
| `Fractals.FirstRootSpec` | src/fractals.rs:314-328 | the root loop picks the first root in list order with norm_sqr(z − root) < 1e-5, and nothing exactly when no root is that close |
| `Fractals.NewtonStep` | src/fractals.rs:313 | `z -= c * p(z) / p'(z)` is defined exactly when p(z) and p'(z) are and p'(z) ≠ 0, and then the distance moved times p'(z) is c · p(z) |
| `Fractals.NewtonFrom` | src/fractals.rs:311-331 | a hit reports a step below `precision` and a root index inside the root list |
| `Fractals.NewtonFromSpec` | src/fractals.rs:311-331 | Newton's stopping step is the first step after which some root is reached, nothing is found exactly when no step reaches a root, and the root is the first reached one in list order |
| `Fractals.NewtonIterations` | src/fractals.rs:303-332 | Newton's `get_iterations_at_point`: the step loop with the root loop inside it returns the specified hit, smoothed from the squared distances before and after the step |
| `Fractals.NewtonCount` | src/fractals.rs:311-331 | the result is `None` exactly when no step converges; otherwise it is in the channel of the first root, in list order, that the first converging step reaches, with n that step's index (below `precision`) when unsmoothed |
| `Fractals.PresetNewtonNeverAll` | src/fractals.rs:36-92 | a Newton preset never returns channel `All` |
| `Fractals.GetIterationsAtPoint` | src/fractals.rs:146-147 | `get_iterations_at_point` runs the Newton loop for Newton fractals and the escape-time loop for the others |
| `Fractals.ResultNeedsPrecision` | src/fractals.rs:263-264 | every result comes from a step below `precision`, so `precision = 0` never gives one |
| `Fractals.TablesFollowWheel` | src/fractals.rs:178-198 | `channel_delta` is the channel's position on the colour wheel times 255/6, and `initial_hue` is that position times 60° |
| `Fractals.GetPixelForIteration` | src/fractals.rs:149-241 | `get_pixel_for_iteration` is always opaque and black for no result; the modes are specified by `RelativeAllEnds`, `RelativeAllBands`, `RelativeChannelMask`, `BnWGrey` and `HslBranches` |
| `Fractals.NoResultIsBlack` | src/fractals.rs:149-241 | no result gives (0, 0, 0, 255) under every colorization mode, and every pixel of the colouriser is opaque |
| `Fractals.RelativeAllEnds` | src/fractals.rs:154-166 | Relative, channel `All`: n = 0 gives (0, 0, 0, 255), and n = precision at lightness 1 gives (255, 255, 255, 255) |
| `Fractals.RelativeAllBands` | src/fractals.rs:154-166 | Relative, channel `All`: r ≥ g ≥ b, and green (blue) is lit only once red (green) is full |
| `Fractals.RelativeChannelMask` | src/fractals.rs:157-165 | Relative, a colour channel: the components the channel is made of carry sn = 255·(1 − n/precision)·lightness, the others are 0 |
| `Fractals.BnWGrey` | src/fractals.rs:169-187 | RelativeBnW: the pixel is grey (r = g = b), offset by the channel's wheel position times 255/6 |
| `Fractals.HslBranches` | src/fractals.rs:189-236 | HSL modes: above lightness·10 the hue turns from the channel's initial hue (linearly, or by ln for the log mode) at lightness 0.5; at or below it the hue is the initial hue and the HSL lightness is 0.5·n/(lightness·10) |
| `Fractals.GetPixelAtPoint` | src/fractals.rs:243-245 | `get_pixel_at_point` is the colour of the iteration result at the point, for every point whose result the colouriser can colour without dividing by zero |
| `Frustals.GetFromPreset` | src/lib.rs:28-63 | every preset smooths and builds a Mandelbrot exactly when it is not `Newton`; the whole table is in `PresetTable` |
| `Frustals.PresetTable` | src/lib.rs:28-63 | every preset smooths; Mandelbrot, Mandelbrot3, Mandelbrot4 and Mandelbrot5 are order 2, 3, 4 and 5 at precision 25; Newton runs at precision 20; no two presets build the same fractal |
| `Frustals.OtherCanvasesOverrun` | src/lib.rs:106-108 | on a canvas with a zero side, other than 0×0 and 0×1, the buffer is empty but the walk yields a point, so `render` would write out of bounds |
| `Frustals.Frustal.constructor` | src/lib.rs:76-89 | `new(w, h)`: w·h void pixels, domain (−2, −1.5)..(2, 1.5) of size w × h, the order-2 Mandelbrot preset |
| `Frustals.Frustal.SetFromPreset` | src/lib.rs:91-93 | `set_from_preset` replaces only `fractal` |
| `Frustals.Frustal.Resize` | src/lib.rs:95-101 | `resize(w, h)` sets `width`, `height`, `domain.width` and `domain.height` to the arguments, keeps the rectangle and the fractal, and replaces `data` with w·h void pixels |
| `Frustals.Frustal.Render` | src/lib.rs:103-112 | `render` writes only in bounds and sets `data[k]` to the fractal's pixel for the k-th domain point, for every k; no size, domain or fractal field changes |

## Left out

- IEEE-754 arithmetic: rounding, infinities and overflow are not modelled. Only the NaN that a division by an exact zero produces is modelled, as `None`.
- Points.Div, Domains.Project, Domains.Domain.Shift and Domains.Domain.Scale: these require nonzero divisors. In `f64`, a zero canvas side or a zero extent gives infinities or NaN, which have no counterpart over the reals.
- Domains.Domain.constructor: requires `CornerDefined(size)`, a nonzero shorter canvas side; in `f64` a zero there gives an infinite corner.
- Domains.Domain.Resize: requires `CornerDefined(size)` for the same reason as the constructor.
- Domains.DomainIterator.Next: requires nonzero canvas sides when the call yields a point, because the projection divides by them.
- Fractals.GetPixelForIteration: requires `Colourable`, a nonzero `precision` in the Relative modes and a nonzero `lightness` in the HSL branch that divides by it, because the colouriser divides by them.
- Fractals.GetPixelAtPoint: requires the point's result to be `Colourable`. In the HSL modes at lightness 0, a result with n ≤ 0 would divide 0.5·n by 0, which in `f64` gives NaN and has no counterpart over the reals. In the Relative modes every point meets it, because precision 0 gives no result (`ResultNeedsPrecision`).
- Fractals.EscapeTimeCount and Fractals.NewtonCount: bound the count by `precision` only when it is unsmoothed. The smoothing corrections (`ln`, `sqrt`, `powf`, `f64::max`) are parameters, so nothing is claimed about their size.
- A real number is not rounded to `f64` before it is stored, compared or divided.
- The order-2 Mandelbrot pre-test uses `sqrt`. It is modelled by an exact test without a square root, which `CardioidTestExact` proves equal to the source's test.
- Colour conversion: `Color::new_hsl`, `f64::ln` and the HSL-to-RGB rounding of the `color_processing` crate are parameters, so the HSL modes are modelled only down to which hue, saturation and lightness they request.
- Newton presets: the roots are the source's decimal constants, and √3/2 is the nearest `f64`. That the roots are roots of the polynomials, and the convergence of any particular start value, are not proved.
- `Options.order` is an `i32` and `Options.precision` a `usize`; the model treats both as unbounded integers. The `usize` product `width * height` cannot overflow in the model.
- The four escape-time `get_iterations_at_point` bodies are one loop parameterised by the fractal kind. They differ in the starting values, the step, the smoothing correction and, for Mandelbrot at order 2 only, the cardioid and period-2-bulb pre-test (src/fractals.rs:254-261); the model keeps each of these per kind.
- `Box<dyn Fractal>` dynamic dispatch becomes a datatype of fractal kinds with a `match`.
- `Options.variant` exists only for the user interface; it is carried and never read.
- src/lib.rs is written against an older interface:
  - a `Domain { min, max, width, height }`;
  - `Mandelbrot::new(Options { precision, smooth }, order)` and `Newton::new(options)`.
  Neither the older domain nor the older fractals are part of this model. The frame's domain therefore walks the canvas with the `DomainIterator` of src/domain.rs at size (width, height), and the pixel of a point is a parameter standing for the older fractal's `get_pixel_at_point`.
- Frustals.Frustal.Render: requires a canvas of at least 1×1, or 0×0 or 0×1 (where the walk yields nothing). These are exactly the canvases on which `render` does not index past its buffer (`OtherCanvasesOverrun`). The out-of-bounds panic itself is not modelled.
- WASM and allocator glue are not modelled:
  - the `wasm_bindgen` attributes;
  - `set_panic_hook`;
  - `wee_alloc`;
  - the raw pointer that `render` returns.
- The web front end and build files (www/src/index.js, www/src/presets.js, www/webpack.config.js) are not part of this model.
