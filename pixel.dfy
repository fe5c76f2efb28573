/** `Pixel` (src/pixel.rs): an RGBA pixel of four bytes. */
module Pixels {

  /** `u8` */
  type Byte = x: int | 0 <= x < 256

  /** `Pixel::new(r, g, b, a)` is this datatype's constructor. */
  datatype Pixel = Pixel(r: Byte, g: Byte, b: Byte, a: Byte)

  /** The colour type of the external `color_processing` crate: the three channels
      `Pixel::from_color` reads. */
  datatype Color = Color(red: Byte, green: Byte, blue: Byte)

  /** `0f64.max(v).min(255f64)` */
  function Clamp(v: real): real
  {
    var low := if 0.0 >= v then 0.0 else v;
    if low <= 255.0 then low else 255.0
  }

  /** One channel of `from_f64`: clamp into [0, 255], then `round` (to nearest, halves
      away from zero, which on [0, 255] is floor(v + 0.5)), then `as u8`. */
  function Quantize(v: real): (q: Byte)
    ensures v <= 0.0 ==> q == 0
    ensures v >= 255.0 ==> q == 255
    ensures 0.0 <= v <= 255.0 ==> q as real - 0.5 <= v < q as real + 0.5
  {
    (Clamp(v) + 0.5).Floor
  }

  /** Clamping and rounding never reorder two channel values. */
  lemma QuantizeMonotone(u: real, v: real)
    requires u <= v
    ensures Quantize(u) <= Quantize(v)
  {
    assert Clamp(u) <= Clamp(v);
  }

  /** `Pixel::from_f64`: an opaque pixel from three real channel values. */
  function FromF64(r: real, g: real, b: real): (p: Pixel)
    ensures p.a == 255
  {
    Pixel(Quantize(r), Quantize(g), Quantize(b), 255)
  }

  /** `Pixel::from_color`: an opaque pixel with the colour's channels. */
  function FromColor(c: Color): (p: Pixel)
    ensures p.a == 255
  {
    Pixel(c.red, c.green, c.blue, 255)
  }

  /** `Pixel::black()`: opaque black. */
  function Black(): Pixel { Pixel(0, 0, 0, 255) }

  /** `Pixel::void()`: fully transparent. */
  function Void(): Pixel { Pixel(0, 0, 0, 0) }

  /** `from_f64` saturates: a channel value at or below 0 gives 0, one at or above 255
      gives 255, and one in between gives the nearest byte; the alpha is 255. */
  lemma FromF64InRange(r: real, g: real, b: real)
    ensures var p := FromF64(r, g, b);
      (r <= 0.0 ==> p.r == 0) && (r >= 255.0 ==> p.r == 255) &&
      (g <= 0.0 ==> p.g == 0) && (g >= 255.0 ==> p.g == 255) &&
      (b <= 0.0 ==> p.b == 0) && (b >= 255.0 ==> p.b == 255) &&
      (0.0 <= r <= 255.0 ==> p.r as real - 0.5 <= r < p.r as real + 0.5) &&
      (0.0 <= g <= 255.0 ==> p.g as real - 0.5 <= g < p.g as real + 0.5) &&
      (0.0 <= b <= 255.0 ==> p.b as real - 0.5 <= b < p.b as real + 0.5) &&
      p.a == 255
  {
  }

  /** `pixel.from(source)`: the pixel at a place takes all four channels of `source`.
      The only place the program overwrites this way is a slot of the frame buffer, so
      the place is `buffer[i]`; nothing else in the buffer changes. */
  method From(buffer: array<Pixel>, i: nat, source: Pixel)
    requires i < buffer.Length
    modifies buffer
    ensures buffer[i] == source
    ensures forall j :: 0 <= j < buffer.Length && j != i ==> buffer[j] == old(buffer[j])
  {
    buffer[i] := Pixel(source.r, source.g, source.b, source.a);
  }
}
