/** Colour values and the per-channel arithmetic of iso.py: lighten, darken and blend_color. */
module Colors {
  import opened Arith

  /** A pixel as an RGBA image stores it: four channels. */
  datatype Pixel = Pixel(r: int, g: int, b: int, a: int)

  /** A colour tuple as the code passes it around: RGB 3-tuple or RGBA 4-tuple. */
  datatype Color = Rgb(r: int, g: int, b: int) | Rgba(r: int, g: int, b: int, a: int)

  /** The pixel of a freshly created RGBA image. */
  const Transparent := Pixel(0, 0, 0, 0)

  /** Shade.WHITE. */
  const White := Pixel(255, 255, 255, 255)

  /** Alpha of a colour tuple; a 3-tuple counts as fully opaque. */
  function Alpha(c: Color): int
  {
    if c.Rgb? then 255 else c.a
  }

  /** The four channels a 3- or 4-tuple stands for (a 3-tuple gets alpha 255). */
  function ToPixel(c: Color): Pixel
  {
    Pixel(c.r, c.g, c.b, Alpha(c))
  }

  /** The 4-tuple `getpixel` returns for a stored RGBA pixel. */
  function AsColor(p: Pixel): Color
  {
    Rgba(p.r, p.g, p.b, p.a)
  }

  predicate InByte(v: int) { 0 <= v <= 255 }

  predicate ValidPixel(p: Pixel)
  {
    InByte(p.r) && InByte(p.g) && InByte(p.b) && InByte(p.a)
  }

  predicate ValidColor(c: Color)
  {
    ValidPixel(ToPixel(c))
  }

  /** `lighten(color, shades)`: each colour channel raised by `shades`, capped at 255. */
  function Lighten(c: Pixel, shades: int): (r: Pixel)
    ensures r.a == c.a
    ensures r.r <= 255 && r.g <= 255 && r.b <= 255
    ensures r.r == Min(c.r + shades, 255)
    ensures r.g == Min(c.g + shades, 255)
    ensures r.b == Min(c.b + shades, 255)
    ensures shades >= 0 && ValidPixel(c) ==> ValidPixel(r) && r.r >= c.r && r.g >= c.g && r.b >= c.b
  {
    Pixel(Min(c.r + shades, 255), Min(c.g + shades, 255), Min(c.b + shades, 255), c.a)
  }

  /** `darken(color, shades)`: each colour channel lowered by `shades`, floored at 0. */
  function Darken(c: Pixel, shades: int): (r: Pixel)
    ensures r.a == c.a
    ensures r.r >= 0 && r.g >= 0 && r.b >= 0
    ensures r.r == Max(c.r - shades, 0)
    ensures r.g == Max(c.g - shades, 0)
    ensures r.b == Max(c.b - shades, 0)
    ensures shades >= 0 && ValidPixel(c) ==> ValidPixel(r) && r.r <= c.r && r.g <= c.g && r.b <= c.b
  {
    Pixel(Max(c.r - shades, 0), Max(c.g - shades, 0), Max(c.b - shades, 0), c.a)
  }

  /** Lightening undoes darkening when no channel was clipped at 0 or 255. */
  lemma LightenUndoesDarken(c: Pixel, shades: int)
    requires ValidPixel(c) && shades >= 0
    requires c.r >= shades && c.g >= shades && c.b >= shades
    ensures Lighten(Darken(c, shades), shades) == c
  {
  }

  /**
   * One blended channel: the exact value of `b * (a/255) + d * ((255-a)/255)`
   * truncated by `int()`.
   */
  function MixChannel(d: int, s: int, sa: int): int
  {
    TruncDiv(s * sa + d * (255 - sa), 255)
  }

  /**
   * `blend_color(a, b)` as `draw_pixel` calls it: `a` is the pixel already on
   * the image (`dst`), `b` the pixel drawn on top of it (`src`), whose alpha
   * weights it.  3-tuples are padded with alpha 255.
   */
  function BlendColor(dst: Color, src: Color): (r: Pixel)
    ensures r.a == Min(Alpha(dst) + Alpha(src), 255)
    ensures Alpha(src) == 255 ==> r.r == src.r && r.g == src.g && r.b == src.b
    ensures Alpha(src) == 0 ==> r.r == dst.r && r.g == dst.g && r.b == dst.b
    ensures ValidColor(dst) && ValidColor(src) ==> ValidPixel(r)
  {
    var sa := Alpha(src);
    var p := Pixel(MixChannel(dst.r, src.r, sa), MixChannel(dst.g, src.g, sa),
                   MixChannel(dst.b, src.b, sa), Min(Alpha(dst) + sa, 255));
    if sa == 255 then
      TruncDivExact(src.r, 255); TruncDivExact(src.g, 255); TruncDivExact(src.b, 255);
      p
    else if sa == 0 then
      TruncDivExact(dst.r, 255); TruncDivExact(dst.g, 255); TruncDivExact(dst.b, 255);
      p
    else if ValidColor(dst) && ValidColor(src) then
      MixInByte(dst.r, src.r, sa); MixInByte(dst.g, src.g, sa); MixInByte(dst.b, src.b, sa);
      p
    else
      p
  }

  /** A blended channel of two bytes is a byte. */
  lemma MixInByte(d: int, s: int, sa: int)
    requires InByte(d) && InByte(s) && InByte(sa)
    ensures InByte(MixChannel(d, s, sa))
  {
    MulBounded(s, sa);
    MulBounded(d, 255 - sa);
    assert s * sa + d * (255 - sa) <= 255 * sa + 255 * (255 - sa);
    assert 255 * sa + 255 * (255 - sa) == 255 * 255;
  }

  lemma MulBounded(x: int, y: int)
    requires InByte(x) && InByte(y)
    ensures 0 <= x * y <= 255 * y
  {
  }

  /** Blending a fully transparent pixel changes nothing on an in-range destination. */
  lemma BlendTransparentIsIdentity(dst: Pixel, src: Color)
    requires ValidPixel(dst) && Alpha(src) == 0
    ensures BlendColor(AsColor(dst), src) == dst
  {
  }

  /** Alphas that sum to 255 or more saturate at exactly 255. */
  lemma BlendSaturates(dst: Color, src: Color)
    requires Alpha(dst) + Alpha(src) >= 255
    ensures BlendColor(dst, src).a == 255
  {
  }

  /** A 3-tuple blends exactly like the 4-tuple with alpha 255. */
  lemma BlendPadsRgb(dst: Color, r: int, g: int, b: int)
    ensures BlendColor(dst, Rgb(r, g, b)) == BlendColor(dst, Rgba(r, g, b, 255))
    ensures BlendColor(Rgb(r, g, b), dst) == BlendColor(Rgba(r, g, b, 255), dst)
  {
  }
}
