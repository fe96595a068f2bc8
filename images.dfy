/**
 * Small images as values: the Cornerstone stencils of iso.py, `tint_image`
 * and the cornerstone sprites built from them.
 */
module Images {
  import opened Results
  import opened Colors
  import opened Geometry

  /**
   * An image: its pixels column by column (`cols[x][y]` is the pixel at
   * (x, y)) and whether it has an alpha band ('A' in its mode).  A pixel of an
   * image without alpha is read back as a 3-tuple; its stored alpha is unused.
   */
  datatype Image = Image(hasAlpha: bool, width: nat, height: nat, cols: seq<seq<Pixel>>)

  predicate WellFormed(img: Image)
  {
    |img.cols| == img.width && forall x :: 0 <= x < img.width ==> |img.cols[x]| == img.height
  }

  /** `img.getpixel((x, y))`. */
  function GetPixel(img: Image, x: int, y: int): Color
    requires WellFormed(img) && 0 <= x < img.width && 0 <= y < img.height
  {
    var p := img.cols[x][y];
    if img.hasAlpha then AsColor(p) else Rgb(p.r, p.g, p.b)
  }

  /** An RGBA image of the given size whose pixel at (x, y) is `f(x, y)`. */
  function Generate(w: nat, h: nat, f: (int, int) -> Pixel): (img: Image)
    ensures WellFormed(img) && img.hasAlpha && img.width == w && img.height == h
    ensures forall x, y :: 0 <= x < w && 0 <= y < h ==> img.cols[x][y] == f(x, y)
  {
    Image(true, w, h, seq(w, x => seq(h, y => f(x, y))))
  }

  /** Sides: which piece of a cornerstone a colour table serves. */
  datatype Part = LeftHalf | RightHalf | TopHalf | Full

  /**
   * The faces whose shades colour the (left, top, right) pixels of a
   * cornerstone seen from a direction.
   */
  function CornerFaces(dir: Direction): (Side, Side, Side)
  {
    match dir
    case North => (Left, Up, Back)
    case East => (Back, Up, Right)
    case South => (Right, Up, Front)
    case West => (Front, Up, Left)
  }

  /** The cornerstone shading table is the visibility table of `determine_visible_sides`. */
  lemma CornerFacesAreVisibleSides(dir: Direction)
    ensures DetermineVisibleSides(DirIndex(dir), Faces(Up, Down, Left, Right, Front, Back))
            == Ok(CornerFaces(dir))
  {
  }

  /** The pixel at (x, y) of the 4×4 `Cornerstone.get` stencil. */
  function FullStencilAt(x: int, y: int, l: Pixel, t: Pixel, r: Pixel): Pixel
  {
    if (x == 0 && (y == 1 || y == 2)) || (x == 1 && (y == 2 || y == 3)) then l
    else if (x == 3 && (y == 1 || y == 2)) || (x == 2 && (y == 2 || y == 3)) then r
    else if (x == 1 || x == 2) && (y == 0 || y == 1) then t
    else Transparent
  }

  /** The pixels `Cornerstone.get_left` paints in its 2×3 image. */
  predicate LeftMask(x: int, y: int)
  {
    (x == 0 && (y == 0 || y == 1)) || (x == 1 && (y == 1 || y == 2))
  }

  /** The pixels `Cornerstone.get_right` paints in its 2×3 image. */
  predicate RightMask(x: int, y: int)
  {
    (x == 1 && (y == 0 || y == 1)) || (x == 0 && (y == 1 || y == 2))
  }

  /** The pixel at (x, y) of the 2×3 `Cornerstone.get_left` stencil. */
  function LeftStencilAt(x: int, y: int, l: Pixel): Pixel
  {
    if LeftMask(x, y) then l else Transparent
  }

  /** The pixel at (x, y) of the 2×3 `Cornerstone.get_right` stencil. */
  function RightStencilAt(x: int, y: int, r: Pixel): Pixel
  {
    if RightMask(x, y) then r else Transparent
  }

  /** `Cornerstone.get_top` always paints (255, 255, 255): the direction's table is overridden. */
  const TopWhite := ToPixel(Rgb(255, 255, 255))

  /** The blank stencil of a part, shaded for a direction. */
  function StencilFor(part: Part, dir: Direction): (img: Image)
    ensures WellFormed(img) && img.hasAlpha
  {
    var (l, t, r) := CornerFaces(dir);
    match part
    case Full => Generate(4, 4, (x, y) => FullStencilAt(x, y, GetShade(l), GetShade(t), GetShade(r)))
    case LeftHalf => Generate(2, 3, (x, y) => LeftStencilAt(x, y, GetShade(l)))
    case RightHalf => Generate(2, 3, (x, y) => RightStencilAt(x, y, GetShade(r)))
    case TopHalf => Generate(2, 2, (x, y) => TopWhite)
  }

  /**
   * The stencil a `Cornerstone` method builds for an integer direction.  For a
   * value outside 0..3 `get`, `get_left` and `get_right` reach their drawing
   * code with the shade variables unbound and fail; `get_top` never uses them.
   */
  function Stencil(part: Part, d: int): (r: Result<Image, IsoError>)
    ensures r.Err? <==> part != TopHalf && !(0 <= d <= 3)
    ensures r.Err? ==> r.error == InvalidDirection(d)
  {
    if part == TopHalf then Ok(StencilFor(TopHalf, North))
    else match ToDirection(d)
      case None => Err(InvalidDirection(d))
      case Some(dir) => Ok(StencilFor(part, dir))
  }

  /** The top piece does not depend on the direction. */
  lemma TopIgnoresDirection(d: int, dir: Direction)
    ensures Stencil(TopHalf, d) == Ok(StencilFor(TopHalf, dir))
  {
  }

  /**
   * The full cornerstone is the three pieces put together: the left piece one
   * pixel down, the right piece two across and one down, the top piece (2×2,
   * all painted) one across, as the drawing hints of get_left, get_right and
   * get_top say; the three placed pieces do not overlap.
   */
  lemma FullIsThePiecesTogether(x: int, y: int, l: Pixel, t: Pixel, r: Pixel)
    requires 0 <= x < 4 && 0 <= y < 4
    ensures FullStencilAt(x, y, l, t, r) ==
      if LeftMask(x, y - 1) then l
      else if RightMask(x - 2, y - 1) then r
      else if 0 <= x - 1 < 2 && 0 <= y < 2 then t
      else Transparent
    ensures !(LeftMask(x, y - 1) && RightMask(x - 2, y - 1))
    ensures !(LeftMask(x, y - 1) && 0 <= x - 1 < 2 && 0 <= y < 2)
    ensures !(RightMask(x - 2, y - 1) && 0 <= x - 1 < 2 && 0 <= y < 2)
  {
  }

  /**
   * The colouring half of `tint_image`: `ImageOps.colorize(ImageOps.grayscale(src), black, color)`,
   * a library computation left abstract.  Only its colour channels are used.
   */
  type Recolor = (Pixel, Color) -> Pixel

  /** The alpha `tint_image` gives a pixel: a 0 / color[3] mask for a 4-tuple, unchanged otherwise. */
  function MaskAlpha(srcAlpha: int, color: Color): int
  {
    if color.Rgba? then (if srcAlpha > 0 then color.a else 0) else srcAlpha
  }

  function TintPixel(p: Pixel, color: Color, recolor: Recolor): Pixel
  {
    var c := recolor(p, color);
    Pixel(c.r, c.g, c.b, MaskAlpha(p.a, color))
  }

  /** `tint_image(src, color)` as a value: recoloured channels over the rebuilt alpha band. */
  function Tint(src: Image, color: Color, recolor: Recolor): (img: Image)
    requires WellFormed(src)
    ensures WellFormed(img) && img.hasAlpha && img.width == src.width && img.height == src.height
  {
    Image(true, src.width, src.height,
      seq(src.width, x requires 0 <= x < src.width =>
        seq(src.height, y requires 0 <= y < src.height => TintPixel(src.cols[x][y], color, recolor))))
  }

  /**
   * With a 4-tuple colour of nonzero alpha the tinted sprite is a flat
   * silhouette: a pixel is visible exactly when it was visible in the source,
   * and then it carries the colour's alpha, whatever the colour.
   */
  lemma TintSilhouette(src: Image, color: Color, recolor: Recolor, x: int, y: int)
    requires WellFormed(src) && 0 <= x < src.width && 0 <= y < src.height
    requires color.Rgba? && color.a > 0
    ensures var p := Tint(src, color, recolor).cols[x][y];
      (p.a != 0 <==> src.cols[x][y].a > 0) && (p.a != 0 ==> p.a == color.a)
  {
  }

  /** Two 4-tuple colours with nonzero alpha give the same layout of visible pixels. */
  lemma TintLayoutIsColorIndependent(src: Image, c1: Color, c2: Color, f1: Recolor, f2: Recolor)
    requires WellFormed(src) && c1.Rgba? && c1.a > 0 && c2.Rgba? && c2.a > 0
    ensures forall x, y :: 0 <= x < src.width && 0 <= y < src.height ==>
      (Tint(src, c1, f1).cols[x][y].a == 0 <==> Tint(src, c2, f2).cols[x][y].a == 0)
  {
    forall x, y | 0 <= x < src.width && 0 <= y < src.height
      ensures Tint(src, c1, f1).cols[x][y].a == 0 <==> Tint(src, c2, f2).cols[x][y].a == 0
    {
      TintSilhouette(src, c1, f1, x, y);
      TintSilhouette(src, c2, f2, x, y);
    }
  }

  /** A 3-tuple colour does not rebuild the alpha band: the source's alpha survives. */
  lemma TintRgbKeepsAlpha(src: Image, color: Color, recolor: Recolor, x: int, y: int)
    requires WellFormed(src) && 0 <= x < src.width && 0 <= y < src.height && color.Rgb?
    ensures Tint(src, color, recolor).cols[x][y].a == src.cols[x][y].a
  {
  }

  /**
   * `tint_image`, with its loop over the alpha band: split off the alpha
   * band, rewrite it as a mask for a 4-tuple colour, and put it back under the
   * recoloured channels.
   */
  method TintImage(src: Image, color: Color, recolor: Recolor) returns (img: Image)
    requires WellFormed(src) && src.hasAlpha
    ensures img == Tint(src, color, recolor)
  {
    var w, h := src.width, src.height;
    var alpha := new int[w, h]((x, y) requires 0 <= x < w && 0 <= y < h => src.cols[x][y].a);
    if color.Rgba? {
      for x := 0 to w
        invariant forall i, j :: 0 <= i < w && 0 <= j < h ==>
          alpha[i, j] == if i < x then MaskAlpha(src.cols[i][j].a, color) else src.cols[i][j].a
      {
        for y := 0 to h
          invariant forall i, j :: 0 <= i < w && 0 <= j < h ==>
            alpha[i, j] == if i < x || (i == x && j < y) then MaskAlpha(src.cols[i][j].a, color)
                           else src.cols[i][j].a
        {
          alpha[x, y] := if alpha[x, y] > 0 then color.a else 0;
        }
      }
    }
    assert forall i, j :: 0 <= i < w && 0 <= j < h ==> alpha[i, j] == MaskAlpha(src.cols[i][j].a, color);
    var cols := seq(w, x requires 0 <= x < w reads alpha =>
      seq(h, y requires 0 <= y < h reads alpha =>
        var c := recolor(src.cols[x][y], color); Pixel(c.r, c.g, c.b, alpha[x, y])));
    img := Image(true, w, h, cols);
    var spec := Tint(src, color, recolor);
    forall x | 0 <= x < w
      ensures cols[x] == spec.cols[x]
    {
      assert |cols[x]| == |spec.cols[x]| == h;
      forall y | 0 <= y < h
        ensures cols[x][y] == spec.cols[x][y]
      {
      }
    }
  }

  /**
   * The sprite the `Cornerstone` methods return: the stencil tinted with the
   * requested colour, or the direction error.
   */
  function Cornerstone(part: Part, color: Color, d: int, recolor: Recolor): (r: Result<Image, IsoError>)
    ensures r.Err? <==> part != TopHalf && !(0 <= d <= 3)
    ensures r.Ok? ==> WellFormed(r.value) && r.value.hasAlpha
  {
    match Stencil(part, d)
    case Err(e) => Err(e)
    case Ok(s) => Ok(Tint(s, color, recolor))
  }

  /** The sprite of a part for a typed direction. */
  function Sprite(part: Part, color: Color, dir: Direction, recolor: Recolor): (img: Image)
    ensures WellFormed(img) && img.hasAlpha
  {
    Tint(StencilFor(part, dir), color, recolor)
  }

  /** A sprite is what the cornerstone getter returns for the direction's index. */
  lemma SpriteIsCornerstone(part: Part, color: Color, dir: Direction, recolor: Recolor)
    ensures Cornerstone(part, color, DirIndex(dir), recolor) == Ok(Sprite(part, color, dir, recolor))
  {
  }

  /** `Cornerstone.get`, `get_left`, `get_right` or `get_top`, as `ColorTable.get` dispatches. */
  method MakeCornerstone(part: Part, color: Color, d: int, recolor: Recolor)
    returns (r: Result<Image, IsoError>)
    ensures r == Cornerstone(part, color, d, recolor)
  {
    var stencil := Stencil(part, d);
    if stencil.Err? {
      return Err(stencil.error);
    }
    var img := TintImage(stencil.value, color, recolor);
    return Ok(img);
  }
}
