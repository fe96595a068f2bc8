/**
 * The compositor of iso.py: `draw_pixel`, `draw_image` and `fill_image` on a
 * mutable RGBA pixel grid, and the pixel-by-pixel meaning of a sequence of
 * `draw_image` calls.
 */
module Compositor {
  import opened Arith
  import opened Results
  import opened Colors
  import opened Geometry
  import opened Images

  /** A mutable RGBA image: `c[x, y]` is the pixel at (x, y), `Length0` the width. */
  type Canvas = array2<Pixel>

  /** Every pixel of the canvas is (0, 0, 0, 0), as `Image.new('RGBA', ...)` leaves it. */
  predicate IsBlank(c: Canvas)
    reads c
  {
    forall i, j :: 0 <= i < c.Length0 && 0 <= j < c.Length1 ==> c[i, j] == Transparent
  }

  /**
   * What one `draw_image(x, y, img, canvas)` does to the canvas pixel at
   * (i, j) that held `prev`: the source pixel over it, if any, is blended on
   * when the source has alpha (and skipped when that alpha is 0), or stored
   * outright when it has none.
   */
  function DrawAt(prev: Pixel, i: int, j: int, x: int, y: int, img: Image): Pixel
    requires WellFormed(img)
  {
    var sx, sy := i - x, j - y;
    if 0 <= sx < img.width && 0 <= sy < img.height then
      var px := GetPixel(img, sx, sy);
      if img.hasAlpha then
        if px.a == 0 then prev else BlendColor(AsColor(prev), px)
      else ToPixel(px)
    else prev
  }

  /**
   * `draw_pixel(x, y, pixel, img)`: blend `pixel` over the pixel at (x, y);
   * coordinates outside the image raise instead.
   */
  method DrawPixel(x: int, y: int, pixel: Color, img: Canvas) returns (r: Result<(), IsoError>)
    modifies img
    ensures r.Ok? <==> 0 <= x < img.Length0 && 0 <= y < img.Length1
    ensures r.Err? ==> r.error == OutOfBounds(x, y, img.Length0, img.Length1)
    ensures r.Ok? ==> img[x, y] == BlendColor(AsColor(old(img[x, y])), pixel)
    ensures forall i, j :: 0 <= i < img.Length0 && 0 <= j < img.Length1 && (i != x || j != y) ==>
      img[i, j] == old(img[i, j])
  {
    if 0 <= x < img.Length0 && 0 <= y < img.Length1 {
      img[x, y] := BlendColor(AsColor(img[x, y]), pixel);
      r := Ok(());
    } else {
      r := Err(OutOfBounds(x, y, img.Length0, img.Length1));
    }
  }

  /** Source pixel (sx, sy) comes before row `yp`, column `xp` in `draw_image`'s row-by-row scan. */
  predicate ScannedBefore(sx: int, sy: int, w: int, h: int, xp: int, yp: int)
  {
    0 <= sx < w && 0 <= sy < h && (sy < yp || (sy == yp && sx < xp))
  }

  /**
   * `draw_image(x, y, img, canvas)`: copy `img` onto `canvas` with its
   * upper-left corner at (x, y), row by row.  It never raises: pixels that fall
   * off the canvas are dropped, and transparent source pixels are skipped.
   */
  method DrawImage(x: int, y: int, img: Image, canvas: Canvas)
    requires WellFormed(img)
    modifies canvas
    ensures forall i, j :: 0 <= i < canvas.Length0 && 0 <= j < canvas.Length1 ==>
      canvas[i, j] == DrawAt(old(canvas[i, j]), i, j, x, y, img)
    ensures forall i, j ::
      (0 <= i < canvas.Length0 && 0 <= j < canvas.Length1 &&
       !(x <= i < x + img.width && y <= j < y + img.height)) ==> canvas[i, j] == old(canvas[i, j])
    ensures img.hasAlpha ==> forall i, j ::
      (0 <= i < canvas.Length0 && 0 <= j < canvas.Length1 &&
       x <= i < x + img.width && y <= j < y + img.height && img.cols[i - x][j - y].a == 0) ==>
      canvas[i, j] == old(canvas[i, j])
  {
    for yp := 0 to img.height
      invariant forall i, j :: 0 <= i < canvas.Length0 && 0 <= j < canvas.Length1 ==>
        canvas[i, j] == if ScannedBefore(i - x, j - y, img.width, img.height, 0, yp)
                        then DrawAt(old(canvas[i, j]), i, j, x, y, img) else old(canvas[i, j])
    {
      for xp := 0 to img.width
        invariant forall i, j :: 0 <= i < canvas.Length0 && 0 <= j < canvas.Length1 ==>
          canvas[i, j] == if ScannedBefore(i - x, j - y, img.width, img.height, xp, yp)
                          then DrawAt(old(canvas[i, j]), i, j, x, y, img) else old(canvas[i, j])
      {
        var px := GetPixel(img, xp, yp);
        if img.hasAlpha && px.a == 0 {
          continue;
        }
        var nx, ny := x + xp, y + yp;
        if 0 <= nx < canvas.Length0 && 0 <= ny < canvas.Length1 {
          if img.hasAlpha {
            var ok := DrawPixel(nx, ny, px, canvas);
          } else {
            canvas[nx, ny] := ToPixel(px);
          }
        }
      }
    }
  }

  /** `fill_image(image, color)`: every pixel becomes `color`, row by row. */
  method FillImage(img: Canvas, color: Color)
    modifies img
    ensures forall i, j :: 0 <= i < img.Length0 && 0 <= j < img.Length1 ==> img[i, j] == ToPixel(color)
  {
    for y := 0 to img.Length1
      invariant forall i, j :: 0 <= i < img.Length0 && 0 <= j < img.Length1 ==>
        img[i, j] == if j < y then ToPixel(color) else old(img[i, j])
    {
      for x := 0 to img.Length0
        invariant forall i, j :: 0 <= i < img.Length0 && 0 <= j < img.Length1 ==>
          img[i, j] == if j < y || (j == y && i < x) then ToPixel(color) else old(img[i, j])
      {
        img[x, y] := ToPixel(color);
      }
    }
  }

  /** One `draw_image(x, y, sprite, canvas)` call of a render. */
  datatype DrawOp = DrawOp(x: int, y: int, sprite: Image)

  predicate OpsWellFormed(ops: seq<DrawOp>)
  {
    forall op :: op in ops ==> WellFormed(op.sprite)
  }

  lemma WellFormedJoin(a: seq<DrawOp>, b: seq<DrawOp>)
    requires OpsWellFormed(a) && OpsWellFormed(b)
    ensures OpsWellFormed(a + b)
  {
  }

  /** The pixel at (i, j) of a fresh RGBA canvas after the draws `ops`, in order. */
  function RenderAt(ops: seq<DrawOp>, i: int, j: int): Pixel
    requires OpsWellFormed(ops)
  {
    if ops == [] then Transparent
    else
      var last := ops[|ops| - 1];
      DrawAt(RenderAt(ops[..|ops| - 1], i, j), i, j, last.x, last.y, last.sprite)
  }

  /** Drawing one more sprite acts on each pixel through DrawAt. */
  lemma RenderAppend(ops: seq<DrawOp>, op: DrawOp, i: int, j: int)
    requires OpsWellFormed(ops) && WellFormed(op.sprite)
    ensures OpsWellFormed(ops + [op])
    ensures RenderAt(ops + [op], i, j) == DrawAt(RenderAt(ops, i, j), i, j, op.x, op.y, op.sprite)
  {
    assert (ops + [op])[..|ops|] == ops;
  }

  /** The pixel at (i, j) of a canvas is what the draws `ops` leave there. */
  predicate Shows(canvas: Canvas, ops: seq<DrawOp>)
    requires OpsWellFormed(ops)
    reads canvas
  {
    forall i, j :: 0 <= i < canvas.Length0 && 0 <= j < canvas.Length1 ==> canvas[i, j] == RenderAt(ops, i, j)
  }

  /** `Image.new('RGBA', (w, h))`: a fresh canvas that shows no draws yet. */
  method NewCanvas(w: nat, h: nat) returns (canvas: Canvas)
    ensures fresh(canvas) && canvas.Length0 == w && canvas.Length1 == h
    ensures IsBlank(canvas) && Shows(canvas, [])
  {
    canvas := new Pixel[w, h]((i, j) => Transparent);
  }

  /** One `draw_image` call of a render: a canvas that shows `done` then shows `done + [op]`. */
  method DrawOpOnto(op: DrawOp, canvas: Canvas, ghost done: seq<DrawOp>)
    requires OpsWellFormed(done) && WellFormed(op.sprite) && Shows(canvas, done)
    modifies canvas
    ensures OpsWellFormed(done + [op]) && Shows(canvas, done + [op])
  {
    DrawImage(op.x, op.y, op.sprite, canvas);
    assert OpsWellFormed(done + [op]) by { RenderAppend(done, op, 0, 0); }
    forall i, j | 0 <= i < canvas.Length0 && 0 <= j < canvas.Length1
      ensures canvas[i, j] == RenderAt(done + [op], i, j)
    {
      RenderAppend(done, op, i, j);
    }
  }

  /** A canvas pixel that no draw covers with a visible pixel stays (0, 0, 0, 0). */
  predicate Uncovered(ops: seq<DrawOp>, i: int, j: int)
    requires OpsWellFormed(ops)
  {
    forall k :: 0 <= k < |ops| ==>
      var op := ops[k];
      var sx, sy := i - op.x, j - op.y;
      !(0 <= sx < op.sprite.width && 0 <= sy < op.sprite.height) ||
      (op.sprite.hasAlpha && op.sprite.cols[sx][sy].a == 0)
  }

  lemma {:induction false} RenderUncovered(ops: seq<DrawOp>, i: int, j: int)
    requires OpsWellFormed(ops) && Uncovered(ops, i, j)
    ensures RenderAt(ops, i, j) == Transparent
  {
    if ops != [] {
      var init := ops[..|ops| - 1];
      assert Uncovered(init, i, j) by {
        forall k | 0 <= k < |init| ensures init[k] == ops[k] { }
      }
      RenderUncovered(init, i, j);
    }
  }

  /** Every pixel of every sprite is a valid RGBA value. */
  predicate SpritesInRange(ops: seq<DrawOp>)
    requires OpsWellFormed(ops)
  {
    forall k, x, y :: 0 <= k < |ops| && 0 <= x < ops[k].sprite.width && 0 <= y < ops[k].sprite.height ==>
      ValidPixel(ops[k].sprite.cols[x][y])
  }

  /** Channels stay in [0, 255] through any sequence of draws of in-range sprites. */
  lemma {:induction false} RenderInRange(ops: seq<DrawOp>, i: int, j: int)
    requires OpsWellFormed(ops) && SpritesInRange(ops)
    ensures ValidPixel(RenderAt(ops, i, j))
  {
    if ops != [] {
      var init := ops[..|ops| - 1];
      var last := ops[|ops| - 1];
      assert SpritesInRange(init) by {
        forall k | 0 <= k < |init| ensures init[k] == ops[k] { }
      }
      RenderInRange(init, i, j);
      var sx, sy := i - last.x, j - last.y;
      if 0 <= sx < last.sprite.width && 0 <= sy < last.sprite.height {
        assert ValidPixel(last.sprite.cols[sx][sy]);
      }
    }
  }
}
