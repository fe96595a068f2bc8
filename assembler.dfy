/**
 * `Iso`, the bloxel assembler of iso.py: `get_scalar_bloxel` composites six
 * 16×16 face textures onto a fresh 64×64 canvas and `get_multipart_bloxel`
 * draws a depth-sorted list of voxels.
 */
module Assembler {
  import opened Results
  import opened Colors
  import opened Geometry
  import opened Coords
  import opened Images
  import opened Compositor
  import opened Tables
  import opened Voxels

  /** `Iso.TEX_WIDTH`. */
  const TexWidth := 16

  /** The side of the canvas `Image.new('RGBA', (64, 64))` creates. */
  const CanvasSize := 64

  /** A face texture: 16×16 pixels, with or without alpha. */
  predicate IsTexture(img: Image)
  {
    WellFormed(img) && img.width == TexWidth && img.height == TexWidth
  }

  predicate AreTextures(f: Faces<Image>)
  {
    IsTexture(f.up) && IsTexture(f.down) && IsTexture(f.left) &&
    IsTexture(f.right) && IsTexture(f.front) && IsTexture(f.back)
  }

  /** A texture with an alpha band and some pixel of alpha below 255. */
  predicate Translucent(img: Image)
    requires IsTexture(img)
  {
    img.hasAlpha && exists x, y | 0 <= x < TexWidth && 0 <= y < TexWidth :: img.cols[x][y].a < 255
  }

  /** `draw_all_sides`: some face can show what lies behind it. */
  predicate DrawAllSides(f: Faces<Image>)
    requires AreTextures(f)
  {
    Translucent(f.up) || Translucent(f.down) || Translucent(f.left) ||
    Translucent(f.right) || Translucent(f.front) || Translucent(f.back)
  }

  /**
   * The six drawing loops of `get_scalar_bloxel`, in the order they run: the
   * three hidden faces (bottom, back right, back left), drawn only when
   * `draw_all_sides`, then the front right, front left and top faces.
   */
  datatype Pass = DownPass | BackRightPass | BackLeftPass | RightPass | LeftPass | TopPass

  /** The (rotated) texture a pass reads. */
  function PassTexture(pass: Pass, f: Faces<Image>): Image
  {
    match pass
    case DownPass => f.down
    case BackRightPass => f.right
    case BackLeftPass => f.front
    case RightPass => f.back
    case LeftPass => f.left
    case TopPass => f.up
  }

  /** The colour table a pass draws from. */
  function PassPart(pass: Pass): Part
  {
    match pass
    case DownPass => TopHalf
    case BackRightPass => LeftHalf
    case BackLeftPass => RightHalf
    case RightPass => RightHalf
    case LeftPass => LeftHalf
    case TopPass => TopHalf
  }

  /** The texture pixel (x, y) of the bottom and top faces, reflected per direction, at height z. */
  function FlatPoint(dir: Direction, x: int, y: int, z: int): Point3
  {
    match dir
    case North => Point3(x, y, z)
    case East => Point3(y, x, z)
    case South => Point3(TexWidth - x - 1, TexWidth - y - 1, z)
    case West => Point3(TexWidth - y - 1, TexWidth - x - 1, z)
  }

  /** The lattice point a pass projects for texture pixel (x, y). */
  function PassPoint(pass: Pass, dir: Direction, x: int, y: int): Point3
  {
    match pass
    case DownPass => FlatPoint(dir, x, y, -23)
    case BackRightPass => Point3(16, TexWidth - x - 1, TexWidth - y - 24)
    case BackLeftPass => Point3(TexWidth - x, 0, TexWidth - y - 1)
    case RightPass => Point3(16 + x, 0, -TexWidth - 7 - y)
    case LeftPass => Point3(0, x, TexWidth - y - 1)
    case TopPass => FlatPoint(dir, x, y, -8)
  }

  /** The fixed screen adjustment a pass adds to the projected offset. */
  function PassNudge(pass: Pass): Point2
  {
    match pass
    case DownPass => Point2(1, 1)
    case BackRightPass => Point2(0, 0)
    case BackLeftPass => Point2(-2, 46)
    case RightPass => Point2(0, 1)
    case LeftPass => Point2(0, 46)
    case TopPass => Point2(1, -1)
  }

  /** The draw a pass makes for texture pixel (x, y) when the lattice point projects to q. */
  function PassOpAt(pass: Pass, dir: Direction, f: Faces<Image>, recolor: Recolor, x: int, y: int, q: Point2): (op: DrawOp)
    requires AreTextures(f) && 0 <= x < TexWidth && 0 <= y < TexWidth
    ensures WellFormed(op.sprite)
  {
    DrawOp(q.x + PassNudge(pass).x, q.y + PassNudge(pass).y, Sprite(PassPart(pass), PassColor(pass, f, x, y), dir, recolor))
  }

  /** The colour of texture pixel (x, y) of the face a pass draws. */
  function PassColor(pass: Pass, f: Faces<Image>, x: int, y: int): Color
    requires AreTextures(f) && 0 <= x < TexWidth && 0 <= y < TexWidth
  {
    var tex := PassTexture(pass, f);
    assert IsTexture(tex);
    GetPixel(tex, x, y)
  }

  /** The draw a pass makes for texture pixel (x, y). */
  function PassOp(pass: Pass, dir: Direction, f: Faces<Image>, t: int, recolor: Recolor, x: int, y: int): (op: DrawOp)
    requires AreTextures(f) && 0 <= x < TexWidth && 0 <= y < TexWidth
    ensures WellFormed(op.sprite)
  {
    PassOpAt(pass, dir, f, recolor, x, y, Project(t, PassPoint(pass, dir, x, y)))
  }

  /** The 256 draws of one pass: x in the outer loop, y in the inner one. */
  function PassOps(pass: Pass, dir: Direction, f: Faces<Image>, t: int, recolor: Recolor): (ops: seq<DrawOp>)
    requires AreTextures(f)
    ensures |ops| == TexWidth * TexWidth && OpsWellFormed(ops)
  {
    seq(TexWidth * TexWidth, k requires 0 <= k < TexWidth * TexWidth =>
      PassOp(pass, dir, f, t, recolor, k / TexWidth, k % TexWidth))
  }

  /** Draw 16x + y of a pass is the one for texture pixel (x, y). */
  lemma PassOpsAt(pass: Pass, dir: Direction, f: Faces<Image>, t: int, recolor: Recolor, x: int, y: int)
    requires AreTextures(f) && 0 <= x < TexWidth && 0 <= y < TexWidth
    ensures PassOps(pass, dir, f, t, recolor)[TexWidth * x + y] == PassOp(pass, dir, f, t, recolor, x, y)
  {
    var k := TexWidth * x + y;
    SplitIndex(x, y);
    assert PassOps(pass, dir, f, t, recolor)[k] == PassOp(pass, dir, f, t, recolor, k / TexWidth, k % TexWidth);
  }

  /** Rotating the faces keeps them all textures. */
  lemma RotatedTextures(d: int, faces: Faces<Image>)
    requires AreTextures(faces)
    ensures AreTextures(RotateSides(d, faces))
  {
  }

  lemma SliceOneMore<T>(before: seq<T>, s: seq<T>, a: int, k: int)
    requires 0 <= a <= k < |s|
    ensures before + s[a..k + 1] == (before + s[a..k]) + [s[k]]
  {
    assert s[a..k + 1] == s[a..k] + [s[k]];
  }

  lemma TakeSliceMore<T>(before: seq<T>, s: seq<T>, a: int, b: int)
    requires 0 <= a <= b <= |s|
    ensures before + s[..b] == (before + s[..a]) + s[a..b]
  {
    assert s[..b] == s[..a] + s[a..b];
  }

  lemma Regroup<T>(a: seq<T>, b: seq<T>, c: seq<T>, d: seq<T>)
    ensures a + b + c + d == a + (b + c + d)
  {
  }

  lemma SplitIndex(x: int, y: int)
    requires 0 <= x < TexWidth && 0 <= y < TexWidth
    ensures (TexWidth * x + y) / TexWidth == x && (TexWidth * x + y) % TexWidth == y
  {
  }

  /** The draws of the three hidden faces: the bottom, back right and back left ones. */
  function HiddenOps(dir: Direction, f: Faces<Image>, t: int, recolor: Recolor): (ops: seq<DrawOp>)
    requires AreTextures(f)
    ensures OpsWellFormed(ops)
  {
    PassOps(DownPass, dir, f, t, recolor) + PassOps(BackRightPass, dir, f, t, recolor)
    + PassOps(BackLeftPass, dir, f, t, recolor)
  }

  /** The draws of the front right, front left and top faces. */
  function FrontOps(dir: Direction, f: Faces<Image>, t: int, recolor: Recolor): (ops: seq<DrawOp>)
    requires AreTextures(f)
    ensures OpsWellFormed(ops)
  {
    PassOps(RightPass, dir, f, t, recolor) + PassOps(LeftPass, dir, f, t, recolor)
    + PassOps(TopPass, dir, f, t, recolor)
  }

  /**
   * Every draw `get_scalar_bloxel` makes, in order, for the faces as passed
   * (before rotation).
   */
  function ScalarOps(dir: Direction, faces: Faces<Image>, t: int, recolor: Recolor): (ops: seq<DrawOp>)
    requires AreTextures(faces)
    ensures OpsWellFormed(ops)
  {
    RotatedTextures(DirIndex(dir), faces);
    var f := RotateSides(DirIndex(dir), faces);
    (if DrawAllSides(f) then HiddenOps(dir, f, t, recolor) else []) + FrontOps(dir, f, t, recolor)
  }

  /** The screen adjustment `get_multipart_bloxel` makes to a voxel's projected offset. */
  function VoxelNudge(dir: Direction): Point2
  {
    match dir
    case North => Point2(1, -1)
    case East => Point2(-1, 0)
    case South => Point2(-3, -1)
    case West => Point2(-1, -2)
  }

  /** The lattice point a voxel is projected from: its turned (x, z), with y as depth. */
  function VoxelPoint(dir: Direction, v: Voxel): Point3
  {
    var p := Turned(DirIndex(dir), v.x, v.z);
    Point3(p.0, p.1, v.y - 23)
  }

  /** The green cornerstone side, the blue one and the red top each voxel is drawn with. */
  const VoxelLeftColor := Rgba(0, 255, 0, 255)
  const VoxelRightColor := Rgba(0, 0, 255, 255)
  const VoxelTopColor := Rgba(255, 0, 0, 255)

  /**
   * The three draws of a voxel whose projected offset is q: left side, right
   * side and top, around the nudged offset (ix, iy).
   */
  function VoxelOpsAt(dir: Direction, q: Point2, recolor: Recolor): (ops: seq<DrawOp>)
    ensures |ops| == 3 && OpsWellFormed(ops)
  {
    var n := VoxelNudge(dir);
    var ix, iy := q.x + n.x, q.y + n.y;
    [DrawOp(ix - 1, iy + 1, Sprite(LeftHalf, VoxelLeftColor, dir, recolor)),
     DrawOp(ix + 1, iy + 1, Sprite(RightHalf, VoxelRightColor, dir, recolor)),
     DrawOp(ix, iy, Sprite(TopHalf, VoxelTopColor, dir, recolor))]
  }

  /** The three draws of one voxel.  The voxel's own colour is not used. */
  function VoxelOps(dir: Direction, v: Voxel, t: int, recolor: Recolor): (ops: seq<DrawOp>)
    ensures |ops| == 3 && OpsWellFormed(ops)
  {
    VoxelOpsAt(dir, Project(t, VoxelPoint(dir, v)), recolor)
  }

  /** Every draw `get_multipart_bloxel` makes for the voxels, in list order. */
  function MultipartOps(dir: Direction, vs: seq<Voxel>, t: int, recolor: Recolor): (ops: seq<DrawOp>)
    ensures |ops| == 3 * |vs| && OpsWellFormed(ops)
  {
    if vs == [] then []
    else MultipartOps(dir, vs[..|vs| - 1], t, recolor) + VoxelOps(dir, vs[|vs| - 1], t, recolor)
  }

  /** Drawing one more voxel appends its three draws. */
  lemma MultipartOpsSnoc(dir: Direction, vs: seq<Voxel>, k: int, t: int, recolor: Recolor)
    requires 0 <= k < |vs|
    ensures MultipartOps(dir, vs[..k + 1], t, recolor) == MultipartOps(dir, vs[..k], t, recolor) + VoxelOps(dir, vs[k], t, recolor)
  {
    assert vs[..k + 1][..k] == vs[..k];
  }

  class Iso {
    /** `self.coors`. */
    const coors: IsoCoors
    /** `self.table_top`, `self.table_left`, `self.table_right`. */
    const tableTop: ColorTable
    const tableLeft: ColorTable
    const tableRight: ColorTable
    /** The colouring step of `tint_image` every table uses. */
    const recolor: Recolor

    ghost predicate Valid()
      reads this, coors, tableTop, tableLeft, tableRight
    {
      && coors.Valid() && tableTop.Valid() && tableLeft.Valid() && tableRight.Valid()
      && tableTop.side == TopHalf && tableLeft.side == LeftHalf && tableRight.side == RightHalf
      && tableTop.recolor == recolor && tableLeft.recolor == recolor && tableRight.recolor == recolor
      && tableTop != tableLeft && tableTop != tableRight && tableLeft != tableRight
    }

    /** `Iso(tile_width)`: a coordinate generator for the tile size and three empty colour tables. */
    constructor (tileWidth: int, recolor: Recolor)
      ensures Valid() && coors.tileSize == tileWidth && this.recolor == recolor
      ensures coors.coors == map[] && coors.lru == map[]
      ensures tableTop.colors == map[] && tableLeft.colors == map[] && tableRight.colors == map[]
      ensures fresh(coors) && fresh(tableTop) && fresh(tableLeft) && fresh(tableRight)
    {
      coors := new IsoCoors(tileWidth);
      tableTop := new ColorTable(TopHalf, recolor);
      tableLeft := new ColorTable(LeftHalf, recolor);
      tableRight := new ColorTable(RightHalf, recolor);
      this.recolor := recolor;
    }

    /** Look a sprite up in the table of a part. */
    method TableGet(part: Part, color: Color, dir: Direction) returns (sprite: Image)
      requires Valid() && part != Full
      modifies tableTop, tableLeft, tableRight
      ensures Valid()
      ensures sprite == Sprite(part, color, dir, recolor)
      ensures tableTop.colors == if part == TopHalf then old(tableTop.colors)[Key(color, DirIndex(dir)) := sprite] else old(tableTop.colors)
      ensures tableLeft.colors == if part == LeftHalf then old(tableLeft.colors)[Key(color, DirIndex(dir)) := sprite] else old(tableLeft.colors)
      ensures tableRight.colors == if part == RightHalf then old(tableRight.colors)[Key(color, DirIndex(dir)) := sprite] else old(tableRight.colors)
    {
      SpriteIsCornerstone(part, color, dir, recolor);
      var r: Result<Image, IsoError>;
      if part == TopHalf {
        r := tableTop.Get(color, DirIndex(dir));
      } else if part == LeftHalf {
        r := tableLeft.Get(color, DirIndex(dir));
      } else {
        r := tableRight.Get(color, DirIndex(dir));
      }
      sprite := r.value;
    }

    /** `self.coors.get(p)` as seen from the assembler. */
    method Locate(p: Point3) returns (q: Point2)
      requires Valid()
      modifies coors
      ensures Valid()
      ensures q == Project(coors.tileSize, p)
      ensures coors.lru == old(coors.lru)[p := q]
      ensures coors.coors == if p in old(coors.lru) then old(coors.coors) else old(coors.coors)[p := q]
    {
      q := coors.Get(p.x, p.y, p.z);
    }

    /** `draw_image(x, y, table.get(color, dir), canvas)` for the table of a part. */
    method DrawSprite(part: Part, color: Color, dir: Direction, x: int, y: int, canvas: Canvas,
                      ghost done: seq<DrawOp>)
      requires Valid() && part != Full && OpsWellFormed(done) && Shows(canvas, done)
      modifies canvas, tableTop, tableLeft, tableRight
      ensures Valid()
      ensures OpsWellFormed(done + [DrawOp(x, y, Sprite(part, color, dir, recolor))])
      ensures Shows(canvas, done + [DrawOp(x, y, Sprite(part, color, dir, recolor))])
    {
      var sprite := TableGet(part, color, dir);
      DrawOpOnto(DrawOp(x, y, sprite), canvas, done);
    }

    /** One iteration of a drawing loop: texture pixel (x, y) of a pass. */
    method DrawTexel(pass: Pass, dir: Direction, f: Faces<Image>, x: int, y: int, canvas: Canvas,
                     ghost done: seq<DrawOp>)
      requires Valid() && AreTextures(f) && 0 <= x < TexWidth && 0 <= y < TexWidth
      requires OpsWellFormed(done) && Shows(canvas, done)
      modifies canvas, coors, tableTop, tableLeft, tableRight
      ensures Valid()
      ensures OpsWellFormed(done + [PassOp(pass, dir, f, coors.tileSize, recolor, x, y)])
      ensures Shows(canvas, done + [PassOp(pass, dir, f, coors.tileSize, recolor, x, y)])
    {
      var q := Locate(PassPoint(pass, dir, x, y));
      DrawTexelAt(pass, dir, f, x, y, q, canvas, done);
    }

    /** The `draw_image` of texture pixel (x, y) once its projected position q is known. */
    method DrawTexelAt(pass: Pass, dir: Direction, f: Faces<Image>, x: int, y: int, q: Point2, canvas: Canvas,
                       ghost done: seq<DrawOp>)
      requires Valid() && AreTextures(f) && 0 <= x < TexWidth && 0 <= y < TexWidth
      requires OpsWellFormed(done) && Shows(canvas, done)
      modifies canvas, tableTop, tableLeft, tableRight
      ensures Valid()
      ensures OpsWellFormed(done + [PassOpAt(pass, dir, f, recolor, x, y, q)])
      ensures Shows(canvas, done + [PassOpAt(pass, dir, f, recolor, x, y, q)])
    {
      var n := PassNudge(pass);
      var color := PassColor(pass, f, x, y);
      ghost var op := DrawOp(q.x + n.x, q.y + n.y, Sprite(PassPart(pass), color, dir, recolor));
      assert PassOpAt(pass, dir, f, recolor, x, y, q) == op;
      DrawSprite(PassPart(pass), color, dir, q.x + n.x, q.y + n.y, canvas, done);
      assert Shows(canvas, done + [op]);
    }

    /** The inner loop of a pass: texture column x, top to bottom. */
    method DrawColumn(pass: Pass, dir: Direction, f: Faces<Image>, x: int, canvas: Canvas,
                      ghost before: seq<DrawOp>)
      requires Valid() && AreTextures(f) && 0 <= x < TexWidth
      requires OpsWellFormed(before) && Shows(canvas, before)
      modifies canvas, coors, tableTop, tableLeft, tableRight
      ensures Valid()
      ensures OpsWellFormed(before + PassOps(pass, dir, f, coors.tileSize, recolor)[TexWidth * x..TexWidth * x + TexWidth])
      ensures Shows(canvas, before + PassOps(pass, dir, f, coors.tileSize, recolor)[TexWidth * x..TexWidth * x + TexWidth])
    {
      ghost var ops := PassOps(pass, dir, f, coors.tileSize, recolor);
      ghost var done := before;
      assert before + ops[TexWidth * x..TexWidth * x] == before;
      for y := 0 to TexWidth
        invariant Valid()
        invariant done == before + ops[TexWidth * x..TexWidth * x + y]
        invariant OpsWellFormed(done) && Shows(canvas, done)
      {
        DrawTexel(pass, dir, f, x, y, canvas, done);
        PassOpsAt(pass, dir, f, coors.tileSize, recolor, x, y);
        SliceOneMore(before, ops, TexWidth * x, TexWidth * x + y);
        done := done + [ops[TexWidth * x + y]];
      }
    }

    /** One 16×16 drawing loop of `get_scalar_bloxel`: columns left to right. */
    method DrawPass(pass: Pass, dir: Direction, f: Faces<Image>, canvas: Canvas, ghost before: seq<DrawOp>)
      requires Valid() && AreTextures(f) && OpsWellFormed(before) && Shows(canvas, before)
      modifies canvas, coors, tableTop, tableLeft, tableRight
      ensures Valid()
      ensures Shows(canvas, before + PassOps(pass, dir, f, coors.tileSize, recolor))
    {
      ghost var ops := PassOps(pass, dir, f, coors.tileSize, recolor);
      ghost var done := before;
      assert before + ops[..0] == before;
      for x := 0 to TexWidth
        invariant Valid()
        invariant done == before + ops[..TexWidth * x]
        invariant OpsWellFormed(done) && Shows(canvas, done)
      {
        DrawColumn(pass, dir, f, x, canvas, done);
        TakeSliceMore(before, ops, TexWidth * x, TexWidth * x + TexWidth);
        done := done + ops[TexWidth * x..TexWidth * x + TexWidth];
      }
      assert ops[..TexWidth * TexWidth] == ops;
    }

    /** The three drawing loops of the hidden faces. */
    method DrawHidden(dir: Direction, f: Faces<Image>, canvas: Canvas, ghost before: seq<DrawOp>)
      requires Valid() && AreTextures(f) && OpsWellFormed(before) && Shows(canvas, before)
      modifies canvas, coors, tableTop, tableLeft, tableRight
      ensures Valid()
      ensures Shows(canvas, before + HiddenOps(dir, f, coors.tileSize, recolor))
    {
      ghost var t := coors.tileSize;
      ghost var d0 := PassOps(DownPass, dir, f, t, recolor);
      ghost var d1 := PassOps(BackRightPass, dir, f, t, recolor);
      ghost var d2 := PassOps(BackLeftPass, dir, f, t, recolor);
      WellFormedJoin(before, d0);
      DrawPass(DownPass, dir, f, canvas, before);
      WellFormedJoin(before + d0, d1);
      DrawPass(BackRightPass, dir, f, canvas, before + d0);
      DrawPass(BackLeftPass, dir, f, canvas, before + d0 + d1);
      Regroup(before, d0, d1, d2);
      assert HiddenOps(dir, f, t, recolor) == d0 + d1 + d2;
    }

    /** The drawing loops of the front right, front left and top faces. */
    method DrawFront(dir: Direction, f: Faces<Image>, canvas: Canvas, ghost before: seq<DrawOp>)
      requires Valid() && AreTextures(f) && OpsWellFormed(before) && Shows(canvas, before)
      modifies canvas, coors, tableTop, tableLeft, tableRight
      ensures Valid()
      ensures Shows(canvas, before + FrontOps(dir, f, coors.tileSize, recolor))
    {
      ghost var t := coors.tileSize;
      ghost var d0 := PassOps(RightPass, dir, f, t, recolor);
      ghost var d1 := PassOps(LeftPass, dir, f, t, recolor);
      ghost var d2 := PassOps(TopPass, dir, f, t, recolor);
      WellFormedJoin(before, d0);
      DrawPass(RightPass, dir, f, canvas, before);
      WellFormedJoin(before + d0, d1);
      DrawPass(LeftPass, dir, f, canvas, before + d0);
      DrawPass(TopPass, dir, f, canvas, before + d0 + d1);
      Regroup(before, d0, d1, d2);
      assert FrontOps(dir, f, t, recolor) == d0 + d1 + d2;
    }

    /**
     * `get_scalar_bloxel(dir, up, down, left, right, front, back)`: rotate the
     * faces for the direction, then run the drawing loops on a fresh 64×64
     * transparent canvas; the hidden faces are drawn first, and only when some
     * face is translucent.
     */
    method ScalarBloxel(dir: Direction, faces: Faces<Image>) returns (canvas: Canvas)
      requires Valid() && AreTextures(faces)
      modifies coors, tableTop, tableLeft, tableRight
      ensures Valid()
      ensures fresh(canvas) && canvas.Length0 == CanvasSize && canvas.Length1 == CanvasSize
      ensures Shows(canvas, ScalarOps(dir, faces, coors.tileSize, recolor))
    {
      var f := RotateSides(DirIndex(dir), faces);
      RotatedTextures(DirIndex(dir), faces);
      canvas := NewCanvas(CanvasSize, CanvasSize);
      DrawBack(dir, f, canvas);
      ghost var hidden := if DrawAllSides(f) then HiddenOps(dir, f, coors.tileSize, recolor) else [];
      DrawFront(dir, f, canvas, hidden);
      assert ScalarOps(dir, faces, coors.tileSize, recolor) == hidden + FrontOps(dir, f, coors.tileSize, recolor);
    }

    /** The hidden faces, drawn only when some face is translucent. */
    method DrawBack(dir: Direction, f: Faces<Image>, canvas: Canvas)
      requires Valid() && AreTextures(f) && Shows(canvas, [])
      modifies canvas, coors, tableTop, tableLeft, tableRight
      ensures Valid()
      ensures OpsWellFormed(if DrawAllSides(f) then HiddenOps(dir, f, coors.tileSize, recolor) else [])
      ensures Shows(canvas, if DrawAllSides(f) then HiddenOps(dir, f, coors.tileSize, recolor) else [])
    {
      if DrawAllSides(f) {
        DrawHidden(dir, f, canvas, []);
        assert [] + HiddenOps(dir, f, coors.tileSize, recolor) == HiddenOps(dir, f, coors.tileSize, recolor);
      }
    }

    /** The three `draw_image` calls for a voxel whose projected offset is q. */
    method DrawVoxelAt(dir: Direction, q: Point2, canvas: Canvas, ghost done: seq<DrawOp>)
      requires Valid() && OpsWellFormed(done) && Shows(canvas, done)
      modifies canvas, tableTop, tableLeft, tableRight
      ensures Valid()
      ensures Shows(canvas, done + VoxelOpsAt(dir, q, recolor))
    {
      var n := VoxelNudge(dir);
      var ix, iy := q.x + n.x, q.y + n.y;
      ghost var op0 := DrawOp(ix - 1, iy + 1, Sprite(LeftHalf, VoxelLeftColor, dir, recolor));
      DrawSprite(LeftHalf, VoxelLeftColor, dir, ix - 1, iy + 1, canvas, done);
      ghost var rest := DrawVoxelRightTop(dir, ix, iy, canvas, done + [op0]);
      assert [op0] + rest == [op0, rest[0], rest[1]];
      assert VoxelOpsAt(dir, q, recolor) == [op0] + rest;
      assert done + [op0] + rest == done + ([op0] + rest);
    }

    /** The right side and the top of a voxel, after its left side, around (ix, iy). */
    method DrawVoxelRightTop(dir: Direction, ix: int, iy: int, canvas: Canvas, ghost done: seq<DrawOp>)
        returns (ghost ops: seq<DrawOp>)
      requires Valid() && OpsWellFormed(done) && Shows(canvas, done)
      modifies canvas, tableTop, tableLeft, tableRight
      ensures Valid()
      ensures ops == [DrawOp(ix + 1, iy + 1, Sprite(RightHalf, VoxelRightColor, dir, recolor)),
                      DrawOp(ix, iy, Sprite(TopHalf, VoxelTopColor, dir, recolor))]
      ensures Shows(canvas, done + ops)
    {
      ghost var op1 := DrawOp(ix + 1, iy + 1, Sprite(RightHalf, VoxelRightColor, dir, recolor));
      ghost var op2 := DrawOp(ix, iy, Sprite(TopHalf, VoxelTopColor, dir, recolor));
      DrawSprite(RightHalf, VoxelRightColor, dir, ix + 1, iy + 1, canvas, done);
      DrawSprite(TopHalf, VoxelTopColor, dir, ix, iy, canvas, done + [op1]);
      ops := [op1, op2];
      assert done + [op1] + [op2] == done + ops;
    }

    /** One iteration of `get_multipart_bloxel`'s drawing loop. */
    method DrawVoxel(dir: Direction, v: Voxel, canvas: Canvas, ghost done: seq<DrawOp>)
      requires Valid() && OpsWellFormed(done) && Shows(canvas, done)
      modifies canvas, coors, tableTop, tableLeft, tableRight
      ensures Valid()
      ensures Shows(canvas, done + VoxelOps(dir, v, coors.tileSize, recolor))
    {
      var x, z := TurnVoxel(dir, v.x, v.z);
      var q := Locate(Point3(x, z, v.y - 23));
      DrawVoxelAt(dir, q, canvas, done);
    }

    /**
     * `get_multipart_bloxel(dir, bloxels)`: sort the caller's list into
     * drawing order for the direction, then draw every voxel, in that order,
     * on a fresh 64×64 transparent canvas.
     */
    method MultipartBloxel(dir: Direction, bloxels: array<Voxel>) returns (canvas: Canvas)
      requires Valid()
      modifies bloxels, coors, tableTop, tableLeft, tableRight
      ensures Valid()
      ensures InDrawOrder(dir, bloxels[..]) && multiset(bloxels[..]) == multiset(old(bloxels[..]))
      ensures fresh(canvas) && canvas.Length0 == CanvasSize && canvas.Length1 == CanvasSize
      ensures Shows(canvas, MultipartOps(dir, bloxels[..], coors.tileSize, recolor))
    {
      SortVoxels(dir, bloxels);
      var sorted := bloxels[..];
      canvas := NewCanvas(CanvasSize, CanvasSize);
      DrawVoxels(dir, sorted, canvas);
      assert bloxels[..] == sorted;
    }

    /** The drawing loop of `get_multipart_bloxel` over the sorted voxels. */
    method DrawVoxels(dir: Direction, vs: seq<Voxel>, canvas: Canvas)
      requires Valid() && Shows(canvas, [])
      modifies canvas, coors, tableTop, tableLeft, tableRight
      ensures Valid()
      ensures Shows(canvas, MultipartOps(dir, vs, coors.tileSize, recolor))
    {
      ghost var t := coors.tileSize;
      for k := 0 to |vs|
        invariant Valid()
        invariant Shows(canvas, MultipartOps(dir, vs[..k], t, recolor))
      {
        DrawVoxel(dir, vs[k], canvas, MultipartOps(dir, vs[..k], t, recolor));
        MultipartOpsSnoc(dir, vs, k, t, recolor);
      }
      assert vs[..|vs|] == vs;
    }
  }
}
