/**
 * The fixed tables of iso.py: viewing directions, the six logical cube
 * faces, the shade level of each face, the per-direction face rotation and
 * visibility, and the isometric projection formula.
 */
module Geometry {
  import opened Arith
  import opened Results
  import opened Colors

  /** Directions.NORTH .. Directions.WEST (0 .. 3). */
  datatype Direction = North | East | South | West

  /** The integer constant of a direction. */
  function DirIndex(d: Direction): (n: int)
    ensures 0 <= n <= 3
    ensures ToDirection(n) == Some(d)
  {
    match d
    case North => 0
    case East => 1
    case South => 2
    case West => 3
  }

  /** The direction an integer stands for, when it stands for one. */
  function ToDirection(n: int): (r: Option<Direction>)
    ensures r.Some? <==> 0 <= n <= 3
  {
    if n == 0 then Some(North)
    else if n == 1 then Some(East)
    else if n == 2 then Some(South)
    else if n == 3 then Some(West)
    else None
  }

  /** BloxelSides: up, down, left, right, front, back. */
  datatype Side = Up | Down | Left | Right | Front | Back

  /** Errors the renderer raises. */
  datatype IsoError =
    | InvalidDirection(dir: int)
    | OutOfBounds(x: int, y: int, width: int, height: int)

  /** Shade.SHADE: the darkening of one shade level. */
  const ShadeUnit := 15

  /** Shade.SIDE_SHADING = (0, 4, 1, 3, 2, 2), indexed by BloxelSides. */
  function ShadeLevel(s: Side): nat
  {
    match s
    case Up => 0
    case Down => 4
    case Left => 1
    case Right => 3
    case Front => 2
    case Back => 2
  }

  /** `Shade.get_shade(side)`: white darkened by 15 per shade level of the side. */
  function GetShade(s: Side): (p: Pixel)
    ensures p.r == p.g == p.b == 255 - ShadeUnit * ShadeLevel(s)
    ensures p.a == 255
    ensures ValidPixel(p)
  {
    Darken(White, ShadeUnit * ShadeLevel(s))
  }

  /** UP is strictly the lightest face and DOWN strictly the darkest. */
  lemma UpLightestDownDarkest(s: Side)
    ensures s != Up ==> GetShade(s).r < GetShade(Up).r
    ensures s != Down ==> GetShade(Down).r < GetShade(s).r
    ensures GetShade(Front) == GetShade(Back)
  {
  }

  /** The six face arguments (up, down, left, right, front, back) of a bloxel. */
  datatype Faces<T> = Faces(up: T, down: T, left: T, right: T, front: T, back: T)

  function FaceMultiset<T>(f: Faces<T>): multiset<T>
  {
    multiset{f.up, f.down} + multiset{f.left, f.right} + multiset{f.front, f.back}
  }

  /**
   * `Iso.rotate_sides`: 0 keeps the order, 1 and 2 rotate, and every other
   * value takes the final `else` (WEST) branch.
   */
  function RotateSides<T>(dir: int, f: Faces<T>): (r: Faces<T>)
    ensures r.up == f.up && r.down == f.down
    ensures dir == 0 ==> r == f
    ensures dir == 1 ==> r == Faces(f.up, f.down, f.back, f.front, f.left, f.right)
    ensures dir == 2 ==> r == Faces(f.up, f.down, f.right, f.left, f.back, f.front)
    ensures !(0 <= dir <= 2) ==> r == Faces(f.up, f.down, f.front, f.back, f.right, f.left)
  {
    if dir == 0 then f
    else if dir == 1 then Faces(f.up, f.down, f.back, f.front, f.left, f.right)
    else if dir == 2 then Faces(f.up, f.down, f.right, f.left, f.back, f.front)
    else Faces(f.up, f.down, f.front, f.back, f.right, f.left)
  }

  /** Every rotation is a permutation of the six faces. */
  lemma RotationPermutes<T>(dir: int, f: Faces<T>)
    ensures FaceMultiset(RotateSides(dir, f)) == FaceMultiset(f)
  {
    var ud, lr, fb := multiset{f.up, f.down}, multiset{f.left, f.right}, multiset{f.front, f.back};
    var rl, bf := multiset{f.right, f.left}, multiset{f.back, f.front};
    assert rl == lr && bf == fb;
    if dir == 1 {
      assert FaceMultiset(RotateSides(dir, f)) == ud + bf + lr;
    } else if dir == 2 {
      assert FaceMultiset(RotateSides(dir, f)) == ud + rl + bf;
    } else if dir != 0 {
      assert FaceMultiset(RotateSides(dir, f)) == ud + fb + rl;
    }
  }

  /** `n` successive quarter turns, each one the EAST rotation. */
  function EastTurns<T>(n: nat, f: Faces<T>): Faces<T>
  {
    if n == 0 then f else RotateSides(1, EastTurns(n - 1, f))
  }

  /**
   * The rotation table is a cyclic group: direction d is d quarter turns, and
   * four quarter turns are the identity.
   */
  lemma {:induction false} RotationIsQuarterTurns<T>(dir: int, f: Faces<T>)
    requires 0 <= dir <= 3
    ensures RotateSides(dir, f) == EastTurns(dir, f)
    ensures EastTurns(4, f) == f
  {
    assert EastTurns(1, f) == RotateSides(1, f);
    assert EastTurns(2, f) == RotateSides(1, RotateSides(1, f));
    assert EastTurns(3, f) == RotateSides(1, EastTurns(2, f));
    assert EastTurns(4, f) == RotateSides(1, EastTurns(3, f));
  }

  /**
   * `Iso.determine_visible_sides`: (front-left, top, front-right) faces for a
   * direction; any other value raises.
   */
  function DetermineVisibleSides<T>(dir: int, f: Faces<T>): (r: Result<(T, T, T), IsoError>)
    ensures r.Ok? <==> 0 <= dir <= 3
    ensures r.Err? ==> r.error == InvalidDirection(dir)
    ensures r.Ok? ==> r.value.1 == f.up
  {
    if dir == 0 then Ok((f.left, f.up, f.back))
    else if dir == 1 then Ok((f.back, f.up, f.right))
    else if dir == 2 then Ok((f.right, f.up, f.front))
    else if dir == 3 then Ok((f.front, f.up, f.left))
    else Err(InvalidDirection(dir))
  }

  /**
   * The visible faces of a direction are the faces that the rotation moves
   * into the front-left (left), top (up) and front-right (back) slots, which
   * are the ones `get_scalar_bloxel` always draws.
   */
  lemma VisibleSidesAreRotatedFaces<T>(dir: int, f: Faces<T>)
    requires 0 <= dir <= 3
    ensures var g := RotateSides(dir, f);
      DetermineVisibleSides(dir, f) == Ok((g.left, g.up, g.back))
  {
  }

  /** A point of the 3D lattice and a 2D screen offset. */
  datatype Point3 = Point3(x: int, y: int, z: int)
  datatype Point2 = Point2(x: int, y: int)

  /**
   * `IsoCoors.__get_pos_from_vec3` for an integer tile size `t`:
   * `int(x*t/2 + y*t/2)` and `int(-x*t/4 + y*t/4 - z*t/2)`, computed exactly and
   * truncated toward zero as `int()` does.
   */
  function Project(t: int, p: Point3): Point2
  {
    Point2(TruncDiv(t * (p.x + p.y), 2), TruncDiv(t * (p.y - p.x - 2 * p.z), 4))
  }

  /**
   * Both screen coordinates are the exact values t(x+y)/2 and t(y-x-2z)/4
   * rounded toward zero: never further than one from them, and never past
   * them away from zero.
   */
  lemma ProjectTruncates(t: int, p: Point3)
    ensures var q, sx, sy := Project(t, p), t * (p.x + p.y), t * (p.y - p.x - 2 * p.z);
      && (sx >= 0 ==> 0 <= 2 * q.x <= sx < 2 * q.x + 2)
      && (sx < 0 ==> 2 * q.x - 2 < sx <= 2 * q.x <= 0)
      && (sy >= 0 ==> 0 <= 4 * q.y <= sy < 4 * q.y + 4)
      && (sy < 0 ==> 4 * q.y - 4 < sy <= 4 * q.y <= 0)
  {
  }

  /** With tile size 4 (what every caller uses) the projection is exact: (2x+2y, -x+y-2z). */
  lemma ProjectTileFour(p: Point3)
    ensures Project(4, p) == Point2(2 * p.x + 2 * p.y, -p.x + p.y - 2 * p.z)
  {
    ProjectMultipleOfFour(1, p);
  }

  /** For a tile size 4m nothing is truncated: (2m(x+y), m(y-x-2z)). */
  lemma ProjectMultipleOfFour(m: int, p: Point3)
    ensures Project(4 * m, p) == Point2(2 * m * (p.x + p.y), m * (p.y - p.x - 2 * p.z))
  {
    assert 4 * m * (p.x + p.y) == 2 * (2 * m * (p.x + p.y));
    assert 4 * m * (p.y - p.x - 2 * p.z) == 4 * (m * (p.y - p.x - 2 * p.z));
    TruncDivExact(2 * m * (p.x + p.y), 2);
    TruncDivExact(m * (p.y - p.x - 2 * p.z), 4);
  }
}
