/**
 * The voxel list of `get_multipart_bloxel` in iso.py: the painter's order it
 * sorts the list into for each direction, and the quarter turn it applies to
 * each voxel's position.
 */
module Voxels {
  import opened Geometry

  /** One `(x, y, z, r, g, b, a)` entry of a multipart bloxel. */
  datatype Voxel = Voxel(x: int, y: int, z: int, r: int, g: int, b: int, a: int)

  /**
   * The sort key `get_multipart_bloxel` uses for a direction:
   * NORTH `x - y - z` and WEST `x + z - y` in descending order, EAST
   * `z + x + y` and SOUTH `x + y - z` in ascending order.
   */
  function DepthKey(dir: Direction, v: Voxel): int
  {
    match dir
    case North => v.x - v.y - v.z
    case East => v.z + v.x + v.y
    case South => v.x + v.y - v.z
    case West => v.x + v.z - v.y
  }

  /** Whether the direction sorts its keys with `reverse=True`. */
  predicate Descending(dir: Direction)
  {
    dir == North || dir == West
  }

  /**
   * The position of a voxel in drawing order: the key itself for an ascending
   * sort, its negation for a descending one.
   */
  function Rank(dir: Direction, v: Voxel): (k: int)
    ensures Descending(dir) ==> k == -DepthKey(dir, v)
    ensures !Descending(dir) ==> k == DepthKey(dir, v)
  {
    if Descending(dir) then -DepthKey(dir, v) else DepthKey(dir, v)
  }

  /** The list is in the order `bloxels.sort(...)` leaves it. */
  predicate InDrawOrder(dir: Direction, s: seq<Voxel>)
  {
    forall k, l :: 0 <= k < l < |s| ==> Rank(dir, s[k]) <= Rank(dir, s[l])
  }

  /** Ranks order the keys as the sort's direction says. */
  lemma InDrawOrderKeys(dir: Direction, s: seq<Voxel>, k: int, l: int)
    requires InDrawOrder(dir, s) && 0 <= k < l < |s|
    ensures Descending(dir) ==> DepthKey(dir, s[k]) >= DepthKey(dir, s[l])
    ensures !Descending(dir) ==> DepthKey(dir, s[k]) <= DepthKey(dir, s[l])
  {
  }

  /** Exchange two entries of the list. */
  method Swap(a: array<Voxel>, i: int, j: int)
    requires 0 <= i < a.Length && 0 <= j < a.Length
    modifies a
    ensures a[..] == old(a[..])[i := old(a[j])][j := old(a[i])]
    ensures multiset(a[..]) == multiset(old(a[..]))
  {
    a[i], a[j] := a[j], a[i];
  }

  /**
   * `bloxels.sort(key=..., reverse=...)` for a direction, in place: the list
   * ends in drawing order and holds the same voxels.
   */
  method SortVoxels(dir: Direction, a: array<Voxel>)
    modifies a
    ensures InDrawOrder(dir, a[..])
    ensures multiset(a[..]) == multiset(old(a[..]))
  {
    var i := 0;
    while i < a.Length
      invariant 0 <= i <= a.Length
      invariant InDrawOrder(dir, a[..i])
      invariant multiset(a[..]) == multiset(old(a[..]))
    {
      Insert(dir, a, i);
      i := i + 1;
    }
    assert a[..a.Length] == a[..];
  }

  /**
   * Midway through inserting entry i: `s[..i + 1]` is in order apart from
   * entry j, which ranks strictly before everything after it.
   */
  predicate Inserting(dir: Direction, s: seq<Voxel>, i: int, j: int)
    requires 0 <= j <= i < |s|
  {
    && (forall k, l :: 0 <= k < l <= i && k != j && l != j ==> Rank(dir, s[k]) <= Rank(dir, s[l]))
    && (forall l :: j < l <= i ==> Rank(dir, s[j]) < Rank(dir, s[l]))
  }

  lemma InsertStart(dir: Direction, s: seq<Voxel>, i: int)
    requires 0 <= i < |s| && InDrawOrder(dir, s[..i])
    ensures Inserting(dir, s, i, i)
  {
    forall k, l | 0 <= k < l <= i && k != i && l != i ensures Rank(dir, s[k]) <= Rank(dir, s[l]) {
      assert s[k] == s[..i][k] && s[l] == s[..i][l];
    }
  }

  lemma InsertStep(dir: Direction, s: seq<Voxel>, i: int, j: int)
    requires 0 < j <= i < |s| && Inserting(dir, s, i, j) && Rank(dir, s[j - 1]) > Rank(dir, s[j])
    ensures Inserting(dir, s[j - 1 := s[j]][j := s[j - 1]], i, j - 1)
  {
  }

  lemma InsertEnd(dir: Direction, s: seq<Voxel>, i: int, j: int)
    requires 0 <= j <= i < |s| && Inserting(dir, s, i, j)
    requires j == 0 || Rank(dir, s[j - 1]) <= Rank(dir, s[j])
    ensures InDrawOrder(dir, s[..i + 1])
  {
    forall k, l | 0 <= k < l <= i ensures Rank(dir, s[k]) <= Rank(dir, s[l]) {
      if k == j {
      } else if l == j {
        if k < j - 1 {
          assert Rank(dir, s[k]) <= Rank(dir, s[j - 1]);
        }
      }
    }
  }

  /** Move `a[i]` left past every entry of a later rank. */
  method Insert(dir: Direction, a: array<Voxel>, i: int)
    requires 0 <= i < a.Length && InDrawOrder(dir, a[..i])
    modifies a
    ensures InDrawOrder(dir, a[..i + 1])
    ensures multiset(a[..]) == multiset(old(a[..]))
  {
    InsertStart(dir, a[..], i);
    var j := i;
    while j > 0 && Rank(dir, a[j - 1]) > Rank(dir, a[j])
      invariant 0 <= j <= i && Inserting(dir, a[..], i, j)
      invariant multiset(a[..]) == multiset(old(a[..]))
    {
      ghost var s := a[..];
      InsertStep(dir, s, i, j);
      Swap(a, j - 1, j);
      assert a[..] == s[j - 1 := s[j]][j := s[j - 1]];
      j := j - 1;
    }
    InsertEnd(dir, a[..], i, j);
  }

  /** The position `(x, z)` after `n` of the loop's quarter turns `x, z = 16 - z, x`. */
  function Turned(n: nat, x: int, z: int): (int, int)
  {
    if n == 0 then (x, z)
    else
      var p := Turned(n - 1, x, z);
      (16 - p.1, p.0)
  }

  /** Four quarter turns bring a voxel back where it started. */
  lemma {:induction false} FourTurnsAreIdentity(x: int, z: int)
    ensures Turned(4, x, z) == (x, z)
  {
    assert Turned(1, x, z) == (16 - z, x);
    assert Turned(2, x, z) == (16 - x, 16 - z);
    assert Turned(3, x, z) == (z, 16 - x);
  }

  /** Turning n + 4 times is turning n times. */
  lemma {:induction false} TurnsHavePeriodFour(n: nat, x: int, z: int)
    ensures Turned(n + 4, x, z) == Turned(n, x, z)
  {
    if n == 0 {
      FourTurnsAreIdentity(x, z);
    } else {
      TurnsHavePeriodFour(n - 1, x, z);
    }
  }

  /** A quarter turn is a rotation about (8, 8): it keeps the distance from that centre. */
  lemma {:induction false} TurnKeepsCentreDistance(n: nat, x: int, z: int)
    ensures var p := Turned(n, x, z);
      (p.0 - 8) * (p.0 - 8) + (p.1 - 8) * (p.1 - 8) == (x - 8) * (x - 8) + (z - 8) * (z - 8)
  {
    if n > 0 {
      TurnKeepsCentreDistance(n - 1, x, z);
      var p := Turned(n - 1, x, z);
      assert Turned(n, x, z) == (16 - p.1, p.0);
      assert (16 - p.1 - 8) * (16 - p.1 - 8) == (p.1 - 8) * (p.1 - 8);
    }
  }

  /** The `for i in range(dir)` loop that turns one voxel's position. */
  method TurnVoxel(dir: Direction, x0: int, z0: int) returns (x: int, z: int)
    ensures (x, z) == Turned(DirIndex(dir), x0, z0)
  {
    x, z := x0, z0;
    for i := 0 to DirIndex(dir)
      invariant (x, z) == Turned(i, x0, z0)
    {
      x, z := 16 - z, x;
    }
  }
}
