/** `IsoCoors`: the memoising isometric coordinate generator of iso.py. */
module Coords {
  import opened Geometry

  /** A point of the cube `[0, grid)³` that `seed_coordinates` fills. */
  predicate InGrid(p: Point3, grid: int)
  {
    0 <= p.x < grid && 0 <= p.y < grid && 0 <= p.z < grid
  }

  class IsoCoors {
    /** The tile size the projection assumes. */
    const tileSize: int
    /** `self.coors`: the dictionary `__getitem__` fills. */
    var coors: map<Point3, Point2>
    /** The `lru_cache` of `get`, which answers repeated calls without consulting `coors`. */
    var lru: map<Point3, Point2>

    /** Every cached offset is the direct projection of its key. */
    ghost predicate Valid()
      reads this
    {
      && (forall p :: p in coors ==> coors[p] == Project(tileSize, p))
      && (forall p :: p in lru ==> lru[p] == Project(tileSize, p))
    }

    constructor (tileSize: int)
      ensures Valid()
      ensures this.tileSize == tileSize && coors == map[] && lru == map[]
    {
      this.tileSize := tileSize;
      coors := map[];
      lru := map[];
    }

    /** `__getitem__`: compute and remember the projection of a missing key. */
    method Lookup(p: Point3) returns (q: Point2)
      requires Valid()
      modifies this`coors
      ensures Valid()
      ensures q == Project(tileSize, p)
      ensures coors == old(coors)[p := q]
    {
      if p !in coors {
        coors := coors[p := Project(tileSize, p)];
      }
      q := coors[p];
    }

    /**
     * `get(x, y, z)`: the projection of (x, y, z).  A call repeated with the
     * same arguments is answered by the lru cache and leaves `coors` alone.
     */
    method Get(x: int, y: int, z: int) returns (q: Point2)
      requires Valid()
      modifies this
      ensures Valid()
      ensures q == Project(tileSize, Point3(x, y, z))
      ensures lru == old(lru)[Point3(x, y, z) := q]
      ensures coors == if Point3(x, y, z) in old(lru) then old(coors)
                       else old(coors)[Point3(x, y, z) := q]
    {
      var p := Point3(x, y, z);
      if p in lru {
        q := lru[p];
      } else {
        q := Lookup(p);
        lru := lru[p := q];
      }
    }

    /**
     * `seed_coordinates(grid)`: replace the dictionary by one holding exactly
     * the projections of the points of `[0, grid)³`; entries outside the grid
     * are dropped.
     */
    method SeedCoordinates(grid: int)
      requires Valid()
      modifies this`coors
      ensures Valid()
      ensures forall p :: p in coors <==> InGrid(p, grid)
      ensures forall p :: p in coors ==> coors[p] == Project(tileSize, p)
    {
      var tmp: map<Point3, Point2> := map[];
      var x := 0;
      while x < grid
        invariant grid <= 0 ==> x == 0
        invariant grid > 0 ==> 0 <= x <= grid
        invariant forall p :: p in tmp <==> 0 <= p.x < x && InGrid(p, grid)
        invariant forall p :: p in tmp ==> tmp[p] == Project(tileSize, p)
      {
        var y := 0;
        while y < grid
          invariant 0 <= y <= grid
          invariant forall p :: p in tmp <==> (0 <= p.x < x || (p.x == x && 0 <= p.y < y)) && InGrid(p, grid)
          invariant forall p :: p in tmp ==> tmp[p] == Project(tileSize, p)
        {
          var z := 0;
          while z < grid
            invariant 0 <= z <= grid
            invariant forall p :: p in tmp <==>
              (0 <= p.x < x || (p.x == x && 0 <= p.y < y) || (p.x == x && p.y == y && 0 <= p.z < z)) && InGrid(p, grid)
            invariant forall p :: p in tmp ==> tmp[p] == Project(tileSize, p)
          {
            tmp := tmp[Point3(x, y, z) := Project(tileSize, Point3(x, y, z))];
            z := z + 1;
          }
          y := y + 1;
        }
        x := x + 1;
      }
      coors := tmp;
    }
  }
}
