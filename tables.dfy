/** `ColorTable`: a lazily filled cache of cornerstone sprites, one table per cornerstone piece. */
module Tables {
  import opened Results
  import opened Colors
  import opened Geometry
  import opened Images

  /** The key of a cached sprite: `(color, direction)`. */
  datatype Key = Key(color: Color, dir: int)

  class ColorTable {
    /** `self.side`: which piece the table serves. */
    const side: Part
    /** The colouring step `tint_image` applies. */
    const recolor: Recolor
    /** `self.colors`. */
    var colors: map<Key, Image>

    /** Every cached sprite is the cornerstone piece of its key. */
    ghost predicate Valid()
      reads this
    {
      forall k :: k in colors ==> Cornerstone(side, k.color, k.dir, recolor) == Ok(colors[k])
    }

    constructor (side: Part, recolor: Recolor)
      ensures Valid() && this.side == side && this.recolor == recolor && colors == map[]
    {
      this.side := side;
      this.recolor := recolor;
      colors := map[];
    }

    /**
     * `get(color, direction)`: the cached sprite when the key is present;
     * otherwise build it, store it and return it.  When building fails (a bad
     * direction) nothing is stored.
     */
    method Get(color: Color, dir: int) returns (r: Result<Image, IsoError>)
      requires Valid()
      modifies this
      ensures Valid()
      ensures r == Cornerstone(side, color, dir, recolor)
      ensures Key(color, dir) in old(colors) ==> colors == old(colors)
      ensures Key(color, dir) !in old(colors) ==>
        colors == if r.Ok? then old(colors)[Key(color, dir) := r.value] else old(colors)
      ensures r.Ok? ==> colors == old(colors)[Key(color, dir) := r.value]
    {
      var key := Key(color, dir);
      if key !in colors {
        var made := MakeCornerstone(side, color, dir, recolor);
        if made.Err? {
          return made;
        }
        colors := colors[key := made.value];
      }
      r := Ok(colors[key]);
    }
  }
}
