# bloxel in Dafny

bloxel renders isometric sprites ("bloxels") of cubes. Its inputs are six
16×16 face textures, or a list of coloured voxels, and its output is a 64×64
RGBA image. This project models the rendering core of `bloxel/iso.py` and the
instruction-file loader `bloxel/blockfile.py`, and proves properties of that
model.

The model is split into modules that follow the program's parts:

- `Results`, `Arith`: the result/option types, and Python's integer division.
  `int()` truncates toward zero; `//` and `%` floor.
- `Colors`: pixels, 3- and 4-tuple colours, `lighten`, `darken` and
  `blend_color`.
- `Geometry`:
  - the `Directions`/`BloxelSides` enumerations and `Shade.get_shade`;
  - `rotate_sides` and `determine_visible_sides`;
  - the isometric projection of `IsoCoors.__get_pos_from_vec3`.
- `Coords`: the `IsoCoors` class. It holds its `coors` dictionary and the
  `lru_cache` of `get` as two maps.
- `Images`: images as values, the four `Cornerstone` stencils, `tint_image`
  and the cornerstone sprites.
- `Compositor`:
  - `draw_pixel`, `draw_image` and `fill_image` on a mutable `array2`
    canvas;
  - `RenderAt`, the pixel-by-pixel meaning of a sequence of `draw_image`
    calls on a fresh canvas.
- `Tables`: the `ColorTable` class, a lazily filled sprite cache.
- `Voxels`: the per-direction depth sort of `get_multipart_bloxel`, done in
  place on the caller's list, and the quarter turn of each voxel's position.
- `Assembler`: the `Iso` class.
  - `get_scalar_bloxel` is proved to leave on its canvas exactly the render
    of the 6×256 draws its loops make, in loop order.
  - `get_multipart_bloxel` is proved to leave exactly the render of three
    draws per voxel, in sorted order.
  - Every cache it touches stays consistent.
- `Text`: `str.strip`, `str.split`, `str.join`, `str.count` and `int()`
  for base-10 strings.
- `BlockFiles`: `BlockFile.load`, `__init__` and `get_all`.
  - `load` is split into a per-line parse (`ParseLine`) and a fold that
    stores the entries (`Store`).
  - The imperative `Load` method is proved equal to that fold.

## Model

| member | source | states |
|---|---|---|
| Arith.TruncDiv | bloxel/iso.py:1125 | `int()` of an exact quotient: the quotient rounded toward zero, bounded on both sides for either sign |
| Arith.FloorDiv | bloxel/blockfile.py:83 | `a // b` rounds toward minus infinity, for both signs of the divisor |
| Arith.FloorMod | bloxel/blockfile.py:83 | `a % b` satisfies a == b*(a//b) + a%b, and the remainder has the sign of the divisor and is smaller than it |
| Colors.Lighten | bloxel/iso.py:1207-1208 | every colour channel becomes min(channel + `shades`, 255); alpha is untouched; in-range input stays in range and never gets darker |
| Colors.Darken | bloxel/iso.py:1223-1224 | every colour channel becomes max(channel − `shades`, 0); alpha is untouched; in-range input stays in range and never gets lighter |
| Colors.LightenUndoesDarken | bloxel/iso.py:1196-1224 | lightening by n undoes darkening by n when no channel was clipped |
| Colors.BlendColor | bloxel/iso.py:1239-1254 | output alpha is min(dst.a + src.a, 255); an opaque source replaces the colour and a transparent one keeps it; byte inputs give byte outputs |
| Colors.MixInByte | bloxel/iso.py:1248-1250 | an alpha-weighted mix of two byte channels is a byte |
| Colors.BlendTransparentIsIdentity | bloxel/iso.py:1245-1254 | blending a source of alpha 0 onto an in-range pixel leaves that pixel unchanged |
| Colors.BlendSaturates | bloxel/iso.py:1252 | alphas that sum to 255 or more give exactly 255 |
| Colors.BlendPadsRgb | bloxel/iso.py:1239-1243 | a 3-tuple blends, on either side, exactly like the 4-tuple with alpha 255 |
| Geometry.DirIndex | bloxel/iso.py:724-727 | a direction's constant is in 0..3 and maps back to the same direction |
| Geometry.ToDirection | bloxel/iso.py:724-727 | an integer names a direction exactly when it is in 0..3 |
| Geometry.GetShade | bloxel/iso.py:987-1003 | the shade of a side is opaque grey 255 − 15·level, with the levels (0, 4, 1, 3, 2, 2) |
| Geometry.UpLightestDownDarkest | bloxel/iso.py:990 | UP is strictly the lightest face, DOWN strictly the darkest, and FRONT and BACK are equal |
| Geometry.RotateSides | bloxel/iso.py:484-491 | up and down never move; 0 keeps the order; 1 and 2 give their rotated orders; any other value takes the final (WEST) branch |
| Geometry.RotationPermutes | bloxel/iso.py:484-491 | every rotation is a permutation of the six faces (as a multiset) |
| Geometry.RotationIsQuarterTurns | bloxel/iso.py:461-465 | direction d is d EAST quarter turns, and four quarter turns are the identity |
| Geometry.DetermineVisibleSides | bloxel/iso.py:692-705 | answers exactly for 0..3 and raises the invalid-direction error otherwise; the top is always UP |
| Geometry.VisibleSidesAreRotatedFaces | bloxel/iso.py:672-705 | the visible (left, top, right) faces are the rotated left, up and back faces, the three slots `get_scalar_bloxel` always draws |
| Geometry.ProjectTruncates | bloxel/iso.py:1121-1125 | both screen coordinates, t(x+y)/2 and t(y−x−2z)/4, are rounded toward zero: less than one away from the exact value and never further from zero |
| Geometry.ProjectTileFour | bloxel/iso.py:1121-1125 | with tile size 4 the projection is exactly (2x+2y, −x+y−2z) |
| Geometry.ProjectMultipleOfFour | bloxel/iso.py:1121-1125 | with tile size 4m nothing is truncated: (2m(x+y), m(y−x−2z)) |
| Coords.IsoCoors.constructor | bloxel/iso.py:1056-1061 | a fresh generator with the tile size, an empty dictionary and an empty cache |
| Coords.IsoCoors.Lookup | bloxel/iso.py:1063-1073 | returns the projection of the key, and the dictionary gains exactly that key |
| Coords.IsoCoors.Get | bloxel/iso.py:1075-1088 | returns the projection; a call already in the lru cache leaves the dictionary alone, a new one adds its key to both |
| Coords.IsoCoors.SeedCoordinates | bloxel/iso.py:1090-1106 | the dictionary becomes exactly the projections of the points of [0, grid)³ and nothing else |
| Voxels.SortVoxels | bloxel/iso.py:629-639 | the caller's list ends in the direction's draw order and holds the same voxels (multiset) |
| Voxels.InDrawOrderKeys | bloxel/iso.py:629-639 | in draw order, NORTH and WEST keys descend and EAST and SOUTH keys ascend |
| Voxels.TurnVoxel | bloxel/iso.py:646-648 | the `for i in range(dir)` loop gives `Turned(dir, x, z)` |
| Voxels.FourTurnsAreIdentity | bloxel/iso.py:646-648 | four of the turns `x, z = 16 - z, x` bring a voxel back |
| Voxels.TurnsHavePeriodFour | bloxel/iso.py:646-648 | n + 4 turns are n turns |
| Voxels.TurnKeepsCentreDistance | bloxel/iso.py:646-648 | a turn is a rotation about (8, 8): it keeps the distance from that centre |
| Images.CornerFacesAreVisibleSides | bloxel/iso.py:778-796 | the faces shading a cornerstone's left, top and right pixels are the visible sides of the direction |
| Images.Stencil | bloxel/iso.py:760-933 | `get`, `get_left` and `get_right` fail exactly on a direction outside 0..3; `get_top` never fails |
| Images.TopIgnoresDirection | bloxel/iso.py:915-932 | the top piece is the same for every direction, since the shade table is overwritten by white |
| Images.FullIsThePiecesTogether | bloxel/iso.py:798-816 | the full cornerstone is the left, right and top pieces at their drawing offsets, and the three do not overlap |
| Images.Tint | bloxel/iso.py:1138-1149 | the tinted image keeps the source's size and has an alpha band |
| Images.TintSilhouette | bloxel/iso.py:1142-1146 | with a 4-tuple colour of nonzero alpha, a pixel is visible iff it was visible in the source, and then its alpha is the colour's |
| Images.TintLayoutIsColorIndependent | bloxel/iso.py:1142-1148 | two such colours give the same layout of visible pixels |
| Images.TintRgbKeepsAlpha | bloxel/iso.py:1142-1148 | with a 3-tuple colour the source's alpha band survives |
| Images.TintImage | bloxel/iso.py:1128-1149 | the loop over the alpha band produces `Tint(src, color)` |
| Images.Cornerstone | bloxel/iso.py:760-933 | a cornerstone piece fails exactly when a non-top piece gets a bad direction; otherwise it is a well-formed RGBA image |
| Images.SpriteIsCornerstone | bloxel/iso.py:760-933 | for a typed direction the getter returns the tinted stencil of that direction |
| Images.MakeCornerstone | bloxel/iso.py:760-933 | the getter dispatch builds the stencil and tints it, or returns the direction error |
| Compositor.DrawPixel | bloxel/iso.py:1257-1280 | in bounds it blends onto exactly one pixel; outside it raises out-of-bounds and says which |
| Compositor.DrawImage | bloxel/iso.py:1164-1192 | each canvas pixel becomes `DrawAt` of its old value; pixels outside the sprite's footprint, or under a transparent sprite pixel, are untouched; it never raises |
| Compositor.FillImage | bloxel/iso.py:1152-1161 | every pixel becomes the colour |
| Compositor.NewCanvas | bloxel/iso.py:526 | a fresh w×h canvas, all (0, 0, 0, 0), showing no draws |
| Compositor.RenderAppend | bloxel/iso.py:1164-1192 | one more `draw_image` acts on each pixel through `DrawAt` |
| Compositor.DrawOpOnto | bloxel/iso.py:1164-1192 | a canvas showing draws `done` shows `done + [op]` after drawing op |
| Compositor.RenderUncovered | bloxel/iso.py:1181-1188 | a pixel that no draw covers with a visible pixel stays transparent |
| Compositor.RenderInRange | bloxel/iso.py:1245-1252 | channels stay in [0, 255] through any sequence of draws of in-range sprites |
| Tables.ColorTable.constructor | bloxel/iso.py:1016-1021 | an empty table for its side |
| Tables.ColorTable.Get | bloxel/iso.py:1023-1047 | returns the side's cornerstone for the key; a present key leaves the table alone, a missing one is built and stored unless building fails |
| Assembler.PassOpsAt | bloxel/iso.py:542-544 | draw 16x + y of a pass is the one for texture pixel (x, y): x in the outer loop, y in the inner |
| Assembler.RotatedTextures | bloxel/iso.py:507-509 | rotating the faces keeps them all 16×16 textures |
| Assembler.MultipartOpsSnoc | bloxel/iso.py:643-668 | drawing one more voxel appends its three draws |
| Assembler.Iso.constructor | bloxel/iso.py:410-417 | a coordinate generator for the tile size and three empty tables (top, left, right) |
| Assembler.Iso.TableGet | bloxel/iso.py:1035-1047 | a table lookup with a typed direction returns the sprite and never fails; the part's table then binds the key to that sprite, and the other two tables are unchanged |
| Assembler.Iso.Locate | bloxel/iso.py:1076-1088 | `self.coors.get` returns the projection of the point; the lru cache gains the point, and `coors` gains it only when the lru cache missed |
| Assembler.Iso.DrawSprite | bloxel/iso.py:591 | one `draw_image(x, y, table.get(color, dir), canvas)` appends one draw to what the canvas shows |
| Assembler.Iso.DrawTexel | bloxel/iso.py:586-591 | one loop iteration appends the pass's draw for texture pixel (x, y) |
| Assembler.Iso.DrawTexelAt | bloxel/iso.py:587-591 | the same, once the projected position is known |
| Assembler.Iso.DrawColumn | bloxel/iso.py:542-544 | the inner loop appends draws 16x .. 16x + 15 of the pass |
| Assembler.Iso.DrawPass | bloxel/iso.py:586-591 | one 16×16 loop appends all 256 draws of the pass, in order |
| Assembler.Iso.DrawHidden | bloxel/iso.py:546-583 | the bottom, back-right and back-left loops append their draws |
| Assembler.Iso.DrawBack | bloxel/iso.py:546-583 | the hidden faces are drawn exactly when some face is translucent |
| Assembler.Iso.DrawFront | bloxel/iso.py:585-612 | the right, left and top loops append their draws |
| Assembler.Iso.ScalarBloxel | bloxel/iso.py:493-614 | the result is a fresh 64×64 canvas showing exactly `ScalarOps`: the hidden faces when translucent, then the front faces, every pixel in loop order |
| Assembler.Iso.DrawVoxelAt | bloxel/iso.py:652-668 | a voxel appends its left, right and top draws around the nudged offset |
| Assembler.Iso.DrawVoxelRightTop | bloxel/iso.py:667-668 | the right and top draws of a voxel |
| Assembler.Iso.DrawVoxel | bloxel/iso.py:644-668 | one iteration of the voxel loop appends that voxel's three draws |
| Assembler.Iso.DrawVoxels | bloxel/iso.py:643-668 | the loop over the sorted voxels leaves `MultipartOps` of them |
| Assembler.Iso.MultipartBloxel | bloxel/iso.py:616-670 | the caller's list ends sorted in draw order (same multiset); the result is a fresh 64×64 canvas showing three draws per voxel in that order |
| Text.StripLeft | bloxel/blockfile.py:50 | drops exactly the leading whitespace |
| Text.StripRight | bloxel/blockfile.py:50 | drops exactly the trailing whitespace |
| Text.StripEnds | bloxel/blockfile.py:50 | a stripped string is empty or starts and ends with non-whitespace |
| Text.StripIdempotent | bloxel/blockfile.py:50 | stripping twice is stripping once |
| Text.SplitOn | bloxel/blockfile.py:49 | a split has at least one piece and no piece holds the separator |
| Text.SplitJoin | bloxel/blockfile.py:49 | joining a split with its separator gives the string back |
| Text.SplitCount | bloxel/blockfile.py:49 | a split has one piece more than there are separators |
| Text.ParseInt | bloxel/blockfile.py:57 | `int()` succeeds exactly on an optional sign followed by digits with single inner underscores |
| Text.ShowNatDigits | bloxel/blockfile.py:57 | the decimal form of n is a digit string whose value is n |
| Text.ParseShowInt | bloxel/blockfile.py:57 | `int(str(n)) == n` for every integer |
| Text.ParseMinus | bloxel/blockfile.py:57 | a minus sign before a digit string negates its value |
| BlockFiles.RandomNamesAreValid | bloxel/blockfile.py:27-32 | a drawn eight-character name never holds a forbidden character |
| BlockFiles.NonEmpty | bloxel/blockfile.py:57 | a piece is in the result iff it is a non-empty piece of the input |
| BlockFiles.NonEmptyCounts | bloxel/blockfile.py:57 | every non-empty piece is kept as often as it occurs, and every empty one is dropped |
| BlockFiles.NonEmptyAppend | bloxel/blockfile.py:57 | the filter distributes over concatenation, so it keeps the pieces in order |
| BlockFiles.ParseIndexes | bloxel/blockfile.py:57 | one value per token on success; otherwise a bad-index error |
| BlockFiles.ParseIndexesParsesEach | bloxel/blockfile.py:57 | succeeds iff every stripped token parses, and then value k is the integer of token k |
| BlockFiles.ParseIndexesFailsAtFirst | bloxel/blockfile.py:57 | the error names the first token that does not parse |
| BlockFiles.NonSquareRowOverflows | bloxel/blockfile.py:83 | on a 4×2 map, in-range index 5 gets row 2, past the last row |
| BlockFiles.NonSquareLineOverflows | bloxel/blockfile.py:47-87 | on a 4×2 map the line "5" loads and stores the cell (1, 2), past the last row |
| BlockFiles.CellInverts | bloxel/blockfile.py:82-85 | with the intended formula an in-range index gets a cell inside the map, and row·width + column gives it back |
| BlockFiles.CellsAreDistinct | bloxel/blockfile.py:82-85 | different in-range indexes get different cells |
| BlockFiles.SquareCoordinateIsCell | bloxel/blockfile.py:83 | on a square map the written and the intended formula agree |
| BlockFiles.SplitLineUnpacks | bloxel/blockfile.py:48-54 | a line unpacks iff it has at most one '#', and fails with the unpacking error iff it has two or more |
| BlockFiles.ParsedLine | bloxel/blockfile.py:47-85 | a line that loads has the stripped name after '#' or the drawn one, no forbidden character, every index below the total, both dimensions nonzero when it has an index, and for index i the cell `(i % num_across, i // num_down)` |
| BlockFiles.CheckedEntry | bloxel/blockfile.py:61-85 | the same, for the checks after the split and the parse |
| BlockFiles.ZeroDimensionRaises | bloxel/blockfile.py:82-85 | once the name and bounds checks pass, a line with an index on a map with a zero dimension raises `ZeroDivisionError` |
| BlockFiles.IntendedCellsInMap | bloxel/blockfile.py:82-85 | with the intended row formula, every non-negative index of a loaded line gets a cell inside the map, and row·width + column gives it back |
| BlockFiles.IntendedEntryInMap | bloxel/blockfile.py:82-85 | the same, for the checks after the split and the parse |
| BlockFiles.SquareLinesAgree | bloxel/blockfile.py:47-85 | on a square map the loader as written and as intended parse every line alike |
| BlockFiles.SquareLoadsAgree | bloxel/blockfile.py:44-87 | on a square map both loaders see the same parsed lines, so the whole load agrees |
| BlockFiles.InvalidNameRejected | bloxel/blockfile.py:61-67 | a name with a forbidden character is rejected with the line number |
| BlockFiles.OutOfBoundsRejected | bloxel/blockfile.py:73-78 | an index at or past the total is rejected with the line number |
| BlockFiles.UnnamedLineGetsDrawnName | bloxel/blockfile.py:68-71 | a line without '#' that loads takes the drawn name |
| BlockFiles.Put | bloxel/blockfile.py:87 | `self.coordinates[name] = cells`: a new key goes last, an existing key keeps its place, and the key order stays duplicate-free |
| BlockFiles.StoreSucceedsIff | bloxel/blockfile.py:44-87 | loading succeeds exactly when every line parses |
| BlockFiles.StoreFailsAtFirstBadLine | bloxel/blockfile.py:44-87 | the error is that of the first failing line, with the lines before it stored |
| BlockFiles.StoreStep | bloxel/blockfile.py:87 | a line that parses extends the load by one store |
| BlockFiles.StoreStopsAt | bloxel/blockfile.py:44-87 | a failing line after good ones ends the load with its error |
| BlockFiles.StoreKeepsTableValid | bloxel/blockfile.py:87 | the key order lists every key exactly once through a load |
| BlockFiles.LastLineWins | bloxel/blockfile.py:87 | after a successful load every line parsed, and a name holds the cells of the last line that used it |
| BlockFiles.StoreKeepsEveryName | bloxel/blockfile.py:87 | every name a successful load saw is a key afterwards |
| BlockFiles.BlockFile.Init | bloxel/blockfile.py:11-15 | the dimensions, `total = num_across * num_down` and an empty dictionary |
| BlockFiles.BlockFile.Load | bloxel/blockfile.py:22-88 | the loop leaves the dictionary and the error exactly as the fold `Store` over the lines parsed by `ParseLine` (the row formula as written) says, and returns the line count on success |
| BlockFiles.BlockFile.Open | bloxel/blockfile.py:11-16 | construction succeeds iff the load does, carrying its error or a valid object with the line count |
| BlockFiles.BlockFile.GetAll | bloxel/blockfile.py:18-20 | yields every name once, in insertion order, with its cells |

## Findings

| source | as written | input that shows it | evidently intended | confidence | as-written member | corrected member |
|---|---|---|---|---|---|---|
| bloxel/blockfile.py:83 | the row of index i is `i // self.num_down` | `num_across = 4`, `num_down = 2`, index 5 (< total 8): cell (1, 2), but the last row is 1 | `i // self.num_across`, the row of a row-major index | not executed; square maps, where the two agree, hide it | BlockFiles.NonSquareLineOverflows | BlockFiles.IntendedCellsInMap |

`BlockFiles.Coordinate` is the formula as written; `BlockFiles.ParseLine`,
and through it `BlockFiles.BlockFile.Load`, use it, so the load is modelled
as written (a zero `num_down` raises `ZeroDivisionError` there too).
`BlockFiles.Cell` is the corrected formula, and
`BlockFiles.ParseLineIntended` is the line parse that uses it.
`BlockFiles.CellInverts` and `BlockFiles.CellsAreDistinct` are about `Cell`.
`BlockFiles.SquareCoordinateIsCell`, `BlockFiles.SquareLinesAgree` and
`BlockFiles.SquareLoadsAgree` show that the two agree on square maps.

## Left out

- Floating point. `blend_color` and the projection compute with floats in the
  source. The model computes the exact rational value and then truncates as
  `int()` does.
- PIL. `ImageOps.grayscale`/`colorize` are an abstract `Recolor` parameter;
  only the alpha mask `tint_image` rebuilds is modelled exactly. `getcolors`
  is modelled by what it reveals: whether some pixel has alpha below 255.
- `Images.TintImage`: needs an RGBA source. The unpacking error of
  `src.split()` on other modes is not modelled; every caller passes an RGBA
  stencil.
- The CLI and everything in `main`, `save`, `get_texture` and `seed_tables`;
  image files. Textures are given as values.
- File I/O of `load`. The file is a sequence of lines, each with its
  newline, as `for line in file` yields them.
- `random.choice`. The eight-character name per line is a parameter
  (`randomNames[k]` for line k + 1).
- `Assembler.Iso.ScalarBloxel`: takes a typed direction and 16×16 textures.
  The callers only pass these. The source's behaviour for other values is
  not modelled: a stale or unbound `x, y` in the bottom and top loops, and
  the raise in the tables.
- `Assembler.Iso.MultipartBloxel`: takes a typed direction. For any other
  value the source skips the sort and turns the voxels `dir` times; a
  non-empty list then raises in the table lookups, and an empty one gives a
  blank canvas. This is not modelled.
- `Assembler.Iso.ScalarBloxel`: states the caches only through `Valid` (every
  cached entry is correct). It does not say which keys were added.
- `Assembler.Iso.MultipartBloxel`: states the caches the same way.
- `Assembler.Iso.DrawSprite`, `DrawTexel`, `DrawTexelAt`, `DrawColumn`,
  `DrawPass`, `DrawHidden`, `DrawBack`, `DrawFront`, `DrawVoxelAt`,
  `DrawVoxelRightTop`, `DrawVoxel` and `DrawVoxels`: state the caches only
  through `Valid`. `TableGet` and `Locate` state their own updates exactly.
- `Voxels.SortVoxels`: stability of Python's sort is not stated. Voxels with
  equal keys may end in any order, so the render is fixed only up to that.
- The no-effect `Cornerstone.get_right()` call in the right-side loop
  (iso.py:588), and the `lru_cache` on the `Cornerstone` getters, `darken`,
  `lighten` and `blend_color`. They do not change any result.
- The voxel's own colour, unused by the source (`clr` at iso.py:664).
- `draw_image` with the canvas as its own sprite (aliasing). Sprites are
  values here.
- Unicode digits in `int()`. Only ASCII digits are modelled.
- Negative indexes in a blockfile pass the bounds check and reach the
  floor division and modulo. They are modelled as written.
- `BlockFiles.ParseIndexes`: its own contract only says that a failure is a
  bad-index error. Which token fails is stated by
  `BlockFiles.ParseIndexesFailsAtFirst`.
- Where the source's docstrings and its code disagree, the model follows
  the code:
  - `blend_color`'s docstring names its arguments the other way round from how
    `draw_pixel` uses them;
  - the WEST row of `rotate_sides`'s docstring differs from its code.
