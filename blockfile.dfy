/**
 * `BlockFile` of blockfile.py: a batch instruction file, one line per bloxel,
 * each listing texture indexes and optionally `# name`.  Loading turns every
 * index into a (column, row) pair of the texture map and stores the pairs
 * under the line's name.
 */
module BlockFiles {
  import opened Arith
  import opened Results
  import opened Text

  /** Why `load` stops at a line. */
  datatype LoadError =
    | UnpackError            // `indexes, name = line.split('#')` on a line with two or more '#'
    | BadIndex(token: string) // `int(token)` raised on a stripped index token
    | InvalidName(line: nat)  // the name holds a forbidden character
    | IndexOutOfBounds(line: nat) // an index is at least `num_across * num_down`
    | ZeroDivision           // `i % num_across` with a zero divisor

  /** The characters `random.choice` draws generated names from: ASCII letters and digits. */
  predicate IsNameChar(c: char)
  {
    'a' <= c <= 'z' || 'A' <= c <= 'Z' || '0' <= c <= '9'
  }

  /** The characters of `invalid`, which a block name may not contain (the backslash among them). */
  predicate IsInvalidChar(c: char)
  {
    c in {'^', '%', '$', '#', '@', '!', '~', '`', '(', ')', '[', ']', '\\', '{', '}',
          '*', '&', '+', '=', '?', '>', '<', ',', '\'', '"'}
  }

  /** What `''.join([random.choice(characters) for i in range(8)])` can return. */
  predicate IsRandomName(s: string)
  {
    |s| == 8 && forall k :: 0 <= k < |s| ==> IsNameChar(s[k])
  }

  /** `any(i in name for i in invalid)`. */
  predicate HasInvalid(name: string)
  {
    exists k :: 0 <= k < |name| && IsInvalidChar(name[k])
  }

  /** A generated name never trips the invalid-character check. */
  lemma RandomNamesAreValid(s: string)
    requires IsRandomName(s)
    ensures !HasInvalid(s)
  {
    forall k | 0 <= k < |s| ensures !IsInvalidChar(s[k]) {
      assert IsNameChar(s[k]);
    }
  }

  /** `[i for i in parts if i]`: the pieces of a split that are not empty, in order. */
  function NonEmpty(parts: seq<string>): (r: seq<string>)
    ensures forall t :: t in r <==> t in parts && t != ""
    ensures |r| <= |parts|
  {
    if parts == [] then []
    else if parts[0] == "" then NonEmpty(parts[1..])
    else [parts[0]] + NonEmpty(parts[1..])
  }

  /** The filter keeps every non-empty piece as often as it occurs, and drops every empty one. */
  lemma {:induction false} NonEmptyCounts(parts: seq<string>)
    ensures multiset(NonEmpty(parts)) == multiset(parts)["" := 0]
  {
    if parts != [] {
      assert parts == [parts[0]] + parts[1..];
      NonEmptyCounts(parts[1..]);
    }
  }

  /** The filter keeps the order of the pieces: it distributes over concatenation. */
  lemma {:induction false} NonEmptyAppend(a: seq<string>, b: seq<string>)
    ensures NonEmpty(a + b) == NonEmpty(a) + NonEmpty(b)
  {
    if a == [] {
      assert a + b == b;
    } else {
      assert (a + b)[0] == a[0] && (a + b)[1..] == a[1..] + b;
      NonEmptyAppend(a[1..], b);
      if a[0] != "" {
        assert [a[0]] + (NonEmpty(a[1..]) + NonEmpty(b)) == ([a[0]] + NonEmpty(a[1..])) + NonEmpty(b);
      }
    }
  }

  /** `[int(i.strip()) for i in tokens]`, raising at the first token that is not an integer. */
  function ParseIndexes(tokens: seq<string>): (r: Result<seq<int>, LoadError>)
    ensures r.Ok? ==> |r.value| == |tokens|
    ensures r.Err? ==> r.error.BadIndex?
    decreases |tokens|
  {
    if tokens == [] then Ok([])
    else
      match ParseInt(Strip(tokens[0]))
      case None => Err(BadIndex(Strip(tokens[0])))
      case Some(v) =>
        var rest := ParseIndexes(tokens[1..]);
        if rest.Err? then rest
        else
          Ok([v] + rest.value)
  }

  /**
   * The indexes parse exactly when every stripped token is an integer, and
   * then they are those integers, in order.
   */
  lemma {:induction false} ParseIndexesParsesEach(tokens: seq<string>)
    ensures ParseIndexes(tokens).Ok? <==> forall k :: 0 <= k < |tokens| ==> ParseInt(Strip(tokens[k])).Some?
    ensures ParseIndexes(tokens).Ok? ==>
      forall k :: 0 <= k < |tokens| ==> ParseInt(Strip(tokens[k])) == Some(ParseIndexes(tokens).value[k])
    decreases |tokens|
  {
    if tokens != [] {
      var rest := tokens[1..];
      ParseIndexesParsesEach(rest);
      assert forall k :: 0 < k < |tokens| ==> rest[k - 1] == tokens[k];
      var r := ParseIndexes(tokens);
      if r.Ok? {
        var v := ParseInt(Strip(tokens[0])).value;
        assert r.value == [v] + ParseIndexes(rest).value;
      }
    }
  }

  /** The error names the first token that does not parse, stripped. */
  lemma {:induction false} ParseIndexesFailsAtFirst(tokens: seq<string>, j: int)
    requires 0 <= j < |tokens| && ParseInt(Strip(tokens[j])).None?
    requires forall k :: 0 <= k < j ==> ParseInt(Strip(tokens[k])).Some?
    ensures ParseIndexes(tokens) == Err(BadIndex(Strip(tokens[j])))
  {
    if j > 0 {
      var rest := tokens[1..];
      assert rest[j - 1] == tokens[j];
      forall k | 0 <= k < j - 1 ensures ParseInt(Strip(rest[k])).Some? {
        assert rest[k] == tokens[k + 1];
      }
      ParseIndexesFailsAtFirst(rest, j - 1);
      assert ParseInt(Strip(tokens[0])).Some?;
    }
  }

  /** `(i % num_across, i // num_down)` as the loader writes it. */
  function Coordinate(i: int, across: int, down: int): (int, int)
    requires across != 0 && down != 0
  {
    (FloorMod(i, across), FloorDiv(i, down))
  }

  /**
   * On a map four across and two down, index 5 is in range but its row comes
   * out as 2, below the last row 1.
   */
  lemma NonSquareRowOverflows()
    ensures 5 < 4 * 2 && Coordinate(5, 4, 2) == (1, 2)
  {
    assert 5 == 2 * FloorDiv(5, 2) + FloorMod(5, 2);
  }

  /** `(i % num_across, i // num_across)`: the cell of index i on a map `across` wide. */
  function Cell(i: int, across: int): (int, int)
    requires across != 0
  {
    (FloorMod(i, across), FloorDiv(i, across))
  }

  /**
   * The cell of an index in range lies in the map, and row * width + column
   * gives the index back.
   */
  lemma CellInverts(i: int, across: int, down: int)
    requires across > 0 && 0 <= i < across * down
    ensures var c := Cell(i, across);
      0 <= c.0 < across && 0 <= c.1 < down && c.1 * across + c.0 == i
  {
    var q := FloorDiv(i, across);
    if q >= down {
      assert across * q >= across * down by { MulMonotone(across, down, q); }
    }
  }

  /** Different indexes in range have different cells. */
  lemma CellsAreDistinct(i: int, j: int, across: int, down: int)
    requires across > 0 && 0 <= i < across * down && 0 <= j < across * down && i != j
    ensures Cell(i, across) != Cell(j, across)
  {
    CellInverts(i, across, down);
    CellInverts(j, across, down);
  }

  /** On a square map the loader's formula and the intended one agree. */
  lemma SquareCoordinateIsCell(i: int, n: int)
    requires n != 0
    ensures Coordinate(i, n, n) == Cell(i, n)
  {
  }

  lemma MulMonotone(n: int, a: int, b: int)
    requires n > 0 && a <= b
    ensures n * a <= n * b
  {
    if a < b { MulStrict(n, a, b); }
  }

  /**
   * `indexes, name = line.split('#')` followed by `name.strip()`, or the whole
   * line and an empty name when there is no '#'.
   */
  function SplitLine(line: string): (r: Result<(string, string), LoadError>)
  {
    if '#' in line then
      var parts := SplitOn(line, '#');
      if |parts| != 2 then Err(UnpackError) else Ok((parts[0], Strip(parts[1])))
    else Ok((line, ""))
  }

  /** The index part of a line is anything but an unpacking error exactly when it has at most one '#'. */
  lemma SplitLineUnpacks(line: string)
    ensures SplitLine(line) == Err(UnpackError) <==> Count(line, '#') >= 2
    ensures SplitLine(line).Ok? <==> Count(line, '#') <= 1
  {
    SplitCount(line, '#');
    if '#' !in line {
      NoneCounted(line, '#');
    } else {
      SomeCounted(line, '#');
    }
  }

  lemma {:induction false} NoneCounted(s: string, c: char)
    requires c !in s
    ensures Count(s, c) == 0
  {
    if s != [] {
      assert c !in s[1..];
      NoneCounted(s[1..], c);
    }
  }

  lemma {:induction false} SomeCounted(s: string, c: char)
    requires c in s
    ensures Count(s, c) >= 1
  {
    if s[0] != c {
      assert c in s[1..];
      SomeCounted(s[1..], c);
    }
  }

  /** One entry of `self.coordinates`: a name and its cells in index order. */
  datatype Entry = Entry(name: string, cells: seq<(int, int)>)

  /**
   * The work of one iteration of `load` on line number `count`: split,
   * parse the indexes, check the name, give a nameless line the drawn name,
   * check the bounds and locate every index, raising in that order.
   */
  function ParseLine(line: string, count: nat, randomName: string, across: int, down: int, total: int): (r: Result<Entry, LoadError>)
  {
    var halves :- SplitLine(line);
    var idx :- ParseIndexes(NonEmpty(SplitOn(halves.0, ' ')));
    CheckEntry(halves.1, idx, count, randomName, across, down, total)
  }

  /**
   * The checks of one line that come before its indexes are located: the
   * name, then the bounds.  The name the line is stored under, or the error.
   */
  function CheckName(name: string, idx: seq<int>, count: nat, randomName: string, total: int): (r: Result<string, LoadError>)
  {
    if name != "" && HasInvalid(name) then Err(InvalidName(count))
    else if exists k :: 0 <= k < |idx| && idx[k] >= total then Err(IndexOutOfBounds(count))
    else Ok(if name != "" then name else randomName)
  }

  /**
   * The checks of one line once its name and indexes are split off and
   * parsed, then `(i % num_across, i // num_down)` for every index; either
   * divisor being zero raises.
   */
  function CheckEntry(name: string, idx: seq<int>, count: nat, randomName: string, across: int, down: int, total: int): (r: Result<Entry, LoadError>)
  {
    var named :- CheckName(name, idx, count, randomName, total);
    if |idx| > 0 && (across == 0 || down == 0) then Err(ZeroDivision)
    else Ok(Entry(named, seq(|idx|, k requires 0 <= k < |idx| => Coordinate(idx[k], across, down))))
  }

  /**
   * A line that loads names its entry after the stripped text behind its
   * '#', or after the drawn name when that text is empty or missing; it
   * holds one cell per index, each `Coordinate` of an index below the total.
   */
  lemma ParsedLine(line: string, count: nat, randomName: string, across: int, down: int, total: int)
    requires ParseLine(line, count, randomName, across, down, total).Ok?
    ensures SplitLine(line).Ok? && ParseIndexes(NonEmpty(SplitOn(SplitLine(line).value.0, ' '))).Ok?
    ensures var e := ParseLine(line, count, randomName, across, down, total).value;
      var halves := SplitLine(line).value;
      var idx := ParseIndexes(NonEmpty(SplitOn(halves.0, ' '))).value;
      && (e.name == if halves.1 != "" then halves.1 else randomName)
      && !HasInvalid(halves.1)
      && |e.cells| == |idx|
      && (|idx| > 0 ==> across != 0 && down != 0)
      && forall k :: 0 <= k < |idx| ==> idx[k] < total && e.cells[k] == Coordinate(idx[k], across, down)
  {
    var halves := SplitLine(line).value;
    var idx := ParseIndexes(NonEmpty(SplitOn(halves.0, ' '))).value;
    assert ParseLine(line, count, randomName, across, down, total) == CheckEntry(halves.1, idx, count, randomName, across, down, total);
    CheckedEntry(halves.1, idx, count, randomName, across, down, total);
  }

  lemma CheckedEntry(name: string, idx: seq<int>, count: nat, randomName: string, across: int, down: int, total: int)
    requires CheckEntry(name, idx, count, randomName, across, down, total).Ok?
    ensures var e := CheckEntry(name, idx, count, randomName, across, down, total).value;
      && (e.name == if name != "" then name else randomName)
      && !HasInvalid(name)
      && |e.cells| == |idx|
      && (|idx| > 0 ==> across != 0 && down != 0)
      && forall k :: 0 <= k < |idx| ==> idx[k] < total && e.cells[k] == Coordinate(idx[k], across, down)
  {
  }

  /** A line naming an index on a map with a zero dimension raises `ZeroDivisionError`. */
  lemma ZeroDimensionRaises(name: string, idx: seq<int>, count: nat, randomName: string, across: int, down: int, total: int)
    requires CheckName(name, idx, count, randomName, total).Ok?
    requires |idx| > 0 && (across == 0 || down == 0)
    ensures CheckEntry(name, idx, count, randomName, across, down, total) == Err(ZeroDivision)
  {
  }

  /**
   * On a map four across and two down, the line "5" loads, and index 5 is
   * stored in row 2, below the last row 1.
   */
  lemma NonSquareLineOverflows(randomName: string)
    ensures ParseLine("5", 1, randomName, 4, 2, 8) == Ok(Entry(randomName, [(1, 2)]))
  {
    assert SplitLine("5") == Ok(("5", ""));
    assert SplitOn("5", ' ') == ["5"] by {
      assert "5" == ['5'] + "";
      assert SplitOn("", ' ') == [""];
    }
    assert NonEmpty(["5"]) == ["5"] by {
      assert ["5"][1..] == [];
    }
    assert Strip("5") == "5" by {
      assert !IsSpace('5');
    }
    assert ParseInt("5") == Some(5) by {
      assert DigitPart("5") && "5"[..0] == "";
    }
    assert ParseIndexes(["5"]) == Ok([5]) by {
      var tokens := ["5"];
      assert tokens[0] == "5" && tokens[1..] == [];
      assert ParseInt(Strip(tokens[0])) == Some(5);
      assert ParseIndexes(tokens[1..]) == Ok([]);
      assert [5] + [] == [5];
    }
    assert FloorMod(5, 4) == 1 && FloorDiv(5, 2) == 2;
    assert CheckName("", [5], 1, randomName, 8) == Ok(randomName);
    var e := CheckEntry("", [5], 1, randomName, 4, 2, 8);
    assert e.Ok? && |e.value.cells| == 1 && e.value.cells[0] == Coordinate(5, 4, 2);
    assert e.value.cells == [(1, 2)];
    assert ParseLine("5", 1, randomName, 4, 2, 8) == e;
  }

  /**
   * The loader as evidently intended: the same checks, then
   * `(i % num_across, i // num_across)` for every index.
   */
  function CheckEntryIntended(name: string, idx: seq<int>, count: nat, randomName: string, across: int, total: int): (r: Result<Entry, LoadError>)
  {
    var named :- CheckName(name, idx, count, randomName, total);
    if |idx| > 0 && across == 0 then Err(ZeroDivision)
    else Ok(Entry(named, seq(|idx|, k requires 0 <= k < |idx| => Cell(idx[k], across))))
  }

  /** One iteration of the intended `load`: `ParseLine` with `Cell` in place of `Coordinate`. */
  function ParseLineIntended(line: string, count: nat, randomName: string, across: int, total: int): (r: Result<Entry, LoadError>)
  {
    var halves :- SplitLine(line);
    var idx :- ParseIndexes(NonEmpty(SplitOn(halves.0, ' ')));
    CheckEntryIntended(halves.1, idx, count, randomName, across, total)
  }

  /**
   * Under the intended formula every index of a loaded line that is not
   * negative gets a cell inside the map, from which row * width + column
   * gives the index back.
   */
  lemma IntendedCellsInMap(line: string, count: nat, randomName: string, across: int, down: int)
    requires across > 0 && ParseLineIntended(line, count, randomName, across, across * down).Ok?
    ensures SplitLine(line).Ok? && ParseIndexes(NonEmpty(SplitOn(SplitLine(line).value.0, ' '))).Ok?
    ensures var e := ParseLineIntended(line, count, randomName, across, across * down).value;
      var idx := ParseIndexes(NonEmpty(SplitOn(SplitLine(line).value.0, ' '))).value;
      && |e.cells| == |idx|
      && forall k :: 0 <= k < |idx| && idx[k] >= 0 ==>
           0 <= e.cells[k].0 < across && 0 <= e.cells[k].1 < down && e.cells[k].1 * across + e.cells[k].0 == idx[k]
  {
    var halves := SplitLine(line).value;
    var idx := ParseIndexes(NonEmpty(SplitOn(halves.0, ' '))).value;
    assert ParseLineIntended(line, count, randomName, across, across * down) == CheckEntryIntended(halves.1, idx, count, randomName, across, across * down);
    IntendedEntryInMap(halves.1, idx, count, randomName, across, down);
  }

  lemma IntendedEntryInMap(name: string, idx: seq<int>, count: nat, randomName: string, across: int, down: int)
    requires across > 0 && CheckEntryIntended(name, idx, count, randomName, across, across * down).Ok?
    ensures var e := CheckEntryIntended(name, idx, count, randomName, across, across * down).value;
      && |e.cells| == |idx|
      && forall k :: 0 <= k < |idx| && idx[k] >= 0 ==>
           0 <= e.cells[k].0 < across && 0 <= e.cells[k].1 < down && e.cells[k].1 * across + e.cells[k].0 == idx[k]
  {
    var e := CheckEntryIntended(name, idx, count, randomName, across, across * down).value;
    forall k | 0 <= k < |idx| && idx[k] >= 0
      ensures 0 <= e.cells[k].0 < across && 0 <= e.cells[k].1 < down && e.cells[k].1 * across + e.cells[k].0 == idx[k]
    {
      assert idx[k] < across * down;
      assert e.cells[k] == Cell(idx[k], across);
      CellInverts(idx[k], across, down);
    }
  }

  /** On a square map the loader as written and as intended load every line alike. */
  lemma SquareLinesAgree(line: string, count: nat, randomName: string, n: int, total: int)
    requires n != 0
    ensures ParseLine(line, count, randomName, n, n, total) == ParseLineIntended(line, count, randomName, n, total)
  {
    var halves := SplitLine(line);
    if halves.Ok? {
      var idx := ParseIndexes(NonEmpty(SplitOn(halves.value.0, ' ')));
      if idx.Ok? {
        var written := CheckEntry(halves.value.1, idx.value, count, randomName, n, n, total);
        var intended := CheckEntryIntended(halves.value.1, idx.value, count, randomName, n, total);
        if written.Ok? {
          forall k | 0 <= k < |idx.value| ensures written.value.cells[k] == intended.value.cells[k] {
            SquareCoordinateIsCell(idx.value[k], n);
          }
          assert written.value.cells == intended.value.cells;
          assert written == intended;
        }
        assert ParseLine(line, count, randomName, n, n, total) == written;
        assert ParseLineIntended(line, count, randomName, n, total) == intended;
      }
    }
  }

  /** A line whose name holds a forbidden character is rejected with its line number. */
  lemma InvalidNameRejected(line: string, count: nat, randomName: string, across: int, down: int, total: int)
    requires SplitLine(line).Ok? && ParseIndexes(NonEmpty(SplitOn(SplitLine(line).value.0, ' '))).Ok?
    requires HasInvalid(SplitLine(line).value.1)
    ensures ParseLine(line, count, randomName, across, down, total) == Err(InvalidName(count))
  {
  }

  /** A line with an index at or past the total is rejected with its line number. */
  lemma OutOfBoundsRejected(line: string, count: nat, randomName: string, across: int, down: int, total: int, k: int)
    requires SplitLine(line).Ok? && !HasInvalid(SplitLine(line).value.1)
    requires var idx := ParseIndexes(NonEmpty(SplitOn(SplitLine(line).value.0, ' ')));
      idx.Ok? && 0 <= k < |idx.value| && idx.value[k] >= total
    ensures ParseLine(line, count, randomName, across, down, total) == Err(IndexOutOfBounds(count))
  {
  }

  /** A line without '#' that loads takes the drawn name. */
  lemma UnnamedLineGetsDrawnName(line: string, count: nat, randomName: string, across: int, down: int, total: int)
    requires '#' !in line
    requires ParseLine(line, count, randomName, across, down, total).Ok?
    ensures ParseLine(line, count, randomName, across, down, total).value.name == randomName
  {
    assert SplitLine(line) == Ok((line, ""));
    ParsedLine(line, count, randomName, across, down, total);
  }

  /** `self.coordinates` together with the order its keys were first inserted in. */
  datatype Table = Table(names: seq<string>, coords: map<string, seq<(int, int)>>)

  /** The key order lists every key of the dictionary exactly once. */
  ghost predicate TableValid(t: Table)
  {
    && (forall i, j :: 0 <= i < j < |t.names| ==> t.names[i] != t.names[j])
    && (forall n :: n in t.coords <==> n in t.names)
  }

  /** `self.coordinates[name] = cells`: a new key goes last, an existing one keeps its place. */
  function Put(t: Table, e: Entry): (r: Table)
    ensures TableValid(t) ==> TableValid(r)
    ensures r.coords == t.coords[e.name := e.cells]
    ensures e.name in t.coords ==> r.names == t.names
    ensures e.name !in t.coords ==> r.names == t.names + [e.name]
  {
    if e.name in t.coords then Table(t.names, t.coords[e.name := e.cells])
    else Table(t.names + [e.name], t.coords[e.name := e.cells])
  }

  /** What `load` makes of each line: line k (from 0) is number k + 1 and may use drawn name `rnd[k]`. */
  function ParseLines(lines: seq<string>, rnd: seq<string>, across: int, down: int, total: int): (rs: seq<Result<Entry, LoadError>>)
    requires |rnd| >= |lines|
    ensures |rs| == |lines|
  {
    seq(|lines|, k requires 0 <= k < |lines| => ParseLine(lines[k], k + 1, rnd[k], across, down, total))
  }

  /** What the intended `load` makes of each line. */
  function ParseLinesIntended(lines: seq<string>, rnd: seq<string>, across: int, total: int): (rs: seq<Result<Entry, LoadError>>)
    requires |rnd| >= |lines|
    ensures |rs| == |lines|
  {
    seq(|lines|, k requires 0 <= k < |lines| => ParseLineIntended(lines[k], k + 1, rnd[k], across, total))
  }

  /** On a square map both loaders see the same parsed lines, so they store the same table. */
  lemma SquareLoadsAgree(lines: seq<string>, rnd: seq<string>, n: int, total: int)
    requires |rnd| >= |lines| && n != 0
    ensures ParseLines(lines, rnd, n, n, total) == ParseLinesIntended(lines, rnd, n, total)
  {
    var written, intended := ParseLines(lines, rnd, n, n, total), ParseLinesIntended(lines, rnd, n, total);
    forall k | 0 <= k < |lines| ensures written[k] == intended[k] {
      ParseLinesAt(lines, rnd, n, n, total, k);
      ParseLinesIntendedAt(lines, rnd, n, total, k);
      SquareLinesAgree(lines[k], k + 1, rnd[k], n, total);
    }
  }

  lemma ParseLinesAt(lines: seq<string>, rnd: seq<string>, across: int, down: int, total: int, k: int)
    requires |rnd| >= |lines| && 0 <= k < |lines|
    ensures ParseLines(lines, rnd, across, down, total)[k] == ParseLine(lines[k], k + 1, rnd[k], across, down, total)
  {
  }

  lemma ParseLinesIntendedAt(lines: seq<string>, rnd: seq<string>, across: int, total: int, k: int)
    requires |rnd| >= |lines| && 0 <= k < |lines|
    ensures ParseLinesIntended(lines, rnd, across, total)[k] == ParseLineIntended(lines[k], k + 1, rnd[k], across, total)
  {
  }

  /**
   * The `load` loop over the parsed lines, from the dictionary `t`: the
   * dictionary when it stops and the error it stopped with, if any.
   */
  function Store(t: Table, rs: seq<Result<Entry, LoadError>>): (Table, Option<LoadError>)
  {
    if rs == [] then (t, None)
    else
      var prev := Store(t, rs[..|rs| - 1]);
      if prev.1.Some? then prev
      else
        match rs[|rs| - 1]
        case Err(e) => (prev.0, Some(e))
        case Ok(entry) => (Put(prev.0, entry), None)
  }

  /** Loading succeeds exactly when every line parses. */
  lemma {:induction false} StoreSucceedsIff(t: Table, rs: seq<Result<Entry, LoadError>>)
    ensures Store(t, rs).1.None? <==> forall k :: 0 <= k < |rs| ==> rs[k].Ok?
  {
    if rs != [] {
      var init := rs[..|rs| - 1];
      StoreSucceedsIff(t, init);
      assert forall k :: 0 <= k < |init| ==> init[k] == rs[k];
    }
  }

  /**
   * The error `load` raises is that of the first line that fails, and the
   * dictionary holds what the lines before it stored.
   */
  lemma {:induction false} StoreFailsAtFirstBadLine(t: Table, rs: seq<Result<Entry, LoadError>>, j: int)
    requires 0 <= j < |rs| && rs[j].Err?
    requires forall k :: 0 <= k < j ==> rs[k].Ok?
    ensures Store(t, rs) == (Store(t, rs[..j]).0, Some(rs[j].error))
  {
    var init := rs[..|rs| - 1];
    assert forall k :: 0 <= k < |init| ==> init[k] == rs[k];
    if j == |rs| - 1 {
      assert init == rs[..j];
      StoreSucceedsIff(t, init);
    } else {
      assert init[..j] == rs[..j];
      StoreFailsAtFirstBadLine(t, init, j);
    }
  }

  /** A line that parses extends a load that has not failed by one `Put`. */
  lemma StoreStep(t: Table, rs: seq<Result<Entry, LoadError>>, k: int)
    requires 0 <= k < |rs| && Store(t, rs[..k]).1.None? && rs[k].Ok?
    ensures Store(t, rs[..k + 1]) == (Put(Store(t, rs[..k]).0, rs[k].value), None)
  {
    assert rs[..k + 1][..k] == rs[..k];
  }

  /** A line that fails after lines that all parsed ends the load with its error. */
  lemma StoreStopsAt(t: Table, rs: seq<Result<Entry, LoadError>>, k: int)
    requires 0 <= k < |rs| && Store(t, rs[..k]).1.None? && rs[k].Err?
    ensures Store(t, rs) == (Store(t, rs[..k]).0, Some(rs[k].error))
  {
    StoreSucceedsIff(t, rs[..k]);
    assert forall i :: 0 <= i < k ==> rs[..k][i] == rs[i];
    StoreFailsAtFirstBadLine(t, rs, k);
  }

  /** The dictionary keeps one key-order entry per key through a load. */
  lemma {:induction false} StoreKeepsTableValid(t: Table, rs: seq<Result<Entry, LoadError>>)
    requires TableValid(t)
    ensures TableValid(Store(t, rs).0)
  {
    if rs != [] {
      StoreKeepsTableValid(t, rs[..|rs| - 1]);
    }
  }

  /**
   * After a load that succeeds, a name holds the cells of the last line that
   * used it: a later line with the same name overwrites an earlier one.
   */
  lemma {:induction false} LastLineWins(t: Table, rs: seq<Result<Entry, LoadError>>, j: int)
    requires 0 <= j < |rs| && Store(t, rs).1.None?
    ensures rs[j].Ok?
    ensures (forall k :: j < k < |rs| ==> !(rs[k].Ok? && rs[k].value.name == rs[j].value.name)) ==>
      rs[j].value.name in Store(t, rs).0.coords && Store(t, rs).0.coords[rs[j].value.name] == rs[j].value.cells
  {
    StoreSucceedsIff(t, rs);
    var init := rs[..|rs| - 1];
    assert forall k :: 0 <= k < |init| ==> init[k] == rs[k];
    StoreSucceedsIff(t, init);
    if j < |rs| - 1 {
      LastLineWins(t, init, j);
    }
  }

  /** Every name a successful load saw is a key afterwards. */
  lemma {:induction false} StoreKeepsEveryName(t: Table, rs: seq<Result<Entry, LoadError>>, j: int)
    requires 0 <= j < |rs| && Store(t, rs).1.None?
    ensures rs[j].Ok? && rs[j].value.name in Store(t, rs).0.coords
  {
    StoreSucceedsIff(t, rs);
    var init := rs[..|rs| - 1];
    assert forall k :: 0 <= k < |init| ==> init[k] == rs[k];
    StoreSucceedsIff(t, init);
    if j < |rs| - 1 {
      StoreKeepsEveryName(t, init, j);
    }
  }

  class BlockFile {
    /** `self.num_across`, `self.num_down` and `self.total`. */
    const numAcross: int
    const numDown: int
    const total: int
    /** The keys of `self.coordinates` in insertion order, and the dictionary itself. */
    var names: seq<string>
    var coordinates: map<string, seq<(int, int)>>
    /** `self.num_instructions`: the lines the last load read. */
    var numInstructions: nat

    ghost predicate Valid()
      reads this
    {
      total == numAcross * numDown && TableValid(Table(names, coordinates))
    }

    /** The first half of `__init__`: the dimensions and an empty dictionary. */
    constructor Init(numAcross: int, numDown: int)
      ensures Valid() && this.numAcross == numAcross && this.numDown == numDown
      ensures names == [] && coordinates == map[] && numInstructions == 0
    {
      this.numAcross := numAcross;
      this.numDown := numDown;
      total := numAcross * numDown;
      names := [];
      coordinates := map[];
      numInstructions := 0;
    }

    /**
     * `load` over the lines of the file: each line is parsed and stored in
     * turn; the count of lines is returned, or the first error raised, with
     * the lines before it already stored.
     */
    method Load(lines: seq<string>, randomNames: seq<string>) returns (r: Result<nat, LoadError>)
      requires Valid() && |randomNames| >= |lines|
      modifies this`names, this`coordinates
      ensures Valid()
      ensures var res := Store(Table(old(names), old(coordinates)), ParseLines(lines, randomNames, numAcross, numDown, total));
        && Table(names, coordinates) == res.0
        && r == if res.1.None? then Ok(|lines|) else Err(res.1.value)
    {
      ghost var t0 := Table(names, coordinates);
      ghost var rs := ParseLines(lines, randomNames, numAcross, numDown, total);
      var count := 0;
      while count < |lines|
        invariant 0 <= count <= |lines| && Valid()
        invariant Store(t0, rs[..count]) == (Table(names, coordinates), None)
      {
        var line := lines[count];
        count := count + 1;
        var parsed := ParseLine(line, count, randomNames[count - 1], numAcross, numDown, total);
        assert parsed == rs[count - 1];
        if parsed.Err? {
          StoreStopsAt(t0, rs, count - 1);
          return Err(parsed.error);
        }
        var entry := parsed.value;
        ghost var next := Put(Table(names, coordinates), entry);
        StoreStep(t0, rs, count - 1);
        if entry.name !in coordinates {
          names := names + [entry.name];
        }
        coordinates := coordinates[entry.name := entry.cells];
        assert Table(names, coordinates) == next;
      }
      assert rs[..count] == rs;
      r := Ok(count);
    }

    /**
     * `BlockFile(filename, num_across, num_down)`: the instructions of the
     * file's lines, or the error loading them raises.
     */
    static method Open(lines: seq<string>, numAcross: int, numDown: int, randomNames: seq<string>)
      returns (r: Result<BlockFile, LoadError>)
      requires |randomNames| >= |lines|
      ensures var res := Store(Table([], map[]), ParseLines(lines, randomNames, numAcross, numDown, numAcross * numDown));
        && (r.Ok? <==> res.1.None?)
        && (r.Err? ==> r.error == res.1.value)
        && (r.Ok? ==> fresh(r.value) && r.value.Valid() && r.value.numInstructions == |lines| &&
                      Table(r.value.names, r.value.coordinates) == res.0)
    {
      var bf := new BlockFile.Init(numAcross, numDown);
      var n := bf.Load(lines, randomNames);
      if n.Err? {
        return Err(n.error);
      }
      bf.numInstructions := n.value;
      return Ok(bf);
    }

    /** `get_all`: every name with its cells, in insertion order, each once. */
    method GetAll() returns (items: seq<(string, seq<(int, int)>)>)
      requires Valid()
      ensures |items| == |names|
      ensures forall k :: 0 <= k < |items| ==> items[k] == (names[k], coordinates[names[k]])
      ensures forall n :: n in coordinates <==> exists k :: 0 <= k < |items| && items[k].0 == n
      ensures forall i, j :: 0 <= i < j < |items| ==> items[i].0 != items[j].0
    {
      items := [];
      for k := 0 to |names|
        invariant |items| == k
        invariant forall i :: 0 <= i < k ==> items[i] == (names[i], coordinates[names[i]])
      {
        items := items + [(names[k], coordinates[names[k]])];
      }
      forall n | n in coordinates ensures exists k :: 0 <= k < |items| && items[k].0 == n {
        var k :| 0 <= k < |names| && names[k] == n;
        assert items[k].0 == n;
      }
    }
  }
}
