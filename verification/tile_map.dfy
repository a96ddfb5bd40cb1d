/** The static tile grid of a level: a line-oriented text description is read
    (comment lines dropped), sized by its longest kept line, and materialised
    as a rectangular grid of tiles that can then be read or overwritten one
    cell at a time. Row is always the first index and column the second. */
module TileGrid {

  /** A cell of the grid: no tile, or one of the two solid tile kinds. */
  datatype Tile = Empty | A | B

  datatype TileError =
    | IndexOutOfRange(row: int, col: int)  // a grid index outside [0, height) x [0, width)
    | RowTooShort(line: nat, index: nat)   // a character index at or past the end of a kept line

  datatype Result<T> = Ok(value: T) | Err(error: TileError)

  datatype Status = Pass | Fail(error: TileError)

  /** A line that starts with '#' is a comment. */
  predicate IsComment(line: string)
  {
    |line| > 0 && line[0] == '#'
  }

  /** The lines of a description that are kept as grid rows, in their order. */
  function Retained(lines: seq<string>): (kept: seq<string>)
    ensures |kept| <= |lines|
    ensures forall i :: 0 <= i < |kept| ==> !IsComment(kept[i])
  {
    if lines == [] then []
    else
      var last := lines[|lines| - 1];
      var init := Retained(lines[..|lines| - 1]);
      if IsComment(last) then init else init + [last]
  }

  /** Filtering distributes over concatenation, so kept lines keep their relative order. */
  lemma {:induction false} RetainedConcat(a: seq<string>, b: seq<string>)
    ensures Retained(a + b) == Retained(a) + Retained(b)
    decreases |b|
  {
    if b == [] {
      assert a + b == a;
    } else {
      var b' := b[..|b| - 1];
      assert (a + b)[..|a + b| - 1] == a + b';
      assert (a + b)[|a + b| - 1] == b[|b| - 1];
      RetainedConcat(a, b');
    }
  }

  /** A line is kept if and only if it occurs in the description and is not a comment. */
  lemma {:induction false} RetainedMembers(lines: seq<string>, l: string)
    ensures l in Retained(lines) <==> l in lines && !IsComment(l)
  {
    if lines != [] {
      var init := lines[..|lines| - 1];
      RetainedMembers(init, l);
      assert lines == init + [lines[|lines| - 1]];
    }
  }

  /** Math.max on two integers. */
  function Max(a: int, b: int): int
  {
    if a < b then b else a
  }

  /** The length of the longest row, or 0 when there is none. */
  function MaxWidth(rows: seq<string>): (w: nat)
    ensures forall y :: 0 <= y < |rows| ==> |rows[y]| <= w
    ensures rows == [] ==> w == 0
    ensures rows != [] ==> exists y :: 0 <= y < |rows| && |rows[y]| == w
  {
    if rows == [] then 0
    else
      var init := rows[..|rows| - 1];
      var w := Max(MaxWidth(init), |rows[|rows| - 1]|);
      assert forall y :: 0 <= y < |init| ==> rows[y] == init[y];
      w
  }

  /** Every row has at least `width` characters, so every column index below
      `width` can be read from it. */
  predicate RowsFull(rows: seq<string>, width: nat)
  {
    forall y :: 0 <= y < |rows| ==> width <= |rows[y]|
  }

  /** Against the longest row's length, "every row is long enough" is the same as
      "every row has exactly that length". */
  lemma RowsFullIffRectangular(rows: seq<string>)
    ensures RowsFull(rows, MaxWidth(rows)) <==> forall y :: 0 <= y < |rows| ==> |rows[y]| == MaxWidth(rows)
  {
  }

  /** The tile a description character stands for. */
  function TileOf(ch: char): (t: Tile)
    ensures t == A <==> ch == 'A'
    ensures t == B <==> ch == 'B'
    ensures t == Empty <==> ch != 'A' && ch != 'B'
  {
    if ch == 'A' then A else if ch == 'B' then B else Empty
  }

  /** Reads the description line by line: every non-comment line is appended to
      the configuration and widens the grid to its length; the height is the
      number of kept lines. */
  method ReadMap(lines: seq<string>) returns (config: seq<string>, width: nat, height: nat)
    ensures config == Retained(lines)
    ensures width == MaxWidth(config)
    ensures height == |config|
  {
    config, width := [], 0;
    var i := 0;
    while i < |lines|
      invariant 0 <= i <= |lines|
      invariant config == Retained(lines[..i])
      invariant width == MaxWidth(config)
    {
      var line := lines[i];
      assert lines[..i + 1][..i] == lines[..i];
      if !IsComment(line) {
        assert (config + [line])[..|config|] == config;
        config := config + [line];
        width := Max(width, |line|);
      }
      i := i + 1;
    }
    assert lines[..|lines|] == lines;
    height := |config|;
  }

  /** The index of the first row shorter than `width`, when there is one. */
  ghost predicate FirstShortRow(rows: seq<string>, width: nat, row: nat)
  {
    row < |rows| && |rows[row]| < width && RowsFull(rows[..row], width)
  }

  class TileMap {
    const tileConfig: seq<string>
    const width: nat
    const height: nat
    const tiles: array2<Tile>

    ghost predicate Valid()
    {
      && tiles.Length0 == height == |tileConfig|
      && tiles.Length1 == width == MaxWidth(tileConfig)
    }

    /** Reads the description and allocates a height x width grid of empty cells. */
    constructor (lines: seq<string>)
      ensures Valid() && fresh(tiles)
      ensures tileConfig == Retained(lines)
      ensures width == MaxWidth(tileConfig) && height == |tileConfig|
      ensures forall y, x :: 0 <= y < height && 0 <= x < width ==> tiles[y, x] == Empty
    {
      var config, w, h := ReadMap(lines);
      tileConfig, width, height := config, w, h;
      tiles := new Tile[h, w]((_, _) => Empty);
    }

    function GetWidth(): (w: nat)
      requires Valid()
      ensures w == tiles.Length1 && w == MaxWidth(tileConfig)
    {
      width
    }

    function GetHeight(): (h: nat)
      requires Valid()
      ensures h == tiles.Length0 == |tileConfig|
    {
      height
    }

    /** The cell at (row, col), or an index error outside the grid. */
    function GetTile(row: int, col: int): (r: Result<Tile>)
      requires Valid()
      reads tiles
      ensures r.Ok? <==> 0 <= row < height && 0 <= col < width
      ensures r.Ok? ==> r.value == tiles[row, col]
      ensures r.Err? ==> r.error == IndexOutOfRange(row, col)
    {
      if 0 <= row < tiles.Length0 && 0 <= col < tiles.Length1 then Ok(tiles[row, col])
      else Err(IndexOutOfRange(row, col))
    }

    /** Overwrites the cell at (row, col); outside the grid nothing changes. */
    method SetTile(row: int, col: int, t: Tile) returns (s: Status)
      requires Valid()
      modifies tiles
      ensures s.Pass? <==> 0 <= row < height && 0 <= col < width
      ensures s.Fail? ==> s.error == IndexOutOfRange(row, col)
      ensures forall y, x :: 0 <= y < height && 0 <= x < width ==>
                tiles[y, x] == if s.Pass? && y == row && x == col then t else old(tiles[y, x])
      ensures GetTile(row, col) == if s.Pass? then Ok(t) else Err(IndexOutOfRange(row, col))
    {
      if 0 <= row < tiles.Length0 && 0 <= col < tiles.Length1 {
        tiles[row, col] := t;
        s := Pass;
      } else {
        s := Fail(IndexOutOfRange(row, col));
      }
    }

    /** Cell (y, x) has been written by a fill that stopped with `s`. */
    ghost predicate Filled(s: Status, y: int, x: int)
    {
      s.Pass? || (s.error.RowTooShort? && (y < s.error.line || (y == s.error.line && x < s.error.index)))
    }

    /** Fills the grid row by row, left to right, from the kept lines. Reading a
        column at or past the end of a shorter line stops the fill there with
        RowTooShort; rows are never padded. */
    method FillMap() returns (s: Status)
      requires Valid()
      modifies tiles
      ensures s.Pass? <==> RowsFull(tileConfig, width)
      ensures s.Fail? ==> s.error.RowTooShort? && FirstShortRow(tileConfig, width, s.error.line)
                          && s.error.index == |tileConfig[s.error.line]|
      ensures forall y, x :: 0 <= y < height && 0 <= x < width ==>
                tiles[y, x] == if Filled(s, y, x) then TileOf(tileConfig[y][x]) else old(tiles[y, x])
    {
      var y := 0;
      while y < height
        invariant 0 <= y <= height
        invariant RowsFull(tileConfig[..y], width)
        invariant forall j, i :: 0 <= j < height && 0 <= i < width ==>
                    tiles[j, i] == if j < y then TileOf(tileConfig[j][i]) else old(tiles[j, i])
      {
        var line := tileConfig[y];
        var x := 0;
        while x < width
          invariant 0 <= x <= width && x <= |line|
          invariant forall j, i :: 0 <= j < height && 0 <= i < width ==>
                      tiles[j, i] == if j < y || (j == y && i < x) then TileOf(tileConfig[j][i]) else old(tiles[j, i])
        {
          if x == |line| {
            s := Fail(RowTooShort(y, x));
            return;
          }
          tiles[y, x] := TileOf(line[x]);
          x := x + 1;
        }
        assert tileConfig[..y + 1] == tileConfig[..y] + [line];
        y := y + 1;
      }
      assert tileConfig[..height] == tileConfig;
      s := Pass;
    }
  }

  /** Builds a tile map from a description, as the TileMap constructor does:
      read, allocate, fill. A kept line shorter than the longest one makes the
      fill fail, and then no map is produced. */
  method Load(lines: seq<string>) returns (r: Result<TileMap>)
    ensures r.Ok? <==> RowsFull(Retained(lines), MaxWidth(Retained(lines)))
    ensures r.Ok? ==> fresh(r.value) && fresh(r.value.tiles) && r.value.Valid()
    ensures r.Ok? ==> r.value.tileConfig == Retained(lines)
                      && r.value.width == MaxWidth(Retained(lines))
                      && r.value.height == |Retained(lines)|
    ensures r.Ok? ==> forall y, x :: 0 <= y < r.value.height && 0 <= x < r.value.width ==>
                        r.value.GetTile(y, x) == Ok(TileOf(Retained(lines)[y][x]))
    ensures r.Err? ==> r.error.RowTooShort?
                       && FirstShortRow(Retained(lines), MaxWidth(Retained(lines)), r.error.line)
                       && r.error.index == |Retained(lines)[r.error.line]|
  {
    var m := new TileMap(lines);
    var s := m.FillMap();
    if s.Pass? {
      r := Ok(m);
    } else {
      r := Err(s.error);
    }
  }

  /** A three-line description with one comment line keeps two rows of width 3. */
  lemma ExampleDescription()
    ensures Retained(["AAB", "# comment", " B "]) == ["AAB", " B "]
    ensures MaxWidth(["AAB", " B "]) == 3
    ensures RowsFull(["AAB", " B "], 3)
  {
  }

  /** Loading that description gives a 3 x 2 grid; cells outside it are index errors. */
  method LoadExample()
  {
    var r := Load(["AAB", "# comment", " B "]);
    ExampleDescription();
    assert r.Ok?;
    var m := r.value;
    assert m.width == 3 && m.height == 2;
    assert m.GetTile(0, 0) == Ok(A);
    assert m.GetTile(0, 2) == Ok(B);
    assert m.GetTile(1, 1) == Ok(B);
    assert m.GetTile(1, 0) == Ok(Empty);
    assert m.GetTile(2, 0).Err? && m.GetTile(0, 3).Err? && m.GetTile(-1, 0).Err? && m.GetTile(0, -1).Err?;
  }
}
