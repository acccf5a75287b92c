/**
 * The Figma bundle export of src/core/figmaBundle.js: the tile size, the
 * grid of tiles cut from a capture, the tile file names, and the manifest
 * written next to them.
 *
 * The file system and the image library are given as an environment: the
 * errors the calls would throw, the image's metadata, and the path helpers
 * `path.dirname`, `path.parse(_).name` and `path.basename`.
 */
module FigmaBundle {
  import opened Wrappers
  import opened Text
  import opened Js

  const DefaultTileSize: nat := 2048

  const NoImageMsg := "No capture image was provided."
  const NoOutputMsg := "No output folder available for Figma bundle export."
  const DimensionsMsg := "Could not read image dimensions for Figma export."

  /** `toPositiveInt`, given the parse of `String(value)`: the parsed value when it is positive. */
  function ToPositiveInt(parsed: Option<int>, fallback: int): (r: int)
    ensures parsed.Some? && parsed.value > 0 ==> r == parsed.value
    ensures (parsed.None? || parsed.value <= 0) ==> r == fallback
    ensures fallback > 0 ==> r > 0
  {
    if parsed.None? || parsed.value <= 0 then fallback else parsed.value
  }

  // ------------------------------------------------------------ tile paths

  /** `String(n).padStart(3, '0')`. */
  function Padded(n: nat): string {
    PadZeros(NatToString(n), 3)
  }

  /** `toTileFilePath`. */
  function TileFilePath(row: nat, col: nat): string {
    "tiles/tile_r" + Padded(row) + "_c" + Padded(col) + ".png"
  }

  lemma PaddedHasNoUnderscore(n: nat)
    ensures '_' !in Padded(n) && '_' !in "c" + Padded(n)
  {
    PaddedValue(n, 3);
    var p := Padded(n);
    forall i | 0 <= i < |p| ensures p[i] != '_' {
      assert IsDigit(p[i]);
    }
    assert ("c" + p)[0] == 'c';
    forall i | 1 <= i < |"c" + p| ensures ("c" + p)[i] != '_' {
      assert ("c" + p)[i] == p[i - 1];
    }
  }

  lemma JoinPair(a: string, b: string)
    ensures Join([a, b], '_') == a + "_" + b
  {
    assert [a, b][1..] == [b];
  }

  /** Distinct grid positions get distinct tile paths. */
  lemma TileFilePathInjective(r1: nat, c1: nat, r2: nat, c2: nat)
    requires TileFilePath(r1, c1) == TileFilePath(r2, c2)
    ensures r1 == r2 && c1 == c2
  {
    var prefix, suffix := "tiles/tile_r", ".png";
    var m1 := Join([Padded(r1), "c" + Padded(c1)], '_');
    var m2 := Join([Padded(r2), "c" + Padded(c2)], '_');
    JoinPair(Padded(r1), "c" + Padded(c1));
    JoinPair(Padded(r2), "c" + Padded(c2));
    assert TileFilePath(r1, c1) == prefix + m1 + suffix;
    assert TileFilePath(r2, c2) == prefix + m2 + suffix;
    assert |m1| == |m2|;
    assert m1 == (prefix + m1 + suffix)[|prefix|..|prefix| + |m1|];
    assert m2 == (prefix + m2 + suffix)[|prefix|..|prefix| + |m2|];
    PaddedHasNoUnderscore(r1);
    PaddedHasNoUnderscore(c1);
    PaddedHasNoUnderscore(r2);
    PaddedHasNoUnderscore(c2);
    JoinInjective([Padded(r1), "c" + Padded(c1)], [Padded(r2), "c" + Padded(c2)], '_');
    assert Padded(c1) == ("c" + Padded(c1))[1..];
    assert Padded(c2) == ("c" + Padded(c2))[1..];
    PaddedValue(r1, 3);
    PaddedValue(r2, 3);
    PaddedValue(c1, 3);
    PaddedValue(c2, 3);
  }

  // ------------------------------------------------------------------ grid

  /** `Math.ceil(a / b)` for a non-negative `a` and a positive `b`. */
  function CeilDiv(a: nat, b: nat): nat
    requires b > 0
  {
    (a + b - 1) / b
  }

  lemma CeilDivBounds(a: nat, b: nat)
    requires b > 0
    ensures CeilDiv(a, b) * b >= a
    ensures CeilDiv(a, b) == 0 || (CeilDiv(a, b) - 1) * b < a
    ensures CeilDiv(a, b) == 0 <==> a == 0
  {
    var q := CeilDiv(a, b);
    assert a + b - 1 == q * b + (a + b - 1) % b;
  }

  /** The geometry of one tile: its grid position and the rectangle it cuts from the image. */
  datatype Cell = Cell(row: nat, col: nat, x: int, y: int, width: int, height: int)

  /** One entry of the manifest's `tiles.files`: a cell and the file it was written to. */
  datatype Tile = Tile(cell: Cell, file: string)

  function Min(a: int, b: int): int {
    if a <= b then a else b
  }

  /** The cell at grid position (row, col) of a `width` × `height` image. */
  function CellAt(row: nat, col: nat, tileSize: nat, width: nat, height: nat): Cell {
    Cell(row, col, col * tileSize, row * tileSize,
         Min(tileSize, width - col * tileSize), Min(tileSize, height - row * tileSize))
  }

  // Two facts of integer arithmetic the grid proofs use.

  lemma MulLe(a: int, b: int, d: nat)
    ensures a <= b ==> a * d <= b * d
  {
    assert b * d - a * d == (b - a) * d;
  }

  /** Division by a positive `d` has a unique quotient and remainder. */
  lemma DivUnique(j: int, d: nat, q: int, r: int)
    requires d > 0 && j == q * d + r && 0 <= r < d
    ensures j / d == q && j % d == r
  {
    var q0, r0 := j / d, j % d;
    assert j == q0 * d + r0;
    MulLe(q0 + 1, q, d);
    MulLe(q + 1, q0, d);
    assert (q0 + 1) * d == q0 * d + d;
    assert (q + 1) * d == q * d + d;
  }

  lemma DivMod(j: nat, d: nat)
    requires d > 0
    ensures j == (j / d) * d + j % d && 0 <= j % d < d
  {
  }

  /** `j` is at (r, c) of a row-major grid with `d` columns exactly when `j == r * d + c`. */
  lemma IndexOwner(j: nat, d: nat, r: nat, c: nat)
    requires d > 0 && c < d
    ensures j / d == r && j % d == c <==> j == r * d + c
  {
    DivMod(j, d);
    if j == r * d + c {
      DivUnique(j, d, r, c);
    }
  }

  /** Along one axis, `v` lies in the span of index `i` exactly when `i == v / size`. */
  lemma DivOwner(v: nat, i: nat, size: nat, total: nat)
    requires size > 0 && v < total
    ensures i * size <= v < i * size + Min(size, total - i * size) <==> i == v / size
  {
    var q := v / size;
    assert v == q * size + v % size;
    MulLe(i + 1, q, size);
    MulLe(q + 1, i, size);
    assert (i + 1) * size == i * size + size;
    assert (q + 1) * size == q * size + size;
  }

  /** Every tile of the grid has a positive size, at most the tile size, and lies inside the image. */
  lemma TileInside(row: nat, col: nat, tileSize: nat, width: nat, height: nat)
    requires tileSize > 0
    requires row < CeilDiv(height, tileSize) && col < CeilDiv(width, tileSize)
    ensures var t := CellAt(row, col, tileSize, width, height);
      && 0 <= t.x && 0 <= t.y && 0 < t.width <= tileSize && 0 < t.height <= tileSize
      && t.x + t.width <= width && t.y + t.height <= height
  {
    CeilDivBounds(width, tileSize);
    CeilDivBounds(height, tileSize);
    MulLe(col, CeilDiv(width, tileSize) - 1, tileSize);
    MulLe(row, CeilDiv(height, tileSize) - 1, tileSize);
  }

  predicate Covers(t: Cell, px: int, py: int) {
    t.x <= px < t.x + t.width && t.y <= py < t.y + t.height
  }

  /**
   * A pixel of the image lies in the tile at (py / tileSize, px / tileSize),
   * which is a grid position, and in no other tile.
   */
  lemma PixelOwner(px: nat, py: nat, row: nat, col: nat, tileSize: nat, width: nat, height: nat)
    requires tileSize > 0 && px < width && py < height
    ensures py / tileSize < CeilDiv(height, tileSize) && px / tileSize < CeilDiv(width, tileSize)
    ensures Covers(CellAt(row, col, tileSize, width, height), px, py) <==> row == py / tileSize && col == px / tileSize
  {
    assert py / tileSize < CeilDiv(height, tileSize) by { DivBelowCeil(py, tileSize, height); }
    assert px / tileSize < CeilDiv(width, tileSize) by { DivBelowCeil(px, tileSize, width); }
    DivOwner(px, col, tileSize, width);
    DivOwner(py, row, tileSize, height);
  }

  /** The span holding `v` is one of the `CeilDiv(total, size)` spans. */
  lemma DivBelowCeil(v: nat, size: nat, total: nat)
    requires size > 0 && v < total
    ensures v / size < CeilDiv(total, size)
  {
    CeilDivBounds(total, size);
    var q := v / size;
    assert v == q * size + v % size;
    MulLe(CeilDiv(total, size), q, size);
  }

  // ------------------------------------------------------ the tile sequence

  /** The first `n` positions of grid row `row`, left to right. */
  function RowPositions(row: nat, n: nat): (r: seq<(nat, nat)>)
    ensures |r| == n
  {
    if n == 0 then [] else RowPositions(row, n - 1) + [(row, n - 1)]
  }

  /** The positions of the first `rows` rows of a grid with `columns` columns, in row-major order. */
  function Positions(rows: nat, columns: nat): seq<(nat, nat)> {
    if rows == 0 then [] else Positions(rows - 1, columns) + RowPositions(rows - 1, columns)
  }

  /** The cells at the given positions. */
  function CellsAt(ps: seq<(nat, nat)>, tileSize: nat, width: nat, height: nat): (r: seq<Cell>)
    ensures |r| == |ps|
    ensures forall i :: 0 <= i < |ps| ==> r[i] == CellAt(ps[i].0, ps[i].1, tileSize, width, height)
  {
    seq(|ps|, i requires 0 <= i < |ps| => CellAt(ps[i].0, ps[i].1, tileSize, width, height))
  }

  /** The whole grid of a `width` × `height` image. */
  function Grid(tileSize: nat, width: nat, height: nat): seq<Cell>
    requires tileSize > 0
  {
    CellsAt(Positions(CeilDiv(height, tileSize), CeilDiv(width, tileSize)), tileSize, width, height)
  }

  lemma CellsAtAppend(p: seq<(nat, nat)>, q: seq<(nat, nat)>, tileSize: nat, width: nat, height: nat)
    ensures CellsAt(p + q, tileSize, width, height) == CellsAt(p, tileSize, width, height) + CellsAt(q, tileSize, width, height)
  {
  }

  lemma {:induction false} RowPositionsIndex(row: nat, n: nat, c: nat)
    requires c < n
    ensures RowPositions(row, n)[c] == (row, c)
  {
    if c < n - 1 {
      RowPositionsIndex(row, n - 1, c);
    }
  }

  lemma {:induction false} PositionsLength(rows: nat, columns: nat)
    ensures |Positions(rows, columns)| == rows * columns
  {
    if rows > 0 {
      PositionsLength(rows - 1, columns);
      assert (rows - 1) * columns + columns == rows * columns;
    }
  }

  /** The `j`-th position of the grid is row `j / columns`, column `j % columns`. */
  lemma {:induction false} PositionsIndex(rows: nat, columns: nat, j: nat)
    requires j < |Positions(rows, columns)|
    ensures columns > 0 && Positions(rows, columns)[j] == (j / columns, j % columns)
  {
    PositionsLength(rows - 1, columns);
    var before := Positions(rows - 1, columns);
    if j < |before| {
      PositionsIndex(rows - 1, columns, j);
    } else {
      var c := j - |before|;
      RowPositionsIndex(rows - 1, columns, c);
      assert j == (rows - 1) * columns + c;
      DivUnique(j, columns, rows - 1, c);
    }
  }

  /** The tile count is rows × columns. */
  lemma GridCount(tileSize: nat, width: nat, height: nat)
    requires tileSize > 0
    ensures |Grid(tileSize, width, height)| == CeilDiv(height, tileSize) * CeilDiv(width, tileSize)
  {
    PositionsLength(CeilDiv(height, tileSize), CeilDiv(width, tileSize));
  }

  /** Tiles come in row-major order: the `j`-th is at row `j / columns`, column `j % columns`. */
  lemma GridRowMajor(tileSize: nat, width: nat, height: nat, j: nat)
    requires tileSize > 0 && j < |Grid(tileSize, width, height)|
    ensures var columns := CeilDiv(width, tileSize);
      columns > 0 && Grid(tileSize, width, height)[j] == CellAt(j / columns, j % columns, tileSize, width, height)
  {
    PositionsIndex(CeilDiv(height, tileSize), CeilDiv(width, tileSize), j);
  }

  /** Every tile of the grid lies inside the image and has a positive size. */
  lemma GridInside(tileSize: nat, width: nat, height: nat, j: nat)
    requires tileSize > 0 && j < |Grid(tileSize, width, height)|
    ensures var t := Grid(tileSize, width, height)[j];
      && 0 <= t.x && 0 <= t.y && 0 < t.width <= tileSize && 0 < t.height <= tileSize
      && t.x + t.width <= width && t.y + t.height <= height
  {
    var rows, columns := CeilDiv(height, tileSize), CeilDiv(width, tileSize);
    PositionsIndex(rows, columns, j);
    PositionsLength(rows, columns);
    var r, c := j / columns, j % columns;
    DivMod(j, columns);
    MulLe(rows, r, columns);
    TileInside(r, c, tileSize, width, height);
  }

  /** A grid cell covers a pixel exactly when its position is the pixel's tile position. */
  lemma GridCellCovers(tileSize: nat, width: nat, height: nat, px: nat, py: nat, j: nat)
    requires tileSize > 0 && px < width && py < height && j < |Grid(tileSize, width, height)|
    ensures var columns := CeilDiv(width, tileSize);
      columns > 0 && px / tileSize < columns &&
      (Covers(Grid(tileSize, width, height)[j], px, py) <==> j / columns == py / tileSize && j % columns == px / tileSize)
  {
    var columns := CeilDiv(width, tileSize);
    GridRowMajor(tileSize, width, height, j);
    PixelOwner(px, py, j / columns, j % columns, tileSize, width, height);
  }

  /**
   * The tiles partition the image: each pixel of the image is covered by
   * exactly one tile of the grid, the one at index
   * (py / tileSize) * columns + px / tileSize.
   */
  lemma GridPartition(tileSize: nat, width: nat, height: nat, px: nat, py: nat, j: nat)
    requires tileSize > 0 && px < width && py < height && j < |Grid(tileSize, width, height)|
    ensures Covers(Grid(tileSize, width, height)[j], px, py)
            <==> j == (py / tileSize) * CeilDiv(width, tileSize) + px / tileSize
  {
    GridCellCovers(tileSize, width, height, px, py, j);
    PixelIndex(j, CeilDiv(width, tileSize), px, py, tileSize);
  }

  lemma PixelIndex(j: nat, columns: nat, px: nat, py: nat, tileSize: nat)
    requires tileSize > 0 && px / tileSize < columns
    ensures j / columns == py / tileSize && j % columns == px / tileSize <==> j == (py / tileSize) * columns + px / tileSize
  {
    IndexOwner(j, columns, py / tileSize, px / tileSize);
  }

  /** The sum of the spans of the first `n` indices along an axis. */
  function SpanSum(total: nat, size: nat, n: nat): int {
    if n == 0 then 0 else SpanSum(total, size, n - 1) + Min(size, total - (n - 1) * size)
  }

  lemma {:induction false} SpanSumFull(total: nat, size: nat, n: nat)
    requires size > 0 && n * size <= total
    ensures SpanSum(total, size, n) == n * size
  {
    if n > 0 {
      MulLe(n - 1, n, size);
      assert (n - 1) * size + size == n * size;
      SpanSumFull(total, size, n - 1);
    }
  }

  /** The spans of the grid along an axis add up to the image's extent. */
  lemma SpanSumCeil(total: nat, size: nat)
    requires size > 0
    ensures SpanSum(total, size, CeilDiv(total, size)) == total
  {
    var n := CeilDiv(total, size);
    CeilDivBounds(total, size);
    if n > 0 {
      SpanSumFull(total, size, n - 1);
      assert (n - 1) * size + size == n * size;
    }
  }

  function Area(tiles: seq<Cell>): int {
    if tiles == [] then 0 else Area(tiles[..|tiles| - 1]) + tiles[|tiles| - 1].width * tiles[|tiles| - 1].height
  }

  lemma {:induction false} AreaAppend(a: seq<Cell>, b: seq<Cell>)
    ensures Area(a + b) == Area(a) + Area(b)
    decreases |b|
  {
    if b != [] {
      assert (a + b)[..|a + b| - 1] == a + b[..|b| - 1];
      assert (a + b)[|a + b| - 1] == b[|b| - 1];
      AreaAppend(a, b[..|b| - 1]);
    } else {
      assert a + b == a;
    }
  }

  lemma Distribute(h: int, a: int, b: int)
    ensures h * (a + b) == h * a + h * b
  {
  }

  lemma {:induction false} RowArea(row: nat, n: nat, tileSize: nat, width: nat, height: nat)
    ensures Area(CellsAt(RowPositions(row, n), tileSize, width, height))
            == Min(tileSize, height - row * tileSize) * SpanSum(width, tileSize, n)
  {
    if n > 0 {
      var ts := CellsAt(RowPositions(row, n), tileSize, width, height);
      CellsAtAppend(RowPositions(row, n - 1), [(row, n - 1)], tileSize, width, height);
      assert ts[..n - 1] == CellsAt(RowPositions(row, n - 1), tileSize, width, height);
      RowArea(row, n - 1, tileSize, width, height);
      var h := Min(tileSize, height - row * tileSize);
      var w := Min(tileSize, width - (n - 1) * tileSize);
      var t := ts[n - 1];
      assert t == CellAt(row, n - 1, tileSize, width, height);
      assert t.width == w && t.height == h;
      assert Area(ts) == Area(ts[..n - 1]) + t.width * t.height;
      Distribute(h, SpanSum(width, tileSize, n - 1), w);
    }
  }

  /** A full row covers its height times the image's width. */
  lemma FullRowArea(row: nat, tileSize: nat, width: nat, height: nat)
    requires tileSize > 0
    ensures Area(CellsAt(RowPositions(row, CeilDiv(width, tileSize)), tileSize, width, height))
            == Min(tileSize, height - row * tileSize) * width
  {
    RowArea(row, CeilDiv(width, tileSize), tileSize, width, height);
    SpanSumCeil(width, tileSize);
  }

  lemma RowsAppend(rows: nat, tileSize: nat, width: nat, height: nat)
    requires tileSize > 0 && rows > 0
    ensures var columns := CeilDiv(width, tileSize);
      Area(CellsAt(Positions(rows, columns), tileSize, width, height))
      == Area(CellsAt(Positions(rows - 1, columns), tileSize, width, height))
         + Area(CellsAt(RowPositions(rows - 1, columns), tileSize, width, height))
  {
    var columns := CeilDiv(width, tileSize);
    CellsAtAppend(Positions(rows - 1, columns), RowPositions(rows - 1, columns), tileSize, width, height);
    AreaAppend(CellsAt(Positions(rows - 1, columns), tileSize, width, height),
               CellsAt(RowPositions(rows - 1, columns), tileSize, width, height));
  }

  /** Adding row `rows - 1` adds its height times the image's width. */
  lemma AreaNextRow(rows: nat, tileSize: nat, width: nat, height: nat)
    requires tileSize > 0 && rows > 0
    ensures var columns := CeilDiv(width, tileSize);
      Area(CellsAt(Positions(rows, columns), tileSize, width, height))
      == Area(CellsAt(Positions(rows - 1, columns), tileSize, width, height))
         + Min(tileSize, height - (rows - 1) * tileSize) * width
  {
    RowsAppend(rows, tileSize, width, height);
    FullRowArea(rows - 1, tileSize, width, height);
  }

  lemma {:induction false} AreaRows(rows: nat, tileSize: nat, width: nat, height: nat)
    requires tileSize > 0
    ensures Area(CellsAt(Positions(rows, CeilDiv(width, tileSize)), tileSize, width, height))
            == width * SpanSum(height, tileSize, rows)
  {
    if rows > 0 {
      AreaRows(rows - 1, tileSize, width, height);
      AreaNextRow(rows, tileSize, width, height);
      Distribute(width, SpanSum(height, tileSize, rows - 1), Min(tileSize, height - (rows - 1) * tileSize));
    }
  }

  /** The grid's tiles cover exactly the image's area. */
  lemma GridArea(tileSize: nat, width: nat, height: nat)
    requires tileSize > 0
    ensures Area(Grid(tileSize, width, height)) == width * height
  {
    AreaRows(CeilDiv(height, tileSize), tileSize, width, height);
    SpanSumCeil(height, tileSize);
  }

  /** The cells of a list of manifest entries. */
  function Cells(tiles: seq<Tile>): (r: seq<Cell>)
    ensures |r| == |tiles| && forall i :: 0 <= i < |tiles| ==> r[i] == tiles[i].cell
  {
    seq(|tiles|, i requires 0 <= i < |tiles| => tiles[i].cell)
  }

  /** Every entry's file is the tile path of its grid position. */
  predicate NamedByPosition(tiles: seq<Tile>) {
    forall i :: 0 <= i < |tiles| ==> tiles[i].file == TileFilePath(tiles[i].cell.row, tiles[i].cell.col)
  }

  lemma NamedAppend(a: seq<Tile>, b: seq<Tile>)
    requires NamedByPosition(a) && NamedByPosition(b)
    ensures NamedByPosition(a + b) && Cells(a + b) == Cells(a) + Cells(b)
  {
  }

  /** Every entry has a file name of its own. */
  lemma NamedEntriesDistinct(tiles: seq<Tile>, i: nat, j: nat)
    requires NamedByPosition(tiles) && i < |tiles| && j < |tiles|
    requires (tiles[i].cell.row, tiles[i].cell.col) != (tiles[j].cell.row, tiles[j].cell.col)
    ensures tiles[i].file != tiles[j].file
  {
    if tiles[i].file == tiles[j].file {
      TileFilePathInjective(tiles[i].cell.row, tiles[i].cell.col, tiles[j].cell.row, tiles[j].cell.col);
    }
  }

  /**
   * The inner loop over the columns of one row: each tile is extracted and
   * written, then recorded. `tileErrors` holds what writing the tile at a
   * grid position would throw; the first such tile ends the export.
   */
  method CutRow(row: nat, width: nat, height: nat, tileSize: nat, tileErrors: map<(nat, nat), string>)
    returns (tiles: seq<Tile>, failure: Option<string>)
    requires tileSize > 0
    ensures NamedByPosition(tiles)
    ensures failure.None? ==> Cells(tiles) == CellsAt(RowPositions(row, CeilDiv(width, tileSize)), tileSize, width, height)
    ensures failure.Some? ==>
              exists col: nat ::
                && col < CeilDiv(width, tileSize)
                && Cells(tiles) == CellsAt(RowPositions(row, col), tileSize, width, height)
                && (row, col) in tileErrors && failure.value == tileErrors[(row, col)]
                && forall c: nat :: c < col ==> (row, c) !in tileErrors
    ensures failure.None? <==> forall col: nat :: col < CeilDiv(width, tileSize) ==> (row, col) !in tileErrors
  {
    var columns := CeilDiv(width, tileSize);
    tiles := [];
    failure := None;
    var col := 0;
    while col < columns
      invariant 0 <= col <= columns
      invariant Cells(tiles) == CellsAt(RowPositions(row, col), tileSize, width, height)
      invariant NamedByPosition(tiles)
      invariant forall c: nat :: c < col ==> (row, c) !in tileErrors
    {
      var left := col * tileSize;
      var top := row * tileSize;
      var tileWidth := Min(tileSize, width - left);
      var tileHeight := Min(tileSize, height - top);
      var relativePath := TileFilePath(row, col);
      if (row, col) in tileErrors {
        failure := Some(tileErrors[(row, col)]);
        return;
      }
      var tile := Tile(Cell(row, col, left, top, tileWidth, tileHeight), relativePath);
      assert Cells(tiles + [tile]) == CellsAt(RowPositions(row, col + 1), tileSize, width, height) by {
        CellsAtAppend(RowPositions(row, col), [(row, col)], tileSize, width, height);
        NamedAppend(tiles, [tile]);
      }
      NamedAppend(tiles, [tile]);
      tiles := tiles + [tile];
      col := col + 1;
    }
  }

  /** No tile before (row, col) in row-major order, in a grid of `columns` columns, fails. */
  predicate ClearBefore(row: nat, col: nat, columns: nat, tileErrors: map<(nat, nat), string>) {
    forall r: nat, c: nat :: r <= row && c < columns && (r < row || c < col) ==> (r, c) !in tileErrors
  }

  lemma ClearRowsThenColumns(row: nat, col: nat, columns: nat, tileErrors: map<(nat, nat), string>)
    requires forall r: nat, c: nat :: r < row && c < columns ==> (r, c) !in tileErrors
    requires forall c: nat :: c < col ==> (row, c) !in tileErrors
    ensures ClearBefore(row, col, columns, tileErrors)
  {
  }

  /** No tile of the grid fails. */
  predicate NoTileError(tileSize: nat, width: nat, height: nat, tileErrors: map<(nat, nat), string>)
    requires tileSize > 0
  {
    forall row: nat, col: nat ::
      row < CeilDiv(height, tileSize) && col < CeilDiv(width, tileSize) ==> (row, col) !in tileErrors
  }

  /**
   * The nested row and column loops of the export. The first tile, in
   * row-major order, whose write fails ends the export.
   */
  method CutTiles(width: nat, height: nat, tileSize: nat, tileErrors: map<(nat, nat), string>)
    returns (tiles: seq<Tile>, failure: Option<string>)
    requires tileSize > 0
    ensures NamedByPosition(tiles)
    ensures failure.None? ==> Cells(tiles) == Grid(tileSize, width, height)
    ensures failure.Some? ==>
              exists row: nat, col: nat ::
                && row < CeilDiv(height, tileSize) && col < CeilDiv(width, tileSize)
                && Cells(tiles) == CellsAt(Positions(row, CeilDiv(width, tileSize)) + RowPositions(row, col), tileSize, width, height)
                && (row, col) in tileErrors && failure.value == tileErrors[(row, col)]
                && ClearBefore(row, col, CeilDiv(width, tileSize), tileErrors)
    ensures failure.None? <==> NoTileError(tileSize, width, height, tileErrors)
  {
    var columns := CeilDiv(width, tileSize);
    var rows := CeilDiv(height, tileSize);
    tiles := [];
    failure := None;
    var row := 0;
    while row < rows
      invariant 0 <= row <= rows
      invariant Cells(tiles) == CellsAt(Positions(row, columns), tileSize, width, height)
      invariant NamedByPosition(tiles)
      invariant forall r: nat, c: nat :: r < row && c < columns ==> (r, c) !in tileErrors
    {
      var rowTiles, rowFailure := CutRow(row, width, height, tileSize, tileErrors);
      ghost var before := Positions(row, columns);
      NamedAppend(tiles, rowTiles);
      if rowFailure.Some? {
        var col: nat :| && col < columns
                        && Cells(rowTiles) == CellsAt(RowPositions(row, col), tileSize, width, height)
                        && (row, col) in tileErrors && rowFailure.value == tileErrors[(row, col)]
                        && forall c: nat :: c < col ==> (row, c) !in tileErrors;
        ClearRowsThenColumns(row, col, columns, tileErrors);
        CellsAtAppend(before, RowPositions(row, col), tileSize, width, height);
        tiles := tiles + rowTiles;
        failure := rowFailure;
        return;
      }
      CellsAtAppend(before, RowPositions(row, columns), tileSize, width, height);
      tiles := tiles + rowTiles;
      row := row + 1;
    }
  }

  // ---------------------------------------------------------------- export

  datatype Metadata = Metadata(width: Option<nat>, height: Option<nat>, format: Option<string>)

  /** The path helpers of `node:path` the export uses. */
  datatype PathOps = PathOps(dirname: string -> string, name: string -> string, basename: string -> string)

  /**
   * What the file system and the image library do: the error each call
   * throws (if any), the image's metadata, and the time of the export.
   */
  datatype BundleEnv = BundleEnv(accessError: Option<string>, mkdirError: Option<string>,
                                 metadata: Result<Metadata, string>, prepareError: Option<string>,
                                 tileErrors: map<(nat, nat), string>, manifestError: Option<string>,
                                 isoTime: string)

  datatype Manifest = Manifest(version: nat, sourceFileName: string, sourceWidth: nat, sourceHeight: nat,
                               sourceFormat: string, frameName: string, frameWidth: nat, frameHeight: nat,
                               tileSize: nat, rows: nat, columns: nat, count: nat, files: seq<Tile>,
                               exportedAt: string)

  datatype Bundle = Bundle(bundleDir: string, manifestPath: string, tileSize: nat, tileCount: nat,
                           rows: nat, columns: nat, width: nat, height: nat, manifest: Manifest)

  /** The trimmed `String(payload.imagePath)`, or "" when it is unset. */
  function ImagePath(payload: Value): string {
    var v := Prop(payload, "imagePath");
    Trim(if Truthy(v) then ToStr(v) else "")
  }

  /** The trimmed output folder: `payload.outputDir`, or the image's folder. */
  function OutputRoot(payload: Value, imagePath: string, paths: PathOps): string {
    var v := Prop(payload, "outputDir");
    Trim(if Truthy(v) then ToStr(v) else paths.dirname(imagePath))
  }

  /** `!width || !height`. */
  predicate MissingDimensions(m: Metadata) {
    m.width.None? || m.width.value == 0 || m.height.None? || m.height.value == 0
  }

  function JoinPath(dir: string, name: string): string {
    dir + "/" + name
  }

  /** `toPositiveInt(payload && payload.tileSize, DEFAULT_TILE_SIZE)`. */
  function TileSizeOf(payload: Value, parseInt: string -> Option<int>): (r: nat)
    ensures r > 0
  {
    ToPositiveInt(parseInt(ToStr(Prop(payload, "tileSize"))), DefaultTileSize)
  }

  /** The image is given and readable. */
  predicate PastAccess(payload: Value, env: BundleEnv) {
    ImagePath(payload) != "" && env.accessError.None?
  }

  /**
   * The result names the first failing tile of the grid in row-major order
   * and raises its write error.
   */
  predicate FirstTileFailure(r: Result<Bundle, string>, tileSize: nat, width: nat, height: nat,
                             tileErrors: map<(nat, nat), string>)
    requires tileSize > 0
  {
    exists row: nat, col: nat ::
      && row < CeilDiv(height, tileSize) && col < CeilDiv(width, tileSize)
      && (row, col) in tileErrors && r == Err(tileErrors[(row, col)])
      && ClearBefore(row, col, CeilDiv(width, tileSize), tileErrors)
  }

  /**
   * The bundle of a successful export: the grid and its manifest, built from
   * the image path, the output folder, the tile size and the metadata.
   */
  predicate BundleMatches(b: Bundle, imagePath: string, outputRoot: string, tileSize: nat, m: Metadata,
                          paths: PathOps, isoTime: string)
    requires tileSize > 0 && !MissingDimensions(m)
  {
    && b.tileSize == tileSize
    && b.width == m.width.value && b.height == m.height.value
    && b.columns == CeilDiv(b.width, tileSize) && b.rows == CeilDiv(b.height, tileSize)
    && b.tileCount == b.rows * b.columns == |b.manifest.files| == b.manifest.count
    && Cells(b.manifest.files) == Grid(tileSize, b.width, b.height)
    && NamedByPosition(b.manifest.files)
    && b.manifest.version == 1
    && b.manifest.sourceFileName == paths.basename(imagePath)
    && b.manifest.sourceWidth == b.manifest.frameWidth == b.width
    && b.manifest.sourceHeight == b.manifest.frameHeight == b.height
    && b.manifest.frameName == paths.name(imagePath) + " (PixelPort)"
    && b.manifest.sourceFormat == Lower(if m.format.Some? && m.format.value != "" then m.format.value else "png")
    && b.manifest.tileSize == tileSize && b.manifest.rows == b.rows && b.manifest.columns == b.columns
    && b.manifest.exportedAt == isoTime
    && b.bundleDir == JoinPath(outputRoot, paths.name(imagePath) + "_figma_bundle")
    && b.manifestPath == JoinPath(b.bundleDir, "manifest.json")
  }

  /**
   * What the export does once the image and the output folder are known:
   * the output folder creation, the metadata read, the dimensions check, the
   * bundle folder reset, the tile writes in row-major order and the manifest
   * write each raise their own error; when none does, the bundle is built.
   */
  predicate ExportedInto(r: Result<Bundle, string>, imagePath: string, outputRoot: string, tileSize: nat,
                         paths: PathOps, env: BundleEnv)
    requires tileSize > 0
  {
    && (env.mkdirError.Some? ==> r == Err(env.mkdirError.value))
    && (env.mkdirError.None? && env.metadata.Err? ==> r == Err(env.metadata.error))
    && (env.mkdirError.None? && env.metadata.Ok? && MissingDimensions(env.metadata.value) ==>
          r == Err(DimensionsMsg))
    && (env.mkdirError.None? && env.metadata.Ok? && !MissingDimensions(env.metadata.value) ==>
          var m := env.metadata.value;
          && (env.prepareError.Some? ==> r == Err(env.prepareError.value))
          && (env.prepareError.None? && !NoTileError(tileSize, m.width.value, m.height.value, env.tileErrors) ==>
                FirstTileFailure(r, tileSize, m.width.value, m.height.value, env.tileErrors))
          && (env.prepareError.None? && env.manifestError.Some?
              && NoTileError(tileSize, m.width.value, m.height.value, env.tileErrors) ==>
                r == Err(env.manifestError.value))
          && (r.Ok? <==> env.prepareError.None? && env.manifestError.None?
                         && NoTileError(tileSize, m.width.value, m.height.value, env.tileErrors))
          && (r.Ok? ==> BundleMatches(r.value, imagePath, outputRoot, tileSize, m, paths, env.isoTime)))
    && (r.Ok? ==> env.mkdirError.None? && env.metadata.Ok? && !MissingDimensions(env.metadata.value))
  }

  /** `exportFigmaBundle`; a thrown error becomes `Err` with its message. */
  method ExportFigmaBundle(payload: Value, parseInt: string -> Option<int>, paths: PathOps, env: BundleEnv)
    returns (r: Result<Bundle, string>)
    ensures ImagePath(payload) == "" ==> r == Err(NoImageMsg)
    ensures ImagePath(payload) != "" && env.accessError.Some? ==> r == Err(env.accessError.value)
    ensures PastAccess(payload, env) && OutputRoot(payload, ImagePath(payload), paths) == "" ==>
              r == Err(NoOutputMsg)
    ensures PastAccess(payload, env) && OutputRoot(payload, ImagePath(payload), paths) != "" ==>
              ExportedInto(r, ImagePath(payload), OutputRoot(payload, ImagePath(payload), paths),
                           TileSizeOf(payload, parseInt), paths, env)
    ensures r.Ok? ==> PastAccess(payload, env) && OutputRoot(payload, ImagePath(payload), paths) != ""
  {
    var imagePath := ImagePath(payload);
    if imagePath == "" {
      return Err(NoImageMsg);
    }
    if env.accessError.Some? {
      return Err(env.accessError.value);
    }
    var outputRoot := OutputRoot(payload, imagePath, paths);
    if outputRoot == "" {
      return Err(NoOutputMsg);
    }
    r := ExportInto(imagePath, outputRoot, TileSizeOf(payload, parseInt), paths, env);
  }

  /** The export once the image and the output folder are known. */
  method ExportInto(imagePath: string, outputRoot: string, tileSize: nat, paths: PathOps, env: BundleEnv)
    returns (r: Result<Bundle, string>)
    requires tileSize > 0
    ensures ExportedInto(r, imagePath, outputRoot, tileSize, paths, env)
  {
    if env.mkdirError.Some? {
      return Err(env.mkdirError.value);
    }
    if env.metadata.Err? {
      return Err(env.metadata.error);
    }
    var metadata := env.metadata.value;
    if MissingDimensions(metadata) {
      return Err(DimensionsMsg);
    }
    if env.prepareError.Some? {
      return Err(env.prepareError.value);
    }
    r := WriteBundle(imagePath, outputRoot, tileSize, metadata, paths, env);
  }

  /** The tile loops, the manifest and its write, once the bundle folder is prepared. */
  method WriteBundle(imagePath: string, outputRoot: string, tileSize: nat, metadata: Metadata,
                     paths: PathOps, env: BundleEnv)
    returns (r: Result<Bundle, string>)
    requires tileSize > 0 && !MissingDimensions(metadata)
    ensures var width, height := metadata.width.value, metadata.height.value;
            && (!NoTileError(tileSize, width, height, env.tileErrors) ==>
                  FirstTileFailure(r, tileSize, width, height, env.tileErrors))
            && (NoTileError(tileSize, width, height, env.tileErrors) && env.manifestError.Some? ==>
                  r == Err(env.manifestError.value))
            && (r.Ok? <==> NoTileError(tileSize, width, height, env.tileErrors) && env.manifestError.None?)
    ensures r.Ok? ==> BundleMatches(r.value, imagePath, outputRoot, tileSize, metadata, paths, env.isoTime)
  {
    var width, height := metadata.width.value, metadata.height.value;
    var baseName := paths.name(imagePath);
    var bundleDir := JoinPath(outputRoot, baseName + "_figma_bundle");
    var tiles, failure := CutTiles(width, height, tileSize, env.tileErrors);
    if failure.Some? {
      return Err(failure.value);
    }
    var columns := CeilDiv(width, tileSize);
    var rows := CeilDiv(height, tileSize);
    GridCount(tileSize, width, height);
    var format := if metadata.format.Some? && metadata.format.value != "" then metadata.format.value else "png";
    var manifest := Manifest(1, paths.basename(imagePath), width, height, Lower(format),
                             baseName + " (PixelPort)", width, height,
                             tileSize, rows, columns, |tiles|, tiles, env.isoTime);
    var manifestPath := JoinPath(bundleDir, "manifest.json");
    if env.manifestError.Some? {
      return Err(env.manifestError.value);
    }
    r := Ok(Bundle(bundleDir, manifestPath, tileSize, |tiles|, rows, columns, width, height, manifest));
  }
}
