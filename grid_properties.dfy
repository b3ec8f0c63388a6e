/**
 * Properties of the grid model: the coordinate-to-index mapping is a
 * bijection between the declared shape and the flat positions below
 * `rowCount * columnCount`, coordinate reads agree with index reads, and the
 * default grid has exactly one addressable (and empty) cell.
 */
module GridProperties {
  import opened Wrappers
  import opened Grids

  /** Distinct in-range coordinates map to distinct flat positions. */
  lemma IndexInjective(x1: int, y1: int, x2: int, y2: int, xMax: int)
    requires 1 <= xMax
    requires 0 <= x1 < xMax && 0 <= y1
    requires 0 <= x2 < xMax && 0 <= y2
    requires IndexFromXYCoordinates(x1, y1, xMax) == IndexFromXYCoordinates(x2, y2, xMax)
    ensures x1 == x2 && y1 == y2
  {
    var i1 := IndexFromXYCoordinates(x1, y1, xMax);
    var i2 := IndexFromXYCoordinates(x2, y2, xMax);
    assert i1 % xMax == x1 && i1 / xMax == y1;
    assert i2 % xMax == x2 && i2 / xMax == y2;
  }

  /** Every coordinate inside an `xMax` by `yMax` shape lands below `xMax * yMax`. */
  lemma IndexWithinShape(x: int, y: int, xMax: int, yMax: int)
    requires 0 <= x < xMax && 0 <= y < yMax
    ensures 0 <= IndexFromXYCoordinates(x, y, xMax) < xMax * yMax
  {
    MultipleAtLeast(yMax - y, xMax);
    assert xMax * yMax == y * xMax + (yMax - y) * xMax;
  }

  /** Every flat position below `xMax * yMax` is the image of exactly one in-range coordinate. */
  lemma IndexCoversShape(i: int, xMax: int, yMax: int)
    requires 1 <= xMax && 0 <= i < xMax * yMax
    ensures 0 <= i % xMax < xMax && 0 <= i / xMax < yMax
    ensures IndexFromXYCoordinates(i % xMax, i / xMax, xMax) == i
  {
    var q, r := i / xMax, i % xMax;
    assert i == q * xMax + r;
    if q >= yMax {
      MultipleAtLeast(q - yMax + 1, xMax);
    }
  }

  /**
   * An in-range coordinate read succeeds, addresses a position inside the
   * declared shape, and returns exactly what the index read at that position
   * returns.
   */
  lemma CoordinatesAgreeWithIndex<T>(grid: Grid<T>, x: int, y: int)
    requires 0 <= x < grid.rowCount && 0 <= y < grid.columnCount
    ensures var index := IndexFromXYCoordinates(x, y, grid.rowCount);
            && 0 <= index < grid.rowCount * grid.columnCount
            && grid.CellByCoordinates(x, y) == Success(grid.CellByIndex(index))
  {
    IndexWithinShape(x, y, grid.rowCount, grid.columnCount);
  }

  /**
   * When the entries fill the declared shape, every in-range coordinate holds
   * a cell: the one stored at its row-major flat position.
   */
  lemma FilledGridHasEveryCell<T>(grid: Grid<T>, x: int, y: int)
    requires |grid.entries| == grid.rowCount * grid.columnCount
    requires 0 <= x < grid.rowCount && 0 <= y < grid.columnCount
    ensures var index := IndexFromXYCoordinates(x, y, grid.rowCount);
            && index < |grid.entries|
            && grid.CellByCoordinates(x, y) == Success(Some(grid.entries[index]))
  {
    CoordinatesAgreeWithIndex(grid, x, y);
  }

  /**
   * When the entries fill the declared shape, every stored cell is reachable
   * by coordinates: entry `i` sits at `(i % rowCount, i / rowCount)`.
   */
  lemma FilledGridReachesEveryEntry<T>(grid: Grid<T>, i: int)
    requires grid.Valid()
    requires |grid.entries| == grid.rowCount * grid.columnCount
    requires 0 <= i < |grid.entries|
    ensures grid.CellByCoordinates(i % grid.rowCount, i / grid.rowCount)
            == Success(Some(grid.entries[i]))
  {
    IndexCoversShape(i, grid.rowCount, grid.columnCount);
  }

  /**
   * A reference description of the two-dimensional view: the flat sequence
   * formed by laying out `lines` one after another, where line `y` holds the
   * cells `(0, y)`, `(1, y)`, ... in order.
   */
  function Layout<T>(lines: seq<seq<T>>): seq<T>
  {
    if lines == [] then [] else lines[0] + Layout(lines[1..])
  }

  /** Every line holds exactly `width` cells. */
  ghost predicate Uniform<T>(lines: seq<seq<T>>, width: int)
  {
    forall k :: 0 <= k < |lines| ==> |lines[k]| == width
  }

  /** Laying out `|lines|` lines of `width` cells gives `|lines| * width` cells. */
  lemma {:induction false} LayoutLength<T>(lines: seq<seq<T>>, width: int)
    requires Uniform(lines, width)
    ensures |Layout(lines)| == |lines| * width
  {
    if lines != [] {
      LayoutLength(lines[1..], width);
    }
  }

  /**
   * Cell `x` of line `y` sits at flat position `y * width + x`, the position
   * `IndexFromXYCoordinates(x, y, width)` computes.
   */
  lemma {:induction false} LayoutAt<T>(lines: seq<seq<T>>, width: int, x: int, y: int)
    requires Uniform(lines, width)
    requires 0 <= x < width && 0 <= y < |lines|
    ensures 0 <= y * width + x < |Layout(lines)|
    ensures Layout(lines)[y * width + x] == lines[y][x]
  {
    LayoutLength(lines, width);
    if y > 0 {
      LayoutAt(lines[1..], width, x, y - 1);
      assert y * width + x == width + ((y - 1) * width + x);
    }
  }

  /**
   * A grid whose entries are the layout of `columnCount` lines of `rowCount`
   * cells reads, at every in-range coordinate, exactly the cell of the
   * two-dimensional view.
   */
  lemma CoordinatesReadLayout<T>(grid: Grid<T>, lines: seq<seq<T>>, x: int, y: int)
    requires grid.entries == Layout(lines)
    requires Uniform(lines, grid.rowCount) && |lines| == grid.columnCount
    requires 0 <= x < grid.rowCount && 0 <= y < grid.columnCount
    ensures grid.CellByCoordinates(x, y) == Success(Some(lines[y][x]))
  {
    LayoutAt(lines, grid.rowCount, x, y);
  }

  /**
   * On the default grid the only coordinate that does not fail is `(0, 0)`,
   * and it reads no value.
   */
  lemma DefaultGridReads<T>(grid: Grid<T>, x: int, y: int)
    requires IsDefaultGrid(grid)
    ensures grid.CellByCoordinates(x, y)
            == if x == 0 && y == 0 then Success(None) else Failure(CoordinateOutOfBounds)
  {
  }

  /**
   * The three error texts differ from one another. Only an exact comparison
   * tells the two bounds errors apart: one text ends the other (see `Code`).
   */
  lemma ErrorCodesDistinguishKinds(a: GridError, b: GridError)
    ensures a.Code() == b.Code() ==> a == b
    ensures DimensionOutOfBounds.Code() == CoordinateOutOfBounds.Code()[11..]
  {
  }

  /** The construction scenarios of index.test.ts, as a client of the contracts. */
  method ConstructionScenarios()
  {
    var bad := Grid<string>.Create([], 0);
    assert bad == Failure(DimensionOutOfBounds);
    bad := Grid<string>.Create([], 1, 0);
    assert bad == Failure(DimensionOutOfBounds);
    bad := Grid<string>.Create([], 0, 0);
    assert bad == Failure(DimensionOutOfBounds);

    var plain := new Grid<string>();
    assert plain.entries == [] && plain.RowCount() == 1 && plain.ColumnCount() == 1;
    assert IsDefaultGrid(plain);

    var given := Grid<string>.Create(["test"], 2, 3);
    assert given.Success?;
    var grid := given.value;
    assert grid.entries == ["test"] && grid.RowCount() == 2 && grid.ColumnCount() == 3;
    assert !IsDefaultGrid(grid);
    assert grid.CellByCoordinates(0, 0) == Success(Some("test"));
    assert grid.CellByCoordinates(1, 2) == Success(None);
    assert grid.CellByCoordinates(2, 0) == Failure(CoordinateOutOfBounds);
  }
}
