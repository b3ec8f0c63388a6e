/**
 * A generic two-dimensional grid stored in one flat sequence of cells.
 *
 * The shape is described by two counters, `rowCount` and `columnCount`, that
 * must stay positive. The length of the flat sequence is deliberately NOT tied
 * to the shape: a grid may declare a 2x3 shape and hold a single entry, and a
 * read outside the stored cells yields `None`.
 *
 * Coordinates follow the convention of index.ts: the first coordinate `x`
 * is bounded by `rowCount`, the second coordinate `y` by `columnCount`, and
 * `(x, y)` lives at flat position `y * rowCount + x`.
 */
module Grids {
  import opened Wrappers

  /** The kinds of error a grid operation throws. */
  datatype GridError = DimensionOutOfBounds | CoordinateOutOfBounds | EmptyEntries
  {
    /**
     * The text a thrown error carries (the enum's string value). Both bounds
     * errors end in "OUT_OF_BOUNDS", so a match on that text, as a substring,
     * accepts either of them.
     */
    function Code(): (code: string)
      ensures |code| >= 13
      ensures code[|code| - 13..] == "OUT_OF_BOUNDS" <==> this != EmptyEntries
    {
      match this
      case DimensionOutOfBounds => "OUT_OF_BOUNDS"
      case CoordinateOutOfBounds => "COORDINATE_OUT_OF_BOUNDS"
      case EmptyEntries => "EMPTY_ENTRIES"
    }
  }

  const DefaultRowCount: int := 1
  const DefaultColumnCount: int := 1

  /** A positive multiple of a positive number is at least that number. */
  lemma MultipleAtLeast(k: int, m: int)
    requires k >= 1 && m >= 1
    ensures k * m >= m
  {
  }

  /** Euclidean division of `y * m + x` by `m` gives back `y` and `x` when `0 <= x < m`. */
  lemma QuotientAndRemainder(x: int, y: int, m: int)
    requires 1 <= m && 0 <= x < m && 0 <= y
    ensures 0 <= y * m + x
    ensures (y * m + x) % m == x && (y * m + x) / m == y
  {
    var i := y * m + x;
    var q, r := i / m, i % m;
    assert i == q * m + r && 0 <= r < m;
    assert (y - q) * m == r - x;
    if q < y {
      MultipleAtLeast(y - q, m);
    } else if q > y {
      assert (q - y) * m == x - r;
      MultipleAtLeast(q - y, m);
    }
  }

  /**
   * The flat position of coordinate `(x, y)` when the first coordinate ranges
   * over `[0, xMax)`. The mapping round-trips: for an in-range first
   * coordinate and a non-negative second one, the position is non-negative and
   * its remainder and quotient by `xMax` are `x` and `y`.
   */
  function IndexFromXYCoordinates(x: int, y: int, xMax: int): (i: int)
    ensures 1 <= xMax && 0 <= x < xMax && 0 <= y ==> 0 <= i && i % xMax == x && i / xMax == y
  {
    if 1 <= xMax && 0 <= x < xMax && 0 <= y then
      QuotientAndRemainder(x, y, xMax);
      y * xMax + x
    else
      y * xMax + x
  }

  /** An unconfigured grid: no entries and the default 1x1 shape. */
  predicate IsDefaultGrid<T>(grid: Grid<T>)
    reads grid
    ensures IsDefaultGrid(grid) ==> grid.Valid()
  {
    && grid.entries == []
    && grid.rowCount == DefaultRowCount
    && grid.columnCount == DefaultColumnCount
  }

  class Grid<T> {
    /** The flat cell sequence; the owner may read and replace it freely. */
    var entries: seq<T>
    /** The private row counter behind the `rowCount` accessor pair. */
    var rowCount: int
    /** The private column counter behind the `columnCount` accessor pair. */
    var columnCount: int

    /** The only invariant the grid keeps: both counters are positive. */
    ghost predicate Valid()
      reads this
    {
      rowCount >= 1 && columnCount >= 1
    }

    /** `new Grid(entries)`: the given entries and the default 1x1 shape. */
    constructor (entries: seq<T> := [])
      ensures Valid()
      ensures this.entries == entries
      ensures rowCount == DefaultRowCount && columnCount == DefaultColumnCount
      ensures IsDefaultGrid(this) <==> entries == []
    {
      this.entries := entries;
      rowCount := DefaultRowCount;
      columnCount := DefaultColumnCount;
    }

    /**
     * `new Grid(entries, rowCount, columnCount)`: stores the entries, then sets
     * the row count and then the column count through their guarded setters,
     * so a non-positive row count is reported before the column count is looked at.
     */
    static method Create(entries: seq<T> := [], rowCount: int := DefaultRowCount,
                         columnCount: int := DefaultColumnCount)
      returns (result: Result<Grid<T>, GridError>)
      ensures result.Failure? <==> rowCount <= 0 || columnCount <= 0
      ensures result.Failure? ==> result.error == DimensionOutOfBounds
      ensures result.Success? ==> fresh(result.value) && result.value.Valid()
      ensures result.Success? ==> result.value.entries == entries
      ensures result.Success? ==> result.value.RowCount() == rowCount
      ensures result.Success? ==> result.value.ColumnCount() == columnCount
    {
      var grid := new Grid(entries);
      var rows := grid.SetRowCount(rowCount);
      if rows.Fail? {
        return Failure(rows.error);
      }
      var columns := grid.SetColumnCount(columnCount);
      if columns.Fail? {
        return Failure(columns.error);
      }
      return Success(grid);
    }

    /** The `rowCount` getter. */
    function RowCount(): (n: int)
      reads this
      ensures Valid() ==> n >= 1
    {
      rowCount
    }

    /** The `columnCount` getter. */
    function ColumnCount(): (n: int)
      reads this
      ensures Valid() ==> n >= 1
    {
      columnCount
    }

    /**
     * The `rowCount` setter: a non-positive value is refused with
     * `DimensionOutOfBounds` before anything is assigned.
     */
    method SetRowCount(value: int) returns (outcome: Outcome<GridError>)
      modifies this`rowCount
      ensures value <= 0 ==> outcome == Fail(DimensionOutOfBounds) && rowCount == old(rowCount)
      ensures value > 0 ==> outcome == Pass && RowCount() == value
      ensures entries == old(entries) && columnCount == old(columnCount)
      ensures old(Valid()) ==> Valid()
    {
      if value <= 0 {
        return Fail(DimensionOutOfBounds);
      }
      rowCount := value;
      return Pass;
    }

    /**
     * The `columnCount` setter: a non-positive value is refused with
     * `DimensionOutOfBounds` before anything is assigned.
     */
    method SetColumnCount(value: int) returns (outcome: Outcome<GridError>)
      modifies this`columnCount
      ensures value <= 0 ==> outcome == Fail(DimensionOutOfBounds) && columnCount == old(columnCount)
      ensures value > 0 ==> outcome == Pass && ColumnCount() == value
      ensures entries == old(entries) && rowCount == old(rowCount)
      ensures old(Valid()) ==> Valid()
    {
      if value <= 0 {
        return Fail(DimensionOutOfBounds);
      }
      columnCount := value;
      return Pass;
    }

    /**
     * The cell at flat position `index`, or `None` when no stored cell is
     * there. Never fails, not even on an empty grid.
     */
    function CellByIndex(index: int): (cell: Option<T>)
      reads this
      ensures cell.Some? <==> 0 <= index < |entries|
      ensures cell.Some? ==> cell.value == entries[index]
      ensures entries == [] ==> cell == None
    {
      if 0 <= index < |entries| then Some(entries[index]) else None
    }

    /**
     * The cell at coordinate `(x, y)`. `x` is checked against the row count
     * first, then `y` against the column count; either failure is
     * `CoordinateOutOfBounds`, whatever the entries hold. An in-range
     * coordinate reads its flat position, which may lie past the stored cells.
     */
    function CellByCoordinates(x: int, y: int): (cell: Result<Option<T>, GridError>)
      reads this
      ensures cell.Failure? <==> !(0 <= x < rowCount) || !(0 <= y < columnCount)
      ensures cell.Failure? ==> cell.error == CoordinateOutOfBounds
      ensures cell.Success? ==> cell.value == CellByIndex(IndexFromXYCoordinates(x, y, rowCount))
    {
      if x < 0 || x >= rowCount then
        Failure(CoordinateOutOfBounds)
      else if y < 0 || y >= columnCount then
        Failure(CoordinateOutOfBounds)
      else
        var index := IndexFromXYCoordinates(x, y, rowCount);
        if 0 <= index < |entries| then Success(Some(entries[index])) else Success(None)
    }
  }
}
