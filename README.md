# Grid: a two-dimensional grid over one flat sequence

This project models `Grid<T>` from `index.ts`. A grid stores its cells in one flat
sequence, `entries`. It describes its shape with two counters, `rowCount` and
`columnCount`. Both counters must stay positive. The model proves four things:

- The guarded setters leave the grid untouched when they refuse a value.
- Construction goes through those setters and fails exactly when a count is not positive.
- The mapping `(x, y) ↦ y * rowCount + x` is a bijection between in-range coordinates and
  flat positions below `rowCount * columnCount`.
- Coordinate reads agree with index reads, and neither ever changes the grid.

Files:

- `wrappers.dfy` (module `Wrappers`): `Option` stands for JavaScript's `undefined` read result,
  `Result` and `Outcome` for an operation that may throw.
- `grid.dfy` (module `Grids`): the error kinds, the default dimensions, `isDefaultGrid`, the index
  mapping and class `Grid` with its accessors, setters, construction and the two reads.
- `grid_properties.dfy` (module `GridProperties`): lemmas about the mapping and the reads. It also holds
  `Layout`, an independent description of the two-dimensional view: a list of lines laid out one after
  another. Lemmas tie coordinate reads to that description. Last comes
  `ConstructionScenarios`, a client that replays the construction cases of `index.test.ts` against
  the contracts.

Conventions kept from the source:

- The first coordinate `x` is bounded by `rowCount`. The second coordinate `y` is bounded by
  `columnCount`. This is the reverse of the usual naming, but it is consistent: the lemmas show that
  the mapping covers the declared shape exactly once.
- The length of `entries` is not tied to the shape. The only class invariant (`Grid.Valid`) is
  `rowCount >= 1 && columnCount >= 1`. The test suite builds a 2x3 grid that holds one entry.
- `DIMENSION_OUT_OF_BOUNDS` carries the text `OUT_OF_BOUNDS`, not its own name
  (`GridError.Code`). That text is the tail of `COORDINATE_OUT_OF_BOUNDS`.
- The default counts `DEFAULT_ROW_COUNT` and `DEFAULT_COLUMN_COUNT` (index.ts:22-23) are the
  constants `DefaultRowCount` and `DefaultColumnCount`, both 1. The rows for `IsDefaultGrid` and
  the constructor state what they mean.
- A JavaScript constructor may throw, but a Dafny constructor cannot fail. So
  `new Grid(entries, rowCount, columnCount)` is the static method `Grid.Create`, which returns a
  `Result`. `Create` allocates a grid with the default shape, calls `SetRowCount`, and then calls
  `SetColumnCount`. The anonymous constructor is `new Grid(entries)` with the default counts.
- The fields `rowCount` and `columnCount` stand for the private `#rowCount` and `#columnCount`.
  `RowCount()` and `ColumnCount()` are the getters. `SetRowCount` and `SetColumnCount` are the
  setters.

## Model

| member | source | states |
|---|---|---|
| Grids.GridError.Code | index.ts:3-7 | each error kind's text is its enum string value; both bounds errors' texts end in `OUT_OF_BOUNDS`, and `EMPTY_ENTRIES` does not |
| Grids.IndexFromXYCoordinates | index.ts:61-63 | the position `y * xMax + x` round-trips: for `0 <= x < xMax` and `y >= 0` it is non-negative, and its remainder and quotient by `xMax` are `x` and `y` |
| Grids.IsDefaultGrid | index.ts:22-28 | a grid that is default (no entries, both counts equal to the default 1) satisfies the grid invariant |
| Grids.Grid.constructor | index.ts:65-73 | `new Grid(entries)` keeps the given entries with the 1x1 default shape; it is a default grid exactly when the entries are empty |
| Grids.Grid.Create | index.ts:65-73 | construction fails with `DimensionOutOfBounds` exactly when a count is ≤ 0; otherwise the new grid holds the given entries and counts and satisfies the invariant |
| Grids.Grid.RowCount | index.ts:33-36 | the row count getter returns a positive value on a valid grid |
| Grids.Grid.ColumnCount | index.ts:47-50 | the column count getter returns a positive value on a valid grid |
| Grids.Grid.SetRowCount | index.ts:37-45 | a value ≤ 0 fails with `DimensionOutOfBounds` and keeps the old row count; a positive value passes and the getter then returns it; entries and column count never change; the invariant is preserved |
| Grids.Grid.SetColumnCount | index.ts:51-59 | the same guard for the column count; entries and row count never change |
| Grids.Grid.CellByIndex | index.ts:74-80 | yields a value exactly when the index addresses a stored entry, and that value is the entry; never fails, and yields no value on empty entries |
| Grids.Grid.CellByCoordinates | index.ts:81-103 | fails with `CoordinateOutOfBounds` exactly when `x` is outside `[0, rowCount)` or `y` is outside `[0, columnCount)`, whatever the entries hold; otherwise it agrees with the index read at `y * rowCount + x` |
| GridProperties.IndexInjective | index.ts:61-63 | distinct in-range coordinates map to distinct flat positions |
| GridProperties.IndexWithinShape | index.ts:61-63 | every coordinate inside an `xMax` by `yMax` shape maps into `[0, xMax * yMax)` |
| GridProperties.IndexCoversShape | index.ts:61-63 | every flat position below `xMax * yMax` is the index of the in-range coordinate `(i % xMax, i / xMax)` |
| GridProperties.CoordinatesAgreeWithIndex | index.ts:101-102 | an in-range coordinate read succeeds and equals the index read at a position below `rowCount * columnCount` |
| GridProperties.FilledGridHasEveryCell | index.ts:101-102 | when the entries fill the shape, every in-range coordinate reads the entry stored at its row-major position |
| GridProperties.FilledGridReachesEveryEntry | index.ts:101-102 | when the entries fill the shape, entry `i` is read at coordinate `(i % rowCount, i / rowCount)` |
| GridProperties.LayoutLength | index.ts:61-63 | laying out `n` lines of `width` cells one after another gives `n * width` cells, the size the declared shape describes |
| GridProperties.LayoutAt | index.ts:61-63 | cell `x` of line `y` in that layout sits exactly at `y * width + x`, the position the index mapping computes; that position is non-negative and inside the layout |
| GridProperties.CoordinatesReadLayout | index.ts:81-103 | a grid whose entries are the layout of `columnCount` lines of `rowCount` cells reads cell `x` of line `y` at every in-range coordinate `(x, y)` |
| GridProperties.DefaultGridReads | index.ts:22-28 | on a default grid, `(0, 0)` reads no value and every other coordinate fails with `CoordinateOutOfBounds` |
| GridProperties.ErrorCodesDistinguishKinds | index.ts:3-7 | the three error kinds carry texts that differ under exact comparison; the dimension error's text is the coordinate error's text without its `COORDINATE_` prefix |

## Left out

- Diagnostics: the `console.error` and `console.warn` calls and the `ErrorMessages` templates (index.ts:9-20).
  These are logging and text formatting. The model keeps only the kind of error thrown. The "empty entries"
  warning of the index read has no counterpart. The `x`-before-`y` order of the coordinate checks can only be
  seen in those messages, because both checks throw the same kind. The model keeps the order in the body of
  `CellByCoordinates`, but no contract can tell the two apart. Grids.Grid.Create is in the same position: it
  checks the row count before the column count in its body, but both failures are `DimensionOutOfBounds`, so
  the order shows only in the `console.error` text.
- `EmptyEntries`: declared as an error kind, as in the source, but never produced. The source's throw for it is
  commented out.
- Growth at the edges (`grow`) and positional insertion of rows or columns (`insertAt`): `index.ts` defines neither
  operation, so the model follows the code and has neither.
- Grids.Grid.Create: does not model that the new grid shares the caller's array. The model's `entries` is a value
  sequence, so reference identity with the argument (`index.test.ts:24`) cannot be expressed.
- Grids.Grid.CellByIndex: JavaScript's `entries[index]` (index.ts:79, index.ts:102) returns `undefined` both for
  an index past the stored cells and for a stored `undefined` or an array hole. With the default type argument
  `Grid<CellDataType = void>` (index.ts:30) every stored cell is `undefined`. The model's `Option` keeps the two
  apart: `Some(v)` for a stored cell, `None` for a missing one. The source cannot make that distinction.
- JavaScript number semantics: floating-point counts and indices, `NaN`, non-integer indices, and optional chaining
  on a missing `entries` (index.ts:79). All counts and indices are `int`, and `entries` is always a sequence.
- The fields are public in Dafny. Assigning `rowCount` or `columnCount` directly bypasses the guard that the
  private fields get in the source. The model's invariant assumes callers use the setters.
