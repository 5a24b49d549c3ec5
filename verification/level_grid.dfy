/** The level's tile grid before it is handed to the world builder: ROWS x COLS
    cells, all -1 (no tile), then overwritten cell by cell from the rows of the
    level file, already parsed into integers. */
module LevelGrid {

  /** Sentinel for a cell with no tile. */
  const NoTile: int := -1

  /** Whether parsed row x has a column y. */
  predicate Supplied(parsed: seq<seq<int>>, x: int, y: int)
  {
    0 <= x < |parsed| && 0 <= y < |parsed[x]|
  }

  /** Reference value of cell (x, y) after the grid is reset and filled from parsed rows. */
  function LoadedCell(parsed: seq<seq<int>>, x: int, y: int): int
  {
    if Supplied(parsed, x, y) then parsed[x][y] else NoTile
  }

  /** The parsed rows fit in a rows x cols grid (otherwise the source fails with an index error). */
  predicate Fits(parsed: seq<seq<int>>, rows: nat, cols: nat)
  {
    |parsed| <= rows && forall x :: 0 <= x < |parsed| ==> |parsed[x]| <= cols
  }

  /** Build the empty tile list: rows rows of cols entries, every entry -1. */
  method ResetLevel(rows: nat, cols: nat) returns (data: array2<int>)
    ensures fresh(data)
    ensures data.Length0 == rows && data.Length1 == cols
    ensures forall x, y :: 0 <= x < rows && 0 <= y < cols ==> data[x, y] == NoTile
  {
    data := new int[rows, cols];
    for row := 0 to rows
      invariant forall x, y :: 0 <= x < row && 0 <= y < cols ==> data[x, y] == NoTile
    {
      for col := 0 to cols
        invariant forall x, y :: 0 <= x < row && 0 <= y < cols ==> data[x, y] == NoTile
        invariant forall y :: 0 <= y < col ==> data[row, y] == NoTile
      {
        data[row, col] := NoTile;
      }
    }
  }

  /** Overwrite cell [x][y] with the y-th value of the x-th parsed row; cells
      no row supplies keep their value. */
  method FillGrid(data: array2<int>, parsed: seq<seq<int>>)
    requires Fits(parsed, data.Length0, data.Length1)
    modifies data
    ensures forall x, y :: 0 <= x < data.Length0 && 0 <= y < data.Length1 ==>
              data[x, y] == if Supplied(parsed, x, y) then parsed[x][y] else old(data[x, y])
  {
    for x := 0 to |parsed|
      invariant forall i, j :: 0 <= i < data.Length0 && 0 <= j < data.Length1 ==>
                  data[i, j] == if i < x && Supplied(parsed, i, j) then parsed[i][j] else old(data[i, j])
    {
      var row := parsed[x];
      for y := 0 to |row|
        invariant forall i, j :: 0 <= i < data.Length0 && 0 <= j < data.Length1 ==>
                    data[i, j] == if (i < x || (i == x && j < y)) && Supplied(parsed, i, j)
                                  then parsed[i][j] else old(data[i, j])
      {
        data[x, y] := row[y];
      }
    }
  }

  /** Reset followed by fill, as done when a level is loaded: every supplied
      cell holds its parsed value and every other cell is -1. */
  method LoadLevelData(rows: nat, cols: nat, parsed: seq<seq<int>>) returns (data: array2<int>)
    requires Fits(parsed, rows, cols)
    ensures fresh(data)
    ensures data.Length0 == rows && data.Length1 == cols
    ensures forall x, y :: 0 <= x < rows && 0 <= y < cols ==> data[x, y] == LoadedCell(parsed, x, y)
  {
    data := ResetLevel(rows, cols);
    FillGrid(data, parsed);
  }
}
