/**
 * The tabular values pandas hands to the converter: one cell per column of a
 * row, and a parsed file as its header plus its data rows.
 */
module Tables {

  /**
   * One scalar of a parsed file. Spreadsheet and CSV readers yield text, numbers
   * and missing values (NaN). A numeric amount is held in integer cents.
   */
  datatype Cell = Text(s: string) | Number(cents: int) | NaN

  /**
   * A parsed file: the header's column names and the data rows. A row that lacks
   * a column of the header reads as NaN there, as pandas pads short rows.
   */
  datatype RawTable = RawTable(columns: set<string>, rows: seq<map<string, Cell>>)

  /** The value in row `i` under column `c`. */
  function CellAt(t: RawTable, i: nat, c: string): Cell
    requires i < |t.rows|
  {
    if c in t.rows[i] then t.rows[i][c] else NaN
  }

  /** `df[c]`: the column `c`, one cell per row. */
  function Column(t: RawTable, c: string): (col: seq<Cell>)
    ensures |col| == |t.rows|
    ensures forall i :: 0 <= i < |col| ==> col[i] == CellAt(t, i, c)
  {
    seq(|t.rows|, i requires 0 <= i < |t.rows| => CellAt(t, i, c))
  }

  /** `Repeat(x, n)`: a column of `n` copies of `x` (a broadcast scalar). */
  function Repeat(x: Cell, n: nat): (col: seq<Cell>)
    ensures |col| == n
    ensures forall i :: 0 <= i < n ==> col[i] == x
  {
    seq(n, _ => x)
  }
}
