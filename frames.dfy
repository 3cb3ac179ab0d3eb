/** The two tables the refining core works on: the crude assay and the benchmark
    price table. They appear both as values (for the specification functions) and
    as the pandas data frames that the optimizer and the sensitivity engine update
    in place. */
module Frames {

  datatype Option<+T> = None | Some(value: T)

  /** A computation that either succeeds with a value or fails with an error. */
  datatype Result<+T, +E> = Success(value: T) | Failure(error: E)

  /** A cell of the assay's Cut column: pandas lets it hold a string or any other
      value (a number, NaN). */
  datatype Cut = Text(name: string) | NonText

  datatype AssayRow = AssayRow(cut: Cut, volume: real)

  /** An assay table: the names of its columns, whether pandas sees the Volume
      column as numeric, and its rows (the Cut and Volume cells of each). */
  datatype Assay = Assay(columns: set<string>, volumeNumeric: bool, rows: seq<AssayRow>)

  /** A price-table row: its Product cell and its numeric cells by column name.
      A column that is not a key of `cells` is an empty (NaN) cell of that row. */
  datatype PriceRow = PriceRow(product: string, cells: map<string, real>)

  datatype PriceTable = PriceTable(columns: set<string>, rows: seq<PriceRow>)

  /** The value of a row's cell in a column; None for an empty cell. */
  function CellAt(row: PriceRow, column: string): Option<real>
  {
    if column in row.cells then Some(row.cells[column]) else None
  }

  /** The row with its cell in `column` set to `v` (None empties the cell). */
  function SetCell(row: PriceRow, column: string, v: Option<real>): (r: PriceRow)
    ensures r.product == row.product
    ensures CellAt(r, column) == v
    ensures forall c :: c != column ==> CellAt(r, c) == CellAt(row, c)
  {
    match v
    case Some(x) => PriceRow(row.product, row.cells[column := x])
    case None => PriceRow(row.product, row.cells - {column})
  }

  /** The rows with the `column` cell of every row whose Product is `product` set
      to `v`; every other row and every other cell as before. */
  function AssignRows(rows: seq<PriceRow>, product: string, column: string, v: Option<real>): (r: seq<PriceRow>)
    ensures |r| == |rows|
    ensures forall i :: 0 <= i < |rows| ==> r[i].product == rows[i].product
    ensures forall i :: 0 <= i < |rows| && rows[i].product != product ==> r[i] == rows[i]
    ensures forall i :: 0 <= i < |rows| && rows[i].product == product ==> CellAt(r[i], column) == v
    ensures forall i, c :: 0 <= i < |rows| && c != column ==> CellAt(r[i], c) == CellAt(rows[i], c)
    decreases |rows|
  {
    if rows == [] then []
    else
      var head := if rows[0].product == product then SetCell(rows[0], column, v) else rows[0];
      [head] + AssignRows(rows[1..], product, column, v)
  }

  /** The table after pandas' `t.loc[t["Product"] == product, column] = v`. Like
      pandas, it adds `column` (empty everywhere else) when the table lacks it. */
  function WithProductCells(t: PriceTable, product: string, column: string, v: Option<real>): (r: PriceTable)
    ensures r.columns == t.columns + {column}
    ensures |r.rows| == |t.rows|
    ensures forall i :: 0 <= i < |t.rows| ==> r.rows[i].product == t.rows[i].product
    ensures forall i :: 0 <= i < |t.rows| && t.rows[i].product != product ==> r.rows[i] == t.rows[i]
    ensures forall i :: 0 <= i < |t.rows| && t.rows[i].product == product ==> CellAt(r.rows[i], column) == v
    ensures forall i, c :: 0 <= i < |t.rows| && c != column ==> CellAt(r.rows[i], c) == CellAt(t.rows[i], c)
  {
    PriceTable(t.columns + {column}, AssignRows(t.rows, product, column, v))
  }

  /** An assay data frame owned by the caller. Besides the caller's columns it may
      carry an "Allocated Product" column, which the optimizer assigns in place. */
  class AssayFrame {
    var columns: set<string>
    var volumeNumeric: bool
    var rows: seq<AssayRow>
    /** The "Allocated Product" column, once one has been assigned. */
    var allocation: Option<seq<string>>

    constructor (t: Assay)
      ensures Table() == t && allocation == None
    {
      columns, volumeNumeric, rows := t.columns, t.volumeNumeric, t.rows;
      allocation := None;
    }

    /** The caller's data: every column except "Allocated Product". */
    function Table(): Assay
      reads this
    {
      Assay(columns, volumeNumeric, rows)
    }

    /** pandas' `df["Allocated Product"] = column`. */
    method AssignAllocated(column: seq<string>)
      requires |column| == |rows|
      modifies this
      ensures Table() == old(Table())
      ensures allocation == Some(column)
    {
      allocation := Some(column);
    }
  }

  /** A price data frame. */
  class PriceFrame {
    var columns: set<string>
    var rows: seq<PriceRow>

    constructor (t: PriceTable)
      ensures Table() == t
    {
      columns, rows := t.columns, t.rows;
    }

    function Table(): PriceTable
      reads this
    {
      PriceTable(columns, rows)
    }

    /** pandas' `df.copy()`: a new frame with the same contents. */
    method Copy() returns (c: PriceFrame)
      ensures fresh(c)
      ensures c.Table() == Table()
    {
      c := new PriceFrame(Table());
    }

    /** pandas' `df.loc[df["Product"] == product, column] = v`, in place. */
    method AssignProductCells(product: string, column: string, v: Option<real>)
      modifies this
      ensures Table() == WithProductCells(old(Table()), product, column, v)
    {
      columns := columns + {column};
      rows := AssignRows(rows, product, column, v);
    }
  }
}
