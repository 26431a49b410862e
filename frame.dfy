/**
 * The data frame the page builds from the table: a sequence of rows, a
 * derived column added in place, column projection, copying and boolean
 * selection on one column.
 */
module Frame {
  import opened Wrappers
  import opened Records

  /** A record together with its "Yield Increase (%)" cell; None until that column exists. */
  datatype Row = Row(record: Record, yieldIncrease: Option<Percent>)

  /** The two text columns the page filters on. */
  datatype Column = RegionColumn | ValueChainColumn

  function Cell(row: Row, col: Column): string
  {
    match col
    case RegionColumn => row.record.region
    case ValueChainColumn => row.record.valueChain
  }

  /** The rows of a frame built from records, before any derived column. */
  function FromRecords(data: seq<Record>): (rows: seq<Row>)
    ensures |rows| == |data|
    ensures forall i :: 0 <= i < |data| ==> rows[i].record == data[i] && rows[i].yieldIncrease.None?
  {
    seq(|data|, i requires 0 <= i < |data| => Row(data[i], None))
  }

  /** The rows after the "Yield Increase (%)" column is computed from each row's yields. */
  function WithYieldIncrease(rows: seq<Row>): (r: seq<Row>)
    ensures |r| == |rows|
    ensures forall i :: 0 <= i < |rows| ==>
      r[i].record == rows[i].record && r[i].yieldIncrease == Some(YieldIncrease(rows[i].record))
  {
    seq(|rows|, i requires 0 <= i < |rows| => Row(rows[i].record, Some(YieldIncrease(rows[i].record))))
  }

  /** A column as a sequence of cells, in row order. */
  function ColumnValues(rows: seq<Row>, col: Column): (vs: seq<string>)
    ensures |vs| == |rows|
    ensures forall i :: 0 <= i < |rows| ==> vs[i] == Cell(rows[i], col)
  {
    seq(|rows|, i requires 0 <= i < |rows| => Cell(rows[i], col))
  }

  /** `a` is obtained from `b` by deleting rows: nothing added, altered or reordered. */
  ghost predicate SubsequenceOf<T>(a: seq<T>, b: seq<T>)
    decreases |b|
  {
    if b == [] then a == []
    else (a != [] && a[0] == b[0] && SubsequenceOf(a[1..], b[1..])) || SubsequenceOf(a, b[1..])
  }

  /** The rows whose cell in `col` equals `value`, in their original order (a boolean mask). */
  function KeepWhere(rows: seq<Row>, col: Column, value: string): (kept: seq<Row>)
    ensures |kept| <= |rows|
    ensures forall x :: x in kept <==> x in rows && Cell(x, col) == value
    ensures SubsequenceOf(kept, rows)
  {
    if rows == [] then []
    else if Cell(rows[0], col) == value then [rows[0]] + KeepWhere(rows[1..], col, value)
    else KeepWhere(rows[1..], col, value)
  }

  /** A data frame object; the page mutates one in place and derives others from it. */
  class DataFrame {
    var rows: seq<Row>

    constructor (rows: seq<Row>)
      ensures this.rows == rows
    {
      this.rows := rows;
    }

    /** Adds the "Yield Increase (%)" column in place; records and order are kept. */
    method AddYieldIncreaseColumn()
      modifies this
      ensures rows == WithYieldIncrease(old(rows))
    {
      rows := WithYieldIncrease(rows);
    }

    /** An independent frame with the same rows. */
    method Copy() returns (c: DataFrame)
      ensures fresh(c) && c.rows == rows
    {
      c := new DataFrame(rows);
    }

    /** A new frame holding the rows whose `col` cell equals `value`. */
    method Where(col: Column, value: string) returns (r: DataFrame)
      ensures fresh(r) && r.rows == KeepWhere(rows, col, value)
    {
      r := new DataFrame(KeepWhere(rows, col, value));
    }
  }
}
