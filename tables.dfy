/**
 * A report as the reconciliation sees it once it has been read: a header row
 * and data rows whose cells line up with the headers by position.
 */
module Tables {
  import opened Text
  import opened Cells
  import opened Numeric

  datatype Table = Table(headers: seq<string>, rows: seq<seq<Cell>>)

  /** Every row has one cell per header. */
  predicate WellFormed(t: Table) {
    forall i | 0 <= i < |t.rows| :: |t.rows[i]| == |t.headers|
  }

  /** Every header of the table loses its outer whitespace; the rows stay as they are. */
  function TrimHeaders(t: Table): (r: Table)
    ensures |r.headers| == |t.headers| && r.rows == t.rows
    ensures forall i | 0 <= i < |t.headers| :: r.headers[i] == Strip(t.headers[i])
    ensures WellFormed(t) ==> WellFormed(r)
  {
    Table(seq(|t.headers|, i requires 0 <= i < |t.headers| => Strip(t.headers[i])), t.rows)
  }

  /** The position of the first header called `name`. */
  function IndexOf(headers: seq<string>, name: string): (i: nat)
    requires name in headers
    ensures i < |headers| && headers[i] == name
    ensures forall j | 0 <= j < i :: headers[j] != name
  {
    if headers[0] == name then 0 else 1 + IndexOf(headers[1..], name)
  }

  /** Every row has a cell in column `col`. */
  predicate HasColumn(rows: seq<seq<Cell>>, col: nat) {
    forall i | 0 <= i < |rows| :: col < |rows[i]|
  }

  /** All rows but the last keep two columns, and the last row has both. */
  lemma FrontColumns(rows: seq<seq<Cell>>, a: nat, b: nat)
    requires HasColumn(rows, a) && HasColumn(rows, b) && rows != []
    ensures var front := rows[..|rows| - 1];
      HasColumn(front, a) && HasColumn(front, b) && a < |rows[|rows| - 1]| && b < |rows[|rows| - 1]|
  {
  }

  /** `df[col]`: the cells of one column, top to bottom. */
  function Column(rows: seq<seq<Cell>>, col: nat): (c: seq<Cell>)
    requires HasColumn(rows, col)
    ensures |c| == |rows| && forall i | 0 <= i < |rows| :: c[i] == rows[i][col]
  {
    seq(|rows|, i requires 0 <= i < |rows| => rows[i][col])
  }

  /** The rows with every cell of column `col` cleaned by `clean_numeric`. */
  function Cleaned(rows: seq<seq<Cell>>, col: nat): (r: seq<seq<Cell>>)
    requires HasColumn(rows, col)
    ensures |r| == |rows|
    ensures forall i | 0 <= i < |rows| :: r[i] == rows[i][col := CleanNumeric(rows[i][col])]
    ensures forall i | 0 <= i < |rows| :: |r[i]| == |rows[i]|
  {
    seq(|rows|, i requires 0 <= i < |rows| => rows[i][col := CleanNumeric(rows[i][col])])
  }

  /**
   * Cleaning a numeric column: every cell of column `col` is replaced, row
   * by row, by its cleaned value; nothing else changes.
   */
  method CleanColumn(rows: seq<seq<Cell>>, col: nat) returns (out: seq<seq<Cell>>)
    requires HasColumn(rows, col)
    ensures out == Cleaned(rows, col)
  {
    out := rows;
    for i := 0 to |rows|
      invariant |out| == |rows|
      invariant forall j | 0 <= j < i :: out[j] == rows[j][col := CleanNumeric(rows[j][col])]
      invariant forall j | i <= j < |rows| :: out[j] == rows[j]
    {
      out := out[i := out[i][col := CleanNumeric(out[i][col])]];
    }
  }

  /** In a well-formed table, every header position is a column of every row. */
  lemma HeaderIsColumn(t: Table, col: nat)
    requires WellFormed(t) && col < |t.headers|
    ensures HasColumn(t.rows, col)
  {
  }
}
