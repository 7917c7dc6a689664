/** Query result rows, as `run_query` returns them: one mapping from column name
    to value per row, in warehouse order. */
module Records {

  /** The column values the model distinguishes; serialisation treats them as opaque. */
  datatype Value = Null | Bool(b: bool) | Int(i: int) | Str(s: string)

  type Row = map<string, Value>

  /** How many rows reach the answer prompt and the response payload. */
  const RowCap: nat := 50

  /** `rows[:50]`: the first min(50, n) rows, in order. */
  function CapRows(rows: seq<Row>): (r: seq<Row>)
    ensures |r| == if |rows| < RowCap then |rows| else RowCap
    ensures r == rows[..|r|]
  {
    if |rows| <= RowCap then rows else rows[..RowCap]
  }
}
