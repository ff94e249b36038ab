/** The portfolio table: named columns and rows, as a pandas `DataFrame` holds them after
    `read_csv`. Every cell is read as text. */
module Tables {

  /** One row as `iterrows` yields it: column name to cell. */
  type Row = map<string, string>

  function ColumnSet(columns: seq<string>): set<string> {
    set c | c in columns
  }

  /** Every row has a cell for every column and for no other name. */
  predicate Rectangular(columns: seq<string>, rows: seq<Row>) {
    forall i :: 0 <= i < |rows| ==> rows[i].Keys == ColumnSet(columns)
  }

  datatype Frame = Frame(columns: seq<string>, rows: seq<Row>)

  /** A data frame: the rows are keyed by exactly the frame's columns. */
  type Table = f: Frame | Rectangular(f.columns, f.rows) witness Frame([], [])
}
