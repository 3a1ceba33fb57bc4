/** What the evaluator sees of the vector store: the shapes `search` returns
    and the fact that it may raise. The store itself (embedding, indexing,
    the database query) is not part of this model; it enters every
    operation as a function parameter. */
module VectorStore {
  import opened PyValues

  /** One DataFrame row, keyed by column name. */
  type Row = map<string, Value>

  /** A pandas DataFrame: its column index and its rows in result order. */
  datatype DataFrame = DataFrame(columns: seq<string>, rows: seq<Row>)

  /** `df.empty`: no rows or no columns. */
  predicate Empty(df: DataFrame) {
    |df.rows| == 0 || |df.columns| == 0
  }

  /** `row.get(col)`: `None` for a column the row lacks. */
  function Cell(row: Row, col: string): Value {
    if col in row then row[col] else VNone
  }

  /** The container `search` returns: `None`, a DataFrame, a list or tuple
      of results, or some other object. */
  datatype SearchResult =
    | NoResult
    | Frame(df: DataFrame)
    | Listed(items: seq<Value>)
    | Unrecognised

  /** A `search` call either returns a container or raises. */
  datatype SearchOutcome = Raised | Returned(result: SearchResult)

  /** `vec.search(question, limit=...)`. */
  type Search = (string, int) -> SearchOutcome
}
