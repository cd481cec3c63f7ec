/**
 * How `predict` turns what the runner left in the output file into its
 * result, and the error values it returns instead of raising.
 */
module Results {

  /** One row of `csv.DictReader`: the header's column names to that row's fields. */
  type Row = map<string, string>

  /**
   * What the runner call comes back with. `output` is the text the runner
   * left in the output file; `rows` is that file as `csv.DictReader` reads it
   * back. A runner that raises may still have written to the file.
   */
  datatype EngineRun = Completed(output: string, rows: seq<Row>) | Crashed(output: string)

  /** What `predict` gives its caller. */
  datatype Outcome =
    | Score(value: string)              // `first_row[csv_data_column_label]`
    | ErrorList(messages: seq<string>)  // an error returned as a one-element list
    | MissingColumn(column: string)     // the KeyError raised by the lookup in the first row
    | EngineFailure                     // an exception raised by the runner, passed on

  const UndefinedProperty: string := "Error: Undefined property"
  const PmiLabelsNotFound: string := "Error: PMI labels not found"
  const CsvFileError: string := "Error: CSV file error"

  /** The first row's field in the label's column; a missing or empty first row is the CSV error. */
  function ReadResult(rows: seq<Row>, column: string): Outcome
  {
    if rows == [] || rows[0] == map[] then ErrorList([CsvFileError])
    else if column in rows[0] then Score(rows[0][column])
    else MissingColumn(column)
  }

  /** The outcome once the runner has been called. */
  function Finish(run: EngineRun, column: string): Outcome
  {
    match run
    case Crashed(_) => EngineFailure
    case Completed(_, rows) => ReadResult(rows, column)
  }

  /** Only the first row is read: rows after it never change the result. */
  lemma FirstRowOnly(row: Row, more: seq<Row>, column: string)
    ensures ReadResult([row] + more, column) == ReadResult([row], column)
  {
  }

  /**
   * A score is the first row's field in the label's column, and each of the
   * other two outcomes names the case that caused it.
   */
  lemma ReadOutcomes(rows: seq<Row>, column: string)
    ensures ReadResult(rows, column).Score? <==> rows != [] && rows[0] != map[] && column in rows[0]
    ensures ReadResult(rows, column).Score? ==> ReadResult(rows, column).value == rows[0][column]
    ensures ReadResult(rows, column) == ErrorList([CsvFileError]) <==> rows == [] || rows[0] == map[]
    ensures ReadResult(rows, column) == MissingColumn(column) <==> rows != [] && rows[0] != map[] && column !in rows[0]
  {
  }

  /**
   * An output file with header `QED,MW` and the row `0.82,312.4`: the QED
   * column gives 0.82, the MW column 312.4, an unknown column a lookup
   * failure; a file with the header only gives the CSV error.
   */
  lemma ReadExamples()
    ensures ReadResult([map["QED" := "0.82", "MW" := "312.4"]], "QED") == Score("0.82")
    ensures ReadResult([map["QED" := "0.82", "MW" := "312.4"]], "MW") == Score("312.4")
    ensures ReadResult([map["QED" := "0.82", "MW" := "312.4"]], "Unknown") == MissingColumn("Unknown")
    ensures ReadResult([], "QED") == ErrorList([CsvFileError])
  {
    var row: Row := map["QED" := "0.82", "MW" := "312.4"];
    assert "QED" in row;
    assert "MW" in row;
    assert "Unknown" !in row;
  }
}
