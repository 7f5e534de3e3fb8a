/** The warehouse loader: `write_to_bigquery` as a decision tree over what
    the warehouse answers. */
module Loader {
  import opened Json
  import opened Transformer

  /** What the streaming insert does: it returns its list of row errors
      (each already rendered with `str`), or it raises. */
  datatype InsertOutcome = Inserted(rowErrors: seq<string>) | InsertRaised(message: string)

  /** The warehouse's answers for one call: whether the table lookup
      succeeded, whether the schema-detecting load job raised (and with
      what text), and what the streaming insert does. */
  datatype Answer = Answer(tableExists: bool, loadRaises: Option<string>, insert: InsertOutcome)

  /** Which write path a call took. */
  datatype Path = NoWrite | BulkLoad | StreamInsert

  datatype LoadReport = LoadReport(errors: seq<string>, path: Path)

  const ClientMissing: string := "BigQuery client not initialized"

  /** The single error reported for an exception raised while writing. */
  function WriteFailure(message: string): string {
    "Error writing to BigQuery: " + message
  }

  /** One rendered error per row error of the streaming insert. */
  function InsertErrors(rowErrors: seq<string>): (r: seq<string>)
    ensures |r| == |rowErrors|
    ensures forall i :: 0 <= i < |r| ==> r[i] == "Error: " + rowErrors[i]
  {
    if rowErrors == [] then [] else ["Error: " + rowErrors[0]] + InsertErrors(rowErrors[1..])
  }

  /** `write_to_bigquery(table, rows)` with the client present or not. */
  function WriteToBigQuery(table: string, rows: seq<Row>, clientPresent: bool, answer: Answer): (r: LoadReport)
    // an empty batch is a no-op, even without a client
    ensures rows == [] ==> r == LoadReport([], NoWrite)
    // a missing client is reported as one fixed error, without a write
    ensures rows != [] && !clientPresent ==> r == LoadReport([ClientMissing], NoWrite)
    // a missing table takes the load path and only it
    ensures r.path == BulkLoad <==> rows != [] && clientPresent && !answer.tableExists
    // an existing table takes the streaming path and only it
    ensures r.path == StreamInsert <==> rows != [] && clientPresent && answer.tableExists
    // a successful load reports nothing
    ensures r.path == BulkLoad && answer.loadRaises.None? ==> r.errors == []
    // every row error of the insert becomes one "Error: ..." entry
    ensures r.path == StreamInsert && answer.insert.Inserted? ==>
              |r.errors| == |answer.insert.rowErrors| &&
              forall i :: 0 <= i < |r.errors| ==> r.errors[i] == "Error: " + answer.insert.rowErrors[i]
    // an exception on either path becomes exactly one error
    ensures r.path == BulkLoad && answer.loadRaises.Some? ==> r.errors == [WriteFailure(answer.loadRaises.value)]
    ensures r.path == StreamInsert && answer.insert.InsertRaised? ==> r.errors == [WriteFailure(answer.insert.message)]
  {
    if rows == [] then LoadReport([], NoWrite)
    else if !clientPresent then LoadReport([ClientMissing], NoWrite)
    else if !answer.tableExists then
      match answer.loadRaises
      case None => LoadReport([], BulkLoad)
      case Some(message) => LoadReport([WriteFailure(message)], BulkLoad)
    else
      match answer.insert
      case Inserted(rowErrors) => LoadReport(InsertErrors(rowErrors), StreamInsert)
      case InsertRaised(message) => LoadReport([WriteFailure(message)], StreamInsert)
  }

  /** A write reports no error exactly when there was nothing to write, or
      the write path taken went through without raising and without row
      errors. */
  lemma WriteSucceeds(table: string, rows: seq<Row>, clientPresent: bool, answer: Answer)
    ensures WriteToBigQuery(table, rows, clientPresent, answer).errors == [] <==>
              rows == [] ||
              (clientPresent && !answer.tableExists && answer.loadRaises.None?) ||
              (clientPresent && answer.tableExists && answer.insert == Inserted([]))
  {
    var r := WriteToBigQuery(table, rows, clientPresent, answer);
    if rows != [] && clientPresent && answer.tableExists && answer.insert.Inserted? && r.errors == [] {
      assert |answer.insert.rowErrors| == 0;
    }
  }

  /** Writing to a table that does not exist yet never streams the rows: the
      load job is the only write, whatever the insert would have answered. */
  lemma MissingTableLoadsOnly(table: string, rows: seq<Row>, clientPresent: bool, answer: Answer, insert: InsertOutcome)
    requires rows != [] && clientPresent && !answer.tableExists
    ensures WriteToBigQuery(table, rows, clientPresent, answer).path == BulkLoad
    ensures WriteToBigQuery(table, rows, clientPresent, answer)
         == WriteToBigQuery(table, rows, clientPresent, answer.(insert := insert))
  {
  }
}
