/**
 * Running a generated statement against the backend: at most the first 100 rows are kept,
 * each row becomes a column-to-value mapping (or an error entry), and a backend failure
 * is turned into an error text instead of failing the item.
 */
module QueryExecutor {

  const MaxResultRows := 100
  const RowErrorKey := "error"

  /** A row as the backend returns it; `Unconvertible` is a row on which every conversion raises. */
  datatype Row = Convertible(fields: map<string, string>) | Unconvertible(reason: string)

  /** What one `session.sql(statement).collect()` call does, with the time it took. */
  datatype BackendOutcome =
    | Collected(rows: seq<Row>, elapsedMs: nat)
    | Raised(error: string, elapsedMs: nat)

  /** The item's `query_results`: empty when no statement ran, the converted rows, or an error text. */
  datatype QueryResults = NoResults | Serialized(rows: seq<map<string, string>>) | SqlError(text: string)

  datatype Execution = Execution(results: QueryResults, durationMs: nat)

  /** `row_to_dict`: the row's own mapping, or a single error entry when conversion raises. */
  function RowToDict(row: Row): (r: map<string, string>) {
    match row
    case Convertible(fields) => fields
    case Unconvertible(reason) => map[RowErrorKey := "Could not convert row: " + reason]
  }

  /** `qr[:100]` when there are more than 100 rows. */
  function CapRows(rows: seq<Row>): (capped: seq<Row>)
    ensures |capped| == if |rows| <= MaxResultRows then |rows| else MaxResultRows
    ensures capped == rows[..|capped|]
  {
    if |rows| > MaxResultRows then rows[..MaxResultRows] else rows
  }

  /** `[self.row_to_dict(r) for r in qr]`. */
  function ConvertRows(rows: seq<Row>): (r: seq<map<string, string>>) {
    if |rows| == 0 then [] else [RowToDict(rows[0])] + ConvertRows(rows[1..])
  }

  /** One execution of a non-empty statement. */
  function Execute(outcome: BackendOutcome): (e: Execution)
    ensures e.durationMs == outcome.elapsedMs
    ensures outcome.Raised? <==> e.results.SqlError?
  {
    match outcome
    case Collected(rows, elapsedMs) => Execution(Serialized(ConvertRows(CapRows(rows))), elapsedMs)
    case Raised(error, elapsedMs) => Execution(SqlError("SQL error: " + error), elapsedMs)
  }

  /** The conversion keeps the rows' order: entry k is row k's mapping, or its error entry. */
  lemma {:induction false} ConvertRowsAt(rows: seq<Row>)
    ensures |ConvertRows(rows)| == |rows|
    ensures forall k :: 0 <= k < |rows| ==>
      ConvertRows(rows)[k] == (match rows[k]
                               case Convertible(fields) => fields
                               case Unconvertible(reason) => map[RowErrorKey := "Could not convert row: " + reason])
  {
    if |rows| > 0 {
      ConvertRowsAt(rows[1..]);
    }
  }

  /**
   * What an execution records: a backend failure becomes "SQL error: " and the error; otherwise one
   * entry per kept row (the first 100 at most), in order, and the time the backend took.
   */
  lemma ExecuteRows(outcome: BackendOutcome)
    ensures var e := Execute(outcome);
      && e.durationMs == outcome.elapsedMs
      && (outcome.Raised? ==> e.results == SqlError("SQL error: " + outcome.error))
      && (outcome.Collected? ==>
            && e.results.Serialized?
            && |e.results.rows| == (if |outcome.rows| <= MaxResultRows then |outcome.rows| else MaxResultRows)
            && forall k :: 0 <= k < |e.results.rows| ==>
                 e.results.rows[k] == (match outcome.rows[k]
                                       case Convertible(fields) => fields
                                       case Unconvertible(reason) => map[RowErrorKey := "Could not convert row: " + reason]))
  {
    if outcome.Collected? {
      ConvertRowsAt(CapRows(outcome.rows));
    }
  }
}
