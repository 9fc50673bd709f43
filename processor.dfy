/**
 * The batch loop of the processor: for every question row, a throttle check, a bounded
 * retry loop with exponential backoff around the analyst call, reply parsing, execution of
 * the generated statement, and the bookkeeping in the job status and the result list.
 *
 * The analyst and the backend are scripts: the n-th analyst call of a batch returns
 * `analyst(n)`, the n-th statement execution returns `backend(n)`. Every sleep, call and
 * status notification is logged as an Event, so that timing is stated over that log.
 */
module Processor {
  import opened Wrappers
  import opened ResponseContract
  import opened QueryExecutor
  import opened Status

  const DefaultMaxRetries: nat := 3
  const DefaultDelaySeconds: nat := 5
  const BackoffBaseSeconds: nat := 5
  const ThrottleThreshold: nat := 3
  const ThrottlePauseSeconds: nat := 30
  const NotConnectedMessage := "Not connected to Snowflake. Call test_connection() first."

  /**
   * One input record. A column that is missing or holds a falsy value is `None` / "":
   * "Id" and "id" are the two id columns, "Question" and "question" the two question columns.
   */
  datatype InputRow = InputRow(titleId: Option<string>, lowerId: Option<string>,
                               titleQuestion: string, lowerQuestion: string)

  /** A given id, or the row's 1-based position when the row has none. */
  datatype QuestionId = Given(value: string) | Position(index: nat)

  datatype QuestionItem = QuestionItem(id: QuestionId, text: string)

  datatype AnalystOutcome = Replied(reply: Reply, elapsedMs: nat) | Threw(error: string)

  /** The item's `full_response`: the reply itself, or the `{"error": last_error}` payload. */
  datatype FullResponse = RawReply(reply: Reply) | ErrorPayload(error: Option<string>)

  datatype ItemStatus = ItemSuccess | ItemFailed

  datatype ItemResult = ItemResult(
    questionId: QuestionId,
    question: string,
    interpretation: string,
    sql: string,
    queryResults: QueryResults,
    fullResponse: FullResponse,
    apiDurationMs: nat,
    sqlDurationMs: nat,
    status: ItemStatus,
    error: Option<string>)

  /** What the batch does to the outside world, in order. */
  datatype Event = Sleep(seconds: nat) | Ask(question: string) | RunSql(statement: string) | Notify(snapshot: Snapshot)

  /** The processor's settings for one run, the status callback's presence and the two scripts. */
  datatype Setup = Setup(maxRetries: nat, delay: nat, notify: bool,
                         analyst: nat -> AnalystOutcome, backend: nat -> BackendOutcome)

  /**
   * Everything the batch loop has built so far: the status fields, the consecutive-error
   * counter, how far each script has been read, the results and the event log.
   */
  datatype Batch = Batch(status: Snapshot, consecutive: nat, asked: nat, queried: nat,
                         results: seq<ItemResult>, trace: seq<Event>)

  /** How an attempt ended; after the whole retry loop, TransientFailure means the retries ran out. */
  datatype Verdict = Succeeded | SemanticFailure | TransientFailure

  datatype Attempt = Attempt(batch: Batch, verdict: Verdict, lastError: Option<string>)

  datatype RunResult =
    | NotConnected(message: string)
    | Finished(results: seq<ItemResult>, status: Snapshot, trace: seq<Event>)

  function QuestionIdOf(row: InputRow, idx: nat): (r: QuestionId) {
    if row.titleId.Some? then Given(row.titleId.value)
    else if row.lowerId.Some? then Given(row.lowerId.value)
    else Position(idx)
  }

  function QuestionOf(row: InputRow): (r: string) {
    if row.titleQuestion != "" then row.titleQuestion else row.lowerQuestion
  }

  function Pow2(n: nat): (r: nat) {
    if n == 0 then 1 else 2 * Pow2(n - 1)
  }

  /** The wait before attempt `retry` (1-based count of earlier attempts): 5, 10, 20, ... seconds. */
  function Backoff(retry: nat): (r: nat)
    requires retry >= 1
  {
    BackoffBaseSeconds * Pow2(retry - 1)
  }

  /** The record of an item whose retry loop did not succeed. */
  function FailedRecord(qid: QuestionId, question: string, lastError: Option<string>): (r: ItemResult) {
    ItemResult(qid, question, "", "", NoResults, ErrorPayload(lastError), 0, 0, ItemFailed, lastError)
  }

  /** The status as the batch starts it. */
  function Start(jobId: string, total: nat, startTime: nat): (r: Batch) {
    Batch(Snapshot(jobId, Processing, total, 0, 0, 0, 0, Some(startTime), None, None, None, None),
          0, 0, 0, [], [])
  }

  /** One pass of the retry loop's body for attempt number `retry` (0-based). */
  function AttemptOnce(setup: Setup, qid: QuestionId, question: string, retry: nat, b: Batch,
                       lastError: Option<string>): (r: Attempt)
  {
    var waited := if retry > 0 then b.trace + [Sleep(Backoff(retry))] else b.trace;
    var called := b.(asked := b.asked + 1, trace := waited + [Ask(question)]);
    match setup.analyst(b.asked)
    case Threw(error) =>
      Attempt(called.(consecutive := called.consecutive + 1), TransientFailure, Some(error))
    case Replied(reply, apiMs) =>
      match Parse(reply)
      case SemanticError(error) =>
        Attempt(called.(status := called.status.(error392708 := called.status.error392708 + 1),
                        consecutive := called.consecutive + 1),
                SemanticFailure, Some(error))
      case Malformed(error) =>
        Attempt(called.(consecutive := called.consecutive + 1), TransientFailure, Some(error))
      case Answer(interpretation, statement) =>
        Attempt(Answered(setup, qid, question, called, reply, apiMs, interpretation, statement), Succeeded, lastError)
  }

  /**
   * A usable reply: run the statement when there is one, record the success, count it and clear
   * the consecutive-error counter.
   */
  function Answered(setup: Setup, qid: QuestionId, question: string, called: Batch, reply: Reply, apiMs: nat,
                    interpretation: string, statement: string): (r: Batch)
  {
    var ran := if statement == "" then called
               else called.(queried := called.queried + 1, trace := called.trace + [RunSql(statement)]);
    var execution := if statement == "" then Execution(NoResults, 0)
                     else Execute(setup.backend(called.queried));
    var record := ItemResult(qid, question, interpretation, statement, execution.results,
                             RawReply(reply), apiMs, execution.durationMs, ItemSuccess, None);
    ran.(status := ran.status.(successful := ran.status.successful + 1),
         consecutive := 0,
         results := ran.results + [record])
  }

  /** The retry loop from attempt `retry` on: stop at the first attempt that is not transient. */
  function RetryFrom(setup: Setup, qid: QuestionId, question: string, retry: nat, b: Batch,
                     lastError: Option<string>): (r: Attempt)
    decreases setup.maxRetries - retry
  {
    if retry >= setup.maxRetries then Attempt(b, TransientFailure, lastError)
    else
      var a := AttemptOnce(setup, qid, question, retry, b, lastError);
      if a.verdict != TransientFailure then a
      else RetryFrom(setup, qid, question, retry + 1, a.batch, a.lastError)
  }

  /** The throttle check before an item: after three or more errors, one 30 s pause and a reset. */
  function Throttle(b: Batch): (r: Batch) {
    if b.consecutive >= ThrottleThreshold
    then b.(consecutive := 0, trace := b.trace + [Sleep(ThrottlePauseSeconds)])
    else b
  }

  /**
   * What follows the retry loop for row `i`: the failure record when it did not succeed,
   * the processed count, the callback and the delay before the next row.
   */
  function Conclude(setup: Setup, rows: seq<InputRow>, i: nat, qid: QuestionId, question: string,
                    a: Attempt): (r: Batch)
  {
    var recorded := if a.verdict == Succeeded then a.batch
                    else a.batch.(status := a.batch.status.(failed := a.batch.status.failed + 1),
                                  results := a.batch.results + [FailedRecord(qid, question, a.lastError)]);
    var counted := recorded.(status := recorded.status.(processed := recorded.status.processed + 1));
    var notified := if setup.notify then counted.(trace := counted.trace + [Notify(counted.status)])
                    else counted;
    if i + 1 < |rows| then notified.(trace := notified.trace + [Sleep(setup.delay)]) else notified
  }

  /** The batch loop's body for row `i` (0-based; the row's position is i + 1). */
  function ItemStep(setup: Setup, rows: seq<InputRow>, i: nat, b: Batch): (r: Batch)
    requires i < |rows|
  {
    var question := QuestionOf(rows[i]);
    if question == "" then b
    else
      var qid := QuestionIdOf(rows[i], i + 1);
      Conclude(setup, rows, i, qid, question, RetryFrom(setup, qid, question, 0, Throttle(b), None))
  }

  /** The batch loop from row `i` on. */
  function BatchFrom(setup: Setup, rows: seq<InputRow>, i: nat, b: Batch): (r: Batch)
    requires i <= |rows|
    decreases |rows| - i
  {
    if i == |rows| then b else BatchFrom(setup, rows, i + 1, ItemStep(setup, rows, i, b))
  }

  /** A whole `process_csv` call. */
  function Run(connected: bool, setup: Setup, rows: seq<InputRow>, jobId: string,
               startTime: nat, endTime: nat): (r: RunResult)
  {
    if !connected then NotConnected(NotConnectedMessage)
    else
      var b := BatchFrom(setup, rows, 0, Start(jobId, |rows|, startTime));
      var done := b.status.(completedAt := Some(endTime));
      Finished(b.results, done, if setup.notify then b.trace + [Notify(done)] else b.trace)
  }

  /** One pass of the retry loop's body: the backoff wait, the call, and what the reply leads to. */
  method TryOnce(setup: Setup, status: ProcessingStatus, qid: QuestionId, question: string, retry: nat,
                 consecutiveIn: nat, askedIn: nat, queriedIn: nat, resultsIn: seq<ItemResult>,
                 ghost traceIn: seq<Event>, lastErrorIn: Option<string>)
    returns (verdict: Verdict, lastError: Option<string>, consecutive: nat, asked: nat, queried: nat,
             results: seq<ItemResult>, ghost trace: seq<Event>)
    modifies status
    ensures AttemptOnce(setup, qid, question, retry,
                        Batch(old(status.Copy()), consecutiveIn, askedIn, queriedIn, resultsIn, traceIn), lastErrorIn)
            == Attempt(Batch(status.Copy(), consecutive, asked, queried, results, trace), verdict, lastError)
  {
    consecutive, queried, results, trace := consecutiveIn, queriedIn, resultsIn, traceIn;
    if retry > 0 {
      trace := trace + [Sleep(Backoff(retry))];
    }
    var outcome := setup.analyst(askedIn);
    asked := askedIn + 1;
    trace := trace + [Ask(question)];
    match outcome {
      case Threw(error) =>
        verdict, lastError := TransientFailure, Some(error);
        consecutive := consecutive + 1;
      case Replied(reply, apiMs) =>
        if reply.errorCode == Some(NonRetryableCode) {
          verdict, lastError := SemanticFailure, Some("Error " + NonRetryableCode + ": " + MessageText(reply.message));
          status.CountError392708();
          consecutive := consecutive + 1;
        } else if reply.message.Scalar? {
          verdict, lastError := TransientFailure, Some(NoGetError(reply.message.typeName));
          consecutive := consecutive + 1;
        } else {
          var items := if reply.message.Mapping? then reply.message.content.GetOr([]) else [];
          var interpretation, sqlStatement := ScanContent(items);
          var queryResults, sqlMs := NoResults, 0;
          if sqlStatement != "" {
            trace := trace + [RunSql(sqlStatement)];
            var execution := Execute(setup.backend(queried));
            queried := queried + 1;
            queryResults, sqlMs := execution.results, execution.durationMs;
          }
          results := results + [ItemResult(qid, question, interpretation, sqlStatement, queryResults,
                                           RawReply(reply), apiMs, sqlMs, ItemSuccess, None)];
          verdict, lastError := Succeeded, lastErrorIn;
          consecutive := 0;
          status.CountSuccess();
        }
    }
  }

  /** The retry loop for one question, updating the status in place. */
  method RetryQuestion(setup: Setup, status: ProcessingStatus, qid: QuestionId, question: string,
                       consecutiveIn: nat, askedIn: nat, queriedIn: nat, resultsIn: seq<ItemResult>,
                       ghost traceIn: seq<Event>)
    returns (success: bool, lastError: Option<string>, consecutive: nat, asked: nat, queried: nat,
             results: seq<ItemResult>, ghost trace: seq<Event>)
    modifies status
    ensures var a := RetryFrom(setup, qid, question, 0,
                               Batch(old(status.Copy()), consecutiveIn, askedIn, queriedIn, resultsIn, traceIn), None);
            && a.batch == Batch(status.Copy(), consecutive, asked, queried, results, trace)
            && (success <==> a.verdict == Succeeded)
            && lastError == a.lastError
  {
    success, lastError := false, None;
    consecutive, asked, queried, results, trace := consecutiveIn, askedIn, queriedIn, resultsIn, traceIn;
    ghost var target := RetryFrom(setup, qid, question, 0,
                                  Batch(status.Copy(), consecutive, asked, queried, results, trace), None);
    var retry := 0;
    while retry < setup.maxRetries
      invariant retry <= setup.maxRetries
      invariant !success
      invariant RetryFrom(setup, qid, question, retry,
                          Batch(status.Copy(), consecutive, asked, queried, results, trace), lastError) == target
      decreases setup.maxRetries - retry
    {
      var verdict;
      verdict, lastError, consecutive, asked, queried, results, trace :=
        TryOnce(setup, status, qid, question, retry, consecutive, asked, queried, results, trace, lastError);
      if verdict != TransientFailure {
        success := verdict == Succeeded;
        break;
      }
      retry := retry + 1;
    }
  }

  /** The batch loop's body for row `i`, updating the status in place. */
  method ProcessRow(setup: Setup, status: ProcessingStatus, rows: seq<InputRow>, i: nat,
                    consecutiveIn: nat, askedIn: nat, queriedIn: nat, resultsIn: seq<ItemResult>,
                    ghost traceIn: seq<Event>)
    returns (consecutiveErrors: nat, asked: nat, queried: nat, results: seq<ItemResult>, ghost trace: seq<Event>)
    requires i < |rows|
    modifies status
    ensures ItemStep(setup, rows, i, Batch(old(status.Copy()), consecutiveIn, askedIn, queriedIn, resultsIn, traceIn))
            == Batch(status.Copy(), consecutiveErrors, asked, queried, results, trace)
  {
    consecutiveErrors, asked, queried, results, trace := consecutiveIn, askedIn, queriedIn, resultsIn, traceIn;
    ghost var before := Batch(status.Copy(), consecutiveErrors, asked, queried, results, trace);
    var row := rows[i];
    var question := QuestionOf(row);
    if question == "" {
      return;
    }
    var qid := QuestionIdOf(row, i + 1);
    if consecutiveErrors >= ThrottleThreshold {
      trace := trace + [Sleep(ThrottlePauseSeconds)];
      consecutiveErrors := 0;
    }
    assert Batch(status.Copy(), consecutiveErrors, asked, queried, results, trace) == Throttle(before);
    var success, lastError;
    success, lastError, consecutiveErrors, asked, queried, results, trace :=
      RetryQuestion(setup, status, qid, question, consecutiveErrors, asked, queried, results, trace);
    ghost var a := RetryFrom(setup, qid, question, 0, Throttle(before), None);
    if !success {
      status.CountFailure();
      results := results + [FailedRecord(qid, question, lastError)];
    }
    status.CountProcessed();
    if setup.notify {
      trace := trace + [Notify(status.Copy())];
    }
    if i + 1 < |rows| {
      trace := trace + [Sleep(setup.delay)];
    }
    assert Batch(status.Copy(), consecutiveErrors, asked, queried, results, trace)
           == Conclude(setup, rows, i, qid, question, a);
  }

  class CortexProcessor {
    /** Whether a backend session is open (`self.session` is set). */
    var connected: bool
    var maxRetries: nat
    var delayBetweenRequests: nat

    constructor ()
      ensures !connected
      ensures maxRetries == DefaultMaxRetries && delayBetweenRequests == DefaultDelaySeconds
    {
      connected := false;
      maxRetries := DefaultMaxRetries;
      delayBetweenRequests := DefaultDelaySeconds;
    }

    /**
     * `process_csv` over already-read rows. `notify` says whether a status callback was given;
     * `startTime` and `endTime` are the clock readings for `started_at` and `completed_at`.
     * On success the status object is the one every callback received.
     */
    method ProcessCsv(rows: seq<InputRow>, jobId: string, notify: bool,
                      analyst: nat -> AnalystOutcome, backend: nat -> BackendOutcome,
                      startTime: nat, endTime: nat)
      returns (outcome: Result<seq<ItemResult>, string>, status: ProcessingStatus?, ghost trace: seq<Event>)
      ensures outcome.Failure? <==> !connected
      ensures outcome.Failure? ==> status == null && trace == []
      ensures var run := Run(connected, Setup(maxRetries, delayBetweenRequests, notify, analyst, backend),
                             rows, jobId, startTime, endTime);
              if outcome.Failure? then run == NotConnected(outcome.error)
              else status != null && fresh(status) && run == Finished(outcome.value, status.Copy(), trace)
    {
      if !connected {
        return Failure(NotConnectedMessage), null, [];
      }
      var setup := Setup(maxRetries, delayBetweenRequests, notify, analyst, backend);
      status := new ProcessingStatus(jobId, Processing, |rows|, Some(startTime));
      var results: seq<ItemResult> := [];
      var consecutiveErrors: nat, asked: nat, queried: nat := 0, 0, 0;
      trace := [];
      ghost var start := Start(jobId, |rows|, startTime);
      assert Batch(status.Copy(), consecutiveErrors, asked, queried, results, trace) == start;
      var i := 0;
      while i < |rows|
        invariant 0 <= i <= |rows|
        invariant BatchFrom(setup, rows, i, Batch(status.Copy(), consecutiveErrors, asked, queried, results, trace))
                  == BatchFrom(setup, rows, 0, start)
      {
        consecutiveErrors, asked, queried, results, trace :=
          ProcessRow(setup, status, rows, i, consecutiveErrors, asked, queried, results, trace);
        i := i + 1;
      }
      status.Complete(endTime);
      if notify {
        trace := trace + [Notify(status.Copy())];
      }
      outcome := Success(results);
    }
  }
}
