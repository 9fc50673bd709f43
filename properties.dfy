/**
 * What the batch loop promises, stated over the specification functions of module Processor
 * (which the methods there are proved to follow): the status counters stay balanced at every
 * callback, results follow the input order, the retry loop's calls and waits follow the
 * backoff schedule, a 392708 reply ends an item at once, and failures feed the throttle.
 */
module Properties {
  import opened Wrappers
  import opened ResponseContract
  import opened QueryExecutor
  import opened Status
  import opened Processor

  /** How the retry loop treats one analyst outcome. */
  function Classify(o: AnalystOutcome): (r: Verdict) {
    match o
    case Threw(_) => TransientFailure
    case Replied(reply, _) =>
      match Parse(reply)
      case SemanticError(_) => SemanticFailure
      case Malformed(_) => TransientFailure
      case Answer(_, _) => Succeeded
  }

  /** The text an outcome that is not a success leaves as the item's last error. */
  function ErrorText(o: AnalystOutcome): (r: string) {
    match o
    case Threw(e) => e
    case Replied(reply, _) =>
      match Parse(reply)
      case SemanticError(e) => e
      case Malformed(e) => e
      case Answer(_, _) => ""
  }

  /**
   * The success record a usable reply leads to: the parsed interpretation and statement, the
   * statement's results from the next backend call (when the statement is non-empty), the raw reply
   * and both durations.
   */
  function AnsweredRecord(setup: Setup, qid: QuestionId, question: string, o: AnalystOutcome, queried: nat): (r: ItemResult)
    requires Classify(o) == Succeeded
    ensures r.status == ItemSuccess && r.error == None
    ensures r.questionId == qid && r.question == question
  {
    var parsed := Parse(o.reply);
    var ran := parsed.statement != "";
    ItemResult(qid, question, parsed.interpretation, parsed.statement,
               if ran then Execute(setup.backend(queried)).results else NoResults,
               RawReply(o.reply), o.elapsedMs,
               if ran then setup.backend(queried).elapsedMs else 0,
               ItemSuccess, None)
  }

  /** The events of attempts `lo` up to `hi - 1`: a backoff wait before each attempt but the first, then the call. */
  function Schedule(question: string, lo: nat, hi: nat): (r: seq<Event>)
    decreases hi - lo
  {
    if lo >= hi then []
    else (if lo > 0 then [Sleep(Backoff(lo))] else []) + [Ask(question)] + Schedule(question, lo + 1, hi)
  }

  function SleptSeconds(trace: seq<Event>): (r: nat) {
    if |trace| == 0 then 0
    else SleptSeconds(trace[..|trace| - 1]) + (if trace[|trace| - 1].Sleep? then trace[|trace| - 1].seconds else 0)
  }

  function NotifyCount(trace: seq<Event>): (r: nat) {
    if |trace| == 0 then 0
    else NotifyCount(trace[..|trace| - 1]) + (if trace[|trace| - 1].Notify? then 1 else 0)
  }

  function SuccessCount(results: seq<ItemResult>): (r: nat) {
    if |results| == 0 then 0
    else SuccessCount(results[..|results| - 1]) + (if results[|results| - 1].status == ItemSuccess then 1 else 0)
  }

  /** The id and question of every result, in order. */
  function Keys(results: seq<ItemResult>): (r: seq<QuestionItem>) {
    if |results| == 0 then []
    else Keys(results[..|results| - 1]) + [QuestionItem(results[|results| - 1].questionId, results[|results| - 1].question)]
  }

  /** The rows among the first `n` whose question is not empty, with their ids, in input order. */
  function Accepted(rows: seq<InputRow>, n: nat): (r: seq<QuestionItem>)
    requires n <= |rows|
  {
    if n == 0 then []
    else Accepted(rows, n - 1) +
         (if QuestionOf(rows[n - 1]) == "" then []
          else [QuestionItem(QuestionIdOf(rows[n - 1], n), QuestionOf(rows[n - 1]))])
  }

  /** The status counters agree: every processed item succeeded or failed, and 392708 errors are failures. */
  ghost predicate Balanced(s: Snapshot) {
    s.processed == s.successful + s.failed && s.error392708 <= s.failed
  }

  /** The status with its counters cleared: the fields the batch loop never touches. */
  function Frame(s: Snapshot): (r: Snapshot) {
    s.(processed := 0, successful := 0, failed := 0, error392708 := 0)
  }

  /** What holds of the batch after the first `i` rows. */
  ghost predicate Inv(setup: Setup, rows: seq<InputRow>, i: nat, first: Snapshot, b: Batch)
    requires i <= |rows|
  {
    && Frame(b.status) == Frame(first)
    && Balanced(b.status)
    && b.status.processed == |b.results|
    && b.status.successful == SuccessCount(b.results)
    && Keys(b.results) == Accepted(rows, i)
    && (forall e :: e in b.trace && e.Notify? ==> Balanced(e.snapshot))
    && NotifyCount(b.trace) == (if setup.notify then b.status.processed else 0)
  }

  // ---- sequences ----

  lemma {:induction false} NotifyCountAppend(s: seq<Event>, t: seq<Event>)
    ensures NotifyCount(s + t) == NotifyCount(s) + NotifyCount(t)
    decreases |t|
  {
    if |t| == 0 {
      assert s + t == s;
    } else {
      assert (s + t)[..|s + t| - 1] == s + t[..|t| - 1];
      NotifyCountAppend(s, t[..|t| - 1]);
    }
  }

  lemma {:induction false} QuietCount(s: seq<Event>)
    requires forall e :: e in s ==> !e.Notify?
    ensures NotifyCount(s) == 0
    decreases |s|
  {
    if |s| > 0 {
      assert forall e :: e in s[..|s| - 1] ==> e in s;
      QuietCount(s[..|s| - 1]);
    }
  }

  lemma {:induction false} SleptAppend(s: seq<Event>, t: seq<Event>)
    ensures SleptSeconds(s + t) == SleptSeconds(s) + SleptSeconds(t)
    decreases |t|
  {
    if |t| == 0 {
      assert s + t == s;
    } else {
      assert (s + t)[..|s + t| - 1] == s + t[..|t| - 1];
      SleptAppend(s, t[..|t| - 1]);
    }
  }

  lemma {:induction false} AcceptedBound(rows: seq<InputRow>, n: nat)
    requires n <= |rows|
    ensures |Accepted(rows, n)| <= n
  {
    if n > 0 {
      AcceptedBound(rows, n - 1);
    }
  }

  lemma KeysAppend(results: seq<ItemResult>, r: ItemResult)
    ensures Keys(results + [r]) == Keys(results) + [QuestionItem(r.questionId, r.question)]
    ensures SuccessCount(results + [r]) == SuccessCount(results) + (if r.status == ItemSuccess then 1 else 0)
  {
    assert (results + [r])[..|results|] == results;
  }

  // ---- the backoff schedule ----

  /** The schedule holds only waits and calls, one call per attempt. */
  lemma {:induction false} ScheduleEvents(question: string, lo: nat, hi: nat)
    requires lo <= hi
    ensures forall e :: e in Schedule(question, lo, hi) ==> (e.Sleep? || e == Ask(question))
    decreases hi - lo
  {
    if lo < hi {
      ScheduleEvents(question, lo + 1, hi);
    }
  }

  lemma {:induction false} ScheduleSleeps(question: string, lo: nat, hi: nat)
    requires 1 <= lo <= hi
    ensures SleptSeconds(Schedule(question, lo, hi)) == BackoffBaseSeconds * (Pow2(hi - 1) - Pow2(lo - 1))
    decreases hi - lo
  {
    if lo < hi {
      ScheduleSleeps(question, lo + 1, hi);
      SleptAppend([Sleep(Backoff(lo))] + [Ask(question)], Schedule(question, lo + 1, hi));
      var step := [Sleep(Backoff(lo))] + [Ask(question)];
      assert SleptSeconds(step) == Backoff(lo) by {
        assert step[..1] == [Sleep(Backoff(lo))];
        assert [Sleep(Backoff(lo))][..0] == [];
        assert SleptSeconds([Sleep(Backoff(lo))]) == Backoff(lo);
      }
    }
  }

  /** Over n >= 1 attempts the item waits 5 + 10 + ... + 5 * 2^(n-2) = 5 * (2^(n-1) - 1) seconds in backoff. */
  lemma TotalBackoff(question: string, n: nat)
    requires n >= 1
    ensures SleptSeconds(Schedule(question, 0, n)) == BackoffBaseSeconds * (Pow2(n - 1) - 1)
  {
    ScheduleSleeps(question, 1, n);
    assert Schedule(question, 0, n) == [Ask(question)] + Schedule(question, 1, n);
    SleptAppend([Ask(question)], Schedule(question, 1, n));
    assert [Ask(question)][..0] == [];
    assert SleptSeconds([Ask(question)]) == 0;
  }

  // ---- one attempt and the retry loop ----

  /** One attempt makes exactly one analyst call and is classified by that call's outcome alone. */
  lemma AttemptFacts(setup: Setup, qid: QuestionId, question: string, retry: nat, b: Batch, lastError: Option<string>)
    ensures var a := AttemptOnce(setup, qid, question, retry, b, lastError);
      && a.batch.asked == b.asked + 1
      && a.verdict == Classify(setup.analyst(b.asked))
      && a.lastError == (if a.verdict == Succeeded then lastError else Some(ErrorText(setup.analyst(b.asked))))
      && a.batch.status == b.status.(successful := b.status.successful + (if a.verdict == Succeeded then 1 else 0),
                                     error392708 := b.status.error392708 + (if a.verdict == SemanticFailure then 1 else 0))
      && a.batch.consecutive == (if a.verdict == Succeeded then 0 else b.consecutive + 1)
      && (a.verdict != Succeeded ==> a.batch.results == b.results && a.batch.queried == b.queried)
      && (a.verdict == Succeeded ==>
            && |a.batch.results| == |b.results| + 1
            && a.batch.results == b.results + [a.batch.results[|b.results|]]
            && a.batch.results[|b.results|].questionId == qid
            && a.batch.results[|b.results|].question == question
            && a.batch.results[|b.results|].status == ItemSuccess
            && a.batch.queried == b.queried + (if a.batch.results[|b.results|].sql == "" then 0 else 1))
      && a.batch.trace == b.trace + Schedule(question, retry, retry + 1) +
                          (if a.batch.queried == b.queried then [] else [RunSql(a.batch.results[|b.results|].sql)])
  {
  }

  /** A transient attempt leaves the results and the statement count alone and logs only its wait and its call. */
  lemma TransientAttempt(setup: Setup, qid: QuestionId, question: string, retry: nat, b: Batch, lastError: Option<string>)
    requires AttemptOnce(setup, qid, question, retry, b, lastError).verdict == TransientFailure
    ensures var a := AttemptOnce(setup, qid, question, retry, b, lastError);
      && a.batch.asked == b.asked + 1
      && a.batch.results == b.results && a.batch.queried == b.queried
      && a.batch.trace == b.trace + Schedule(question, retry, retry + 1)
  {
  }

  /** The events of one attempt: its wait, its call, and its statement when it ran one. */
  lemma AttemptLog(setup: Setup, qid: QuestionId, question: string, retry: nat, b: Batch, lastError: Option<string>)
    ensures var a := AttemptOnce(setup, qid, question, retry, b, lastError);
      && a.batch.asked == b.asked + 1
      && (a.batch.queried != b.queried ==> |a.batch.results| > |b.results|)
      && a.batch.trace == b.trace + Schedule(question, retry, retry + 1) +
                          (if a.batch.queried == b.queried then [] else [RunSql(a.batch.results[|b.results|].sql)])
  {
  }

  /** An attempt makes one call and is judged by it. */
  lemma AttemptVerdict(setup: Setup, qid: QuestionId, question: string, retry: nat, b: Batch, lastError: Option<string>)
    ensures var a := AttemptOnce(setup, qid, question, retry, b, lastError);
      a.batch.asked == b.asked + 1 && a.verdict == Classify(setup.analyst(b.asked))
  {
  }

  /** A usable reply, on whichever attempt, appends exactly its success record. */
  lemma AnsweredAttempt(setup: Setup, qid: QuestionId, question: string, retry: nat, b: Batch, lastError: Option<string>)
    requires Classify(setup.analyst(b.asked)) == Succeeded
    ensures var a := AttemptOnce(setup, qid, question, retry, b, lastError);
      && a.verdict == Succeeded
      && a.batch.results == b.results + [AnsweredRecord(setup, qid, question, setup.analyst(b.asked), b.queried)]
  {
  }

  /**
   * The retry loop calls the analyst until the first outcome that is not transient, at most
   * `maxRetries` times in all; the verdict and the last error come from the last call made.
   */
  lemma {:induction false} RetryCalls(setup: Setup, qid: QuestionId, question: string, retry: nat, b: Batch,
                                      lastError: Option<string>)
    requires retry <= setup.maxRetries
    ensures var a := RetryFrom(setup, qid, question, retry, b, lastError);
      && b.asked <= a.batch.asked <= b.asked + (setup.maxRetries - retry)
      && (retry < setup.maxRetries ==> b.asked < a.batch.asked)
      && (forall j :: b.asked <= j < a.batch.asked - 1 ==> Classify(setup.analyst(j)) == TransientFailure)
      && (b.asked < a.batch.asked ==> a.verdict == Classify(setup.analyst(a.batch.asked - 1)))
      && (b.asked < a.batch.asked && a.verdict != Succeeded ==>
            a.lastError == Some(ErrorText(setup.analyst(a.batch.asked - 1))))
      && (a.batch.asked == b.asked ==> a.verdict == TransientFailure && a.lastError == lastError)
      && (a.verdict == TransientFailure ==> a.batch.asked == b.asked + (setup.maxRetries - retry))
    decreases setup.maxRetries - retry
  {
    if retry < setup.maxRetries {
      var first := AttemptOnce(setup, qid, question, retry, b, lastError);
      AttemptFacts(setup, qid, question, retry, b, lastError);
      if first.verdict == TransientFailure {
        RetryCalls(setup, qid, question, retry + 1, first.batch, first.lastError);
      }
    }
  }

  /** What the retry loop does to the status and the consecutive-error counter. */
  lemma {:induction false} RetryCounters(setup: Setup, qid: QuestionId, question: string, retry: nat, b: Batch,
                                         lastError: Option<string>)
    ensures var a := RetryFrom(setup, qid, question, retry, b, lastError);
      && a.batch.status == b.status.(successful := b.status.successful + (if a.verdict == Succeeded then 1 else 0),
                                     error392708 := b.status.error392708 + (if a.verdict == SemanticFailure then 1 else 0))
      && b.asked <= a.batch.asked
      && a.batch.consecutive == (if a.verdict == Succeeded then 0 else b.consecutive + (a.batch.asked - b.asked))
    decreases setup.maxRetries - retry
  {
    if retry < setup.maxRetries {
      var first := AttemptOnce(setup, qid, question, retry, b, lastError);
      AttemptFacts(setup, qid, question, retry, b, lastError);
      if first.verdict == TransientFailure {
        RetryCounters(setup, qid, question, retry + 1, first.batch, first.lastError);
      }
    }
  }

  /** The results of the retry loop: one success record for this question when it succeeded, else none. */
  lemma {:induction false} RetryResults(setup: Setup, qid: QuestionId, question: string, retry: nat, b: Batch,
                                        lastError: Option<string>)
    ensures var a := RetryFrom(setup, qid, question, retry, b, lastError);
      && b.asked <= a.batch.asked
      && (a.verdict != Succeeded ==> a.batch.results == b.results && a.batch.queried == b.queried)
      && (a.verdict == Succeeded ==>
            && |a.batch.results| == |b.results| + 1
            && a.batch.results == b.results + [a.batch.results[|b.results|]]
            && a.batch.results[|b.results|].questionId == qid
            && a.batch.results[|b.results|].question == question
            && a.batch.results[|b.results|].status == ItemSuccess
            && a.batch.queried == b.queried + (if a.batch.results[|b.results|].sql == "" then 0 else 1))
    decreases setup.maxRetries - retry
  {
    if retry < setup.maxRetries {
      var first := AttemptOnce(setup, qid, question, retry, b, lastError);
      if first.verdict == TransientFailure {
        TransientAttempt(setup, qid, question, retry, b, lastError);
        RetryResults(setup, qid, question, retry + 1, first.batch, first.lastError);
      } else {
        AttemptFacts(setup, qid, question, retry, b, lastError);
      }
    }
  }

  /** Peeling the first attempt off a schedule. */
  lemma ScheduleCons(question: string, lo: nat, hi: nat)
    requires lo < hi
    ensures Schedule(question, lo, hi) == Schedule(question, lo, lo + 1) + Schedule(question, lo + 1, hi)
  {
    assert Schedule(question, lo + 1, lo + 1) == [];
  }

  /** When the retry loop succeeds, its one new record is the success record of the last call's reply. */
  lemma {:induction false} RetryAnswer(setup: Setup, qid: QuestionId, question: string, retry: nat, b: Batch,
                                       lastError: Option<string>)
    ensures var a := RetryFrom(setup, qid, question, retry, b, lastError);
      a.verdict == Succeeded ==>
        && b.asked < a.batch.asked
        && Classify(setup.analyst(a.batch.asked - 1)) == Succeeded
        && a.batch.results == b.results + [AnsweredRecord(setup, qid, question, setup.analyst(a.batch.asked - 1), b.queried)]
    decreases setup.maxRetries - retry
  {
    if retry < setup.maxRetries {
      var first := AttemptOnce(setup, qid, question, retry, b, lastError);
      AttemptVerdict(setup, qid, question, retry, b, lastError);
      if first.verdict == TransientFailure {
        TransientAttempt(setup, qid, question, retry, b, lastError);
        RetryAnswer(setup, qid, question, retry + 1, first.batch, first.lastError);
      } else if first.verdict == Succeeded {
        AnsweredAttempt(setup, qid, question, retry, b, lastError);
        assert RetryFrom(setup, qid, question, retry, b, lastError) == first;
      }
    }
  }

  /**
   * The events of the retry loop from attempt `retry` on: the backoff schedule of the calls made,
   * then the statement execution when one ran.
   */
  ghost predicate RetryLogShape(setup: Setup, qid: QuestionId, question: string, retry: nat, b: Batch,
                                lastError: Option<string>)
  {
    var a := RetryFrom(setup, qid, question, retry, b, lastError);
    && b.asked <= a.batch.asked
    && (a.batch.queried != b.queried ==> |a.batch.results| > |b.results|)
    && a.batch.trace == b.trace + Schedule(question, retry, retry + (a.batch.asked - b.asked)) +
                        (if a.batch.queried == b.queried then [] else [RunSql(a.batch.results[|b.results|].sql)])
  }

  /** The events of the retry loop: the backoff schedule of the calls made, then at most one statement. */
  lemma {:induction false} RetryLog(setup: Setup, qid: QuestionId, question: string, retry: nat, b: Batch,
                                    lastError: Option<string>)
    ensures RetryLogShape(setup, qid, question, retry, b, lastError)
    decreases setup.maxRetries - retry
  {
    if retry >= setup.maxRetries {
      assert RetryFrom(setup, qid, question, retry, b, lastError).batch == b;
    } else {
      var first := AttemptOnce(setup, qid, question, retry, b, lastError);
      if first.verdict == TransientFailure {
        RetryLog(setup, qid, question, retry + 1, first.batch, first.lastError);
        RetryLogStep(setup, qid, question, retry, b, lastError);
      } else {
        RetryLogStop(setup, qid, question, retry, b, lastError);
      }
    }
  }

  /** `RetryLog` when the first attempt already ends the loop. */
  lemma RetryLogStop(setup: Setup, qid: QuestionId, question: string, retry: nat, b: Batch, lastError: Option<string>)
    requires retry < setup.maxRetries
    requires AttemptOnce(setup, qid, question, retry, b, lastError).verdict != TransientFailure
    ensures RetryLogShape(setup, qid, question, retry, b, lastError)
  {
    var first := AttemptOnce(setup, qid, question, retry, b, lastError);
    assert RetryFrom(setup, qid, question, retry, b, lastError) == first;
    AttemptLog(setup, qid, question, retry, b, lastError);
  }

  /** `RetryLog` after a transient attempt: its wait and call come before the rest of the loop's events. */
  lemma RetryLogStep(setup: Setup, qid: QuestionId, question: string, retry: nat, b: Batch, lastError: Option<string>)
    requires retry < setup.maxRetries
    requires AttemptOnce(setup, qid, question, retry, b, lastError).verdict == TransientFailure
    requires var first := AttemptOnce(setup, qid, question, retry, b, lastError);
      RetryLogShape(setup, qid, question, retry + 1, first.batch, first.lastError)
    ensures RetryLogShape(setup, qid, question, retry, b, lastError)
  {
    var first := AttemptOnce(setup, qid, question, retry, b, lastError);
    var a := RetryFrom(setup, qid, question, retry + 1, first.batch, first.lastError);
    assert RetryFrom(setup, qid, question, retry, b, lastError) == a;
    TransientAttempt(setup, qid, question, retry, b, lastError);
    var hi := retry + (a.batch.asked - b.asked);
    var tail := if a.batch.queried == b.queried then [] else [RunSql(a.batch.results[|b.results|].sql)];
    assert a.batch.trace == first.batch.trace + Schedule(question, retry + 1, hi) + tail;
    ScheduleCons(question, retry, hi);
    assert a.batch.trace == b.trace + (Schedule(question, retry, retry + 1) + Schedule(question, retry + 1, hi)) + tail;
  }

  // ---- one row ----

  /** A row without a question changes nothing: no result, no counter, no callback, no wait. */
  lemma SkippedRow(setup: Setup, rows: seq<InputRow>, i: nat, b: Batch)
    requires i < |rows| && QuestionOf(rows[i]) == ""
    ensures ItemStep(setup, rows, i, b) == b
  {
  }

  /** What follows the retry loop: one of `failed` / `successful` has moved, then `processed`, the callback, the delay. */
  lemma ConcludeFacts(setup: Setup, rows: seq<InputRow>, i: nat, qid: QuestionId, question: string, a: Attempt)
    ensures var r := Conclude(setup, rows, i, qid, question, a);
      && r.status == a.batch.status.(failed := a.batch.status.failed + (if a.verdict == Succeeded then 0 else 1),
                                     processed := a.batch.status.processed + 1)
      && r.results == (if a.verdict == Succeeded then a.batch.results
                       else a.batch.results + [FailedRecord(qid, question, a.lastError)])
      && r.trace == a.batch.trace + (if setup.notify then [Notify(r.status)] else [])
                                  + (if i + 1 < |rows| then [Sleep(setup.delay)] else [])
      && r.consecutive == a.batch.consecutive && r.asked == a.batch.asked && r.queried == a.batch.queried
  {
  }

  /** The counters and results after a non-empty row: one more result, for this row, and balanced counter moves. */
  lemma ItemRecords(setup: Setup, rows: seq<InputRow>, i: nat, b: Batch)
    requires i < |rows| && QuestionOf(rows[i]) != ""
    ensures var r := ItemStep(setup, rows, i, b);
      && |r.results| == |b.results| + 1
      && r.results == b.results + [r.results[|b.results|]]
      && r.results[|b.results|].questionId == QuestionIdOf(rows[i], i + 1)
      && r.results[|b.results|].question == QuestionOf(rows[i])
      && Frame(r.status) == Frame(b.status)
      && r.status.processed == b.status.processed + 1
      && (r.results[|b.results|].status == ItemSuccess ==>
            r.status.successful == b.status.successful + 1 && r.status.failed == b.status.failed
            && r.status.error392708 == b.status.error392708)
      && (r.results[|b.results|].status != ItemSuccess ==>
            r.status.successful == b.status.successful && r.status.failed == b.status.failed + 1
            && b.status.error392708 <= r.status.error392708 <= b.status.error392708 + 1)
  {
    var question := QuestionOf(rows[i]);
    var qid := QuestionIdOf(rows[i], i + 1);
    var t := Throttle(b);
    var a := RetryFrom(setup, qid, question, 0, t, None);
    RetryCounters(setup, qid, question, 0, t, None);
    RetryResults(setup, qid, question, 0, t, None);
    ConcludeFacts(setup, rows, i, qid, question, a);
  }

  /** The throttle check adds no callback. */
  lemma ThrottleQuiet(b: Batch)
    ensures var t := Throttle(b);
      && NotifyCount(t.trace) == NotifyCount(b.trace)
      && (forall e :: e in t.trace && e.Notify? ==> e in b.trace)
  {
    if b.consecutive >= ThrottleThreshold {
      NotifyCountAppend(b.trace, [Sleep(ThrottlePauseSeconds)]);
      assert [Sleep(ThrottlePauseSeconds)][..0] == [];
    }
  }

  /** The retry loop adds no callback. */
  lemma RetryQuiet(setup: Setup, qid: QuestionId, question: string, b: Batch)
    ensures var a := RetryFrom(setup, qid, question, 0, b, None);
      && NotifyCount(a.batch.trace) == NotifyCount(b.trace)
      && (forall e :: e in a.batch.trace && e.Notify? ==> e in b.trace)
  {
    var a := RetryFrom(setup, qid, question, 0, b, None);
    RetryLog(setup, qid, question, 0, b, None);
    var n := a.batch.asked - b.asked;
    ScheduleEvents(question, 0, n);
    var tail := if a.batch.queried == b.queried then [] else [RunSql(a.batch.results[|b.results|].sql)];
    var quiet := Schedule(question, 0, n) + tail;
    assert a.batch.trace == b.trace + quiet;
    assert forall e :: e in quiet ==> !e.Notify?;
    QuietCount(quiet);
    NotifyCountAppend(b.trace, quiet);
  }

  /** A callback (when there is one) followed by events that are not callbacks. */
  lemma {:induction false} OneCallback(snapshot: Snapshot, notify: bool, rest: seq<Event>)
    requires forall e :: e in rest ==> !e.Notify?
    ensures var after := (if notify then [Notify(snapshot)] else []) + rest;
      && NotifyCount(after) == (if notify then 1 else 0)
      && (forall e :: e in after && e.Notify? ==> e == Notify(snapshot))
  {
    var front := if notify then [Notify(snapshot)] else [];
    NotifyCountAppend(front, rest);
    QuietCount(rest);
    if notify {
      assert [Notify(snapshot)][..0] == [];
    }
  }

  /** After the retry loop, the only callback is the one with the row's final counters. */
  lemma ConcludeEvents(setup: Setup, rows: seq<InputRow>, i: nat, qid: QuestionId, question: string, a: Attempt)
    ensures var r := Conclude(setup, rows, i, qid, question, a);
      && NotifyCount(r.trace) == NotifyCount(a.batch.trace) + (if setup.notify then 1 else 0)
      && (forall e :: e in r.trace && e.Notify? ==> e in a.batch.trace || e == Notify(r.status))
  {
    var r := Conclude(setup, rows, i, qid, question, a);
    var rest := if i + 1 < |rows| then [Sleep(setup.delay)] else [];
    var after := (if setup.notify then [Notify(r.status)] else []) + rest;
    OneCallback(r.status, setup.notify, rest);
    assert r.trace == a.batch.trace + after;
    assert forall e :: e in r.trace ==> e in a.batch.trace || e in after;
    NotifyCountAppend(a.batch.trace, after);
  }

  /** The events after a non-empty row: no callback but the one with the row's final counters. */
  lemma ItemEvents(setup: Setup, rows: seq<InputRow>, i: nat, b: Batch)
    requires i < |rows| && QuestionOf(rows[i]) != ""
    ensures var r := ItemStep(setup, rows, i, b);
      && NotifyCount(r.trace) == NotifyCount(b.trace) + (if setup.notify then 1 else 0)
      && (forall e :: e in r.trace && e.Notify? ==> e in b.trace || e == Notify(r.status))
  {
    var question := QuestionOf(rows[i]);
    var qid := QuestionIdOf(rows[i], i + 1);
    var t := Throttle(b);
    var a := RetryFrom(setup, qid, question, 0, t, None);
    assert ItemStep(setup, rows, i, b) == Conclude(setup, rows, i, qid, question, a);
    ThrottleQuiet(b);
    RetryQuiet(setup, qid, question, t);
    ConcludeEvents(setup, rows, i, qid, question, a);
  }

  lemma ItemStepPreserves(setup: Setup, rows: seq<InputRow>, i: nat, first: Snapshot, b: Batch)
    requires i < |rows| && Inv(setup, rows, i, first, b)
    ensures Inv(setup, rows, i + 1, first, ItemStep(setup, rows, i, b))
  {
    var question := QuestionOf(rows[i]);
    if question == "" {
      assert Accepted(rows, i + 1) == Accepted(rows, i);
    } else {
      var r := ItemStep(setup, rows, i, b);
      ItemRecords(setup, rows, i, b);
      ItemEvents(setup, rows, i, b);
      KeysAppend(b.results, r.results[|b.results|]);
      assert Keys(r.results) == Accepted(rows, i + 1);
    }
  }

  lemma {:induction false} BatchInvariant(setup: Setup, rows: seq<InputRow>, i: nat, first: Snapshot, b: Batch)
    requires i <= |rows| && Inv(setup, rows, i, first, b)
    ensures Inv(setup, rows, |rows|, first, BatchFrom(setup, rows, i, b))
    decreases |rows| - i
  {
    if i < |rows| {
      ItemStepPreserves(setup, rows, i, first, b);
      BatchInvariant(setup, rows, i + 1, first, ItemStep(setup, rows, i, b));
    }
  }

  /**
   * The bookkeeping of a whole run: processed == successful + failed, also at every callback;
   * one result per non-empty row, in input order; `successful` counts the success records;
   * the callback fires once per processed item and once more at the end; the job state stays
   * "processing" (the caller sets "completed") and only `completed_at` is added at the end.
   */
  lemma RunBookkeeping(setup: Setup, rows: seq<InputRow>, jobId: string, startTime: nat, endTime: nat)
    ensures var r := Run(true, setup, rows, jobId, startTime, endTime);
      && r.Finished?
      && Balanced(r.status)
      && r.status.processed == |r.results| <= r.status.total == |rows|
      && r.status.successful == SuccessCount(r.results)
      && Keys(r.results) == Accepted(rows, |rows|)
      && r.status.jobId == jobId && r.status.state == Processing
      && r.status.startedAt == Some(startTime) && r.status.completedAt == Some(endTime)
      && (forall e :: e in r.trace && e.Notify? ==> Balanced(e.snapshot))
      && NotifyCount(r.trace) == (if setup.notify then r.status.processed + 1 else 0)
  {
    var start := Start(jobId, |rows|, startTime);
    assert Keys([]) == Accepted(rows, 0);
    BatchInvariant(setup, rows, 0, start.status, start);
    var b := BatchFrom(setup, rows, 0, start);
    AcceptedBound(rows, |rows|);
    assert |Keys(b.results)| == |b.results| by {
      KeysLength(b.results);
    }
    var r := Run(true, setup, rows, jobId, startTime, endTime);
    if setup.notify {
      NotifyCountAppend(b.trace, [Notify(r.status)]);
      assert NotifyCount([Notify(r.status)]) == 1 by {
        assert [Notify(r.status)][..0] == [];
      }
    }
  }

  lemma {:induction false} KeysLength(results: seq<ItemResult>)
    ensures |Keys(results)| == |results|
    decreases |results|
  {
    if |results| > 0 {
      KeysLength(results[..|results| - 1]);
    }
  }

  /** The retry loop's events from its first attempt: the schedule of the calls it made, then the rest. */
  lemma RetryTrace(setup: Setup, qid: QuestionId, question: string, b: Batch) returns (rest: seq<Event>)
    ensures var a := RetryFrom(setup, qid, question, 0, b, None);
      && b.asked <= a.batch.asked
      && (setup.maxRetries > 0 ==> b.asked < a.batch.asked)
      && a.batch.trace == b.trace + Schedule(question, 0, a.batch.asked - b.asked) + rest
  {
    var a := RetryFrom(setup, qid, question, 0, b, None);
    RetryLog(setup, qid, question, 0, b, None);
    RetryCalls(setup, qid, question, 0, b, None);
    rest := if a.batch.queried == b.queried then [] else [RunSql(a.batch.results[|b.results|].sql)];
  }

  /** What follows the retry loop adds its events after the loop's own: the callback, then the delay. */
  lemma ConcludeTrace(setup: Setup, rows: seq<InputRow>, i: nat, qid: QuestionId, question: string, a: Attempt,
                      prefix: seq<Event>, rest: seq<Event>) returns (closing: seq<Event>)
    requires a.batch.trace == prefix + rest
    ensures Conclude(setup, rows, i, qid, question, a).trace == prefix + (rest + closing)
  {
    var c := Conclude(setup, rows, i, qid, question, a);
    ConcludeFacts(setup, rows, i, qid, question, a);
    closing := (if setup.notify then [Notify(c.status)] else [])
               + (if i + 1 < |rows| then [Sleep(setup.delay)] else []);
  }

  /** An item's events: the pause (when due), the retry loop's schedule of `n` calls, then the rest. */
  lemma ItemTraceSplit(setup: Setup, rows: seq<InputRow>, i: nat, b: Batch) returns (n: nat, rest: seq<Event>)
    requires i < |rows| && QuestionOf(rows[i]) != ""
    ensures ItemStep(setup, rows, i, b).trace
            == b.trace + (if b.consecutive >= ThrottleThreshold then [Sleep(ThrottlePauseSeconds)] else [])
               + Schedule(QuestionOf(rows[i]), 0, n) + rest
    ensures setup.maxRetries > 0 ==> n >= 1
  {
    var question := QuestionOf(rows[i]);
    var qid := QuestionIdOf(rows[i], i + 1);
    var t := Throttle(b);
    var a := RetryFrom(setup, qid, question, 0, t, None);
    var retryRest := RetryTrace(setup, qid, question, t);
    n := a.batch.asked - t.asked;
    var pause := if b.consecutive >= ThrottleThreshold then [Sleep(ThrottlePauseSeconds)] else [];
    var prefix := b.trace + pause + Schedule(question, 0, n);
    assert t.trace == b.trace + pause;
    assert a.batch.trace == prefix + retryRest;
    var closing := ConcludeTrace(setup, rows, i, qid, question, a, prefix, retryRest);
    rest := retryRest + closing;
    assert ItemStep(setup, rows, i, b).trace == Conclude(setup, rows, i, qid, question, a).trace;
  }

  /** Where an item's events start: the pause when three or more errors are pending, then the first call. */
  lemma ItemTraceStart(setup: Setup, rows: seq<InputRow>, i: nat, b: Batch)
    requires i < |rows| && QuestionOf(rows[i]) != ""
    ensures var r := ItemStep(setup, rows, i, b);
      && |r.trace| >= |b.trace| && r.trace[..|b.trace|] == b.trace
      && (b.consecutive >= ThrottleThreshold || setup.maxRetries > 0 ==> |r.trace| > |b.trace|)
      && (b.consecutive >= ThrottleThreshold && setup.maxRetries > 0 ==> |r.trace| > |b.trace| + 1)
      && (b.consecutive >= ThrottleThreshold ==> r.trace[|b.trace|] == Sleep(ThrottlePauseSeconds))
      && (b.consecutive >= ThrottleThreshold && setup.maxRetries > 0 ==> r.trace[|b.trace| + 1] == Ask(QuestionOf(rows[i])))
      && (b.consecutive < ThrottleThreshold && setup.maxRetries > 0 ==> r.trace[|b.trace|] == Ask(QuestionOf(rows[i])))
  {
    var n, rest := ItemTraceSplit(setup, rows, i, b);
    EventsAfterPrefix(ItemStep(setup, rows, i, b).trace, b.trace, b.consecutive >= ThrottleThreshold, QuestionOf(rows[i]), n, rest);
  }

  /** The events after a prefix that an optional pause and a backoff schedule follow. */
  lemma EventsAfterPrefix(t: seq<Event>, prefix: seq<Event>, throttled: bool, question: string, n: nat, rest: seq<Event>)
    requires t == prefix + (if throttled then [Sleep(ThrottlePauseSeconds)] else []) + Schedule(question, 0, n) + rest
    ensures |t| >= |prefix| && t[..|prefix|] == prefix
    ensures throttled || n > 0 ==> |t| > |prefix|
    ensures throttled && n > 0 ==> |t| > |prefix| + 1
    ensures throttled ==> t[|prefix|] == Sleep(ThrottlePauseSeconds)
    ensures throttled && n > 0 ==> t[|prefix| + 1] == Ask(question)
    ensures !throttled && n > 0 ==> t[|prefix|] == Ask(question)
  {
    var pause := if throttled then [Sleep(ThrottlePauseSeconds)] else [];
    var sched := Schedule(question, 0, n);
    assert t == prefix + (pause + sched + rest);
    if n > 0 {
      assert sched[0] == Ask(question);
    }
  }

  /** The consecutive-error counter after an item: 0 on success, else the pending count (reset by a pause) plus one per call. */
  lemma ItemConsecutive(setup: Setup, rows: seq<InputRow>, i: nat, b: Batch)
    requires i < |rows| && QuestionOf(rows[i]) != ""
    ensures var r := ItemStep(setup, rows, i, b);
      r.consecutive == (if r.status.successful > b.status.successful then 0
                        else (if b.consecutive >= ThrottleThreshold then 0 else b.consecutive) + (r.asked - b.asked))
  {
    var question := QuestionOf(rows[i]);
    var qid := QuestionIdOf(rows[i], i + 1);
    var t := Throttle(b);
    var a := RetryFrom(setup, qid, question, 0, t, None);
    assert ItemStep(setup, rows, i, b) == Conclude(setup, rows, i, qid, question, a);
    RetryCounters(setup, qid, question, 0, t, None);
    ConcludeFacts(setup, rows, i, qid, question, a);
  }

  /**
   * An item whose every allowed attempt fails transiently, with the default three or more
   * retries, leaves at least three consecutive errors, so the next item starts with the 30 s pause.
   */
  lemma ExhaustedItemThrottlesNext(setup: Setup, rows: seq<InputRow>, i: nat, b: Batch)
    requires i + 1 < |rows| && QuestionOf(rows[i]) != "" && QuestionOf(rows[i + 1]) != ""
    requires setup.maxRetries >= ThrottleThreshold
    requires forall j :: b.asked <= j < b.asked + setup.maxRetries ==> Classify(setup.analyst(j)) == TransientFailure
    ensures var mid := ItemStep(setup, rows, i, b);
      && mid.status.failed == b.status.failed + 1
      && mid.consecutive >= ThrottleThreshold
      && |ItemStep(setup, rows, i + 1, mid).trace| > |mid.trace|
      && ItemStep(setup, rows, i + 1, mid).trace[|mid.trace|] == Sleep(ThrottlePauseSeconds)
  {
    var question := QuestionOf(rows[i]);
    var qid := QuestionIdOf(rows[i], i + 1);
    var t := Throttle(b);
    var a := RetryFrom(setup, qid, question, 0, t, None);
    RetryCounters(setup, qid, question, 0, t, None);
    RetryCalls(setup, qid, question, 0, t, None);
    ConcludeFacts(setup, rows, i, qid, question, a);
    assert Classify(setup.analyst(a.batch.asked - 1)) == TransientFailure;
    assert a.verdict == TransientFailure;
    ItemTraceStart(setup, rows, i + 1, ItemStep(setup, rows, i, b));
  }

  /**
   * A 392708 reply to the item's first call ends the item after that one call: `error_392708`,
   * `failed` and the consecutive-error counter go up by one, and the record carries the error text.
   */
  lemma SemanticErrorStopsItem(setup: Setup, rows: seq<InputRow>, i: nat, b: Batch)
    requires i < |rows| && QuestionOf(rows[i]) != "" && setup.maxRetries > 0
    requires setup.analyst(b.asked).Replied? && setup.analyst(b.asked).reply.errorCode == Some(NonRetryableCode)
    ensures var r := ItemStep(setup, rows, i, b);
      && r.asked == b.asked + 1
      && r.status.error392708 == b.status.error392708 + 1
      && r.status.failed == b.status.failed + 1
      && r.status.successful == b.status.successful
      && r.consecutive == (if b.consecutive >= ThrottleThreshold then 0 else b.consecutive) + 1
      && r.results == b.results + [FailedRecord(QuestionIdOf(rows[i], i + 1), QuestionOf(rows[i]),
                                     Some("Error 392708: " + MessageText(setup.analyst(b.asked).reply.message)))]
  {
    var question := QuestionOf(rows[i]);
    var qid := QuestionIdOf(rows[i], i + 1);
    var t := Throttle(b);
    var a := RetryFrom(setup, qid, question, 0, t, None);
    RetryCounters(setup, qid, question, 0, t, None);
    RetryResults(setup, qid, question, 0, t, None);
    RetryCalls(setup, qid, question, 0, t, None);
    ConcludeFacts(setup, rows, i, qid, question, a);
    assert Classify(setup.analyst(t.asked)) == SemanticFailure;
  }

  /**
   * The outcome of a non-empty row: `processed` and exactly one of `successful` / `failed` go up,
   * at most `maxRetries` calls are made, and a failed item's record is the empty failure record
   * carrying the last error verbatim (none at all when no call was allowed). A failure before the
   * retries ran out was a 392708 reply.
   */
  lemma ItemOutcome(setup: Setup, rows: seq<InputRow>, i: nat, b: Batch)
    requires i < |rows| && QuestionOf(rows[i]) != ""
    ensures var r := ItemStep(setup, rows, i, b);
      var qid := QuestionIdOf(rows[i], i + 1);
      && b.asked <= r.asked <= b.asked + setup.maxRetries
      && r.status.processed == b.status.processed + 1
      && r.status.successful + r.status.failed == b.status.successful + b.status.failed + 1
      && b.status.successful <= r.status.successful && b.status.failed <= r.status.failed
      && (r.status.failed > b.status.failed ==>
            r.results == b.results + [FailedRecord(qid, QuestionOf(rows[i]),
                                                   if r.asked == b.asked then None
                                                   else Some(ErrorText(setup.analyst(r.asked - 1))))])
      && (r.status.failed > b.status.failed && b.asked < r.asked < b.asked + setup.maxRetries ==>
            Classify(setup.analyst(r.asked - 1)) == SemanticFailure)
      && (setup.maxRetries == 0 ==> r.results == b.results + [FailedRecord(qid, QuestionOf(rows[i]), None)])
  {
    var question := QuestionOf(rows[i]);
    var qid := QuestionIdOf(rows[i], i + 1);
    var t := Throttle(b);
    var a := RetryFrom(setup, qid, question, 0, t, None);
    RetryCounters(setup, qid, question, 0, t, None);
    RetryResults(setup, qid, question, 0, t, None);
    RetryCalls(setup, qid, question, 0, t, None);
    ConcludeFacts(setup, rows, i, qid, question, a);
  }

  /**
   * A usable first reply makes the item a success whatever the backend does: the statement runs
   * only when it is non-empty, and a backend failure only turns the query results into an error text.
   */
  lemma AnsweredItem(setup: Setup, rows: seq<InputRow>, i: nat, b: Batch)
    requires i < |rows| && QuestionOf(rows[i]) != "" && setup.maxRetries > 0
    requires Classify(setup.analyst(b.asked)) == Succeeded
    ensures var r := ItemStep(setup, rows, i, b);
      var reply := setup.analyst(b.asked).reply;
      var parsed := Parse(reply);
      var ran := parsed.statement != "";
      && r.asked == b.asked + 1
      && r.queried == b.queried + (if ran then 1 else 0)
      && r.status.successful == b.status.successful + 1 && r.status.failed == b.status.failed
      && r.consecutive == 0
      && r.results == b.results + [ItemResult(
           QuestionIdOf(rows[i], i + 1), QuestionOf(rows[i]), parsed.interpretation, parsed.statement,
           if ran then Execute(setup.backend(b.queried)).results else NoResults,
           RawReply(reply), setup.analyst(b.asked).elapsedMs,
           if ran then setup.backend(b.queried).elapsedMs else 0,
           ItemSuccess, None)]
      && (ran && setup.backend(b.queried).Raised? ==>
            r.results[|b.results|].queryResults == SqlError("SQL error: " + setup.backend(b.queried).error))
  {
    var question := QuestionOf(rows[i]);
    var qid := QuestionIdOf(rows[i], i + 1);
    var t := Throttle(b);
    var a := RetryFrom(setup, qid, question, 0, t, None);
    var first := AttemptOnce(setup, qid, question, 0, t, None);
    assert a == first;
    ConcludeFacts(setup, rows, i, qid, question, a);
  }

  /**
   * An item that succeeds, on whichever attempt, records the reply of its last call: the parsed
   * interpretation and statement, the statement's results (an error text when the backend fails)
   * and the durations. The statement runs only when it is non-empty.
   */
  lemma SuccessfulItem(setup: Setup, rows: seq<InputRow>, i: nat, b: Batch)
    requires i < |rows| && QuestionOf(rows[i]) != ""
    ensures var r := ItemStep(setup, rows, i, b);
      r.status.successful > b.status.successful ==>
        && b.asked < r.asked
        && Classify(setup.analyst(r.asked - 1)) == Succeeded
        && var record := AnsweredRecord(setup, QuestionIdOf(rows[i], i + 1), QuestionOf(rows[i]),
                                        setup.analyst(r.asked - 1), b.queried);
        && r.results == b.results + [record]
        && record.interpretation == Parse(setup.analyst(r.asked - 1).reply).interpretation
        && record.sql == Parse(setup.analyst(r.asked - 1).reply).statement
        && r.queried == b.queried + (if record.sql == "" then 0 else 1)
        && (record.sql != "" && setup.backend(b.queried).Raised? ==>
              record.queryResults == SqlError("SQL error: " + setup.backend(b.queried).error))
  {
    var question := QuestionOf(rows[i]);
    var qid := QuestionIdOf(rows[i], i + 1);
    var t := Throttle(b);
    var a := RetryFrom(setup, qid, question, 0, t, None);
    assert ItemStep(setup, rows, i, b) == Conclude(setup, rows, i, qid, question, a);
    RetryCounters(setup, qid, question, 0, t, None);
    RetryResults(setup, qid, question, 0, t, None);
    RetryAnswer(setup, qid, question, 0, t, None);
    ConcludeFacts(setup, rows, i, qid, question, a);
  }
}
