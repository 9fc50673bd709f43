/** The job's running status, which the batch loop updates field by field. */
module Status {
  import opened Wrappers

  datatype JobState = Queued | Processing | Completed | JobFailed

  /** A value copy of every field of a ProcessingStatus, as the status callback sees it. */
  datatype Snapshot = Snapshot(
    jobId: string,
    state: JobState,
    total: nat,
    processed: nat,
    successful: nat,
    failed: nat,
    error392708: nat,
    startedAt: Option<nat>,
    completedAt: Option<nat>,
    error: Option<string>,
    outputJson: Option<string>,
    outputCsv: Option<string>)

  class ProcessingStatus {
    var jobId: string
    var state: JobState
    var total: nat
    var processed: nat
    var successful: nat
    var failed: nat
    var error392708: nat
    var startedAt: Option<nat>
    var completedAt: Option<nat>
    var error: Option<string>
    var outputJson: Option<string>
    var outputCsv: Option<string>

    function Copy(): (r: Snapshot)
      reads this
    {
      Snapshot(jobId, state, total, processed, successful, failed, error392708,
               startedAt, completedAt, error, outputJson, outputCsv)
    }

    /** Fields not given keep the record's defaults: zero counters, nothing else set. */
    constructor (jobId: string, state: JobState, total: nat, startedAt: Option<nat>)
      ensures Copy() == Snapshot(jobId, state, total, 0, 0, 0, 0, startedAt, None, None, None, None)
    {
      this.jobId := jobId;
      this.state := state;
      this.total := total;
      this.processed := 0;
      this.successful := 0;
      this.failed := 0;
      this.error392708 := 0;
      this.startedAt := startedAt;
      this.completedAt := None;
      this.error := None;
      this.outputJson := None;
      this.outputCsv := None;
    }

    method CountSuccess()
      modifies this
      ensures Copy() == old(Copy()).(successful := old(successful) + 1)
    {
      successful := successful + 1;
    }

    method CountFailure()
      modifies this
      ensures Copy() == old(Copy()).(failed := old(failed) + 1)
    {
      failed := failed + 1;
    }

    method CountError392708()
      modifies this
      ensures Copy() == old(Copy()).(error392708 := old(error392708) + 1)
    {
      error392708 := error392708 + 1;
    }

    method CountProcessed()
      modifies this
      ensures Copy() == old(Copy()).(processed := old(processed) + 1)
    {
      processed := processed + 1;
    }

    method Complete(at: nat)
      modifies this
      ensures Copy() == old(Copy()).(completedAt := Some(at))
    {
      completedAt := Some(at);
    }
  }
}
