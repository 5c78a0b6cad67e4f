/** The size of a subset. */
module Sets {
  lemma SubsetSize<T>(a: set<T>, b: set<T>)
    requires a <= b
    ensures |a| <= |b| && |b - a| == |b| - |a|
  {
    assert b == a + (b - a);
  }
}

/** The entities of the batch system: rows of the `prompt_items` table, the items
    and records that travel between queue, worker and storage, and inference outcomes. */
module Domain {
  datatype Option<+T> = None | Some(value: T) {
    function GetOr(default: T): T {
      match this
      case None => default
      case Some(v) => v
    }
  }

  type JobId = nat
  type WorkerId = nat
  type Time = int

  datatype Status = Pending | Claimed | Succeeded | Failed

  predicate Terminal(status: Status) {
    status.Succeeded? || status.Failed?
  }

  /** The statuses a worker or the ingestor ever puts in a result record. */
  type FinalStatus = s: Status | Terminal(s) witness Failed

  datatype JobState = JobPending | Ingesting | Running | Completed | JobFailed

  /** Storage key `jobs/{job}/chunks/{chunk}.jsonl`. The chunk is a generated uuid; written as 32 hexadecimal digits,
      names sort as the numbers do. */
  datatype ChunkRef = ChunkRef(job: JobId, chunk: nat)

  /** A row of `prompt_items`. Its id is its index in the table. */
  datatype Row = Row(
    job: JobId,
    externalId: string,
    prompt: Option<string>,
    status: Status,
    attempts: nat,
    workerId: Option<WorkerId>,
    leaseUntil: Option<Time>,
    resultRef: Option<ChunkRef>,
    error: Option<string>)

  datatype PromptItem = PromptItem(externalId: string, prompt: string)

  datatype ClaimedItem = ClaimedItem(id: nat, externalId: string, prompt: string, attempts: nat)

  datatype ResultRecord = ResultRecord(
    externalId: string,
    status: FinalStatus,
    response: Option<string>,
    error: Option<string>,
    attempts: nat,
    latencyMs: Option<nat>)

  /** What one call to the inference endpoint can end in. */
  datatype Outcome =
    | Success(text: string)
    | Retryable(message: string)
    | Permanent(message: string)
    | Unexpected(message: string)
}
