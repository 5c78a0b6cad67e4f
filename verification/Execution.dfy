/** What one execution of a job, and one of another job, does to the table. */
module Execution {
  import opened Domain
  import opened QueueTable
  import Protocol
  import opened Invariant
  import opened Scheduling
  import opened Framing
  import opened Validation
  import opened Ingest
  import opened Ingestor
  import opened Flushing
  import opened Engine

  /** A row that an ingest has added: pending, or terminal without a prompt. */
  predicate Added(row: Row, job: JobId) {
    row.job == job && !row.status.Claimed? && row.workerId.None? && (Terminal(row.status) ==> row.prompt.None?)
  }

  /** From `rows` to `r`: new rows of the job at the end. */
  ghost predicate Ingested(rows: seq<Row>, r: seq<Row>, job: JobId) {
    && rows <= r && (UniqueKeys(rows) ==> UniqueKeys(r))
    && forall i :: |rows| <= i < |r| ==> Added(r[i], job)
  }

  lemma PoolOwnsNone(rows: seq<Row>, r: seq<Row>, job: JobId, pool: seq<WorkerId>)
    requires Ingested(rows, r, job) && forall w <- pool :: OwnsNone(rows, w)
    ensures forall w <- pool :: OwnsNone(r, w)
  {
    assert forall i :: 0 <= i < |rows| ==> r[i] == rows[i];
  }

  lemma NewRowsUnclaimed(job: JobId, items: seq<PromptItem>, failed: seq<string>)
    ensures forall row <- NewRows(job, items, failed) :: Added(row, job)
  {}

  lemma BatchKeeps(rows: seq<Row>, job: JobId, batch: seq<Entry>)
    ensures Ingested(rows, InsertBatch(rows, job, batch), job)
  {
    var new_ := NewRows(job, ItemsOf(batch), FailedOf(batch));
    InsertRowsFacts(rows, new_);
    NewRowsUnclaimed(job, ItemsOf(batch), FailedOf(batch));
    assert forall i :: |rows| <= i < |InsertRows(rows, new_)| ==> InsertRows(rows, new_)[i] in new_;
  }

  lemma IngestedTransitive(a: seq<Row>, b: seq<Row>, d: seq<Row>, job: JobId)
    requires Ingested(a, b, job) && Ingested(b, d, job)
    ensures Ingested(a, d, job)
  {}

  lemma {:induction false} IngestKeeps(rows: seq<Row>, job: JobId, entries: seq<Entry>, size: nat)
    requires size >= 1
    ensures Ingested(rows, IngestRows(rows, job, entries, size), job)
    decreases |entries|
  {
    var batch := if |entries| < size then entries else entries[..size];
    BatchKeeps(rows, job, batch);
    if |entries| >= size {
      IngestKeeps(InsertBatch(rows, job, batch), job, entries[size..], size);
      IngestedTransitive(rows, InsertBatch(rows, job, batch), IngestRows(rows, job, entries, size), job);
    }
  }

  lemma {:induction false} FullBatchesKeep(rows: seq<Row>, job: JobId, entries: seq<Entry>, size: nat)
    requires size >= 1
    ensures Ingested(rows, FullBatches(rows, job, entries, size), job)
    decreases |entries|
  {
    if |entries| >= size {
      BatchKeeps(rows, job, entries[..size]);
      FullBatchesKeep(InsertBatch(rows, job, entries[..size]), job, entries[size..], size);
      IngestedTransitive(rows, InsertBatch(rows, job, entries[..size]), FullBatches(rows, job, entries, size), job);
    }
  }

  /** The table after the ingest of one execution; a broken input loses the rows of the last, partial batch. */
  function AfterIngest(rules: seq<Rule>, rows: seq<Row>, job: JobId, input: InputFile): seq<Row> {
    var entries := Entries(rules, input.objs, 0, {});
    if input.broken.None? then IngestRows(rows, job, entries, INSERT_BATCH)
      else FullBatches(rows, job, entries, INSERT_BATCH)
  }

  lemma AfterIngestKeeps(rules: seq<Rule>, rows: seq<Row>, job: JobId, input: InputFile)
    ensures Ingested(rows, AfterIngest(rules, rows, job, input), job)
  {
    IngestKeeps(rows, job, Entries(rules, input.objs, 0, {}), INSERT_BATCH);
    FullBatchesKeep(rows, job, Entries(rules, input.objs, 0, {}), INSERT_BATCH);
  }

  lemma NothingLeft(c: Protocol.Config, f: Endpoint, rows0: seq<Row>, mid: seq<Row>, rows: seq<Row>, job: JobId,
                    t0: Time, t: Time)
    requires Answers(c, f) && Ingested(rows0, mid, job) && Drained(c, f, mid, rows, job) && t0 <= t
    requires LeasesExpired(rows0, job, t0)
    requires forall i :: 0 <= i < |rows| ==> !Eligible(rows[i], job, t)
    ensures AllTerminal(rows, job)
  {
    forall i | 0 <= i < |rows| && rows[i].job == job ensures Terminal(rows[i].status) {
      if rows[i] == mid[i] && i < |rows0| { assert mid[i] == rows0[i]; }
    }
  }

  // --------------------------------------------------- what an execution leaves

  /** How many objects of an input have been flushed when it breaks: those of the full batches. */
  function Flushed(input: InputFile): nat {
    if input.broken.None? then |input.objs| else |input.objs| / 500 * 500
  }

  /** The job's table holds the input: the keys and prompts are those that ingesting it into `rows0` gives, and every
      object that was flushed has its row. */
  ghost predicate HoldsInput(rules: seq<Rule>, rows0: seq<Row>, rows: seq<Row>, job: JobId, input: InputFile) {
    && Seeds(rows, job) == Seeds(AfterIngest(rules, rows0, job, input), job)
    && forall k :: 0 <= k < Flushed(input) ==> HasKey(rows, job, Entries(rules, input.objs, 0, {})[k].Key())
  }

  lemma PrefixKeeps(rows: seq<Row>, rows': seq<Row>, job: JobId, x: string)
    requires rows <= rows' && HasKey(rows, job, x)
    ensures HasKey(rows', job, x)
  {
    var i :| 0 <= i < |rows| && rows[i].job == job && rows[i].externalId == x;
    assert rows'[i] == rows[i];
  }

  lemma {:induction false} ItemOrFailed(batch: seq<Entry>, k: nat)
    requires k < |batch|
    ensures match batch[k]
            case Accepted(item) => item in ItemsOf(batch)
            case Rejected(id, _) => id in FailedOf(batch)
    decreases |batch|
  {
    if k > 0 {
      assert batch[k] == batch[1..][k - 1];
      ItemOrFailed(batch[1..], k - 1);
    }
  }

  /** Every entry of a batch has its row after the insert. */
  lemma BatchHasKeys(rows: seq<Row>, job: JobId, batch: seq<Entry>, k: nat)
    requires k < |batch|
    ensures HasKey(InsertBatch(rows, job, batch), job, batch[k].Key())
  {
    var items, failed := ItemsOf(batch), FailedOf(batch);
    var new_ := NewRows(job, items, failed);
    ItemOrFailed(batch, k);
    InsertRowsFacts(rows, new_);
    if batch[k].Accepted? {
      var n :| 0 <= n < |items| && items[n] == batch[k].item;
      assert new_[n] in new_;
    } else {
      var n :| 0 <= n < |failed| && failed[n] == batch[k].id;
      assert new_[|items| + n] in new_;
    }
  }

  lemma {:induction false} IngestHasKeys(rows: seq<Row>, job: JobId, entries: seq<Entry>, size: nat, k: nat)
    requires size >= 1 && k < |entries|
    ensures HasKey(IngestRows(rows, job, entries, size), job, entries[k].Key())
    decreases |entries|
  {
    if |entries| < size {
      BatchHasKeys(rows, job, entries, k);
    } else {
      var mid := InsertBatch(rows, job, entries[..size]);
      if k < size {
        BatchHasKeys(rows, job, entries[..size], k);
        IngestKeeps(mid, job, entries[size..], size);
        PrefixKeeps(mid, IngestRows(rows, job, entries, size), job, entries[k].Key());
      } else {
        IngestHasKeys(mid, job, entries[size..], size, k - size);
      }
    }
  }

  lemma {:induction false} FullBatchesHaveKeys(rows: seq<Row>, job: JobId, entries: seq<Entry>, k: nat)
    requires k < |entries| / INSERT_BATCH * INSERT_BATCH
    ensures k < |entries| && HasKey(FullBatches(rows, job, entries, INSERT_BATCH), job, entries[k].Key())
    decreases |entries|
  {
    var mid, rest := InsertBatch(rows, job, entries[..INSERT_BATCH]), entries[INSERT_BATCH..];
    if k < INSERT_BATCH {
      BatchHasKeys(rows, job, entries[..INSERT_BATCH], k);
      FullBatchesKeep(mid, job, rest, INSERT_BATCH);
      PrefixKeeps(mid, FullBatches(rows, job, entries, INSERT_BATCH), job, entries[k].Key());
    } else {
      FullBatchesHaveKeys(mid, job, rest, k - INSERT_BATCH);
    }
  }

  lemma AfterIngestHolds(rules: seq<Rule>, rows: seq<Row>, job: JobId, input: InputFile)
    ensures HoldsInput(rules, rows, AfterIngest(rules, rows, job, input), job, input)
  {
    var entries := Entries(rules, input.objs, 0, {});
    forall k | 0 <= k < Flushed(input)
      ensures HasKey(AfterIngest(rules, rows, job, input), job, entries[k].Key())
    {
      if input.broken.None? {
        IngestHasKeys(rows, job, entries, INSERT_BATCH, k);
      } else {
        FullBatchesHaveKeys(rows, job, entries, k);
      }
    }
  }

  /** Keys and prompts stay when the pool runs. */
  lemma DrainedSeeds(c: Protocol.Config, f: Endpoint, mid: seq<Row>, rows: seq<Row>, job: JobId, other: JobId)
    requires Answers(c, f) && Drained(c, f, mid, rows, job)
    ensures Seeds(rows, other) == Seeds(mid, other)
  {
    SeedsSame(mid, rows, other);
  }

  lemma SameSeedsHold(rules: seq<Rule>, rows0: seq<Row>, mid: seq<Row>, rows: seq<Row>, job: JobId, input: InputFile)
    requires HoldsInput(rules, rows0, mid, job, input) && Seeds(rows, job) == Seeds(mid, job)
    ensures HoldsInput(rules, rows0, rows, job, input)
  {
    var entries := Entries(rules, input.objs, 0, {});
    forall k | 0 <= k < Flushed(input) ensures HasKey(rows, job, entries[k].Key()) {
      SeedsAt(mid, job, entries[k].Key());
      SeedsAt(rows, job, entries[k].Key());
    }
  }

  /** Every row of the job with a prompt that an execution has made terminal names a file with its result. */
  ghost predicate JobFiled(c: Protocol.Config, f: Endpoint, rows0: seq<Row>, rows: seq<Row>,
                           files: map<ChunkRef, string>, job: JobId)
    requires Answers(c, f)
  {
    forall i :: 0 <= i < |rows| && rows[i].job == job && Terminal(rows[i].status) && rows[i].prompt.Some?
                && !(i < |rows0| && rows[i] == rows0[i]) ==>
      Filed(c, f, files, rows[i])
  }

  lemma IngestedFiled(c: Protocol.Config, f: Endpoint, rows0: seq<Row>, mid: seq<Row>, rows: seq<Row>,
                      files: map<ChunkRef, string>, job: JobId)
    requires Answers(c, f) && Ingested(rows0, mid, job) && AllFiled(c, f, mid, rows, files)
    ensures JobFiled(c, f, rows0, rows, files, job)
  {
    forall i | 0 <= i < |rows| && rows[i].job == job && Terminal(rows[i].status) && rows[i].prompt.Some?
               && !(i < |rows0| && rows[i] == rows0[i])
      ensures Filed(c, f, files, rows[i])
    {
      assert i < |rows0| ==> mid[i] == rows0[i];
    }
  }

  /** Only rows of the job change, and only rows of the job are added; a worker that owned nothing owns nothing. */
  ghost predicate OnlyJob(rows: seq<Row>, r: seq<Row>, job: JobId) {
    && |rows| <= |r|
    && (forall i :: 0 <= i < |rows| ==>
          r[i].job == rows[i].job && (r[i] == rows[i] || (rows[i].job == job && !r[i].status.Claimed?)))
    && (forall i :: |rows| <= i < |r| ==> r[i].job == job && !r[i].status.Claimed?)
  }

  lemma ExecutionOnlyJob(c: Protocol.Config, f: Endpoint, rows: seq<Row>, mid: seq<Row>, r: seq<Row>, job: JobId)
    requires Answers(c, f) && Ingested(rows, mid, job) && Drained(c, f, mid, r, job)
    ensures OnlyJob(rows, r, job)
  {
    assert forall i :: 0 <= i < |rows| ==> mid[i] == rows[i];
  }

  /** The input has been ingested into `rows0`, and the pool has run on what that left. */
  lemma ExecutionLeaves(c: Protocol.Config, f: Endpoint, rules: seq<Rule>, rows0: seq<Row>, mid: seq<Row>,
                        rows: seq<Row>, files: map<ChunkRef, string>, job: JobId, input: InputFile)
    requires Answers(c, f) && Ingested(rows0, mid, job) && HoldsInput(rules, rows0, mid, job, input)
    requires Drained(c, f, mid, rows, job) && AllFiled(c, f, mid, rows, files)
    ensures OnlyJob(rows0, rows, job) && HoldsInput(rules, rows0, rows, job, input)
    ensures JobFiled(c, f, rows0, rows, files, job)
  {
    ExecutionOnlyJob(c, f, rows0, mid, rows, job);
    DrainedSeeds(c, f, mid, rows, job, job);
    SameSeedsHold(rules, rows0, mid, rows, job, input);
    IngestedFiled(c, f, rows0, mid, rows, files, job);
  }

  // ------------------------------------------------------ what it leaves to others

  /** The rows of the job are the same, in the same places. */
  ghost predicate SameJob(rows: seq<Row>, rows': seq<Row>, job: JobId) {
    && |rows| <= |rows'|
    && (forall i :: 0 <= i < |rows| ==>
          (rows'[i].job == job <==> rows[i].job == job) && (rows[i].job == job ==> rows'[i] == rows[i]))
    && forall i :: |rows| <= i < |rows'| ==> rows'[i].job != job
  }

  lemma OtherSame(rows: seq<Row>, rows': seq<Row>, job: JobId, other: JobId)
    requires OnlyJob(rows, rows', job) && other != job
    ensures SameJob(rows, rows', other)
  {}

  lemma SameTransitive(a: seq<Row>, b: seq<Row>, d: seq<Row>, job: JobId)
    requires SameJob(a, b, job) && SameJob(b, d, job)
    ensures SameJob(a, d, job)
  {}

  lemma {:induction false} SameSeeds(rows: seq<Row>, rows': seq<Row>, job: JobId)
    requires SameJob(rows, rows', job)
    ensures Seeds(rows', job) == Seeds(rows, job)
    decreases |rows'|
  {
    if rows' != [] {
      var n' := |rows'| - 1;
      if |rows'| > |rows| {
        SameSeeds(rows, rows'[..n'], job);
      } else {
        assert rows[..n'][..] == rows[..n'];
        SameSeeds(rows[..n'], rows'[..n'], job);
      }
    }
  }

  lemma SameLeft(rows: seq<Row>, rows': seq<Row>, job: JobId, t: Time, t': Time)
    requires SameJob(rows, rows', job) && t <= t'
    ensures LeasesExpired(rows, job, t) ==> LeasesExpired(rows', job, t')
    ensures AllTerminal(rows, job) ==> AllTerminal(rows', job)
  {}

  lemma SameFiled(c: Protocol.Config, f: Endpoint, rows0: seq<Row>, rows: seq<Row>, rows': seq<Row>,
                  files: map<ChunkRef, string>, files': map<ChunkRef, string>, job: JobId)
    requires Answers(c, f) && JobFiled(c, f, rows0, rows, files, job) && SameJob(rows, rows', job)
             && Keeps(files, files')
    ensures JobFiled(c, f, rows0, rows', files', job)
  {
    forall i | 0 <= i < |rows'| && rows'[i].job == job && Terminal(rows'[i].status) && rows'[i].prompt.Some?
               && !(i < |rows0| && rows'[i] == rows0[i])
      ensures Filed(c, f, files', rows'[i])
    {
      assert rows'[i] == rows[i];
      FiledKept(c, f, files, files', rows[i]);
    }
  }

  /** What an execution has made terminal since `rows` it has made so since `rows0`, when nothing had changed between.
      */
  lemma FiledSince(c: Protocol.Config, f: Endpoint, rows0: seq<Row>, rows: seq<Row>, r: seq<Row>,
                   files: map<ChunkRef, string>, job: JobId)
    requires Answers(c, f) && SameJob(rows0, rows, job) && OnlyJob(rows, r, job) && JobFiled(c, f, rows, r, files, job)
    ensures JobFiled(c, f, rows0, r, files, job)
  {}

  /** Ingesting into a table that holds the same rows of the job comes to the same. */
  lemma {:induction false} FullBatchesSeeds(a: seq<Row>, b: seq<Row>, job: JobId, entries: seq<Entry>, size: nat)
    requires size >= 1 && Seeds(a, job) == Seeds(b, job)
    ensures Seeds(FullBatches(a, job, entries, size), job) == Seeds(FullBatches(b, job, entries, size), job)
    decreases |entries|
  {
    if |entries| >= size {
      BatchSeeds(a, job, entries[..size]);
      BatchSeeds(b, job, entries[..size]);
      FullBatchesSeeds(InsertBatch(a, job, entries[..size]), InsertBatch(b, job, entries[..size]), job, entries[size..],
                       size);
    }
  }

  lemma HoldsSince(rules: seq<Rule>, rows0: seq<Row>, rows: seq<Row>, r: seq<Row>, job: JobId, input: InputFile)
    requires SameJob(rows0, rows, job) && HoldsInput(rules, rows, r, job, input)
    ensures HoldsInput(rules, rows0, r, job, input)
  {
    var entries := Entries(rules, input.objs, 0, {});
    SameSeeds(rows0, rows, job);
    IngestSeeds(rows0, job, entries, INSERT_BATCH);
    IngestSeeds(rows, job, entries, INSERT_BATCH);
    FullBatchesSeeds(rows0, rows, job, entries, INSERT_BATCH);
  }

  lemma StillOwnsNone(rows: seq<Row>, r: seq<Row>, job: JobId, pool: seq<WorkerId>)
    requires OnlyJob(rows, r, job) && forall w <- pool :: OwnsNone(rows, w)
    ensures forall w <- pool :: OwnsNone(r, w)
  {
    forall w | w in pool ensures OwnsNone(r, w) {
      forall i | 0 <= i < |r| ensures !Owned(r[i], w) {
        if i < |rows| { assert !Owned(rows[i], w); }
      }
    }
  }
}
