/** The worker as an object: the retry loop, and the claim-process-write-complete loop of a worker on its own.
    Interleavings with other workers are the subject of the lease protocol; here nothing comes in between. */
module Engine {
  import opened Domain
  import opened QueueTable
  import opened Retry
  import opened Protocol
  import opened Invariant
  import opened Repositories
  import opened Scheduling
  import opened Storage
  import opened Framing

  /** The INFLIGHT gauge. */
  class Metrics {
    var inflight: int
    constructor ()
      ensures inflight == 0
    {
      inflight := 0;
    }
  }

  /** Source of generated chunk ids. */
  class Uuids {
    var next: nat
    constructor ()
      ensures next == 0
    {
      next := 0;
    }

    method Fresh() returns (id: nat)
      modifies this
      ensures id == old(next) && next == id + 1
    {
      id, next := next, next + 1;
    }
  }

  /** The attempts of one row. `calls` are the outcomes the endpoint gives, `draws` the random draws of the back-off. */
  method ProcessRow(item: ClaimedItem, policy: Policy, calls: seq<Outcome>, draws: seq<real>, latency: nat,
                    metrics: Metrics)
    returns (record: ResultRecord, slept: real)
    requires policy.maxAttempts <= |calls| && policy.maxAttempts <= |draws|
    modifies metrics
    ensures record == RowResult(item.externalId, calls, policy.maxAttempts, latency)
    ensures slept == Slept(policy, draws, if policy.maxAttempts == 0 then 0 else record.attempts - 1)
    ensures metrics.inflight == old(metrics.inflight)
  {
    var attempt, k := 0, 0;
    var lastError: Option<string> := None;
    var stop := false;
    slept := 0.0;
    metrics.inflight := metrics.inflight + 1;
    while k < policy.maxAttempts && !stop
      invariant k <= policy.maxAttempts && metrics.inflight == old(metrics.inflight) + 1
      invariant !stop && k < policy.maxAttempts ==>
                  LastCall(calls, policy.maxAttempts, 0) == LastCall(calls, policy.maxAttempts, k)
                  && slept == Slept(policy, draws, k)
      invariant policy.maxAttempts == 0 ==> attempt == 0 && lastError == None && slept == 0.0
      invariant (stop || k == policy.maxAttempts) && policy.maxAttempts > 0 ==>
                  && attempt == LastCall(calls, policy.maxAttempts, 0) && slept == Slept(policy, draws, attempt)
                  && !calls[attempt].Success?
                  && lastError
                     == Some((if calls[attempt].Unexpected? then "unexpected: " else "") + calls[attempt].message)
      decreases policy.maxAttempts - k, !stop
    {
      attempt := k;
      match calls[k] {
        case Success(text) =>
          metrics.inflight := metrics.inflight - 1;
          return ResultRecord(item.externalId, Succeeded, Some(text), None, attempt + 1, Some(latency)), slept;
        case Retryable(message) =>
          lastError := Some(message);
          if attempt < policy.maxAttempts - 1 {
            slept := slept + policy.DelayFor(attempt, draws[attempt]);
          }
          assert "" + message == message;
          k := k + 1;
        case Permanent(message) =>
          lastError := Some(message);
          assert "" + message == message;
          stop := true;
        case Unexpected(message) =>
          lastError := Some("unexpected: " + message);
          stop := true;
      }
    }
    metrics.inflight := metrics.inflight - 1;
    if policy.maxAttempts > 0 && !calls[attempt].Unexpected? {
      assert "" + calls[attempt].message == calls[attempt].message;
    }
    record := ResultRecord(item.externalId, Failed, None, lastError, attempt + 1, Some(latency));
  }

  /** One fresh draw in [0, 1] for each retry. */
  method RandomDraws(n: nat) returns (draws: seq<real>)
    ensures |draws| == n && Draws(draws)
  {
    draws := [];
    for k := 0 to n
      invariant |draws| == k && Draws(draws)
    {
      var draw: real :| 0.0 <= draw <= 1.0;
      draws := draws + [draw];
    }
  }

  // ------------------------------------------------- what a worker on its own does

  /** From `rows0` to `rows` only rows of the job changed: open rows were completed with the verdict of their prompt. */
  ghost predicate Drained(c: Config, f: Endpoint, rows0: seq<Row>, rows: seq<Row>, job: JobId)
    requires Answers(c, f)
  {
    |rows| == |rows0| && forall i :: 0 <= i < |rows| ==>
      || rows[i] == rows0[i]
      || (rows0[i].job == job && !Terminal(rows0[i].status) && SameKey(rows[i], rows0[i])
         && rows[i].prompt == rows0[i].prompt
          && Terminal(rows[i].status) && VerdictOf(rows[i]) == Expected(c, f, rows0[i].prompt.GetOr("")))
  }

  lemma DrainedSame(c: Config, f: Endpoint, rows: seq<Row>, job: JobId)
    requires Answers(c, f)
    ensures Drained(c, f, rows, rows, job)
  {}

  function OpenIds(rows: seq<Row>, job: JobId): set<nat> {
    set i: nat | i < |rows| && rows[i].job == job && !Terminal(rows[i].status)
  }

  ghost predicate OwnsNone(rows: seq<Row>, w: WorkerId) {
    forall i :: 0 <= i < |rows| ==> !Owned(rows[i], w)
  }

  /** The record has the verdict of the prompt and tells how the endpoint answered it. */
  ghost predicate Replies(c: Config, f: Endpoint, prompt: string, r: ResultRecord)
    requires Answers(c, f)
  {
    RecordVerdict(r) == Expected(c, f, prompt) && Tells(r, f(prompt), c.maxAttempts)
  }

  /** Results for eligible rows, in the order of the claim, with the answers to their prompts. */
  ghost predicate Ordered(c: Config, f: Endpoint, rows: seq<Row>, job: JobId, now: Time, order: seq<nat>,
                          results: seq<ResultRecord>)
    requires Answers(c, f)
  {
    && |results| == |order|
    && (forall k :: 0 <= k < |order| ==> order[k] < |rows| && Eligible(rows[order[k]], job, now))
    && forall k :: 0 <= k < |order| ==>
         results[k].externalId == rows[order[k]].externalId
         && Replies(c, f, rows[order[k]].prompt.GetOr(""), results[k])
  }

  /** Row `i` after one chunk: completed if it was in the chunk, else as before; not owned by the worker either way. */
  ghost predicate RowDone(c: Config, f: Endpoint, rows: seq<Row>, done: seq<Row>, job: JobId, w: WorkerId,
                          order: seq<nat>, i: nat)
    requires Answers(c, f)
  {
    && |done| == |rows| && i < |rows| && SameKey(done[i], rows[i]) && done[i].prompt == rows[i].prompt
       && !Owned(done[i], w)
    && (i !in order ==> done[i] == rows[i])
    && (i in order ==> Terminal(done[i].status) && VerdictOf(done[i]) == Expected(c, f, rows[i].prompt.GetOr(""))
                       && rows[i].job == job && !Terminal(rows[i].status))
  }

  /** One chunk, claimed and completed. */
  lemma ChunkCompleted(c: Config, f: Endpoint, rows: seq<Row>, job: JobId, now: Time, w: WorkerId, lease: Time,
                       order: seq<nat>, results: seq<ResultRecord>, ref: ChunkRef, i: nat)
    requires Answers(c, f) && UniqueKeys(rows) && OwnsNone(rows, w) && i < |rows|
             && Ordered(c, f, rows, job, now, order, results)
    ensures RowDone(c, f, rows, CompleteRows(ClaimRows(rows, IdSet(order), w, lease), w, results, ref), job, w, order,
                    i)
  {
    var claimed := ClaimRows(rows, IdSet(order), w, lease);
    CompleteRowsAt(claimed, w, results, ref, i);
    assert i in order <==> i in IdSet(order);
    if i in order {
      var k :| 0 <= k < |order| && order[k] == i;
      MatchAt(results, rows[i].externalId);
      assert results[k].externalId == rows[i].externalId;
      var l :| 0 <= l < |results| && results[l] == Match(results, rows[i].externalId).value
               && results[l].externalId == rows[i].externalId;
      assert SameKey(rows[order[l]], rows[i]) && SameKey(rows[i], rows[order[l]]);
      assert order[l] == i;
    }
  }

  /** The items of a chunk are eligible rows of the job. */
  ghost predicate ChunkFrom(rows: seq<Row>, job: JobId, now: Time, chunk: seq<ClaimedItem>) {
    forall k :: 0 <= k < |chunk| ==>
      var i := chunk[k].id;
      i < |rows| && Eligible(rows[i], job, now) && chunk[k].externalId == rows[i].externalId
        && chunk[k].prompt == rows[i].prompt.GetOr("")
  }

  /** The records of a chunk, in its order, with the answers to its prompts. */
  ghost predicate Answered(c: Config, f: Endpoint, chunk: seq<ClaimedItem>, results: seq<ResultRecord>)
    requires Answers(c, f)
  {
    |results| == |chunk| && forall k :: 0 <= k < |chunk| ==>
      results[k].externalId == chunk[k].externalId && Replies(c, f, chunk[k].prompt, results[k])
  }

  /** The chunk is done: the worker owns nothing, and fewer rows of the job are open. */
  ghost predicate ChunkDone(c: Config, f: Endpoint, rows: seq<Row>, done: seq<Row>, job: JobId, w: WorkerId)
    requires Answers(c, f)
  {
    UniqueKeys(done) && OwnsNone(done, w) && Drained(c, f, rows, done, job) && OpenIds(done, job) < OpenIds(rows, job)
  }

  lemma RowsDone(c: Config, f: Endpoint, rows: seq<Row>, done: seq<Row>, job: JobId, w: WorkerId, order: seq<nat>)
    requires Answers(c, f) && UniqueKeys(rows) && |done| == |rows| && order != [] && order[0] < |rows|
    requires forall i: nat :: i < |rows| ==> RowDone(c, f, rows, done, job, w, order, i)
    ensures ChunkDone(c, f, rows, done, job, w)
  {
    forall i, k | 0 <= i < k < |done| ensures !SameKey(done[i], done[k]) {
      assert RowDone(c, f, rows, done, job, w, order, i) && RowDone(c, f, rows, done, job, w, order, k);
      assert !SameKey(rows[i], rows[k]);
    }
    forall i: nat | i < |rows|
      ensures !Owned(done[i], w) && (i in OpenIds(done, job) ==> i in OpenIds(rows, job))
      ensures done[i] == rows[i] || i in order
    {
      assert RowDone(c, f, rows, done, job, w, order, i);
    }
    assert Drained(c, f, rows, done, job) by {
      forall i: nat | i < |rows| && done[i] != rows[i]
        ensures RowDone(c, f, rows, done, job, w, order, i) && i in order {}
    }
    assert RowDone(c, f, rows, done, job, w, order, order[0]) && order[0] in order;
    assert order[0] in OpenIds(rows, job) && order[0] !in OpenIds(done, job);
  }

  lemma ChunkOrder(c: Config, f: Endpoint, rows: seq<Row>, job: JobId, now: Time, chunk: seq<ClaimedItem>,
                   results: seq<ResultRecord>)
    requires Answers(c, f) && ChunkFrom(rows, job, now, chunk) && Answered(c, f, chunk, results)
    ensures Ordered(c, f, rows, job, now, Ids(chunk), results)
  {
    var order := Ids(chunk);
    assert forall k :: 0 <= k < |order| ==> order[k] == chunk[k].id;
  }

  lemma ChunkRows(c: Config, f: Endpoint, rows: seq<Row>, job: JobId, now: Time, w: WorkerId, lease: Time,
                  order: seq<nat>, results: seq<ResultRecord>, ref: ChunkRef)
    requires Answers(c, f) && UniqueKeys(rows) && OwnsNone(rows, w) && Ordered(c, f, rows, job, now, order, results)
    ensures var done := CompleteRows(ClaimRows(rows, IdSet(order), w, lease), w, results, ref);
            |done| == |rows| && forall i: nat :: i < |rows| ==> RowDone(c, f, rows, done, job, w, order, i)
  {
    var table := ClaimRows(rows, IdSet(order), w, lease);
    CompleteLength(table, w, results, ref);
    forall i: nat | i < |rows| ensures RowDone(c, f, rows, CompleteRows(table, w, results, ref), job, w, order, i) {
      ChunkCompleted(c, f, rows, job, now, w, lease, order, results, ref, i);
    }
  }

  /** The whole table after one non-empty chunk. */
  lemma ChunkDrained(c: Config, f: Endpoint, rows: seq<Row>, job: JobId, now: Time, w: WorkerId, lease: Time,
                     order: seq<nat>, results: seq<ResultRecord>, ref: ChunkRef)
    requires Answers(c, f) && UniqueKeys(rows) && OwnsNone(rows, w) && Ordered(c, f, rows, job, now, order, results)
             && order != []
    ensures ChunkDone(c, f, rows, CompleteRows(ClaimRows(rows, IdSet(order), w, lease), w, results, ref), job, w)
  {
    ChunkRows(c, f, rows, job, now, w, lease, order, results, ref);
    RowsDone(c, f, rows, CompleteRows(ClaimRows(rows, IdSet(order), w, lease), w, results, ref), job, w, order);
  }

  // ----------------------------------------------------- what is left in storage

  /** The file holds `records`, and record `k` of them is the row's result, with the endpoint's answer to its prompt. */
  ghost predicate FiledAs(c: Config, f: Endpoint, file: string, row: Row, records: seq<ResultRecord>, k: nat)
    requires Answers(c, f)
  {
    && file == Payload(records) && ReadBack(file) == (if WholeRecords(records) then Some(records) else None)
    && k < |records| && Matches(records[k], row) && Tells(records[k], f(row.prompt.GetOr("")), c.maxAttempts)
  }

  /** The row names a file of its own job, which is there and holds its result. */
  ghost predicate Filed(c: Config, f: Endpoint, files: map<ChunkRef, string>, row: Row)
    requires Answers(c, f)
  {
    && row.resultRef.Some? && row.resultRef.value.job == row.job && row.resultRef.value in files
    && exists records, k :: FiledAs(c, f, files[row.resultRef.value], row, records, k)
  }

  /** Every row that changed names a file with its result. */
  ghost predicate AllFiled(c: Config, f: Endpoint, rows0: seq<Row>, rows: seq<Row>, files: map<ChunkRef, string>)
    requires Answers(c, f)
  {
    |rows| == |rows0| && forall i :: 0 <= i < |rows| && rows[i] != rows0[i] ==> Filed(c, f, files, rows[i])
  }

  /** No file disappears or changes. */
  ghost predicate Keeps(files: map<ChunkRef, string>, files': map<ChunkRef, string>) {
    forall r <- files :: r in files' && files'[r] == files[r]
  }

  /** The chunk ids still to be generated name no file. */
  ghost predicate FreshNames(files: map<ChunkRef, string>, next: nat) {
    forall r <- files :: r.chunk < next
  }

  lemma NoneFiled(c: Config, f: Endpoint, rows: seq<Row>, files: map<ChunkRef, string>)
    requires Answers(c, f)
    ensures AllFiled(c, f, rows, rows, files)
  {}

  lemma FiledKept(c: Config, f: Endpoint, files: map<ChunkRef, string>, files': map<ChunkRef, string>, row: Row)
    requires Answers(c, f) && Filed(c, f, files, row) && Keeps(files, files')
    ensures Filed(c, f, files', row)
  {
    var records, k :| FiledAs(c, f, files[row.resultRef.value], row, records, k);
    assert FiledAs(c, f, files'[row.resultRef.value], row, records, k);
  }

  lemma FiledTransitive(c: Config, f: Endpoint, a: seq<Row>, b: seq<Row>, d: seq<Row>, files: map<ChunkRef, string>,
                        files': map<ChunkRef, string>)
    requires Answers(c, f) && AllFiled(c, f, a, b, files) && AllFiled(c, f, b, d, files') && Keeps(files, files')
    ensures AllFiled(c, f, a, d, files')
  {
    forall i | 0 <= i < |d| && d[i] != a[i] ensures Filed(c, f, files', d[i]) {
      if d[i] == b[i] { FiledKept(c, f, files, files', b[i]); }
    }
  }

  /** A row of a completed chunk takes the chunk's reference and one of its records. */
  lemma CompletedRow(c: Config, f: Endpoint, rows: seq<Row>, job: JobId, now: Time, w: WorkerId, lease: Time,
                     order: seq<nat>, results: seq<ResultRecord>, ref: ChunkRef, i: nat) returns (k: nat)
    requires Answers(c, f) && UniqueKeys(rows) && OwnsNone(rows, w) && i < |rows| && i in order
    requires Ordered(c, f, rows, job, now, order, results)
    ensures var done := CompleteRows(ClaimRows(rows, IdSet(order), w, lease), w, results, ref);
            && |done| == |rows| && k < |results| && Matches(results[k], done[i])
            && Replies(c, f, done[i].prompt.GetOr(""), results[k]) && done[i].resultRef == Some(ref)
            && done[i].job == rows[i].job == job
  {
    var claimed := ClaimRows(rows, IdSet(order), w, lease);
    CompleteRowsAt(claimed, w, results, ref, i);
    var l :| 0 <= l < |order| && order[l] == i;
    MatchAt(results, rows[i].externalId);
    assert results[l].externalId == rows[i].externalId;
    k :| 0 <= k < |results| && results[k] == Match(results, rows[i].externalId).value
         && results[k].externalId == rows[i].externalId;
    assert SameKey(rows[order[k]], rows[i]) && SameKey(rows[i], rows[order[k]]);
    assert order[k] == i;
  }

  /** A completed chunk whose file was written before. */
  lemma ChunkFiled(c: Config, f: Endpoint, rows: seq<Row>, job: JobId, now: Time, w: WorkerId, lease: Time,
                   order: seq<nat>, results: seq<ResultRecord>, ref: ChunkRef, files: map<ChunkRef, string>)
    requires Answers(c, f) && UniqueKeys(rows) && OwnsNone(rows, w) && Ordered(c, f, rows, job, now, order, results)
    requires ref.job == job && ref in files && files[ref] == Payload(results)
    ensures AllFiled(c, f, rows, CompleteRows(ClaimRows(rows, IdSet(order), w, lease), w, results, ref), files)
  {
    var claimed := ClaimRows(rows, IdSet(order), w, lease);
    var done := CompleteRows(claimed, w, results, ref);
    CompleteLength(claimed, w, results, ref);
    ChunkRoundTrip(results);
    forall i: nat | i < |rows| && done[i] != rows[i] ensures Filed(c, f, files, done[i]) {
      ChunkCompleted(c, f, rows, job, now, w, lease, order, results, ref, i);
      var k := CompletedRow(c, f, rows, job, now, w, lease, order, results, ref, i);
      assert FiledAs(c, f, files[ref], done[i], results, k);
    }
  }

  class Worker {
    const id: WorkerId
    const queue: WorkQueue
    const storage: LocalFileStorage
    const uuids: Uuids
    const metrics: Metrics
    const client: Endpoint
    const policy: Policy
    const settings: Config

    constructor (id: WorkerId, queue: WorkQueue, storage: LocalFileStorage, uuids: Uuids, metrics: Metrics,
                 client: Endpoint, policy: Policy, settings: Config)
      ensures this.id == id && this.queue == queue && this.storage == storage && this.uuids == uuids
      ensures this.metrics == metrics && this.client == client && this.policy == policy && this.settings == settings
    {
      this.id, this.queue, this.storage, this.uuids := id, queue, storage, uuids;
      this.metrics, this.client, this.policy, this.settings := metrics, client, policy, settings;
    }

    ghost predicate Ready() {
      Answers(settings, client) && policy.maxAttempts == settings.maxAttempts
    }

    /** The records of a chunk, in its order: each with its row's id, and with the answer to its prompt. */
    method ProcessChunk(chunk: seq<ClaimedItem>) returns (results: seq<ResultRecord>)
      requires Ready()
      modifies metrics
      ensures Answered(settings, client, chunk, results) && metrics.inflight == old(metrics.inflight)
    {
      results := [];
      for k := 0 to |chunk|
        invariant |results| == k && metrics.inflight == old(metrics.inflight)
        invariant forall l :: 0 <= l < k ==>
                    results[l].externalId == chunk[l].externalId
                    && Replies(settings, client, chunk[l].prompt, results[l])
      {
        var calls := client(chunk[k].prompt);
        var draws := RandomDraws(policy.maxAttempts);
        var latency: nat :| latency >= 0;
        var record, _ := ProcessRow(chunk[k], policy, calls, draws, latency, metrics);
        ExpectedOf(settings, client, chunk[k].externalId, chunk[k].prompt, latency);
        RowResultTells(chunk[k].externalId, calls, policy.maxAttempts, latency);
        results := results + [record];
      }
    }

    /** Writes a chunk under a fresh name. */
    method StoreChunk(job: JobId, results: seq<ResultRecord>) returns (ref: ChunkRef)
      requires FreshNames(storage.files, uuids.next)
      modifies storage, uuids
      ensures FreshNames(storage.files, uuids.next) && Keeps(old(storage.files), storage.files)
      ensures ref.job == job && ref !in old(storage.files) && ref in storage.files
      ensures storage.files[ref] == Payload(results)
    {
      var chunkId := uuids.Fresh();
      var stored := storage.WriteChunk(job, chunkId, results, NoFault);
      ref := stored.value;
    }

    /** Completes the processed rows of a chunk claimed from `rows` in `order`, whose file has been written. */
    method CompleteChunk(results: seq<ResultRecord>, ref: ChunkRef,
                         ghost rows: seq<Row>, ghost job: JobId, ghost now: Time, ghost lease: Time,
                         ghost order: seq<nat>)
      requires Ready() && UniqueKeys(rows) && OwnsNone(rows, id) && order != []
      requires Ordered(settings, client, rows, job, now, order, results)
      requires queue.rows == ClaimRows(rows, IdSet(order), id, lease)
      requires ref.job == job && ref in storage.files && storage.files[ref] == Payload(results)
      modifies queue`rows
      ensures ChunkDone(settings, client, rows, queue.rows, job, id)
      ensures AllFiled(settings, client, rows, queue.rows, storage.files)
    {
      ChunkDrained(settings, client, rows, job, now, id, lease, order, results, ref);
      ChunkFiled(settings, client, rows, job, now, id, lease, order, results, ref, storage.files);
      var _ := queue.CompleteItems(id, results, ref);
    }

    /** Processes, stores and completes a chunk just claimed from `rows`: every row it completes names a file of its job
        with its result in it. */
    method FinishChunk(job: JobId, chunk: seq<ClaimedItem>, ghost rows: seq<Row>, ghost lease: Time)
      requires Ready() && UniqueKeys(rows) && OwnsNone(rows, id) && chunk != []
               && ChunkFrom(rows, job, queue.now, chunk)
      requires queue.rows == ClaimRows(rows, IdSet(Ids(chunk)), id, lease) && FreshNames(storage.files, uuids.next)
      modifies queue`rows, storage, uuids, metrics
      ensures ChunkDone(settings, client, rows, queue.rows, job, id)
      ensures AllFiled(settings, client, rows, queue.rows, storage.files)
      ensures Keeps(old(storage.files), storage.files) && FreshNames(storage.files, uuids.next)
      ensures metrics.inflight == old(metrics.inflight)
    {
      var results := ProcessChunk(chunk);
      ChunkOrder(settings, client, rows, job, queue.now, chunk, results);
      var ref := StoreChunk(job, results);
      CompleteChunk(results, ref, rows, job, queue.now, lease, Ids(chunk));
    }

    /** Claims one chunk; an empty claim means that nothing of the job is claimable. */
    method Claim(job: JobId) returns (chunk: seq<ClaimedItem>)
      modifies queue`rows
      ensures ChunkFrom(old(queue.rows), job, queue.now, chunk)
      ensures queue.rows == ClaimRows(old(queue.rows), IdSet(Ids(chunk)), id, queue.now + settings.ttl)
      ensures chunk == [] ==>
                queue.rows == old(queue.rows) && Select(queue.rows, job, queue.now, settings.size, {}) == []
    {
      ghost var rows := queue.rows;
      chunk := queue.ClaimChunk(job, id, settings.size, settings.ttl);
      ClaimedFrom(rows, job, queue.now, settings.size, id, queue.now + settings.ttl, chunk);
    }

    /** Claims, processes, stores and completes one chunk; an empty claim changes nothing. */
    method RunChunk(job: JobId) returns (more: bool)
      requires Ready() && UniqueKeys(queue.rows) && OwnsNone(queue.rows, id) && FreshNames(storage.files, uuids.next)
      modifies queue`rows, storage, uuids, metrics
      ensures UniqueKeys(queue.rows) && OwnsNone(queue.rows, id)
      ensures Drained(settings, client, old(queue.rows), queue.rows, job)
      ensures AllFiled(settings, client, old(queue.rows), queue.rows, storage.files)
      ensures Keeps(old(storage.files), storage.files) && FreshNames(storage.files, uuids.next)
      ensures metrics.inflight == old(metrics.inflight)
      ensures more ==> OpenIds(queue.rows, job) < OpenIds(old(queue.rows), job)
      ensures !more ==> queue.rows == old(queue.rows) && Select(queue.rows, job, queue.now, settings.size, {}) == []
    {
      ghost var rows := queue.rows;
      var chunk := Claim(job);
      if chunk == [] {
        DrainedSame(settings, client, rows, job);
        NoneFiled(settings, client, rows, storage.files);
        return false;
      }
      FinishChunk(job, chunk, rows, queue.now + settings.ttl);
      more := true;
    }

    /** Runs until a claim comes back empty: then nothing of the job is claimable any more, and every row that changed
        has been completed as the sequential pass would have it and names a file with its result. Time may pass between
        chunks. */
    method Run(job: JobId)
      requires Ready() && UniqueKeys(queue.rows) && OwnsNone(queue.rows, id) && FreshNames(storage.files, uuids.next)
      modifies queue, storage, uuids, metrics
      ensures UniqueKeys(queue.rows) && OwnsNone(queue.rows, id) && queue.now >= old(queue.now)
      ensures Drained(settings, client, old(queue.rows), queue.rows, job)
      ensures AllFiled(settings, client, old(queue.rows), queue.rows, storage.files)
      ensures Keeps(old(storage.files), storage.files) && FreshNames(storage.files, uuids.next)
      ensures settings.size >= 1 ==> forall i :: 0 <= i < |queue.rows| ==> !Eligible(queue.rows[i], job, queue.now)
    {
      var more := true;
      NoneFiled(settings, client, queue.rows, storage.files);
      while more
        invariant UniqueKeys(queue.rows) && OwnsNone(queue.rows, id) && queue.now >= old(queue.now)
        invariant Drained(settings, client, old(queue.rows), queue.rows, job)
        invariant AllFiled(settings, client, old(queue.rows), queue.rows, storage.files)
        invariant Keeps(old(storage.files), storage.files) && FreshNames(storage.files, uuids.next)
        invariant !more ==> Select(queue.rows, job, queue.now, settings.size, {}) == []
        decreases OpenIds(queue.rows, job), more
      {
        var d: nat :| d >= 0;
        queue.Elapse(d);
        ghost var mid, files := queue.rows, storage.files;
        more := RunChunk(job);
        DrainedTransitive(settings, client, old(queue.rows), mid, queue.rows, job);
        FiledTransitive(settings, client, old(queue.rows), mid, queue.rows, files, storage.files);
      }
      if settings.size >= 1 {
        OpenWorkIsClaimable(queue.rows, job, queue.now, settings.size);
      }
    }
  }

  lemma ClaimedFrom(rows: seq<Row>, job: JobId, now: Time, size: nat, w: WorkerId, lease: Time, chunk: seq<ClaimedItem>)
    requires Permutes(Ids(chunk), Select(rows, job, now, size, {}))
    requires var claimed := ClaimRows(rows, IdSet(Ids(chunk)), w, lease);
             forall k :: 0 <= k < |chunk| ==>
               chunk[k].id < |claimed| && chunk[k] == ItemOf(claimed[chunk[k].id], chunk[k].id)
    ensures ChunkFrom(rows, job, now, chunk)
    ensures chunk == [] ==>
              Select(rows, job, now, size, {}) == [] && ClaimRows(rows, IdSet(Ids(chunk)), w, lease) == rows
  {
    SelectedEligible(rows, job, now, size, Ids(chunk));
    assert forall k :: 0 <= k < |chunk| ==> Ids(chunk)[k] == chunk[k].id;
    if chunk == [] { assert IdSet(Ids(chunk)) == {}; }
  }

  lemma SelectedEligible(rows: seq<Row>, job: JobId, now: Time, size: nat, order: seq<nat>)
    requires Permutes(order, Select(rows, job, now, size, {}))
    ensures forall k :: 0 <= k < |order| ==> order[k] < |rows| && Eligible(rows[order[k]], job, now)
  {
    SelectIsSelection(rows, job, now, size, {});
    forall k | 0 <= k < |order| ensures order[k] < |rows| && Eligible(rows[order[k]], job, now) {
      assert order[k] in order;
    }
  }

  lemma DrainedTransitive(c: Config, f: Endpoint, a: seq<Row>, b: seq<Row>, d: seq<Row>, job: JobId)
    requires Answers(c, f) && Drained(c, f, a, b, job) && Drained(c, f, b, d, job)
    ensures Drained(c, f, a, d, job)
  {}
}
