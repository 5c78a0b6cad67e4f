/** The ingest loop: read, validate, collect, flush every 500 rows. */
module Ingestor {
  import opened Domain
  import opened Validation
  import opened Ingest
  import opened RowIds
  import opened Repositories

  const INSERT_BATCH: nat := 500

  /** The objects the parser yields, and the error it ends in if the file is broken. */
  datatype InputFile = InputFile(objs: seq<Obj>, broken: Option<string>)

  datatype IngestSummary = IngestSummary(total: nat, accepted: nat, rejected: nat)

  datatype Result<+T> = Ok(value: T) | Err(error: string)

  lemma {:induction false} ItemsOfConcat(a: seq<Entry>, b: seq<Entry>)
    ensures ItemsOf(a + b) == ItemsOf(a) + ItemsOf(b)
    decreases |a|
  {
    if a == [] {
      assert a + b == b;
    } else {
      assert (a + b)[0] == a[0] && (a + b)[1..] == a[1..] + b;
      ItemsOfConcat(a[1..], b);
    }
  }

  lemma {:induction false} FailedOfConcat(a: seq<Entry>, b: seq<Entry>)
    ensures FailedOf(a + b) == FailedOf(a) + FailedOf(b)
    decreases |a|
  {
    if a == [] {
      assert a + b == b;
    } else {
      assert (a + b)[0] == a[0] && (a + b)[1..] == a[1..] + b;
      FailedOfConcat(a[1..], b);
    }
  }

  lemma ItemsOfSnoc(a: seq<Entry>, b: seq<Entry>)
    ensures ItemsOf(a + b) == ItemsOf(a) + ItemsOf(b) && FailedOf(a + b) == FailedOf(a) + FailedOf(b)
  {
    ItemsOfConcat(a, b);
    FailedOfConcat(a, b);
  }

  lemma {:induction false} BatchSize(batch: seq<Entry>)
    ensures |ItemsOf(batch)| + |FailedOf(batch)| == |batch|
  {
    if batch != [] { BatchSize(batch[1..]); }
  }

  /** With `buf` collected and `rest` still to come, finishing from `rows` is what ingesting `all` into `rows0` is. */
  ghost predicate OnTrack(rows0: seq<Row>, job: JobId, all: seq<Entry>, rows: seq<Row>, buf: seq<Entry>,
                          rest: seq<Entry>, flushes: nat) {
    && IngestRows(rows, job, buf + rest, INSERT_BATCH) == IngestRows(rows0, job, all, INSERT_BATCH)
    && FullBatches(rows, job, buf + rest, INSERT_BATCH) == FullBatches(rows0, job, all, INSERT_BATCH)
    && flushes + Flushes(|buf| + |rest|, INSERT_BATCH) == Flushes(|all|, INSERT_BATCH)
  }

  lemma ReadOne(rows0: seq<Row>, job: JobId, all: seq<Entry>, rows: seq<Row>, buf: seq<Entry>, rest: seq<Entry>,
                flushes: nat)
    requires rest != [] && OnTrack(rows0, job, all, rows, buf, rest, flushes)
    ensures OnTrack(rows0, job, all, rows, buf + [rest[0]], rest[1..], flushes)
  {
    assert buf + rest == (buf + [rest[0]]) + rest[1..];
  }

  lemma FlushOne(rows0: seq<Row>, job: JobId, all: seq<Entry>, rows: seq<Row>, buf: seq<Entry>, rest: seq<Entry>,
                 flushes: nat)
    requires |buf| == INSERT_BATCH && OnTrack(rows0, job, all, rows, buf, rest, flushes)
    ensures OnTrack(rows0, job, all, InsertBatch(rows, job, buf), [], rest, flushes + 1)
  {
    assert (buf + rest)[..INSERT_BATCH] == buf && (buf + rest)[INSERT_BATCH..] == rest && [] + rest == rest;
  }

  lemma LastFlush(rows0: seq<Row>, job: JobId, all: seq<Entry>, rows: seq<Row>, buf: seq<Entry>, flushes: nat)
    requires |buf| < INSERT_BATCH && OnTrack(rows0, job, all, rows, buf, [], flushes)
    ensures InsertBatch(rows, job, buf) == IngestRows(rows0, job, all, INSERT_BATCH)
    ensures rows == FullBatches(rows0, job, all, INSERT_BATCH)
    ensures flushes + (if buf == [] then 0 else 1) == Flushes(|all|, INSERT_BATCH)
    ensures buf == [] ==> InsertBatch(rows, job, buf) == rows
  {
    assert buf + [] == buf;
  }

  /** The variables of one ingest run: counters, and the rows collected since the last flush. */
  class Collector {
    var items: seq<PromptItem>
    var failed: seq<string>
    var total: nat
    var accepted: nat
    var rejected: nat
    ghost var buf: seq<Entry>
    ghost var flushes: nat

    ghost predicate Valid()
      reads this
    {
      items == ItemsOf(buf) && failed == FailedOf(buf)
    }

    constructor ()
      ensures Valid() && buf == [] && flushes == 0 && total == accepted == rejected == 0
    {
      items, failed, buf := [], [], [];
      total, accepted, rejected, flushes := 0, 0, 0, 0;
    }

    method Add(entry: Entry)
      requires Valid()
      modifies this
      ensures Valid() && buf == old(buf) + [entry] && flushes == old(flushes) && total == old(total) + 1
      ensures accepted == old(accepted) + |ItemsOf([entry])| && rejected == old(rejected) + |FailedOf([entry])|
    {
      total := total + 1;
      if entry.Rejected? {
        rejected := rejected + 1;
        failed := failed + [entry.id];
      } else {
        accepted := accepted + 1;
        items := items + [entry.item];
      }
      ItemsOfSnoc(buf, [entry]);
      buf := buf + [entry];
    }

    /** One insert of everything collected, if there is anything. */
    method Flush(queue: WorkQueue, job: JobId)
      requires Valid()
      modifies this`items, this`failed, this`buf, this`flushes, queue`rows
      ensures Valid() && buf == []
      ensures queue.rows == InsertBatch(old(queue.rows), job, old(buf))
      ensures flushes == old(flushes) + if old(buf) == [] then 0 else 1
    {
      BatchSize(buf);
      if items != [] || failed != [] {
        var _ := queue.BulkInsert(job, items, failed);
        items, failed, flushes := [], [], flushes + 1;
      }
      buf := [];
    }
  }

  class BatchIngestor {
    const queue: WorkQueue
    const jobs: JobRepository
    const validator: ValidationPipeline

    constructor (queue: WorkQueue, jobs: JobRepository, validator: ValidationPipeline)
      ensures this.queue == queue && this.jobs == jobs && this.validator == validator
    {
      this.queue, this.jobs, this.validator := queue, jobs, validator;
    }

    /** Turns one input object into an accepted or rejected row, under its own id or its position, with its prompt. */
    method Classify(obj: Obj, rowNumber: nat, ctx: ValidationContext) returns (entry: Entry)
      modifies ctx
      ensures (entry, ctx.seenIds) == ToEntry(validator.rules, obj, rowNumber, old(ctx.seenIds))
      ensures rowNumber >= 1 ==> EntryOf(obj, rowNumber, entry)
    {
      if rowNumber >= 1 { ToEntryIs(validator.rules, obj, rowNumber, ctx.seenIds); }
      var (item, externalId) := ToItem(obj, rowNumber);
      if item.None? {
        return Rejected(externalId, true);
      }
      var outcome := validator.ValidateItem(item.value, ctx);
      entry := if outcome.ok then Accepted(item.value) else Rejected(item.value.externalId, false);
    }

    /** Collects one row, and flushes when 500 have been collected. */
    method Collect(job: JobId, entry: Entry, c: Collector, ghost rows0: seq<Row>, ghost all: seq<Entry>,
                   ghost rest: seq<Entry>)
      requires c.Valid() && |c.buf| < INSERT_BATCH && rest != [] && entry == rest[0]
      requires OnTrack(rows0, job, all, queue.rows, c.buf, rest, c.flushes)
      modifies c, queue`rows
      ensures c.Valid() && |c.buf| < INSERT_BATCH && c.total == old(c.total) + 1
      ensures c.accepted == old(c.accepted) + |ItemsOf([entry])| && c.rejected == old(c.rejected) + |FailedOf([entry])|
      ensures OnTrack(rows0, job, all, queue.rows, c.buf, rest[1..], c.flushes)
    {
      ReadOne(rows0, job, all, queue.rows, c.buf, rest, c.flushes);
      c.Add(entry);
      BatchSize(c.buf);
      if |c.items| + |c.failed| >= INSERT_BATCH {
        FlushOne(rows0, job, all, queue.rows, c.buf, rest[1..], c.flushes);
        c.Flush(queue, job);
      }
    }

    /** Reads, validates and collects every object. */
    method ReadAll(job: JobId, objs: seq<Obj>, c: Collector)
      requires c.Valid() && c.buf == [] && c.flushes == 0 && c.total == c.accepted == c.rejected == 0
      modifies c, queue`rows
      ensures var all := Entries(validator.rules, objs, 0, {});
              && c.Valid() && |c.buf| < INSERT_BATCH
              && c.total == |objs| && c.accepted == |ItemsOf(all)| && c.rejected == |FailedOf(all)|
              && OnTrack(old(queue.rows), job, all, queue.rows, c.buf, [], c.flushes)
    {
      ghost var rows0, all := queue.rows, Entries(validator.rules, objs, 0, {});
      var ctx := new ValidationContext();
      ghost var rest := all;
      assert objs[0..] == objs && [] + rest == all;
      for k := 0 to |objs|
        invariant fresh(ctx) && c.Valid() && |c.buf| < INSERT_BATCH && c.total == k
        invariant rest == Entries(validator.rules, objs[k..], k, ctx.seenIds)
        invariant c.accepted + |ItemsOf(rest)| == |ItemsOf(all)| && c.rejected + |FailedOf(rest)| == |FailedOf(all)|
        invariant OnTrack(rows0, job, all, queue.rows, c.buf, rest, c.flushes)
      {
        assert objs[k..][0] == objs[k] && objs[k..][1..] == objs[k + 1..];
        var entry := Classify(objs[k], k + 1, ctx);
        Collect(job, entry, c, rows0, all, rest);
        ItemsOfSnoc([entry], rest[1..]);
        assert rest == [entry] + rest[1..];
        rest := rest[1..];
      }
    }

    /** Every input row is written exactly once, in batches of 500 in input order; the job total is recorded at the end.
        A broken file leaves the batches flushed so far behind and no total. */
    method Ingest(job: JobId, input: InputFile) returns (summary: Result<IngestSummary>, ghost flushes: nat)
      modifies queue`rows, jobs
      ensures input.broken.None? ==>
                var entries := Entries(validator.rules, input.objs, 0, {});
                && queue.rows == IngestRows(old(queue.rows), job, entries, INSERT_BATCH)
                && summary == Ok(IngestSummary(|input.objs|, |ItemsOf(entries)|, |FailedOf(entries)|))
                && |input.objs| == |ItemsOf(entries)| + |FailedOf(entries)|
                && flushes == Flushes(|input.objs|, INSERT_BATCH) == (|input.objs| + 499) / 500
                && jobs.jobs == if job in old(jobs.jobs)
                                then old(jobs.jobs)[job := old(jobs.jobs)[job].(total := |input.objs|)]
                                else old(jobs.jobs)
      ensures input.broken.Some? ==>
                && queue.rows == FullBatches(old(queue.rows), job, Entries(validator.rules, input.objs, 0, {}),
                                             INSERT_BATCH)
                && summary == Err(input.broken.value) && jobs.jobs == old(jobs.jobs)
    {
      ghost var all := Entries(validator.rules, input.objs, 0, {});
      var c := new Collector();
      ReadAll(job, input.objs, c);
      LastFlush(old(queue.rows), job, all, queue.rows, c.buf, c.flushes);
      if input.broken.Some? {
        return Err(input.broken.value), c.flushes;
      }
      c.Flush(queue, job);
      BatchSize(all);
      FlushesIsCeiling(|input.objs|, INSERT_BATCH);
      jobs.SetTotal(job, c.total);
      summary, flushes := Ok(IngestSummary(c.total, c.accepted, c.rejected)), c.flushes;
    }
  }
}
