/** The pool and the job service as objects, with the pool's workers run one after the other. */
module JobService {
  import opened Domain
  import opened QueueTable
  import opened Retry
  import Protocol
  import opened Repositories
  import opened Scheduling
  import opened Storage
  import opened Framing
  import opened Jsonl
  import opened Validation
  import opened Ingest
  import opened Ingestor
  import opened Engine
  import opened Execution
  import JsonReader

  lemma DrainedOwnsNone(c: Protocol.Config, f: Endpoint, rows0: seq<Row>, rows: seq<Row>, job: JobId, w: WorkerId)
    requires Answers(c, f) && Drained(c, f, rows0, rows, job) && OwnsNone(rows0, w)
    ensures OwnsNone(rows, w)
  {}

  class BatchEngine {
    const queue: WorkQueue
    const jobs: JobRepository
    const storage: LocalFileStorage
    const uuids: Uuids
    const metrics: Metrics
    const client: Endpoint
    const policy: Policy
    const settings: Protocol.Config

    constructor (queue: WorkQueue, jobs: JobRepository, storage: LocalFileStorage, uuids: Uuids, metrics: Metrics,
                 client: Endpoint, policy: Policy, settings: Protocol.Config)
      ensures this.queue == queue && this.jobs == jobs && this.storage == storage && this.uuids == uuids
      ensures this.metrics == metrics && this.client == client && this.policy == policy && this.settings == settings
    {
      this.queue, this.jobs, this.storage, this.uuids := queue, jobs, storage, uuids;
      this.metrics, this.client, this.policy, this.settings := metrics, client, policy, settings;
    }

    ghost predicate Ready() {
      Answers(settings, client) && policy.maxAttempts == settings.maxAttempts
    }

    /** Runs a worker for each of the generated ids and then marks the job COMPLETED, whatever is left of it. Every row
        that has changed names a file with its result. */
    method Run(job: JobId, pool: seq<WorkerId>)
      requires Ready() && UniqueKeys(queue.rows) && forall w <- pool :: OwnsNone(queue.rows, w)
      requires FreshNames(storage.files, uuids.next)
      modifies queue, storage, uuids, metrics, jobs
      ensures UniqueKeys(queue.rows) && queue.now >= old(queue.now)
      ensures Drained(settings, client, old(queue.rows), queue.rows, job)
      ensures AllFiled(settings, client, old(queue.rows), queue.rows, storage.files)
      ensures Keeps(old(storage.files), storage.files) && FreshNames(storage.files, uuids.next)
      ensures pool != [] && settings.size >= 1 ==>
                forall i :: 0 <= i < |queue.rows| ==> !Eligible(queue.rows[i], job, queue.now)
      ensures jobs.jobs == if job in old(jobs.jobs)
                           then old(jobs.jobs)[job := old(jobs.jobs)[job].(state := Completed, error := None)]
                           else old(jobs.jobs)
    {
      DrainedSame(settings, client, queue.rows, job);
      NoneFiled(settings, client, queue.rows, storage.files);
      for k := 0 to |pool|
        invariant UniqueKeys(queue.rows) && queue.now >= old(queue.now) && jobs.jobs == old(jobs.jobs)
        invariant forall w <- pool :: OwnsNone(queue.rows, w)
        invariant Drained(settings, client, old(queue.rows), queue.rows, job)
        invariant AllFiled(settings, client, old(queue.rows), queue.rows, storage.files)
        invariant Keeps(old(storage.files), storage.files) && FreshNames(storage.files, uuids.next)
        invariant k > 0 && settings.size >= 1 ==>
                    forall i :: 0 <= i < |queue.rows| ==> !Eligible(queue.rows[i], job, queue.now)
      {
        ghost var before, files := queue.rows, storage.files;
        var worker := new Worker(pool[k], queue, storage, uuids, metrics, client, policy, settings);
        assert pool[k] in pool;
        worker.Run(job);
        DrainedTransitive(settings, client, old(queue.rows), before, queue.rows, job);
        FiledTransitive(settings, client, old(queue.rows), before, queue.rows, files, storage.files);
        forall w | w in pool ensures OwnsNone(queue.rows, w) {
          DrainedOwnsNone(settings, client, before, queue.rows, job, w);
        }
      }
      jobs.SetState(job, Completed, None);
    }
  }

  /** Appending one record, after a comma unless it is the first, leaves the rest of the stream to come. */
  lemma StreamStep(out: string, records: seq<ResultRecord>, k: nat, first: bool)
    requires k < |records|
    ensures out + Stream(records[k..], first)
            == out + (if first then "" else ",") + Put(records[k], "") + Stream(records[k + 1..], false)
  {
    assert records[k..][0] == records[k] && records[k..][1..] == records[k + 1..];
    PutSplit(records[k], Stream(records[k + 1..], false));
    Regroup(out, if first then "" else ",", Put(records[k], ""), Stream(records[k + 1..], false));
  }

  lemma Regroup(a: string, b: string, c: string, d: string)
    ensures a + (b + (c + d)) == a + b + c + d
  {}

  /** What is recorded of an execution: COMPLETED with the number of input objects, or FAILED with the parser's error.
      */
  predicate Concluded(job: Job, input: InputFile) {
    match input.broken
    case None => job.state == Completed && job.error == None && job.total == |input.objs|
    case Some(error) => job.state == JobFailed && job.error == Some(error)
  }

  predicate OthersKept(jobs: map<JobId, Job>, jobs': map<JobId, Job>, job: JobId) {
    jobs'.Keys == jobs.Keys && forall other <- jobs :: other != job ==> jobs'[other] == jobs[other]
  }

  /** The jobs table after one execution; a broken input leaves the total as it was. */
  predicate Recorded(jobs: map<JobId, Job>, jobs': map<JobId, Job>, job: JobId, input: InputFile) {
    && OthersKept(jobs, jobs', job)
    && (job in jobs ==>
          && Concluded(jobs'[job], input) && jobs'[job].inputPath == jobs[job].inputPath
          && (input.broken.Some? ==> jobs'[job].total == jobs[job].total))
  }

  /** The tables, the clock and the files at one moment. */
  datatype Snapshot = Snapshot(jobs: map<JobId, Job>, rows: seq<Row>, now: Time, files: map<ChunkRef, string>)

  /** Everything an interrupted job needs to be settled by a restarted process has been done since `start`: its input
      has been ingested again, its pool has run, and the outcome is recorded. */
  ghost predicate Settled(c: Protocol.Config, f: Endpoint, rules: seq<Rule>, start: Snapshot, end: Snapshot, job: JobId,
                          input: InputFile, pool: seq<WorkerId>)
    requires Answers(c, f)
  {
    && job in end.jobs && Concluded(end.jobs[job], input)
    && HoldsInput(rules, start.rows, end.rows, job, input)
    && JobFiled(c, f, start.rows, end.rows, end.files, job)
    && (input.broken.None? && CanFinish(c, pool) && LeasesExpired(start.rows, job, start.now) ==>
          AllTerminal(end.rows, job))
  }

  /** The job and its rows are as they were. */
  ghost predicate Untouched(start: Snapshot, end: Snapshot, job: JobId) {
    && (job in end.jobs <==> job in start.jobs) && (job in start.jobs ==> end.jobs[job] == start.jobs[job])
    && SameJob(start.rows, end.rows, job)
  }

  /** Only the job and its rows have changed, and files have been added. */
  ghost predicate OnlyAbout(before: Snapshot, after: Snapshot, job: JobId) {
    && OthersKept(before.jobs, after.jobs, job) && OnlyJob(before.rows, after.rows, job)
    && Keeps(before.files, after.files)
  }

  lemma AllUntouched(start: Snapshot)
    ensures forall job: JobId :: Untouched(start, start, job)
  {}

  lemma OtherSettled(c: Protocol.Config, f: Endpoint, rules: seq<Rule>, start: Snapshot, before: Snapshot,
                     after: Snapshot, job: JobId, other: JobId, input: InputFile, pool: seq<WorkerId>)
    requires Answers(c, f) && OnlyAbout(before, after, job) && other != job
    requires Settled(c, f, rules, start, before, other, input, pool)
    ensures Settled(c, f, rules, start, after, other, input, pool)
  {
    OtherSame(before.rows, after.rows, job, other);
    SameSeeds(before.rows, after.rows, other);
    SameSeedsHold(rules, start.rows, before.rows, after.rows, other, input);
    SameLeft(before.rows, after.rows, other, 0, 0);
    SameFiled(c, f, start.rows, before.rows, after.rows, before.files, after.files, other);
  }

  lemma OtherUntouched(start: Snapshot, before: Snapshot, after: Snapshot, job: JobId, other: JobId)
    requires OnlyAbout(before, after, job) && other != job && Untouched(start, before, other)
    ensures Untouched(start, after, other)
  {
    OtherSame(before.rows, after.rows, job, other);
    SameTransitive(start.rows, before.rows, after.rows, other);
  }

  /** Executing one job leaves the others settled or untouched. */
  lemma OthersStay(c: Protocol.Config, f: Endpoint, rules: seq<Rule>, start: Snapshot, before: Snapshot,
                   after: Snapshot, job: JobId)
    requires Answers(c, f) && OnlyAbout(before, after, job)
    ensures forall other, input, pool :: other != job && Settled(c, f, rules, start, before, other, input, pool) ==>
              Settled(c, f, rules, start, after, other, input, pool)
    ensures forall other :: other != job && Untouched(start, before, other) ==> Untouched(start, after, other)
  {
    forall other, input, pool | other != job && Settled(c, f, rules, start, before, other, input, pool)
      ensures Settled(c, f, rules, start, after, other, input, pool)
    {
      OtherSettled(c, f, rules, start, before, after, job, other, input, pool);
    }
    forall other | other != job && Untouched(start, before, other) ensures Untouched(start, after, other) {
      OtherUntouched(start, before, after, job, other);
    }
  }

  predicate CanFinish(c: Protocol.Config, pool: seq<WorkerId>) {
    pool != [] && c.size >= 1
  }

  class Service {
    const jobs: JobRepository
    const queue: WorkQueue
    const ingestor: BatchIngestor
    const engine: BatchEngine
    const storage: LocalFileStorage

    constructor (jobs: JobRepository, queue: WorkQueue, ingestor: BatchIngestor, engine: BatchEngine,
                 storage: LocalFileStorage)
      ensures this.jobs == jobs && this.queue == queue && this.ingestor == ingestor && this.engine == engine
      ensures this.storage == storage
    {
      this.jobs, this.queue, this.ingestor, this.engine, this.storage := jobs, queue, ingestor, engine, storage;
    }

    ghost predicate Wired() {
      ingestor.queue == queue && ingestor.jobs == jobs && engine.queue == queue && engine.jobs == jobs
      && engine.storage == storage && engine.Ready()
    }

    ghost predicate Named()
      reads storage, engine.uuids
    {
      FreshNames(storage.files, engine.uuids.next)
    }

    /** RUNNING, then the pool, from the table an ingest into `rows0` has left. */
    method RunEngine(job: JobId, pool: seq<WorkerId>, ghost rows0: seq<Row>, ghost t0: Time)
      requires Wired() && Named() && UniqueKeys(queue.rows) && Ingested(rows0, queue.rows, job) && t0 <= queue.now
      requires forall w <- pool :: OwnsNone(rows0, w)
      modifies queue, storage, engine.uuids, engine.metrics, jobs
      ensures Named() && UniqueKeys(queue.rows) && queue.now >= old(queue.now)
      ensures Drained(engine.settings, engine.client, old(queue.rows), queue.rows, job)
      ensures AllFiled(engine.settings, engine.client, old(queue.rows), queue.rows, storage.files)
      ensures Keeps(old(storage.files), storage.files)
      ensures CanFinish(engine.settings, pool) && LeasesExpired(rows0, job, t0) ==> AllTerminal(queue.rows, job)
      ensures jobs.jobs == if job in old(jobs.jobs)
                           then old(jobs.jobs)[job := old(jobs.jobs)[job].(state := Completed, error := None)]
                           else old(jobs.jobs)
    {
      ghost var mid := queue.rows;
      jobs.SetState(job, Running, None);
      PoolOwnsNone(rows0, mid, job, pool);
      engine.Run(job, pool);
      if CanFinish(engine.settings, pool) && LeasesExpired(rows0, job, t0) {
        NothingLeft(engine.settings, engine.client, rows0, mid, queue.rows, job, t0, queue.now);
      }
    }

    /** INGESTING, ingest, RUNNING, run the pool, COMPLETED; a broken input leaves the job FAILED with the parser's
        error. The input that was flushed is in the table, and every row made terminal by a worker names a file with its
        result. If no live lease on the job was left when it started, every row of the job is terminal at the end. */
    method Execute(job: JobId, input: InputFile, pool: seq<WorkerId>)
      requires Wired() && Named() && UniqueKeys(queue.rows) && forall w <- pool :: OwnsNone(queue.rows, w)
      modifies queue, storage, engine.uuids, engine.metrics, jobs
      ensures Named() && UniqueKeys(queue.rows) && queue.now >= old(queue.now)
      ensures OnlyJob(old(queue.rows), queue.rows, job) && Keeps(old(storage.files), storage.files)
      ensures Recorded(old(jobs.jobs), jobs.jobs, job, input)
      ensures HoldsInput(ingestor.validator.rules, old(queue.rows), queue.rows, job, input)
      ensures JobFiled(engine.settings, engine.client, old(queue.rows), queue.rows, storage.files, job)
      ensures input.broken.None? ==>
                Drained(engine.settings, engine.client,
                        AfterIngest(ingestor.validator.rules, old(queue.rows), job, input), queue.rows, job)
      ensures input.broken.None? && CanFinish(engine.settings, pool)
              && LeasesExpired(old(queue.rows), job, old(queue.now)) ==>
                AllTerminal(queue.rows, job)
      ensures input.broken.Some? ==> queue.rows == AfterIngest(ingestor.validator.rules, old(queue.rows), job, input)
    {
      ghost var rows0, mid := queue.rows, AfterIngest(ingestor.validator.rules, queue.rows, job, input);
      jobs.SetState(job, Ingesting, None);
      AfterIngestKeeps(ingestor.validator.rules, rows0, job, input);
      AfterIngestHolds(ingestor.validator.rules, rows0, job, input);
      var summary, _ := ingestor.Ingest(job, input);
      assert queue.rows == mid;
      if summary.Err? {
        jobs.SetState(job, JobFailed, Some(summary.error));
        assert OnlyJob(rows0, mid, job);
        NoneFiled(engine.settings, engine.client, mid, storage.files);
        IngestedFiled(engine.settings, engine.client, rows0, mid, mid, storage.files, job);
        return;
      }
      RunEngine(job, pool, rows0, old(queue.now));
      ExecutionLeaves(engine.settings, engine.client, ingestor.validator.rules, rows0, mid, queue.rows, storage.files,
                      job, input);
    }

    /** The service as it is now. */
    function Now(): Snapshot
      reads queue, jobs, storage
    {
      Snapshot(jobs.jobs, queue.rows, queue.now, storage.files)
    }

    ghost predicate IsSettled(job: JobId, input: InputFile, pool: seq<WorkerId>, start: Snapshot)
      requires engine.Ready()
      reads queue, jobs, storage
    {
      Settled(engine.settings, engine.client, ingestor.validator.rules, start, Now(), job, input, pool)
    }

    /** Executes one interrupted job. */
    method ResumeOne(job: JobId, input: InputFile, pool: seq<WorkerId>, ghost start: Snapshot)
      requires Wired() && Named() && UniqueKeys(queue.rows) && start.now <= queue.now
      requires job in start.jobs && Untouched(start, Now(), job) && forall w <- pool :: OwnsNone(queue.rows, w)
      modifies queue, storage, engine.uuids, engine.metrics, jobs
      ensures Named() && UniqueKeys(queue.rows) && queue.now >= old(queue.now)
      ensures OnlyAbout(old(Now()), Now(), job) && IsSettled(job, input, pool, start)
    {
      ghost var before := Now();
      SameLeft(start.rows, before.rows, job, start.now, before.now);
      Execute(job, input, pool);
      HoldsSince(ingestor.validator.rules, start.rows, before.rows, queue.rows, job, input);
      FiledSince(engine.settings, engine.client, start.rows, before.rows, queue.rows, storage.files, job);
    }

    /** After a restart every interrupted job is executed again, its ingest included: none of them is left INGESTING or
        RUNNING, those whose leases had all expired have only terminal rows, and all other jobs are as they were. */
    method ResumeActive(files: string -> InputFile, pools: JobId -> seq<WorkerId>) returns (count: nat)
      requires Wired() && Named() && UniqueKeys(queue.rows)
      requires forall job, w :: w in pools(job) ==> OwnsNone(queue.rows, w)
      modifies queue, storage, engine.uuids, engine.metrics, jobs
      ensures Named() && Keeps(old(storage.files), storage.files)
      ensures forall job <- old(jobs.jobs) :: Active(old(jobs.jobs)[job].state) ==>
                IsSettled(job, files(old(jobs.jobs)[job].inputPath), pools(job), old(Now()))
      ensures forall job: JobId :: !(job in old(jobs.jobs) && Active(old(jobs.jobs)[job].state)) ==>
                Untouched(old(Now()), Now(), job)
      ensures count == |set job | job in old(jobs.jobs) && Active(old(jobs.jobs)[job].state)|
    {
      ghost var start := Now();
      var active := jobs.ListActive();
      AllUntouched(start);
      for k := 0 to |active|
        invariant Named() && UniqueKeys(queue.rows) && queue.now >= start.now && Keeps(start.files, storage.files)
        invariant forall l, w :: 0 <= l < |active| && w in pools(active[l].0) ==> OwnsNone(queue.rows, w)
        invariant forall l :: 0 <= l < k ==> IsSettled(active[l].0, files(active[l].1), pools(active[l].0), start)
        invariant forall job: JobId :: (forall l :: 0 <= l < k ==> active[l].0 != job) ==> Untouched(start, Now(), job)
      {
        ghost var before := Now();
        var job, path := active[k].0, active[k].1;
        assert active[k] in active;
        ResumeOne(job, files(path), pools(job), start);
        OthersStay(engine.settings, engine.client, ingestor.validator.rules, start, before, Now(), job);
        forall l | 0 <= l < |active| ensures forall w <- pools(active[l].0) :: OwnsNone(queue.rows, w) {
          StillOwnsNone(before.rows, queue.rows, job, pools(active[l].0));
        }
      }
      count := |active|;
    }

    /** The download: nothing for an unknown job, otherwise one JSON array of the stored records, by field. If a line of
        some file does not parse the stream breaks off after the records before it, without the closing bracket. */
    method StreamResults(job: JobId) returns (body: Option<string>, complete: bool, ghost order: seq<ChunkRef>)
      ensures body.Some? <==> job in jobs.jobs
      ensures body.Some? ==> Lists(storage.files.Keys, job, order)
      ensures body.Some? ==>
                forall o :: Lists(storage.files.Keys, job, o) ==>
                  && complete == ReadUpTo(storage.files, o).1
                  && GetArray(body.value + if complete then "" else "]") == Some(ReadUpTo(storage.files, o).0)
                  && JsonReader.ReadObjects(body.value + if complete then "" else "]")
                     == Some(JsonReader.AllMembers(ReadUpTo(storage.files, o).0))
    {
      if job !in jobs.jobs {
        return None, false, [];
      }
      var all: seq<ResultRecord>;
      all, complete, order := storage.IterResults(job);
      var out := "[";
      var first := true;
      for k := 0 to |all|
        invariant first <==> k == 0
        invariant out + Stream(all[k..], first) == Download(all)
      {
        StreamStep(out, all, k, first);
        out := out + (if first then "" else ",") + Put(all[k], "");
        first := false;
      }
      assert all[|all|..] == [];
      assert out + "]" == Download(all);
      DownloadRoundTrip(all);
      JsonReader.DownloadMembers(all);
      if complete {
        assert (out + "]") + "" == out + "]";
        out := out + "]";
      }
      body := Some(out);
    }
  }
}
