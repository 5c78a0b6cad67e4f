/** What the stored records say: each one tells how the calls for its row went. */
module Records {
  import opened Domain
  import opened QueueTable
  import opened Retry
  import opened Protocol
  import opened Invariant
  import opened Scheduling

  /** The calls made for a prompt. */
  type Answer = (string, seq<Outcome>)

  /** The calls a step has made. */
  function GivenAt(s: State, step: Step): set<Answer> {
    if step.Finish? && step.w in s.workers && s.workers[step.w].phase.Processing? then
      var chunk := s.workers[step.w].phase.chunk;
      set k | 0 <= k < |chunk| && k < |step.runs| :: (chunk[k].prompt, step.runs[k].outcomes)
    else {}
  }

  function Given(c: Config, s: State, steps: seq<Step>): set<Answer>
    requires Valid(c, s, steps)
    decreases |steps|
  {
    if steps == [] then {} else GivenAt(s, steps[0]) + Given(c, Next(c, s, steps[0]), steps[1..])
  }

  /** The record tells how some of the calls for the prompt went. */
  ghost predicate Told(c: Config, given: set<Answer>, prompt: string, r: ResultRecord) {
    exists o :: (prompt, o) in given && c.maxAttempts <= |o| && Tells(r, o, c.maxAttempts)
  }

  ghost predicate ChunkTold(c: Config, given: set<Answer>, chunk: seq<ClaimedItem>, results: seq<ResultRecord>) {
    && |results| == |chunk|
    && forall k :: 0 <= k < |chunk| ==>
         results[k].externalId == chunk[k].externalId && Told(c, given, chunk[k].prompt, results[k])
  }

  /** The record belongs to a row of the job, and tells how calls for the row's prompt went. */
  ghost predicate RecordTold(c: Config, given: set<Answer>, rows: seq<Row>, job: JobId, r: ResultRecord) {
    exists i :: 0 <= i < |rows| && rows[i].job == job && rows[i].externalId == r.externalId && rows[i].prompt.Some?
                && Told(c, given, rows[i].prompt.value, r)
  }

  ghost predicate AllRecordsTold(c: Config, given: set<Answer>, rows: seq<Row>, job: JobId,
                                 records: seq<ResultRecord>) {
    forall k :: 0 <= k < |records| ==> RecordTold(c, given, rows, job, records[k])
  }

  ghost predicate StoreTold(c: Config, given: set<Answer>, rows: seq<Row>, store: seq<StoredChunk>) {
    forall n :: 0 <= n < |store| ==> AllRecordsTold(c, given, rows, store[n].ref.job, store[n].records)
  }

  /** A worker writes its results under its own job. */
  ghost predicate WorkerTold(c: Config, given: set<Answer>, wk: Worker) {
    && (wk.phase.Ready? ==> ChunkTold(c, given, wk.phase.chunk, wk.phase.results))
    && (wk.phase.Written? ==> wk.phase.ref.job == wk.job)
  }

  ghost predicate AllTold(c: Config, given: set<Answer>, s: State) {
    && (forall w <- s.workers :: WorkerTold(c, given, s.workers[w]))
    && (forall i :: 0 <= i < |s.rows| && s.rows[i].resultRef.Some? ==> s.rows[i].resultRef.value.job == s.rows[i].job)
    && StoreTold(c, given, s.rows, s.store)
  }

  // ------------------------------------------------------------- single steps

  lemma FinishTold(c: Config, s: State, w: WorkerId, runs: seq<RowRun>, given: set<Answer>)
    requires Enabled(c, s, Finish(w, runs)) && GivenAt(s, Finish(w, runs)) <= given
    ensures WorkerTold(c, given, AfterFinish(c, s, w, runs).workers[w])
  {
    var chunk := s.workers[w].phase.chunk;
    var results := AfterFinish(c, s, w, runs).workers[w].phase.results;
    forall k | 0 <= k < |chunk|
      ensures results[k].externalId == chunk[k].externalId && Told(c, given, chunk[k].prompt, results[k])
    {
      RowResultTells(chunk[k].externalId, runs[k].outcomes, c.maxAttempts, runs[k].latency);
      assert (chunk[k].prompt, runs[k].outcomes) in GivenAt(s, Finish(w, runs));
    }
  }

  lemma ChunkOfRows(c: Config, given: set<Answer>, rows: seq<Row>, size: nat, job: JobId, chunk: seq<ClaimedItem>,
                    results: seq<ResultRecord>)
    requires ChunkOk(rows, size, job, chunk) && ChunkTold(c, given, chunk, results)
    ensures AllRecordsTold(c, given, rows, job, results)
  {
    forall k | 0 <= k < |results| ensures RecordTold(c, given, rows, job, results[k]) {
      assert ItemOk(rows, job, chunk[k]);
    }
  }

  lemma RecordsFrame(c: Config, given: set<Answer>, rows: seq<Row>, rows': seq<Row>, job: JobId,
                     records: seq<ResultRecord>)
    requires Evolves(rows, rows') && AllRecordsTold(c, given, rows, job, records)
    ensures AllRecordsTold(c, given, rows', job, records)
  {
    forall k | 0 <= k < |records| ensures RecordTold(c, given, rows', job, records[k]) {
      assert RecordTold(c, given, rows, job, records[k]);
    }
  }

  lemma StoreFrame(c: Config, given: set<Answer>, rows: seq<Row>, rows': seq<Row>, store: seq<StoredChunk>)
    requires Evolves(rows, rows') && StoreTold(c, given, rows, store)
    ensures StoreTold(c, given, rows', store)
  {
    forall n | 0 <= n < |store| ensures AllRecordsTold(c, given, rows', store[n].ref.job, store[n].records) {
      RecordsFrame(c, given, rows, rows', store[n].ref.job, store[n].records);
    }
  }

  lemma StoreToldStep(c: Config, s: State, step: Step, given: set<Answer>)
    requires Inv(c, s) && Enabled(c, s, step) && AllTold(c, given, s)
    ensures StoreTold(c, given, Next(c, s, step).rows, Next(c, s, step).store)
  {
    StepEvolves(c, s, step);
    StoreFrame(c, given, s.rows, Next(c, s, step).rows, s.store);
    if step.Write? {
      var wk := s.workers[step.w];
      assert WorkerOk(c, s, step.w) && WorkerTold(c, given, wk);
      ChunkOfRows(c, given, s.rows, c.size, wk.job, wk.phase.chunk, wk.phase.results);
    }
  }

  lemma WorkerToldStep(c: Config, s: State, step: Step, given: set<Answer>, w: WorkerId)
    requires Enabled(c, s, step) && AllTold(c, given, s) && GivenAt(s, step) <= given && w in Next(c, s, step).workers
    ensures WorkerTold(c, given, Next(c, s, step).workers[w])
  {
    if step.Finish? && step.w == w {
      FinishTold(c, s, w, step.runs, given);
    } else if w in s.workers {
      assert WorkerTold(c, given, s.workers[w]);
    }
  }

  /** A row is completed with a file of its own job. */
  lemma CompleteRef(c: Config, s: State, w: WorkerId, given: set<Answer>, i: nat)
    requires Inv(c, s) && Enabled(c, s, Complete(w)) && AllTold(c, given, s) && i < |AfterComplete(s, w).rows|
    ensures var row := AfterComplete(s, w).rows[i]; row.resultRef.Some? ==> row.resultRef.value.job == row.job
  {
    CompleteLength(s.rows, w, s.workers[w].phase.results, s.workers[w].phase.ref);
    CompleteEffect(c, s, w, i);
    assert WorkerTold(c, given, s.workers[w]) && RowOk(s, i);
  }

  lemma InsertRef(s: State, job: JobId, items: seq<PromptItem>, failed: seq<string>, i: nat)
    requires i < |AfterInsert(s, job, items, failed).rows|
    ensures var row := AfterInsert(s, job, items, failed).rows[i];
            if i < |s.rows| then row == s.rows[i] else row.resultRef == None
  {
    InsertRowsFacts(s.rows, NewRows(job, items, failed));
    if i >= |s.rows| { assert AfterInsert(s, job, items, failed).rows[i] in NewRows(job, items, failed); }
  }

  lemma RefStep(c: Config, s: State, step: Step, given: set<Answer>, i: nat)
    requires Inv(c, s) && Enabled(c, s, step) && AllTold(c, given, s) && i < |Next(c, s, step).rows|
    ensures var row := Next(c, s, step).rows[i]; row.resultRef.Some? ==> row.resultRef.value.job == row.job
  {
    match step
    case Insert(job, items, failed) => InsertRef(s, job, items, failed, i);
    case Complete(w) => CompleteRef(c, s, w, given, i);
    case _ =>
  }

  lemma ToldStep(c: Config, s: State, step: Step, given: set<Answer>)
    requires Inv(c, s) && Enabled(c, s, step) && AllTold(c, given, s) && GivenAt(s, step) <= given
    ensures AllTold(c, given, Next(c, s, step))
  {
    var t := Next(c, s, step);
    StoreToldStep(c, s, step, given);
    forall w | w in t.workers ensures WorkerTold(c, given, t.workers[w]) { WorkerToldStep(c, s, step, given, w); }
    forall i | 0 <= i < |t.rows| && t.rows[i].resultRef.Some? ensures t.rows[i].resultRef.value.job == t.rows[i].job {
      RefStep(c, s, step, given, i);
    }
  }

  // --------------------------------------------------------------- whole runs

  lemma {:induction false} RunTold(c: Config, s: State, steps: seq<Step>, given: set<Answer>)
    requires Inv(c, s) && Valid(c, s, steps) && AllTold(c, given, s) && Given(c, s, steps) <= given
    ensures AllTold(c, given, Final(c, s, steps))
    decreases |steps|
  {
    if steps != [] {
      StepInv(c, s, steps[0]);
      ToldStep(c, s, steps[0], given);
      RunTold(c, Next(c, s, steps[0]), steps[1..], given);
    }
  }

  lemma InitialTold(c: Config, s: State, steps: seq<Step>)
    requires Initial(s) && Valid(c, s, steps)
    ensures Inv(c, Final(c, s, steps)) && AllTold(c, Given(c, s, steps), Final(c, s, steps))
  {
    InitialInv(c, s);
    RunInv(c, s, steps);
    RunTold(c, s, steps, Given(c, s, steps));
  }

  lemma RowOfRecord(c: Config, given: set<Answer>, rows: seq<Row>, job: JobId, r: ResultRecord, i: nat)
    requires UniqueKeys(rows) && RecordTold(c, given, rows, job, r)
    requires i < |rows| && rows[i].job == job && rows[i].externalId == r.externalId
    ensures rows[i].prompt.Some? && Told(c, given, rows[i].prompt.value, r)
  {
    var j :| 0 <= j < |rows| && rows[j].job == job && rows[j].externalId == r.externalId && rows[j].prompt.Some?
             && Told(c, given, rows[j].prompt.value, r);
    assert SameKey(rows[i], rows[j]) && SameKey(rows[j], rows[i]);
  }

  /** In every run each stored record has its row, and tells how calls made in the run for that row's prompt went: if
      the last one succeeded, the record holds its text. */
  lemma StoredAnswers(c: Config, s: State, steps: seq<Step>, n: nat, k: nat)
    requires Initial(s) && Valid(c, s, steps)
    requires n < |Final(c, s, steps).store| && k < |Final(c, s, steps).store[n].records|
    ensures var t, x := Final(c, s, steps), Final(c, s, steps).store[n];
            && HasKey(t.rows, x.ref.job, x.records[k].externalId)
            && forall i :: 0 <= i < |t.rows| && t.rows[i].job == x.ref.job
                           && t.rows[i].externalId == x.records[k].externalId ==>
                 t.rows[i].prompt.Some? && Told(c, Given(c, s, steps), t.rows[i].prompt.value, x.records[k])
  {
    InitialTold(c, s, steps);
    var t, x, given := Final(c, s, steps), Final(c, s, steps).store[n], Given(c, s, steps);
    assert AllRecordsTold(c, given, t.rows, x.ref.job, x.records);
    assert RecordTold(c, given, t.rows, x.ref.job, x.records[k]);
    forall i | 0 <= i < |t.rows| && t.rows[i].job == x.ref.job && t.rows[i].externalId == x.records[k].externalId
      ensures t.rows[i].prompt.Some? && Told(c, given, t.rows[i].prompt.value, x.records[k])
    {
      RowOfRecord(c, given, t.rows, x.ref.job, x.records[k], i);
    }
  }

  // ------------------------------------------------------- a deterministic endpoint

  lemma {:induction false} GivenDetermined(c: Config, f: Endpoint, s: State, steps: seq<Step>)
    requires Valid(c, s, steps) && DeterministicRun(c, f, s, steps)
    ensures forall a <- Given(c, s, steps) :: a.1 == f(a.0)
    decreases |steps|
  {
    if steps != [] {
      GivenDetermined(c, f, Next(c, s, steps[0]), steps[1..]);
      assert DeterministicStep(f, s, steps[0]);
    }
  }

  /** With a deterministic endpoint a record tells what the endpoint answers to its row's prompt. */
  lemma ToldByEndpoint(c: Config, f: Endpoint, s: State, steps: seq<Step>, prompt: string, r: ResultRecord)
    requires Answers(c, f) && Valid(c, s, steps) && DeterministicRun(c, f, s, steps)
    requires Told(c, Given(c, s, steps), prompt, r)
    ensures Tells(r, f(prompt), c.maxAttempts)
  {
    GivenDetermined(c, f, s, steps);
    var o :| (prompt, o) in Given(c, s, steps) && c.maxAttempts <= |o| && Tells(r, o, c.maxAttempts);
    assert (prompt, o).1 == f((prompt, o).0);
  }

  /** In every run with a deterministic endpoint each stored record holds the answer to the prompt of its row. */
  lemma EndpointAnswers(c: Config, f: Endpoint, s: State, steps: seq<Step>, n: nat, k: nat, i: nat)
    requires Answers(c, f) && Initial(s) && Valid(c, s, steps) && DeterministicRun(c, f, s, steps)
    requires n < |Final(c, s, steps).store| && k < |Final(c, s, steps).store[n].records|
    requires var t, x := Final(c, s, steps), Final(c, s, steps).store[n];
             i < |t.rows| && t.rows[i].job == x.ref.job && t.rows[i].externalId == x.records[k].externalId
    ensures var row := Final(c, s, steps).rows[i];
            row.prompt.Some? && Tells(Final(c, s, steps).store[n].records[k], f(row.prompt.value), c.maxAttempts)
  {
    StoredAnswers(c, s, steps, n, k);
    ToldByEndpoint(c, f, s, steps, Final(c, s, steps).rows[i].prompt.value, Final(c, s, steps).store[n].records[k]);
  }
}
