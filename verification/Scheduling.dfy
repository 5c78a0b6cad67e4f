/** Scheduling independence: with a deterministic endpoint, every complete run ends like one sequential pass. */
module Scheduling {
  import opened Domain
  import opened QueueTable
  import opened Retry
  import opened Protocol
  import opened Invariant
  import Completion

  /** The part of a row the outside world sees of its result. */
  datatype Verdict = Verdict(status: Status, error: Option<string>, attempts: nat)

  /** The calls an endpoint gives for each prompt. */
  type Endpoint = string -> seq<Outcome>

  ghost predicate Answers(c: Config, f: Endpoint) {
    forall prompt :: c.maxAttempts <= |f(prompt)|
  }

  function VerdictOf(row: Row): Verdict {
    Verdict(row.status, row.error, row.attempts)
  }

  function RecordVerdict(r: ResultRecord): Verdict {
    Verdict(r.status, r.error, r.attempts)
  }

  /** The verdict of a prompt, whatever the external id and the latency. */
  function Expected(c: Config, f: Endpoint, prompt: string): Verdict
    requires c.maxAttempts <= |f(prompt)|
  {
    RecordVerdict(RowResult("", f(prompt), c.maxAttempts, 0))
  }

  lemma ExpectedOf(c: Config, f: Endpoint, externalId: string, prompt: string, latency: nat)
    requires c.maxAttempts <= |f(prompt)|
    ensures RecordVerdict(RowResult(externalId, f(prompt), c.maxAttempts, latency)) == Expected(c, f, prompt)
  {}

  // ------------------------------------------------------ the sequential pass

  /** One worker, one row at a time, in id order from `k` on. */
  function SequentialPass(c: Config, f: Endpoint, rows: seq<Row>, job: JobId, ref: ChunkRef, k: nat): seq<Row>
    requires Answers(c, f)
    decreases |rows| - k
  {
    if k >= |rows| then rows
    else if rows[k].job == job && !Terminal(rows[k].status) then
      var r := RowResult(rows[k].externalId, f(rows[k].prompt.GetOr("")), c.maxAttempts, 0);
      SequentialPass(c, f, rows[k := Stamp(rows[k], r, ref)], job, ref, k + 1)
    else SequentialPass(c, f, rows, job, ref, k + 1)
  }

  lemma {:induction false} SequentialPassAt(c: Config, f: Endpoint, rows: seq<Row>, job: JobId, ref: ChunkRef, k: nat,
                                            i: nat)
    requires Answers(c, f) && i < |rows|
    ensures |SequentialPass(c, f, rows, job, ref, k)| == |rows|
    ensures var row := SequentialPass(c, f, rows, job, ref, k)[i];
            if i >= k && rows[i].job == job && !Terminal(rows[i].status)
            then VerdictOf(row) == Expected(c, f, rows[i].prompt.GetOr(""))
            else row == rows[i]
    decreases |rows| - k
  {
    if k < |rows| {
      if rows[k].job == job && !Terminal(rows[k].status) {
        var r := RowResult(rows[k].externalId, f(rows[k].prompt.GetOr("")), c.maxAttempts, 0);
        ExpectedOf(c, f, rows[k].externalId, rows[k].prompt.GetOr(""), 0);
        SequentialPassAt(c, f, rows[k := Stamp(rows[k], r, ref)], job, ref, k + 1, i);
      } else {
        SequentialPassAt(c, f, rows, job, ref, k + 1, i);
      }
    }
  }

  // -------------------------------------------------------- concurrent runs

  ghost predicate DeterministicStep(f: Endpoint, s: State, step: Step) {
    step.Finish? && step.w in s.workers && s.workers[step.w].phase.Processing? ==>
      var chunk := s.workers[step.w].phase.chunk;
      |step.runs| == |chunk| && forall k :: 0 <= k < |chunk| ==> step.runs[k].outcomes == f(chunk[k].prompt)
  }

  ghost predicate DeterministicRun(c: Config, f: Endpoint, s: State, steps: seq<Step>)
    requires Valid(c, s, steps)
    decreases |steps|
  {
    steps == [] || (DeterministicStep(f, s, steps[0]) && DeterministicRun(c, f, Next(c, s, steps[0]), steps[1..]))
  }

  /** What workers have computed but not committed is what the endpoint answers. */
  ghost predicate Computed(c: Config, f: Endpoint, wk: Worker)
    requires Answers(c, f)
  {
    wk.phase.Ready? || wk.phase.Written? ==>
      |wk.phase.results| == |wk.phase.chunk|
      && forall k :: 0 <= k < |wk.phase.chunk| ==>
           RecordVerdict(wk.phase.results[k]) == Expected(c, f, wk.phase.chunk[k].prompt)
  }

  ghost predicate AllComputed(c: Config, f: Endpoint, s: State)
    requires Answers(c, f)
  {
    forall w <- s.workers :: Computed(c, f, s.workers[w])
  }

  lemma FinishComputed(c: Config, f: Endpoint, s: State, w: WorkerId, runs: seq<RowRun>)
    requires Answers(c, f) && Enabled(c, s, Finish(w, runs)) && DeterministicStep(f, s, Finish(w, runs))
    ensures Computed(c, f, AfterFinish(c, s, w, runs).workers[w])
  {
    var chunk := s.workers[w].phase.chunk;
    forall k | 0 <= k < |chunk|
      ensures RecordVerdict(Results(c.maxAttempts, chunk, runs)[k]) == Expected(c, f, chunk[k].prompt)
    {
      ExpectedOf(c, f, chunk[k].externalId, chunk[k].prompt, runs[k].latency);
    }
  }

  lemma ComputedStep(c: Config, f: Endpoint, s: State, step: Step)
    requires Answers(c, f) && Enabled(c, s, step) && AllComputed(c, f, s) && DeterministicStep(f, s, step)
    ensures AllComputed(c, f, Next(c, s, step))
  {
    var t := Next(c, s, step);
    forall w | w in t.workers ensures Computed(c, f, t.workers[w]) {
      if step.Finish? && w == step.w {
        FinishComputed(c, f, s, w, step.runs);
      } else if w in s.workers {
        assert Computed(c, f, s.workers[w]);
      }
    }
  }

  /** A row that becomes terminal takes the verdict of its prompt. */
  lemma BecomesExpected(c: Config, f: Endpoint, s: State, step: Step, i: nat)
    requires Answers(c, f) && Inv(c, s) && Enabled(c, s, step) && AllComputed(c, f, s)
    requires i < |s.rows| && i < |Next(c, s, step).rows|
    requires !Terminal(s.rows[i].status) && Terminal(Next(c, s, step).rows[i].status)
    ensures s.rows[i].prompt.Some? && VerdictOf(Next(c, s, step).rows[i]) == Expected(c, f, s.rows[i].prompt.value)
  {
    assert RowOk(s, i);
    match step
    case Complete(w) =>
      CompleteEffect(c, s, w, i);
      var p := s.workers[w].phase;
      var k :| 0 <= k < |p.chunk| && p.chunk[k].id == i
        && AfterComplete(s, w).rows[i] == Stamp(s.rows[i], p.results[k], p.ref);
      assert WorkerOk(c, s, w) && ItemOk(s.rows, s.workers[w].job, p.chunk[k]) && Computed(c, f, s.workers[w]);
    case _ =>
  }

  /** What a row with this prompt must end as; a row without one was rejected at ingest. */
  function VerdictFor(c: Config, f: Endpoint, prompt: Option<string>): Verdict
    requires Answers(c, f)
  {
    match prompt
    case None => Verdict(Failed, None, 0)
    case Some(p) => Expected(c, f, p)
  }

  /** A row that is terminal after a step was so before, or has the verdict of its prompt. */
  lemma VerdictStep(c: Config, f: Endpoint, s: State, step: Step, i: nat)
    requires Answers(c, f) && Inv(c, s) && Enabled(c, s, step) && AllComputed(c, f, s)
    requires i < |Next(c, s, step).rows| && Terminal(Next(c, s, step).rows[i].status)
    ensures var row := Next(c, s, step).rows[i];
            if i < |s.rows| && Terminal(s.rows[i].status) then row == s.rows[i]
            else VerdictOf(row) == VerdictFor(c, f, row.prompt)
  {
    var t := Next(c, s, step);
    StepEvolves(c, s, step);
    if i >= |s.rows| {
      Completion.AddedRows(c, s, step, i);
      InsertRowsFacts(s.rows, NewRows(step.job, step.items, step.failed));
      assert t.rows[i] in NewRows(step.job, step.items, step.failed);
    } else if !Terminal(s.rows[i].status) {
      BecomesExpected(c, f, s, step, i);
    }
  }

  /** In every run a row that was terminal at its start stays as it is, and every other row that is terminal at its end,
      inserted during the run or before, has the verdict of its prompt. */
  lemma {:induction false} RunVerdict(c: Config, f: Endpoint, s: State, steps: seq<Step>, i: nat)
    requires Answers(c, f) && Inv(c, s) && Valid(c, s, steps) && DeterministicRun(c, f, s, steps)
             && AllComputed(c, f, s)
    requires i < |Final(c, s, steps).rows|
    ensures var t := Final(c, s, steps);
            if i < |s.rows| && Terminal(s.rows[i].status) then t.rows[i] == s.rows[i]
            else Terminal(t.rows[i].status) ==> VerdictOf(t.rows[i]) == VerdictFor(c, f, t.rows[i].prompt)
    decreases |steps|
  {
    if steps != [] {
      var m, t := Next(c, s, steps[0]), Final(c, s, steps);
      StepInv(c, s, steps[0]);
      StepEvolves(c, s, steps[0]);
      ComputedStep(c, f, s, steps[0]);
      RunVerdict(c, f, m, steps[1..], i);
      if i < |m.rows| && Terminal(m.rows[i].status) { VerdictStep(c, f, s, steps[0], i); }
    }
  }

  /** Any two complete runs, and the sequential pass, give every row of the job the same status, error and attempts. */
  lemma SchedulingIndependence(c: Config, f: Endpoint, s: State, steps: seq<Step>, job: JobId, ref: ChunkRef, i: nat)
    requires Answers(c, f) && Inv(c, s) && Valid(c, s, steps) && DeterministicRun(c, f, s, steps)
             && AllComputed(c, f, s)
    requires i < |s.rows| && s.rows[i].job == job
    requires forall j :: 0 <= j < |Final(c, s, steps).rows| && Final(c, s, steps).rows[j].job == job ==>
               Terminal(Final(c, s, steps).rows[j].status)
    ensures |SequentialPass(c, f, s.rows, job, ref, 0)| == |s.rows| <= |Final(c, s, steps).rows|
    ensures VerdictOf(Final(c, s, steps).rows[i]) == VerdictOf(SequentialPass(c, f, s.rows, job, ref, 0)[i])
  {
    RunEvolves(c, s, steps);
    RunVerdict(c, f, s, steps, i);
    assert Inv(c, s) && RowOk(s, i);
    SequentialPassAt(c, f, s.rows, job, ref, 0, i);
  }

  /** Hence for every pool, whatever its size, chunk size, delays and lapsed leases, beside other pools or not, once it
      and all others have returned. */
  lemma PoolLikeSequentialPass(c: Config, f: Endpoint, s: State, steps: seq<Step>, pool: set<WorkerId>, job: JobId,
                               dead: set<WorkerId>, ref: ChunkRef, i: nat)
    requires Answers(c, f) && DeterministicSetup(c, f, s, steps)
    requires c.size >= 1 && pool != {} && Inv(c, s) && Valid(c, s, steps) && Completion.NothingAdded(c, s, steps, job)
    requires Completion.PoolOn(s, pool, job) && Completion.AllIdle(s, pool) && Completion.Abandoned(s, job, dead)
    requires Completion.AllExited(Final(c, s, steps), pool) && Completion.Alone(Final(c, s, steps), pool, job, dead)
    requires i < |s.rows| && s.rows[i].job == job
    ensures |SequentialPass(c, f, s.rows, job, ref, 0)| == |s.rows| <= |Final(c, s, steps).rows|
    ensures VerdictOf(Final(c, s, steps).rows[i]) == VerdictOf(SequentialPass(c, f, s.rows, job, ref, 0)[i])
  {
    var t := Final(c, s, steps);
    forall j | 0 <= j < |t.rows| && t.rows[j].job == job ensures Terminal(t.rows[j].status) {
      Completion.CleanStartCompletes(c, s, steps, pool, job, dead, j);
    }
    SchedulingIndependence(c, f, s, steps, job, ref, i);
  }

  ghost predicate DeterministicSetup(c: Config, f: Endpoint, s: State, steps: seq<Step>)
    requires Answers(c, f)
  {
    Valid(c, s, steps) && DeterministicRun(c, f, s, steps) && AllComputed(c, f, s)
  }
}
