/** Conservation of rows over runs, as the status counts of a job report it. */
module Conservation {
  import opened Domain
  import opened QueueTable
  import opened Protocol
  import opened Invariant
  import opened Ownership
  import Completion

  function TerminalIds(rows: seq<Row>, job: JobId): set<nat> {
    set i: nat | i < |rows| && rows[i].job == job && Terminal(rows[i].status)
  }

  function ExternalIds(rows: seq<Row>, job: JobId): set<string> {
    set i: nat | i < |rows| && rows[i].job == job :: rows[i].externalId
  }

  /** The four status counts add up to the number of rows of the job. */
  lemma CountsAddUp(rows: seq<Row>, job: JobId)
    ensures |WithStatus(rows, job, Pending)| + |WithStatus(rows, job, Claimed)|
            + |WithStatus(rows, job, Succeeded)| + |WithStatus(rows, job, Failed)| == |OfJob(rows, job)|
    ensures |WithStatus(rows, job, Succeeded)| + |WithStatus(rows, job, Failed)| == |TerminalIds(rows, job)|
  {
    var p, q := WithStatus(rows, job, Pending), WithStatus(rows, job, Claimed);
    var ok, bad := WithStatus(rows, job, Succeeded), WithStatus(rows, job, Failed);
    assert TerminalIds(rows, job) == ok + bad && ok !! bad;
    assert OfJob(rows, job) == p + q + (ok + bad) && p !! q && p + q !! ok + bad;
  }

  /** ... which is the number of distinct external ids, keys being unique. */
  lemma {:induction false} RowsAreKeys(rows: seq<Row>, job: JobId)
    requires UniqueKeys(rows)
    ensures |OfJob(rows, job)| == |ExternalIds(rows, job)|
    decreases |rows|
  {
    if rows == [] {
      assert OfJob(rows, job) == {} && ExternalIds(rows, job) == {};
    } else {
      var front, last, n := rows[..|rows| - 1], rows[|rows| - 1], |rows| - 1;
      RowsAreKeys(front, job);
      if last.job == job {
        assert OfJob(rows, job) == OfJob(front, job) + {n};
        KeysSnoc(rows, job);
        if last.externalId in ExternalIds(front, job) {
          var i: nat :| i < |front| && front[i].job == job && front[i].externalId == last.externalId;
          assert SameKey(rows[i], rows[n]);
        }
      } else {
        assert OfJob(rows, job) == OfJob(front, job);
        KeysSnoc(rows, job);
      }
    }
  }

  lemma KeysSnoc(rows: seq<Row>, job: JobId)
    requires rows != []
    ensures var front, last := rows[..|rows| - 1], rows[|rows| - 1];
            ExternalIds(rows, job) == if last.job == job then ExternalIds(front, job) + {last.externalId}
              else ExternalIds(front, job)
  {
    var front, last := rows[..|rows| - 1], rows[|rows| - 1];
    forall i: nat | i < |rows| && rows[i].job == job
      ensures rows[i].externalId in ExternalIds(front, job) || rows[i].externalId == last.externalId
    {
      if i < |front| { assert front[i] == rows[i]; }
    }
    forall i: nat | i < |front| && front[i].job == job ensures front[i].externalId in ExternalIds(rows, job) {
      assert rows[i] == front[i];
    }
    if last.job == job { assert rows[|rows| - 1].externalId in ExternalIds(rows, job); }
    if last.job != job {
      forall i: nat | i < |rows| && rows[i].job == job
        ensures rows[i].externalId in ExternalIds(front, job) { assert front[i] == rows[i]; }
    }
  }

  // --------------------------------------------------------------- over a run

  ghost predicate NoInsert(steps: seq<Step>, job: JobId) {
    forall k :: 0 <= k < |steps| && steps[k].Insert? ==> steps[k].job != job
  }

  ghost predicate NoneAdded(rows: seq<Row>, rows': seq<Row>, job: JobId) {
    forall i :: |rows| <= i < |rows'| ==> rows'[i].job != job
  }

  lemma NoNewRows(c: Config, s: State, step: Step, job: JobId)
    requires Inv(c, s) && Enabled(c, s, step) && (step.Insert? ==> step.job != job)
    ensures NoneAdded(s.rows, Next(c, s, step).rows, job)
  {
    var t := Next(c, s, step);
    forall i | |s.rows| <= i < |t.rows| ensures t.rows[i].job != job { Completion.AddedRows(c, s, step, i); }
  }

  lemma JobRowsSame(rows: seq<Row>, rows': seq<Row>, job: JobId)
    requires Evolves(rows, rows') && NoneAdded(rows, rows', job)
    ensures OfJob(rows', job) == OfJob(rows, job)
    ensures WithStatus(rows', job, Pending) <= WithStatus(rows, job, Pending)
    ensures TerminalIds(rows, job) <= TerminalIds(rows', job)
  {}

  lemma JobRowsStep(c: Config, s: State, step: Step, job: JobId)
    requires Inv(c, s) && Enabled(c, s, step) && (step.Insert? ==> step.job != job)
    ensures OfJob(Next(c, s, step).rows, job) == OfJob(s.rows, job)
    ensures WithStatus(Next(c, s, step).rows, job, Pending) <= WithStatus(s.rows, job, Pending)
    ensures TerminalIds(s.rows, job) <= TerminalIds(Next(c, s, step).rows, job)
  {
    StepEvolves(c, s, step);
    NoNewRows(c, s, step, job);
    JobRowsSame(s.rows, Next(c, s, step).rows, job);
  }

  /** After ingestion the counts of a job keep adding up to the same number of rows, PENDING never grows and
      no row leaves SUCCEEDED or FAILED. */
  lemma {:induction false} CountsConserved(c: Config, s: State, steps: seq<Step>, job: JobId)
    requires Inv(c, s) && Valid(c, s, steps) && NoInsert(steps, job)
    ensures var t := Final(c, s, steps);
            && OfJob(t.rows, job) == OfJob(s.rows, job)
            && WithStatus(t.rows, job, Pending) <= WithStatus(s.rows, job, Pending)
            && TerminalIds(s.rows, job) <= TerminalIds(t.rows, job)
            && |WithStatus(t.rows, job, Pending)| + |WithStatus(t.rows, job, Claimed)|
               + |WithStatus(t.rows, job, Succeeded)| + |WithStatus(t.rows, job, Failed)| == |ExternalIds(s.rows, job)|
    decreases |steps|
  {
    if steps == [] {
      CountsAddUp(s.rows, job);
      RowsAreKeys(s.rows, job);
    } else {
      var m := Next(c, s, steps[0]);
      StepInv(c, s, steps[0]);
      JobRowsStep(c, s, steps[0], job);
      CountsConserved(c, m, steps[1..], job);
      RowsAreKeys(s.rows, job);
      RowsAreKeys(m.rows, job);
    }
  }

  /** What a step reports as done for the job: the count `complete_items` returns, or the rejected rows it inserts. */
  function Reported(c: Config, s: State, step: Step, job: JobId): nat
    requires Enabled(c, s, step)
  {
    match step
    case Complete(w) =>
      if s.workers[w].job == job then CompleteCount(s.rows, w, s.workers[w].phase.results, s.workers[w].phase.ref)
        else 0
    case Insert(job', items, failed) =>
      if job' == job then |NewlyFailed(s.rows, AfterInsert(s, job, items, failed).rows, job)| else 0
    case _ => 0
  }

  function NewlyFailed(rows: seq<Row>, rows': seq<Row>, job: JobId): set<nat> {
    set i: nat | |rows| <= i < |rows'| && rows'[i].job == job && rows'[i].status.Failed?
  }

  function ReportedRun(c: Config, s: State, steps: seq<Step>, job: JobId): nat
    requires Valid(c, s, steps)
    decreases |steps|
  {
    if steps == [] then 0
    else Reported(c, s, steps[0], job) + ReportedRun(c, Next(c, s, steps[0]), steps[1..], job)
  }

  /** A completing worker has a record for every row it still owns, all of its own job. */
  lemma OwnedFinalised(c: Config, s: State, w: WorkerId)
    requires Inv(c, s) && Enabled(c, s, Complete(w))
    ensures OwnedIds(s.rows, w) == Finalised(s.rows, w, s.workers[w].phase.results)
    ensures forall i <- OwnedIds(s.rows, w) :: s.rows[i].job == s.workers[w].job
  {
    var p := s.workers[w].phase;
    forall i | i in OwnedIds(s.rows, w) ensures i in Finalised(s.rows, w, p.results)
      && s.rows[i].job == s.workers[w].job {
      assert RowOk(s, i) && WorkerOk(c, s, w);
      var k :| 0 <= k < |p.chunk| && p.chunk[k].id == i;
      assert ItemOk(s.rows, s.workers[w].job, p.chunk[k]);
      MatchAt(p.results, s.rows[i].externalId);
      assert p.results[k].externalId == s.rows[i].externalId;
    }
  }

  lemma TerminalAfterComplete(c: Config, s: State, w: WorkerId, job: JobId)
    requires Inv(c, s) && Enabled(c, s, Complete(w))
    ensures TerminalIds(AfterComplete(s, w).rows, job) == TerminalIds(s.rows, job)
            + (OwnedIds(s.rows, w) * OfJob(s.rows, job))
    ensures TerminalIds(s.rows, job) !! OwnedIds(s.rows, w)
  {
    Fencing(c, s, w);
    CompleteEvolves(c, s, w);
  }

  lemma CompleteReported(c: Config, s: State, w: WorkerId, job: JobId)
    requires Inv(c, s) && Enabled(c, s, Complete(w))
    ensures |TerminalIds(AfterComplete(s, w).rows, job)| == |TerminalIds(s.rows, job)|
            + Reported(c, s, Complete(w), job)
  {
    var p := s.workers[w].phase;
    var owned := OwnedIds(s.rows, w);
    TerminalAfterComplete(c, s, w, job);
    OwnedFinalised(c, s, w);
    CompleteCountIs(s.rows, w, p.results, p.ref);
    assert owned * OfJob(s.rows, job) == if s.workers[w].job == job then owned else {};
  }

  lemma InsertedRow(rows: seq<Row>, job': JobId, items: seq<PromptItem>, failed: seq<string>, i: nat)
    requires |rows| <= i < |InsertRows(rows, NewRows(job', items, failed))|
    ensures var row := InsertRows(rows, NewRows(job', items, failed))[i];
            row.job == job' && (row.status.Pending? || row.status.Failed?)
  {
    InsertRowsFacts(rows, NewRows(job', items, failed));
    assert InsertRows(rows, NewRows(job', items, failed))[i] in NewRows(job', items, failed);
  }

  lemma InsertReported(c: Config, s: State, job': JobId, items: seq<PromptItem>, failed: seq<string>, job: JobId)
    ensures |TerminalIds(AfterInsert(s, job', items, failed).rows, job)|
            == |TerminalIds(s.rows, job)| + Reported(c, s, Insert(job', items, failed), job)
  {
    var rows, rows' := s.rows, InsertRows(s.rows, NewRows(job', items, failed));
    var done, done', new_ := TerminalIds(rows, job), TerminalIds(rows', job), NewlyFailed(rows, rows', job);
    forall i | |rows| <= i < |rows'| ensures rows'[i].job == job'
      && (rows'[i].status.Pending? || rows'[i].status.Failed?) {
      InsertedRow(rows, job', items, failed, i);
    }
    TerminalSplit(rows, rows', job);
    if job' != job { assert new_ == {}; }
  }

  lemma TerminalSplit(rows: seq<Row>, rows': seq<Row>, job: JobId)
    requires rows <= rows' && forall i :: |rows| <= i < |rows'| ==> !rows'[i].status.Succeeded?
    ensures |TerminalIds(rows', job)| == |TerminalIds(rows, job)| + |NewlyFailed(rows, rows', job)|
  {
    assert TerminalIds(rows', job) == TerminalIds(rows, job) + NewlyFailed(rows, rows', job);
    assert TerminalIds(rows, job) !! NewlyFailed(rows, rows', job);
  }

  lemma ReportedStep(c: Config, s: State, step: Step, job: JobId)
    requires Inv(c, s) && Enabled(c, s, step)
    ensures |TerminalIds(Next(c, s, step).rows, job)| == |TerminalIds(s.rows, job)| + Reported(c, s, step, job)
  {
    match step
    case Complete(w) => CompleteReported(c, s, w, job);
    case Insert(job', items, failed) => InsertReported(c, s, job', items, failed, job);
    case _ => TerminalKept(c, s, step, job);
  }

  lemma TerminalKept(c: Config, s: State, step: Step, job: JobId)
    requires Inv(c, s) && Enabled(c, s, step) && !step.Insert? && !step.Complete?
    ensures TerminalIds(Next(c, s, step).rows, job) == TerminalIds(s.rows, job)
  {
    var t := Next(c, s, step);
    StepEvolves(c, s, step);
    assert |t.rows| == |s.rows|;
    forall i: nat | i < |s.rows| ensures Terminal(t.rows[i].status) <==> Terminal(s.rows[i].status) {
      CompletesExactly(c, s, step, i);
    }
  }

  /** The counts returned by `complete_items` and the rows rejected at ingest add up to succeeded + failed. */
  lemma {:induction false} CompletionsAddUp(c: Config, s: State, steps: seq<Step>, job: JobId)
    requires Inv(c, s) && Valid(c, s, steps)
    ensures var t := Final(c, s, steps);
            |WithStatus(t.rows, job, Succeeded)| + |WithStatus(t.rows, job, Failed)|
            == |WithStatus(s.rows, job, Succeeded)| + |WithStatus(s.rows, job, Failed)| + ReportedRun(c, s, steps, job)
    decreases |steps|
  {
    if steps != [] {
      StepInv(c, s, steps[0]);
      ReportedStep(c, s, steps[0], job);
      CountsAddUp(s.rows, job);
      CountsAddUp(Next(c, s, steps[0]).rows, job);
      CompletionsAddUp(c, Next(c, s, steps[0]), steps[1..], job);
    }
  }
}
