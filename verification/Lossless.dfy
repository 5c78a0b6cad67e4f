/** When starting a pool is lossless: if and only if there is nothing left to do, or no lease on the job is live and no
    other worker is alive on it. */
module Lossless {
  import opened Domain
  import opened QueueTable
  import opened Protocol
  import opened Invariant
  import opened Completion
  import Ownership
  import Progress

  // --------------------------------------------------------- a worker on its own

  /** Rows whose living owner may be in the middle of renewing or completing them. */
  predicate BusyOk(s: State, busy: set<nat>) {
    forall i <- busy :: i < |s.rows| && s.rows[i].status.Claimed? && s.rows[i].workerId.Some?
                        && LiveWorker(s, s.rows[i].workerId.value)
  }

  /** The rows of the job that a claim would take now. */
  function Takeable(s: State, job: JobId, busy: set<nat>): set<nat> {
    set i: nat | i < |s.rows| && Eligible(s.rows[i], job, s.now) && i !in s.locks && i !in busy
  }

  /** An idle worker of the job. */
  ghost predicate Solo(c: Config, s: State, w: WorkerId, job: JobId, busy: set<nat>) {
    && c.size >= 1 && Inv(c, s) && BusyOk(s, busy)
    && w in s.workers && s.workers[w].job == job && s.workers[w].phase.Idle?
  }

  predicate WorkerStep(step: Step) {
    !step.Insert? && !step.Spawn? && !step.Crash?
  }

  ghost predicate WorkerSteps(steps: seq<Step>) {
    forall k :: 0 <= k < |steps| ==> WorkerStep(steps[k])
  }

  /** Only `w` and the rows in `ids` have changed; no time has passed. */
  ghost predicate Only(s: State, t: State, w: WorkerId, ids: seq<nat>) {
    && t.now == s.now && |t.rows| == |s.rows|
    && (forall i :: 0 <= i < |s.rows| ==> SameKey(t.rows[i], s.rows[i]))
    && (forall i: nat {:trigger i in ids} :: i < |s.rows| && i !in ids ==> t.rows[i] == s.rows[i])
    && t.workers.Keys == s.workers.Keys && w in s.workers && t.workers[w].job == s.workers[w].job
    && forall v <- s.workers :: v != w ==> t.workers[v] == s.workers[v]
  }

  lemma OnlyTransitive(a: State, b: State, d: State, w: WorkerId, ids: seq<nat>)
    requires Only(a, b, w, ids) && Only(b, d, w, ids)
    ensures Only(a, d, w, ids)
  {}

  lemma SoloLock(c: Config, s: State, w: WorkerId, job: JobId, busy: set<nat>)
    requires Solo(c, s, w, job, busy) && Takeable(s, job, busy) != {}
    ensures Enabled(c, s, Lock(w, busy))
    ensures var t, ids := Next(c, s, Lock(w, busy)), Selected(c, s, w, busy);
            && ids != [] && Only(s, t, w, ids) && t.workers[w].phase == Locking(ids)
            && (forall i <- ids :: i in Takeable(s, job, busy))
            && t.locks == s.locks + map i | i in ids :: w
  {
    var ids, skip := Selected(c, s, w, busy), s.locks.Keys + busy;
    SelectIsSelection(s.rows, job, s.now, c.size, skip);
    var i :| i in Takeable(s, job, busy);
    assert i !in skip;
    assert i in ids || |ids| == c.size;
  }

  lemma CommitOwns(c: Config, s: State, w: WorkerId, ids: seq<nat>)
    requires Enabled(c, s, Commit(w, ids))
    ensures var t := AfterCommit(c, s, w, ids);
            && Only(s, t, w, ids) && t.workers[w].phase.Processing? && t.locks == s.locks - IdSet(ids)
            && forall i <- ids :: i < |t.rows| && Owned(t.rows[i], w)
  {
    forall i | i in ids ensures i < |s.rows| {
      var k :| 0 <= k < |ids| && ids[k] == i;
    }
  }

  lemma SoloCommit(c: Config, s: State, w: WorkerId, ids: seq<nat>)
    requires Inv(c, s) && w in s.workers && s.workers[w].phase == Locking(ids)
    ensures Enabled(c, s, Commit(w, ids))
    ensures var t := Next(c, s, Commit(w, ids));
            && Only(s, t, w, ids) && t.workers[w].phase.Processing? && t.locks == s.locks - IdSet(ids)
            && forall i <- ids :: i < |t.rows| && Owned(t.rows[i], w)
  {
    var step := Progress.CommitEnabled(c, s, w);
    CommitOwns(c, s, w, ids);
  }

  /** Processing and writing change no row. */
  ghost predicate SameTable(s: State, t: State, w: WorkerId) {
    && t.rows == s.rows && t.locks == s.locks && t.now == s.now
    && t.workers.Keys == s.workers.Keys && w in s.workers && t.workers[w].job == s.workers[w].job
    && forall v <- s.workers :: v != w ==> t.workers[v] == s.workers[v]
  }

  lemma SoloFinish(c: Config, s: State, w: WorkerId) returns (step: Step)
    requires w in s.workers && s.workers[w].phase.Processing?
    ensures WorkerStep(step) && Enabled(c, s, step)
    ensures SameTable(s, Next(c, s, step), w) && Next(c, s, step).workers[w].phase.Ready?
  {
    var chunk := s.workers[w].phase.chunk;
    step := Finish(w, seq(|chunk|, i => RowRun(seq(c.maxAttempts, k => Permanent("")), 0)));
  }

  lemma SoloWrite(c: Config, s: State, w: WorkerId) returns (step: Step)
    requires w in s.workers && s.workers[w].phase.Ready?
    ensures WorkerStep(step) && Enabled(c, s, step)
    ensures SameTable(s, Next(c, s, step), w) && Next(c, s, step).workers[w].phase.Written?
  {
    step := Write(w, Progress.FreshId(s.store));
    forall k | 0 <= k < |s.store| ensures s.store[k].ref.chunk < Progress.FreshId(s.store) {
      Progress.FreshIdFresh(s.store, k);
    }
  }

  /** A worker that owns rows of `ids` only, none of them locked, completes its chunk. */
  lemma SoloComplete(c: Config, s: State, w: WorkerId, ids: seq<nat>)
    requires Inv(c, s) && w in s.workers && s.workers[w].phase.Written?
    requires forall i: nat {:trigger i in ids} :: i < |s.rows| && Owned(s.rows[i], w) ==> i in ids && i !in s.locks
    ensures Enabled(c, s, Complete(w))
    ensures var t := Next(c, s, Complete(w));
            && Only(s, t, w, ids) && t.locks == s.locks && t.workers[w].phase.Idle?
            && forall i <- ids :: i < |s.rows| && Owned(s.rows[i], w) ==> Terminal(t.rows[i].status)
  {
    forall i | i in s.locks && i < |s.rows| ensures !Owned(s.rows[i], w) { assert i in ids || i !in ids; }
    var t := Next(c, s, Complete(w));
    Ownership.Fencing(c, s, w);
    CompleteEvolves(c, s, w);
    forall i: nat | i < |s.rows| && i !in ids ensures t.rows[i] == s.rows[i] {
      assert i !in Ownership.OwnedIds(s.rows, w);
    }
    forall i | i in ids && i < |s.rows| && Owned(s.rows[i], w) ensures Terminal(t.rows[i].status) {
      assert i in Ownership.OwnedIds(s.rows, w);
    }
  }

  // ------------------------------------------------------------- one whole chunk

  lemma OwnsNothing(c: Config, s: State, w: WorkerId, i: nat)
    requires Inv(c, s) && w in s.workers && !Holding(s.workers[w].phase) && !s.workers[w].phase.Dead? && i < |s.rows|
    ensures !Owned(s.rows[i], w)
  {
    assert RowOk(s, i);
  }

  lemma TwoSteps(c: Config, s: State, m: State, t: State, a: Step, b: Step)
    requires Enabled(c, s, a) && Next(c, s, a) == m && Enabled(c, m, b) && Next(c, m, b) == t
    requires WorkerStep(a) && WorkerStep(b)
    ensures Valid(c, s, [a, b]) && WorkerSteps([a, b]) && Final(c, s, [a, b]) == t
  {
    RunCons(c, m, b, []);
    RunCons(c, s, a, [b] + []);
    assert [a] + ([b] + []) == [a, b];
  }

  /** The locks of a claim are gone after it. */
  lemma LocksBack(before: map<nat, WorkerId>, between: map<nat, WorkerId>, ids: seq<nat>, w: WorkerId)
    requires between == before + map i | i in ids :: w
    requires forall i <- ids :: i !in before
    ensures between - IdSet(ids) == before
  {}

  /** The claim: lock and commit. */
  lemma SoloClaim(c: Config, s: State, w: WorkerId, job: JobId, busy: set<nat>)
    returns (steps: seq<Step>, ids: seq<nat>, t: State)
    requires Solo(c, s, w, job, busy) && Takeable(s, job, busy) != {}
    ensures Valid(c, s, steps) && WorkerSteps(steps) && Final(c, s, steps) == t
    ensures Inv(c, t) && Only(s, t, w, ids) && t.locks == s.locks && t.workers[w].phase.Processing?
    ensures ids != [] && forall i <- ids :: i in Takeable(s, job, busy) && i < |t.rows| && Owned(t.rows[i], w)
  {
    SoloLock(c, s, w, job, busy);
    ids := Selected(c, s, w, busy);
    var m := Next(c, s, Lock(w, busy));
    StepInv(c, s, Lock(w, busy));
    LocksBack(s.locks, m.locks, ids, w);
    SoloCommit(c, m, w, ids);
    StepInv(c, m, Commit(w, ids));
    t := Next(c, m, Commit(w, ids));
    OnlyTransitive(s, m, t, w, ids);
    TwoSteps(c, s, m, t, Lock(w, busy), Commit(w, ids));
    steps := [Lock(w, busy), Commit(w, ids)];
  }

  /** Processing and writing. */
  lemma SoloWork(c: Config, s: State, w: WorkerId) returns (steps: seq<Step>, t: State)
    requires Inv(c, s) && w in s.workers && s.workers[w].phase.Processing?
    ensures Valid(c, s, steps) && WorkerSteps(steps) && Final(c, s, steps) == t
    ensures Inv(c, t) && SameTable(s, t, w) && t.workers[w].phase.Written?
  {
    var finish := SoloFinish(c, s, w);
    var m := Next(c, s, finish);
    StepInv(c, s, finish);
    var write := SoloWrite(c, m, w);
    t := Next(c, m, write);
    StepInv(c, m, write);
    TwoSteps(c, s, m, t, finish, write);
    steps := [finish, write];
  }

  lemma Shrinks(s: State, t: State, w: WorkerId, job: JobId, ids: seq<nat>, busy: set<nat>)
    requires Only(s, t, w, ids) && ids != [] && t.locks == s.locks
    requires forall i <- ids :: i in Takeable(s, job, busy) && Terminal(t.rows[i].status)
    ensures Takeable(t, job, busy) < Takeable(s, job, busy)
  {
    forall i | i in Takeable(t, job, busy) ensures i in Takeable(s, job, busy) && i !in ids {}
    assert ids[0] in ids;
    assert ids[0] in Takeable(s, job, busy) && ids[0] !in Takeable(t, job, busy);
  }

  /** Rows that are busy elsewhere stay so. */
  lemma BusyStays(c: Config, s: State, t: State, w: WorkerId, job: JobId, ids: seq<nat>, busy: set<nat>)
    requires Solo(c, s, w, job, busy) && Only(s, t, w, ids)
    requires forall i <- ids :: i in Takeable(s, job, busy)
    ensures BusyOk(t, busy)
  {
    forall i | i in busy
      ensures i < |t.rows| && t.rows[i] == s.rows[i] && LiveWorker(t, s.rows[i].workerId.value)
    {
      assert i !in ids;
      OwnsNothing(c, s, w, i);
    }
  }

  /** The completion of a chunk claimed in `s`. */
  lemma SoloFinal(c: Config, s: State, m: State, w: WorkerId, job: JobId, ids: seq<nat>, busy: set<nat>)
    returns (t: State)
    requires Solo(c, s, w, job, busy) && Inv(c, m) && Only(s, m, w, ids) && m.locks == s.locks
    requires m.workers[w].phase.Written? && ids != []
    requires forall i <- ids :: i in Takeable(s, job, busy) && i < |m.rows| && Owned(m.rows[i], w)
    ensures Enabled(c, m, Complete(w)) && Next(c, m, Complete(w)) == t
    ensures Solo(c, t, w, job, busy) && Only(s, t, w, ids) && t.locks == s.locks
    ensures Takeable(t, job, busy) < Takeable(s, job, busy)
  {
    forall i: nat | i < |m.rows| && Owned(m.rows[i], w) ensures i in ids && i !in m.locks {
      OwnsNothing(c, s, w, i);
    }
    SoloComplete(c, m, w, ids);
    StepInv(c, m, Complete(w));
    t := Next(c, m, Complete(w));
    OnlyTransitive(s, m, t, w, ids);
    Shrinks(s, t, w, job, ids, busy);
    BusyStays(c, s, t, w, job, ids, busy);
  }

  lemma SameTableOnly(s: State, m: State, t: State, w: WorkerId, ids: seq<nat>)
    requires Only(s, m, w, ids) && SameTable(m, t, w)
    ensures Only(s, t, w, ids)
  {}

  /** A chunk of the job from lock to completion: fewer rows are left to take, nothing else has changed. */
  lemma SoloChunk(c: Config, s: State, w: WorkerId, job: JobId, busy: set<nat>)
    returns (steps: seq<Step>, ids: seq<nat>)
    requires Solo(c, s, w, job, busy) && Takeable(s, job, busy) != {}
    ensures Valid(c, s, steps) && WorkerSteps(steps)
    ensures var t := Final(c, s, steps);
            && Solo(c, t, w, job, busy) && Only(s, t, w, ids) && t.locks == s.locks
            && (forall i <- ids :: i in Takeable(s, job, busy)) && Takeable(t, job, busy) < Takeable(s, job, busy)
  {
    var claim, work: seq<Step>;
    var s2, s4: State;
    claim, ids, s2 := SoloClaim(c, s, w, job, busy);
    work, s4 := SoloWork(c, s2, w);
    SameTableOnly(s, s2, s4, w, ids);
    var t := SoloFinal(c, s, s4, w, job, ids, busy);
    steps := ThreeParts(c, s, s2, s4, t, claim, work, Complete(w));
  }

  lemma ThreeParts(c: Config, s: State, s2: State, s4: State, t: State, a: seq<Step>, b: seq<Step>, last: Step)
    returns (steps: seq<Step>)
    requires Valid(c, s, a) && Final(c, s, a) == s2 && Valid(c, s2, b) && Final(c, s2, b) == s4
    requires Enabled(c, s4, last) && Next(c, s4, last) == t
    requires WorkerSteps(a) && WorkerSteps(b) && WorkerStep(last)
    ensures Valid(c, s, steps) && WorkerSteps(steps) && Final(c, s, steps) == t
  {
    RunCons(c, s4, last, []);
    RunConcat(c, s2, b, [last] + []);
    RunConcat(c, s, a, b + ([last] + []));
    steps := a + (b + ([last] + []));
  }

  // ----------------------------------------------------- draining what can be taken

  /** What a pool can leave behind: nothing that could still be taken, and row `r` untouched. */
  ghost predicate Leaves(s: State, t: State, pool: set<WorkerId>, job: JobId, r: nat, busy: set<nat>) {
    && t.now == s.now && t.locks == s.locks && |t.rows| == |s.rows|
    && r < |s.rows| && t.rows[r] == s.rows[r]
    && t.workers.Keys == s.workers.Keys && (forall v <- s.workers :: v !in pool ==> t.workers[v] == s.workers[v])
    && Takeable(t, job, busy) == {}
  }

  /** One worker takes and completes all there is to take; a row that cannot be taken stays as it is. */
  lemma SoloDrain(c: Config, s: State, w: WorkerId, job: JobId, r: nat, busy: set<nat>) returns (steps: seq<Step>)
    requires Solo(c, s, w, job, busy) && r < |s.rows| && r !in Takeable(s, job, busy)
    ensures Valid(c, s, steps) && WorkerSteps(steps)
    ensures Solo(c, Final(c, s, steps), w, job, busy) && Leaves(s, Final(c, s, steps), {w}, job, r, busy)
    decreases Takeable(s, job, busy)
  {
    steps := [];
    if Takeable(s, job, busy) != {} {
      var ids: seq<nat>;
      var first: seq<Step>;
      first, ids := SoloChunk(c, s, w, job, busy);
      var m := Final(c, s, first);
      assert r !in ids;
      assert m.rows[r] == s.rows[r];
      var rest := SoloDrain(c, m, w, job, r, busy);
      RunConcat(c, s, first, rest);
      steps := first + rest;
    }
  }

  /** With nothing to take, the workers of a pool leave one after the other. */
  lemma AllLeave(c: Config, s: State, pool: set<WorkerId>, job: JobId, r: nat, busy: set<nat>)
    returns (steps: seq<Step>)
    requires Inv(c, s) && BusyOk(s, busy) && PoolOn(s, pool, job) && AllIdle(s, pool)
    requires Takeable(s, job, busy) == {} && r < |s.rows|
    ensures Valid(c, s, steps) && WorkerSteps(steps)
    ensures AllExited(Final(c, s, steps), pool) && Leaves(s, Final(c, s, steps), pool, job, r, busy)
    decreases pool
  {
    steps := [];
    if pool != {} {
      var w :| w in pool;
      var step := Lock(w, busy);
      FindsNothing(c, s, w, job, busy);
      var t := Next(c, s, step);
      StepInv(c, s, step);
      var rest := AllLeave(c, t, pool - {w}, job, r, busy);
      RunCons(c, s, step, rest);
      steps := [step] + rest;
    }
  }

  lemma FindsNothing(c: Config, s: State, w: WorkerId, job: JobId, busy: set<nat>)
    requires Inv(c, s) && BusyOk(s, busy) && Takeable(s, job, busy) == {}
    requires w in s.workers && s.workers[w].job == job && s.workers[w].phase.Idle?
    ensures Enabled(c, s, Lock(w, busy))
    ensures var t := Next(c, s, Lock(w, busy));
            t == s.(workers := s.workers[w := s.workers[w].(phase := Exited)]) && BusyOk(t, busy)
  {
    SelectedTakeable(c, s, w, job, busy);
    forall i | i in busy ensures s.rows[i].workerId != Some(w) { OwnsNothing(c, s, w, i); }
  }

  lemma SelectedTakeable(c: Config, s: State, w: WorkerId, job: JobId, busy: set<nat>)
    requires w in s.workers && s.workers[w].job == job
    ensures Selected(c, s, w, busy) == [] || Selected(c, s, w, busy)[0] in Takeable(s, job, busy)
  {
    SelectIsSelection(s.rows, job, s.now, c.size, s.locks.Keys + busy);
  }

  /** A fresh pool, whoever else works on the job, can return while a row that cannot be taken is left as it was. */
  lemma PoolLeaves(c: Config, s: State, pool: set<WorkerId>, job: JobId, r: nat, busy: set<nat>)
    returns (steps: seq<Step>)
    requires c.size >= 1 && Inv(c, s) && BusyOk(s, busy) && pool != {} && PoolOn(s, pool, job) && AllIdle(s, pool)
    requires r < |s.rows| && r !in Takeable(s, job, busy)
    ensures Valid(c, s, steps) && WorkerSteps(steps)
    ensures AllExited(Final(c, s, steps), pool) && Leaves(s, Final(c, s, steps), pool, job, r, busy)
  {
    var w :| w in pool;
    var first := SoloDrain(c, s, w, job, r, busy);
    var m := Final(c, s, first);
    StillIdle(s, m, pool, job, w, r, busy);
    var rest := AllLeave(c, m, pool, job, r, busy);
    RunConcat(c, s, first, rest);
    steps := first + rest;
    LeavesTwice(s, m, Final(c, s, steps), pool, job, w, r, busy);
  }

  lemma StillIdle(s: State, m: State, pool: set<WorkerId>, job: JobId, w: WorkerId, r: nat, busy: set<nat>)
    requires PoolOn(s, pool, job) && AllIdle(s, pool) && Leaves(s, m, {w}, job, r, busy)
    requires w in m.workers && m.workers[w].job == job && m.workers[w].phase.Idle?
    ensures PoolOn(m, pool, job) && AllIdle(m, pool)
  {}

  lemma LeavesTwice(s: State, m: State, t: State, pool: set<WorkerId>, job: JobId, w: WorkerId, r: nat, busy: set<nat>)
    requires w in pool && Leaves(s, m, {w}, job, r, busy) && Leaves(m, t, pool, job, r, busy)
    ensures Leaves(s, t, pool, job, r, busy)
  {}

  // ------------------------------------------------------- what a pool can miss

  /** A fresh pool on the job. */
  ghost predicate FreshPool(c: Config, s: State, pool: set<WorkerId>, job: JobId) {
    c.size >= 1 && Inv(c, s) && pool != {} && PoolOn(s, pool, job) && AllIdle(s, pool)
  }

  /** The worker steps that let every worker of the pool return with an unfinished row left. */
  ghost predicate Misses(c: Config, s: State, pool: set<WorkerId>, job: JobId, steps: seq<Step>) {
    && Valid(c, s, steps) && WorkerSteps(steps)
    && AllExited(Final(c, s, steps), pool) && !AllTerminal(Final(c, s, steps).rows, job)
  }

  /** No worker outside the pool is alive on the job. */
  ghost predicate NoOther(s: State, pool: set<WorkerId>, job: JobId) {
    forall w <- s.workers :: s.workers[w].job == job && w !in pool ==> !Alive(s.workers[w].phase)
  }

  /** A live lease on the job: the row is left, and nothing that a claim could take. */
  lemma LeaseLost(c: Config, s: State, pool: set<WorkerId>, job: JobId) returns (steps: seq<Step>, r: nat)
    requires FreshPool(c, s, pool, job) && !LeasesExpired(s.rows, job, s.now)
    ensures Misses(c, s, pool, job, steps) && Leaves(s, Final(c, s, steps), pool, job, r, {})
    ensures s.rows[r].job == job && s.rows[r].status.Claimed? && !Claimable(s.rows[r], s.now)
  {
    r :| 0 <= r < |s.rows| && s.rows[r].job == job && s.rows[r].status.Claimed? && !Claimable(s.rows[r], s.now);
    steps := PoolLeaves(c, s, pool, job, r, {});
    assert !Terminal(Final(c, s, steps).rows[r].status);
  }

  /** A row that some claim has locked, or whose owner is alive. */
  lemma HeldLost(c: Config, s: State, pool: set<WorkerId>, job: JobId, r: nat) returns (steps: seq<Step>)
    requires FreshPool(c, s, pool, job)
    requires r < |s.rows| && s.rows[r].job == job && !Terminal(s.rows[r].status)
    requires r in s.locks || BusyOk(s, {r})
    ensures Misses(c, s, pool, job, steps)
  {
    var busy: set<nat> := if r in s.locks then {} else {r};
    steps := PoolLeaves(c, s, pool, job, r, busy);
    assert !Terminal(Final(c, s, steps).rows[r].status);
  }

  /** A living worker that owns no row gets back to the head of its loop without touching the table. */
  lemma BackToIdle(c: Config, s: State, v: WorkerId) returns (steps: seq<Step>)
    requires Inv(c, s) && LiveWorker(s, v) && !s.workers[v].phase.Locking?
    requires forall i: nat :: i < |s.rows| ==> !Owned(s.rows[i], v)
    ensures Valid(c, s, steps) && WorkerSteps(steps)
    ensures var t := Final(c, s, steps); Inv(c, t) && SameTable(s, t, v) && t.workers[v].phase.Idle?
    decreases Progress.Rank(s.workers[v].phase)
  {
    steps := [];
    if !s.workers[v].phase.Idle? {
      var step: Step;
      if s.workers[v].phase.Processing? { step := SoloFinish(c, s, v); }
      else if s.workers[v].phase.Ready? { step := SoloWrite(c, s, v); }
      else { step := CompletesNothing(c, s, v); }
      var t := Next(c, s, step);
      StepInv(c, s, step);
      var rest := BackToIdle(c, t, v);
      RunCons(c, s, step, rest);
      steps := [step] + rest;
    }
  }

  lemma CompletesNothing(c: Config, s: State, v: WorkerId) returns (step: Step)
    requires Inv(c, s) && v in s.workers && s.workers[v].phase.Written?
    requires forall i: nat :: i < |s.rows| ==> !Owned(s.rows[i], v)
    ensures WorkerStep(step) && Enabled(c, s, step)
    ensures SameTable(s, Next(c, s, step), v) && Next(c, s, step).workers[v].phase.Idle?
  {
    step := Complete(v);
    var none: seq<nat> := [];
    SoloComplete(c, s, v, none);
    assert forall i: nat :: i < |s.rows| ==> i !in none && Next(c, s, step).rows[i] == s.rows[i];
  }

  /** A living worker outside the pool: it locks what is there to take before the pool looks. */
  lemma RivalLost(c: Config, s: State, pool: set<WorkerId>, job: JobId, v: WorkerId, r: nat) returns (steps: seq<Step>)
    requires FreshPool(c, s, pool, job) && v !in pool && LiveWorker(s, v) && s.workers[v].job == job
    requires !s.workers[v].phase.Locking? && forall i: nat :: i < |s.rows| ==> !Owned(s.rows[i], v)
    requires r in Takeable(s, job, {})
    ensures Misses(c, s, pool, job, steps)
  {
    var back := BackToIdle(c, s, v);
    var m := Final(c, s, back);
    assert r in Takeable(m, job, {});
    var t, k := RivalLocks(c, m, pool, job, v);
    var rest := HeldLost(c, t, pool, job, k);
    steps := ThenMisses(c, s, m, t, pool, job, back, Lock(v, {}), rest);
  }

  lemma RivalLocks(c: Config, s: State, pool: set<WorkerId>, job: JobId, v: WorkerId) returns (t: State, k: nat)
    requires FreshPool(c, s, pool, job) && v !in pool && Solo(c, s, v, job, {}) && Takeable(s, job, {}) != {}
    ensures Enabled(c, s, Lock(v, {})) && Next(c, s, Lock(v, {})) == t && FreshPool(c, t, pool, job)
    ensures k in t.locks && k < |t.rows| && t.rows[k].job == job && !Terminal(t.rows[k].status)
  {
    t, k := LockTakes(c, s, v, job);
    StepInv(c, s, Lock(v, {}));
    Untouched(s, t, pool, job, v);
  }

  lemma LockTakes(c: Config, s: State, v: WorkerId, job: JobId) returns (t: State, k: nat)
    requires Solo(c, s, v, job, {}) && Takeable(s, job, {}) != {}
    ensures Enabled(c, s, Lock(v, {})) && Next(c, s, Lock(v, {})) == t && t.rows == s.rows
    ensures v in s.workers && forall w <- s.workers :: w != v ==> w in t.workers && t.workers[w] == s.workers[w]
    ensures k in t.locks && k < |t.rows| && t.rows[k].job == job && !Terminal(t.rows[k].status)
  {
    SoloLock(c, s, v, job, {});
    t, k := Next(c, s, Lock(v, {})), Selected(c, s, v, {})[0];
    assert k in Selected(c, s, v, {}) && k in Takeable(s, job, {});
  }

  lemma Untouched(s: State, t: State, pool: set<WorkerId>, job: JobId, v: WorkerId)
    requires PoolOn(s, pool, job) && AllIdle(s, pool) && v !in pool
    requires forall w <- s.workers :: w != v ==> w in t.workers && t.workers[w] == s.workers[w]
    ensures PoolOn(t, pool, job) && AllIdle(t, pool)
  {}

  lemma ThenMisses(c: Config, s: State, m: State, t: State, pool: set<WorkerId>, job: JobId, a: seq<Step>, step: Step,
                   b: seq<Step>) returns (steps: seq<Step>)
    requires Valid(c, s, a) && WorkerSteps(a) && Final(c, s, a) == m
    requires Enabled(c, m, step) && WorkerStep(step) && Next(c, m, step) == t && Misses(c, t, pool, job, b)
    ensures Misses(c, s, pool, job, steps)
  {
    RunCons(c, m, step, b);
    RunConcat(c, s, a, [step] + b);
    steps := a + ([step] + b);
  }

  /** A living worker outside the pool while a row is unfinished. */
  lemma OtherLost(c: Config, s: State, pool: set<WorkerId>, job: JobId, v: WorkerId, r: nat) returns (steps: seq<Step>)
    requires FreshPool(c, s, pool, job) && v !in pool && LiveWorker(s, v) && s.workers[v].job == job
    requires LeasesExpired(s.rows, job, s.now)
    requires r < |s.rows| && s.rows[r].job == job && !Terminal(s.rows[r].status)
    ensures Misses(c, s, pool, job, steps)
  {
    if s.workers[v].phase.Locking? {
      var k := s.workers[v].phase.ids[0];
      assert WorkerOk(c, s, v) && k in s.workers[v].phase.ids;
      LockingFacts(c, s, v, k);
      steps := HeldLost(c, s, pool, job, k);
    } else if k: nat :| k < |s.rows| && Owned(s.rows[k], v) {
      assert RowOk(s, k);
      steps := HeldLost(c, s, pool, job, k);
    } else if r in s.locks {
      steps := HeldLost(c, s, pool, job, r);
    } else {
      assert RowOk(s, r);
      steps := RivalLost(c, s, pool, job, v, r);
    }
  }

  // ------------------------------------------------------------- exactly when

  /** Every way for the pool to return, no row being added and no other pool being started, leaves the job with
      terminal rows only. */
  ghost predicate AlwaysDrains(c: Config, s: State, pool: set<WorkerId>, job: JobId) {
    forall steps :: Valid(c, s, steps) && NoNewWork(steps) && AllExited(Final(c, s, steps), pool) ==>
      AllTerminal(Final(c, s, steps).rows, job)
  }

  ghost predicate NoNewWork(steps: seq<Step>) {
    forall k :: 0 <= k < |steps| ==> !steps[k].Insert? && !steps[k].Spawn?
  }

  lemma {:induction false} NoNewWorkAdds(c: Config, s: State, steps: seq<Step>, job: JobId)
    requires Valid(c, s, steps) && NoNewWork(steps)
    ensures NothingAdded(c, s, steps, job) && NoSpawn(steps, job)
    decreases |steps|
  {
    if steps != [] { NoNewWorkAdds(c, Next(c, s, steps[0]), steps[1..], job); }
  }

  lemma {:induction false} StayTerminal(c: Config, s: State, steps: seq<Step>, job: JobId)
    requires Inv(c, s) && Valid(c, s, steps) && NoNewWork(steps) && AllTerminal(s.rows, job)
    ensures AllTerminal(Final(c, s, steps).rows, job)
    decreases |steps|
  {
    if steps != [] {
      var t := Next(c, s, steps[0]);
      StepInv(c, s, steps[0]);
      StepEvolves(c, s, steps[0]);
      forall i | 0 <= i < |t.rows| && t.rows[i].job == job ensures Terminal(t.rows[i].status) {
        if i >= |s.rows| { AddedRows(c, s, steps[0], i); }
      }
      StayTerminal(c, t, steps[1..], job);
    }
  }

  function DeadWorkers(s: State, job: JobId): set<WorkerId> {
    set w | w in s.workers && s.workers[w].job == job && s.workers[w].phase.Dead?
  }

  lemma AloneDrains(c: Config, s: State, pool: set<WorkerId>, job: JobId, steps: seq<Step>)
    requires FreshPool(c, s, pool, job) && NoOther(s, pool, job) && LeasesExpired(s.rows, job, s.now)
    requires Valid(c, s, steps) && NoNewWork(steps) && AllExited(Final(c, s, steps), pool)
    ensures AllTerminal(Final(c, s, steps).rows, job)
  {
    var dead, t := DeadWorkers(s, job), Final(c, s, steps);
    NoNewWorkAdds(c, s, steps, job);
    AloneRun(c, s, steps, pool, job, dead);
    forall i | 0 <= i < |t.rows| && t.rows[i].job == job ensures Terminal(t.rows[i].status) {
      CleanStartCompletes(c, s, steps, pool, job, dead, i);
    }
  }

  /** Exactly when starting a pool is safe: whatever the workers then do, all rows of the job are terminal when the pool
      has returned, if and only if they were so at the start, or no lease on the job was live and no other worker alive
      on it. */
  lemma DrainsExactly(c: Config, s: State, pool: set<WorkerId>, job: JobId)
    requires FreshPool(c, s, pool, job)
    ensures AlwaysDrains(c, s, pool, job) <==>
            AllTerminal(s.rows, job) || (LeasesExpired(s.rows, job, s.now) && NoOther(s, pool, job))
  {
    if AllTerminal(s.rows, job) || (LeasesExpired(s.rows, job, s.now) && NoOther(s, pool, job)) {
      forall steps | Valid(c, s, steps) && NoNewWork(steps) && AllExited(Final(c, s, steps), pool)
        ensures AllTerminal(Final(c, s, steps).rows, job)
      {
        if AllTerminal(s.rows, job) {
          StayTerminal(c, s, steps, job);
        } else {
          AloneDrains(c, s, pool, job, steps);
        }
      }
    } else {
      var steps := CanMiss(c, s, pool, job);
      assert NoNewWork(steps);
    }
  }

  /** In every other state the pool can return too early, even if nobody dies and no time passes. */
  lemma CanMiss(c: Config, s: State, pool: set<WorkerId>, job: JobId) returns (steps: seq<Step>)
    requires FreshPool(c, s, pool, job) && !AllTerminal(s.rows, job)
    requires !(LeasesExpired(s.rows, job, s.now) && NoOther(s, pool, job))
    ensures Misses(c, s, pool, job, steps)
  {
    if !LeasesExpired(s.rows, job, s.now) {
      var r: nat;
      steps, r := LeaseLost(c, s, pool, job);
    } else {
      var v :| v in s.workers && s.workers[v].job == job && v !in pool && Alive(s.workers[v].phase);
      var r :| 0 <= r < |s.rows| && s.rows[r].job == job && !Terminal(s.rows[r].status);
      steps := OtherLost(c, s, pool, job, v, r);
    }
  }
}
