/** What is left in the queue once every worker of a pool has returned. */
module Completion {
  import opened Domain
  import opened QueueTable
  import opened Protocol
  import opened Invariant

  ghost predicate PoolOn(s: State, pool: set<WorkerId>, job: JobId) {
    forall w <- pool :: w in s.workers && s.workers[w].job == job
  }

  ghost predicate AllIdle(s: State, pool: set<WorkerId>) {
    forall w <- pool :: w in s.workers && s.workers[w].phase.Idle?
  }

  /** Every worker of the pool returned normally. */
  ghost predicate AllExited(s: State, pool: set<WorkerId>) {
    forall w <- pool :: w in s.workers && s.workers[w].phase.Exited?
  }

  ghost predicate SomeExited(s: State, pool: set<WorkerId>) {
    exists w <- pool :: w in s.workers && s.workers[w].phase.Exited?
  }

  ghost predicate SomeDead(s: State, pool: set<WorkerId>) {
    exists w <- pool :: w in s.workers && s.workers[w].phase.Dead?
  }

  /** Workers that died before and whose leases on the job have all expired. */
  ghost predicate Abandoned(s: State, job: JobId, dead: set<WorkerId>) {
    && (forall w <- dead :: w in s.workers && s.workers[w].phase.Dead?)
    && forall i :: 0 <= i < |s.rows| && s.rows[i].job == job && s.rows[i].status.Claimed?
                   && s.rows[i].workerId.Some? && s.rows[i].workerId.value in dead ==>
                   Claimable(s.rows[i], s.now)
  }

  /** A row of the job that still has to be claimed: pending, or left by an abandoned worker. */
  predicate Open(s: State, job: JobId, dead: set<WorkerId>, i: nat) {
    && i < |s.rows| && s.rows[i].job == job
    && (s.rows[i].status.Pending?
        || (s.rows[i].status.Claimed? && s.rows[i].workerId.Some? && s.rows[i].workerId.value in dead))
  }

  /** Once a pool worker has left, every open row is locked by a claim under way. */
  ghost predicate Covered(s: State, pool: set<WorkerId>, job: JobId, dead: set<WorkerId>) {
    SomeExited(s, pool) ==> forall i :: Open(s, job, dead, i) ==> i in s.locks
  }

  /** An insert for the job, if there is one, finds all its rows there already. */
  ghost predicate AddsNothing(s: State, step: Step, job: JobId) {
    step.Insert? && step.job == job ==> InsertRows(s.rows, NewRows(job, step.items, step.failed)) == s.rows
  }

  /** No row is added to the job, and no outsider dies in the middle of a claim on it. */
  ghost predicate Undisturbed(s: State, step: Step, pool: set<WorkerId>, job: JobId) {
    && AddsNothing(s, step, job)
    && (step.Crash? ==> forall w <- step.ws ::
          w in s.workers && s.workers[w].phase.Locking? && s.workers[w].job == job ==> w in pool)
  }

  ghost predicate UndisturbedRun(c: Config, s: State, steps: seq<Step>, pool: set<WorkerId>, job: JobId)
    requires Valid(c, s, steps)
    decreases |steps|
  {
    steps == [] || (Undisturbed(s, steps[0], pool, job)
                    && UndisturbedRun(c, Next(c, s, steps[0]), steps[1..], pool, job))
  }

  // ------------------------------------------------------------- single steps

  /** Exited and dead are final, jobs of workers never change. */
  lemma WorkersStay(c: Config, s: State, step: Step, w: WorkerId)
    requires Enabled(c, s, step) && w in s.workers
    ensures var t := Next(c, s, step);
            && w in t.workers && t.workers[w].job == s.workers[w].job
            && (s.workers[w].phase.Exited? ==> t.workers[w] == s.workers[w])
            && (s.workers[w].phase.Dead? ==> t.workers[w] == s.workers[w])
  {}

  lemma PoolStep(c: Config, s: State, step: Step, pool: set<WorkerId>, job: JobId)
    requires Enabled(c, s, step) && PoolOn(s, pool, job)
    ensures PoolOn(Next(c, s, step), pool, job)
    ensures SomeDead(s, pool) ==> SomeDead(Next(c, s, step), pool)
  {
    forall w | w in pool ensures w in Next(c, s, step).workers
      && Next(c, s, step).workers[w].job == job { WorkersStay(c, s, step, w); }
    if SomeDead(s, pool) {
      var w :| w in pool && w in s.workers && s.workers[w].phase.Dead?;
      WorkersStay(c, s, step, w);
    }
  }

  /** A claimed row is only taken over by a living worker, and only its living owner renews it. */
  lemma RowOfDead(c: Config, s: State, step: Step, i: nat, d: WorkerId)
    requires Inv(c, s) && Enabled(c, s, step) && d in s.workers && s.workers[d].phase.Dead?
    requires i < |Next(c, s, step).rows| && Owned(Next(c, s, step).rows[i], d)
    ensures i < |s.rows| && Next(c, s, step).rows[i] == s.rows[i]
  {
    match step
    case Insert(job, items, failed) =>
      InsertRowsFacts(s.rows, NewRows(job, items, failed));
    case Complete(w) =>
      CompleteLength(s.rows, w, s.workers[w].phase.results, s.workers[w].phase.ref);
      CompleteEffect(c, s, w, i);
    case _ =>
  }

  lemma AbandonedStep(c: Config, s: State, step: Step, job: JobId, dead: set<WorkerId>)
    requires Inv(c, s) && Enabled(c, s, step) && Abandoned(s, job, dead)
    ensures Abandoned(Next(c, s, step), job, dead)
  {
    var t := Next(c, s, step);
    forall w | w in dead ensures w in t.workers && t.workers[w].phase.Dead? { WorkersStay(c, s, step, w); }
    assert s.now <= t.now;
    forall i | 0 <= i < |t.rows| && t.rows[i].job == job && t.rows[i].status.Claimed?
               && t.rows[i].workerId.Some? && t.rows[i].workerId.value in dead
      ensures Claimable(t.rows[i], t.now)
    {
      RowOfDead(c, s, step, i, t.rows[i].workerId.value);
    }
  }

  /** A worker leaves only if every claimable row of its job is locked or has a living owner. */
  lemma EmptyClaim(c: Config, s: State, w: WorkerId, busy: set<nat>, i: nat)
    requires c.size >= 1 && Enabled(c, s, Lock(w, busy)) && Selected(c, s, w, busy) == []
    requires i < |s.rows| && Eligible(s.rows[i], s.workers[w].job, s.now)
    ensures i in s.locks || (s.rows[i].status.Claimed? && s.rows[i].workerId.Some?
            && LiveWorker(s, s.rows[i].workerId.value))
  {
    var skip := s.locks.Keys + busy;
    SelectIsSelection(s.rows, s.workers[w].job, s.now, c.size, skip);
    var none: seq<nat> := [];
    assert i !in none;
  }

  /** Only an insert adds rows, and only of its own job. */
  lemma AddedRows(c: Config, s: State, step: Step, i: nat)
    requires Inv(c, s) && Enabled(c, s, step) && |s.rows| <= i < |Next(c, s, step).rows|
    ensures step.Insert? && Next(c, s, step).rows[i].job == step.job && !AddsNothing(s, step, step.job)
  {
    match step
    case Insert(job, items, failed) => InsertRowsFacts(s.rows, NewRows(job, items, failed));
    case Complete(w) => CompleteEvolves(c, s, w);
    case _ =>
  }

  /** A row open after a step was open before it, unless the step inserted it. */
  lemma OpenBefore(c: Config, s: State, step: Step, job: JobId, dead: set<WorkerId>, i: nat)
    requires Inv(c, s) && Enabled(c, s, step) && Abandoned(s, job, dead)
    requires AddsNothing(s, step, job)
    requires Open(Next(c, s, step), job, dead, i)
    ensures Open(s, job, dead, i)
    ensures step.Commit? ==> i !in step.order
  {
    var t := Next(c, s, step);
    StepEvolves(c, s, step);
    if i >= |s.rows| {
      AddedRows(c, s, step, i);
    } else if t.rows[i].status.Claimed? {
      RowOfDead(c, s, step, i, t.rows[i].workerId.value);
    }
    if step.Commit? && i in step.order { CommitFacts(c, s, step.w, step.order, i); }
  }

  lemma LocksKept(c: Config, s: State, step: Step, pool: set<WorkerId>, job: JobId, i: nat)
    requires Inv(c, s) && Enabled(c, s, step) && Undisturbed(s, step, pool, job)
    requires i in s.locks && i < |s.rows| && s.rows[i].job == job
    requires step.Commit? ==> i !in step.order
    ensures i in Next(c, s, step).locks || SomeDead(Next(c, s, step), pool)
  {
    if step.Crash? && s.locks[i] in step.ws {
      var w := s.locks[i];
      LockingFacts(c, s, w, i);
      assert Next(c, s, step).workers[w].phase.Dead?;
    }
  }

  lemma CoveredStep(c: Config, s: State, step: Step, pool: set<WorkerId>, job: JobId, dead: set<WorkerId>)
    requires c.size >= 1 && Inv(c, s) && Enabled(c, s, step) && Undisturbed(s, step, pool, job)
    requires PoolOn(s, pool, job) && Abandoned(s, job, dead) && Covered(s, pool, job, dead)
    ensures SomeDead(Next(c, s, step), pool) || Covered(Next(c, s, step), pool, job, dead)
  {
    var t := Next(c, s, step);
    if !SomeDead(t, pool) && SomeExited(t, pool) {
      forall i | Open(t, job, dead, i) ensures i in t.locks {
        OpenBefore(c, s, step, job, dead, i);
        if SomeExited(s, pool) {
          LocksKept(c, s, step, pool, job, i);
        } else {
          ExitStep(c, s, step, pool);
          EmptyClaim(c, s, step.w, step.busy, i);
        }
      }
    }
  }

  /** A pool worker exits only by an empty claim. */
  lemma ExitStep(c: Config, s: State, step: Step, pool: set<WorkerId>)
    requires Enabled(c, s, step) && (forall w <- pool :: w in s.workers)
    requires !SomeExited(s, pool) && SomeExited(Next(c, s, step), pool)
    ensures step.Lock? && step.w in pool && Selected(c, s, step.w, step.busy) == []
  {
    var t := Next(c, s, step);
    var w :| w in pool && w in t.workers && t.workers[w].phase.Exited?;
    assert w in s.workers && !s.workers[w].phase.Exited?;
  }

  // --------------------------------------------------------------- whole runs

  lemma {:induction false} CoveredRun(c: Config, s: State, steps: seq<Step>, pool: set<WorkerId>, job: JobId,
                                      dead: set<WorkerId>)
    requires c.size >= 1 && Inv(c, s) && Valid(c, s, steps) && UndisturbedRun(c, s, steps, pool, job)
    requires PoolOn(s, pool, job) && Abandoned(s, job, dead)
    requires SomeDead(s, pool) || Covered(s, pool, job, dead)
    ensures var t := Final(c, s, steps);
            Inv(c, t) && PoolOn(t, pool, job) && Abandoned(t, job, dead)
              && (SomeDead(t, pool) || Covered(t, pool, job, dead))
    decreases |steps|
  {
    if steps != [] {
      StepInv(c, s, steps[0]);
      PoolStep(c, s, steps[0], pool, job);
      AbandonedStep(c, s, steps[0], job, dead);
      if !SomeDead(s, pool) { CoveredStep(c, s, steps[0], pool, job, dead); }
      CoveredRun(c, Next(c, s, steps[0]), steps[1..], pool, job, dead);
    }
  }

  /** In every interleaving, when the whole pool has returned, a pending row is in the middle of an outsider's
      claim, and a claimed row belongs to an outsider that was not abandoned when the pool started. */
  lemma PoolCompletion(c: Config, s: State, steps: seq<Step>, pool: set<WorkerId>, job: JobId, dead: set<WorkerId>,
                       i: nat)
    requires c.size >= 1 && pool != {} && Inv(c, s) && Valid(c, s, steps) && UndisturbedRun(c, s, steps, pool, job)
    requires PoolOn(s, pool, job) && AllIdle(s, pool) && Abandoned(s, job, dead)
    requires AllExited(Final(c, s, steps), pool)
    requires i < |Final(c, s, steps).rows| && Final(c, s, steps).rows[i].job == job
    ensures var t := Final(c, s, steps);
            && (t.rows[i].status.Pending? ==> i in t.locks && t.locks[i] !in pool)
            && (t.rows[i].status.Claimed? ==>
                  && t.rows[i].workerId.Some? && t.rows[i].workerId.value !in pool
                  && (t.rows[i].workerId.value in dead ==> i in t.locks && t.locks[i] !in pool))
  {
    var t := Final(c, s, steps);
    assert !SomeExited(s, pool);
    CoveredRun(c, s, steps, pool, job, dead);
    var w :| w in pool;
    assert t.workers[w].phase.Exited?;
    assert RowOk(t, i);
    if Open(t, job, dead, i) { assert i in t.locks; }
  }

  // ------------------------------------------------- ending with nobody else left

  /** Every worker of the job is in the pool, has returned, or was dead when the pool started. */
  ghost predicate Alone(s: State, pool: set<WorkerId>, job: JobId, dead: set<WorkerId>) {
    forall w <- s.workers :: s.workers[w].job == job && !s.workers[w].phase.Exited? ==> w in pool || w in dead
  }

  ghost predicate NoSpawn(steps: seq<Step>, job: JobId) {
    forall k :: 0 <= k < |steps| && steps[k].Spawn? ==> steps[k].job != job
  }

  lemma AloneStep(c: Config, s: State, step: Step, pool: set<WorkerId>, job: JobId, dead: set<WorkerId>)
    requires Enabled(c, s, step) && Alone(s, pool, job, dead) && (step.Spawn? ==> step.job != job)
    ensures Alone(Next(c, s, step), pool, job, dead)
  {
    var t := Next(c, s, step);
    forall w | w in t.workers && t.workers[w].job == job && !t.workers[w].phase.Exited? ensures w in pool || w in dead {
      if w in s.workers { WorkersStay(c, s, step, w); }
    }
  }

  /** A pool that starts alone stays alone unless another pool is started on the job. */
  lemma {:induction false} AloneRun(c: Config, s: State, steps: seq<Step>, pool: set<WorkerId>, job: JobId,
                                    dead: set<WorkerId>)
    requires Valid(c, s, steps) && NoSpawn(steps, job) && Alone(s, pool, job, dead)
    ensures Alone(Final(c, s, steps), pool, job, dead)
    decreases |steps|
  {
    if steps != [] {
      AloneStep(c, s, steps[0], pool, job, dead);
      AloneRun(c, Next(c, s, steps[0]), steps[1..], pool, job, dead);
    }
  }

  ghost predicate AllDead(s: State, dead: set<WorkerId>) {
    forall w <- dead :: w in s.workers && s.workers[w].phase.Dead?
  }

  /** A worker of the job has died that is not among those that were dead when the pool started. */
  ghost predicate LateDead(s: State, job: JobId, dead: set<WorkerId>) {
    exists w <- s.workers :: s.workers[w].job == job && s.workers[w].phase.Dead? && w !in dead
  }

  /** Since the pool started: the leases of the workers in `gone` have expired, and unless another worker has died the
      rows open to the pool are covered. */
  ghost predicate Tracked(s: State, pool: set<WorkerId>, job: JobId, gone: set<WorkerId>, dead: set<WorkerId>) {
    Abandoned(s, job, gone) && (LateDead(s, job, dead) || Covered(s, pool, job, gone))
  }

  lemma LateDeadStays(c: Config, s: State, step: Step, job: JobId, dead: set<WorkerId>)
    requires Enabled(c, s, step) && LateDead(s, job, dead)
    ensures LateDead(Next(c, s, step), job, dead)
  {
    var w :| w in s.workers && s.workers[w].job == job && s.workers[w].phase.Dead? && w !in dead;
    WorkersStay(c, s, step, w);
  }

  /** Whoever dies in a step that disturbs the pool dies late. */
  lemma DisturbingDeath(c: Config, s: State, step: Step, pool: set<WorkerId>, job: JobId, dead: set<WorkerId>)
    requires Inv(c, s) && Enabled(c, s, step) && AllDead(s, dead) && AddsNothing(s, step, job)
    requires !Undisturbed(s, step, pool, job)
    ensures LateDead(Next(c, s, step), job, dead)
  {
    var w :| w in step.ws && w in s.workers && s.workers[w].phase.Locking? && s.workers[w].job == job;
    assert w in Next(c, s, step).workers && w !in dead;
  }

  lemma TrackedStep(c: Config, s: State, step: Step, pool: set<WorkerId>, job: JobId, gone: set<WorkerId>,
                    dead: set<WorkerId>)
    requires c.size >= 1 && Inv(c, s) && Enabled(c, s, step) && AddsNothing(s, step, job)
    requires PoolOn(s, pool, job) && AllDead(s, dead) && pool !! dead && Tracked(s, pool, job, gone, dead)
    ensures Tracked(Next(c, s, step), pool, job, gone, dead)
  {
    AbandonedStep(c, s, step, job, gone);
    if LateDead(s, job, dead) {
      LateDeadStays(c, s, step, job, dead);
    } else if Undisturbed(s, step, pool, job) {
      PoolStep(c, s, step, pool, job);
      CoveredStep(c, s, step, pool, job, gone);
      if SomeDead(Next(c, s, step), pool) { PoolDeathIsLate(Next(c, s, step), pool, job, dead); }
    } else {
      DisturbingDeath(c, s, step, pool, job, dead);
    }
  }

  lemma PoolDeathIsLate(s: State, pool: set<WorkerId>, job: JobId, dead: set<WorkerId>)
    requires PoolOn(s, pool, job) && pool !! dead && SomeDead(s, pool)
    ensures LateDead(s, job, dead)
  {
    var w :| w in pool && w in s.workers && s.workers[w].phase.Dead?;
    assert w !in dead;
  }

  lemma AllDeadStep(c: Config, s: State, step: Step, dead: set<WorkerId>)
    requires Enabled(c, s, step) && AllDead(s, dead)
    ensures AllDead(Next(c, s, step), dead)
  {
    forall w | w in dead ensures w in Next(c, s, step).workers && Next(c, s, step).workers[w].phase.Dead? {
      WorkersStay(c, s, step, w);
    }
  }

  /** No insert of the run adds a row to the job. */
  ghost predicate NothingAdded(c: Config, s: State, steps: seq<Step>, job: JobId)
    requires Valid(c, s, steps)
    decreases |steps|
  {
    steps == [] || (AddsNothing(s, steps[0], job) && NothingAdded(c, Next(c, s, steps[0]), steps[1..], job))
  }

  lemma {:induction false} TrackedRun(c: Config, s: State, steps: seq<Step>, pool: set<WorkerId>, job: JobId,
                                      dead: set<WorkerId>)
    requires c.size >= 1 && Inv(c, s) && Valid(c, s, steps) && NothingAdded(c, s, steps, job)
    requires PoolOn(s, pool, job) && AllDead(s, dead) && pool !! dead && Tracked(s, pool, job, dead, dead)
    ensures var t := Final(c, s, steps); Inv(c, t) && PoolOn(t, pool, job) && Tracked(t, pool, job, dead, dead)
    decreases |steps|
  {
    if steps != [] {
      StepInv(c, s, steps[0]);
      PoolStep(c, s, steps[0], pool, job);
      AllDeadStep(c, s, steps[0], dead);
      TrackedStep(c, s, steps[0], pool, job, dead, dead);
      TrackedRun(c, Next(c, s, steps[0]), steps[1..], pool, job, dead);
    }
  }

  /** Several processes may drain a job, start while others are at it, and repeat its ingest: if the leases of the
      workers that were dead when a pool started had expired, and that pool and every other worker of the job have
      returned, every row of the job is terminal. */
  lemma CleanStartCompletes(c: Config, s: State, steps: seq<Step>, pool: set<WorkerId>, job: JobId,
                            dead: set<WorkerId>, i: nat)
    requires c.size >= 1 && pool != {} && Inv(c, s) && Valid(c, s, steps) && NothingAdded(c, s, steps, job)
    requires PoolOn(s, pool, job) && AllIdle(s, pool) && Abandoned(s, job, dead)
    requires AllExited(Final(c, s, steps), pool) && Alone(Final(c, s, steps), pool, job, dead)
    requires i < |Final(c, s, steps).rows| && Final(c, s, steps).rows[i].job == job
    ensures Terminal(Final(c, s, steps).rows[i].status)
  {
    assert !SomeExited(s, pool) && pool !! dead;
    TrackedRun(c, s, steps, pool, job, dead);
    CoveredAtEnd(Final(c, s, steps), pool, job, dead, dead);
    AllOver(c, Final(c, s, steps), pool, job, dead, i);
  }

  /** When everybody has returned nobody has died late. */
  lemma CoveredAtEnd(t: State, pool: set<WorkerId>, job: JobId, gone: set<WorkerId>, dead: set<WorkerId>)
    requires pool != {} && AllExited(t, pool) && Alone(t, pool, job, dead) && Tracked(t, pool, job, gone, dead)
    ensures !LateDead(t, job, dead) && forall i :: Open(t, job, gone, i) ==> i in t.locks
  {
    var w :| w in pool;
    assert t.workers[w].phase.Exited?;
  }

  lemma AllOver(c: Config, t: State, pool: set<WorkerId>, job: JobId, dead: set<WorkerId>, i: nat)
    requires Inv(c, t) && Alone(t, pool, job, dead) && Abandoned(t, job, dead) && AllExited(t, pool)
    requires i < |t.rows| && t.rows[i].job == job && (Open(t, job, dead, i) ==> i in t.locks)
    ensures Terminal(t.rows[i].status)
  {
    assert RowOk(t, i);
    if i in t.locks {
      LockingFacts(c, t, t.locks[i], i);
    }
  }

  // ------------------------------------------- the hypotheses are all needed

  function OneRowState(row: Row, workers: map<WorkerId, Worker>): State {
    State(0, [row], map[], [], workers, [{}], [{}])
  }

  lemma SelectOne(row: Row, job: JobId, now: Time, size: nat, skip: set<nat>)
    ensures Select([row], job, now, size, skip) == if size > 0 && Eligible(row, job, now) && 0 !in skip then [0] else []
  {
    assert SelectFrom([row], job, now, size, skip, 1) == [];
    if size > 0 { assert SelectFrom([row], job, now, size - 1, skip, 1) == []; }
  }

  /** With chunk size 0 a lone worker returns at once and its row stays pending. */
  lemma ChunkSizeNeeded(job: JobId, ttl: nat, max: nat) returns (s: State, steps: seq<Step>)
    ensures var c := Config(0, ttl, max);
            && Inv(c, s) && PoolOn(s, {0}, job) && AllIdle(s, {0}) && Valid(c, s, steps)
            && AllExited(Final(c, s, steps), {0})
            && |Final(c, s, steps).rows| == 1 && Final(c, s, steps).rows[0].status.Pending?
            && Final(c, s, steps).rows[0].job == job && Final(c, s, steps).locks == map[]
  {
    var c := Config(0, ttl, max);
    var row := PendingRow(job, PromptItem("a", "p"));
    s, steps := OneRowState(row, map[0 := Worker(job, Idle, 0, 0, 0)]), [Lock(0, {})];
    SelectOne(row, job, 0, 0, s.locks.Keys + {});
    var s1 := Next(c, s, Lock(0, {}));
    RunCons(c, s, Lock(0, {}), []);
  }

  function OutsiderStart(job: JobId): State {
    OneRowState(PendingRow(job, PromptItem("a", "p")),
                map[0 := Worker(job, Idle, 0, 0, 0), 1 := Worker(job, Idle, 0, 0, 0)])
  }

  lemma OutsiderLocks(c: Config, job: JobId)
    requires c.size == 1
    ensures Enabled(c, OutsiderStart(job), Lock(1, {}))
    ensures Next(c, OutsiderStart(job), Lock(1, {})) ==
            OutsiderStart(job).(locks := map[0 := 1],
                                workers := map[0 := Worker(job, Idle, 0, 0, 0),
                                               1 := Worker(job, Locking([0]), 0, 0, 0)])
  {
    var s := OutsiderStart(job);
    SelectOne(s.rows[0], job, 0, 1, s.locks.Keys + {});
    assert (map i | i in [0] :: 1) == map[0 := 1];
  }

  lemma PoolFindsNothing(c: Config, job: JobId, s: State)
    requires c.size == 1
    requires s == OutsiderStart(job).(locks := map[0 := 1],
                                      workers := map[0 := Worker(job, Idle, 0, 0, 0),
                                                     1 := Worker(job, Locking([0]), 0, 0, 0)])
    ensures Enabled(c, s, Lock(0, {}))
    ensures Next(c, s, Lock(0, {})) == s.(workers := map[0 := Worker(job, Exited, 0, 0, 0),
                                                         1 := Worker(job, Locking([0]), 0, 0, 0)])
  {
    SelectOne(s.rows[0], job, 0, 1, s.locks.Keys + {});
  }

  lemma OutsiderDies(c: Config, job: JobId, s: State)
    requires s == OutsiderStart(job).(locks := map[0 := 1],
                                      workers := map[0 := Worker(job, Exited, 0, 0, 0),
                                                     1 := Worker(job, Locking([0]), 0, 0, 0)])
    ensures Enabled(c, s, Crash({1}))
    ensures Next(c, s, Crash({1})) ==
            OutsiderStart(job).(workers := map[0 := Worker(job, Exited, 0, 0, 0), 1 := Worker(job, Dead, 0, 0, 0)])
  {}

  lemma OutsiderStartInv(c: Config, job: JobId)
    ensures Inv(c, OutsiderStart(job))
  {}

  /** If an outsider dies while it has a row locked, the pool can return and leave that row pending and unlocked. */
  lemma OutsiderMayNotDieClaiming(job: JobId, ttl: nat, max: nat)
    ensures var c, s, steps := Config(1, ttl, max), OutsiderStart(job), [Lock(1, {}), Lock(0, {}), Crash({1})];
            && Inv(c, s) && Valid(c, s, steps)
            && Final(c, s, steps) == s.(workers := map[0 := Worker(job, Exited, 0, 0, 0),
                                                       1 := Worker(job, Dead, 0, 0, 0)])
  {
    var c, s := Config(1, ttl, max), OutsiderStart(job);
    OutsiderStartInv(c, job);
    OutsiderLocks(c, job);
    var s1 := Next(c, s, Lock(1, {}));
    PoolFindsNothing(c, job, s1);
    var s2 := Next(c, s1, Lock(0, {}));
    OutsiderDies(c, job, s2);
    Run3(c, s, s1, s2, Lock(1, {}), Lock(0, {}), Crash({1}));
  }
}
