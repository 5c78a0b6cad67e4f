/** Termination with exact counts: without lapse and crash, how many claims and steps a pool takes. */
module Progress {
  import opened Sets
  import opened Domain
  import opened QueueTable
  import opened Protocol
  import opened Invariant
  import opened Completion
  import opened Timing

  // ------------------------------------------------------------------- measures

  /** Rows of the job that are to be claimed: pending, or left behind by workers that died before, and not locked. */
  function Available(s: State, job: JobId, dead: set<WorkerId>): set<nat> {
    set i: nat | i < |s.rows| && Open(s, job, dead, i) && i !in s.locks
  }

  /** The workers of the pool that have not left. */
  function Staying(s: State, pool: set<WorkerId>): set<WorkerId> {
    set w | w in pool && w in s.workers && !s.workers[w].phase.Exited?
  }

  /** Steps until the worker is idle again. */
  function Rank(phase: Phase): nat {
    match phase
    case Locking(_) => 4
    case Processing(_) => 3
    case Ready(_, _) => 2
    case Written(_, _, _) => 1
    case _ => 0
  }

  ghost function RankSum(s: State, pool: set<WorkerId>): nat
    requires pool <= s.workers.Keys
  {
    if pool == {} then 0
    else var w :| w in pool; Rank(s.workers[w].phase) + RankSum(s, pool - {w})
  }

  lemma {:induction false} RankSumTake(s: State, pool: set<WorkerId>, w: WorkerId)
    requires pool <= s.workers.Keys && w in pool
    ensures RankSum(s, pool) == Rank(s.workers[w].phase) + RankSum(s, pool - {w})
    decreases pool
  {
    var v :| v in pool && RankSum(s, pool) == Rank(s.workers[v].phase) + RankSum(s, pool - {v});
    if v != w {
      RankSumTake(s, pool - {v}, w);
      RankSumTake(s, pool - {w}, v);
      assert pool - {v} - {w} == pool - {w} - {v};
    }
  }

  lemma {:induction false} RankSumSame(s: State, t: State, pool: set<WorkerId>)
    requires pool <= s.workers.Keys && pool <= t.workers.Keys
    requires forall w <- pool :: Rank(t.workers[w].phase) == Rank(s.workers[w].phase)
    ensures RankSum(t, pool) == RankSum(s, pool)
    decreases pool
  {
    if pool != {} {
      var w :| w in pool;
      RankSumTake(s, pool, w);
      RankSumTake(t, pool, w);
      RankSumSame(s, t, pool - {w});
    }
  }

  lemma RankSumChange(s: State, t: State, pool: set<WorkerId>, w: WorkerId)
    requires pool <= s.workers.Keys && pool <= t.workers.Keys && w in pool
    requires forall v <- pool :: v != w ==> t.workers[v] == s.workers[v]
    ensures RankSum(t, pool) - RankSum(s, pool) == Rank(t.workers[w].phase) - Rank(s.workers[w].phase)
  {
    RankSumTake(s, pool, w);
    RankSumTake(t, pool, w);
    RankSumSame(s, t, pool - {w});
  }

  /** How many chunks of `size` rows it takes to claim `n` rows. */
  function Chunks(n: nat, size: nat): nat
    requires size >= 1
  {
    if n == 0 then 0 else if n <= size then 1 else 1 + Chunks(n - size, size)
  }

  lemma {:induction false} ChunksIsCeiling(n: nat, size: nat)
    requires size >= 1
    ensures size * Chunks(n, size) >= n && (n > 0 ==> size * (Chunks(n, size) - 1) < n)
  {
    if n > size {
      ChunksIsCeiling(n - size, size);
      assert size * Chunks(n, size) == size + size * Chunks(n - size, size);
      assert size * (Chunks(n, size) - 1) == size * Chunks(n - size, size);
      assert size * (Chunks(n - size, size) - 1) == size * Chunks(n - size, size) - size;
    }
  }

  // ---------------------------------------------------------------- counting runs

  predicate IsClaim(s: State, step: Step, pool: set<WorkerId>) {
    step.Lock? && step.w in pool && step.w in s.workers
  }

  /** Claims by the pool that took rows, and claims that came back empty. */
  function Claims(c: Config, s: State, steps: seq<Step>, pool: set<WorkerId>, empty: bool): nat
    requires Valid(c, s, steps)
    decreases |steps|
  {
    if steps == [] then 0
    else (if IsClaim(s, steps[0], pool) && (Selected(c, s, steps[0].w, steps[0].busy) == []) == empty then 1 else 0)
         + Claims(c, Next(c, s, steps[0]), steps[1..], pool, empty)
  }

  /** Whether a step advances a worker of the pool in its loop; renewals and the clock do not. */
  predicate Advances(step: Step, pool: set<WorkerId>) {
    match step
    case Lock(w, _) => w in pool
    case Commit(w, _) => w in pool
    case Finish(w, _) => w in pool
    case Write(w, _) => w in pool
    case Complete(w) => w in pool
    case _ => false
  }

  function Work(c: Config, s: State, steps: seq<Step>, pool: set<WorkerId>): nat
    requires Valid(c, s, steps)
    decreases |steps|
  {
    if steps == [] then 0
    else (if Advances(steps[0], pool) then 1 else 0) + Work(c, Next(c, s, steps[0]), steps[1..], pool)
  }

  /** The job is left to the pool: nothing is ingested or spawned for it, and nobody crashes. */
  ghost predicate Calm(steps: seq<Step>, job: JobId) {
    forall k :: 0 <= k < |steps| ==>
      !steps[k].Crash? && (steps[k].Insert? ==> steps[k].job != job) && (steps[k].Spawn? ==> steps[k].job != job)
  }

  /** The pool works on the job alone, but for dead workers whose leases have expired, and no lease of the living has
      lapsed. */
  ghost predicate Smooth(c: Config, s: State, pool: set<WorkerId>, job: JobId, dead: set<WorkerId>) {
    && Inv(c, s) && AllHeld(c, s) && !SomeDead(s, pool)
    && PoolOn(s, pool, job) && Alone(s, pool, job, dead) && Abandoned(s, job, dead)
    && (SomeExited(s, pool) ==> Available(s, job, dead) == {})
  }

  // --------------------------------------------------------------- single steps

  /** Without lapse only open rows are eligible, and they all are. */
  lemma EligibleOpen(c: Config, b: Bounds, s: State, pool: set<WorkerId>, job: JobId, dead: set<WorkerId>, i: nat)
    requires b.renew + b.commit <= c.ttl && Punctual(b, s) && Smooth(c, s, pool, job, dead) && i < |s.rows|
    ensures Eligible(s.rows[i], job, s.now) <==> Open(s, job, dead, i)
  {
    assert RowOk(s, i);
    if s.rows[i].status.Claimed? && s.rows[i].job == job {
      var v := s.rows[i].workerId.value;
      if Claimable(s.rows[i], s.now) && !s.workers[v].phase.Dead? { NotClaimable(c, b, s, v, i, s.now); }
    }
  }

  lemma SizeOf(ids: seq<nat>)
    requires Ascending(ids)
    ensures |IdSet(ids)| == |ids|
  {
    if ids == [] {
      assert IdSet(ids) == {};
    } else {
      var front, last := ids[..|ids| - 1], ids[|ids| - 1];
      assert ids == front + [last];
      SizeOf(front);
      assert IdSet(ids) == IdSet(front) + {last};
      assert last !in front;
    }
  }

  /** A claim takes as many available rows as it can. */
  lemma ClaimTakes(c: Config, b: Bounds, s: State, w: WorkerId, busy: set<nat>, pool: set<WorkerId>, job: JobId,
                   dead: set<WorkerId>)
    requires b.renew + b.commit <= c.ttl && Punctual(b, s) && Smooth(c, s, pool, job, dead)
    requires Enabled(c, s, Lock(w, busy)) && w in pool
    ensures var ids := Selected(c, s, w, busy);
            && IdSet(ids) <= Available(s, job, dead)
            && |ids| == (if |Available(s, job, dead)| <= c.size then |Available(s, job, dead)| else c.size)
            && |IdSet(ids)| == |ids|
  {
    var ids, skip := Selected(c, s, w, busy), s.locks.Keys + busy;
    assert s.workers[w].job == job;
    SelectIsSelection(s.rows, job, s.now, c.size, skip);
    SizeOf(ids);
    forall i | i in IdSet(ids) ensures i in Available(s, job, dead) {
      EligibleOpen(c, b, s, pool, job, dead, i);
    }
    var avail := Available(s, job, dead);
    assert |IdSet(ids)| <= |avail| by { SubsetSize(IdSet(ids), avail); }
    if |ids| < c.size {
      forall i | i in avail ensures i in IdSet(ids) {
        EligibleOpen(c, b, s, pool, job, dead, i);
        assert i !in busy;
        assert i in ids;
      }
      assert avail == IdSet(ids);
    }
  }

  lemma LockAvailable(c: Config, s: State, w: WorkerId, busy: set<nat>, job: JobId, dead: set<WorkerId>)
    requires Enabled(c, s, Lock(w, busy))
    ensures Available(AfterLock(c, s, w, busy), job, dead) == Available(s, job, dead) - IdSet(Selected(c, s, w, busy))
  {}

  /** A claim of another job leaves the job's available rows alone. */
  lemma ForeignLock(c: Config, s: State, w: WorkerId, busy: set<nat>, job: JobId, dead: set<WorkerId>)
    requires Enabled(c, s, Lock(w, busy)) && s.workers[w].job != job
    ensures Available(AfterLock(c, s, w, busy), job, dead) == Available(s, job, dead)
  {
    SelectIsSelection(s.rows, s.workers[w].job, s.now, c.size, s.locks.Keys + busy);
    var ids := Selected(c, s, w, busy);
    LockAvailable(c, s, w, busy, job, dead);
    assert IdSet(ids) !! Available(s, job, dead);
  }

  lemma CommitAvailable(c: Config, s: State, w: WorkerId, order: seq<nat>, job: JobId, dead: set<WorkerId>)
    requires Inv(c, s) && Enabled(c, s, Commit(w, order)) && Abandoned(s, job, dead)
    ensures Available(AfterCommit(c, s, w, order), job, dead) == Available(s, job, dead)
  {
    forall i: nat ensures i in Available(AfterCommit(c, s, w, order), job, dead) <==> i in Available(s, job, dead) {
      CommitFacts(c, s, w, order, i);
    }
  }

  lemma CompleteAvailable(c: Config, s: State, w: WorkerId, job: JobId, dead: set<WorkerId>)
    requires Inv(c, s) && Enabled(c, s, Complete(w)) && Abandoned(s, job, dead)
    ensures Available(AfterComplete(s, w), job, dead) == Available(s, job, dead)
  {
    CompleteEvolves(c, s, w);
    var t := AfterComplete(s, w);
    forall i: nat | i < |s.rows| ensures Open(t, job, dead, i) <==> Open(s, job, dead, i) {
      CompleteEffect(c, s, w, i);
    }
  }

  lemma InsertAvailable(s: State, job': JobId, items: seq<PromptItem>, failed: seq<string>, job: JobId,
                        dead: set<WorkerId>)
    requires job' != job
    ensures Available(AfterInsert(s, job', items, failed), job, dead) == Available(s, job, dead)
  {
    var t := AfterInsert(s, job', items, failed);
    forall i | |s.rows| <= i < |t.rows| ensures t.rows[i].job == job' {
      InsertRowsFacts(s.rows, NewRows(job', items, failed));
      assert t.rows[i] in NewRows(job', items, failed);
    }
  }

  lemma OtherAvailable(c: Config, s: State, step: Step, job: JobId, dead: set<WorkerId>)
    requires Inv(c, s) && Enabled(c, s, step) && !step.Lock? && !step.Crash? && (step.Insert? ==> step.job != job)
    requires Abandoned(s, job, dead)
    ensures Available(Next(c, s, step), job, dead) == Available(s, job, dead)
  {
    match step
    case Commit(w, order) => CommitAvailable(c, s, w, order, job, dead);
    case Complete(w) => CompleteAvailable(c, s, w, job, dead);
    case Insert(job', items, failed) => InsertAvailable(s, job', items, failed, job, dead);
    case _ =>
  }

  lemma StayingStep(c: Config, s: State, step: Step, pool: set<WorkerId>)
    requires Enabled(c, s, step) && pool <= s.workers.Keys && !step.Crash?
    ensures var t := Next(c, s, step);
            && pool <= t.workers.Keys
            && (if IsClaim(s, step, pool) && Selected(c, s, step.w, step.busy) == []
                then Staying(t, pool) == Staying(s, pool) - {step.w} && step.w in Staying(s, pool)
                else Staying(t, pool) == Staying(s, pool))
  {
    var t := Next(c, s, step);
    forall w | w in pool ensures w in t.workers { WorkersStay(c, s, step, w); }
    forall w | w in pool ensures t.workers[w].phase.Exited? <==>
                                 s.workers[w].phase.Exited? || (step.Lock? && step.w == w
                                   && Selected(c, s, w, step.busy) == [])
    {
      WorkersStay(c, s, step, w);
    }
  }

  /** Each step of a pool worker lowers its rank by one, except a claim that takes rows, which starts a new cycle. */
  lemma RankStep(c: Config, s: State, step: Step, pool: set<WorkerId>)
    requires Enabled(c, s, step) && pool <= s.workers.Keys && !step.Crash?
    ensures var t := Next(c, s, step);
            && pool <= t.workers.Keys
            && RankSum(t, pool) - RankSum(s, pool) ==
               if !Advances(step, pool) then 0
               else if step.Lock? then (if Selected(c, s, step.w, step.busy) == [] then 0 else 4)
               else -1
  {
    var t := Next(c, s, step);
    forall w | w in pool ensures w in t.workers { WorkersStay(c, s, step, w); }
    match step
    case Lock(w, _) => RankAt(s, t, pool, w);
    case Commit(w, _) => RankAt(s, t, pool, w);
    case Renew(w) => RankAt(s, t, pool, w);
    case Finish(w, _) => RankAt(s, t, pool, w);
    case Write(w, _) => RankAt(s, t, pool, w);
    case Complete(w) => RankAt(s, t, pool, w);
    case _ => RankSumSame(s, t, pool);
  }

  lemma RankAt(s: State, t: State, pool: set<WorkerId>, w: WorkerId)
    requires pool <= s.workers.Keys && pool <= t.workers.Keys && w in s.workers && w in t.workers
    requires forall v <- pool :: v != w ==> t.workers[v] == s.workers[v]
    ensures RankSum(t, pool) - RankSum(s, pool) ==
            if w in pool then Rank(t.workers[w].phase) - Rank(s.workers[w].phase) else 0
  {
    if w in pool { RankSumChange(s, t, pool, w); } else { RankSumSame(s, t, pool); }
  }

  /** What one step does to the number of available rows. */
  ghost predicate Taken(c: Config, s: State, step: Step, pool: set<WorkerId>, n: nat, n': nat) {
    if IsClaim(s, step, pool) && Selected(c, s, step.w, step.busy) != []
    then n > 0 && n' == if n <= c.size then 0 else n - c.size
    else n' == n && (IsClaim(s, step, pool) ==> n == 0)
  }

  lemma AvailableStep(c: Config, b: Bounds, s: State, step: Step, pool: set<WorkerId>, job: JobId, dead: set<WorkerId>)
    requires c.size >= 1 && b.renew + b.commit <= c.ttl && Punctual(b, s) && Smooth(c, s, pool, job, dead)
    requires Enabled(c, s, step) && !step.Crash? && (step.Insert? ==> step.job != job)
    ensures Taken(c, s, step, pool, |Available(s, job, dead)|, |Available(Next(c, s, step), job, dead)|)
    ensures Available(Next(c, s, step), job, dead) <= Available(s, job, dead)
  {
    if step.Lock? {
      var ids := Selected(c, s, step.w, step.busy);
      LockAvailable(c, s, step.w, step.busy, job, dead);
      if step.w in pool {
        ClaimTakes(c, b, s, step.w, step.busy, pool, job, dead);
        SubsetSize(IdSet(ids), Available(s, job, dead));
      } else {
        assert s.workers[step.w].job != job;
        ForeignLock(c, s, step.w, step.busy, job, dead);
      }
    } else {
      OtherAvailable(c, s, step, job, dead);
    }
  }

  lemma NoneDies(c: Config, s: State, step: Step, pool: set<WorkerId>)
    requires Enabled(c, s, step) && !step.Crash? && (forall w <- pool :: w in s.workers) && !SomeDead(s, pool)
    ensures !SomeDead(Next(c, s, step), pool)
  {
    var t := Next(c, s, step);
    forall w | w in pool && w in t.workers ensures !t.workers[w].phase.Dead? { assert w in s.workers; }
  }

  lemma SmoothStep(c: Config, b: Bounds, s: State, step: Step, pool: set<WorkerId>, job: JobId, dead: set<WorkerId>)
    requires c.size >= 1 && b.renew + b.commit <= c.ttl && Punctual(b, s) && Smooth(c, s, pool, job, dead)
    requires Enabled(c, s, step) && Calm([step], job)
    ensures Smooth(c, Next(c, s, step), pool, job, dead)
    ensures Taken(c, s, step, pool, |Available(s, job, dead)|, |Available(Next(c, s, step), job, dead)|)
  {
    var t := Next(c, s, step);
    assert [step][0] == step;
    StepInv(c, s, step);
    forall v | v in t.workers ensures Held(c, t, v) { HeldStep(c, b, s, step, v); }
    PoolStep(c, s, step, pool, job);
    NoneDies(c, s, step, pool);
    AloneStep(c, s, step, pool, job, dead);
    AbandonedStep(c, s, step, job, dead);
    AvailableStep(c, b, s, step, pool, job, dead);
    if SomeExited(t, pool) && !SomeExited(s, pool) { ExitStep(c, s, step, pool); }
  }

  /** A pool that starts beside nobody but dead workers with expired leases is such a pool, and what is there for it to
      claim are all rows of the job that are pending or in progress. */
  lemma ResumedPool(c: Config, s: State, pool: set<WorkerId>, job: JobId, dead: set<WorkerId>)
    requires Inv(c, s) && AllHeld(c, s) && PoolOn(s, pool, job) && AllIdle(s, pool)
    requires Alone(s, pool, job, dead) && Abandoned(s, job, dead)
    ensures Smooth(c, s, pool, job, dead)
    ensures |Available(s, job, dead)| == |WithStatus(s.rows, job, Pending)| + |WithStatus(s.rows, job, Claimed)|
  {
    var p, q := WithStatus(s.rows, job, Pending), WithStatus(s.rows, job, Claimed);
    forall i: nat | i < |s.rows| ensures i in Available(s, job, dead) <==> i in p + q {
      assert RowOk(s, i);
      if i in s.locks { LockingFacts(c, s, s.locks[i], i); }
    }
    assert Available(s, job, dead) == p + q && p !! q;
  }

  // ----------------------------------------------------------------- whole runs

  lemma ChunksStep(c: Config, s: State, step: Step, pool: set<WorkerId>, n: nat, n': nat)
    requires c.size >= 1 && Taken(c, s, step, pool, n, n')
    ensures (if IsClaim(s, step, pool) && Selected(c, s, step.w, step.busy) != [] then 1 else 0)
            + Chunks(n', c.size) == Chunks(n, c.size)
  {}

  lemma {:induction false} CountClaims(c: Config, b: Bounds, s: State, steps: seq<Step>, pool: set<WorkerId>,
                                       job: JobId, dead: set<WorkerId>)
    requires c.size >= 1 && b.renew + b.commit <= c.ttl && Smooth(c, s, pool, job, dead)
    requires Valid(c, s, steps) && PunctualRun(c, b, s, steps) && Calm(steps, job)
    ensures Smooth(c, Final(c, s, steps), pool, job, dead)
    ensures Claims(c, s, steps, pool, false) + Chunks(|Available(Final(c, s, steps), job, dead)|, c.size)
            == Chunks(|Available(s, job, dead)|, c.size)
    decreases |steps|
  {
    if steps != [] {
      assert Calm([steps[0]], job);
      SmoothStep(c, b, s, steps[0], pool, job, dead);
      ChunksStep(c, s, steps[0], pool, |Available(s, job, dead)|, |Available(Next(c, s, steps[0]), job, dead)|);
      CountClaims(c, b, Next(c, s, steps[0]), steps[1..], pool, job, dead);
    }
  }

  lemma {:induction false} CountSteps(c: Config, s: State, steps: seq<Step>, pool: set<WorkerId>)
    requires Valid(c, s, steps) && NoCrash(steps) && pool <= s.workers.Keys
    ensures var t := Final(c, s, steps);
            && Claims(c, s, steps, pool, true) + |Staying(t, pool)| == |Staying(s, pool)|
            && pool <= t.workers.Keys
            && Work(c, s, steps, pool) + RankSum(t, pool) ==
               5 * Claims(c, s, steps, pool, false) + Claims(c, s, steps, pool, true) + RankSum(s, pool)
    decreases |steps|
  {
    if steps != [] {
      StayingStep(c, s, steps[0], pool);
      RankStep(c, s, steps[0], pool);
      CountSteps(c, Next(c, s, steps[0]), steps[1..], pool);
    }
  }

  /** Exact book-keeping over any such run: claims, departures and worker steps. */
  lemma CountRun(c: Config, b: Bounds, s: State, steps: seq<Step>, pool: set<WorkerId>, job: JobId, dead: set<WorkerId>)
    requires c.size >= 1 && b.renew + b.commit <= c.ttl && Smooth(c, s, pool, job, dead)
    requires Valid(c, s, steps) && PunctualRun(c, b, s, steps) && Calm(steps, job)
    ensures var t := Final(c, s, steps);
            && Smooth(c, t, pool, job, dead)
            && Claims(c, s, steps, pool, false)
               + Chunks(|Available(t, job, dead)|, c.size) == Chunks(|Available(s, job, dead)|, c.size)
            && Claims(c, s, steps, pool, true) + |Staying(t, pool)| == |Staying(s, pool)|
            && pool <= s.workers.Keys && pool <= t.workers.Keys
            && Work(c, s, steps, pool) + RankSum(t, pool) ==
               5 * Claims(c, s, steps, pool, false) + Claims(c, s, steps, pool, true) + RankSum(s, pool)
  {
    CountClaims(c, b, s, steps, pool, job, dead);
    CountSteps(c, s, steps, pool);
  }

  /** A pool of n workers, fresh or resumed, over P rows that are pending or were left by dead workers: exactly
      ceil(P / size) claims take rows, n come back empty, and the workers take five steps for each of the former and one
      for each of the latter. */
  lemma ExactClaims(c: Config, b: Bounds, s: State, steps: seq<Step>, pool: set<WorkerId>, job: JobId,
                    dead: set<WorkerId>)
    requires c.size >= 1 && b.renew + b.commit <= c.ttl && pool != {} && Smooth(c, s, pool, job, dead)
             && AllIdle(s, pool)
    requires Valid(c, s, steps) && PunctualRun(c, b, s, steps) && Calm(steps, job)
    requires AllExited(Final(c, s, steps), pool)
    ensures Claims(c, s, steps, pool, false) == Chunks(|Available(s, job, dead)|, c.size)
    ensures Claims(c, s, steps, pool, true) == |pool|
    ensures Work(c, s, steps, pool) == 5 * Chunks(|Available(s, job, dead)|, c.size) + |pool|
  {
    var t := Final(c, s, steps);
    CountRun(c, b, s, steps, pool, job, dead);
    var w :| w in pool;
    assert t.workers[w].phase.Exited?;
    assert Staying(t, pool) == {};
    assert Staying(s, pool) == pool;
    NoRank(s, pool);
    NoRank(t, pool);
  }

  lemma {:induction false} NoRank(s: State, pool: set<WorkerId>)
    requires pool <= s.workers.Keys && forall w <- pool :: Rank(s.workers[w].phase) == 0
    ensures RankSum(s, pool) == 0
    decreases pool
  {
    if pool != {} {
      var w :| w in pool;
      RankSumTake(s, pool, w);
      NoRank(s, pool - {w});
    }
  }

  /** Termination: no such run, finished or not, has more worker steps than that. */
  lemma WorkBounded(c: Config, b: Bounds, s: State, steps: seq<Step>, pool: set<WorkerId>, job: JobId,
                    dead: set<WorkerId>)
    requires c.size >= 1 && b.renew + b.commit <= c.ttl && Smooth(c, s, pool, job, dead) && AllIdle(s, pool)
    requires Valid(c, s, steps) && PunctualRun(c, b, s, steps) && Calm(steps, job)
    ensures Work(c, s, steps, pool) <= 5 * Chunks(|Available(s, job, dead)|, c.size) + |pool|
  {
    CountRun(c, b, s, steps, pool, job, dead);
    NoRank(s, pool);
    SubsetSize(Staying(s, pool), pool);
  }

  // ---------------------------------------------------------------- no deadlock

  function FreshId(store: seq<StoredChunk>): nat {
    if store == [] then 0
    else
      var n := FreshId(store[1..]);
      if store[0].ref.chunk >= n then store[0].ref.chunk + 1 else n
  }

  lemma {:induction false} FreshIdFresh(store: seq<StoredChunk>, k: nat)
    requires k < |store|
    ensures store[k].ref.chunk < FreshId(store)
  {
    if k > 0 { FreshIdFresh(store[1..], k - 1); }
  }

  /** In every reachable state in which some worker is alive, some worker can take its next step. */
  lemma NoDeadlock(c: Config, s: State, w: WorkerId) returns (step: Step)
    requires Inv(c, s) && LiveWorker(s, w)
    ensures Enabled(c, s, step) && Advances(step, s.workers.Keys)
  {
    match s.workers[w].phase
    case Idle => step := Lock(w, {});
    case Locking(ids) => step := CommitEnabled(c, s, w);
    case Processing(chunk) =>
      step := Finish(w, seq(|chunk|, i => RowRun(seq(c.maxAttempts, k => Permanent("")), 0)));
    case Ready(_, _) =>
      step := Write(w, FreshId(s.store));
      forall k | 0 <= k < |s.store| ensures s.store[k].ref.chunk < FreshId(s.store) { FreshIdFresh(s.store, k); }
    case Written(_, _, _) =>
      if Unblocked(s, w) {
        step := Complete(w);
      } else {
        var i :| i in s.locks && i < |s.rows| && Owned(s.rows[i], w);
        step := CommitEnabled(c, s, s.locks[i]);
      }
  }

  lemma CommitEnabled(c: Config, s: State, v: WorkerId) returns (step: Step)
    requires Inv(c, s) && v in s.workers && s.workers[v].phase.Locking?
    ensures step == Commit(v, s.workers[v].phase.ids) && Enabled(c, s, step)
  {
    step := Commit(v, s.workers[v].phase.ids);
    assert WorkerOk(c, s, v);
  }
}
