/** When heartbeats keep a lease alive: no row is delivered twice under a bound on delays, and only then. */
module Timing {
  import opened Domain
  import opened QueueTable
  import opened Protocol
  import opened Invariant
  import Completion

  /** `renew`: the longest time from a claim or renewal to the next renewal, or to the end of processing.
      `commit`: the longest time from the end of processing to the completion, when no heartbeat runs. */
  datatype Bounds = Bounds(renew: nat, commit: nat)

  predicate InTime(b: Bounds, now: Time, wk: Worker) {
    && (wk.phase.Locking? || wk.phase.Processing? ==> now <= wk.last + b.renew)
    && (wk.phase.Ready? || wk.phase.Written? ==> now <= wk.done + b.commit && wk.done <= wk.last + b.renew)
  }

  ghost predicate Punctual(b: Bounds, s: State) {
    forall w <- s.workers :: InTime(b, s.now, s.workers[w])
  }

  /** Time never passes beyond what the bounds allow any worker. */
  ghost predicate PunctualRun(c: Config, b: Bounds, s: State, steps: seq<Step>)
    requires Valid(c, s, steps)
    decreases |steps|
  {
    Punctual(b, s) && (steps != [] ==> PunctualRun(c, b, Next(c, s, steps[0]), steps[1..]))
  }

  /** A live worker still owns every row it has in memory, under the lease it last took. */
  ghost predicate Held(c: Config, s: State, w: WorkerId)
    requires w in s.workers
  {
    var wk := s.workers[w];
    forall k :: 0 <= k < |ChunkOf(wk.phase)| ==>
      var i := ChunkOf(wk.phase)[k].id;
      i < |s.rows| && Owned(s.rows[i], w) && s.rows[i].leaseUntil == Some(wk.last + c.ttl)
  }

  ghost predicate AllHeld(c: Config, s: State) {
    forall w <- s.workers :: Held(c, s, w)
  }

  // ------------------------------------------------------------ sufficiency

  lemma NotClaimable(c: Config, b: Bounds, s: State, v: WorkerId, i: nat, at: Time)
    requires b.renew + b.commit <= c.ttl && Punctual(b, s) && AllHeld(c, s)
    requires v in s.workers && i < |s.rows| && HoldsRow(s.workers[v].phase, i) && at <= s.now
    ensures Owned(s.rows[i], v) && !Claimable(s.rows[i], at)
  {
    var k :| 0 <= k < |ChunkOf(s.workers[v].phase)| && ChunkOf(s.workers[v].phase)[k].id == i;
    assert Held(c, s, v) && InTime(b, s.now, s.workers[v]);
  }

  lemma HeldFrame(c: Config, s: State, t: State, v: WorkerId)
    requires v in s.workers && v in t.workers && Held(c, s, v) && |s.rows| <= |t.rows|
    requires ChunkOf(t.workers[v].phase) == ChunkOf(s.workers[v].phase) && t.workers[v].last == s.workers[v].last
    requires forall i: nat :: HoldsRow(s.workers[v].phase, i) && i < |s.rows| ==> t.rows[i] == s.rows[i]
    ensures Held(c, t, v)
  {
    var chunk := ChunkOf(s.workers[v].phase);
    forall k | 0 <= k < |chunk| ensures t.rows[chunk[k].id] == s.rows[chunk[k].id] {
      assert HoldsRow(s.workers[v].phase, chunk[k].id);
    }
  }

  lemma HeldPrefix(c: Config, s: State, t: State, v: WorkerId)
    requires v in s.workers && v in t.workers && Held(c, s, v) && s.rows <= t.rows
    requires ChunkOf(t.workers[v].phase) == ChunkOf(s.workers[v].phase) && t.workers[v].last == s.workers[v].last
    ensures Held(c, t, v)
  {
    HeldFrame(c, s, t, v);
  }

  lemma CommitHeldOwn(c: Config, s: State, w: WorkerId, order: seq<nat>)
    requires Enabled(c, s, Commit(w, order))
    ensures Held(c, AfterCommit(c, s, w, order), w)
  {
    forall k | 0 <= k < |order| ensures order[k] in IdSet(order) {}
  }

  /** A claim that was punctual takes no row from a live worker. */
  lemma CommitHeldOther(c: Config, b: Bounds, s: State, w: WorkerId, order: seq<nat>, v: WorkerId)
    requires b.renew + b.commit <= c.ttl && Inv(c, s) && Punctual(b, s) && AllHeld(c, s)
    requires Enabled(c, s, Commit(w, order)) && v in s.workers && v != w
    ensures Held(c, AfterCommit(c, s, w, order), v)
  {
    assert s.workers[w].last <= s.now by { assert WorkerOk(c, s, w); }
    forall i: nat | HoldsRow(s.workers[v].phase, i) ensures i !in order {
      NotClaimable(c, b, s, v, i, s.workers[w].last);
      CommitFacts(c, s, w, order, i);
    }
    HeldFrame(c, s, AfterCommit(c, s, w, order), v);
  }

  lemma RenewHeld(c: Config, s: State, w: WorkerId, v: WorkerId)
    requires AllHeld(c, s) && Enabled(c, s, Renew(w)) && v in s.workers
    ensures Held(c, AfterRenew(c, s, w), v)
  {
    assert Held(c, s, v);
  }

  lemma CompleteHeld(c: Config, s: State, w: WorkerId, v: WorkerId)
    requires Inv(c, s) && AllHeld(c, s) && Enabled(c, s, Complete(w)) && v in s.workers && v != w
    ensures Held(c, AfterComplete(s, w), v)
  {
    CompleteLength(s.rows, w, s.workers[w].phase.results, s.workers[w].phase.ref);
    forall i: nat | HoldsRow(s.workers[v].phase, i) ensures i < |s.rows| && AfterComplete(s, w).rows[i] == s.rows[i] {
      HolderOwns(c, s, v, i);
      CompleteEffect(c, s, w, i);
    }
    HeldFrame(c, s, AfterComplete(s, w), v);
  }

  lemma HeldQuiet(c: Config, s: State, step: Step, v: WorkerId)
    requires AllHeld(c, s) && Enabled(c, s, step) && v in Next(c, s, step).workers
    requires !step.Commit? && !step.Complete? && !step.Renew?
    ensures Held(c, Next(c, s, step), v)
  {
    var t := Next(c, s, step);
    match step
    case Spawn(pool, _) => if v in s.workers { HeldPrefix(c, s, t, v); }
    case Lock(w, busy) => if v != w { HeldPrefix(c, s, t, v); }
    case Crash(ws) => if v !in ws { HeldPrefix(c, s, t, v); }
    case _ => HeldPrefix(c, s, t, v);
  }

  lemma HeldStep(c: Config, b: Bounds, s: State, step: Step, v: WorkerId)
    requires b.renew + b.commit <= c.ttl && Inv(c, s) && Punctual(b, s) && AllHeld(c, s)
    requires Enabled(c, s, step) && v in Next(c, s, step).workers
    ensures Held(c, Next(c, s, step), v)
  {
    match step
    case Commit(w, order) =>
      if v == w { CommitHeldOwn(c, s, w, order); } else { CommitHeldOther(c, b, s, w, order, v); }
    case Complete(w) => if v != w { CompleteHeld(c, s, w, v); }
    case Renew(w) => RenewHeld(c, s, w, v);
    case _ => HeldQuiet(c, s, step, v);
  }

  lemma {:induction false} HeldRun(c: Config, b: Bounds, s: State, steps: seq<Step>)
    requires b.renew + b.commit <= c.ttl && Inv(c, s) && AllHeld(c, s)
    requires Valid(c, s, steps) && PunctualRun(c, b, s, steps)
    ensures var t := Final(c, s, steps); Inv(c, t) && AllHeld(c, t) && Punctual(b, t)
    decreases |steps|
  {
    if steps != [] {
      var t := Next(c, s, steps[0]);
      StepInv(c, s, steps[0]);
      forall v | v in t.workers ensures Held(c, t, v) { HeldStep(c, b, s, steps[0], v); }
      HeldRun(c, b, t, steps[1..]);
    }
  }

  /** Before any worker has claimed anything. */
  ghost predicate Start(c: Config, s: State) {
    Inv(c, s) && forall w <- s.workers :: s.workers[w].phase.Idle?
  }

  /** Two live workers with a row in common. */
  ghost predicate DoubleDelivery(s: State) {
    exists v, w, i :: v in s.workers && w in s.workers && v != w
                      && HoldsRow(s.workers[v].phase, i) && HoldsRow(s.workers[w].phase, i)
  }

  /** Within the bounds the in-memory chunks of live workers are pairwise disjoint at all times. */
  lemma ChunksDisjoint(c: Config, b: Bounds, s: State, steps: seq<Step>)
    requires b.renew + b.commit <= c.ttl && Start(c, s) && Valid(c, s, steps) && PunctualRun(c, b, s, steps)
    ensures !DoubleDelivery(Final(c, s, steps))
  {
    var t := Final(c, s, steps);
    HeldRun(c, b, s, steps);
    forall v, w, i | v in t.workers && w in t.workers && HoldsRow(t.workers[v].phase, i)
      && HoldsRow(t.workers[w].phase, i)
      ensures v == w
    {
      HolderOwns(c, t, v, i);
      HolderOwns(c, t, w, i);
    }
  }

  lemma HolderOwns(c: Config, s: State, w: WorkerId, i: nat)
    requires AllHeld(c, s) && w in s.workers && HoldsRow(s.workers[w].phase, i)
    ensures i < |s.rows| && Owned(s.rows[i], w)
  {
    assert Held(c, s, w);
    var k :| 0 <= k < |ChunkOf(s.workers[w].phase)| && ChunkOf(s.workers[w].phase)[k].id == i;
  }

  // ----------------------------------------------------- claimed at most once

  /** How many claims took row `i` during a run. */
  function Deliveries(c: Config, s: State, steps: seq<Step>, i: nat): nat
    requires Valid(c, s, steps)
    decreases |steps|
  {
    if steps == [] then 0
    else (if steps[0].Commit? && i in steps[0].order then 1 else 0) + Deliveries(c, Next(c, s, steps[0]), steps[1..], i)
  }

  ghost predicate NoneDead(s: State) {
    forall w <- s.workers :: !s.workers[w].phase.Dead?
  }

  ghost predicate NoCrash(steps: seq<Step>) {
    forall k :: 0 <= k < |steps| ==> !steps[k].Crash?
  }

  /** With nobody dead, a claim only ever takes pending rows. */
  lemma ClaimTakesPending(c: Config, b: Bounds, s: State, w: WorkerId, order: seq<nat>, i: nat)
    requires b.renew + b.commit <= c.ttl && Inv(c, s) && Punctual(b, s) && AllHeld(c, s) && NoneDead(s)
    requires Enabled(c, s, Commit(w, order)) && i in order
    ensures i < |s.rows| && s.rows[i].status.Pending?
  {
    CommitFacts(c, s, w, order, i);
    assert WorkerOk(c, s, w) && RowOk(s, i);
    if s.rows[i].status.Claimed? {
      NotClaimable(c, b, s, s.rows[i].workerId.value, i, s.workers[w].last);
    }
  }

  /** Within the bounds and without crashes every row is claimed at most once, and not again once it is claimed. */
  lemma {:induction false} ClaimedOnce(c: Config, b: Bounds, s: State, steps: seq<Step>, i: nat)
    requires b.renew + b.commit <= c.ttl && Inv(c, s) && AllHeld(c, s) && NoneDead(s)
    requires Valid(c, s, steps) && PunctualRun(c, b, s, steps) && NoCrash(steps)
    ensures Deliveries(c, s, steps, i) <= if i >= |s.rows| || s.rows[i].status.Pending? then 1 else 0
    decreases |steps|
  {
    if steps != [] {
      var t := Next(c, s, steps[0]);
      StepInv(c, s, steps[0]);
      StepEvolves(c, s, steps[0]);
      forall v | v in t.workers ensures Held(c, t, v) { HeldStep(c, b, s, steps[0], v); }
      assert !steps[0].Crash?;
      assert NoneDead(t);
      ClaimedOnce(c, b, t, steps[1..], i);
      if steps[0].Commit? && i in steps[0].order {
        ClaimTakesPending(c, b, s, steps[0].w, steps[0].order, i);
      }
    }
  }

  // -------------------------------------------------------------- necessity

  lemma PunctualCons(c: Config, b: Bounds, s: State, step: Step, rest: seq<Step>)
    requires Punctual(b, s) && Enabled(c, s, step)
    requires Valid(c, Next(c, s, step), rest) && PunctualRun(c, b, Next(c, s, step), rest)
    ensures Valid(c, s, [step] + rest) && PunctualRun(c, b, s, [step] + rest)
    ensures Final(c, s, [step] + rest) == Final(c, Next(c, s, step), rest)
  {
    RunCons(c, s, step, rest);
    assert ([step] + rest)[1..] == rest;
  }

  /** From `s` to `t` all that happened is that `w` claimed the only row of the table. */
  ghost predicate Took(c: Config, s: State, w: WorkerId, t: State) {
    && w in s.workers && t.workers.Keys == s.workers.Keys
    && t.now == s.now && t.locks == map[]
    && HoldsRow(t.workers[w].phase, 0) && t.workers[w].phase.Processing? && t.workers[w].last == s.now
    && (forall v <- s.workers :: v != w ==> t.workers[v] == s.workers[v])
    && |s.rows| == 1 && |t.rows| == 1
    && t.rows[0] == s.rows[0].(status := Claimed, workerId := Some(w), leaseUntil := Some(s.now + c.ttl),
                               attempts := s.rows[0].attempts + 1)
  }

  /** A worker claims the only row of the table. */
  lemma ClaimOne(c: Config, b: Bounds, s: State, w: WorkerId) returns (steps: seq<Step>)
    requires c.size >= 1 && w in s.workers && s.workers[w].phase.Idle? && s.locks == map[] && Punctual(b, s)
    requires |s.rows| == 1 && Eligible(s.rows[0], s.workers[w].job, s.now)
    ensures Valid(c, s, steps) && PunctualRun(c, b, s, steps) && Took(c, s, w, Final(c, s, steps))
  {
    LockZeroState(c, s, w);
    var m := AfterLock(c, s, w, {});
    var t := CommitZero(c, b, m, w);
    TookLocked(c, s, w, m, t);
    PunctualCons(c, b, s, Lock(w, {}), [Commit(w, [0])]);
    steps := [Lock(w, {})] + [Commit(w, [0])];
  }

  function Locked0(s: State, w: WorkerId): State
    requires w in s.workers
  {
    s.(workers := s.workers[w := s.workers[w].(phase := Locking([0]), last := s.now)], locks := map[0 := w])
  }

  lemma TookLocked(c: Config, s: State, w: WorkerId, m: State, t: State)
    requires w in s.workers && m == Locked0(s, w) && Took(c, m, w, t)
    ensures Took(c, s, w, t)
  {}

  lemma LockZeroState(c: Config, s: State, w: WorkerId)
    requires c.size >= 1 && w in s.workers && s.workers[w].phase.Idle? && s.locks == map[]
    requires |s.rows| == 1 && Eligible(s.rows[0], s.workers[w].job, s.now)
    ensures Enabled(c, s, Lock(w, {}))
    ensures AfterLock(c, s, w, {}) == Locked0(s, w)
    ensures forall b :: Punctual(b, s) ==> Punctual(b, AfterLock(c, s, w, {}))
  {
    Completion.SelectOne(s.rows[0], s.workers[w].job, s.now, c.size, s.locks.Keys + {});
    assert s.rows == [s.rows[0]];
    assert (map i | i in [0] :: w) == map[0 := w];
  }

  lemma CommitZeroEnabled(c: Config, m: State, w: WorkerId)
    requires w in m.workers && m.workers[w].phase == Locking([0]) && |m.rows| == 1
    ensures Enabled(c, m, Commit(w, [0])) && IdSet([0]) == {0}
  {
    assert Permutes([0], [0]);
  }

  lemma CommitZeroState(c: Config, m: State, w: WorkerId)
    requires w in m.workers && m.workers[w].phase == Locking([0]) && m.workers[w].last == m.now
    requires |m.rows| == 1 && m.locks.Keys == {0}
    ensures Enabled(c, m, Commit(w, [0])) && Took(c, m, w, AfterCommit(c, m, w, [0]))
  {
    CommitZeroEnabled(c, m, w);
    var t := AfterCommit(c, m, w, [0]);
    assert ChunkOf(t.workers[w].phase)[0].id == 0;
    assert t.locks == map[];
  }

  lemma CommitZero(c: Config, b: Bounds, m: State, w: WorkerId) returns (t: State)
    requires w in m.workers && m.workers[w].phase == Locking([0]) && m.workers[w].last == m.now && Punctual(b, m)
    requires |m.rows| == 1 && m.locks.Keys == {0}
    ensures Valid(c, m, [Commit(w, [0])]) && PunctualRun(c, b, m, [Commit(w, [0])])
    ensures Final(c, m, [Commit(w, [0])]) == t && Took(c, m, w, t)
  {
    CommitZeroState(c, m, w);
    t := AfterCommit(c, m, w, [0]);
    PunctualOthers(b, m, t, w);
    assert Final(c, t, []) == t && PunctualRun(c, b, t, []);
    PunctualCons(c, b, m, Commit(w, [0]), []);
    assert [Commit(w, [0])] + [] == [Commit(w, [0])];
  }

  /** A processing worker dawdles, within its bounds, past the end of its lease. */
  lemma Dawdle(c: Config, b: Bounds, s: State, w: WorkerId) returns (steps: seq<Step>)
    requires b.renew + b.commit > c.ttl
    requires w in s.workers && s.workers[w].phase.Processing? && s.workers[w].last == s.now && Punctual(b, s)
    requires forall v <- s.workers :: v != w ==> s.workers[v].phase.Idle?
    ensures Valid(c, s, steps) && PunctualRun(c, b, s, steps)
    ensures var t := Final(c, s, steps);
            && t.now == s.now + c.ttl + 1 && t.rows == s.rows && t.locks == s.locks && Punctual(b, t)
            && t.workers.Keys == s.workers.Keys && ChunkOf(t.workers[w].phase) == ChunkOf(s.workers[w].phase)
            && (forall v <- s.workers :: v != w ==> t.workers[v] == s.workers[v])
  {
    var x := if b.renew <= c.ttl then b.renew else c.ttl + 1;
    var y := c.ttl + 1 - x;
    var runs := seq(|s.workers[w].phase.chunk|, i => RowRun(seq(c.maxAttempts, k => Permanent("no")), 0));
    var s1 := Next(c, s, Tick(x));
    var s2 := Next(c, s1, Finish(w, runs));
    var s3 := Next(c, s2, Tick(y));
    assert Punctual(b, s1) && Punctual(b, s2) && Punctual(b, s3);
    assert Final(c, s3, []) == s3 && PunctualRun(c, b, s3, []);
    PunctualCons(c, b, s2, Tick(y), []);
    PunctualCons(c, b, s1, Finish(w, runs), [Tick(y)] + []);
    PunctualCons(c, b, s, Tick(x), [Finish(w, runs)] + ([Tick(y)] + []));
    steps := [Tick(x)] + ([Finish(w, runs)] + ([Tick(y)] + []));
  }

  lemma {:induction false} PunctualConcat(c: Config, b: Bounds, s: State, a: seq<Step>, d: seq<Step>)
    requires Valid(c, s, a) && PunctualRun(c, b, s, a)
    requires Valid(c, Final(c, s, a), d) && PunctualRun(c, b, Final(c, s, a), d)
    ensures Valid(c, s, a + d) && PunctualRun(c, b, s, a + d) && Final(c, s, a + d) == Final(c, Final(c, s, a), d)
    decreases |a|
  {
    if a == [] {
      assert a + d == d;
    } else {
      assert (a + d)[1..] == a[1..] + d;
      PunctualConcat(c, b, Next(c, s, a[0]), a[1..], d);
    }
  }

  function TwoWorkers(job: JobId): State {
    Completion.OutsiderStart(job)
  }

  /** Past the bound a row is delivered to two live workers although everybody is punctual. */
  lemma LateDoubleDelivery(c: Config, b: Bounds, job: JobId) returns (s: State, steps: seq<Step>)
    requires c.size >= 1 && b.renew + b.commit > c.ttl
    ensures Start(c, s) && Valid(c, s, steps) && PunctualRun(c, b, s, steps) && DoubleDelivery(Final(c, s, steps))
  {
    s := TwoWorkers(job);
    Completion.OutsiderStartInv(c, job);
    var a := ClaimOne(c, b, s, 0);
    var s1 := Final(c, s, a);
    assert s1.workers[1] == s.workers[1];
    PunctualOthers(b, s, s1, 0);
    var d := Dawdle(c, b, s1, 0);
    var s2 := Final(c, s1, d);
    assert HoldsRow(s2.workers[0].phase, 0) by { HoldsSame(s1.workers[0].phase, s2.workers[0].phase, 0); }
    var e := ClaimOne(c, b, s2, 1);
    PunctualConcat(c, b, s1, d, e);
    PunctualConcat(c, b, s, a, d + e);
    steps := a + (d + e);
    var t := Final(c, s, steps);
    assert t.workers[0] == s2.workers[0];
  }

  lemma PunctualOthers(b: Bounds, s: State, t: State, w: WorkerId)
    requires Punctual(b, s) && t.now == s.now && t.workers.Keys == s.workers.Keys && w in s.workers
    requires t.workers[w].phase.Processing? && t.workers[w].last == t.now
    requires forall v <- s.workers :: v != w ==> t.workers[v] == s.workers[v]
    ensures Punctual(b, t)
  {}

  lemma HoldsSame(p: Phase, q: Phase, i: nat)
    requires ChunkOf(p) == ChunkOf(q) && HoldsRow(p, i)
    ensures HoldsRow(q, i)
  {
    var k :| 0 <= k < |ChunkOf(p)| && ChunkOf(p)[k].id == i;
    assert ChunkOf(q)[k].id == i;
  }

  ghost predicate NeverTwice(c: Config, b: Bounds) {
    forall s, steps :: Start(c, s) && Valid(c, s, steps) && PunctualRun(c, b, s, steps) ==>
      !DoubleDelivery(Final(c, s, steps))
  }

  /** The bound is exact: punctual runs never deliver a row twice if and only if renew + commit <= ttl. */
  lemma TimingBoundExact(c: Config, b: Bounds)
    requires c.size >= 1
    ensures NeverTwice(c, b) <==> b.renew + b.commit <= c.ttl
  {
    if b.renew + b.commit <= c.ttl {
      forall s, steps | Start(c, s) && Valid(c, s, steps) && PunctualRun(c, b, s, steps)
        ensures !DoubleDelivery(Final(c, s, steps))
      {
        ChunksDisjoint(c, b, s, steps);
      }
    } else {
      var s, steps := LateDoubleDelivery(c, b, 0);
      var twice := DoubleDelivery(Final(c, s, steps));
      assert twice;
    }
  }
}
