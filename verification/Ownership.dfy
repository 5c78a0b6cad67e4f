/** Ownership and fencing: who may still change a row, and how often it is completed. */
module Ownership {
  import opened Domain
  import opened QueueTable
  import opened Protocol
  import opened Invariant
  import opened Completion

  /** The rows CLAIMED under a worker's id, in any job. */
  function OwnedIds(rows: seq<Row>, w: WorkerId): set<nat> {
    set i: nat | i < |rows| && Owned(rows[i], w)
  }

  /** Rows CLAIMED under a live worker's id are in its current chunk and in its one job; between chunks it owns none. */
  lemma OwnedInChunk(c: Config, s: State, steps: seq<Step>, w: WorkerId)
    requires Inv(c, s) && Valid(c, s, steps)
    requires LiveWorker(Final(c, s, steps), w)
             || (w in Final(c, s, steps).workers && Final(c, s, steps).workers[w].phase.Exited?)
    ensures var t := Final(c, s, steps);
            OwnedIds(t.rows, w) <= ChunkIds(ChunkOf(t.workers[w].phase)) * OfJob(t.rows, t.workers[w].job)
  {
    var t := Final(c, s, steps);
    RunInv(c, s, steps);
    forall i | i in OwnedIds(t.rows, w)
      ensures i in ChunkIds(ChunkOf(t.workers[w].phase)) && t.rows[i].job == t.workers[w].job
    {
      assert RowOk(t, i);
      var chunk := ChunkOf(t.workers[w].phase);
      var k :| 0 <= k < |chunk| && chunk[k].id == i;
    }
  }

  /** Although the statement names no job, each result of a completing worker matches at most one row. */
  lemma OneRowPerResult(c: Config, s: State, w: WorkerId, k: nat)
    requires Inv(c, s) && Enabled(c, s, Complete(w)) && k < |s.workers[w].phase.results|
    ensures var id := s.workers[w].phase.chunk[k].id;
            Touched(s.rows, w, s.workers[w].phase.results[k].externalId)
            == if Owned(s.rows[id], w) then {id} else {}
  {
    var p, job := s.workers[w].phase, s.workers[w].job;
    assert WorkerOk(c, s, w);
    assert ItemOk(s.rows, job, p.chunk[k]);
    var id := p.chunk[k].id;
    forall i | i in Touched(s.rows, w, p.results[k].externalId) ensures i == id {
      assert RowOk(s, i);
      assert SameKey(s.rows[i], s.rows[id]) && SameKey(s.rows[id], s.rows[i]);
    }
  }

  /** A completion makes exactly the rows still owned terminal and leaves every other row, reassigned ones included,
      alone. */
  lemma Fencing(c: Config, s: State, w: WorkerId)
    requires Inv(c, s) && Enabled(c, s, Complete(w))
    ensures var t := Next(c, s, Complete(w));
            && |t.rows| == |s.rows|
            && OwnedIds(t.rows, w) == {}
            && OwnedIds(s.rows, w) <= ChunkIds(s.workers[w].phase.chunk)
            && (forall i :: 0 <= i < |s.rows| ==>
                  if i in OwnedIds(s.rows, w) then Terminal(t.rows[i].status)
                    && t.rows[i].resultRef == Some(s.workers[w].phase.ref)
                  else t.rows[i] == s.rows[i])
  {
    var t := Next(c, s, Complete(w));
    CompleteEvolves(c, s, w);
    forall i | 0 <= i < |s.rows|
      ensures if i in OwnedIds(s.rows, w)
              then Terminal(t.rows[i].status) && t.rows[i].resultRef == Some(s.workers[w].phase.ref)
                && i in ChunkIds(s.workers[w].phase.chunk)
              else t.rows[i] == s.rows[i]
    {
      CompleteEffect(c, s, w, i);
    }
  }

  // ------------------------------------------------------- over a whole run

  /** Whether a step is a completion that changes row `i`. */
  predicate Completes(c: Config, s: State, step: Step, i: nat)
    requires Enabled(c, s, step)
  {
    step.Complete? && i < |s.rows| && i < |Next(c, s, step).rows| && Next(c, s, step).rows[i] != s.rows[i]
  }

  function EffectiveCompletions(c: Config, s: State, steps: seq<Step>, i: nat): nat
    requires Valid(c, s, steps)
    decreases |steps|
  {
    if steps == [] then 0
    else (if Completes(c, s, steps[0], i) then 1 else 0) + EffectiveCompletions(c, Next(c, s, steps[0]), steps[1..], i)
  }

  ghost predicate IsTerminal(rows: seq<Row>, i: nat) {
    i < |rows| && Terminal(rows[i].status)
  }

  /** Made terminal by a worker; a row rejected at ingest never had a prompt. */
  ghost predicate Processed(rows: seq<Row>, i: nat) {
    IsTerminal(rows, i) && rows[i].prompt.Some?
  }

  /** Each row of the final table, there from the start or inserted during the run, gets at most one effective
      completion, and it gets one exactly when a worker made it terminal during the run. */
  lemma {:induction false} OneCompletion(c: Config, s: State, steps: seq<Step>, i: nat)
    requires Inv(c, s) && Valid(c, s, steps)
    ensures EffectiveCompletions(c, s, steps, i) ==
            if !Processed(s.rows, i) && Processed(Final(c, s, steps).rows, i) then 1 else 0
    decreases |steps|
  {
    if steps != [] {
      var t := Next(c, s, steps[0]);
      StepInv(c, s, steps[0]);
      StepEvolves(c, s, steps[0]);
      CompletesProcessed(c, s, steps[0], i);
      OneCompletion(c, t, steps[1..], i);
      RunEvolves(c, t, steps[1..]);
    }
  }

  lemma CompletesProcessed(c: Config, s: State, step: Step, i: nat)
    requires Inv(c, s) && Enabled(c, s, step)
    ensures Completes(c, s, step, i) <==> !Processed(s.rows, i) && Processed(Next(c, s, step).rows, i)
  {
    if i < |s.rows| {
      CompletesExactly(c, s, step, i);
      StepEvolves(c, s, step);
      assert RowOk(s, i);
    } else if i < |Next(c, s, step).rows| {
      AddedRows(c, s, step, i);
      InsertRowsFacts(s.rows, NewRows(step.job, step.items, step.failed));
      assert Next(c, s, step).rows[i] in NewRows(step.job, step.items, step.failed);
    }
  }

  /** Completion is the only way an existing row becomes terminal. */
  lemma CompletesExactly(c: Config, s: State, step: Step, i: nat)
    requires Inv(c, s) && Enabled(c, s, step) && i < |s.rows|
    ensures Completes(c, s, step, i) <==> !IsTerminal(s.rows, i) && IsTerminal(Next(c, s, step).rows, i)
  {
    StepEvolves(c, s, step);
    match step
    case Complete(w) => Fencing(c, s, w);
    case Commit(w, order) =>
      if i in order { CommitFacts(c, s, w, order, i); }
    case _ =>
  }

  // ----------------------------------------------------- a renewal, late or not

  /** Completed, or still owned by `w` under a lease that lasts until `until`, and not being claimed. */
  ghost predicate SafeUntil(s: State, w: WorkerId, i: nat, until: Time) {
    && i < |s.rows|
    && (|| Terminal(s.rows[i].status)
        || (i !in s.locks && Owned(s.rows[i], w) && s.rows[i].leaseUntil.Some? && s.rows[i].leaseUntil.value >= until))
  }

  lemma SafeStep(c: Config, s: State, step: Step, w: WorkerId, i: nat, until: Time)
    requires Inv(c, s) && Enabled(c, s, step) && SafeUntil(s, w, i, until) && s.now <= until <= s.now + c.ttl
    ensures SafeUntil(Next(c, s, step), w, i, until)
  {
    StepEvolves(c, s, step);
    if !Terminal(s.rows[i].status) {
      match step
      case Lock(v, busy) => SelectIsSelection(s.rows, s.workers[v].job, s.now, c.size, s.locks.Keys + busy);
      case Commit(v, order) => CommitFacts(c, s, v, order, i);
      case Complete(v) => Fencing(c, s, v);
      case _ =>
    }
  }

  lemma {:induction false} SafeRun(c: Config, s: State, steps: seq<Step>, w: WorkerId, i: nat, until: Time)
    requires Inv(c, s) && Valid(c, s, steps) && SafeUntil(s, w, i, until)
    requires until <= s.now + c.ttl && Final(c, s, steps).now <= until
    ensures SafeUntil(Final(c, s, steps), w, i, until) && s.now <= Final(c, s, steps).now
    decreases |steps|
  {
    if steps != [] {
      var t := Next(c, s, steps[0]);
      ClockRuns(c, t, steps[1..]);
      StepInv(c, s, steps[0]);
      SafeStep(c, s, steps[0], w, i, until);
      SafeRun(c, t, steps[1..], w, i, until);
    }
  }

  lemma {:induction false} ClockRuns(c: Config, s: State, steps: seq<Step>)
    requires Valid(c, s, steps)
    ensures s.now <= Final(c, s, steps).now
    decreases |steps|
  {
    if steps != [] { ClockRuns(c, Next(c, s, steps[0]), steps[1..]); }
  }

  /** A renewal revives even a lapsed lease, of a worker that had been paused, say: a row its worker still owns is
      claimable again exactly after `ttl`, and until then no run takes it away or leaves it to anybody else. */
  lemma RenewalRevives(c: Config, s: State, w: WorkerId, steps: seq<Step>, i: nat)
    requires Inv(c, s) && Enabled(c, s, Renew(w)) && i < |s.rows| && Owned(s.rows[i], w)
    requires Valid(c, Next(c, s, Renew(w)), steps)
    ensures forall at :: Claimable(Next(c, s, Renew(w)).rows[i], at) <==> at > s.now + c.ttl
    ensures var t := Final(c, Next(c, s, Renew(w)), steps);
            t.now <= s.now + c.ttl ==> i < |t.rows| && (Owned(t.rows[i], w) || Terminal(t.rows[i].status))
  {
    var m := Next(c, s, Renew(w));
    StepInv(c, s, Renew(w));
    if Final(c, m, steps).now <= s.now + c.ttl {
      SafeRun(c, m, steps, w, i, s.now + c.ttl);
    }
  }

  // -------------------------------------------------------------- a new lease

  /** While a claim is open its worker remembers when it was started. */
  lemma {:induction false} ClaimStarted(c: Config, s: State, steps: seq<Step>, w: WorkerId, start: Time)
    requires Valid(c, s, steps) && w in s.workers && (s.workers[w].phase.Locking? ==> s.workers[w].last == start)
    requires forall k :: 0 <= k < |steps| && steps[k].Lock? ==> steps[k].w != w
    ensures var t := Final(c, s, steps);
            w in t.workers && (t.workers[w].phase.Locking? ==> t.workers[w].last == start)
    decreases |steps|
  {
    if steps != [] {
      assert steps[0].Lock? ==> steps[0].w != w;
      ClaimStarted(c, Next(c, s, steps[0]), steps[1..], w, start);
    }
  }

  lemma CommitExpires(c: Config, s: State, w: WorkerId, order: seq<nat>, i: nat)
    requires Enabled(c, s, Commit(w, order)) && i in order
    ensures var rows := AfterCommit(c, s, w, order).rows;
            && i < |rows| && Owned(rows[i], w)
            && forall now :: Claimable(rows[i], now) <==> now > s.workers[w].last + c.ttl
  {
    var k :| 0 <= k < |order| && order[k] == i;
  }

  lemma LockStarts(c: Config, s: State, w: WorkerId, busy: set<nat>)
    requires Enabled(c, s, Lock(w, busy))
    ensures var m := Next(c, s, Lock(w, busy));
            w in m.workers && (m.workers[w].phase.Locking? ==> m.workers[w].last == s.now)
  {}

  /** However long a claim waits for its locks, the lease of the rows it takes runs from its start, and they are
      claimable again exactly after it. */
  lemma ClaimExpires(c: Config, s: State, w: WorkerId, busy: set<nat>, steps: seq<Step>, order: seq<nat>, i: nat)
    requires Enabled(c, s, Lock(w, busy)) && Valid(c, Next(c, s, Lock(w, busy)), steps)
    requires forall k :: 0 <= k < |steps| && steps[k].Lock? ==> steps[k].w != w
    requires Enabled(c, Final(c, Next(c, s, Lock(w, busy)), steps), Commit(w, order)) && i in order
    ensures var rows := AfterCommit(c, Final(c, Next(c, s, Lock(w, busy)), steps), w, order).rows;
            i < |rows| && Owned(rows[i], w) && forall now :: Claimable(rows[i], now) <==> now > s.now + c.ttl
  {
    LockStarts(c, s, w, busy);
    ClaimStarted(c, Next(c, s, Lock(w, busy)), steps, w, s.now);
    CommitExpires(c, Final(c, Next(c, s, Lock(w, busy)), steps), w, order, i);
  }
}
