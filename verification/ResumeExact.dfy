/** When resuming is lossless, in a job's history: if and only if nothing is left to do, or no lease on the job is live
    and no worker of it alive when the engine starts. */
module ResumeExact {
  import opened Domain
  import opened QueueTable
  import opened Protocol
  import opened Invariant
  import opened Completion
  import opened Lossless
  import opened Lifecycle
  import opened Recovery

  ghost predicate WorkOnly(events: seq<Event>) {
    forall k :: 0 <= k < |events| ==> events[k].Work?
  }

  function WorkEvents(steps: seq<Step>): (r: seq<Event>)
    ensures |r| == |steps| && forall k :: 0 <= k < |r| ==> r[k] == Work(steps[k])
  {
    seq(|steps|, k requires 0 <= k < |steps| => Work(steps[k]))
  }

  /** Worker steps can happen in every history, and change nothing outside the protocol. */
  lemma {:induction false} RunIsHistory(u: Setup, l: System, steps: seq<Step>)
    requires Valid(u.config, l.state, steps) && WorkerSteps(steps)
    ensures History(u, l, WorkEvents(steps))
    ensures Reached(u, l, WorkEvents(steps)) == l.(state := Final(u.config, l.state, steps))
    decreases |steps|
  {
    if steps != [] {
      assert WorkerStep(steps[0]);
      assert WorkEvents(steps)[1..] == WorkEvents(steps[1..]);
      RunIsHistory(u, After(u, l, Work(steps[0])), steps[1..]);
    }
  }

  lemma {:induction false} WorkIsNoNewWork(u: Setup, l: System, events: seq<Event>)
    requires History(u, l, events) && WorkOnly(events)
    ensures NoNewWork(StepsOf(u, l, events)) && Reached(u, l, events).execs == l.execs
    decreases |events|
  {
    if events != [] {
      assert events[0].Work?;
      WorkIsNoNewWork(u, After(u, l, events[0]), events[1..]);
    }
  }

  /** The event starts an engine with a pool. */
  ghost predicate Starts(u: Setup, l: System, e: Event) {
    && SystemInv(u, l) && Possible(u, l, e) && (e.Start? || e.Attach?)
    && u.config.size >= 1 && e.pool != {}
  }

  function TaskOf(e: Event): Task
    requires e.Start? || e.Attach?
  {
    Task(e.process, e.job)
  }

  /** Just after an engine has started: what it finds. */
  lemma JustStarted(u: Setup, l: System, e: Event) returns (l': System)
    requires Starts(u, l, e)
    ensures l' == After(u, l, e) && TaskOf(e) in l'.execs && l'.jobs.Keys == l.jobs.Keys
    ensures l'.execs[TaskOf(e)] == Draws(u, l, e.job, e.pool, e.Attach?)
    ensures FreshPool(u.config, l'.state, e.pool, e.job)
    ensures l'.state.rows == l.state.rows && l'.state.now == l.state.now && l'.state.locks == l.state.locks
    ensures forall w <- l.state.workers :: w !in e.pool && w in l'.state.workers
                                           && l'.state.workers[w] == l.state.workers[w]
    ensures NoOther(l'.state, e.pool, e.job) <==> Quiet(l.state, e.job)
  {
    l' := After(u, l, e);
    StepInv(u.config, l.state, Spawn(e.pool, e.job));
    Spawned(u.config, l.state, e.pool, e.job);
  }

  lemma Spawned(c: Config, s: State, pool: set<WorkerId>, job: JobId)
    requires Enabled(c, s, Spawn(pool, job))
    ensures var t := AfterSpawn(s, pool, job);
            && PoolOn(t, pool, job) && AllIdle(t, pool)
            && (forall w <- s.workers :: w !in pool && w in t.workers && t.workers[w] == s.workers[w])
            && (NoOther(t, pool, job) <==> Quiet(s, job))
  {
    var t := AfterSpawn(s, pool, job);
    assert forall w <- s.workers :: w !in pool && w in t.workers && t.workers[w] == s.workers[w];
    forall w | w in t.workers && w !in pool ensures w in s.workers {}
  }

  /** Every way for the pool to return, worker steps only, leaves the job with terminal rows only. */
  ghost predicate AlwaysLossless(u: Setup, l: System, t: Task) {
    forall events :: History(u, l, events) && WorkOnly(events) && Possible(u, Reached(u, l, events), CloseOf(t)) ==>
      AllTerminal(Reached(u, l, events).state.rows, t.job)
  }

  /** Nothing is left to do, or no lease is live and no worker alive. */
  ghost predicate Safe(s: State, job: JobId) {
    AllTerminal(s.rows, job) || (LeasesExpired(s.rows, job, s.now) && Quiet(s, job))
  }

  lemma LosslessIfSafe(u: Setup, l: System, t: Task, events: seq<Event>)
    requires t in l.execs && l.execs[t].Draining? && AlwaysDrains(u.config, l.state, l.execs[t].pool, t.job)
    requires History(u, l, events) && WorkOnly(events) && Possible(u, Reached(u, l, events), CloseOf(t))
    ensures AllTerminal(Reached(u, l, events).state.rows, t.job)
  {
    HistoryIsRun(u, l, events);
    WorkIsNoNewWork(u, l, events);
  }

  /** Otherwise the workers can all return, nobody dying and no time passing, with a row unfinished. */
  lemma CanLose(u: Setup, l: System, t: Task) returns (events: seq<Event>)
    requires t in l.execs && l.execs[t].Draining? && FreshPool(u.config, l.state, l.execs[t].pool, t.job)
    requires !AllTerminal(l.state.rows, t.job)
    requires !(LeasesExpired(l.state.rows, t.job, l.state.now) && NoOther(l.state, l.execs[t].pool, t.job))
    ensures History(u, l, events) && WorkOnly(events) && Possible(u, Reached(u, l, events), CloseOf(t))
    ensures !AllTerminal(Reached(u, l, events).state.rows, t.job) && Reached(u, l, events).jobs == l.jobs
  {
    var steps := CanMiss(u.config, l.state, l.execs[t].pool, t.job);
    RunIsHistory(u, l, steps);
    events := WorkEvents(steps);
  }

  /** Exactly when starting an engine is safe: whatever the workers then do, the job ends with terminal rows only, if
      and only if it had no other rows at the start, or no lease on it was live and no worker of it alive. */
  lemma LosslessExactly(u: Setup, l: System, e: Event)
    requires Starts(u, l, e)
    ensures AlwaysLossless(u, After(u, l, e), TaskOf(e)) <==> Safe(l.state, e.job)
  {
    var l' := JustStarted(u, l, e);
    if Safe(l.state, e.job) {
      DrainsExactly(u.config, l'.state, e.pool, e.job);
      forall events | History(u, l', events) && WorkOnly(events)
                      && Possible(u, Reached(u, l', events), CloseOf(TaskOf(e)))
        ensures AllTerminal(Reached(u, l', events).state.rows, e.job)
      {
        LosslessIfSafe(u, l', TaskOf(e), events);
      }
    } else {
      var events := CanLose(u, l', TaskOf(e));
    }
  }

  lemma StartWorkClose(u: Setup, l: System, e: Event, work: seq<Event>) returns (events: seq<Event>)
    requires Possible(u, l, e) && (e.Start? || e.Attach?)
    requires History(u, After(u, l, e), work) && Possible(u, Reached(u, After(u, l, e), work), CloseOf(TaskOf(e)))
    ensures History(u, l, events)
    ensures var m := Reached(u, After(u, l, e), work);
            && Reached(u, l, events).state == m.state
            && Reached(u, l, events).jobs == SetState(m, e.job, JobState.Completed)
  {
    var l1, close := After(u, l, e), CloseOf(TaskOf(e));
    HistoryCons(u, Reached(u, l1, work), close, []);
    HistoryConcat(u, l1, work, [close] + []);
    HistoryCons(u, l, e, work + ([close] + []));
    events := [e] + (work + ([close] + []));
  }

  /** From every state in which an engine can start but not safely, the job can become COMPLETED with a row
      unfinished. */
  lemma CompletesUnfinished(u: Setup, l: System, e: Event) returns (events: seq<Event>)
    requires Starts(u, l, e) && !Safe(l.state, e.job)
    ensures History(u, l, events)
    ensures var l' := Reached(u, l, events);
            (e.job in l.jobs ==> e.job in l'.jobs && l'.jobs[e.job] == JobState.Completed)
            && !AllTerminal(l'.state.rows, e.job)
  {
    var l1 := JustStarted(u, l, e);
    var work := CanLose(u, l1, TaskOf(e));
    events := StartWorkClose(u, l, e, work);
  }

  /** The job is COMPLETED though row `r` is still CLAIMED under a live lease, and no row is left that a claim could
      take; the other workers are as they were. */
  ghost predicate CompletedWithout(l: System, l': System, job: JobId, r: nat) {
    && (job in l.jobs ==> job in l'.jobs && l'.jobs[job] == JobState.Completed)
    && l'.state.now == l.state.now && l'.state.locks == l.state.locks && Takeable(l'.state, job, {}) == {}
    && |l'.state.rows| == |l.state.rows| && r < |l.state.rows| && l'.state.rows[r] == l.state.rows[r]
    && l.state.rows[r].job == job && l.state.rows[r].status.Claimed? && !Claimable(l.state.rows[r], l.state.now)
    && forall w <- l.state.workers :: w in l'.state.workers && l'.state.workers[w] == l.state.workers[w]
  }

  /** From every state in which an engine can start while a lease on its job is live, the job can become COMPLETED with
      the leased row unfinished and no open work left to be reported. */
  lemma LeaseOutlives(u: Setup, l: System, e: Event) returns (events: seq<Event>, r: nat)
    requires Starts(u, l, e) && !LeasesExpired(l.state.rows, e.job, l.state.now)
    ensures History(u, l, events) && CompletedWithout(l, Reached(u, l, events), e.job, r)
  {
    var l1 := JustStarted(u, l, e);
    var work: seq<Event>;
    work, r := LeaseRun(u, l1, TaskOf(e));
    events := StartWorkClose(u, l, e, work);
    LeavesWithout(l, l1.state, Reached(u, l, events), e.job, e.pool, r);
  }

  lemma LeaseRun(u: Setup, l: System, t: Task) returns (events: seq<Event>, r: nat)
    requires t in l.execs && l.execs[t].Draining? && FreshPool(u.config, l.state, l.execs[t].pool, t.job)
    requires !LeasesExpired(l.state.rows, t.job, l.state.now)
    ensures History(u, l, events) && Possible(u, Reached(u, l, events), CloseOf(t))
            && Reached(u, l, events).jobs == l.jobs
    ensures Leaves(l.state, Reached(u, l, events).state, l.execs[t].pool, t.job, r, {})
    ensures l.state.rows[r].job == t.job && l.state.rows[r].status.Claimed? && !Claimable(l.state.rows[r], l.state.now)
  {
    var steps: seq<Step>;
    steps, r := LeaseLost(u.config, l.state, l.execs[t].pool, t.job);
    RunIsHistory(u, l, steps);
    events := WorkEvents(steps);
  }

  lemma LeavesWithout(l: System, s: State, l': System, job: JobId, pool: set<WorkerId>, r: nat)
    requires s.rows == l.state.rows && s.now == l.state.now && s.locks == l.state.locks
    requires forall w <- l.state.workers :: w !in pool && w in s.workers && s.workers[w] == l.state.workers[w]
    requires Leaves(s, l'.state, pool, job, r, {})
    requires job in l.jobs ==> job in l'.jobs && l'.jobs[job] == JobState.Completed
    requires l.state.rows[r].job == job && l.state.rows[r].status.Claimed? && !Claimable(l.state.rows[r], l.state.now)
    ensures CompletedWithout(l, l', job, r)
  {}
}
