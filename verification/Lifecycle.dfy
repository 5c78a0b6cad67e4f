/** The life of jobs above the lease protocol. Any number of processes share one database: replicas of the service,
    which accept jobs, ingest flush by flush, run the pool, and take up interrupted jobs when they start, and
    stand-alone worker processes that only run a pool. Each of them may die at any moment.

    Every event is one step of the lease protocol plus a change of the bookkeeping of one process. */
module Lifecycle {
  import opened Domain
  import opened QueueTable
  import opened Protocol
  import opened Invariant
  import opened Completion
  import opened Lossless
  import opened Ingest
  import opened Flushing
  import Repositories

  type ProcId = nat

  /** Settings, the number of rows per insert, and the (unchanging, validated) input of each job. */
  datatype Setup = Setup(config: Config, batch: Positive, inputs: JobId -> seq<Entry>)

  /** A process takes up a job at most once between its start and its end. */
  datatype Task = Task(process: ProcId, job: JobId)

  /** Where a task is. A worker process starts with Draining (`attached`). The rest of Draining is history, of the
      moment when the engine started: the workers of the job that were dead, whether their leases had expired, and
      whether the whole input had been ingested. Workers may outlive a task that has ended with an error. */
  datatype Exec =
    | Started
    | Loading(flushes: nat)
    | Draining(pool: set<WorkerId>, dead: set<WorkerId>, clean: bool, whole: bool, attached: bool)
    | Ended

  /** `execs` and `owner` live in the processes, `state` and `jobs` in the database. The rest is history: how many
      different flushes of a job's input have been committed, which tasks there have ever been, and the jobs that were
      set COMPLETED while flushes were outstanding. */
  datatype System = System(
    state: State,
    jobs: map<JobId, JobState>,
    execs: map<Task, Exec>,
    owner: map<WorkerId, ProcId>,
    flushed: map<JobId, nat>,
    tasks: set<Task>,
    early: set<JobId>)

  datatype Event =
    | Work(step: Step)
    | Submit(process: ProcId, job: JobId)
    | Resume(process: ProcId, job: JobId)
    | Begin(process: ProcId, job: JobId)
    | Flush(process: ProcId, job: JobId)
    | Start(process: ProcId, job: JobId, pool: set<WorkerId>)
    | Attach(process: ProcId, job: JobId, pool: set<WorkerId>)
    | Close(process: ProcId, job: JobId)
    | Abort(process: ProcId, job: JobId, raising: set<WorkerId>)
    | Restart(process: ProcId)

  function FlushedOf(l: System, job: JobId): nat {
    if job in l.flushed then l.flushed[job] else 0
  }

  function FlushCount(u: Setup, job: JobId): nat {
    Flushes(|u.inputs(job)|, u.batch)
  }

  /** The living workers of a process. */
  function WorkersOf(l: System, p: ProcId): set<WorkerId> {
    set w | w in l.state.workers && Alive(l.state.workers[w].phase) && w in l.owner && l.owner[w] == p
  }

  /** The leases of the workers of the job that are dead have expired. */
  predicate DeadExpired(s: State, job: JobId) {
    forall i :: 0 <= i < |s.rows| && s.rows[i].job == job && s.rows[i].status.Claimed?
                && s.rows[i].workerId.Some? && s.rows[i].workerId.value in DeadWorkers(s, job) ==>
                Claimable(s.rows[i], s.now)
  }

  /** The engine as it is started on the job now. */
  function Draws(u: Setup, l: System, job: JobId, pool: set<WorkerId>, attached: bool): Exec {
    Draining(pool, DeadWorkers(l.state, job), DeadExpired(l.state, job), FlushedOf(l, job) == FlushCount(u, job),
             attached)
  }

  /** An execution of the job from end to end, not just of its engine. */
  predicate Runs(exec: Exec) {
    exec.Started? || exec.Loading? || (exec.Draining? && !exec.attached)
  }

  predicate Executes(l: System, t: Task) {
    t in l.execs && Runs(l.execs[t])
  }

  /** The protocol step of an event; bookkeeping alone is a tick of no time. */
  function StepOf(u: Setup, l: System, e: Event): Step {
    match e
    case Work(step) => step
    case Flush(p, job) =>
      var t := Task(p, job);
      var k := if t in l.execs && l.execs[t].Loading? then l.execs[t].flushes else 0;
      var batch := BatchAt(u.inputs(job), u.batch, k);
      Insert(job, ItemsOf(batch), FailedOf(batch))
    case Start(_, job, pool) => Spawn(pool, job)
    case Attach(_, job, pool) => Spawn(pool, job)
    case Abort(_, _, raising) => Crash(raising)
    case Restart(p) => Crash(WorkersOf(l, p))
    case _ => Tick(0)
  }

  /** A worker whose task has ended may die without anybody noticing. */
  predicate MayDie(l: System, w: WorkerId) {
    && w in l.state.workers && w in l.owner
    && var t := Task(l.owner[w], l.state.workers[w].job);
       t in l.execs && l.execs[t].Ended?
  }

  /** When a process does what it does; with it die all its workers and no others. */
  predicate Scheduled(u: Setup, l: System, e: Event) {
    match e
    case Work(step) =>
      !step.Insert? && !step.Spawn? && (step.Crash? ==> forall w <- step.ws :: MayDie(l, w))
    case Submit(p, job) => job !in l.jobs && Task(p, job) !in l.execs
    case Resume(p, job) => job in l.jobs && Repositories.Active(l.jobs[job]) && Task(p, job) !in l.execs
    case Begin(p, job) => Task(p, job) in l.execs && l.execs[Task(p, job)].Started?
    case Flush(p, job) =>
      && Task(p, job) in l.execs && l.execs[Task(p, job)].Loading?
      && l.execs[Task(p, job)].flushes < FlushCount(u, job)
    case Start(p, job, _) =>
      && Task(p, job) in l.execs && l.execs[Task(p, job)].Loading?
      && l.execs[Task(p, job)].flushes == FlushCount(u, job)
    case Attach(p, job, _) => Task(p, job) !in l.execs
    case Close(p, job) =>
      Task(p, job) in l.execs && l.execs[Task(p, job)].Draining? && AllReturned(l.state, l.execs[Task(p, job)].pool)
    case Abort(p, job, raising) =>
      && Executes(l, Task(p, job))
      && forall w <- raising :: w in l.state.workers && l.state.workers[w].job == job && w in l.owner && l.owner[w] == p
    case Restart(_) => true
  }

  predicate AllReturned(s: State, pool: set<WorkerId>) {
    forall w <- pool :: w in s.workers && s.workers[w].phase.Exited?
  }

  predicate Possible(u: Setup, l: System, e: Event) {
    Scheduled(u, l, e) && Enabled(u.config, l.state, StepOf(u, l, e))
  }

  /** Setting the state of a job that does not exist is no error. */
  function SetState(l: System, job: JobId, state: JobState): map<JobId, JobState> {
    if job in l.jobs then l.jobs[job := state] else l.jobs
  }

  function After(u: Setup, l: System, e: Event): System
    requires Possible(u, l, e)
  {
    var l1 := l.(state := Next(u.config, l.state, StepOf(u, l, e)));
    match e
    case Work(_) => l1
    case Submit(p, job) => With(l1, Task(p, job), Started).(jobs := l.jobs[job := JobPending])
    case Resume(p, job) => With(l1, Task(p, job), Started)
    case Begin(p, job) => With(l1, Task(p, job), Loading(0)).(jobs := SetState(l, job, Ingesting))
    case Flush(p, job) =>
      var k := l.execs[Task(p, job)].flushes + 1;
      With(l1, Task(p, job), Loading(k)).(flushed := l.flushed[job := Max(FlushedOf(l, job), k)])
    case Start(p, job, pool) =>
      With(l1, Task(p, job), Draws(u, l, job, pool, false)).(
      jobs := SetState(l, job, Running), owner := Owners(l, p, pool))
    case Attach(p, job, pool) =>
      With(l1, Task(p, job), Draws(u, l, job, pool, true)).(owner := Owners(l, p, pool))
    case Close(p, job) =>
      With(l1, Task(p, job), Ended).(
      jobs := SetState(l, job, JobState.Completed),
      early := if FlushedOf(l, job) < FlushCount(u, job) then l.early + {job} else l.early)
    case Abort(p, job, _) => With(l1, Task(p, job), Ended).(jobs := SetState(l, job, JobFailed))
    case Restart(p) => l1.(execs := map t | t in l.execs && t.process != p :: l.execs[t])
  }

  function With(l: System, t: Task, exec: Exec): System {
    l.(execs := l.execs[t := exec], tasks := l.tasks + {t})
  }

  function Owners(l: System, p: ProcId, pool: set<WorkerId>): map<WorkerId, ProcId> {
    l.owner + map w | w in pool :: p
  }

  predicate Fresh(l: System) {
    && Initial(l.state) && l.jobs == map[] && l.execs == map[] && l.owner == map[] && l.flushed == map[]
    && l.tasks == {} && l.early == {}
  }

  predicate History(u: Setup, l: System, events: seq<Event>)
    decreases |events|
  {
    events == [] || (Possible(u, l, events[0]) && History(u, After(u, l, events[0]), events[1..]))
  }

  function Reached(u: Setup, l: System, events: seq<Event>): System
    requires History(u, l, events)
    decreases |events|
  {
    if events == [] then l else Reached(u, After(u, l, events[0]), events[1..])
  }

  lemma HistoryCons(u: Setup, l: System, e: Event, rest: seq<Event>)
    requires Possible(u, l, e) && History(u, After(u, l, e), rest)
    ensures History(u, l, [e] + rest) && Reached(u, l, [e] + rest) == Reached(u, After(u, l, e), rest)
  {
    assert ([e] + rest)[1..] == rest;
  }

  lemma {:induction false} HistoryConcat(u: Setup, l: System, a: seq<Event>, b: seq<Event>)
    requires History(u, l, a) && History(u, Reached(u, l, a), b)
    ensures History(u, l, a + b) && Reached(u, l, a + b) == Reached(u, Reached(u, l, a), b)
    decreases |a|
  {
    if a == [] {
      assert a + b == b;
    } else {
      assert (a + b)[1..] == a[1..] + b && (a + b)[0] == a[0];
      HistoryConcat(u, After(u, l, a[0]), a[1..], b);
    }
  }

  /** The protocol steps of a history. */
  function StepsOf(u: Setup, l: System, events: seq<Event>): seq<Step>
    requires History(u, l, events)
    decreases |events|
  {
    if events == [] then [] else [StepOf(u, l, events[0])] + StepsOf(u, After(u, l, events[0]), events[1..])
  }

  /** Every history is a run of the lease protocol, to which everything proved about runs applies. */
  lemma {:induction false} HistoryIsRun(u: Setup, l: System, events: seq<Event>)
    requires History(u, l, events)
    ensures var steps := StepsOf(u, l, events);
            Valid(u.config, l.state, steps) && Final(u.config, l.state, steps) == Reached(u, l, events).state
    decreases |events|
  {
    if events != [] {
      var l' := After(u, l, events[0]);
      HistoryIsRun(u, l', events[1..]);
      RunCons(u.config, l.state, StepOf(u, l, events[0]), StepsOf(u, l', events[1..]));
    }
  }

  // ------------------------------------------------------ the invariant of a task

  /** What a worker of task `t` can be doing. */
  predicate Placed(l: System, t: Task, w: WorkerId, phase: Phase) {
    if t !in l.execs then !Alive(phase)
    else match l.execs[t]
      case Draining(pool, dead, _, _, _) => phase.Exited? || w in pool || w in dead
      case Ended => true
      case _ => !Alive(phase)
  }

  /** While a task is under way, its living workers are those of its pool, and the pool's workers do not die. */
  ghost predicate OwnOk(l: System, t: Task) {
    forall w <- l.state.workers :: w in l.owner && l.owner[w] == t.process && l.state.workers[w].job == t.job ==>
      Placed(l, t, w, l.state.workers[w].phase)
  }

  /** Since the engine started on a whole table: once a pool worker has left, every row open to the pool is locked,
      unless a worker of the job has died since. */
  ghost predicate DrainingOk(c: Config, s: State, job: JobId, x: Exec)
    requires x.Draining?
  {
    && PoolOn(s, x.pool, job) && AllDead(s, x.dead) && x.pool !! x.dead
    && (c.size >= 1 && x.whole ==>
          && Tracked(s, x.pool, job, {}, x.dead)
          && (x.clean ==> Tracked(s, x.pool, job, x.dead, x.dead)))
  }

  /** No other process has ever worked on the job. */
  ghost predicate Sole(l: System, t: Task) {
    forall t' <- l.tasks :: t'.job == t.job ==> t' == t
  }

  /** The state a job has while one process alone executes it. */
  predicate StateOf(exec: Exec, state: JobState) {
    match exec
    case Started => state.JobPending? || Repositories.Active(state)
    case Loading(_) => state.Ingesting?
    case Draining(_, _, _, _, _) => state.Running?
    case Ended => true
  }

  ghost predicate StateOk(l: System, t: Task) {
    && (t in l.execs ==> t in l.tasks)
    && (Executes(l, t) ==>
          && t.job in l.jobs && (l.jobs[t.job].JobPending? ==> l.execs[t].Started?)
          && (Sole(l, t) ==> StateOf(l.execs[t], l.jobs[t.job])))
  }

  ghost predicate TaskOk(u: Setup, l: System, t: Task) {
    && OwnOk(l, t) && StateOk(l, t)
    && (t in l.execs && l.execs[t].Draining? ==> DrainingOk(u.config, l.state, t.job, l.execs[t]))
  }

  // ------------------------------------------------------- the invariant of a job

  /** What a task knows of the ingest of its job. */
  predicate IngestOk(exec: Exec, m: nat, all: nat) {
    match exec
    case Loading(k) => k <= m
    case Draining(_, _, _, whole, attached) => (attached || whole) && (whole ==> m == all)
    case _ => true
  }

  /** The job's keys and prompts are those of the flushes made so far, of which its tasks have repeated some or all. */
  ghost predicate SeedsOk(u: Setup, l: System, job: JobId) {
    var m := FlushedOf(l, job);
    && m <= FlushCount(u, job)
    && Seeds(l.state.rows, job) == First(map[], FlushWriting(u.inputs(job), u.batch, m))
    && forall t <- l.execs :: t.job == job ==> IngestOk(l.execs[t], m, FlushCount(u, job))
  }

  /** A job that is still PENDING has been taken up by one process at most. */
  ghost predicate PendingOk(l: System, job: JobId) {
    job in l.jobs && l.jobs[job].JobPending? ==>
      forall t, t' :: Executes(l, t) && Executes(l, t') && t.job == job && t'.job == job ==> t == t'
  }

  /** COMPLETED before the ingest was through is recorded in `early`. */
  ghost predicate CompletedOk(u: Setup, l: System, job: JobId) {
    job in l.jobs && l.jobs[job].Completed? && job !in l.early ==> FlushedOf(l, job) == FlushCount(u, job)
  }

  ghost predicate JobOk(u: Setup, l: System, job: JobId) {
    SeedsOk(u, l, job) && PendingOk(l, job) && CompletedOk(u, l, job)
  }

  ghost predicate SystemInv(u: Setup, l: System) {
    && Inv(u.config, l.state) && l.owner.Keys == l.state.workers.Keys
    && (forall job: JobId :: JobOk(u, l, job))
    && forall t: Task :: TaskOk(u, l, t)
  }

  // ------------------------------------------------------------- each event, a job

  predicate AboutTask(e: Event, t: Task) {
    !e.Work? && !e.Restart? && e.process == t.process && e.job == t.job
  }

  /** An event changes the bookkeeping of its own task, a restart drops all of its process. */
  lemma ExecsAfter(u: Setup, l: System, e: Event, t: Task)
    requires Possible(u, l, e) && !AboutTask(e, t)
    ensures var l' := After(u, l, e);
            && (t in l'.execs ==> t in l.execs && l'.execs[t] == l.execs[t])
            && (t in l.execs && t !in l'.execs ==> e.Restart? && e.process == t.process)
            && l.tasks <= l'.tasks
  {}

  lemma FlushEvent(u: Setup, l: System, p: ProcId, job: JobId)
    requires SeedsOk(u, l, job) && Possible(u, l, Flush(p, job))
    ensures SeedsOk(u, After(u, l, Flush(p, job)), job)
  {
    var k, l' := l.execs[Task(p, job)].flushes, After(u, l, Flush(p, job));
    FlushSeedsStep(l.state.rows, job, u.inputs(job), u.batch, k, FlushedOf(l, job));
    assert l'.state.rows == InsertBatch(l.state.rows, job, BatchAt(u.inputs(job), u.batch, k));
    assert FlushedOf(l', job) == Max(FlushedOf(l, job), k + 1);
  }

  lemma SeedsEvent(u: Setup, l: System, e: Event, job: JobId)
    requires SystemInv(u, l) && Possible(u, l, e)
    ensures SeedsOk(u, After(u, l, e), job)
  {
    assert JobOk(u, l, job);
    var l' := After(u, l, e);
    if e.Flush? && e.job == job {
      FlushEvent(u, l, e.process, job);
    } else {
      SeedsStep(u.config, l.state, StepOf(u, l, e), job);
      forall t | t in l'.execs && t.job == job ensures IngestOk(l'.execs[t], FlushedOf(l, job), FlushCount(u, job)) {
        if !AboutTask(e, t) { ExecsAfter(u, l, e, t); }
      }
    }
  }

  lemma PendingEvent(u: Setup, l: System, e: Event, job: JobId)
    requires SystemInv(u, l) && Possible(u, l, e)
    ensures PendingOk(After(u, l, e), job)
  {
    assert JobOk(u, l, job);
    var l' := After(u, l, e);
    if job in l'.jobs && l'.jobs[job].JobPending? {
      forall t, t' | Executes(l', t) && Executes(l', t') && t.job == job && t'.job == job ensures t == t' {
        assert TaskOk(u, l, t) && TaskOk(u, l, t');
      }
    }
  }

  lemma CompletedEvent(u: Setup, l: System, e: Event, job: JobId)
    requires SystemInv(u, l) && Possible(u, l, e)
    ensures CompletedOk(u, After(u, l, e), job)
  {
    assert JobOk(u, l, job);
  }

  // ------------------------------------------------------------ each event, a task

  lemma StateEvent(u: Setup, l: System, e: Event, t: Task)
    requires SystemInv(u, l) && Possible(u, l, e)
    ensures StateOk(After(u, l, e), t)
  {
    assert TaskOk(u, l, t);
    if !AboutTask(e, t) {
      ExecsAfter(u, l, e, t);
      if !e.Work? && !e.Restart? && e.job == t.job { OtherTask(u, l, e, t); }
    } else {
      StateAbout(u, l, e, t);
    }
  }

  lemma StateAbout(u: Setup, l: System, e: Event, t: Task)
    requires Possible(u, l, e) && AboutTask(e, t) && StateOk(l, t)
    ensures StateOk(After(u, l, e), t)
  {
    assert Sole(After(u, l, e), t) ==> Sole(l, t);
  }

  /** Where another process does something about the job, none works on it alone. */
  lemma OtherTask(u: Setup, l: System, e: Event, t: Task)
    requires SystemInv(u, l) && Possible(u, l, e)
    requires !AboutTask(e, t) && !e.Work? && !e.Restart? && e.job == t.job
    ensures !Sole(After(u, l, e), t)
  {
    assert Task(e.process, e.job) in After(u, l, e).tasks;
  }

  lemma OwnEvent(u: Setup, l: System, e: Event, t: Task)
    requires SystemInv(u, l) && Possible(u, l, e)
    ensures OwnOk(After(u, l, e), t)
  {
    assert TaskOk(u, l, t);
    var l' := After(u, l, e);
    forall w | w in l'.state.workers && w in l'.owner && l'.owner[w] == t.process && l'.state.workers[w].job == t.job
      ensures Placed(l', t, w, l'.state.workers[w].phase)
    {
      if w in l.state.workers {
        WorkersStay(u.config, l.state, StepOf(u, l, e), w);
        OwnWorker(u, l, e, t, w);
      }
    }
  }

  /** A worker that was there before, of task `t`. */
  lemma OwnWorker(u: Setup, l: System, e: Event, t: Task, w: WorkerId)
    requires SystemInv(u, l) && Possible(u, l, e)
    requires w in l.state.workers && l.owner[w] == t.process && l.state.workers[w].job == t.job
    ensures var l' := After(u, l, e); w in l'.state.workers && Placed(l', t, w, l'.state.workers[w].phase)
  {
    assert TaskOk(u, l, t) && Placed(l, t, w, l.state.workers[w].phase);
    WorkersStay(u.config, l.state, StepOf(u, l, e), w);
    if AboutTask(e, t) {
      OwnAbout(u, l, e, t, w);
    } else {
      ExecsAfter(u, l, e, t);
      if e.Restart? && e.process == t.process { RestartKills(u, l, t.process, w); }
    }
  }

  lemma OwnAbout(u: Setup, l: System, e: Event, t: Task, w: WorkerId)
    requires Possible(u, l, e) && AboutTask(e, t) && w in l.state.workers && l.state.workers[w].job == t.job
    requires Placed(l, t, w, l.state.workers[w].phase)
    ensures w in After(u, l, e).state.workers && Placed(After(u, l, e), t, w, After(u, l, e).state.workers[w].phase)
  {}

  lemma RestartKills(u: Setup, l: System, p: ProcId, w: WorkerId)
    requires Possible(u, l, Restart(p)) && w in l.state.workers && w in l.owner && l.owner[w] == p
    ensures var l' := After(u, l, Restart(p)); w in l'.state.workers && !Alive(l'.state.workers[w].phase)
  {
    assert Alive(l.state.workers[w].phase) ==> w in WorkersOf(l, p);
  }

  /** A flush of a job whose whole input is there adds nothing. */
  lemma WholeAddsNothing(u: Setup, l: System, e: Event, job: JobId)
    requires SystemInv(u, l) && Possible(u, l, e) && FlushedOf(l, job) == FlushCount(u, job)
    ensures AddsNothing(l.state, StepOf(u, l, e), job)
  {
    assert JobOk(u, l, job);
    if e.Flush? && e.job == job {
      FlushAgain(l.state.rows, job, u.inputs(job), u.batch, l.execs[Task(e.process, job)].flushes, FlushedOf(l, job));
    }
  }

  lemma DrainingStep(c: Config, s: State, step: Step, job: JobId, x: Exec)
    requires Inv(c, s) && Enabled(c, s, step) && x.Draining? && DrainingOk(c, s, job, x)
    requires x.whole ==> AddsNothing(s, step, job)
    ensures DrainingOk(c, Next(c, s, step), job, x)
  {
    PoolStep(c, s, step, x.pool, job);
    AllDeadStep(c, s, step, x.dead);
    if c.size >= 1 && x.whole {
      TrackedStep(c, s, step, x.pool, job, {}, x.dead);
      if x.clean { TrackedStep(c, s, step, x.pool, job, x.dead, x.dead); }
    }
  }

  lemma StartOk(u: Setup, l: System, e: Event)
    requires SystemInv(u, l) && Possible(u, l, e) && (e.Start? || e.Attach?)
    ensures DrainingOk(u.config, After(u, l, e).state, e.job, Draws(u, l, e.job, e.pool, e.Attach?))
  {
    var s, dead := After(u, l, e).state, DeadWorkers(l.state, e.job);
    assert !SomeExited(s, e.pool);
    assert AllDead(s, dead);
  }

  lemma DrainEvent(u: Setup, l: System, e: Event, t: Task)
    requires SystemInv(u, l) && Possible(u, l, e) && t in After(u, l, e).execs && After(u, l, e).execs[t].Draining?
    ensures DrainingOk(u.config, After(u, l, e).state, t.job, After(u, l, e).execs[t])
  {
    assert TaskOk(u, l, t) && JobOk(u, l, t.job);
    if AboutTask(e, t) {
      StartOk(u, l, e);
    } else {
      ExecsAfter(u, l, e, t);
      if l.execs[t].whole { WholeAddsNothing(u, l, e, t.job); }
      DrainingStep(u.config, l.state, StepOf(u, l, e), t.job, l.execs[t]);
    }
  }

  // ------------------------------------------------------------------- histories

  lemma KeysStep(c: Config, s: State, step: Step)
    requires Enabled(c, s, step)
    ensures Next(c, s, step).workers.Keys == s.workers.Keys + if step.Spawn? then step.pool else {}
  {}

  lemma OwnersEvent(u: Setup, l: System, e: Event)
    requires SystemInv(u, l) && Possible(u, l, e)
    ensures After(u, l, e).owner.Keys == After(u, l, e).state.workers.Keys
  {
    KeysStep(u.config, l.state, StepOf(u, l, e));
  }

  lemma EventInv(u: Setup, l: System, e: Event)
    requires SystemInv(u, l) && Possible(u, l, e)
    ensures SystemInv(u, After(u, l, e))
  {
    StepInv(u.config, l.state, StepOf(u, l, e));
    OwnersEvent(u, l, e);
    forall job: JobId ensures JobOk(u, After(u, l, e), job) {
      SeedsEvent(u, l, e, job);
      PendingEvent(u, l, e, job);
      CompletedEvent(u, l, e, job);
    }
    forall t: Task ensures TaskOk(u, After(u, l, e), t) { TaskEvent(u, l, e, t); }
  }

  lemma TaskEvent(u: Setup, l: System, e: Event, t: Task)
    requires SystemInv(u, l) && Possible(u, l, e)
    ensures TaskOk(u, After(u, l, e), t)
  {
    OwnEvent(u, l, e, t);
    StateEvent(u, l, e, t);
    if t in After(u, l, e).execs && After(u, l, e).execs[t].Draining? { DrainEvent(u, l, e, t); }
  }

  lemma FreshInv(u: Setup, l: System)
    requires Fresh(l)
    ensures SystemInv(u, l)
  {
    forall job: JobId ensures JobOk(u, l, job) { assert Seeds([], job) == map[]; }
  }

  /** Whatever happens, in every state that can be reached. */
  lemma {:induction false} HistoryInv(u: Setup, l: System, events: seq<Event>)
    requires SystemInv(u, l) && History(u, l, events)
    ensures SystemInv(u, Reached(u, l, events))
    decreases |events|
  {
    if events != [] {
      EventInv(u, l, events[0]);
      HistoryInv(u, After(u, l, events[0]), events[1..]);
    }
  }
}
