/** Crash and resume, end to end: what a job's table holds when its execution finishes, whatever happened before. */
module Recovery {
  import opened Domain
  import opened QueueTable
  import opened Protocol
  import opened Invariant
  import opened Completion
  import opened Lossless
  import opened Scheduling
  import opened Ingest
  import opened Flushing
  import opened Lifecycle
  import OneShot
  import Conservation
  import Repositories

  /** The distinct external ids of an input. */
  function Keys(entries: seq<Entry>): set<string> {
    set k | 0 <= k < |entries| :: entries[k].Key()
  }

  lemma KeysConcat(a: seq<Entry>, b: seq<Entry>)
    ensures Keys(a + b) == Keys(a) + Keys(b)
  {
    forall x | x in Keys(a) + Keys(b) ensures x in Keys(a + b) {
      if x in Keys(a) {
        var k :| 0 <= k < |a| && a[k].Key() == x;
        assert (a + b)[k].Key() == x;
      } else {
        var k :| 0 <= k < |b| && b[k].Key() == x;
        assert (a + b)[|a| + k].Key() == x;
      }
    }
  }

  lemma BatchKeys(batch: seq<Entry>, x: string)
    ensures Lookup(BatchWriting(batch), x).Some? <==> x in Keys(batch)
  {
    OneShot.BatchLookup(batch, x);
    OneShot.FirstIndexes(batch, x);
  }

  /** What is written are the ids of the input, in whatever batches. */
  lemma {:induction false} WrittenKeys(entries: seq<Entry>, size: Positive, x: string)
    ensures Lookup(WritingOf(entries, size), x).Some? <==> x in Keys(entries)
    decreases |entries|
  {
    if |entries| < size {
      BatchKeys(entries, x);
    } else {
      BatchKeys(entries[..size], x);
      WrittenKeys(entries[size..], size, x);
      LookupConcat(BatchWriting(entries[..size]), WritingOf(entries[size..], size), x);
      KeysConcat(entries[..size], entries[size..]);
      assert entries == entries[..size] + entries[size..];
    }
  }

  /** A table whose keys and prompts are those of the whole input has one row for each distinct id of it. */
  lemma IngestedKeys(rows: seq<Row>, job: JobId, entries: seq<Entry>, size: Positive)
    requires UniqueKeys(rows) && Seeds(rows, job) == First(map[], WritingOf(entries, size))
    ensures Seeds(rows, job) == Seeds(IngestRows([], job, entries, size), job)
    ensures Conservation.ExternalIds(rows, job) == Keys(entries) && |OfJob(rows, job)| == |Keys(entries)|
  {
    assert Seeds([], job) == map[];
    IngestSeeds([], job, entries, size);
    forall x ensures x in Conservation.ExternalIds(rows, job) <==> x in Keys(entries) {
      SeedsAt(rows, job, x);
      FirstLookup(map[], WritingOf(entries, size), x);
      WrittenKeys(entries, size, x);
    }
    Conservation.RowsAreKeys(rows, job);
  }

  // ------------------------------------------------------------- who is still there

  function CloseOf(t: Task): Event {
    Close(t.process, t.job)
  }

  /** The engine of `t`, started on a whole table and with a pool, has seen its workers return. */
  ghost predicate Closing(u: Setup, l: System, t: Task) {
    && SystemInv(u, l) && Possible(u, l, CloseOf(t)) && u.config.size >= 1
    && l.execs[t].whole && l.execs[t].pool != {}
  }

  /** All workers that other processes have ever run on the job have returned, or were dead when the engine of `t`
      started. In a history with one process it always holds. */
  ghost predicate OthersDone(l: System, t: Task)
    requires t in l.execs && l.execs[t].Draining?
  {
    forall w <- l.state.workers :: w in l.owner && l.owner[w] != t.process && l.state.workers[w].job == t.job ==>
      l.state.workers[w].phase.Exited? || w in l.execs[t].dead
  }

  lemma AloneAtClose(u: Setup, l: System, t: Task)
    requires SystemInv(u, l) && t in l.execs && l.execs[t].Draining? && OthersDone(l, t)
    ensures Alone(l.state, l.execs[t].pool, t.job, l.execs[t].dead)
  {
    assert TaskOk(u, l, t);
    forall w | w in l.state.workers && l.state.workers[w].job == t.job && !l.state.workers[w].phase.Exited?
      ensures w in l.execs[t].pool || w in l.execs[t].dead
    {
      if l.owner[w] == t.process { assert Placed(l, t, w, l.state.workers[w].phase); }
    }
  }

  /** The event starts an engine on the job of `t`, or ends what `t` is doing. */
  predicate Disturbs(e: Event, t: Task) {
    || ((e.Start? || e.Attach?) && e.job == t.job)
    || ((e.Close? || e.Abort?) && e.process == t.process && e.job == t.job)
    || (e.Restart? && e.process == t.process)
  }

  /** No worker of the job is alive. */
  ghost predicate Quiet(s: State, job: JobId) {
    forall w <- s.workers :: s.workers[w].job == job ==> !Alive(s.workers[w].phase)
  }

  /** Beside nobody alive, the leases of the dead are all leases. */
  lemma QuietLeases(c: Config, s: State, job: JobId)
    requires Inv(c, s) && Quiet(s, job)
    ensures DeadExpired(s, job) <==> LeasesExpired(s.rows, job, s.now)
  {
    forall i | 0 <= i < |s.rows| && s.rows[i].job == job && s.rows[i].status.Claimed?
      ensures s.rows[i].workerId.Some? && s.rows[i].workerId.value in DeadWorkers(s, job)
    {
      assert RowOk(s, i);
    }
  }

  /** What a caller can ask before it starts the engine: whether a worker of the job is alive. If none is, and no other
      engine is started on the job meanwhile, the others are done at the end. */
  lemma StartedAlone(u: Setup, l: System, e: Event, events: seq<Event>)
    requires SystemInv(u, l) && Possible(u, l, e) && (e.Start? || e.Attach?) && Quiet(l.state, e.job)
    requires History(u, After(u, l, e), events)
    requires forall k :: 0 <= k < |events| ==> !Disturbs(events[k], Task(e.process, e.job))
    ensures var t, l' := Task(e.process, e.job), Reached(u, After(u, l, e), events);
            && t in l'.execs && l'.execs[t] == Draws(u, l, e.job, e.pool, e.Attach?)
            && (l'.execs[t].clean <==> LeasesExpired(l.state.rows, e.job, l.state.now))
            && (Possible(u, l', CloseOf(t)) ==> OthersDone(l', t))
  {
    QuietLeases(u.config, l.state, e.job);
    var l1 := AloneAtStart(u, l, e);
    StayDone(u, l1, events, Task(e.process, e.job));
  }

  lemma AloneAtStart(u: Setup, l: System, e: Event) returns (l1: System)
    requires Possible(u, l, e) && (e.Start? || e.Attach?) && Quiet(l.state, e.job)
    ensures var t := Task(e.process, e.job);
            && l1 == After(u, l, e) && t in l1.execs && l1.execs[t] == Draws(u, l, e.job, e.pool, e.Attach?)
            && Alone(l1.state, l1.execs[t].pool, e.job, l1.execs[t].dead)
  {
    l1 := After(u, l, e);
    forall w | w in l1.state.workers && l1.state.workers[w].job == e.job && !l1.state.workers[w].phase.Exited?
      ensures w in e.pool || w in DeadWorkers(l.state, e.job)
    {
      if w in l.state.workers { assert l1.state.workers[w] == l.state.workers[w]; }
    }
  }

  lemma StayDone(u: Setup, l: System, events: seq<Event>, t: Task)
    requires History(u, l, events) && t in l.execs && l.execs[t].Draining?
    requires Alone(l.state, l.execs[t].pool, t.job, l.execs[t].dead)
    requires forall k :: 0 <= k < |events| ==> !Disturbs(events[k], t)
    ensures var l' := Reached(u, l, events);
            t in l'.execs && l'.execs[t] == l.execs[t] && (Possible(u, l', CloseOf(t)) ==> OthersDone(l', t))
  {
    StayAlone(u, l, events, t);
  }

  lemma {:induction false} StayAlone(u: Setup, l: System, events: seq<Event>, t: Task)
    requires History(u, l, events) && t in l.execs && l.execs[t].Draining?
    requires Alone(l.state, l.execs[t].pool, t.job, l.execs[t].dead)
    requires forall k :: 0 <= k < |events| ==> !Disturbs(events[k], t)
    ensures var l' := Reached(u, l, events);
            && t in l'.execs && l'.execs[t] == l.execs[t]
            && Alone(l'.state, l.execs[t].pool, t.job, l.execs[t].dead)
    decreases |events|
  {
    if events != [] {
      var e := events[0];
      assert !Disturbs(e, t);
      AloneStep(u.config, l.state, StepOf(u, l, e), l.execs[t].pool, t.job, l.execs[t].dead);
      StayAlone(u, After(u, l, e), events[1..], t);
    }
  }

  // ---------------------------------------------------------- crash and resume

  /** Everybody has returned, and the leases of those that were dead when the engine started had expired. */
  lemma CleanClose(u: Setup, l: System, t: Task)
    requires Closing(u, l, t) && l.execs[t].clean && OthersDone(l, t)
    ensures AllTerminal(l.state.rows, t.job)
  {
    assert TaskOk(u, l, t);
    var x := l.execs[t];
    AloneAtClose(u, l, t);
    CoveredAtEnd(l.state, x.pool, t.job, x.dead, x.dead);
    forall i | 0 <= i < |l.state.rows| && l.state.rows[i].job == t.job ensures Terminal(l.state.rows[i].status) {
      AllOver(u.config, l.state, x.pool, t.job, x.dead, i);
    }
  }

  /** The worker has the row from before the engine of `t` started, or belongs to another process. */
  ghost predicate Foreign(l: System, t: Task, w: WorkerId)
    requires t in l.execs && l.execs[t].Draining?
  {
    w in l.execs[t].dead || (w in l.owner && l.owner[w] != t.process)
  }

  /** What can be left when the pool has returned. A row that is CLAIMED is so by a worker that was dead before the
      engine started or belongs to another process; one that is PENDING is locked by a worker of another process, unless
      a worker of another process has died meanwhile. If the others are done it is CLAIMED under a lease that was live
      when the engine started, by a worker dead already then. */
  lemma LeftBehind(u: Setup, l: System, t: Task, i: nat)
    requires Closing(u, l, t) && i < |l.state.rows| && l.state.rows[i].job == t.job
    requires !Terminal(l.state.rows[i].status)
    ensures var row := l.state.rows[i];
            && (row.status.Claimed? ==> row.workerId.Some? && Foreign(l, t, row.workerId.value))
            && (row.status.Pending? && !LateDead(l.state, t.job, l.execs[t].dead) ==>
                  i in l.state.locks && Foreign(l, t, l.state.locks[i]))
            && (OthersDone(l, t) ==>
                  row.status.Claimed? && row.workerId.value in l.execs[t].dead && !l.execs[t].clean)
  {
    assert TaskOk(u, l, t) && RowOk(l.state, i);
    var x, row := l.execs[t], l.state.rows[i];
    var w :| w in x.pool;
    assert l.state.workers[w].phase.Exited?;
    if row.status.Claimed? { StillThere(u, l, t, row.workerId.value); }
    if row.status.Pending? && i in l.state.locks {
      LockingFacts(u.config, l.state, l.state.locks[i], i);
      StillThere(u, l, t, l.state.locks[i]);
    }
    assert row.status.Pending? ==> Open(l.state, t.job, {}, i);
    if OthersDone(l, t) { LeftByTheDead(u, l, t, i); }
  }

  lemma LeftByTheDead(u: Setup, l: System, t: Task, i: nat)
    requires Closing(u, l, t) && i < |l.state.rows| && l.state.rows[i].job == t.job
    requires !Terminal(l.state.rows[i].status) && OthersDone(l, t)
    ensures var row := l.state.rows[i];
            && row.status.Claimed? && row.workerId.Some? && row.workerId.value in l.execs[t].dead && !l.execs[t].clean
  {
    assert TaskOk(u, l, t) && RowOk(l.state, i);
    var x := l.execs[t];
    if x.clean { CleanClose(u, l, t); }
    AloneAtClose(u, l, t);
    CoveredAtEnd(l.state, x.pool, t.job, {}, x.dead);
    if l.state.rows[i].status.Pending? {
      assert Open(l.state, t.job, {}, i);
      LockingFacts(u.config, l.state, l.state.locks[i], i);
    }
  }

  /** When the pool of `t` has returned, a worker of the job that has not is foreign. */
  lemma StillThere(u: Setup, l: System, t: Task, w: WorkerId)
    requires SystemInv(u, l) && Possible(u, l, CloseOf(t)) && w in l.state.workers
    requires l.state.workers[w].job == t.job && !l.state.workers[w].phase.Exited?
    ensures Foreign(l, t, w)
  {
    assert TaskOk(u, l, t);
    if l.owner[w] == t.process { assert Placed(l, t, w, l.state.workers[w].phase); }
  }

  ghost predicate NoneLocked(s: State, job: JobId) {
    forall i <- s.locks :: i < |s.rows| ==> s.rows[i].job != job
  }

  /** Exactly when COMPLETED is true to its name: if and only if, at that moment, no row of the job is in progress or
      locked by a claim under way, and, if the others are done, if and only if none is in progress. That no open work is
      left, which the queue could also be asked, is not enough. */
  lemma CompletedExactly(u: Setup, l: System, t: Task)
    requires Closing(u, l, t)
    ensures !LateDead(l.state, t.job, l.execs[t].dead) ==>
              (AllTerminal(l.state.rows, t.job) <==>
               WithStatus(l.state.rows, t.job, Claimed) == {} && NoneLocked(l.state, t.job))
    ensures OthersDone(l, t) ==> !LateDead(l.state, t.job, l.execs[t].dead) && NoneLocked(l.state, t.job)
  {
    var x := l.execs[t];
    assert TaskOk(u, l, t);
    forall i | i in l.state.locks && i < |l.state.rows| && l.state.rows[i].job == t.job
      ensures !Terminal(l.state.rows[i].status) && Foreign(l, t, l.state.locks[i])
    {
      LockingFacts(u.config, l.state, l.state.locks[i], i);
      StillThere(u, l, t, l.state.locks[i]);
    }
    forall i: nat | i < |l.state.rows| && l.state.rows[i].job == t.job && !Terminal(l.state.rows[i].status)
      ensures i in WithStatus(l.state.rows, t.job, Claimed) || LateDead(l.state, t.job, x.dead) || i in l.state.locks
    {
      LeftBehind(u, l, t, i);
    }
    if WithStatus(l.state.rows, t.job, Claimed) != {} {
      var i :| i in WithStatus(l.state.rows, t.job, Claimed);
    }
    if OthersDone(l, t) { NoneLeft(u, l, t); }
  }

  lemma NoneLeft(u: Setup, l: System, t: Task)
    requires Closing(u, l, t) && OthersDone(l, t)
    ensures !LateDead(l.state, t.job, l.execs[t].dead) && NoneLocked(l.state, t.job)
  {
    assert TaskOk(u, l, t);
    AloneAtClose(u, l, t);
    CoveredAtEnd(l.state, l.execs[t].pool, t.job, {}, l.execs[t].dead);
    forall i | i in l.state.locks && i < |l.state.rows| ensures l.state.rows[i].job != t.job {
      LockingFacts(u.config, l.state, l.state.locks[i], i);
    }
  }

  /** One terminal row for each distinct external id of the input, with the prompts that an uninterrupted ingest would
      have stored. */
  ghost predicate Finished(u: Setup, rows: seq<Row>, job: JobId) {
    && UniqueKeys(rows) && AllTerminal(rows, job)
    && Conservation.ExternalIds(rows, job) == Keys(u.inputs(job))
    && |OfJob(rows, job)| == |Keys(u.inputs(job))|
    && Seeds(rows, job) == Seeds(IngestRows([], job, u.inputs(job), u.batch), job)
  }

  /** The engine had a pool, the leases of the workers that were dead when it started had expired, and, if it is a
      worker process, the job had been ingested. */
  predicate StartedClean(u: Setup, x: Exec)
    requires x.Draining?
  {
    u.config.size >= 1 && x.pool != {} && x.clean && (x.attached ==> x.whole)
  }

  /** However many processes ingest and drain a job, one after the other or at the same time, and however often and
      wherever they crash -- between two flushes, inside a chunk, between write and completion -- when one of them sets
      the job COMPLETED its table is finished, provided that the leases of the workers that were dead when its engine
      started had expired then, and that the workers of the other processes have returned by now. */
  lemma CrashAndResume(u: Setup, l0: System, events: seq<Event>, t: Task)
    requires Fresh(l0) && History(u, l0, events) && Possible(u, Reached(u, l0, events), CloseOf(t))
    requires StartedClean(u, Reached(u, l0, events).execs[t])
    requires OthersDone(Reached(u, l0, events), t)
    ensures var l, l' := Reached(u, l0, events), After(u, Reached(u, l0, events), CloseOf(t));
            && (!l.execs[t].attached ==> t.job in l.jobs)
            && (t.job in l.jobs ==> t.job in l'.jobs && l'.jobs[t.job] == JobState.Completed)
            && Finished(u, l'.state.rows, t.job)
  {
    var l := Reached(u, l0, events);
    FreshInv(u, l0);
    HistoryInv(u, l0, events);
    assert JobOk(u, l, t.job) && TaskOk(u, l, t);
    CleanClose(u, l, t);
    AllFlushes(u.inputs(t.job), u.batch);
    IngestedKeys(l.state.rows, t.job, u.inputs(t.job), u.batch);
  }

  /** In terms of what can be asked when the engine is started: if no lease on the job is live then and no worker of it
      alive, and no other engine is started on it meanwhile, its table is finished when the job is closed. */
  lemma SafeResume(u: Setup, l0: System, before: seq<Event>, e: Event, after: seq<Event>)
    requires Fresh(l0) && History(u, l0, before) && Possible(u, Reached(u, l0, before), e) && (e.Start? || e.Attach?)
    requires var l := Reached(u, l0, before); Quiet(l.state, e.job) && LeasesExpired(l.state.rows, e.job, l.state.now)
    requires u.config.size >= 1 && e.pool != {}
    requires e.Attach? ==> FlushedOf(Reached(u, l0, before), e.job) == FlushCount(u, e.job)
    requires var l1 := After(u, Reached(u, l0, before), e);
             History(u, l1, after) && Possible(u, Reached(u, l1, after), Close(e.process, e.job))
    requires forall k :: 0 <= k < |after| ==> !Disturbs(after[k], Task(e.process, e.job))
    ensures var l1 := After(u, Reached(u, l0, before), e);
            Finished(u, After(u, Reached(u, l1, after), Close(e.process, e.job)).state.rows, e.job)
  {
    var l := Reached(u, l0, before);
    FreshInv(u, l0);
    HistoryInv(u, l0, before);
    StartedAlone(u, l, e, after);
    HistoryCons(u, l, e, after);
    HistoryConcat(u, l0, before, [e] + after);
    CrashAndResume(u, l0, before + ([e] + after), Task(e.process, e.job));
  }

  /** Not to be executed again; worker processes may still be run on it. */
  ghost predicate Settled(l: System, job: JobId) {
    job in l.jobs && !Repositories.Active(l.jobs[job]) && forall t <- l.execs :: t.job == job ==> !Runs(l.execs[t])
  }

  /** No engine is running on the job. */
  ghost predicate NoEngine(l: System, job: JobId) {
    forall t <- l.execs :: t.job == job ==> !l.execs[t].Draining?
  }

  lemma SettledStep(u: Setup, l: System, e: Event, job: JobId)
    requires SystemInv(u, l) && Possible(u, l, e) && Settled(l, job)
    ensures var l' := After(u, l, e);
            && Settled(l', job) && (l'.jobs[job] == l.jobs[job] || l'.jobs[job].Completed?)
  {}

  lemma NoEngineStep(u: Setup, l: System, e: Event, job: JobId)
    requires Possible(u, l, e) && Settled(l, job) && NoEngine(l, job) && (e.Attach? ==> e.job != job)
    ensures var l' := After(u, l, e); NoEngine(l', job) && job in l'.jobs && l'.jobs[job] == l.jobs[job]
  {}

  lemma SettledRows(u: Setup, l: System, e: Event, job: JobId)
    requires SystemInv(u, l) && Possible(u, l, e) && Settled(l, job)
    ensures OfJob(After(u, l, e).state.rows, job) == OfJob(l.state.rows, job)
    ensures forall i :: 0 <= i < |l.state.rows| && Terminal(l.state.rows[i].status) ==>
              i < |After(u, l, e).state.rows| && After(u, l, e).state.rows[i] == l.state.rows[i]
  {
    var step := StepOf(u, l, e);
    StepEvolves(u.config, l.state, step);
    Conservation.JobRowsStep(u.config, l.state, step, job);
  }

  /** A finished job is finished for good: no later event executes it again, adds a row or changes a terminal one. Its
      state stays as it is or becomes COMPLETED, the latter only if a worker process is run on it. */
  lemma {:induction false} FinishedForGood(u: Setup, l: System, events: seq<Event>, job: JobId)
    requires SystemInv(u, l) && History(u, l, events) && Settled(l, job)
    ensures var l' := Reached(u, l, events);
            && Settled(l', job) && (l'.jobs[job] == l.jobs[job] || l'.jobs[job].Completed?)
            && (NoEngine(l, job) && (forall k :: 0 <= k < |events| && events[k].Attach? ==> events[k].job != job) ==>
                  l'.jobs[job] == l.jobs[job])
    ensures OfJob(Reached(u, l, events).state.rows, job) == OfJob(l.state.rows, job)
    ensures forall i :: 0 <= i < |l.state.rows| && Terminal(l.state.rows[i].status) ==>
              i < |Reached(u, l, events).state.rows| && Reached(u, l, events).state.rows[i] == l.state.rows[i]
    decreases |events|
  {
    if events != [] {
      EventInv(u, l, events[0]);
      SettledStep(u, l, events[0], job);
      SettledRows(u, l, events[0], job);
      if NoEngine(l, job) && (events[0].Attach? ==> events[0].job != job) { NoEngineStep(u, l, events[0], job); }
      FinishedForGood(u, After(u, l, events[0]), events[1..], job);
    }
  }

  /** When a process starts again it takes up a job exactly if the last state written for it was INGESTING or RUNNING.
      So, of a job no other process has worked on, an interrupted execution is resumed exactly if it had got as far as
      its first state change. */
  lemma ResumedExactly(u: Setup, l: System, p: ProcId, job: JobId)
    requires SystemInv(u, l)
    ensures Possible(u, l, Restart(p))
    ensures var l' := After(u, l, Restart(p));
            Possible(u, l', Resume(p, job)) <==> job in l.jobs && Repositories.Active(l.jobs[job])
    ensures Executes(l, Task(p, job)) && Sole(l, Task(p, job)) ==>
              && job in l.jobs
              && (Possible(u, After(u, l, Restart(p)), Resume(p, job)) <==> !l.jobs[job].JobPending?)
  {
    assert TaskOk(u, l, Task(p, job));
  }

  /** A crash of the process that accepted a job, while the job is PENDING and whatever else has happened since it was
      created, strands it: it is never executed again, and stays PENDING unless a worker process is run on it. */
  lemma StrandedSubmission(u: Setup, l: System, p: ProcId, job: JobId, events: seq<Event>)
    requires SystemInv(u, l) && job in l.jobs && l.jobs[job].JobPending? && Executes(l, Task(p, job))
    requires History(u, l, [Restart(p)] + events)
    ensures var l' := Reached(u, l, [Restart(p)] + events);
            && Settled(l', job) && (l'.jobs[job].JobPending? || l'.jobs[job].Completed?)
            && (NoEngine(l, job) && (forall k :: 0 <= k < |events| && events[k].Attach? ==> events[k].job != job) ==>
                  l'.jobs[job].JobPending?)
  {
    var all := [Restart(p)] + events;
    assert all[0] == Restart(p) && all[1..] == events;
    assert JobOk(u, l, job);
    EventInv(u, l, all[0]);
    var l1 := After(u, l, all[0]);
    assert forall t :: Executes(l, t) && t.job == job ==> t == Task(p, job);
    assert Settled(l1, job) by {
      forall t | t in l1.execs && t.job == job ensures !Runs(l1.execs[t]) {
        assert Executes(l, t) ==> t == Task(p, job);
      }
    }
    FinishedForGood(u, l1, events, job);
  }

  /** Where the first crash comes too early: right after a job has been accepted it is PENDING and lost, after its first
      state change and after the engine has been started it is taken up again. */
  lemma CrashAfter(u: Setup, l: System, e: Event)
    requires SystemInv(u, l) && Possible(u, l, e) && (e.Submit? || e.Begin? || e.Start?)
    ensures var l1 := After(u, l, e);
            && e.job in l1.jobs && (e.Submit? <==> l1.jobs[e.job].JobPending?)
            && (Possible(u, After(u, l1, Restart(e.process)), Resume(e.process, e.job)) <==> !e.Submit?)
  {
    assert TaskOk(u, l, Task(e.process, e.job));
    EventInv(u, l, e);
    ResumedExactly(u, After(u, l, e), e.process, e.job);
  }

  /** An execution that ends in an error leaves the job FAILED, whatever its other workers still do. If no other process
      is executing the job it stays FAILED, unless a worker process is run on it, and is not executed again. */
  lemma AbortFails(u: Setup, l: System, e: Event, events: seq<Event>)
    requires SystemInv(u, l) && Possible(u, l, e) && e.Abort? && History(u, After(u, l, e), events)
    ensures var l1 := After(u, l, e); e.job in l1.jobs && l1.jobs[e.job].JobFailed?
    ensures (forall t <- l.execs :: t.job == e.job && t.process != e.process ==> !Runs(l.execs[t])) ==>
              var l' := Reached(u, After(u, l, e), events);
              && Settled(l', e.job) && (l'.jobs[e.job].JobFailed? || l'.jobs[e.job].Completed?)
              && (NoEngine(After(u, l, e), e.job)
                  && (forall k :: 0 <= k < |events| && events[k].Attach? ==> events[k].job != e.job) ==>
                    l'.jobs[e.job].JobFailed?)
  {
    assert TaskOk(u, l, Task(e.process, e.job));
    var l1 := After(u, l, e);
    EventInv(u, l, e);
    if forall t <- l.execs :: t.job == e.job && t.process != e.process ==> !Runs(l.execs[t]) {
      AbortSettles(u, l, e);
      FinishedForGood(u, l1, events, e.job);
    }
  }

  lemma AbortSettles(u: Setup, l: System, e: Event)
    requires SystemInv(u, l) && Possible(u, l, e) && e.Abort?
    requires forall t <- l.execs :: t.job == e.job && t.process != e.process ==> !Runs(l.execs[t])
    ensures Settled(After(u, l, e), e.job)
  {
    assert TaskOk(u, l, Task(e.process, e.job));
  }

  // ---------------------------------------------------- the same table every time

  /** The endpoint answers each prompt always the same way. */
  ghost predicate Steady(u: Setup, f: Endpoint, l: System, events: seq<Event>)
    requires History(u, l, events)
  {
    var steps := StepsOf(u, l, events);
    Valid(u.config, l.state, steps) && DeterministicRun(u.config, f, l.state, steps)
  }

  /** Under the same hypotheses and a steady endpoint, status, error and attempts of every row are a function of the
      input alone: neither crashes nor scheduling, number of processes, pool size, chunk size or lapsed leases leave a
      trace in them. */
  lemma TableDetermined(u: Setup, f: Endpoint, l0: System, events: seq<Event>, t: Task, i: nat)
    requires Fresh(l0) && History(u, l0, events) && Possible(u, Reached(u, l0, events), CloseOf(t))
    requires StartedClean(u, Reached(u, l0, events).execs[t])
    requires OthersDone(Reached(u, l0, events), t)
    requires Answers(u.config, f) && Steady(u, f, l0, events)
    requires var rows := After(u, Reached(u, l0, events), CloseOf(t)).state.rows; i < |rows| && rows[i].job == t.job
    ensures var row := After(u, Reached(u, l0, events), CloseOf(t)).state.rows[i];
            var seeds := Seeds(IngestRows([], t.job, u.inputs(t.job), u.batch), t.job);
            row.externalId in seeds && VerdictOf(row) == VerdictFor(u.config, f, seeds[row.externalId])
  {
    var l := Reached(u, l0, events);
    CrashAndResume(u, l0, events, t);
    FreshInv(u, l0);
    HistoryInv(u, l0, events);
    HistoryIsRun(u, l0, events);
    RunVerdict(u.config, f, l0.state, StepsOf(u, l0, events), i);
    SeedsAt(l.state.rows, t.job, l.state.rows[i].externalId);
  }
}
