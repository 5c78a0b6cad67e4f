/** Whether COMPLETED means that the whole input is in the table. A worker process sets the state when its pool has
    returned, whether or not the service has finished ingesting. */
module EarlyCompletion {
  import opened Domain
  import opened QueueTable
  import opened Protocol
  import opened Invariant
  import opened Ingest
  import opened Flushing
  import opened Lifecycle
  import opened Recovery
  import Conservation

  /** The job has the keys and prompts of an uninterrupted ingest. */
  ghost predicate Ingested(u: Setup, rows: seq<Row>, job: JobId) {
    Seeds(rows, job) == Seeds(IngestRows([], job, u.inputs(job), u.batch), job)
  }

  lemma IngestedIs(u: Setup, rows: seq<Row>, job: JobId)
    ensures Ingested(u, rows, job) <==>
            Seeds(rows, job) == First(map[], FlushWriting(u.inputs(job), u.batch, FlushCount(u, job)))
  {
    var none: seq<Row> := [];
    assert Seeds(none, job) == map[];
    IngestSeeds(none, job, u.inputs(job), u.batch);
    AllFlushes(u.inputs(job), u.batch);
  }

  /** A COMPLETED job has a row for each distinct id of its whole input, holding the prompt of an uninterrupted ingest,
      unless an engine closed it while flushes were outstanding. */
  lemma CompletedIngested(u: Setup, l0: System, events: seq<Event>, job: JobId)
    requires Fresh(l0) && History(u, l0, events)
    requires var l := Reached(u, l0, events); job in l.jobs && l.jobs[job].Completed? && job !in l.early
    ensures var rows := Reached(u, l0, events).state.rows;
            Ingested(u, rows, job) && |OfJob(rows, job)| == |Keys(u.inputs(job))|
  {
    FreshInv(u, l0);
    HistoryInv(u, l0, events);
    var l := Reached(u, l0, events);
    assert JobOk(u, l, job);
    IngestedIs(u, l.state.rows, job);
    AllFlushes(u.inputs(job), u.batch);
    IngestedKeys(l.state.rows, job, u.inputs(job), u.batch);
  }

  // ------------------------------------------------------ what is there stays there

  lemma {:induction false} FlushedGrows(u: Setup, l: System, events: seq<Event>, job: JobId)
    requires History(u, l, events)
    ensures FlushedOf(l, job) <= FlushedOf(Reached(u, l, events), job)
    decreases |events|
  {
    if events != [] { FlushedGrows(u, After(u, l, events[0]), events[1..], job); }
  }

  /** If a prefix of what is written already says all there is to say, so does every longer one. */
  lemma BetweenSame(a: Writing, b: Writing, d: Writing)
    requires a <= b <= d && First(map[], a) == First(map[], d)
    ensures First(map[], b) == First(map[], d)
  {
    var l, r := First(map[], b), First(map[], d);
    forall x ensures x in l <==> x in r
             ensures x in l ==> l[x] == r[x]
    {
      FirstLookup(map[], a, x);
      FirstLookup(map[], b, x);
      FirstLookup(map[], d, x);
      LookupConcat(a, b[|a|..], x);
      LookupConcat(b, d[|b|..], x);
      assert a + b[|a|..] == b && b + d[|b|..] == d;
    }
  }

  lemma StaysIngested(u: Setup, l: System, events: seq<Event>, job: JobId)
    requires SystemInv(u, l) && History(u, l, events) && Ingested(u, l.state.rows, job)
    ensures Ingested(u, Reached(u, l, events).state.rows, job)
  {
    var l' := Reached(u, l, events);
    HistoryInv(u, l, events);
    FlushedGrows(u, l, events, job);
    assert JobOk(u, l, job) && JobOk(u, l', job);
    var entries, size, m, m', n := u.inputs(job), u.batch, FlushedOf(l, job), FlushedOf(l', job), FlushCount(u, job);
    FlushWritingGrows(entries, size, m, m');
    FlushWritingGrows(entries, size, m', n);
    IngestedIs(u, l.state.rows, job);
    IngestedIs(u, l'.state.rows, job);
    BetweenSame(FlushWriting(entries, size, m), FlushWriting(entries, size, m'), FlushWriting(entries, size, n));
  }

  lemma {:induction false} SettledSeeds(u: Setup, l: System, events: seq<Event>, job: JobId)
    requires SystemInv(u, l) && History(u, l, events) && Settled(l, job)
    ensures Seeds(Reached(u, l, events).state.rows, job) == Seeds(l.state.rows, job)
    decreases |events|
  {
    if events != [] {
      var l1 := After(u, l, events[0]);
      EventInv(u, l, events[0]);
      SettledStep(u, l, events[0], job);
      SeedsStep(u.config, l.state, StepOf(u, l, events[0]), job);
      SettledSeeds(u, l1, events[1..], job);
    }
  }

  // ---------------------------------------------------------- what is not, may never be

  function TasksOn(l: System, job: JobId): set<Task> {
    set t | t in l.execs && t.job == job
  }

  /** All processes that have anything to do with the job die. */
  lemma CrashAll(u: Setup, l: System, job: JobId) returns (events: seq<Event>)
    requires SystemInv(u, l)
    ensures History(u, l, events)
    ensures var l' := Reached(u, l, events);
            TasksOn(l', job) == {} && l'.jobs == l.jobs && l'.state.rows == l.state.rows
    decreases TasksOn(l, job)
  {
    events := [];
    if TasksOn(l, job) != {} {
      var t :| t in TasksOn(l, job);
      var e := Restart(t.process);
      var l1 := After(u, l, e);
      EventInv(u, l, e);
      assert t !in TasksOn(l1, job) && TasksOn(l1, job) <= TasksOn(l, job);
      var rest := CrashAll(u, l1, job);
      HistoryCons(u, l, e, rest);
      events := [e] + rest;
    }
  }

  /** The job is COMPLETED, nobody is executing it, and part of the input is missing. */
  ghost predicate LostInput(u: Setup, l: System, job: JobId) {
    Settled(l, job) && l.jobs[job].Completed? && !Ingested(u, l.state.rows, job)
  }

  /** Once lost, the rest of the input is lost for good. */
  lemma LostForGood(u: Setup, l: System, events: seq<Event>, job: JobId)
    requires SystemInv(u, l) && History(u, l, events) && LostInput(u, l, job)
    ensures LostInput(u, Reached(u, l, events), job)
  {
    FinishedForGood(u, l, events, job);
    SettledSeeds(u, l, events, job);
  }

  /** Part of the input can be lost after the job has been closed. */
  ghost predicate MayLose(u: Setup, l: System, job: JobId) {
    exists events :: History(u, l, events) && LostInput(u, Reached(u, l, events), job)
  }

  /** Exactly when it is safe to set a job COMPLETED: afterwards no part of its input can be lost, whatever else
      happens, if and only if the whole input is in the table at that moment. */
  lemma IngestedExactly(u: Setup, l: System, t: Task)
    requires SystemInv(u, l) && Possible(u, l, CloseOf(t)) && t.job in l.jobs
    ensures MayLose(u, After(u, l, CloseOf(t)), t.job) <==> !Ingested(u, l.state.rows, t.job)
  {
    var l' := After(u, l, CloseOf(t));
    EventInv(u, l, CloseOf(t));
    if Ingested(u, l.state.rows, t.job) {
      forall events | History(u, l', events) ensures Ingested(u, Reached(u, l', events).state.rows, t.job) {
        StaysIngested(u, l', events, t.job);
      }
    } else {
      var events := CrashAll(u, l', t.job);
      var l2 := Reached(u, l', events);
      assert forall t' <- l2.execs :: t'.job == t.job ==> t' in TasksOn(l2, t.job);
      assert LostInput(u, l2, t.job);
    }
  }

  // ------------------------------------------------------------------- it happens

  lemma NothingIngested(u: Setup, job: JobId)
    requires u.inputs(job) != []
    ensures !Ingested(u, [], job)
  {
    var none: seq<Row> := [];
    assert Seeds(none, job) == map[];
    assert u.inputs(job)[0].Key() in Keys(u.inputs(job));
    assert |OfJob(none, job)| == 0;
    IngestedIs(u, none, job);
    AllFlushes(u.inputs(job), u.batch);
    if Ingested(u, none, job) { IngestedKeys(none, job, u.inputs(job), u.batch); }
  }

  /** A worker process has just started on a job none of whose rows has been ingested. */
  ghost predicate WorkerFirst(l: System, job: JobId) {
    && l.state.rows == [] && job in l.jobs && Task(1, job) in l.execs
    && l.execs[Task(1, job)].Draining? && l.execs[Task(1, job)].pool == {0}
    && 0 in l.state.workers && l.state.workers[0].phase.Idle?
  }

  lemma SubmitAttach(u: Setup, l0: System, job: JobId) returns (events: seq<Event>)
    requires Fresh(l0)
    ensures History(u, l0, events) && WorkerFirst(Reached(u, l0, events), job)
  {
    var attach, l1 := Attach(1, job, {0}), After(u, l0, Submit(0, job));
    HistoryCons(u, l1, attach, []);
    HistoryCons(u, l0, Submit(0, job), [attach] + []);
    events := [Submit(0, job)] + ([attach] + []);
  }

  lemma LockClose(u: Setup, l: System, job: JobId) returns (events: seq<Event>)
    requires WorkerFirst(l, job)
    ensures History(u, l, events)
    ensures var l' := Reached(u, l, events); l'.state.rows == [] && job in l'.jobs && l'.jobs[job].Completed?
  {
    var lock, close := Work(Lock(0, {})), Close(1, job);
    var l1 := After(u, l, lock);
    assert l1.state.workers[0].phase.Exited?;
    HistoryCons(u, l1, close, []);
    HistoryCons(u, l, lock, [close] + []);
    events := [lock] + ([close] + []);
  }

  /** A worker process is run on a job that has just been submitted, finds no row and sets it COMPLETED; then the
      service dies. From every fresh system and for every input that is not empty, the job is COMPLETED for good with no
      row. */
  lemma CompletedWithNothing(u: Setup, l0: System, job: JobId) returns (events: seq<Event>)
    requires Fresh(l0) && u.inputs(job) != []
    ensures History(u, l0, events)
    ensures var l := Reached(u, l0, events); l.state.rows == [] && LostInput(u, l, job)
  {
    var a := SubmitAttach(u, l0, job);
    var b := LockClose(u, Reached(u, l0, a), job);
    HistoryConcat(u, l0, a, b);
    FreshInv(u, l0);
    HistoryInv(u, l0, a + b);
    var rest := CrashAll(u, Reached(u, l0, a + b), job);
    HistoryConcat(u, l0, a + b, rest);
    events := a + b + rest;
    NobodyLeft(Reached(u, l0, events), job);
    NothingIngested(u, job);
  }

  lemma NobodyLeft(l: System, job: JobId)
    requires TasksOn(l, job) == {} && job in l.jobs && l.jobs[job].Completed?
    ensures Settled(l, job)
  {
    assert forall t <- l.execs :: t.job == job ==> t in TasksOn(l, job);
  }
}
