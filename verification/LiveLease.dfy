/** Why the leases must have expired and no other worker may be alive: histories in which a job becomes COMPLETED with a
    row unfinished. */
module LiveLease {
  import opened Domain
  import opened QueueTable
  import opened Protocol
  import opened Completion
  import opened Lossless
  import opened Ingest
  import opened Flushing
  import opened Lifecycle
  import opened Recovery
  import opened ResumeExact

  const ITEM := PromptItem("a", "p")
  const PENDING_ROW := PendingRow(0, ITEM)

  /** One input row, chunks of one, one row per insert. */
  function OneRow(ttl: nat, max: nat): Setup {
    Setup(Config(1, ttl, max), 1, (_: JobId) => [Accepted(ITEM)])
  }

  function ClaimedRow(ttl: nat): Row {
    PENDING_ROW.(status := Claimed, workerId := Some(0), leaseUntil := Some(ttl), attempts := 1)
  }

  /** The one task. */
  const MINE := Task(0, 0)

  function Sys(s: State, job: JobState, exec: map<Task, Exec>, flushed: map<JobId, nat>): System {
    System(s, map[0 := job], exec, map w | w in s.workers :: 0, flushed, {MINE}, {})
  }

  function Wk(phase: Phase, claims: nat): Worker {
    Worker(0, phase, claims, 0, 0)
  }

  function Tbl(rows: seq<Row>, locks: map<nat, WorkerId>, workers: map<WorkerId, Worker>, tokens: set<Token>): State {
    State(0, rows, locks, [], workers, seq(|rows|, i => tokens), seq(|rows|, i => {}))
  }

  ghost predicate Leads(u: Setup, l: System, e: Event, l': System) {
    Possible(u, l, e) && After(u, l, e) == l'
  }

  lemma Then(u: Setup, l: System, e: Event, l1: System, events: seq<Event>, l2: System)
    requires Leads(u, l, e, l1) && History(u, l1, events) && Reached(u, l1, events) == l2
    ensures History(u, l, [e] + events) && Reached(u, l, [e] + events) == l2
  {
    assert ([e] + events)[1..] == events;
  }

  lemma Three(u: Setup, l: System, l1: System, l2: System, l3: System, e: Event, f: Event, g: Event)
    requires Leads(u, l, e, l1) && Leads(u, l1, f, l2) && Leads(u, l2, g, l3)
    ensures History(u, l, [e, f, g]) && Reached(u, l, [e, f, g]) == l3
  {
    Then(u, l2, g, l3, [], l3);
    Then(u, l1, f, l2, [g], l3);
    Then(u, l, e, l1, [f, g], l3);
    assert [g] + [] == [g] && [f] + [g] == [f, g] && [e] + [f, g] == [e, f, g];
  }

  lemma BatchIs(u: Setup, ttl: nat, max: nat)
    requires u == OneRow(ttl, max)
    ensures FlushCount(u, 0) == 1
    ensures var b := BatchAt(u.inputs(0), u.batch, 0); NewRows(0, ItemsOf(b), FailedOf(b)) == [PENDING_ROW]
  {
    var e := [Accepted(ITEM)];
    assert e[..1] == e && e[1..] == [];
    assert Flushes(1, 1) == 1 + Flushes(0, 1);
    assert ItemsOf(e) == [ITEM] && FailedOf(e) == [];
  }

  // ------------------------------------------------------- the first execution

  function Empty(): State {
    Tbl([], map[], map[], {})
  }

  lemma Submitted(u: Setup, l0: System)
    requires Fresh(l0) && l0.state.now == 0
    ensures Leads(u, l0, Submit(0, 0), Sys(Empty(), JobPending, map[MINE := Started], map[]))
  {}

  lemma Begun(u: Setup, s: State, job: JobState, flushed: map<JobId, nat>)
    ensures Leads(u, Sys(s, job, map[MINE := Started], flushed), Begin(0, 0),
                  Sys(s, Ingesting, map[MINE := Loading(0)], flushed))
  {}

  lemma FirstFlush(u: Setup, ttl: nat, max: nat)
    requires u == OneRow(ttl, max)
    ensures Leads(u, Sys(Empty(), Ingesting, map[MINE := Loading(0)], map[]), Flush(0, 0),
                  Sys(Tbl([PENDING_ROW], map[], map[], {}), Ingesting, map[MINE := Loading(1)], map[0 := 1]))
  {
    BatchIs(u, ttl, max);
    var b := BatchAt(u.inputs(0), u.batch, 0);
    FirstInsert(ItemsOf(b), FailedOf(b));
  }

  lemma FirstInsert(items: seq<PromptItem>, failed: seq<string>)
    requires NewRows(0, items, failed) == [PENDING_ROW]
    ensures AfterInsert(Empty(), 0, items, failed) == Tbl([PENDING_ROW], map[], map[], {})
  {
    var new_, none: seq<Row> := [PENDING_ROW], [];
    assert new_[1..] == [] && InsertRows(none, new_) == [PENDING_ROW];
    assert Grow(Empty().claims, 1) == [{}] && Grow(Empty().writes, 1) == [{}];
  }

  lemma FirstStart(u: Setup, ttl: nat, max: nat)
    requires u == OneRow(ttl, max)
    ensures Leads(u, Sys(Tbl([PENDING_ROW], map[], map[], {}), Ingesting, map[MINE := Loading(1)], map[0 := 1]),
                  Start(0, 0, {0}),
                  Sys(Tbl([PENDING_ROW], map[], map[0 := Wk(Idle, 0)], {}), Running,
                      map[MINE := Draining({0}, {}, true, true, false)],
                      map[0 := 1]))
  {
    BatchIs(u, ttl, max);
    SpawnsOne(u.config);
    assert DeadWorkers(Tbl([PENDING_ROW], map[], map[], {}), 0) == {};
  }

  lemma SpawnsOne(c: Config)
    ensures Enabled(c, Tbl([PENDING_ROW], map[], map[], {}), Spawn({0}, 0))
    ensures Next(c, Tbl([PENDING_ROW], map[], map[], {}), Spawn({0}, 0))
            == Tbl([PENDING_ROW], map[], map[0 := Wk(Idle, 0)], {})
  {}

  // ------------------------------------------------------- claim and crash

  lemma Works(u: Setup, s: State, t: State, exec: map<Task, Exec>, step: Step)
    requires WorkerStep(step) && Enabled(u.config, s, step) && Next(u.config, s, step) == t
    requires t.workers.Keys == s.workers.Keys
    ensures Leads(u, Sys(s, Running, exec, map[0 := 1]), Work(step), Sys(t, Running, exec, map[0 := 1]))
  {}

  lemma Locks(c: Config, s: State, t: State)
    requires c.size == 1
    requires s == Tbl([PENDING_ROW], map[], map[0 := Wk(Idle, 0)], {})
    requires t == Tbl([PENDING_ROW], map[0 := 0], map[0 := Wk(Locking([0]), 0)], {})
    ensures Enabled(c, s, Lock(0, {})) && Next(c, s, Lock(0, {})) == t
  {
    var none: map<nat, WorkerId> := map[];
    SelectOne(PENDING_ROW, 0, 0, 1, none.Keys + {});
    assert (map i | i in [0] :: 0) == map[0 := 0];
  }

  function Chunk(ttl: nat): seq<ClaimedItem> {
    [ItemOf(ClaimedRow(ttl), 0)]
  }

  lemma Commits(c: Config, s: State, t: State)
    requires c.size == 1
    requires s == Tbl([PENDING_ROW], map[0 := 0], map[0 := Wk(Locking([0]), 0)], {})
    requires t == Tbl([ClaimedRow(c.ttl)], map[], map[0 := Wk(Processing(Chunk(c.ttl)), 1)], {Token(0, 1)})
    ensures Enabled(c, s, Commit(0, [0])) && Next(c, s, Commit(0, [0])) == t
  {
    assert IdSet([0]) == {0};
    assert ClaimRows(s.rows, {0}, 0, c.ttl) == [ClaimedRow(c.ttl)];
    assert s.claims[0] + {Token(0, 1)} == {Token(0, 1)};
    assert AddToken(s.claims, {0}, Token(0, 1)) == [{Token(0, 1)}];
    assert Items([ClaimedRow(c.ttl)], [0]) == Chunk(c.ttl);
    assert s.locks - {0} == map[];
    assert t.claims == [{Token(0, 1)}] && t.writes == s.writes;
    assert AfterCommit(c, s, 0, [0]) == t;
  }

  lemma Dies(u: Setup, ttl: nat, exec: map<Task, Exec>)
    requires exec.Keys == {MINE}
    ensures Leads(u, Sys(Tbl([ClaimedRow(ttl)], map[], map[0 := Wk(Processing(Chunk(ttl)), 1)], {Token(0, 1)}),
                         Running, exec, map[0 := 1]), Restart(0),
                  Sys(Tbl([ClaimedRow(ttl)], map[], map[0 := Wk(Dead, 1)], {Token(0, 1)}), Running, map[], map[0 := 1]))
  {
    var l := Sys(Tbl([ClaimedRow(ttl)], map[], map[0 := Wk(Processing(Chunk(ttl)), 1)], {Token(0, 1)}), Running, exec,
                 map[0 := 1]);
    assert WorkersOf(l, 0) == {0};
    assert (map t | t in exec && t.process != 0 :: exec[t]) == map[];
  }

  // ------------------------------------------------------- the second execution

  function Left(ttl: nat): State {
    Tbl([ClaimedRow(ttl)], map[], map[0 := Wk(Dead, 1)], {Token(0, 1)})
  }

  lemma Resumes(u: Setup, s: State)
    ensures Leads(u, Sys(s, Running, map[], map[0 := 1]), Resume(0, 0),
                  Sys(s, Running, map[MINE := Started], map[0 := 1]))
  {}

  /** The second ingest finds its row there. */
  lemma SecondFlush(u: Setup, ttl: nat, max: nat)
    requires u == OneRow(ttl, max)
    ensures Leads(u, Sys(Left(ttl), Ingesting, map[MINE := Loading(0)], map[0 := 1]), Flush(0, 0),
                  Sys(Left(ttl), Ingesting, map[MINE := Loading(1)], map[0 := 1]))
  {
    BatchIs(u, ttl, max);
    var new_ := [PENDING_ROW];
    assert Left(ttl).rows[0].externalId == "a" && HasKey(Left(ttl).rows, 0, "a");
    assert new_[1..] == [] && InsertRows(Left(ttl).rows, new_) == Left(ttl).rows;
  }

  // ------------------------------------------------------- the whole history

  lemma JoinThree(u: Setup, l: System, l1: System, l2: System, l3: System, a: seq<Event>, b: seq<Event>, d: seq<Event>)
    requires History(u, l, a) && Reached(u, l, a) == l1 && History(u, l1, b) && Reached(u, l1, b) == l2
    requires History(u, l2, d) && Reached(u, l2, d) == l3
    ensures History(u, l, a + b + d) && Reached(u, l, a + b + d) == l3
  {
    HistoryConcat(u, l, a, b);
    HistoryConcat(u, l, a + b, d);
  }

  lemma FirstThree(u: Setup, ttl: nat, max: nat, l0: System) returns (events: seq<Event>)
    requires u == OneRow(ttl, max) && Fresh(l0) && l0.state.now == 0
    ensures History(u, l0, events)
            && Reached(u, l0, events) == Sys(Tbl([PENDING_ROW], map[], map[], {}), Ingesting, map[MINE := Loading(1)],
                                             map[0 := 1])
  {
    Submitted(u, l0);
    Begun(u, Empty(), JobPending, map[]);
    FirstFlush(u, ttl, max);
    Three(u, l0, Sys(Empty(), JobPending, map[MINE := Started], map[]),
          Sys(Empty(), Ingesting, map[MINE := Loading(0)], map[]),
          Sys(Tbl([PENDING_ROW], map[], map[], {}), Ingesting, map[MINE := Loading(1)], map[0 := 1]), Submit(0, 0),
              Begin(0, 0),
          Flush(0, 0));
    events := [Submit(0, 0), Begin(0, 0), Flush(0, 0)];
  }

  lemma WorkTwice(u: Setup, s1: State, s2: State, s3: State, exec: map<Task, Exec>, a: Step, b: Step, e: Event,
                  l: System)
    returns (events: seq<Event>)
    requires WorkerStep(a) && Enabled(u.config, s1, a) && Next(u.config, s1, a) == s2
    requires WorkerStep(b) && Enabled(u.config, s2, b) && Next(u.config, s2, b) == s3
    requires s1.workers.Keys == s2.workers.Keys == s3.workers.Keys
    requires Leads(u, Sys(s3, Running, exec, map[0 := 1]), e, l)
    ensures History(u, Sys(s1, Running, exec, map[0 := 1]), events)
    ensures Reached(u, Sys(s1, Running, exec, map[0 := 1]), events) == l
  {
    Works(u, s1, s2, exec, a);
    Works(u, s2, s3, exec, b);
    Three(u, Sys(s1, Running, exec, map[0 := 1]), Sys(s2, Running, exec, map[0 := 1]),
          Sys(s3, Running, exec, map[0 := 1]), l, Work(a), Work(b), e);
    events := [Work(a), Work(b), e];
  }

  lemma ClaimedAndDies(u: Setup, ttl: nat, max: nat, exec: map<Task, Exec>) returns (events: seq<Event>)
    requires u == OneRow(ttl, max) && exec.Keys == {MINE}
    ensures var l := Sys(Tbl([PENDING_ROW], map[], map[0 := Wk(Idle, 0)], {}), Running, exec, map[0 := 1]);
            History(u, l, events) && Reached(u, l, events) == Sys(Left(ttl), Running, map[], map[0 := 1])
  {
    var s1 := Tbl([PENDING_ROW], map[], map[0 := Wk(Idle, 0)], {});
    var s2 := Tbl([PENDING_ROW], map[0 := 0], map[0 := Wk(Locking([0]), 0)], {});
    var s3 := Tbl([ClaimedRow(ttl)], map[], map[0 := Wk(Processing(Chunk(ttl)), 1)], {Token(0, 1)});
    Locks(u.config, s1, s2);
    Commits(u.config, s2, s3);
    Dies(u, ttl, exec);
    events := WorkTwice(u, s1, s2, s3, exec, Lock(0, {}), Commit(0, [0]), Restart(0),
                        Sys(Left(ttl), Running, map[], map[0 := 1]));
  }

  lemma NextFour(u: Setup, ttl: nat, max: nat) returns (events: seq<Event>)
    requires u == OneRow(ttl, max)
    ensures var l := Sys(Tbl([PENDING_ROW], map[], map[], {}), Ingesting, map[MINE := Loading(1)], map[0 := 1]);
            && History(u, l, events) && Reached(u, l, events) == Sys(Left(ttl), Running, map[], map[0 := 1])
  {
    FirstStart(u, ttl, max);
    var exec := map[MINE := Draining({0}, {}, true, true, false)];
    var rest := ClaimedAndDies(u, ttl, max, exec);
    Then(u, Sys(Tbl([PENDING_ROW], map[], map[], {}), Ingesting, map[MINE := Loading(1)], map[0 := 1]),
         Start(0, 0, {0}), Sys(Tbl([PENDING_ROW], map[], map[0 := Wk(Idle, 0)], {}), Running, exec, map[0 := 1]), rest,
         Sys(Left(ttl), Running, map[], map[0 := 1]));
    events := [Start(0, 0, {0})] + rest;
  }

  lemma ResumedThree(u: Setup, ttl: nat, max: nat) returns (events: seq<Event>)
    requires u == OneRow(ttl, max)
    ensures var l := Sys(Left(ttl), Running, map[], map[0 := 1]);
            && History(u, l, events)
            && Reached(u, l, events) == Sys(Left(ttl), Ingesting, map[MINE := Loading(1)], map[0 := 1])
  {
    Resumes(u, Left(ttl));
    Begun(u, Left(ttl), Running, map[0 := 1]);
    SecondFlush(u, ttl, max);
    Three(u, Sys(Left(ttl), Running, map[], map[0 := 1]), Sys(Left(ttl), Running, map[MINE := Started], map[0 := 1]),
          Sys(Left(ttl), Ingesting, map[MINE := Loading(0)], map[0 := 1]),
          Sys(Left(ttl), Ingesting, map[MINE := Loading(1)], map[0 := 1]),
          Resume(0, 0), Begin(0, 0), Flush(0, 0));
    events := [Resume(0, 0), Begin(0, 0), Flush(0, 0)];
  }

  /** The job is to be resumed while the lease of the dead worker is live. */
  lemma ToBeResumed(u: Setup, ttl: nat, max: nat, l0: System) returns (events: seq<Event>)
    requires u == OneRow(ttl, max) && Fresh(l0) && l0.state.now == 0
    ensures History(u, l0, events)
    ensures Reached(u, l0, events) == Sys(Left(ttl), Ingesting, map[MINE := Loading(1)], map[0 := 1])
  {
    var a := FirstThree(u, ttl, max, l0);
    var b := NextFour(u, ttl, max);
    var d := ResumedThree(u, ttl, max);
    JoinThree(u, l0, Reached(u, l0, a), Sys(Left(ttl), Running, map[], map[0 := 1]),
              Sys(Left(ttl), Ingesting, map[MINE := Loading(1)], map[0 := 1]), a, b, d);
    events := a + b + d;
  }

  lemma EngineStarts(u: Setup, ttl: nat, max: nat)
    requires u == OneRow(ttl, max)
    ensures var l := Sys(Left(ttl), Ingesting, map[MINE := Loading(1)], map[0 := 1]);
            Possible(u, l, Start(0, 0, {1})) && !LeasesExpired(l.state.rows, 0, l.state.now)
  {
    BatchIs(u, ttl, max);
    assert !Claimable(Left(ttl).rows[0], 0);
  }

  /** With any lease time, if no time passes between the crash and the restart, the resumed job can become COMPLETED
      while its row is still CLAIMED by the dead worker of the crashed process. The queue reports no open work in that
      state: asking it first would not have helped. */
  lemma CompletedWithClaimedRow(ttl: nat, max: nat, l0: System) returns (events: seq<Event>)
    requires Fresh(l0) && l0.state.now == 0
    ensures History(OneRow(ttl, max), l0, events)
    ensures var l := Reached(OneRow(ttl, max), l0, events);
            && 0 in l.jobs && l.jobs[0].Completed? && l.state.rows == [ClaimedRow(ttl)] && 0 in DeadWorkers(l.state, 0)
            && !Eligible(l.state.rows[0], 0, l.state.now)
  {
    var u := OneRow(ttl, max);
    var a := ToBeResumed(u, ttl, max, l0);
    FreshInv(u, l0);
    HistoryInv(u, l0, a);
    EngineStarts(u, ttl, max);
    var b, r := LeaseOutlives(u, Reached(u, l0, a), Start(0, 0, {1}));
    HistoryConcat(u, l0, a, b);
    events := a + b;
    StillClaimed(Reached(u, l0, a), Reached(u, l0, events), ttl, r);
  }

  lemma StillClaimed(l: System, l': System, ttl: nat, r: nat)
    requires CompletedWithout(l, l', 0, r) && 0 in l.jobs && l.state == Left(ttl)
    ensures 0 in l'.jobs && l'.jobs[0].Completed? && l'.state.rows == [ClaimedRow(ttl)] && 0 in DeadWorkers(l'.state, 0)
    ensures !Eligible(l'.state.rows[0], 0, l'.state.now)
  {
    assert r == 0 && 0 in l'.state.workers;
  }

  // ------------------------------------------------------- beside a living worker

  /** A worker process is run on the job before the service starts its engine. */
  lemma Attached(u: Setup, l: System) returns (l': System)
    requires l == Sys(Tbl([PENDING_ROW], map[], map[], {}), Ingesting, map[MINE := Loading(1)], map[0 := 1])
    ensures Leads(u, l, Attach(1, 0, {5}), l') && 0 in l'.jobs
    ensures MINE in l'.execs && l'.execs[MINE] == Loading(1) && l'.state.rows == [PENDING_ROW]
    ensures l'.state.workers.Keys == {5} && l'.state.workers[5] == Wk(Idle, 0)
  {
    l' := After(u, l, Attach(1, 0, {5}));
  }

  lemma Unsafe(u: Setup, ttl: nat, max: nat, l: System)
    requires u == OneRow(ttl, max)
    requires MINE in l.execs && l.execs[MINE] == Loading(1) && l.state.rows == [PENDING_ROW]
    requires l.state.workers.Keys == {5} && l.state.workers[5] == Wk(Idle, 0)
    ensures Possible(u, l, Start(0, 0, {0})) && LeasesExpired(l.state.rows, 0, l.state.now) && !Safe(l.state, 0)
  {
    BatchIs(u, ttl, max);
    assert l.state.rows[0] == PENDING_ROW && 5 in l.state.workers;
  }

  /** No lease is live, yet the job can become COMPLETED with its row unfinished, because a worker process is at it. */
  lemma CompletedBesideWorker(ttl: nat, max: nat, l0: System) returns (events: seq<Event>)
    requires Fresh(l0) && l0.state.now == 0
    ensures History(OneRow(ttl, max), l0, events)
    ensures var l := Reached(OneRow(ttl, max), l0, events);
            0 in l.jobs && l.jobs[0].Completed? && !AllTerminal(l.state.rows, 0)
  {
    var u := OneRow(ttl, max);
    var a := FirstThree(u, ttl, max, l0);
    var l := Reached(u, l0, a);
    var l' := Attached(u, l);
    Unsafe(u, ttl, max, l');
    FreshInv(u, l0);
    HistoryInv(u, l0, a);
    EventInv(u, l, Attach(1, 0, {5}));
    var b := CompletesUnfinished(u, l', Start(0, 0, {0}));
    HistoryCons(u, l, Attach(1, 0, {5}), b);
    HistoryConcat(u, l0, a, [Attach(1, 0, {5})] + b);
    events := a + ([Attach(1, 0, {5})] + b);
  }
}
