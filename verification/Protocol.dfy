/** The lease protocol between workers, queue and storage, as one transition system.

    A claim is one statement that locks rows before it changes them, so it takes two
    steps here: Lock (SELECT ... FOR UPDATE SKIP LOCKED) and Commit. All other statements
    are single steps; one that would touch a locked row has to wait for the lock. */
module Protocol {
  import opened Domain
  import opened QueueTable
  import opened Retry

  datatype Config = Config(size: nat, ttl: nat, maxAttempts: nat)

  /** Where a worker is in its claim, process, write, complete loop. */
  datatype Phase =
    | Idle
    | Locking(ids: seq<nat>)
    | Processing(chunk: seq<ClaimedItem>)
    | Ready(chunk: seq<ClaimedItem>, results: seq<ResultRecord>)
    | Written(chunk: seq<ClaimedItem>, results: seq<ResultRecord>, ref: ChunkRef)
    | Exited
    | Dead

  /** `last` is when the current lease was taken or renewed, `done` when processing ended. */
  datatype Worker = Worker(job: JobId, phase: Phase, claims: nat, last: Time, done: Time)

  datatype StoredChunk = StoredChunk(ref: ChunkRef, records: seq<ResultRecord>)

  /** A delivery: the n-th claim of a worker. */
  datatype Token = Token(worker: WorkerId, claim: nat)

  /** `claims` and `writes` are history: which deliveries took, and which stored, each row. */
  datatype State = State(
    now: Time,
    rows: seq<Row>,
    locks: map<nat, WorkerId>,
    store: seq<StoredChunk>,
    workers: map<WorkerId, Worker>,
    claims: seq<set<Token>>,
    writes: seq<set<Token>>)

  /** One row's calls: the outcomes the endpoint would give and the measured latency. */
  datatype RowRun = RowRun(outcomes: seq<Outcome>, latency: nat)

  datatype Step =
    | Tick(d: nat)
    | Insert(job: JobId, items: seq<PromptItem>, failed: seq<string>)
    | Spawn(pool: set<WorkerId>, job: JobId)
    | Lock(w: WorkerId, busy: set<nat>)
    | Commit(w: WorkerId, order: seq<nat>)
    | Renew(w: WorkerId)
    | Finish(w: WorkerId, runs: seq<RowRun>)
    | Write(w: WorkerId, chunkId: nat)
    | Complete(w: WorkerId)
    | Crash(ws: set<WorkerId>)

  predicate Alive(phase: Phase) {
    !phase.Exited? && !phase.Dead?
  }

  predicate Holding(phase: Phase) {
    phase.Processing? || phase.Ready? || phase.Written?
  }

  /** The rows a worker has in memory. */
  function ChunkOf(phase: Phase): seq<ClaimedItem> {
    match phase
    case Processing(chunk) => chunk
    case Ready(chunk, _) => chunk
    case Written(chunk, _, _) => chunk
    case _ => []
  }

  predicate HoldsRow(phase: Phase, i: nat) {
    exists k :: 0 <= k < |ChunkOf(phase)| && ChunkOf(phase)[k].id == i
  }

  predicate LiveWorker(s: State, w: WorkerId) {
    w in s.workers && Alive(s.workers[w].phase)
  }

  /** No row of `w` is locked by somebody's claim. */
  predicate Unblocked(s: State, w: WorkerId) {
    forall i <- s.locks :: i < |s.rows| ==> !Owned(s.rows[i], w)
  }

  predicate FreshRef(s: State, ref: ChunkRef) {
    forall c :: 0 <= c < |s.store| ==> s.store[c].ref != ref
  }

  /** The same ids without repetition, in any order. */
  predicate Permutes(order: seq<nat>, ids: seq<nat>) {
    && |order| == |ids|
    && (forall i <- order :: i in ids) && (forall i <- ids :: i in order)
    && (forall k, l :: 0 <= k < l < |order| ==> order[k] != order[l])
  }

  predicate Enabled(c: Config, s: State, step: Step) {
    match step
    case Tick(_) => true
    case Insert(_, _, _) => true
    case Spawn(pool, _) => pool !! s.workers.Keys
    case Lock(w, busy) =>
      // rows whose owner may be in the middle of a renewal or completion are skipped too
      && w in s.workers && s.workers[w].phase.Idle?
      && forall i <- busy :: i < |s.rows| && s.rows[i].status.Claimed? && s.rows[i].workerId.Some?
                             && LiveWorker(s, s.rows[i].workerId.value)
    case Commit(w, order) =>
      && w in s.workers && s.workers[w].phase.Locking?
      && Permutes(order, s.workers[w].phase.ids)
      && forall k :: 0 <= k < |order| ==> order[k] < |s.rows|
    case Renew(w) =>
      w in s.workers && s.workers[w].phase.Processing? && Unblocked(s, w)
    case Finish(w, runs) =>
      && w in s.workers && s.workers[w].phase.Processing?
      && |runs| == |s.workers[w].phase.chunk|
      && forall k :: 0 <= k < |runs| ==> c.maxAttempts <= |runs[k].outcomes|
    case Write(w, chunkId) =>
      && w in s.workers && s.workers[w].phase.Ready?
      && FreshRef(s, ChunkRef(s.workers[w].job, chunkId))
    case Complete(w) =>
      w in s.workers && s.workers[w].phase.Written? && Unblocked(s, w)
    case Crash(ws) =>
      forall w <- ws :: LiveWorker(s, w)
  }

  // ------------------------------------------------------------------- steps

  function AddToken(h: seq<set<Token>>, ids: set<nat>, t: Token): seq<set<Token>> {
    seq(|h|, i requires 0 <= i < |h| => if i in ids then h[i] + {t} else h[i])
  }

  function Grow(h: seq<set<Token>>, n: nat): seq<set<Token>> {
    if |h| >= n then h else h + seq(n - |h|, i => {})
  }

  function AfterInsert(s: State, job: JobId, items: seq<PromptItem>, failed: seq<string>): State {
    var rows := InsertRows(s.rows, NewRows(job, items, failed));
    s.(rows := rows, claims := Grow(s.claims, |rows|), writes := Grow(s.writes, |rows|))
  }

  function AfterSpawn(s: State, pool: set<WorkerId>, job: JobId): State {
    s.(workers := s.workers + map w | w in pool :: Worker(job, Idle, 0, s.now, s.now))
  }

  function Selected(c: Config, s: State, w: WorkerId, busy: set<nat>): seq<nat>
    requires w in s.workers
  {
    Select(s.rows, s.workers[w].job, s.now, c.size, s.locks.Keys + busy)
  }

  /** An empty selection makes the worker leave its loop for good. */
  function AfterLock(c: Config, s: State, w: WorkerId, busy: set<nat>): State
    requires w in s.workers
  {
    var ids := Selected(c, s, w, busy);
    if ids == [] then s.(workers := s.workers[w := s.workers[w].(phase := Exited)])
    else s.(workers := s.workers[w := s.workers[w].(phase := Locking(ids), last := s.now)],
            locks := s.locks + map i | i in ids :: w)
  }

  function IdSet(ids: seq<nat>): set<nat> {
    set i | i in ids
  }

  function ChunkIds(chunk: seq<ClaimedItem>): set<nat> {
    set k | 0 <= k < |chunk| :: chunk[k].id
  }

  /** The lease runs from the start of the claiming transaction, as `now()` does. */
  function AfterCommit(c: Config, s: State, w: WorkerId, order: seq<nat>): State
    requires Enabled(c, s, Commit(w, order))
  {
    var wk := s.workers[w];
    var rows := ClaimRows(s.rows, IdSet(order), w, wk.last + c.ttl);
    s.(rows := rows,
       locks := s.locks - IdSet(order),
       claims := AddToken(s.claims, IdSet(order), Token(w, wk.claims + 1)),
       workers := s.workers[w := wk.(phase := Processing(Items(rows, order)), claims := wk.claims + 1)])
  }

  function AfterRenew(c: Config, s: State, w: WorkerId): State
    requires w in s.workers
  {
    s.(rows := RenewRows(s.rows, w, s.now + c.ttl), workers := s.workers[w := s.workers[w].(last := s.now)])
  }

  /** The gathered records, in the order of the chunk. */
  function Results(max: nat, chunk: seq<ClaimedItem>, runs: seq<RowRun>): seq<ResultRecord>
    requires |runs| == |chunk| && forall k :: 0 <= k < |runs| ==> max <= |runs[k].outcomes|
  {
    seq(|chunk|, k requires 0 <= k < |chunk| =>
      RowResult(chunk[k].externalId, runs[k].outcomes, max, runs[k].latency))
  }

  function AfterFinish(c: Config, s: State, w: WorkerId, runs: seq<RowRun>): State
    requires Enabled(c, s, Finish(w, runs))
  {
    var wk := s.workers[w];
    s.(workers := s.workers[w := wk.(
      phase := Ready(wk.phase.chunk, Results(c.maxAttempts, wk.phase.chunk, runs)), done := s.now)])
  }

  function AfterWrite(s: State, w: WorkerId, chunkId: nat): State
    requires w in s.workers && s.workers[w].phase.Ready?
  {
    var wk := s.workers[w];
    var ref := ChunkRef(wk.job, chunkId);
    s.(store := s.store + [StoredChunk(ref, wk.phase.results)],
       writes := AddToken(s.writes, ChunkIds(wk.phase.chunk), Token(w, wk.claims)),
       workers := s.workers[w := wk.(phase := Written(wk.phase.chunk, wk.phase.results, ref))])
  }

  function AfterComplete(s: State, w: WorkerId): State
    requires w in s.workers && s.workers[w].phase.Written?
  {
    var wk := s.workers[w];
    s.(rows := CompleteRows(s.rows, w, wk.phase.results, wk.phase.ref),
       workers := s.workers[w := wk.(phase := Idle)])
  }

  /** Dead workers are gone for good; the database drops the locks of their open claims. */
  function AfterCrash(s: State, ws: set<WorkerId>): State {
    s.(workers := map w | w in s.workers :: if w in ws then s.workers[w].(phase := Dead) else s.workers[w],
       locks := map i | i in s.locks && s.locks[i] !in ws :: s.locks[i])
  }

  function Next(c: Config, s: State, step: Step): State
    requires Enabled(c, s, step)
  {
    match step
    case Tick(d) => s.(now := s.now + d)
    case Insert(job, items, failed) => AfterInsert(s, job, items, failed)
    case Spawn(pool, job) => AfterSpawn(s, pool, job)
    case Lock(w, busy) => AfterLock(c, s, w, busy)
    case Commit(w, order) => AfterCommit(c, s, w, order)
    case Renew(w) => AfterRenew(c, s, w)
    case Finish(w, runs) => AfterFinish(c, s, w, runs)
    case Write(w, chunkId) => AfterWrite(s, w, chunkId)
    case Complete(w) => AfterComplete(s, w)
    case Crash(ws) => AfterCrash(s, ws)
  }

  // -------------------------------------------------------------------- runs

  predicate Initial(s: State) {
    s.rows == [] && s.locks == map[] && s.store == [] && s.workers == map[] && s.claims == [] && s.writes == []
  }

  predicate Valid(c: Config, s: State, steps: seq<Step>)
    decreases |steps|
  {
    steps == [] || (Enabled(c, s, steps[0]) && Valid(c, Next(c, s, steps[0]), steps[1..]))
  }

  function Final(c: Config, s: State, steps: seq<Step>): State
    requires Valid(c, s, steps)
    decreases |steps|
  {
    if steps == [] then s else Final(c, Next(c, s, steps[0]), steps[1..])
  }

  lemma RunCons(c: Config, s: State, step: Step, rest: seq<Step>)
    requires Enabled(c, s, step) && Valid(c, Next(c, s, step), rest)
    ensures Valid(c, s, [step] + rest) && Final(c, s, [step] + rest) == Final(c, Next(c, s, step), rest)
  {
    assert ([step] + rest)[1..] == rest;
  }

  /** A run followed by a run is a run. */
  lemma {:induction false} RunConcat(c: Config, s: State, a: seq<Step>, b: seq<Step>)
    requires Valid(c, s, a) && Valid(c, Final(c, s, a), b)
    ensures Valid(c, s, a + b) && Final(c, s, a + b) == Final(c, Final(c, s, a), b)
    decreases |a|
  {
    if a == [] {
      assert a + b == b;
    } else {
      assert (a + b)[1..] == a[1..] + b;
      RunConcat(c, Next(c, s, a[0]), a[1..], b);
    }
  }

  lemma Run3(c: Config, s: State, s1: State, s2: State, a: Step, b: Step, d: Step)
    requires Enabled(c, s, a) && Next(c, s, a) == s1
    requires Enabled(c, s1, b) && Next(c, s1, b) == s2
    requires Enabled(c, s2, d)
    ensures Valid(c, s, [a, b, d]) && Final(c, s, [a, b, d]) == Next(c, s2, d)
  {
    RunCons(c, s2, d, []);
    RunCons(c, s1, b, [d]);
    RunCons(c, s, a, [b, d]);
    assert [d] + [] == [d] && [b] + [d] == [b, d] && [a] + [b, d] == [a, b, d];
  }
}
