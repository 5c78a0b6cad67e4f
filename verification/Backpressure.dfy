/** The concurrency limiter shared by the rows of all workers, and how many rows are in memory at once. */
module Backpressure {
  import opened Sets
  import opened Domain
  import opened Retry
  import opened Protocol
  import opened Invariant
  import Engine

  type TaskId = nat

  /** The life of one row's coroutine: gathered, admitted by the semaphore, calling or backing off, past its `finally`,
      and out of the semaphore again. */
  datatype Stage = Waiting | Admitted | Calling | Sleeping | Left | Finished

  predicate HoldsPermit(stage: Stage) {
    !stage.Waiting? && !stage.Finished?
  }

  /** INFLIGHT is raised at the start of a row and lowered in its `finally`. */
  predicate InFlight(stage: Stage) {
    stage.Calling? || stage.Sleeping?
  }

  datatype Load = Load(free: nat, stages: map<TaskId, Stage>, inflight: int)

  datatype Move =
    | Gather(t: TaskId)
    | Acquire(t: TaskId)
    | Enter(t: TaskId)
    | BackOff(t: TaskId)
    | Wake(t: TaskId)
    | Leave(t: TaskId)
    | Release(t: TaskId)
    | Cancel(t: TaskId)

  predicate At(l: Load, t: TaskId, stage: Stage) {
    t in l.stages && l.stages[t] == stage
  }

  /** A row leaves from a call (success, failure, exception) or, when cancelled, out of its back-off. */
  predicate CanMove(l: Load, m: Move) {
    match m
    case Gather(t) => t !in l.stages
    case Acquire(t) => At(l, t, Waiting) && l.free > 0
    case Enter(t) => At(l, t, Admitted)
    case BackOff(t) => At(l, t, Calling)
    case Wake(t) => At(l, t, Sleeping)
    case Leave(t) => At(l, t, Calling) || At(l, t, Sleeping)
    case Release(t) => At(l, t, Left)
    case Cancel(t) => At(l, t, Waiting)
  }

  function Moved(l: Load, m: Move): Load
    requires CanMove(l, m)
  {
    match m
    case Gather(t) => l.(stages := l.stages[t := Waiting])
    case Acquire(t) => l.(free := l.free - 1, stages := l.stages[t := Admitted])
    case Enter(t) => l.(stages := l.stages[t := Calling], inflight := l.inflight + 1)
    case BackOff(t) => l.(stages := l.stages[t := Sleeping])
    case Wake(t) => l.(stages := l.stages[t := Calling])
    case Leave(t) => l.(stages := l.stages[t := Left], inflight := l.inflight - 1)
    case Release(t) => l.(free := l.free + 1, stages := l.stages[t := Finished])
    case Cancel(t) => l.(stages := l.stages[t := Finished])
  }

  predicate CanRun(l: Load, moves: seq<Move>)
    decreases |moves|
  {
    moves == [] || (CanMove(l, moves[0]) && CanRun(Moved(l, moves[0]), moves[1..]))
  }

  function Ran(l: Load, moves: seq<Move>): Load
    requires CanRun(l, moves)
    decreases |moves|
  {
    if moves == [] then l else Ran(Moved(l, moves[0]), moves[1..])
  }

  function Holders(l: Load): set<TaskId> {
    set t | t in l.stages && HoldsPermit(l.stages[t])
  }

  function Flying(l: Load): set<TaskId> {
    set t | t in l.stages && InFlight(l.stages[t])
  }

  ghost predicate Balanced(l: Load, max: nat) {
    l.free + |Holders(l)| == max && l.inflight == |Flying(l)|
  }

  lemma MoveSets(l: Load, m: Move)
    requires CanMove(l, m)
    ensures Holders(Moved(l, m)) ==
            if m.Acquire? then Holders(l) + {m.t} else if m.Release? then Holders(l) - {m.t} else Holders(l)
    ensures Flying(Moved(l, m)) == if m.Enter? then Flying(l) + {m.t} else if m.Leave? then Flying(l) - {m.t}
            else Flying(l)
    ensures m.Acquire? ==> m.t !in Holders(l)
    ensures m.Release? ==> m.t in Holders(l)
    ensures m.Enter? ==> m.t !in Flying(l)
    ensures m.Leave? ==> m.t in Flying(l)
  {}

  lemma BalancedStep(l: Load, m: Move, max: nat)
    requires CanMove(l, m) && Balanced(l, max)
    ensures Balanced(Moved(l, m), max)
  {
    MoveSets(l, m);
  }

  /** Free and held permits always add up to the limit; INFLIGHT is exactly the rows inside a call or its back-off, so
      it never exceeds the held permits or the limit, and when the last row is through, all permits are back. */
  lemma {:induction false} PermitsConserved(l: Load, moves: seq<Move>, max: nat)
    requires CanRun(l, moves) && Balanced(l, max)
    ensures var r := Ran(l, moves);
            && r.free + |Holders(r)| == max && r.inflight == |Flying(r)|
            && 0 <= r.inflight <= |Holders(r)| <= max
            && (Holders(r) == {} ==> r.free == max && r.inflight == 0)
    decreases |moves|
  {
    if moves == [] {
      SubsetSize(Flying(l), Holders(l));
    } else {
      BalancedStep(l, moves[0], max);
      PermitsConserved(Moved(l, moves[0]), moves[1..], max);
    }
  }

  // ------------------------------------------------------------ the limiter

  /** The semaphore. `held` is ghost: the rows that have a permit. */
  class ConcurrencyLimiter {
    const max: nat
    var free: nat
    ghost var held: set<TaskId>

    ghost predicate Valid()
      reads this
    {
      max >= 1 && free + |held| == max
    }

    constructor (max: nat)
      requires max >= 1
      ensures Valid() && this.max == max && free == max && held == {}
    {
      this.max, free, held := max, max, {};
    }

    /** A limit below one is refused. */
    static method Create(max: int) returns (limiter: ConcurrencyLimiter?)
      ensures limiter == null <==> max < 1
      ensures limiter != null ==> fresh(limiter) && limiter.Valid() && limiter.max == max && limiter.held == {}
    {
      if max < 1 {
        return null;
      }
      limiter := new ConcurrencyLimiter(max);
    }

    /** Takes a permit, unless all are held; then the caller has to wait. */
    method Enter(t: TaskId) returns (admitted: bool)
      requires Valid() && t !in held
      modifies this
      ensures Valid() && admitted == (|old(held)| < max)
      ensures held == if admitted then old(held) + {t} else old(held)
    {
      if free == 0 {
        return false;
      }
      free, held, admitted := free - 1, held + {t}, true;
    }

    method Exit(t: TaskId)
      requires Valid() && t in held
      modifies this
      ensures Valid() && held == old(held) - {t}
    {
      free, held := free + 1, held - {t};
    }

    /** One row under the limiter: the record of its retry loop, and permits and INFLIGHT as before on every exit;
        None while no permit is free. */
    method Run(t: TaskId, item: ClaimedItem, policy: Policy, calls: seq<Outcome>, draws: seq<real>, latency: nat,
               metrics: Engine.Metrics) returns (record: Option<ResultRecord>)
      requires Valid() && t !in held && policy.maxAttempts <= |calls| && policy.maxAttempts <= |draws|
      modifies this, metrics
      ensures Valid() && held == old(held) && free == old(free) && metrics.inflight == old(metrics.inflight)
      ensures record == if |held| < max then Some(RowResult(item.externalId, calls, policy.maxAttempts, latency))
              else None
    {
      var admitted := Enter(t);
      if !admitted {
        return None;
      }
      var r, _ := Engine.ProcessRow(item, policy, calls, draws, latency, metrics);
      Exit(t);
      record := Some(r);
    }
  }

  // ----------------------------------------------------------- rows in memory

  /** How many rows the workers of a pool have in memory. */
  ghost function Resident(s: State, pool: set<WorkerId>): nat
    requires pool <= s.workers.Keys
    decreases |pool|
  {
    if pool == {} then 0
    else
      var w :| w in pool;
      |ChunkOf(s.workers[w].phase)| + Resident(s, pool - {w})
  }

  lemma OneMoreChunk(n: nat, size: nat)
    ensures (n + 1) * size == n * size + size
  {}

  lemma {:induction false} ResidentBound(c: Config, s: State, pool: set<WorkerId>)
    requires Inv(c, s) && pool <= s.workers.Keys
    ensures Resident(s, pool) <= |pool| * c.size
    decreases |pool|
  {
    if pool != {} {
      var w :| w in pool && Resident(s, pool) == |ChunkOf(s.workers[w].phase)| + Resident(s, pool - {w});
      assert |ChunkOf(s.workers[w].phase)| <= c.size by { assert WorkerOk(c, s, w); }
      ResidentBound(c, s, pool - {w});
      OneMoreChunk(|pool - {w}|, c.size);
    }
  }

  /** In every reachable state a pool has at most pool size times chunk size rows in memory. */
  lemma MemoryBounded(c: Config, s: State, steps: seq<Step>, pool: set<WorkerId>)
    requires Inv(c, s) && Valid(c, s, steps) && pool <= Final(c, s, steps).workers.Keys
    ensures Resident(Final(c, s, steps), pool) <= |pool| * c.size
  {
    RunInv(c, s, steps);
    ResidentBound(c, Final(c, s, steps), pool);
  }
}
