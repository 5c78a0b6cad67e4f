/** The two repositories as objects: one method per SQL statement or transaction. */
module Repositories {
  import opened Domain
  import opened QueueTable
  import opened Protocol

  function Ids(chunk: seq<ClaimedItem>): seq<nat> {
    seq(|chunk|, k requires 0 <= k < |chunk| => chunk[k].id)
  }

  /** RETURNING: id, external id, prompt and the number of deliveries including this one. */
  predicate Returns(row: Row, before: Row, item: ClaimedItem) {
    && item.externalId == row.externalId == before.externalId && item.prompt == before.prompt.GetOr("")
    && item.attempts == before.attempts + 1
  }

  /** `prompt_items` and the clock of the database. */
  class WorkQueue {
    var rows: seq<Row>
    var now: Time

    constructor (now: Time)
      ensures rows == [] && this.now == now
    {
      rows, this.now := [], now;
    }

    /** Time passes between statements. */
    method Elapse(d: nat)
      modifies this`now
      ensures now == old(now) + d
    {
      now := now + d;
    }

    /** Accepted items become PENDING rows, rejected ids FAILED ones; existing keys are left alone. */
    method BulkInsert(job: JobId, items: seq<PromptItem>, failed: seq<string>) returns (inserted: nat)
      modifies this`rows
      ensures rows == InsertRows(old(rows), NewRows(job, items, failed))
      ensures inserted == |rows| - |old(rows)|
    {
      var new_: seq<Row> := [];
      for k := 0 to |items|
        invariant |new_| == k && forall i :: 0 <= i < k ==> new_[i] == PendingRow(job, items[i])
      {
        new_ := new_ + [PendingRow(job, items[k])];
      }
      for k := 0 to |failed|
        invariant |new_| == |items| + k
        invariant forall i :: 0 <= i < |items| ==> new_[i] == PendingRow(job, items[i])
        invariant forall i :: 0 <= i < k ==> new_[|items| + i] == RejectedRow(job, failed[i])
      {
        new_ := new_ + [RejectedRow(job, failed[k])];
      }
      assert new_ == NewRows(job, items, failed);
      if new_ == [] {
        return 0;
      }
      inserted := |InsertRows(rows, new_)| - |rows|;
      rows := InsertRows(rows, new_);
    }

    /** The lowest eligible ids, at most `size`, become CLAIMED under `w`; they are returned in some order. */
    method ClaimChunk(job: JobId, w: WorkerId, size: nat, lease: nat) returns (chunk: seq<ClaimedItem>)
      modifies this`rows
      ensures Permutes(Ids(chunk), Select(old(rows), job, now, size, {}))
      ensures rows == ClaimRows(old(rows), IdSet(Ids(chunk)), w, now + lease)
      ensures forall k :: 0 <= k < |chunk| ==>
                chunk[k].id < |rows| && chunk[k] == ItemOf(rows[chunk[k].id], chunk[k].id)
      ensures forall k :: 0 <= k < |chunk| ==> Returns(rows[chunk[k].id], old(rows)[chunk[k].id], chunk[k])
    {
      var ids := Select(rows, job, now, size, {});
      SelectIsSelection(rows, job, now, size, {});
      rows := ClaimRows(rows, IdSet(ids), w, now + lease);
      chunk := Items(rows, ids);
      assert Ids(chunk) == ids;
    }

    /** One statement per record in one transaction; the row counts are added up. */
    method CompleteItems(w: WorkerId, results: seq<ResultRecord>, ref: ChunkRef) returns (count: nat)
      modifies this`rows
      ensures rows == CompleteRows(old(rows), w, results, ref)
      ensures count == |Finalised(old(rows), w, results)|
    {
      CompleteCountIs(rows, w, results, ref);
      if results == [] {
        return 0;
      }
      count := 0;
      for k := 0 to |results|
        invariant CompleteRows(rows, w, results[k..], ref) == CompleteRows(old(rows), w, results, ref)
        invariant count + CompleteCount(rows, w, results[k..], ref) == CompleteCount(old(rows), w, results, ref)
      {
        assert results[k..][0] == results[k] && results[k..][1..] == results[k + 1..];
        count := count + |Touched(rows, w, results[k].externalId)|;
        rows := CompleteOne(rows, w, results[k], ref);
      }
    }

    method RenewLease(w: WorkerId, lease: nat)
      modifies this`rows
      ensures rows == RenewRows(old(rows), w, now + lease)
    {
      rows := RenewRows(rows, w, now + lease);
    }

    /** GROUP BY status: a status without rows has no entry. */
    method CountByStatus(job: JobId) returns (counts: map<Status, nat>)
      ensures forall st :: st in counts <==> exists i :: 0 <= i < |rows| && rows[i].job == job && rows[i].status == st
      ensures forall st <- counts :: counts[st] == |WithStatus(rows, job, st)|
    {
      var present := set i: nat | i < |rows| && rows[i].job == job :: rows[i].status;
      counts := map st | st in present :: |WithStatus(rows, job, st)|;
    }

    /** Whether an uncontended claim of the job, of whatever size, would take a row now. */
    method HasOpenWork(job: JobId) returns (open: bool)
      ensures forall size: nat :: size >= 1 ==> (open <==> Select(rows, job, now, size, {}) != [])
    {
      open := exists i :: 0 <= i < |rows| && Eligible(rows[i], job, now);
      forall size: nat | size >= 1 ensures open <==> Select(rows, job, now, size, {}) != [] {
        OpenWorkIsClaimable(rows, job, now, size);
      }
    }
  }

  /** Open work is what an uncontended claim would find. */
  lemma OpenWorkIsClaimable(rows: seq<Row>, job: JobId, now: Time, size: nat)
    requires size >= 1
    ensures (exists i :: 0 <= i < |rows| && Eligible(rows[i], job, now)) <==> Select(rows, job, now, size, {}) != []
  {
    var ids := Select(rows, job, now, size, {});
    SelectIsSelection(rows, job, now, size, {});
    if i :| 0 <= i < |rows| && Eligible(rows[i], job, now) {
      assert i in ids || |ids| == size;
    }
    if ids != [] { assert Eligible(rows[ids[0]], job, now); }
  }

  function LockedAlone(c: Config, s: State, w: WorkerId): State
    requires w in s.workers
  {
    var ids := Select(s.rows, s.workers[w].job, s.now, c.size, {});
    s.(workers := s.workers[w := s.workers[w].(phase := Locking(ids), last := s.now)], locks := map i | i in ids :: w)
  }

  lemma LockAlone(c: Config, s: State, w: WorkerId)
    requires w in s.workers && s.workers[w].phase.Idle? && s.locks == map[]
    requires Select(s.rows, s.workers[w].job, s.now, c.size, {}) != []
    ensures Enabled(c, s, Lock(w, {})) && Next(c, s, Lock(w, {})) == LockedAlone(c, s, w)
  {
    assert s.locks.Keys + {} == {};
    assert Selected(c, s, w, {}) == Select(s.rows, s.workers[w].job, s.now, c.size, {});
    var ids := Selected(c, s, w, {});
    assert s.locks + (map i | i in ids :: w) == map i | i in ids :: w;
  }

  /** The table, the worker and the locks after one whole claim. */
  ghost predicate ClaimTaken(c: Config, s: State, w: WorkerId, order: seq<nat>, t: State) {
    && t.rows == ClaimRows(s.rows, IdSet(order), w, s.now + c.ttl) && |t.rows| == |s.rows|
    && t.locks == map[] && t.now == s.now && t.store == s.store && t.workers.Keys == s.workers.Keys && w in t.workers
    && (forall k :: 0 <= k < |order| ==> order[k] < |t.rows|) && t.workers[w].phase == Processing(Items(t.rows, order))
    && forall v <- s.workers :: v != w ==> t.workers[v] == s.workers[v]
  }

  lemma PermutedIds(s: State, c: Config, w: WorkerId, order: seq<nat>)
    requires w in s.workers && Permutes(order, Select(s.rows, s.workers[w].job, s.now, c.size, {}))
    ensures forall k :: 0 <= k < |order| ==> order[k] < |s.rows|
    ensures forall i :: i in Select(s.rows, s.workers[w].job, s.now, c.size, {}) ==> i in IdSet(order)
  {
    SelectIsSelection(s.rows, s.workers[w].job, s.now, c.size, {});
    forall k | 0 <= k < |order| ensures order[k] < |s.rows| { assert order[k] in order; }
  }

  lemma CommitAlone(c: Config, s: State, w: WorkerId, order: seq<nat>)
    requires w in s.workers && Permutes(order, Select(s.rows, s.workers[w].job, s.now, c.size, {}))
    ensures Enabled(c, LockedAlone(c, s, w), Commit(w, order))
    ensures ClaimTaken(c, s, w, order, Next(c, LockedAlone(c, s, w), Commit(w, order)))
  {
    PermutedIds(s, c, w, order);
    CommitTakes(c, s, w, order, Select(s.rows, s.workers[w].job, s.now, c.size, {}), LockedAlone(c, s, w));
  }

  lemma CommitTakes(c: Config, s: State, w: WorkerId, order: seq<nat>, ids: seq<nat>, m: State)
    requires w in s.workers && Permutes(order, ids)
    requires m == s.(workers := s.workers[w := s.workers[w].(phase := Locking(ids), last := s.now)],
                     locks := map i | i in ids :: w)
    requires (forall k :: 0 <= k < |order| ==> order[k] < |s.rows|) && forall i :: i in ids ==> i in IdSet(order)
    ensures Enabled(c, m, Commit(w, order)) && ClaimTaken(c, s, w, order, Next(c, m, Commit(w, order)))
  {
    assert m.locks - IdSet(order) == map[];
    var t := AfterCommit(c, m, w, order);
    assert t.rows == ClaimRows(s.rows, IdSet(order), w, s.now + c.ttl);
  }

  /** With no other claim under way, the two steps of a claim in a row are the one atomic claim of `ClaimChunk`: same
      rows, same lease, same items. */
  lemma AtomicClaim(c: Config, s: State, w: WorkerId, order: seq<nat>)
    requires w in s.workers && s.workers[w].phase.Idle? && s.locks == map[]
    requires order != [] && Permutes(order, Select(s.rows, s.workers[w].job, s.now, c.size, {}))
    ensures Valid(c, s, [Lock(w, {})] + [Commit(w, order)])
    ensures ClaimTaken(c, s, w, order, Final(c, s, [Lock(w, {})] + [Commit(w, order)]))
  {
    assert order[0] in order;
    LockAlone(c, s, w);
    CommitAlone(c, s, w, order);
    RunCons(c, LockedAlone(c, s, w), Commit(w, order), []);
    assert [Commit(w, order)] + [] == [Commit(w, order)];
    RunCons(c, s, Lock(w, {}), [Commit(w, order)]);
  }

  datatype Job = Job(state: JobState, inputPath: string, total: nat, error: Option<string>)

  predicate Active(state: JobState) {
    state.Ingesting? || state.Running?
  }

  datatype JobStatus = JobStatus(state: JobState, total: nat, pending: nat, inProgress: nat, succeeded: nat,
                                 failed: nat)

  function CountOf(counts: map<Status, nat>, status: Status): nat {
    if status in counts then counts[status] else 0
  }

  /** The active jobs outside `todo` are listed, each once. */
  ghost predicate Listed(jobs: map<JobId, Job>, todo: set<JobId>, active: seq<(JobId, string)>, found: set<JobId>) {
    && (forall p <- active :: p.0 in jobs && p.0 !in todo && Active(jobs[p.0].state) && jobs[p.0].inputPath == p.1)
    && (forall id <- jobs :: id !in todo && Active(jobs[id].state) ==> (id, jobs[id].inputPath) in active)
    && (forall k, l :: 0 <= k < |active| && 0 <= l < |active| && k != l ==> active[k].0 != active[l].0)
    && |active| == |found| && forall id :: id in found <==> id in jobs && id !in todo && Active(jobs[id].state)
  }

  lemma ListOne(jobs: map<JobId, Job>, todo: set<JobId>, active: seq<(JobId, string)>, found: set<JobId>, id: JobId)
    requires id in todo && todo <= jobs.Keys && Listed(jobs, todo, active, found)
    ensures if Active(jobs[id].state) then Listed(jobs, todo - {id}, active + [(id, jobs[id].inputPath)], found + {id})
            else Listed(jobs, todo - {id}, active, found)
  {
    if Active(jobs[id].state) {
      var more := active + [(id, jobs[id].inputPath)];
      assert forall k :: 0 <= k < |active| ==> more[k] == active[k] && active[k] in active;
      forall i | i in jobs && i !in todo - {id} && Active(jobs[i].state) ensures (i, jobs[i].inputPath) in more {
        assert i != id ==> (i, jobs[i].inputPath) in active;
        assert more[|active|] == (id, jobs[id].inputPath);
      }
    }
  }

  /** The `jobs` table. */
  class JobRepository {
    var jobs: map<JobId, Job>

    constructor ()
      ensures jobs == map[]
    {
      jobs := map[];
    }

    method Create(id: JobId, inputPath: string)
      requires id !in jobs
      modifies this
      ensures jobs == old(jobs)[id := Job(JobPending, inputPath, 0, None)]
    {
      jobs := jobs[id := Job(JobPending, inputPath, 0, None)];
    }

    /** UPDATE ... WHERE id: a job that is not there stays absent; the error is overwritten, also by None. */
    method SetState(id: JobId, state: JobState, error: Option<string>)
      modifies this
      ensures jobs == if id in old(jobs) then old(jobs)[id := old(jobs)[id].(state := state, error := error)]
              else old(jobs)
    {
      if id in jobs {
        jobs := jobs[id := jobs[id].(state := state, error := error)];
      }
    }

    method SetTotal(id: JobId, total: nat)
      modifies this
      ensures jobs == if id in old(jobs) then old(jobs)[id := old(jobs)[id].(total := total)] else old(jobs)
    {
      if id in jobs {
        jobs := jobs[id := jobs[id].(total := total)];
      }
    }

    /** The jobs a restarted process has to pick up, in no particular order. */
    method ListActive() returns (active: seq<(JobId, string)>)
      ensures forall p <- active :: p.0 in jobs && Active(jobs[p.0].state) && jobs[p.0].inputPath == p.1
      ensures forall id <- jobs :: Active(jobs[id].state) ==> (id, jobs[id].inputPath) in active
      ensures forall k, l :: 0 <= k < |active| && 0 <= l < |active| && k != l ==> active[k].0 != active[l].0
      ensures |active| == |set id | id in jobs && Active(jobs[id].state)|
    {
      active := [];
      ghost var found: set<JobId> := {};
      var todo := jobs.Keys;
      while todo != {}
        invariant todo <= jobs.Keys && Listed(jobs, todo, active, found)
        decreases |todo|
      {
        var id :| id in todo;
        ListOne(jobs, todo, active, found, id);
        todo := todo - {id};
        if Active(jobs[id].state) {
          active, found := active + [(id, jobs[id].inputPath)], found + {id};
        }
      }
      assert found == set id | id in jobs && Active(jobs[id].state);
    }

    /** The counters add up to the rows of the job; an unknown job is an error. */
    method GetStatus(id: JobId, queue: WorkQueue) returns (status: Option<JobStatus>)
      ensures status.Some? <==> id in jobs
      ensures status.Some? ==>
                var st := status.value;
                && st.state == jobs[id].state && st.total == jobs[id].total
                && st.pending == |WithStatus(queue.rows, id, Pending)|
                && st.inProgress == |WithStatus(queue.rows, id, Claimed)|
                && st.succeeded == |WithStatus(queue.rows, id, Succeeded)|
                && st.failed == |WithStatus(queue.rows, id, Failed)|
    {
      if id !in jobs {
        return None;
      }
      var counts := queue.CountByStatus(id);
      assert forall st :: st !in counts ==> WithStatus(queue.rows, id, st) == {};
      status := Some(JobStatus(jobs[id].state, jobs[id].total, CountOf(counts, Pending), CountOf(counts, Claimed),
                               CountOf(counts, Succeeded), CountOf(counts, Failed)));
    }
  }
}
