/** What every step of the lease protocol keeps. */
module Invariant {
  import opened Domain
  import opened QueueTable
  import opened Protocol

  predicate Matches(r: ResultRecord, row: Row) {
    r.externalId == row.externalId && r.status == row.status && r.error == row.error && r.attempts == row.attempts
  }

  /** The row's result is in storage: under its reference, a record with the same verdict. */
  ghost predicate Backed(store: seq<StoredChunk>, row: Row)
    requires row.resultRef.Some?
  {
    exists n, k :: 0 <= n < |store| && 0 <= k < |store[n].records|
                   && store[n].ref == row.resultRef.value && Matches(store[n].records[k], row)
  }

  /** A CLAIMED row belongs to a worker of its own job that holds it in memory, or to a dead one. */
  ghost predicate OwnerOk(workers: map<WorkerId, Worker>, row: Row, i: nat)
    requires row.workerId.Some?
  {
    var w := row.workerId.value;
    w in workers && workers[w].job == row.job && (workers[w].phase.Dead? || HoldsRow(workers[w].phase, i))
  }

  ghost predicate RowOk(s: State, i: nat)
    requires i < |s.rows|
  {
    var row := s.rows[i];
    if row.status.Pending? then
      row.prompt.Some? && row.workerId.None? && row.resultRef.None?
    else if row.status.Claimed? then
      && row.prompt.Some? && row.resultRef.None? && row.leaseUntil.Some? && row.workerId.Some?
      && OwnerOk(s.workers, row, i)
    else if row.resultRef.None? then
      row.status.Failed? && row.prompt.None? && row.workerId.None?
    else row.prompt.Some? && Backed(s.store, row)
  }

  ghost predicate LockingOk(rows: seq<Row>, locks: map<nat, WorkerId>, now: Time, size: nat, w: WorkerId, wk: Worker)
    requires wk.phase.Locking?
  {
    var ids := wk.phase.ids;
    && ids != [] && |ids| <= size && Ascending(ids) && wk.last <= now
    && forall k :: 0 <= k < |ids| ==>
         ids[k] < |rows| && Eligible(rows[ids[k]], wk.job, wk.last) && ids[k] in locks && locks[ids[k]] == w
  }

  ghost predicate ItemOk(rows: seq<Row>, job: JobId, item: ClaimedItem) {
    && item.id < |rows|
    && rows[item.id].job == job
    && rows[item.id].externalId == item.externalId
    && rows[item.id].prompt == Some(item.prompt)
    && !rows[item.id].status.Pending?
  }

  ghost predicate ChunkOk(rows: seq<Row>, size: nat, job: JobId, chunk: seq<ClaimedItem>) {
    && 0 < |chunk| <= size
    && (forall k :: 0 <= k < |chunk| ==> ItemOk(rows, job, chunk[k]))
    && (forall k, l :: 0 <= k < l < |chunk| ==> chunk[k].id != chunk[l].id)
  }

  ghost predicate ResultsOk(chunk: seq<ClaimedItem>, results: seq<ResultRecord>) {
    |results| == |chunk| && forall k :: 0 <= k < |chunk| ==> results[k].externalId == chunk[k].externalId
  }

  ghost predicate WorkerOk(c: Config, s: State, w: WorkerId)
    requires w in s.workers
  {
    var wk := s.workers[w];
    && (wk.phase.Locking? ==> LockingOk(s.rows, s.locks, s.now, c.size, w, wk))
    && (Holding(wk.phase) ==> ChunkOk(s.rows, c.size, wk.job, ChunkOf(wk.phase)))
    && (wk.phase.Ready? || wk.phase.Written? ==> ResultsOk(wk.phase.chunk, wk.phase.results))
    && (wk.phase.Written? ==> StoredChunk(wk.phase.ref, wk.phase.results) in s.store)
  }

  ghost predicate LocksOk(s: State) {
    forall i <- s.locks :: s.locks[i] in s.workers && s.workers[s.locks[i]].phase.Locking?
                           && i in s.workers[s.locks[i]].phase.ids
  }

  ghost predicate Inv(c: Config, s: State) {
    && UniqueKeys(s.rows)
    && (forall i :: 0 <= i < |s.rows| ==> RowOk(s, i))
    && (forall w <- s.workers :: WorkerOk(c, s, w))
    && LocksOk(s)
  }

  // ------------------------------------------------- what a step may change

  /** Rows are never removed; keys and prompts never change; terminal rows never change at all. */
  ghost predicate Evolves(rows: seq<Row>, rows': seq<Row>) {
    && |rows| <= |rows'|
    && forall i :: 0 <= i < |rows| ==>
         && rows'[i].job == rows[i].job
         && rows'[i].externalId == rows[i].externalId
         && rows'[i].prompt == rows[i].prompt
         && (rows'[i].status.Pending? ==> rows'[i] == rows[i])
         && (Terminal(rows[i].status) ==> rows'[i] == rows[i])
  }

  /** `w` and everything its part of the invariant mentions is as before. */
  ghost predicate WorkerKept(s: State, t: State, w: WorkerId)
    requires w in s.workers && w in t.workers
  {
    var p := s.workers[w].phase;
    && t.workers[w] == s.workers[w]
    && Evolves(s.rows, t.rows) && s.store <= t.store && s.now <= t.now
    && (p.Locking? ==> forall k :: 0 <= k < |p.ids| && p.ids[k] < |s.rows| ==>
         && t.rows[p.ids[k]] == s.rows[p.ids[k]]
         && (p.ids[k] in s.locks && s.locks[p.ids[k]] == w ==> p.ids[k] in t.locks && t.locks[p.ids[k]] == w))
  }

  lemma WorkerFrame(c: Config, s: State, t: State, w: WorkerId)
    requires w in s.workers && w in t.workers && WorkerOk(c, s, w) && WorkerKept(s, t, w)
    ensures WorkerOk(c, t, w)
  {
    var wk := s.workers[w];
    if Holding(wk.phase) { ChunkFrame(s.rows, t.rows, c.size, wk.job, ChunkOf(wk.phase)); }
    if wk.phase.Written? {
      var n :| 0 <= n < |s.store| && s.store[n] == StoredChunk(wk.phase.ref, wk.phase.results);
      assert t.store[n] == s.store[n];
    }
  }

  lemma ChunkFrame(rows: seq<Row>, rows': seq<Row>, size: nat, job: JobId, chunk: seq<ClaimedItem>)
    requires Evolves(rows, rows') && ChunkOk(rows, size, job, chunk)
    ensures ChunkOk(rows', size, job, chunk)
  {
    forall k | 0 <= k < |chunk| ensures ItemOk(rows', job, chunk[k]) {
      assert ItemOk(rows, job, chunk[k]);
    }
  }

  lemma RowFrame(s: State, t: State, i: nat)
    requires i < |s.rows| && i < |t.rows| && RowOk(s, i) && t.rows[i] == s.rows[i] && s.store <= t.store
    requires s.rows[i].status.Claimed? && s.rows[i].workerId.Some? ==> OwnerOk(t.workers, s.rows[i], i)
    ensures RowOk(t, i)
  {
    if s.rows[i].resultRef.Some? { BackedGrows(s.store, t.store, s.rows[i]); }
  }

  lemma BackedGrows(store: seq<StoredChunk>, store': seq<StoredChunk>, row: Row)
    requires store <= store' && row.resultRef.Some? && Backed(store, row)
    ensures Backed(store', row)
  {
    var n, k :| 0 <= n < |store| && 0 <= k < |store[n].records|
                && store[n].ref == row.resultRef.value && Matches(store[n].records[k], row);
    assert store'[n] == store[n];
  }

  lemma UniqueFrame(rows: seq<Row>, rows': seq<Row>)
    requires UniqueKeys(rows) && Evolves(rows, rows') && |rows'| == |rows|
    ensures UniqueKeys(rows')
  {
    forall i, k | 0 <= i < k < |rows'| ensures !SameKey(rows'[i], rows'[k]) {
      assert !SameKey(rows[i], rows[k]);
    }
  }

  /** Only the phase of `w` changes, and it still holds the rows it held. */
  ghost predicate OnlyPhase(s: State, t: State, w: WorkerId) {
    && w in s.workers && t.workers.Keys == s.workers.Keys
    && (forall v <- s.workers :: v != w ==> t.workers[v] == s.workers[v])
    && t.workers[w].job == s.workers[w].job
    && ChunkOf(t.workers[w].phase) == ChunkOf(s.workers[w].phase)
    && !t.workers[w].phase.Dead? && !s.workers[w].phase.Dead?
  }

  lemma OwnerFrame(s: State, t: State, w: WorkerId, row: Row, i: nat)
    requires OnlyPhase(s, t, w) && row.workerId.Some? && OwnerOk(s.workers, row, i)
    ensures OwnerOk(t.workers, row, i)
  {
    var v := row.workerId.value;
    if v == w {
      var k :| 0 <= k < |ChunkOf(s.workers[w].phase)| && ChunkOf(s.workers[w].phase)[k].id == i;
      assert ChunkOf(t.workers[w].phase)[k].id == i;
    }
  }

  // ------------------------------------------- each step keeps the invariant

  lemma InitialInv(c: Config, s: State)
    requires Initial(s)
    ensures Inv(c, s)
  {}

  lemma TickInv(c: Config, s: State, d: nat)
    requires Inv(c, s)
    ensures Inv(c, s.(now := s.now + d))
  {
    var t := s.(now := s.now + d);
    forall i | 0 <= i < |t.rows| ensures RowOk(t, i) { RowFrame(s, t, i); }
    forall w | w in t.workers ensures WorkerOk(c, t, w) { WorkerFrame(c, s, t, w); }
  }

  lemma InsertEvolves(s: State, job: JobId, items: seq<PromptItem>, failed: seq<string>)
    ensures Evolves(s.rows, AfterInsert(s, job, items, failed).rows)
  {}

  lemma InsertInv(c: Config, s: State, job: JobId, items: seq<PromptItem>, failed: seq<string>)
    requires Inv(c, s)
    ensures Inv(c, AfterInsert(s, job, items, failed))
  {
    var t := AfterInsert(s, job, items, failed);
    InsertRowsFacts(s.rows, NewRows(job, items, failed));
    InsertEvolves(s, job, items, failed);
    forall i | 0 <= i < |t.rows| ensures RowOk(t, i) {
      if i < |s.rows| { RowFrame(s, t, i); } else { assert t.rows[i] in NewRows(job, items, failed); }
    }
    forall w | w in t.workers ensures WorkerOk(c, t, w) { WorkerFrame(c, s, t, w); }
  }

  lemma SpawnInv(c: Config, s: State, pool: set<WorkerId>, job: JobId)
    requires Inv(c, s) && Enabled(c, s, Spawn(pool, job))
    ensures Inv(c, AfterSpawn(s, pool, job))
  {
    var t := AfterSpawn(s, pool, job);
    assert forall w <- s.workers :: w in t.workers && t.workers[w] == s.workers[w];
    forall i | 0 <= i < |t.rows| ensures RowOk(t, i) { RowFrame(s, t, i); }
    forall w | w in t.workers ensures WorkerOk(c, t, w) {
      if w in s.workers { WorkerFrame(c, s, t, w); }
    }
  }

  lemma LockInv(c: Config, s: State, w: WorkerId, busy: set<nat>)
    requires Inv(c, s) && Enabled(c, s, Lock(w, busy))
    ensures Inv(c, AfterLock(c, s, w, busy))
  {
    var t := AfterLock(c, s, w, busy);
    assert OnlyPhase(s, t, w);
    forall i | 0 <= i < |t.rows| ensures RowOk(t, i) {
      assert RowOk(s, i);
      if s.rows[i].status.Claimed? { OwnerFrame(s, t, w, s.rows[i], i); }
      RowFrame(s, t, i);
    }
    forall v | v in t.workers ensures WorkerOk(c, t, v) {
      if v != w {
        LockKeeps(c, s, w, busy, v);
        WorkerFrame(c, s, t, v);
      } else {
        LockOwn(c, s, w, busy);
      }
    }
    assert LocksOk(t) by { LockOwn(c, s, w, busy); }
  }

  lemma LockOwn(c: Config, s: State, w: WorkerId, busy: set<nat>)
    requires Inv(c, s) && Enabled(c, s, Lock(w, busy))
    ensures WorkerOk(c, AfterLock(c, s, w, busy), w)
    ensures forall i <- Selected(c, s, w, busy) :: i !in s.locks
  {
    SelectIsSelection(s.rows, s.workers[w].job, s.now, c.size, s.locks.Keys + busy);
  }

  /** A claim never takes a lock that is already held. */
  lemma LockKeeps(c: Config, s: State, w: WorkerId, busy: set<nat>, v: WorkerId)
    requires Inv(c, s) && Enabled(c, s, Lock(w, busy)) && v in s.workers && v != w
    ensures WorkerKept(s, AfterLock(c, s, w, busy), v)
  {
    var t := AfterLock(c, s, w, busy);
    LockOwn(c, s, w, busy);
    assert WorkerOk(c, s, v);
    forall i | i in s.locks ensures i in t.locks && t.locks[i] == s.locks[i] {
      assert i !in Selected(c, s, w, busy);
    }
  }

  /** The locked ids of a worker are its own and nobody has touched those rows. */
  lemma LockingFacts(c: Config, s: State, w: WorkerId, i: nat)
    requires Inv(c, s) && w in s.workers && s.workers[w].phase.Locking? && i in s.workers[w].phase.ids
    ensures i < |s.rows| && Eligible(s.rows[i], s.workers[w].job, s.workers[w].last) && i in s.locks && s.locks[i] == w
  {
    assert WorkerOk(c, s, w);
  }

  lemma CommitFacts(c: Config, s: State, w: WorkerId, order: seq<nat>, i: nat)
    requires Inv(c, s) && Enabled(c, s, Commit(w, order))
    ensures i in order <==> i in s.workers[w].phase.ids
    ensures i in order ==> i < |s.rows| && Eligible(s.rows[i], s.workers[w].job, s.workers[w].last)
    ensures i in order ==> i in s.locks && s.locks[i] == w
  {
    if i in order { LockingFacts(c, s, w, i); }
  }

  lemma CommitEvolves(c: Config, s: State, w: WorkerId, order: seq<nat>)
    requires Inv(c, s) && Enabled(c, s, Commit(w, order))
    ensures Evolves(s.rows, AfterCommit(c, s, w, order).rows)
  {
    forall i | 0 <= i < |s.rows| && i in order ensures !Terminal(s.rows[i].status) { CommitFacts(c, s, w, order, i); }
  }

  lemma CommitRows(c: Config, s: State, w: WorkerId, order: seq<nat>, i: nat)
    requires Inv(c, s) && Enabled(c, s, Commit(w, order)) && i < |s.rows|
    ensures RowOk(AfterCommit(c, s, w, order), i)
  {
    var t := AfterCommit(c, s, w, order);
    assert RowOk(s, i);
    if i in order {
      CommitFacts(c, s, w, order, i);
      var k :| 0 <= k < |order| && order[k] == i;
      assert ChunkOf(t.workers[w].phase)[k].id == i;
    } else {
      RowFrame(s, t, i);
    }
  }

  lemma CommitChunkOk(c: Config, s: State, w: WorkerId, order: seq<nat>)
    requires Inv(c, s) && Enabled(c, s, Commit(w, order))
    ensures ChunkOk(AfterCommit(c, s, w, order).rows, c.size, s.workers[w].job,
                    Items(AfterCommit(c, s, w, order).rows, order))
  {
    var t := AfterCommit(c, s, w, order);
    assert WorkerOk(c, s, w);
    forall k | 0 <= k < |order| ensures ItemOk(t.rows, s.workers[w].job, Items(t.rows, order)[k]) {
      LockingFacts(c, s, w, order[k]);
      assert RowOk(s, order[k]);
    }
  }

  lemma CommitInv(c: Config, s: State, w: WorkerId, order: seq<nat>)
    requires Inv(c, s) && Enabled(c, s, Commit(w, order))
    ensures Inv(c, AfterCommit(c, s, w, order))
  {
    var t := AfterCommit(c, s, w, order);
    CommitEvolves(c, s, w, order);
    UniqueFrame(s.rows, t.rows);
    forall i | 0 <= i < |t.rows| ensures RowOk(t, i) { CommitRows(c, s, w, order, i); }
    forall v | v in t.workers ensures WorkerOk(c, t, v) {
      if v == w { CommitOwn(c, s, w, order); } else { CommitOthers(c, s, w, order, v); }
    }
    CommitLocks(c, s, w, order);
  }

  lemma CommitOwn(c: Config, s: State, w: WorkerId, order: seq<nat>)
    requires Inv(c, s) && Enabled(c, s, Commit(w, order))
    ensures WorkerOk(c, AfterCommit(c, s, w, order), w)
  {
    CommitChunkOk(c, s, w, order);
  }

  lemma CommitLocks(c: Config, s: State, w: WorkerId, order: seq<nat>)
    requires Inv(c, s) && Enabled(c, s, Commit(w, order))
    ensures LocksOk(AfterCommit(c, s, w, order))
  {
    forall i | i in s.locks && i !in order
      ensures s.locks[i] != w
    {
      CommitFacts(c, s, w, order, i);
    }
  }

  lemma CommitOthers(c: Config, s: State, w: WorkerId, order: seq<nat>, v: WorkerId)
    requires Inv(c, s) && Enabled(c, s, Commit(w, order)) && v in s.workers && v != w
    ensures WorkerOk(c, AfterCommit(c, s, w, order), v)
  {
    assert WorkerOk(c, s, v);
    CommitEvolves(c, s, w, order);
    if s.workers[v].phase.Locking? {
      forall k | 0 <= k < |s.workers[v].phase.ids| ensures s.workers[v].phase.ids[k] !in order {
        LockingFacts(c, s, v, s.workers[v].phase.ids[k]);
        CommitFacts(c, s, w, order, s.workers[v].phase.ids[k]);
      }
    }
    WorkerFrame(c, s, AfterCommit(c, s, w, order), v);
  }

  lemma RenewInv(c: Config, s: State, w: WorkerId)
    requires Inv(c, s) && Enabled(c, s, Renew(w))
    ensures Inv(c, AfterRenew(c, s, w))
  {
    var t := AfterRenew(c, s, w);
    UniqueFrame(s.rows, t.rows);
    forall i | 0 <= i < |t.rows| ensures RowOk(t, i) {
      assert RowOk(s, i);
      if s.rows[i].status.Claimed? { OwnerFrame(s, t, w, s.rows[i], i); }
      if !Owned(s.rows[i], w) { RowFrame(s, t, i); }
    }
    forall v | v in t.workers ensures WorkerOk(c, t, v) {
      if v != w {
        LockedNotOwned(c, s, w, v);
        WorkerFrame(c, s, t, v);
      } else {
        ChunkFrame(s.rows, t.rows, c.size, s.workers[w].job, ChunkOf(s.workers[w].phase));
      }
    }
  }

  /** An unblocked worker owns none of the rows another worker has locked. */
  lemma LockedNotOwned(c: Config, s: State, w: WorkerId, v: WorkerId)
    requires Inv(c, s) && Unblocked(s, w) && v in s.workers
    ensures s.workers[v].phase.Locking? ==> forall i <- s.workers[v].phase.ids :: i < |s.rows| && !Owned(s.rows[i], w)
  {
    if s.workers[v].phase.Locking? {
      forall i | i in s.workers[v].phase.ids ensures i < |s.rows| && !Owned(s.rows[i], w) { LockingFacts(c, s, v, i); }
    }
  }

  lemma FinishInv(c: Config, s: State, w: WorkerId, runs: seq<RowRun>)
    requires Inv(c, s) && Enabled(c, s, Finish(w, runs))
    ensures Inv(c, AfterFinish(c, s, w, runs))
  {
    var t := AfterFinish(c, s, w, runs);
    assert OnlyPhase(s, t, w);
    forall i | 0 <= i < |t.rows| ensures RowOk(t, i) {
      if s.rows[i].status.Claimed? { assert RowOk(s, i); OwnerFrame(s, t, w, s.rows[i], i); }
      RowFrame(s, t, i);
    }
    forall v | v in t.workers ensures WorkerOk(c, t, v) {
      if v != w { WorkerFrame(c, s, t, v); } else { assert WorkerOk(c, s, w); }
    }
  }

  lemma WriteInv(c: Config, s: State, w: WorkerId, chunkId: nat)
    requires Inv(c, s) && Enabled(c, s, Write(w, chunkId))
    ensures Inv(c, AfterWrite(s, w, chunkId))
  {
    var t := AfterWrite(s, w, chunkId);
    assert t.store[|s.store|] == StoredChunk(t.workers[w].phase.ref, t.workers[w].phase.results);
    assert OnlyPhase(s, t, w);
    forall i | 0 <= i < |t.rows| ensures RowOk(t, i) {
      if s.rows[i].status.Claimed? { assert RowOk(s, i); OwnerFrame(s, t, w, s.rows[i], i); }
      RowFrame(s, t, i);
    }
    forall v | v in t.workers ensures WorkerOk(c, t, v) {
      if v != w { WorkerFrame(c, s, t, v); } else { assert WorkerOk(c, s, w); }
    }
  }

  // ------------------------------------------------------- completing a chunk

  /** Completion, row by row: a row still owned by `w` takes the record computed for it; nothing else changes. */
  lemma CompleteEffect(c: Config, s: State, w: WorkerId, i: nat)
    requires Inv(c, s) && Enabled(c, s, Complete(w)) && i < |s.rows|
    ensures |AfterComplete(s, w).rows| == |s.rows|
    ensures !Owned(s.rows[i], w) ==> AfterComplete(s, w).rows[i] == s.rows[i]
    ensures Owned(s.rows[i], w) ==>
              exists k :: 0 <= k < |s.workers[w].phase.chunk| && s.workers[w].phase.chunk[k].id == i
                          && AfterComplete(s, w).rows[i]
                             == Stamp(s.rows[i], s.workers[w].phase.results[k], s.workers[w].phase.ref)
  {
    var p := s.workers[w].phase;
    CompleteRowsAt(s.rows, w, p.results, p.ref, i);
    if Owned(s.rows[i], w) {
      assert RowOk(s, i) && WorkerOk(c, s, w);
      var k :| 0 <= k < |p.chunk| && p.chunk[k].id == i;
      assert ItemOk(s.rows, s.workers[w].job, p.chunk[k]);
      MatchAt(p.results, s.rows[i].externalId);
      assert p.results[k].externalId == s.rows[i].externalId;
      var l :| 0 <= l < |p.results| && p.results[l] == Match(p.results, s.rows[i].externalId).value
               && p.results[l].externalId == s.rows[i].externalId;
      SameItem(s.rows, c.size, s.workers[w].job, p.chunk, k, l);
    }
  }

  /** Within a job an external id determines the row, so two items with the same one are the same item. */
  lemma SameItem(rows: seq<Row>, size: nat, job: JobId, chunk: seq<ClaimedItem>, k: nat, l: nat)
    requires UniqueKeys(rows) && ChunkOk(rows, size, job, chunk)
    requires k < |chunk| && l < |chunk| && chunk[k].externalId == chunk[l].externalId
    ensures k == l
  {
    assert ItemOk(rows, job, chunk[k]) && ItemOk(rows, job, chunk[l]);
    var i, j := chunk[k].id, chunk[l].id;
    assert SameKey(rows[i], rows[j]) && SameKey(rows[j], rows[i]);
  }

  lemma CompleteEvolves(c: Config, s: State, w: WorkerId)
    requires Inv(c, s) && Enabled(c, s, Complete(w))
    ensures Evolves(s.rows, AfterComplete(s, w).rows) && |AfterComplete(s, w).rows| == |s.rows|
  {
    CompleteLength(s.rows, w, s.workers[w].phase.results, s.workers[w].phase.ref);
    forall i | 0 <= i < |s.rows|
      ensures var a, b := s.rows[i], AfterComplete(s, w).rows[i];
              b == a || (a.status.Claimed? && !b.status.Pending? && SameKey(a, b) && a.prompt == b.prompt)
    {
      CompleteEffect(c, s, w, i);
    }
  }

  lemma CompleteLength(rows: seq<Row>, w: WorkerId, results: seq<ResultRecord>, ref: ChunkRef)
    ensures |CompleteRows(rows, w, results, ref)| == |rows|
    decreases |results|
  {
    if results != [] { CompleteLength(CompleteOne(rows, w, results[0], ref), w, results[1..], ref); }
  }

  lemma CompleteRowOk(c: Config, s: State, w: WorkerId, i: nat)
    requires Inv(c, s) && Enabled(c, s, Complete(w)) && i < |s.rows|
    ensures |AfterComplete(s, w).rows| == |s.rows| && RowOk(AfterComplete(s, w), i)
  {
    var t := AfterComplete(s, w);
    CompleteEffect(c, s, w, i);
    assert RowOk(s, i) && WorkerOk(c, s, w);
    if Owned(s.rows[i], w) {
      var p := s.workers[w].phase;
      var k :| 0 <= k < |p.chunk| && p.chunk[k].id == i && t.rows[i] == Stamp(s.rows[i], p.results[k], p.ref);
      assert ItemOk(s.rows, s.workers[w].job, p.chunk[k]);
      var n :| 0 <= n < |s.store| && s.store[n] == StoredChunk(p.ref, p.results);
      assert Matches(s.store[n].records[k], t.rows[i]);
    } else {
      RowFrame(s, t, i);
    }
  }

  lemma CompleteInv(c: Config, s: State, w: WorkerId)
    requires Inv(c, s) && Enabled(c, s, Complete(w))
    ensures Inv(c, AfterComplete(s, w))
  {
    var t := AfterComplete(s, w);
    CompleteEvolves(c, s, w);
    UniqueFrame(s.rows, t.rows);
    forall i | 0 <= i < |t.rows| ensures RowOk(t, i) { CompleteRowOk(c, s, w, i); }
    forall v | v in t.workers ensures WorkerOk(c, t, v) {
      if v != w {
        LockedNotOwned(c, s, w, v);
        forall i | 0 <= i < |s.rows| && !Owned(s.rows[i], w)
          ensures t.rows[i] == s.rows[i] { CompleteEffect(c, s, w, i); }
        WorkerFrame(c, s, t, v);
      }
    }
  }

  lemma CrashInv(c: Config, s: State, ws: set<WorkerId>)
    requires Inv(c, s) && Enabled(c, s, Crash(ws))
    ensures Inv(c, AfterCrash(s, ws))
  {
    var t := AfterCrash(s, ws);
    forall i | 0 <= i < |t.rows| ensures RowOk(t, i) { assert RowOk(s, i); RowFrame(s, t, i); }
    forall v | v in t.workers ensures WorkerOk(c, t, v) {
      assert WorkerOk(c, s, v);
      if v !in ws { WorkerFrame(c, s, t, v); }
    }
  }

  // --------------------------------------------------------- steps and runs

  lemma StepInv(c: Config, s: State, step: Step)
    requires Inv(c, s) && Enabled(c, s, step)
    ensures Inv(c, Next(c, s, step))
  {
    match step
    case Tick(d) => TickInv(c, s, d);
    case Insert(job, items, failed) => InsertInv(c, s, job, items, failed);
    case Spawn(pool, job) => SpawnInv(c, s, pool, job);
    case Lock(w, busy) => LockInv(c, s, w, busy);
    case Commit(w, order) => CommitInv(c, s, w, order);
    case Renew(w) => RenewInv(c, s, w);
    case Finish(w, runs) => FinishInv(c, s, w, runs);
    case Write(w, chunkId) => WriteInv(c, s, w, chunkId);
    case Complete(w) => CompleteInv(c, s, w);
    case Crash(ws) => CrashInv(c, s, ws);
  }

  /** The invariant holds in every state of every run. */
  lemma {:induction false} RunInv(c: Config, s: State, steps: seq<Step>)
    requires Inv(c, s) && Valid(c, s, steps)
    ensures Inv(c, Final(c, s, steps))
    decreases |steps|
  {
    if steps != [] {
      StepInv(c, s, steps[0]);
      RunInv(c, Next(c, s, steps[0]), steps[1..]);
    }
  }

  lemma StepEvolves(c: Config, s: State, step: Step)
    requires Inv(c, s) && Enabled(c, s, step)
    ensures Evolves(s.rows, Next(c, s, step).rows)
  {
    match step
    case Insert(job, items, failed) => InsertEvolves(s, job, items, failed);
    case Commit(w, order) => CommitEvolves(c, s, w, order);
    case Complete(w) => CompleteEvolves(c, s, w);
    case _ =>
  }

  lemma EvolvesTransitive(a: seq<Row>, b: seq<Row>, d: seq<Row>)
    requires Evolves(a, b) && Evolves(b, d)
    ensures Evolves(a, d)
  {}

  /** Over a whole run no row disappears, no key or prompt changes, and no terminal row changes. */
  lemma {:induction false} RunEvolves(c: Config, s: State, steps: seq<Step>)
    requires Inv(c, s) && Valid(c, s, steps)
    ensures Evolves(s.rows, Final(c, s, steps).rows)
    decreases |steps|
  {
    if steps != [] {
      StepInv(c, s, steps[0]);
      StepEvolves(c, s, steps[0]);
      RunEvolves(c, Next(c, s, steps[0]), steps[1..]);
      EvolvesTransitive(s.rows, Next(c, s, steps[0]).rows, Final(c, s, steps).rows);
    }
  }
}
