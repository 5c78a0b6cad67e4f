/** Storage delivery bounds: how many stored records a row can have, and how long the download is. */
module Delivery {
  import opened Sets
  import opened Domain
  import opened QueueTable
  import opened Protocol
  import opened Invariant
  import Timing

  // ------------------------------------------------------------ what is stored

  function CountIn(records: seq<ResultRecord>, externalId: string): nat {
    if records == [] then 0
    else (if records[0].externalId == externalId then 1 else 0) + CountIn(records[1..], externalId)
  }

  /** The stored records for a row's key; the download of a job lists them all. */
  function StoredFor(store: seq<StoredChunk>, job: JobId, externalId: string): nat {
    if store == [] then 0
    else StoredFor(store[..|store| - 1], job, externalId)
         + if store[|store| - 1].ref.job == job then CountIn(store[|store| - 1].records, externalId) else 0
  }

  /** The number of records in the download of a job. */
  function DownloadLength(store: seq<StoredChunk>, job: JobId): nat {
    if store == [] then 0
    else DownloadLength(store[..|store| - 1], job)
         + if store[|store| - 1].ref.job == job then |store[|store| - 1].records| else 0
  }

  lemma {:induction false} CountInNone(records: seq<ResultRecord>, externalId: string)
    requires forall k :: 0 <= k < |records| ==> records[k].externalId != externalId
    ensures CountIn(records, externalId) == 0
  {
    if records != [] { CountInNone(records[1..], externalId); }
  }

  lemma {:induction false} CountInOnce(records: seq<ResultRecord>, externalId: string, k: nat)
    requires k < |records| && records[k].externalId == externalId
    requires forall l :: 0 <= l < |records| && l != k ==> records[l].externalId != externalId
    ensures CountIn(records, externalId) == 1
  {
    if k == 0 {
      CountInNone(records[1..], externalId);
    } else {
      CountInOnce(records[1..], externalId, k - 1);
    }
  }

  // -------------------------------------------------------------- the invariant

  /** `claims` records the deliveries of a row, `writes` those whose results were stored. */
  ghost predicate RowTokens(s: State, i: nat)
    requires i < |s.rows| && i < |s.claims| && i < |s.writes|
  {
    var row := s.rows[i];
    && s.writes[i] <= s.claims[i]
    && (forall t <- s.claims[i] :: t.worker in s.workers && t.claim <= s.workers[t.worker].claims)
    && |s.writes[i]| == StoredFor(s.store, row.job, row.externalId)
    && (row.resultRef.Some? ==> row.resultRef.value.job == row.job)
    && (row.resultRef.None? && Terminal(row.status) ==> s.claims[i] == {})
    && (!Terminal(row.status) ==> row.attempts == |s.claims[i]|)
  }

  ghost predicate WorkerTokens(s: State, w: WorkerId)
    requires w in s.workers && |s.claims| == |s.writes| == |s.rows|
  {
    var wk := s.workers[w];
    && (forall k :: 0 <= k < |ChunkOf(wk.phase)| && ChunkOf(wk.phase)[k].id < |s.rows| ==>
          && Token(w, wk.claims) in s.claims[ChunkOf(wk.phase)[k].id]
          && (!wk.phase.Written? ==> Token(w, wk.claims) !in s.writes[ChunkOf(wk.phase)[k].id]))
    && (wk.phase.Written? ==> wk.phase.ref.job == wk.job)
  }

  /** Nothing is stored under a key that is not in the table. */
  ghost predicate StoreKeys(s: State) {
    forall n, k :: 0 <= n < |s.store| && 0 <= k < |s.store[n].records| ==>
      HasKey(s.rows, s.store[n].ref.job, s.store[n].records[k].externalId)
  }

  ghost predicate Tokens(s: State) {
    && |s.claims| == |s.writes| == |s.rows|
    && (forall i :: 0 <= i < |s.rows| ==> RowTokens(s, i))
    && (forall w <- s.workers :: WorkerTokens(s, w))
    && StoreKeys(s)
  }

  lemma HasKeyKept(rows: seq<Row>, rows': seq<Row>, job: JobId, externalId: string)
    requires Evolves(rows, rows') && HasKey(rows, job, externalId)
    ensures HasKey(rows', job, externalId)
  {
    var i :| 0 <= i < |rows| && rows[i].job == job && rows[i].externalId == externalId;
    assert rows'[i].job == job;
  }

  lemma StoreKeysKept(s: State, t: State)
    requires StoreKeys(s) && t.store == s.store && Evolves(s.rows, t.rows)
    ensures StoreKeys(t)
  {
    forall n, k | 0 <= n < |t.store| && 0 <= k < |t.store[n].records|
      ensures HasKey(t.rows, t.store[n].ref.job, t.store[n].records[k].externalId)
    {
      HasKeyKept(s.rows, t.rows, s.store[n].ref.job, s.store[n].records[k].externalId);
    }
  }

  // ---------------------------------------------------------------- quiet steps

  /** The row is as it was but for its lease, or it has been completed with a reference of its own job. */
  ghost predicate RowQuiet(a: Row, b: Row) {
    || b == a.(leaseUntil := b.leaseUntil)
    || (SameKey(a, b) && Terminal(b.status) && b.resultRef.Some? && b.resultRef.value.job == a.job)
  }

  /** The worker holds the rows it held, or none. */
  ghost predicate WorkerQuiet(a: Worker, b: Worker) {
    && b.claims == a.claims && b.job == a.job
    && (|| (ChunkOf(b.phase) == [] && !b.phase.Written?)
        || (ChunkOf(b.phase) == ChunkOf(a.phase) && (b.phase.Written? <==> a.phase.Written?)
            && (b.phase.Written? ==> b.phase.ref == a.phase.ref)))
  }

  /** Steps after which no row has new deliveries or new records. */
  ghost predicate Quiet(s: State, t: State) {
    && t.store == s.store && t.claims == s.claims && t.writes == s.writes && |t.rows| == |s.rows|
    && (forall i :: 0 <= i < |s.rows| ==> RowQuiet(s.rows[i], t.rows[i]))
    && (forall w <- s.workers :: w in t.workers && WorkerQuiet(s.workers[w], t.workers[w]))
    && (forall w <- t.workers :: w !in s.workers ==> t.workers[w].phase.Idle?)
  }

  lemma QuietTokens(s: State, t: State)
    requires Tokens(s) && Quiet(s, t) && Evolves(s.rows, t.rows)
    ensures Tokens(t)
  {
    forall i | 0 <= i < |t.rows| ensures RowTokens(t, i) { assert RowTokens(s, i) && RowQuiet(s.rows[i], t.rows[i]); }
    forall w | w in t.workers ensures WorkerTokens(t, w) {
      if w in s.workers { assert WorkerTokens(s, w) && WorkerQuiet(s.workers[w], t.workers[w]); }
    }
    StoreKeysKept(s, t);
  }

  lemma CompleteQuiet(c: Config, s: State, w: WorkerId)
    requires Inv(c, s) && Tokens(s) && Enabled(c, s, Complete(w))
    ensures Quiet(s, AfterComplete(s, w))
  {
    CompleteEvolves(c, s, w);
    assert WorkerTokens(s, w);
    forall i | 0 <= i < |s.rows| ensures RowQuiet(s.rows[i], AfterComplete(s, w).rows[i]) {
      CompleteEffect(c, s, w, i);
      if Owned(s.rows[i], w) {
        var k :| 0 <= k < |s.workers[w].phase.chunk| && s.workers[w].phase.chunk[k].id == i;
        assert WorkerOk(c, s, w) && ItemOk(s.rows, s.workers[w].job, s.workers[w].phase.chunk[k]);
      }
    }
  }

  lemma RenewQuiet(c: Config, s: State, w: WorkerId)
    requires Enabled(c, s, Renew(w))
    ensures Quiet(s, AfterRenew(c, s, w))
  {}

  lemma PhaseQuiet(c: Config, s: State, step: Step)
    requires Enabled(c, s, step) && (step.Lock? || step.Crash? || step.Finish? || step.Spawn? || step.Tick?)
    ensures Quiet(s, Next(c, s, step))
  {
    var t := Next(c, s, step);
    assert t.rows == s.rows && t.store == s.store;
    forall w | w in s.workers ensures w in t.workers && WorkerQuiet(s.workers[w], t.workers[w]) {}
  }

  lemma QuietStep(c: Config, s: State, step: Step)
    requires Inv(c, s) && Tokens(s) && Enabled(c, s, step)
    requires !step.Insert? && !step.Commit? && !step.Write?
    ensures Quiet(s, Next(c, s, step))
  {
    match step
    case Complete(w) => CompleteQuiet(c, s, w);
    case Renew(w) => RenewQuiet(c, s, w);
    case _ => PhaseQuiet(c, s, step);
  }

  // ----------------------------------------------------------------- inserting

  lemma {:induction false} StoredForNone(s: State, store: seq<StoredChunk>, job: JobId, externalId: string)
    requires forall n, k :: 0 <= n < |store| && 0 <= k < |store[n].records| ==>
               HasKey(s.rows, store[n].ref.job, store[n].records[k].externalId)
    requires !HasKey(s.rows, job, externalId)
    ensures StoredFor(store, job, externalId) == 0
    decreases |store|
  {
    if store != [] {
      var last := store[|store| - 1];
      StoredForNone(s, store[..|store| - 1], job, externalId);
      if last.ref.job == job {
        forall k | 0 <= k < |last.records| ensures last.records[k].externalId != externalId {
          assert HasKey(s.rows, store[|store| - 1].ref.job, store[|store| - 1].records[k].externalId);
        }
        CountInNone(last.records, externalId);
      }
    }
  }

  lemma InsertShape(s: State, job: JobId, items: seq<PromptItem>, failed: seq<string>, i: nat)
    requires |s.claims| == |s.writes| == |s.rows| && i < |AfterInsert(s, job, items, failed).rows|
    ensures var t := AfterInsert(s, job, items, failed);
            && |t.claims| == |t.writes| == |t.rows| && t.store == s.store && t.workers == s.workers && s.rows <= t.rows
            && (if i < |s.rows| then t.claims[i] == s.claims[i] && t.writes[i] == s.writes[i] && t.rows[i] == s.rows[i]
                else t.claims[i] == {} && t.writes[i] == {} && t.rows[i] in NewRows(job, items, failed))
  {
    InsertRowsFacts(s.rows, NewRows(job, items, failed));
  }

  lemma NewKey(rows: seq<Row>, job: JobId, items: seq<PromptItem>, failed: seq<string>, i: nat)
    requires UniqueKeys(rows) && |rows| <= i < |InsertRows(rows, NewRows(job, items, failed))|
    ensures var row := InsertRows(rows, NewRows(job, items, failed))[i]; !HasKey(rows, row.job, row.externalId)
  {
    var r := InsertRows(rows, NewRows(job, items, failed));
    InsertRowsFacts(rows, NewRows(job, items, failed));
    assert forall j :: 0 <= j < |rows| ==> !SameKey(r[j], r[i]) && r[j] == rows[j];
  }

  lemma InsertRowTokens(c: Config, s: State, job: JobId, items: seq<PromptItem>, failed: seq<string>, i: nat)
    requires Inv(c, s) && Tokens(s) && i < |AfterInsert(s, job, items, failed).rows|
    ensures var t := AfterInsert(s, job, items, failed);
            |t.claims| == |t.writes| == |t.rows| && RowTokens(t, i)
  {
    var t := AfterInsert(s, job, items, failed);
    InsertShape(s, job, items, failed, i);
    if i < |s.rows| {
      assert RowTokens(s, i);
    } else {
      NewKey(s.rows, job, items, failed, i);
      StoredForNone(s, s.store, t.rows[i].job, t.rows[i].externalId);
    }
  }

  lemma InsertTokens(c: Config, s: State, job: JobId, items: seq<PromptItem>, failed: seq<string>)
    requires Inv(c, s) && Tokens(s)
    ensures Tokens(AfterInsert(s, job, items, failed))
  {
    var t := AfterInsert(s, job, items, failed);
    assert |t.claims| == |t.writes| == |t.rows|;
    forall i | 0 <= i < |t.rows| ensures RowTokens(t, i) { InsertRowTokens(c, s, job, items, failed, i); }
    forall w | w in t.workers ensures WorkerTokens(t, w) {
      assert WorkerTokens(s, w) && WorkerOk(c, s, w);
      var chunk := ChunkOf(s.workers[w].phase);
      forall k | 0 <= k < |chunk| ensures chunk[k].id < |s.rows| { assert ItemOk(s.rows, s.workers[w].job, chunk[k]); }
    }
    InsertEvolves(s, job, items, failed);
    StoreKeysKept(s, t);
  }

  // ------------------------------------------------------------------ claiming

  /** What a commit does to one row and its history. */
  lemma CommitShape(c: Config, s: State, w: WorkerId, order: seq<nat>, i: nat)
    requires Enabled(c, s, Commit(w, order)) && i < |s.rows| && |s.claims| == |s.writes| == |s.rows|
    ensures var t, claim := AfterCommit(c, s, w, order), s.workers[w].claims + 1;
            && |t.rows| == |t.claims| == |t.writes| == |s.rows| && t.writes[i] == s.writes[i] && t.store == s.store
            && t.workers.Keys == s.workers.Keys && t.workers[w].claims == claim
            && (forall v <- s.workers :: s.workers[v].claims <= t.workers[v].claims)
            && (if i in order
                then t.claims[i] == s.claims[i] + {Token(w, claim)}
                     && t.rows[i] == s.rows[i].(status := Claimed, workerId := Some(w),
                                                leaseUntil := Some(s.workers[w].last + c.ttl),
                                                attempts := s.rows[i].attempts + 1)
                else t.claims[i] == s.claims[i] && t.rows[i] == s.rows[i])
  {
    assert i in order <==> i in IdSet(order);
    var t := AfterCommit(c, s, w, order);
    assert t.rows == ClaimRows(s.rows, IdSet(order), w, s.workers[w].last + c.ttl);
    assert t.claims == AddToken(s.claims, IdSet(order), Token(w, s.workers[w].claims + 1));
  }

  lemma OpenRow(c: Config, s: State, w: WorkerId, order: seq<nat>, i: nat)
    requires Inv(c, s) && Tokens(s) && Enabled(c, s, Commit(w, order)) && i < |s.rows| && i in order
    ensures Token(w, s.workers[w].claims + 1) !in s.claims[i] && !Terminal(s.rows[i].status)
            && s.rows[i].resultRef.None?
  {
    CommitFacts(c, s, w, order, i);
    assert RowTokens(s, i) && RowOk(s, i);
  }

  lemma CommitRowTokens(c: Config, s: State, w: WorkerId, order: seq<nat>, i: nat)
    requires Inv(c, s) && Tokens(s) && Enabled(c, s, Commit(w, order)) && i < |s.rows|
    ensures |AfterCommit(c, s, w, order).claims| == |AfterCommit(c, s, w, order).writes| == |s.rows|
    ensures RowTokens(AfterCommit(c, s, w, order), i)
  {
    CommitShape(c, s, w, order, i);
    assert RowTokens(s, i);
    if i in order { OpenRow(c, s, w, order, i); }
    GrowTokens(s, AfterCommit(c, s, w, order), i, Token(w, s.workers[w].claims + 1));
  }

  /** One more delivery of a row that is not terminal. */
  lemma GrowTokens(s: State, t: State, i: nat, token: Token)
    requires i < |s.rows| && i < |t.rows| && i < |s.claims| && i < |t.claims| && i < |s.writes| && i < |t.writes|
    requires RowTokens(s, i) && t.writes[i] == s.writes[i] && t.store == s.store && SameKey(s.rows[i], t.rows[i])
    requires forall v <- s.workers :: v in t.workers && s.workers[v].claims <= t.workers[v].claims
    requires token.worker in t.workers && token.claim <= t.workers[token.worker].claims
    requires
      || (t.claims[i] == s.claims[i] && t.rows[i] == s.rows[i])
      || (t.claims[i] == s.claims[i] + {token} && token !in s.claims[i] && !Terminal(s.rows[i].status)
          && !Terminal(t.rows[i].status) && t.rows[i].attempts == s.rows[i].attempts + 1 && t.rows[i].resultRef.None?)
    ensures RowTokens(t, i)
  {}

  lemma CommitWorkerTokens(c: Config, s: State, w: WorkerId, order: seq<nat>)
    requires Inv(c, s) && Tokens(s) && Enabled(c, s, Commit(w, order))
    ensures WorkerTokens(AfterCommit(c, s, w, order), w)
  {
    var t := AfterCommit(c, s, w, order);
    forall k | 0 <= k < |order|
      ensures Token(w, t.workers[w].claims) in t.claims[order[k]]
              && Token(w, t.workers[w].claims) !in t.writes[order[k]]
    {
      assert order[k] in order;
      CommitShape(c, s, w, order, order[k]);
      OpenRow(c, s, w, order, order[k]);
      assert RowTokens(s, order[k]);
    }
    assert ChunkOf(t.workers[w].phase) == Items(t.rows, order);
  }

  lemma CommitTokens(c: Config, s: State, w: WorkerId, order: seq<nat>)
    requires Inv(c, s) && Tokens(s) && Enabled(c, s, Commit(w, order))
    ensures Tokens(AfterCommit(c, s, w, order))
  {
    var t := AfterCommit(c, s, w, order);
    CommitEvolves(c, s, w, order);
    forall i | 0 <= i < |t.rows| ensures RowTokens(t, i) { CommitRowTokens(c, s, w, order, i); }
    forall v | v in t.workers ensures WorkerTokens(t, v) {
      if v == w { CommitWorkerTokens(c, s, w, order); } else { assert WorkerTokens(s, v); }
    }
    StoreKeysKept(s, t);
  }

  // ------------------------------------------------------------------- writing

  /** A written chunk adds one record for each row in it and none for any other row. */
  lemma WrittenCount(c: Config, s: State, w: WorkerId, i: nat)
    requires Inv(c, s) && w in s.workers && s.workers[w].phase.Ready? && i < |s.rows|
    ensures (if s.workers[w].job == s.rows[i].job then CountIn(s.workers[w].phase.results, s.rows[i].externalId) else 0)
            == if HoldsRow(s.workers[w].phase, i) then 1 else 0
    ensures HoldsRow(s.workers[w].phase, i) <==> i in ChunkIds(s.workers[w].phase.chunk)
  {
    var p, job := s.workers[w].phase, s.workers[w].job;
    assert WorkerOk(c, s, w);
    if HoldsRow(p, i) {
      var k :| 0 <= k < |p.chunk| && p.chunk[k].id == i;
      assert ItemOk(s.rows, job, p.chunk[k]);
      forall l | 0 <= l < |p.results| && l != k ensures p.results[l].externalId != s.rows[i].externalId {
        if p.results[l].externalId == s.rows[i].externalId { SameItem(s.rows, c.size, job, p.chunk, k, l); }
      }
      CountInOnce(p.results, s.rows[i].externalId, k);
    } else if job == s.rows[i].job {
      forall l | 0 <= l < |p.results| ensures p.results[l].externalId != s.rows[i].externalId {
        assert ItemOk(s.rows, job, p.chunk[l]);
        var j := p.chunk[l].id;
        if p.results[l].externalId == s.rows[i].externalId {
          assert SameKey(s.rows[i], s.rows[j]) && SameKey(s.rows[j], s.rows[i]);
        }
      }
      CountInNone(p.results, s.rows[i].externalId);
    }
  }

  lemma WriteRowTokens(c: Config, s: State, w: WorkerId, chunkId: nat, i: nat)
    requires Inv(c, s) && Tokens(s) && Enabled(c, s, Write(w, chunkId)) && i < |s.rows|
    ensures RowTokens(AfterWrite(s, w, chunkId), i)
  {
    var t := AfterWrite(s, w, chunkId);
    assert RowTokens(s, i) && WorkerTokens(s, w);
    WrittenCount(c, s, w, i);
    assert t.store[..|t.store| - 1] == s.store;
    if HoldsRow(s.workers[w].phase, i) {
      var k :| 0 <= k < |s.workers[w].phase.chunk| && s.workers[w].phase.chunk[k].id == i;
      assert Token(w, s.workers[w].claims) in s.claims[i];
    }
  }

  lemma WriteTokens(c: Config, s: State, w: WorkerId, chunkId: nat)
    requires Inv(c, s) && Tokens(s) && Enabled(c, s, Write(w, chunkId))
    ensures Tokens(AfterWrite(s, w, chunkId))
  {
    var t := AfterWrite(s, w, chunkId);
    forall i | 0 <= i < |t.rows| ensures RowTokens(t, i) { WriteRowTokens(c, s, w, chunkId, i); }
    forall v | v in t.workers ensures WorkerTokens(t, v) { assert WorkerTokens(s, v); }
    var chunk, results := s.workers[w].phase.chunk, s.workers[w].phase.results;
    forall n, k | 0 <= n < |t.store| && 0 <= k < |t.store[n].records|
      ensures HasKey(t.rows, t.store[n].ref.job, t.store[n].records[k].externalId)
    {
      if n < |s.store| {
        assert HasKey(s.rows, s.store[n].ref.job, s.store[n].records[k].externalId);
      } else {
        assert WorkerOk(c, s, w) && ItemOk(s.rows, s.workers[w].job, chunk[k]);
        assert s.rows[chunk[k].id].externalId == results[k].externalId;
      }
    }
  }

  // ---------------------------------------------------------------- whole runs

  lemma TokensStep(c: Config, s: State, step: Step)
    requires Inv(c, s) && Tokens(s) && Enabled(c, s, step)
    ensures Tokens(Next(c, s, step))
  {
    match step
    case Insert(job, items, failed) => InsertTokens(c, s, job, items, failed);
    case Commit(w, order) => CommitTokens(c, s, w, order);
    case Write(w, chunkId) => WriteTokens(c, s, w, chunkId);
    case _ =>
      QuietStep(c, s, step);
      StepEvolves(c, s, step);
      QuietTokens(s, Next(c, s, step));
  }

  lemma {:induction false} TokensRun(c: Config, s: State, steps: seq<Step>)
    requires Inv(c, s) && Tokens(s) && Valid(c, s, steps)
    ensures Inv(c, Final(c, s, steps)) && Tokens(Final(c, s, steps))
    decreases |steps|
  {
    if steps != [] {
      StepInv(c, s, steps[0]);
      TokensStep(c, s, steps[0]);
      TokensRun(c, Next(c, s, steps[0]), steps[1..]);
    }
  }

  function ClaimsOf(s: State, i: nat): set<Token> {
    if i < |s.claims| then s.claims[i] else {}
  }

  /** The recorded deliveries of a row grow by exactly the claims of the run that took it. */
  lemma {:induction false} ClaimsAreDeliveries(c: Config, s: State, steps: seq<Step>, i: nat)
    requires Inv(c, s) && Tokens(s) && Valid(c, s, steps)
    ensures |ClaimsOf(Final(c, s, steps), i)| == |ClaimsOf(s, i)| + Timing.Deliveries(c, s, steps, i)
    decreases |steps|
  {
    if steps != [] {
      var t := Next(c, s, steps[0]);
      StepInv(c, s, steps[0]);
      TokensStep(c, s, steps[0]);
      ClaimsStep(c, s, steps[0], i);
      ClaimsAreDeliveries(c, t, steps[1..], i);
    }
  }

  lemma ClaimsStep(c: Config, s: State, step: Step, i: nat)
    requires Inv(c, s) && Tokens(s) && Enabled(c, s, step)
    ensures |ClaimsOf(Next(c, s, step), i)| == |ClaimsOf(s, i)| + if step.Commit? && i in step.order then 1 else 0
  {
    if step.Commit? {
      CommitClaims(c, s, step.w, step.order, i);
    } else {
      ClaimsKept(c, s, step, i);
    }
  }

  lemma CommitClaims(c: Config, s: State, w: WorkerId, order: seq<nat>, i: nat)
    requires Inv(c, s) && Tokens(s) && Enabled(c, s, Commit(w, order))
    ensures |ClaimsOf(AfterCommit(c, s, w, order), i)| == |ClaimsOf(s, i)| + if i in order then 1 else 0
  {
    if i in order {
      CommitFacts(c, s, w, order, i);
      OpenRow(c, s, w, order, i);
    }
    if i < |s.rows| { CommitShape(c, s, w, order, i); }
  }

  lemma ClaimsKept(c: Config, s: State, step: Step, i: nat)
    requires Enabled(c, s, step) && !step.Commit?
    ensures ClaimsOf(Next(c, s, step), i) == ClaimsOf(s, i)
  {
    match step
    case Insert(job, items, failed) => assert Next(c, s, step).claims == Grow(s.claims, |Next(c, s, step).rows|);
    case _ =>
  }

  /** Over any run: a row has at most as many stored records as deliveries, and at least one if a worker made it
      terminal. */
  lemma StorageBounds(c: Config, s: State, steps: seq<Step>, i: nat)
    requires Initial(s) && Valid(c, s, steps) && i < |Final(c, s, steps).rows|
    ensures var t := Final(c, s, steps);
            && StoredFor(t.store, t.rows[i].job, t.rows[i].externalId) <= Timing.Deliveries(c, s, steps, i)
            && (Terminal(t.rows[i].status) && t.rows[i].resultRef.Some? ==>
                  StoredFor(t.store, t.rows[i].job, t.rows[i].externalId) >= 1)
  {
    var t := Final(c, s, steps);
    TokensRun(c, s, steps);
    ClaimsAreDeliveries(c, s, steps, i);
    assert RowTokens(t, i);
    SubsetSize(t.writes[i], t.claims[i]);
    AtLeastOne(c, t, i);
  }

  lemma AtLeastOne(c: Config, t: State, i: nat)
    requires Inv(c, t) && Tokens(t) && i < |t.rows|
    ensures t.rows[i].resultRef.Some? ==> StoredFor(t.store, t.rows[i].job, t.rows[i].externalId) >= 1
  {
    if t.rows[i].resultRef.Some? {
      assert RowOk(t, i) && RowTokens(t, i);
      var n, k :| 0 <= n < |t.store| && 0 <= k < |t.store[n].records|
                  && t.store[n].ref == t.rows[i].resultRef.value && Matches(t.store[n].records[k], t.rows[i]);
      StoredForAt(t.store, n, k);
    }
  }

  lemma {:induction false} StoredForAt(store: seq<StoredChunk>, n: nat, k: nat)
    requires n < |store| && k < |store[n].records|
    ensures StoredFor(store, store[n].ref.job, store[n].records[k].externalId) >= 1
    decreases |store|
  {
    if n == |store| - 1 {
      CountInAt(store[n].records, k);
    } else {
      StoredForAt(store[..|store| - 1], n, k);
    }
  }

  lemma {:induction false} CountInAt(records: seq<ResultRecord>, k: nat)
    requires k < |records|
    ensures CountIn(records, records[k].externalId) >= 1
  {
    if k > 0 { CountInAt(records[1..], k - 1); }
  }
}
