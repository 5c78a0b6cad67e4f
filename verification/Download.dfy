/** The length of a job's download, over all runs and over runs without lapse and crash. */
module Download {
  import opened Sets
  import opened Domain
  import opened QueueTable
  import opened Protocol
  import opened Invariant
  import opened Delivery
  import Timing

  /** Stored deliveries of the job's rows with ids below `n`. */
  function Writes(s: State, job: JobId, n: nat): nat
    requires n <= |s.rows| && n <= |s.writes|
  {
    if n == 0 then 0
    else Writes(s, job, n - 1) + if s.rows[n - 1].job == job then |s.writes[n - 1]| else 0
  }

  function Below(ids: set<nat>, n: nat): set<nat> {
    set i | i in ids && i < n
  }

  lemma {:induction false} WritesSame(s: State, t: State, job: JobId, n: nat)
    requires n <= |s.rows| && n <= |s.writes| && n <= |t.rows| && n <= |t.writes|
    requires forall i :: 0 <= i < n ==> t.rows[i].job == s.rows[i].job && t.writes[i] == s.writes[i]
    ensures Writes(t, job, n) == Writes(s, job, n)
  {
    if n > 0 { WritesSame(s, t, job, n - 1); }
  }

  lemma {:induction false} WritesNew(t: State, job: JobId, m: nat, n: nat)
    requires m <= n <= |t.rows| && n <= |t.writes|
    requires forall i :: m <= i < n ==> t.writes[i] == {}
    ensures Writes(t, job, n) == Writes(t, job, m)
  {
    if m < n { WritesNew(t, job, m, n - 1); }
  }

  /** Adding a new token to some rows of the job adds as many stored deliveries. */
  lemma {:induction false} WritesAdd(s: State, t: State, job: JobId, ids: set<nat>, token: Token, n: nat)
    requires n <= |s.rows| == |s.writes| && t.rows == s.rows && t.writes == AddToken(s.writes, ids, token)
    requires forall i <- ids :: i < |s.rows| && s.rows[i].job == job && token !in s.writes[i]
    ensures Writes(t, job, n) == Writes(s, job, n) + |Below(ids, n)|
  {
    if n == 0 {
      assert Below(ids, 0) == {};
    } else {
      WritesAdd(s, t, job, ids, token, n - 1);
      if n - 1 in ids {
        assert Below(ids, n) == Below(ids, n - 1) + {n - 1};
      } else {
        assert Below(ids, n) == Below(ids, n - 1);
      }
    }
  }

  lemma {:induction false} ChunkIdsSize(chunk: seq<ClaimedItem>)
    requires forall k, l :: 0 <= k < l < |chunk| ==> chunk[k].id != chunk[l].id
    ensures |ChunkIds(chunk)| == |chunk|
  {
    if chunk == [] {
      assert ChunkIds(chunk) == {};
    } else {
      var front, last := chunk[..|chunk| - 1], chunk[|chunk| - 1];
      ChunkIdsSize(front);
      forall i | i in ChunkIds(chunk) ensures i in ChunkIds(front) + {last.id} {
        var k :| 0 <= k < |chunk| && chunk[k].id == i;
        if k < |front| { assert front[k].id == i; }
      }
      forall i | i in ChunkIds(front) + {last.id} ensures i in ChunkIds(chunk) {
        if i in ChunkIds(front) {
          var k :| 0 <= k < |front| && front[k].id == i;
          assert chunk[k].id == i;
        } else {
          assert chunk[|chunk| - 1].id == i;
        }
      }
      assert ChunkIds(chunk) == ChunkIds(front) + {last.id};
    }
  }

  /** The download has one record for each stored delivery of a row. */
  ghost predicate Counted(s: State, job: JobId) {
    |s.writes| == |s.rows| && DownloadLength(s.store, job) == Writes(s, job, |s.rows|)
  }

  lemma WriteCounted(c: Config, s: State, w: WorkerId, chunkId: nat, job: JobId)
    requires Inv(c, s) && Tokens(s) && Enabled(c, s, Write(w, chunkId)) && Counted(s, job)
    ensures Counted(AfterWrite(s, w, chunkId), job)
  {
    var t := AfterWrite(s, w, chunkId);
    var wk := s.workers[w];
    var ids, token := ChunkIds(wk.phase.chunk), Token(w, wk.claims);
    assert WorkerOk(c, s, w) && WorkerTokens(s, w);
    assert t.store[..|t.store| - 1] == s.store;
    assert forall k :: 0 <= k < |wk.phase.chunk| ==> ItemOk(s.rows, wk.job, wk.phase.chunk[k]);
    if wk.job == job {
      WritesAdd(s, t, job, ids, token, |s.rows|);
      assert Below(ids, |s.rows|) == ids;
      ChunkIdsSize(wk.phase.chunk);
    } else {
      WritesOther(s, t, job, ids, |s.rows|);
    }
  }

  lemma {:induction false} WritesOther(s: State, t: State, job: JobId, ids: set<nat>, n: nat)
    requires n <= |s.rows| == |s.writes| == |t.writes| && t.rows == s.rows
    requires forall i <- ids :: i < |s.rows| && s.rows[i].job != job
    requires forall i :: 0 <= i < |s.rows| && i !in ids ==> t.writes[i] == s.writes[i]
    ensures Writes(t, job, n) == Writes(s, job, n)
  {
    if n > 0 { WritesOther(s, t, job, ids, n - 1); }
  }

  lemma CountedStep(c: Config, s: State, step: Step, job: JobId)
    requires Inv(c, s) && Tokens(s) && Enabled(c, s, step) && Counted(s, job)
    ensures Counted(Next(c, s, step), job)
  {
    var t := Next(c, s, step);
    StepEvolves(c, s, step);
    if step.Write? {
      WriteCounted(c, s, step.w, step.chunkId, job);
    } else {
      WritesKept(c, s, step);
      WritesSame(s, t, job, |s.rows|);
      WritesNew(t, job, |s.rows|, |t.rows|);
    }
  }

  lemma WritesKept(c: Config, s: State, step: Step)
    requires Inv(c, s) && Tokens(s) && Enabled(c, s, step) && !step.Write?
    ensures var t := Next(c, s, step);
            && t.store == s.store && |s.rows| <= |t.rows| == |t.writes|
            && (forall i :: 0 <= i < |t.rows| ==> t.writes[i] == if i < |s.rows| then s.writes[i] else {})
  {
    match step
    case Insert(job, items, failed) => assert Next(c, s, step).writes == Grow(s.writes, |Next(c, s, step).rows|);
    case Commit(w, order) => CommitEvolves(c, s, w, order);
    case _ => QuietStep(c, s, step);
  }

  /** In every run the download holds one record per stored delivery. */
  lemma {:induction false} CountedRun(c: Config, s: State, steps: seq<Step>, job: JobId)
    requires Inv(c, s) && Tokens(s) && Valid(c, s, steps) && Counted(s, job)
    ensures Tokens(Final(c, s, steps)) && Counted(Final(c, s, steps), job)
    decreases |steps|
  {
    if steps != [] {
      StepInv(c, s, steps[0]);
      TokensStep(c, s, steps[0]);
      CountedStep(c, s, steps[0], job);
      CountedRun(c, Next(c, s, steps[0]), steps[1..], job);
    }
  }

  // ------------------------------------------------ no lapse, no crash: exactly once

  /** The rows of a job a worker has completed: all terminal rows but those rejected at ingest. */
  function Processed(rows: seq<Row>, job: JobId): set<nat> {
    set i: nat | i < |rows| && rows[i].job == job && rows[i].resultRef.Some?
  }

  function RejectedIds(rows: seq<Row>, job: JobId): set<nat> {
    set i: nat | i < |rows| && rows[i].job == job && rows[i].status.Failed? && rows[i].resultRef.None?
  }

  lemma {:induction false} WritesAreProcessed(t: State, job: JobId, n: nat)
    requires n <= |t.rows| == |t.writes|
    requires forall i :: 0 <= i < |t.rows| && t.rows[i].job == job ==>
               |t.writes[i]| == if t.rows[i].resultRef.Some? then 1 else 0
    ensures Writes(t, job, n) == |Below(Processed(t.rows, job), n)|
  {
    if n == 0 {
      assert Below(Processed(t.rows, job), 0) == {};
    } else {
      WritesAreProcessed(t, job, n - 1);
      var p := Processed(t.rows, job);
      if n - 1 in p {
        assert Below(p, n) == Below(p, n - 1) + {n - 1};
      } else {
        assert Below(p, n) == Below(p, n - 1);
      }
    }
  }

  /** When every row of the job is terminal, the processed ones are all but the rejected ones. */
  lemma ProcessedCount(c: Config, t: State, job: JobId)
    requires Inv(c, t) && forall i :: 0 <= i < |t.rows| && t.rows[i].job == job ==> Terminal(t.rows[i].status)
    ensures |Processed(t.rows, job)| ==
            |WithStatus(t.rows, job, Succeeded)| + |WithStatus(t.rows, job, Failed)| - |RejectedIds(t.rows, job)|
  {
    var ok, bad, rejected := WithStatus(t.rows, job, Succeeded), WithStatus(t.rows, job, Failed),
        RejectedIds(t.rows, job);
    forall i | 0 <= i < |t.rows| && t.rows[i].job == job
      ensures i in Processed(t.rows, job) <==> i in ok || (i in bad && i !in rejected)
    {
      assert RowOk(t, i);
    }
    assert Processed(t.rows, job) == ok + (bad - rejected);
    assert ok !! (bad - rejected);
    assert rejected <= bad;
  }

  /** Punctual, crash-free and complete: the download holds each processed row exactly once. */
  lemma DownloadExactlyOnce(c: Config, b: Timing.Bounds, s: State, steps: seq<Step>, job: JobId)
    requires b.renew + b.commit <= c.ttl && Initial(s) && Valid(c, s, steps)
    requires Timing.PunctualRun(c, b, s, steps) && Timing.NoCrash(steps)
    requires forall i :: 0 <= i < |Final(c, s, steps).rows| && Final(c, s, steps).rows[i].job == job ==>
               Terminal(Final(c, s, steps).rows[i].status)
    ensures var t := Final(c, s, steps);
            && (forall i :: 0 <= i < |t.rows| && t.rows[i].job == job ==>
                  StoredFor(t.store, job, t.rows[i].externalId) == if t.rows[i].resultRef.Some? then 1 else 0)
            && DownloadLength(t.store, job) ==
               |WithStatus(t.rows, job, Succeeded)| + |WithStatus(t.rows, job, Failed)| - |RejectedIds(t.rows, job)|
  {
    var t := Final(c, s, steps);
    TokensRun(c, s, steps);
    CountedRun(c, s, steps, job);
    forall i | 0 <= i < |t.rows| && t.rows[i].job == job
      ensures |t.writes[i]| == (if t.rows[i].resultRef.Some? then 1 else 0)
      ensures |t.writes[i]| == StoredFor(t.store, job, t.rows[i].externalId)
    {
      assert RowTokens(t, i);
      SubsetSize(t.writes[i], t.claims[i]);
      ClaimsAreDeliveries(c, s, steps, i);
      Timing.ClaimedOnce(c, b, s, steps, i);
      AtLeastOne(c, t, i);
    }
    WritesAreProcessed(t, job, |t.rows|);
    assert Below(Processed(t.rows, job), |t.rows|) == Processed(t.rows, job);
    ProcessedCount(c, t, job);
  }
}
