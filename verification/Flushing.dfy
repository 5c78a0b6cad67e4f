/** An ingest flush by flush, repeated any number of times: what the table of a job is seeded with. */
module Flushing {
  import opened Domain
  import opened QueueTable
  import opened Protocol
  import opened Invariant
  import opened Ingest

  type Positive = n: nat | n >= 1 witness 1

  /** The entries of flush `k`. */
  function BatchAt(entries: seq<Entry>, size: Positive, k: nat): seq<Entry>
    decreases k
  {
    if |entries| < size then entries
    else if k == 0 then entries[..size]
    else BatchAt(entries[size..], size, k - 1)
  }

  function Max(a: nat, b: nat): nat {
    if a >= b then a else b
  }

  // ---------------------------------------------------- keys and prompts of a job

  lemma {:induction false} SeedsSame(rows: seq<Row>, rows': seq<Row>, job: JobId)
    requires |rows| == |rows'|
    requires forall i :: 0 <= i < |rows| ==> SameKey(rows'[i], rows[i]) && rows'[i].prompt == rows[i].prompt
    ensures Seeds(rows', job) == Seeds(rows, job)
    decreases |rows|
  {
    if rows != [] {
      var n := |rows| - 1;
      assert forall i :: 0 <= i < n ==> rows[..n][i] == rows[i] && rows'[..n][i] == rows'[i];
      SeedsSame(rows[..n], rows'[..n], job);
    }
  }

  lemma {:induction false} SeedsOther(rows: seq<Row>, new_: seq<Row>, job: JobId)
    requires forall row <- new_ :: row.job != job
    ensures Seeds(InsertRows(rows, new_), job) == Seeds(rows, job)
    decreases |new_|
  {
    if new_ != [] {
      var mid := InsertOne(rows, new_[0]);
      assert new_[0] in new_ && (mid == rows || mid[..|mid| - 1] == rows);
      SeedsOther(mid, new_[1..], job);
    }
  }

  lemma SeedsStep(c: Config, s: State, step: Step, job: JobId)
    requires Inv(c, s) && Enabled(c, s, step) && (step.Insert? ==> step.job != job)
    ensures Seeds(Next(c, s, step).rows, job) == Seeds(s.rows, job)
  {
    if step.Insert? {
      SeedsOther(s.rows, NewRows(step.job, step.items, step.failed), job);
    } else {
      StepEvolves(c, s, step);
      if step.Complete? { CompleteEvolves(c, s, step.w); }
      SeedsSame(s.rows, Next(c, s, step).rows, job);
    }
  }

  /** One more flush writes one more batch. */
  lemma {:induction false} FlushWritingNext(entries: seq<Entry>, size: Positive, k: nat)
    requires k < Flushes(|entries|, size)
    ensures FlushWriting(entries, size, k + 1) == FlushWriting(entries, size, k)
            + BatchWriting(BatchAt(entries, size, k))
    decreases k
  {
    if k > 0 && |entries| >= size {
      FlushWritingNext(entries[size..], size, k - 1);
      assert BatchWriting(entries[..size])
             + (FlushWriting(entries[size..], size, k - 1) + BatchWriting(BatchAt(entries[size..], size, k - 1)))
          == BatchWriting(entries[..size]) + FlushWriting(entries[size..], size, k - 1)
            + BatchWriting(BatchAt(entries[size..], size, k - 1));
    }
  }

  lemma {:induction false} AllFlushes(entries: seq<Entry>, size: Positive)
    ensures FlushWriting(entries, size, Flushes(|entries|, size)) == WritingOf(entries, size)
    decreases |entries|
  {
    if |entries| >= size { AllFlushes(entries[size..], size); }
  }

  lemma {:induction false} FlushWritingGrows(entries: seq<Entry>, size: Positive, k: nat, m: nat)
    requires k <= m
    ensures FlushWriting(entries, size, k) <= FlushWriting(entries, size, m)
    decreases k
  {
    if k > 0 && |entries| >= size { FlushWritingGrows(entries[size..], size, k - 1, m - 1); }
  }

  /** Writing again what has been written before changes nothing. */
  lemma FirstAgain(a: Writing, b: Writing, d: Writing)
    requires a + b <= d
    ensures First(First(map[], d), b) == First(map[], d)
  {
    var l, r := First(First(map[], d), b), First(map[], d);
    forall x ensures x in l <==> x in r
             ensures x in l ==> l[x] == r[x]
    {
      FirstLookup(r, b, x);
      FirstLookup(map[], d, x);
      LookupConcat(a, b, x);
      LookupConcat(a + b, d[|a + b|..], x);
      assert (a + b) + d[|a + b|..] == d;
    }
  }

  /** The keys and prompts after flush `k` of some execution, when `m` different flushes have been made before. */
  lemma FlushSeedsStep(rows: seq<Row>, job: JobId, entries: seq<Entry>, size: Positive, k: nat, m: nat)
    requires k < Flushes(|entries|, size) && k <= m
    requires Seeds(rows, job) == First(map[], FlushWriting(entries, size, m))
    ensures Seeds(InsertBatch(rows, job, BatchAt(entries, size, k)), job)
            == First(map[], FlushWriting(entries, size, Max(m, k + 1)))
  {
    var batch := BatchAt(entries, size, k);
    BatchSeeds(rows, job, batch);
    FlushWritingNext(entries, size, k);
    if k == m {
      FirstConcat(map[], FlushWriting(entries, size, m), BatchWriting(batch));
    } else {
      FlushWritingGrows(entries, size, k + 1, m);
      FirstAgain(FlushWriting(entries, size, k), BatchWriting(batch), FlushWriting(entries, size, m));
    }
  }

  /** A flush made before adds nothing. */
  lemma FlushAgain(rows: seq<Row>, job: JobId, entries: seq<Entry>, size: Positive, k: nat, m: nat)
    requires k < Flushes(|entries|, size) && k < m
    requires Seeds(rows, job) == First(map[], FlushWriting(entries, size, m))
    ensures InsertBatch(rows, job, BatchAt(entries, size, k)) == rows
  {
    var batch, before := BatchAt(entries, size, k), FlushWriting(entries, size, k);
    var all := FlushWriting(entries, size, m);
    FlushWritingNext(entries, size, k);
    FlushWritingGrows(entries, size, k + 1, m);
    assert all == (before + BatchWriting(batch)) + all[|before + BatchWriting(batch)|..];
    forall x | Lookup(BatchWriting(batch), x).Some? ensures x in Seeds(rows, job) {
      LookupConcat(before, BatchWriting(batch), x);
      LookupConcat(before + BatchWriting(batch), all[|before + BatchWriting(batch)|..], x);
      FirstLookup(map[], all, x);
    }
    BatchPresent(rows, job, batch);
  }
}
