/** Ingestion as a function of the input: what is written, in which batches, and what ends up in the table. */
module Ingest {
  import opened Domain
  import opened QueueTable
  import opened Text
  import opened Validation

  datatype RawId = NoId | TextId(text: string) | OtherId(repr: string)
  datatype RawPrompt = TextPrompt(text: string) | NoTextPrompt
  datatype Obj = NotAnObject | Object(id: RawId, prompt: RawPrompt)

  /** A row of the input after validation. */
  datatype Entry = Accepted(item: PromptItem) | Rejected(id: string, malformed: bool) {
    function Key(): string {
      if Accepted? then item.externalId else id
    }
  }

  function Fallback(rowNumber: nat): string {
    "row-" + NatToString(rowNumber)
  }

  /** The item of an input object, if it is well formed, and its external id. */
  function ToItem(obj: Obj, rowNumber: nat): (Option<PromptItem>, string) {
    if obj.NotAnObject? then (None, Fallback(rowNumber))
    else
      var externalId := match obj.id
        case NoId => Fallback(rowNumber)
        case TextId(text) => if text == "" then Fallback(rowNumber) else text
        case OtherId(repr) => repr;
      match obj.prompt
      case TextPrompt(text) => (Some(PromptItem(externalId, text)), externalId)
      case NoTextPrompt => (None, externalId)
  }

  /** One input object: its entry, and the ids seen after it. */
  function ToEntry(rules: seq<Rule>, obj: Obj, rowNumber: nat, seen: set<string>): (Entry, set<string>) {
    var (item, externalId) := ToItem(obj, rowNumber);
    match item
    case None => (Rejected(externalId, true), seen)
    case Some(it) =>
      var (errors, after) := CheckAll(rules, it, seen);
      (if errors == [] then Accepted(it) else Rejected(externalId, false), after)
  }

  /** The entries of the remaining objects, when `done` objects have been read. */
  function Entries(rules: seq<Rule>, objs: seq<Obj>, done: nat, seen: set<string>): (r: seq<Entry>)
    ensures |r| == |objs|
  {
    if objs == [] then []
    else
      var (entry, after) := ToEntry(rules, objs[0], done + 1, seen);
      [entry] + Entries(rules, objs[1..], done + 1, after)
  }

  // ----------------------------------------------------------------- batches

  function ItemsOf(batch: seq<Entry>): seq<PromptItem> {
    if batch == [] then []
    else (if batch[0].Accepted? then [batch[0].item] else []) + ItemsOf(batch[1..])
  }

  function FailedOf(batch: seq<Entry>): seq<string> {
    if batch == [] then []
    else (if batch[0].Rejected? then [batch[0].id] else []) + FailedOf(batch[1..])
  }

  function InsertBatch(rows: seq<Row>, job: JobId, batch: seq<Entry>): seq<Row> {
    InsertRows(rows, NewRows(job, ItemsOf(batch), FailedOf(batch)))
  }

  /** The full batches, each flushed as soon as it has `size` entries. */
  function FullBatches(rows: seq<Row>, job: JobId, entries: seq<Entry>, size: nat): seq<Row>
    requires size >= 1
    decreases |entries|
  {
    if |entries| < size then rows
    else FullBatches(InsertBatch(rows, job, entries[..size]), job, entries[size..], size)
  }

  /** A whole ingest: the full batches, and what is left over at the end. */
  function IngestRows(rows: seq<Row>, job: JobId, entries: seq<Entry>, size: nat): seq<Row>
    requires size >= 1
    decreases |entries|
  {
    if |entries| < size then InsertBatch(rows, job, entries)
    else IngestRows(InsertBatch(rows, job, entries[..size]), job, entries[size..], size)
  }

  /** The first `k` flushes only. */
  function FirstFlushes(rows: seq<Row>, job: JobId, entries: seq<Entry>, size: nat, k: nat): seq<Row>
    requires size >= 1
    decreases k
  {
    if k == 0 then rows
    else if |entries| < size then InsertBatch(rows, job, entries)
    else FirstFlushes(InsertBatch(rows, job, entries[..size]), job, entries[size..], size, k - 1)
  }

  /** How many inserts a whole ingest of `n` entries makes. */
  function Flushes(n: nat, size: nat): nat
    requires size >= 1
  {
    if n == 0 then 0 else if n < size then 1 else 1 + Flushes(n - size, size)
  }

  lemma {:induction false} FlushesIsCeiling(n: nat, size: nat)
    requires size >= 1
    ensures size * Flushes(n, size) >= n && (n > 0 ==> size * (Flushes(n, size) - 1) < n)
  {
    if n >= size {
      FlushesIsCeiling(n - size, size);
      assert size * Flushes(n, size) == size + size * Flushes(n - size, size);
      assert size * (Flushes(n, size) - 1) == size * Flushes(n - size, size);
      assert size * (Flushes(n - size, size) - 1) == size * Flushes(n - size, size) - size;
    }
  }

  // -------------------------------------------------- the keys and prompts of a job

  /** External id to prompt; a row without a prompt was rejected. */
  function Seeds(rows: seq<Row>, job: JobId): map<string, Option<string>> {
    if rows == [] then map[]
    else
      var rest, last := Seeds(rows[..|rows| - 1], job), rows[|rows| - 1];
      if last.job == job && last.externalId !in rest then rest[last.externalId := last.prompt] else rest
  }

  lemma {:induction false} SeedsAt(rows: seq<Row>, job: JobId, x: string)
    ensures x in Seeds(rows, job) <==> HasKey(rows, job, x)
    ensures UniqueKeys(rows) ==>
              forall i :: 0 <= i < |rows| && rows[i].job == job && rows[i].externalId == x ==>
                Seeds(rows, job)[x] == rows[i].prompt
    decreases |rows|
  {
    if rows != [] {
      var front, n := rows[..|rows| - 1], |rows| - 1;
      SeedsAt(front, job, x);
      assert forall i :: 0 <= i < n ==> front[i] == rows[i];
      if HasKey(front, job, x) {
        var i :| 0 <= i < |front| && front[i].job == job && front[i].externalId == x;
        assert rows[i] == front[i];
        if UniqueKeys(rows) { assert !SameKey(rows[i], rows[n]); }
      } else if rows[n].job == job && rows[n].externalId == x {
        assert HasKey(rows, job, x);
      }
    }
  }

  /** What is written, in order: key and prompt of each VALUES row. */
  type Writing = seq<(string, Option<string>)>

  function First(m: map<string, Option<string>>, writing: Writing): map<string, Option<string>>
    decreases |writing|
  {
    if writing == [] then m
    else First(if writing[0].0 in m then m else m[writing[0].0 := writing[0].1], writing[1..])
  }

  /** The first value written for a key. */
  function Lookup(writing: Writing, x: string): Option<Option<string>> {
    if writing == [] then None
    else if writing[0].0 == x then Some(writing[0].1)
    else Lookup(writing[1..], x)
  }

  /** First writer wins, and what is there already wins over all. */
  lemma {:induction false} FirstLookup(m: map<string, Option<string>>, writing: Writing, x: string)
    ensures x in First(m, writing) <==> x in m || Lookup(writing, x).Some?
    ensures x in m ==> First(m, writing)[x] == m[x]
    ensures x !in m && Lookup(writing, x).Some? ==> First(m, writing)[x] == Lookup(writing, x).value
    decreases |writing|
  {
    if writing != [] {
      FirstLookup(if writing[0].0 in m then m else m[writing[0].0 := writing[0].1], writing[1..], x);
    }
  }

  lemma {:induction false} LookupConcat(a: Writing, b: Writing, x: string)
    ensures Lookup(a + b, x) == if Lookup(a, x).Some? then Lookup(a, x) else Lookup(b, x)
    decreases |a|
  {
    if a == [] {
      assert a + b == b;
    } else {
      assert (a + b)[1..] == a[1..] + b;
      LookupConcat(a[1..], b, x);
    }
  }

  function PairsOf(rows: seq<Row>): Writing {
    seq(|rows|, i requires 0 <= i < |rows| => (rows[i].externalId, rows[i].prompt))
  }

  function BatchWriting(batch: seq<Entry>): Writing {
    PairsOf(NewRows(0, ItemsOf(batch), FailedOf(batch)))
  }

  function WritingOf(entries: seq<Entry>, size: nat): Writing
    requires size >= 1
  {
    if |entries| < size then BatchWriting(entries)
    else BatchWriting(entries[..size]) + WritingOf(entries[size..], size)
  }

  lemma {:induction false} InsertSeeds(rows: seq<Row>, new_: seq<Row>, job: JobId)
    requires forall i :: 0 <= i < |new_| ==> new_[i].job == job
    ensures Seeds(InsertRows(rows, new_), job) == First(Seeds(rows, job), PairsOf(new_))
    decreases |new_|
  {
    if new_ != [] {
      var mid := InsertOne(rows, new_[0]);
      SeedsAt(rows, job, new_[0].externalId);
      assert mid == rows || mid[..|mid| - 1] == rows;
      assert PairsOf(new_)[1..] == PairsOf(new_[1..]);
      InsertSeeds(mid, new_[1..], job);
    }
  }

  lemma BatchSeeds(rows: seq<Row>, job: JobId, batch: seq<Entry>)
    ensures Seeds(InsertBatch(rows, job, batch), job) == First(Seeds(rows, job), BatchWriting(batch))
  {
    InsertSeeds(rows, NewRows(job, ItemsOf(batch), FailedOf(batch)), job);
    assert PairsOf(NewRows(job, ItemsOf(batch), FailedOf(batch))) == BatchWriting(batch);
  }

  lemma {:induction false} FirstConcat(m: map<string, Option<string>>, a: Writing, b: Writing)
    ensures First(m, a + b) == First(First(m, a), b)
    decreases |a|
  {
    if a == [] {
      assert a + b == b;
    } else {
      assert (a + b)[1..] == a[1..] + b;
      FirstConcat(if a[0].0 in m then m else m[a[0].0 := a[0].1], a[1..], b);
    }
  }

  lemma {:induction false} IngestSeeds(rows: seq<Row>, job: JobId, entries: seq<Entry>, size: nat)
    requires size >= 1
    ensures Seeds(IngestRows(rows, job, entries, size), job) == First(Seeds(rows, job), WritingOf(entries, size))
    ensures rows <= IngestRows(rows, job, entries, size)
    decreases |entries|
  {
    if |entries| < size {
      BatchSeeds(rows, job, entries);
    } else {
      var mid := InsertBatch(rows, job, entries[..size]);
      BatchSeeds(rows, job, entries[..size]);
      IngestSeeds(mid, job, entries[size..], size);
      FirstConcat(Seeds(rows, job), BatchWriting(entries[..size]), WritingOf(entries[size..], size));
    }
  }

  /** What the first `k` flushes write. */
  function FlushWriting(entries: seq<Entry>, size: nat, k: nat): Writing
    requires size >= 1
    decreases k
  {
    if k == 0 then []
    else if |entries| < size then BatchWriting(entries)
    else BatchWriting(entries[..size]) + FlushWriting(entries[size..], size, k - 1)
  }

  lemma {:induction false} FlushWritingPrefix(entries: seq<Entry>, size: nat, k: nat)
    requires size >= 1
    ensures FlushWriting(entries, size, k) <= WritingOf(entries, size)
    decreases k
  {
    if k > 0 && |entries| >= size { FlushWritingPrefix(entries[size..], size, k - 1); }
  }

  lemma {:induction false} FlushSeeds(rows: seq<Row>, job: JobId, entries: seq<Entry>, size: nat, k: nat)
    requires size >= 1
    ensures Seeds(FirstFlushes(rows, job, entries, size, k), job)
            == First(Seeds(rows, job), FlushWriting(entries, size, k))
    decreases k
  {
    if k > 0 && |entries| < size {
      BatchSeeds(rows, job, entries);
    } else if k > 0 {
      var mid := InsertBatch(rows, job, entries[..size]);
      BatchSeeds(rows, job, entries[..size]);
      FlushSeeds(mid, job, entries[size..], size, k - 1);
      FirstConcat(Seeds(rows, job), BatchWriting(entries[..size]), FlushWriting(entries[size..], size, k - 1));
    }
  }

  // ------------------------------------------------------------------- replay

  lemma FirstAbsorbs(m: map<string, Option<string>>, a: Writing, b: Writing)
    ensures First(First(m, a), a + b) == First(m, a + b)
  {
    var l, r := First(First(m, a), a + b), First(m, a + b);
    forall x ensures x in l <==> x in r
             ensures x in l ==> l[x] == r[x]
    {
      FirstLookup(First(m, a), a + b, x);
      FirstLookup(m, a + b, x);
      FirstLookup(m, a, x);
      LookupConcat(a, b, x);
    }
  }

  /** Replay: if `k` flushes were committed before a crash, and the job's keys and prompts are still those, a full
      re-ingest leaves every row as it is and ends with the keys and prompts of one uninterrupted ingest. */
  lemma Replay(rows0: seq<Row>, job: JobId, entries: seq<Entry>, size: nat, k: nat, rows: seq<Row>)
    requires size >= 1
    requires Seeds(rows, job) == Seeds(FirstFlushes(rows0, job, entries, size, k), job)
    ensures rows <= IngestRows(rows, job, entries, size)
    ensures Seeds(IngestRows(rows, job, entries, size), job) == Seeds(IngestRows(rows0, job, entries, size), job)
  {
    var a, w := FlushWriting(entries, size, k), WritingOf(entries, size);
    FlushWritingPrefix(entries, size, k);
    FlushSeeds(rows0, job, entries, size, k);
    assert a + w[|a|..] == w;
    IngestSeeds(rows, job, entries, size);
    IngestSeeds(rows0, job, entries, size);
    FirstAbsorbs(Seeds(rows0, job), a, w[|a|..]);
  }

  lemma {:induction false} NothingMissing(rows: seq<Row>, new_: seq<Row>)
    requires forall row <- new_ :: HasKey(rows, row.job, row.externalId)
    ensures InsertRows(rows, new_) == rows
    decreases |new_|
  {
    if new_ != [] {
      assert new_[0] in new_;
      assert forall row <- new_[1..] :: row in new_;
      NothingMissing(rows, new_[1..]);
    }
  }

  /** A second full ingest inserts nothing at all. */
  lemma SecondIngestInsertsNothing(rows0: seq<Row>, job: JobId, entries: seq<Entry>, size: nat, rows: seq<Row>)
    requires size >= 1
    requires Seeds(rows, job) == Seeds(IngestRows(rows0, job, entries, size), job)
    ensures IngestRows(rows, job, entries, size) == rows
  {
    IngestSeeds(rows0, job, entries, size);
    forall x | Lookup(WritingOf(entries, size), x).Some? ensures x in Seeds(rows, job) {
      FirstLookup(Seeds(rows0, job), WritingOf(entries, size), x);
    }
    NoNewRows(rows, job, entries, size);
  }

  /** A batch all of whose keys are there inserts nothing. */
  lemma BatchPresent(rows: seq<Row>, job: JobId, batch: seq<Entry>)
    requires forall x :: Lookup(BatchWriting(batch), x).Some? ==> x in Seeds(rows, job)
    ensures InsertBatch(rows, job, batch) == rows
  {
    var new_ := NewRows(job, ItemsOf(batch), FailedOf(batch));
    forall row | row in new_ ensures HasKey(rows, row.job, row.externalId) {
      var i :| 0 <= i < |new_| && new_[i] == row;
      assert BatchWriting(batch)[i].0 == row.externalId;
      LookupFinds(BatchWriting(batch), i);
      SeedsAt(rows, job, row.externalId);
    }
    NothingMissing(rows, new_);
  }

  lemma {:induction false} NoNewRows(rows: seq<Row>, job: JobId, entries: seq<Entry>, size: nat)
    requires size >= 1
    requires forall x :: Lookup(WritingOf(entries, size), x).Some? ==> x in Seeds(rows, job)
    ensures IngestRows(rows, job, entries, size) == rows
    decreases |entries|
  {
    var batch := if |entries| < size then entries else entries[..size];
    var w := BatchWriting(batch);
    var rest := if |entries| < size then [] else WritingOf(entries[size..], size);
    assert WritingOf(entries, size) == w + rest;
    forall x ensures Lookup(w, x).Some? ==> x in Seeds(rows, job)
             ensures Lookup(rest, x).Some? ==> x in Seeds(rows, job)
    {
      LookupConcat(w, rest, x);
    }
    BatchPresent(rows, job, batch);
    if |entries| >= size { NoNewRows(rows, job, entries[size..], size); }
  }

  lemma {:induction false} LookupFinds(writing: Writing, i: nat)
    requires i < |writing|
    ensures Lookup(writing, writing[i].0).Some?
    decreases |writing|
  {
    if i > 0 { LookupFinds(writing[1..], i - 1); }
  }
}
