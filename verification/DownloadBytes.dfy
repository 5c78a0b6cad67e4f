/** The downloaded JSON array against the delivery counts: what is counted in the store is what the client reads. */
module DownloadBytes {
  import opened Domain
  import opened QueueTable
  import opened Protocol
  import opened Retry
  import opened Invariant
  import opened Scheduling
  import opened Records
  import opened Framing
  import opened Storage
  import opened Delivery
  import opened WriteBeforeCommit
  import Download
  import JsonReader
  import Timing

  type Measure = seq<ResultRecord> -> nat

  /** A way of counting records that adds up over chunks. */
  ghost predicate Additive(m: Measure) {
    m([]) == 0 && forall a, b :: m(a + b) == m(a) + m(b)
  }

  function Total(store: seq<StoredChunk>, job: JobId, m: Measure): nat {
    if store == [] then 0
    else Total(store[..|store| - 1], job, m) + if store[|store| - 1].ref.job == job then m(store[|store| - 1].records)
      else 0
  }

  /** The chunks under their references. */
  function RecordsOf(store: seq<StoredChunk>): map<ChunkRef, seq<ResultRecord>> {
    if store == [] then map[]
    else RecordsOf(store[..|store| - 1])[store[|store| - 1].ref := store[|store| - 1].records]
  }

  function Sum(chunks: map<ChunkRef, seq<ResultRecord>>, order: seq<ChunkRef>, m: Measure): nat
    requires forall r <- order :: r in chunks
  {
    if order == [] then 0 else Sum(chunks, order[..|order| - 1], m) + m(chunks[order[|order| - 1]])
  }

  // ------------------------------------------------------- one file less

  lemma WithoutFront(order: seq<ChunkRef>, k: nat)
    requires k < |order| - 1
    ensures Without(order, k)[..|order| - 2] == Without(order[..|order| - 1], k)
    ensures Without(order, k)[|order| - 2] == order[|order| - 1]
  {}

  lemma WithoutIn(order: seq<ChunkRef>, k: nat)
    requires k < |order|
    ensures forall r <- Without(order, k) :: r in order
  {
    forall r | r in Without(order, k) ensures r in order {
      var n :| 0 <= n < |Without(order, k)| && Without(order, k)[n] == r;
    }
  }

  /** The place of a file in the listing does not matter. */
  lemma {:induction false} SumWithout(chunks: map<ChunkRef, seq<ResultRecord>>, order: seq<ChunkRef>, k: nat,
                                      m: Measure)
    requires k < |order| && (forall r <- order :: r in chunks) && forall r <- Without(order, k) :: r in chunks
    ensures Sum(chunks, order, m) == Sum(chunks, Without(order, k), m) + m(chunks[order[k]])
    decreases |order|
  {
    var front := order[..|order| - 1];
    if k == |order| - 1 {
      assert Without(order, k) == front;
    } else {
      WithoutFront(order, k);
      WithoutIn(front, k);
      SumWithout(chunks, front, k, m);
      assert front[k] == order[k];
    }
  }

  lemma {:induction false} SumSame(chunks: map<ChunkRef, seq<ResultRecord>>, chunks': map<ChunkRef, seq<ResultRecord>>,
                                   order: seq<ChunkRef>, m: Measure)
    requires forall r <- order :: r in chunks && r in chunks' && chunks'[r] == chunks[r]
    ensures Sum(chunks', order, m) == Sum(chunks, order, m)
    decreases |order|
  {
    if order != [] { SumSame(chunks, chunks', order[..|order| - 1], m); }
  }

  // --------------------------------------------------------- listing the store

  lemma {:induction false} NotWritten(store: seq<StoredChunk>, r: ChunkRef)
    requires forall n :: 0 <= n < |store| ==> store[n].ref != r
    ensures r !in RecordsOf(store)
    decreases |store|
  {
    if store != [] { NotWritten(store[..|store| - 1], r); }
  }

  /** A complete listing counts what the store holds for the job, in whatever order the directory is read. */
  lemma {:induction false} ListingSum(store: seq<StoredChunk>, job: JobId, order: seq<ChunkRef>, m: Measure)
    requires RefsDistinct(store) && Lists(RecordsOf(store).Keys, job, order)
    ensures Sum(RecordsOf(store), order, m) == Total(store, job, m)
    decreases |store|
  {
    var chunks := RecordsOf(store);
    if store == [] {
      EmptyListing(chunks.Keys, job, order);
    } else {
      var front, last := store[..|store| - 1], store[|store| - 1];
      NotWritten(front, last.ref);
      assert chunks.Keys == RecordsOf(front).Keys + {last.ref};
      if last.ref.job == job {
        var k :| 0 <= k < |order| && order[k] == last.ref;
        WithoutIn(order, k);
        SumWithout(chunks, order, k, m);
        ListsLess(RecordsOf(front).Keys, chunks.Keys, job, order, k);
        ListingSum(front, job, Without(order, k), m);
        SumSame(RecordsOf(front), chunks, Without(order, k), m);
      } else {
        ListingSum(front, job, order, m);
        SumSame(RecordsOf(front), chunks, order, m);
      }
    }
  }

  // ------------------------------------------------------- reading the files

  /** No text of the job's chunks holds a raw line boundary. */
  ghost predicate AllWhole(store: seq<StoredChunk>, job: JobId) {
    forall n :: 0 <= n < |store| && store[n].ref.job == job ==> WholeRecords(store[n].records)
  }

  /** Each file of the job reads back as the chunk stored under its reference. */
  ghost predicate Reads(files: map<ChunkRef, string>, chunks: map<ChunkRef, seq<ResultRecord>>, job: JobId) {
    files.Keys == chunks.Keys && forall r <- files :: r.job == job ==> ReadBack(files[r]) == Some(chunks[r])
  }

  lemma ReadsOne(files: map<ChunkRef, string>, chunks: map<ChunkRef, seq<ResultRecord>>, ref: ChunkRef,
                 records: seq<ResultRecord>, payload: string, job: JobId)
    requires Reads(files, chunks, job) && (ref.job == job ==> ReadBack(payload) == Some(records))
    ensures Reads(files[ref := payload], chunks[ref := records], job)
  {}

  lemma {:induction false} StoreReads(store: seq<StoredChunk>, job: JobId)
    requires AllWhole(store, job)
    ensures Reads(FilesOf(store), RecordsOf(store), job)
    decreases |store|
  {
    if store != [] {
      var front, last := store[..|store| - 1], store[|store| - 1];
      StoreReads(front, job);
      ChunkRoundTrip(last.records);
      ReadsOne(FilesOf(front), RecordsOf(front), last.ref, last.records, Payload(last.records), job);
    }
  }

  lemma {:induction false} ReadsSum(files: map<ChunkRef, string>, chunks: map<ChunkRef, seq<ResultRecord>>, job: JobId,
                                    order: seq<ChunkRef>, m: Measure)
    requires Reads(files, chunks, job) && (forall r <- order :: r in files && r.job == job) && Additive(m)
    ensures ReadFiles(files, order).Some? && m(ReadFiles(files, order).value) == Sum(chunks, order, m)
    decreases |order|
  {
    if order != [] { ReadsSum(files, chunks, job, order[..|order| - 1], m); }
  }

  /** The records a complete listing reads add up to the store's. */
  lemma ListingReads(files: map<ChunkRef, string>, store: seq<StoredChunk>, job: JobId, order: seq<ChunkRef>,
                     m: Measure)
    requires RefsDistinct(store) && Reads(files, RecordsOf(store), job) && Lists(files.Keys, job, order) && Additive(m)
    ensures ReadFiles(files, order).Some? && m(ReadFiles(files, order).value) == Total(store, job, m)
  {
    ListingSum(store, job, order, m);
    ReadsSum(files, RecordsOf(store), job, order, m);
  }

  // --------------------------------------------------------------- the counts

  lemma {:induction false} CountInConcat(a: seq<ResultRecord>, b: seq<ResultRecord>, x: string)
    ensures CountIn(a + b, x) == CountIn(a, x) + CountIn(b, x)
    decreases |a|
  {
    if a == [] {
      assert a + b == b;
    } else {
      assert (a + b)[1..] == a[1..] + b;
      CountInConcat(a[1..], b, x);
    }
  }

  lemma {:induction false} TotalLength(store: seq<StoredChunk>, job: JobId)
    ensures Total(store, job, (r: seq<ResultRecord>) => |r|) == DownloadLength(store, job)
    decreases |store|
  {
    if store != [] { TotalLength(store[..|store| - 1], job); }
  }

  lemma {:induction false} TotalCount(store: seq<StoredChunk>, job: JobId, x: string)
    ensures Total(store, job, r => CountIn(r, x)) == StoredFor(store, job, x)
    decreases |store|
  {
    if store != [] { TotalCount(store[..|store| - 1], job, x); }
  }

  /** The stored records of the job, however they are distributed over chunks. */
  function StoredRecords(store: seq<StoredChunk>, job: JobId): multiset<ResultRecord> {
    if store == [] then multiset{}
    else StoredRecords(store[..|store| - 1], job)
         + if store[|store| - 1].ref.job == job then multiset(store[|store| - 1].records) else multiset{}
  }

  lemma {:induction false} TotalOf(store: seq<StoredChunk>, job: JobId, v: ResultRecord)
    ensures Total(store, job, r => multiset(r)[v]) == StoredRecords(store, job)[v]
    decreases |store|
  {
    if store != [] { TotalOf(store[..|store| - 1], job, v); }
  }

  lemma ReadsEach(files: map<ChunkRef, string>, store: seq<StoredChunk>, job: JobId, order: seq<ChunkRef>,
                  v: ResultRecord)
    requires RefsDistinct(store) && Reads(files, RecordsOf(store), job) && Lists(files.Keys, job, order)
    ensures ReadFiles(files, order).Some?
    ensures multiset(ReadFiles(files, order).value)[v] == StoredRecords(store, job)[v]
  {
    var each: Measure := (r: seq<ResultRecord>) => multiset(r)[v];
    forall a: seq<ResultRecord>, b: seq<ResultRecord> ensures each(a + b) == each(a) + each(b) {}
    ListingReads(files, store, job, order, each);
    TotalOf(store, job, v);
  }

  /** What the client of a complete download reads: exactly the stored records of the job, each a JSON object of its
      fields. */
  ghost predicate ClientReads(files: map<ChunkRef, string>, store: seq<StoredChunk>, job: JobId, order: seq<ChunkRef>,
                              records: seq<ResultRecord>) {
    && (forall r <- order :: r in files) && ReadFiles(files, order) == Some(records)
    && GetArray(Framing.Download(records)) == Some(records)
    && JsonReader.ReadObjects(Framing.Download(records)) == Some(JsonReader.AllMembers(records))
    && multiset(records) == StoredRecords(store, job) && |records| == DownloadLength(store, job)
  }

  /** If every file of a job reads back as the chunk in the store, the client reads what is in the store. */
  lemma DownloadReads(files: map<ChunkRef, string>, store: seq<StoredChunk>, job: JobId, order: seq<ChunkRef>,
                      x: string)
    returns (records: seq<ResultRecord>)
    requires RefsDistinct(store) && Reads(files, RecordsOf(store), job) && Lists(files.Keys, job, order)
    ensures ClientReads(files, store, job, order, records) && CountIn(records, x) == StoredFor(store, job, x)
  {
    var size: Measure, count: Measure := (r: seq<ResultRecord>) => |r|, (r: seq<ResultRecord>) => CountIn(r, x);
    forall a: seq<ResultRecord>, b: seq<ResultRecord> ensures count(a + b) == count(a) + count(b) {
      CountInConcat(a, b, x);
    }
    ListingReads(files, store, job, order, size);
    TotalLength(store, job);
    ListingReads(files, store, job, order, count);
    TotalCount(store, job, x);
    records := ReadFiles(files, order).value;
    forall v ensures multiset(records)[v] == StoredRecords(store, job)[v] { ReadsEach(files, store, job, order, v); }
    DownloadRoundTrip(records);
    JsonReader.DownloadMembers(records);
  }

  /** What is stored tells how the calls went. */
  lemma {:induction false} StoredTold(c: Config, given: set<Answer>, rows: seq<Row>, store: seq<StoredChunk>,
                                      job: JobId,
                                      r: ResultRecord)
    requires StoreTold(c, given, rows, store) && r in StoredRecords(store, job)
    ensures RecordTold(c, given, rows, job, r)
    decreases |store|
  {
    var n := |store| - 1;
    assert AllRecordsTold(c, given, rows, store[n].ref.job, store[n].records);
    if store[n].ref.job == job && r in store[n].records {
      var k :| 0 <= k < |store[n].records| && store[n].records[k] == r;
    } else {
      assert forall m :: 0 <= m < n ==> store[..n][m] == store[m];
      StoredTold(c, given, rows, store[..n], job, r);
    }
  }

  lemma ClientTold(c: Config, given: set<Answer>, rows: seq<Row>, files: map<ChunkRef, string>, store: seq<StoredChunk>,
                   job: JobId, order: seq<ChunkRef>, records: seq<ResultRecord>)
    requires StoreTold(c, given, rows, store) && ClientReads(files, store, job, order, records)
    ensures AllRecordsTold(c, given, rows, job, records)
  {
    forall k | 0 <= k < |records| ensures RecordTold(c, given, rows, job, records[k]) {
      assert records[k] in multiset(records);
      StoredTold(c, given, rows, store, job, records[k]);
    }
  }

  /** In every reachable state, if no text of the job's results holds a raw line boundary, the client of a download
      reads an array of exactly the stored records of the job, for each external id as many as have been stored, and
      each of them tells how calls for the prompt of its row went. */
  lemma DownloadIsStore(c: Config, s: State, steps: seq<Step>, job: JobId, order: seq<ChunkRef>, x: string)
    returns (records: seq<ResultRecord>)
    requires Initial(s) && Valid(c, s, steps) && AllWhole(Final(c, s, steps).store, job)
    requires Lists(FilesOf(Final(c, s, steps).store).Keys, job, order)
    ensures var store := Final(c, s, steps).store; ClientReads(FilesOf(store), store, job, order, records)
    ensures CountIn(records, x) == StoredFor(Final(c, s, steps).store, job, x)
    ensures AllRecordsTold(c, Given(c, s, steps), Final(c, s, steps).rows, job, records)
  {
    var store := Final(c, s, steps).store;
    NeverOverwritten(c, s, steps);
    StoreReads(store, job);
    records := DownloadReads(FilesOf(store), store, job, order, x);
    InitialTold(c, s, steps);
    ClientTold(c, Given(c, s, steps), Final(c, s, steps).rows, FilesOf(store), store, job, order, records);
  }

  /** The one record for a row that was not rejected holds the endpoint's answer to its prompt. */
  ghost predicate ClientHasAnswer(c: Config, f: Endpoint, records: seq<ResultRecord>, row: Row)
    requires Answers(c, f)
  {
    if row.prompt.None? then CountIn(records, row.externalId) == 0
    else
      && CountIn(records, row.externalId) == 1
      && forall k :: 0 <= k < |records| && records[k].externalId == row.externalId ==>
           Tells(records[k], f(row.prompt.value), c.maxAttempts)
  }

  /** Without lapse and crash, once the job is through, the client reads one record per row that was not rejected; with
      a deterministic endpoint it holds the answer to the row's prompt. */
  lemma CleanDownload(c: Config, b: Timing.Bounds, f: Endpoint, s: State, steps: seq<Step>, job: JobId,
                      order: seq<ChunkRef>, i: nat) returns (records: seq<ResultRecord>)
    requires b.renew + b.commit <= c.ttl && Initial(s) && Valid(c, s, steps)
    requires Timing.PunctualRun(c, b, s, steps) && Timing.NoCrash(steps) && AllWhole(Final(c, s, steps).store, job)
    requires AllTerminal(Final(c, s, steps).rows, job) && Lists(FilesOf(Final(c, s, steps).store).Keys, job, order)
    requires i < |Final(c, s, steps).rows| && Final(c, s, steps).rows[i].job == job
    ensures var t := Final(c, s, steps);
            && ClientReads(FilesOf(t.store), t.store, job, order, records)
            && CountIn(records, t.rows[i].externalId) == (if t.rows[i].prompt.Some? then 1 else 0)
            && |records| ==
               |WithStatus(t.rows, job, Succeeded)|
                 + |WithStatus(t.rows, job, Failed)| - |Download.RejectedIds(t.rows, job)|
    ensures Answers(c, f) && DeterministicRun(c, f, s, steps) ==>
              ClientHasAnswer(c, f, records, Final(c, s, steps).rows[i])
  {
    records := DownloadIsStore(c, s, steps, job, order, Final(c, s, steps).rows[i].externalId);
    Download.DownloadExactlyOnce(c, b, s, steps, job);
    RejectedNamesNoFile(c, s, steps, i);
    if Answers(c, f) && DeterministicRun(c, f, s, steps) { AnswersRead(c, f, s, steps, job, records, i); }
  }

  lemma AnswersRead(c: Config, f: Endpoint, s: State, steps: seq<Step>, job: JobId, records: seq<ResultRecord>, i: nat)
    requires Answers(c, f) && Initial(s) && Valid(c, s, steps) && DeterministicRun(c, f, s, steps)
    requires AllRecordsTold(c, Given(c, s, steps), Final(c, s, steps).rows, job, records)
    requires i < |Final(c, s, steps).rows| && Final(c, s, steps).rows[i].job == job
    ensures var row := Final(c, s, steps).rows[i];
            forall k :: 0 <= k < |records| && records[k].externalId == row.externalId ==>
              row.prompt.Some? && Tells(records[k], f(row.prompt.value), c.maxAttempts)
  {
    var t, given := Final(c, s, steps), Given(c, s, steps);
    InitialTold(c, s, steps);
    forall k | 0 <= k < |records| && records[k].externalId == t.rows[i].externalId
      ensures t.rows[i].prompt.Some? && Tells(records[k], f(t.rows[i].prompt.value), c.maxAttempts)
    {
      RowOfRecord(c, given, t.rows, job, records[k], i);
      ToldByEndpoint(c, f, s, steps, t.rows[i].prompt.value, records[k]);
    }
  }
}
