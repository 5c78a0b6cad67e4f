/** Chunk files whose write broke off, beside those of the store: a worker that dies while it writes, or whose disk is
    full, leaves the beginning of its file behind. */
module Disk {
  import opened Domain
  import opened Protocol
  import opened Invariant
  import opened Framing
  import opened Torn
  import opened Storage
  import opened Delivery
  import opened WriteBeforeCommit
  import opened DownloadBytes
  import opened Records

  /** The first `length` characters of a chunk's file. */
  datatype TornFile = TornFile(ref: ChunkRef, records: seq<ResultRecord>, length: nat)

  datatype Files = Files(state: State, torn: seq<TornFile>)

  /** A step of the protocol, or the death of a worker in the middle of a write. */
  datatype Move =
    | Act(step: Step)
    | Tear(w: WorkerId, chunkId: nat, length: nat)

  function StepFor(m: Move): Step {
    match m
    case Act(step) => step
    case Tear(w, _, _) => Crash({w})
  }

  predicate Unused(d: Files, ref: ChunkRef) {
    FreshRef(d.state, ref) && forall k :: 0 <= k < |d.torn| ==> d.torn[k].ref != ref
  }

  /** Chunk names are fresh, those of broken writes included. */
  predicate Can(c: Config, d: Files, m: Move) {
    && Enabled(c, d.state, StepFor(m))
    && match m
       case Act(step) => step.Write? ==> Unused(d, ChunkRef(d.state.workers[step.w].job, step.chunkId))
       case Tear(w, chunkId, length) =>
         && w in d.state.workers && d.state.workers[w].phase.Ready?
         && length <= |Payload(d.state.workers[w].phase.results)|
         && Unused(d, ChunkRef(d.state.workers[w].job, chunkId))
  }

  function Do(c: Config, d: Files, m: Move): Files
    requires Can(c, d, m)
  {
    var next := Next(c, d.state, StepFor(m));
    match m
    case Act(_) => Files(next, d.torn)
    case Tear(w, chunkId, length) =>
      var wk := d.state.workers[w];
      Files(next, d.torn + [TornFile(ChunkRef(wk.job, chunkId), wk.phase.results, length)])
  }

  predicate CanAll(c: Config, d: Files, moves: seq<Move>)
    decreases |moves|
  {
    moves == [] || (Can(c, d, moves[0]) && CanAll(c, Do(c, d, moves[0]), moves[1..]))
  }

  function DoAll(c: Config, d: Files, moves: seq<Move>): Files
    requires CanAll(c, d, moves)
    decreases |moves|
  {
    if moves == [] then d else DoAll(c, Do(c, d, moves[0]), moves[1..])
  }

  function StepsFor(moves: seq<Move>): (r: seq<Step>)
    ensures |r| == |moves| && forall k :: 0 <= k < |r| ==> r[k] == StepFor(moves[k])
  {
    seq(|moves|, k requires 0 <= k < |moves| => StepFor(moves[k]))
  }

  /** What happens with broken writes is a run of the protocol. */
  lemma {:induction false} MovesAreRun(c: Config, d: Files, moves: seq<Move>)
    requires CanAll(c, d, moves)
    ensures Valid(c, d.state, StepsFor(moves))
    ensures Final(c, d.state, StepsFor(moves)) == DoAll(c, d, moves).state
    decreases |moves|
  {
    if moves != [] {
      assert StepsFor(moves)[1..] == StepsFor(moves[1..]);
      MovesAreRun(c, Do(c, d, moves[0]), moves[1..]);
    }
  }

  // ------------------------------------------------------------ names and contents

  /** No two files have the same name. */
  ghost predicate Named(store: seq<StoredChunk>, torn: seq<TornFile>) {
    && RefsDistinct(store)
    && (forall k, l :: 0 <= k < l < |torn| ==> torn[k].ref != torn[l].ref)
    && forall n, k :: 0 <= n < |store| && 0 <= k < |torn| ==> store[n].ref != torn[k].ref
  }

  ghost predicate LengthsOk(torn: seq<TornFile>) {
    forall k :: 0 <= k < |torn| ==> torn[k].length <= |Payload(torn[k].records)|
  }

  ghost predicate DiskOk(d: Files) {
    Named(d.state.store, d.torn) && LengthsOk(d.torn)
  }

  lemma StoreStep(c: Config, s: State, step: Step)
    requires Enabled(c, s, step)
    ensures var store := Next(c, s, step).store;
            if step.Write? then
              |store| == |s.store| + 1 && store[..|s.store|] == s.store
              && store[|s.store|].ref == ChunkRef(s.workers[step.w].job, step.chunkId)
            else store == s.store
  {}

  lemma NamedStore(store: seq<StoredChunk>, store': seq<StoredChunk>, torn: seq<TornFile>)
    requires Named(store, torn) && |store'| == |store| + 1 && store'[..|store|] == store
    requires forall n :: 0 <= n < |store| ==> store[n].ref != store'[|store|].ref
    requires forall k :: 0 <= k < |torn| ==> torn[k].ref != store'[|store|].ref
    ensures Named(store', torn)
  {
    assert forall n :: 0 <= n < |store| ==> store'[n] == store[n];
  }

  lemma NamedTorn(store: seq<StoredChunk>, torn: seq<TornFile>, f: TornFile)
    requires Named(store, torn)
    requires forall n :: 0 <= n < |store| ==> store[n].ref != f.ref
    requires forall k :: 0 <= k < |torn| ==> torn[k].ref != f.ref
    ensures Named(store, torn + [f])
  {}

  lemma LengthsTorn(torn: seq<TornFile>, f: TornFile)
    requires LengthsOk(torn) && f.length <= |Payload(f.records)|
    ensures LengthsOk(torn + [f])
  {}

  lemma DiskMove(c: Config, d: Files, m: Move)
    requires DiskOk(d) && Can(c, d, m)
    ensures DiskOk(Do(c, d, m))
  {
    StoreStep(c, d.state, StepFor(m));
    match m
    case Act(step) =>
      if step.Write? { NamedStore(d.state.store, Next(c, d.state, step).store, d.torn); }
    case Tear(w, chunkId, length) =>
      var wk := d.state.workers[w];
      NamedTorn(d.state.store, d.torn, TornFile(ChunkRef(wk.job, chunkId), wk.phase.results, length));
      LengthsTorn(d.torn, TornFile(ChunkRef(wk.job, chunkId), wk.phase.results, length));
  }

  lemma {:induction false} DiskRun(c: Config, d: Files, moves: seq<Move>)
    requires DiskOk(d) && CanAll(c, d, moves)
    ensures DiskOk(DoAll(c, d, moves))
    decreases |moves|
  {
    if moves != [] {
      DiskMove(c, d, moves[0]);
      DiskRun(c, Do(c, d, moves[0]), moves[1..]);
    }
  }

  /** What a torn file holds. */
  function Content(f: TornFile): string {
    if f.length <= |Payload(f.records)| then Payload(f.records)[..f.length] else Payload(f.records)
  }

  function Contents(torn: seq<TornFile>): (r: seq<string>)
    ensures |r| == |torn| && forall k :: 0 <= k < |r| ==> r[k] == Content(torn[k])
  {
    seq(|torn|, k requires 0 <= k < |torn| => Content(torn[k]))
  }

  function AddFiles(files: map<ChunkRef, string>, torn: seq<TornFile>, contents: seq<string>): map<ChunkRef, string>
    requires |contents| == |torn|
  {
    if torn == [] then files
    else
      var n := |torn| - 1;
      AddFiles(files, torn[..n], contents[..n])[torn[n].ref := contents[n]]
  }

  /** The directory: the files of the store and the torn ones. */
  function Directory(d: Files): map<ChunkRef, string> {
    AddFiles(FilesOf(d.state.store), d.torn, Contents(d.torn))
  }

  lemma {:induction false} AddFilesKeeps(files: map<ChunkRef, string>, torn: seq<TornFile>, contents: seq<string>,
                                         ref: ChunkRef)
    requires |contents| == |torn| && ref in files && forall k :: 0 <= k < |torn| ==> torn[k].ref != ref
    ensures var dir := AddFiles(files, torn, contents); ref in dir && dir[ref] == files[ref]
    decreases |torn|
  {
    if torn != [] { AddFilesKeeps(files, torn[..|torn| - 1], contents[..|torn| - 1], ref); }
  }

  lemma {:induction false} AddFilesAdds(files: map<ChunkRef, string>, torn: seq<TornFile>, contents: seq<string>,
                                        k: nat)
    requires |contents| == |torn| && k < |torn| && forall i, j :: 0 <= i < j < |torn| ==> torn[i].ref != torn[j].ref
    ensures var dir := AddFiles(files, torn, contents); torn[k].ref in dir && dir[torn[k].ref] == contents[k]
    decreases |torn|
  {
    if k < |torn| - 1 { AddFilesAdds(files, torn[..|torn| - 1], contents[..|torn| - 1], k); }
  }

  lemma DirectoryOfStore(d: Files, n: nat)
    requires DiskOk(d) && n < |d.state.store|
    ensures var ref := d.state.store[n].ref;
            ref in Directory(d) && Directory(d)[ref] == Payload(d.state.store[n].records)
  {
    FileOf(d.state.store, n);
    AddFilesKeeps(FilesOf(d.state.store), d.torn, Contents(d.torn), d.state.store[n].ref);
  }

  lemma DirectoryOfTorn(d: Files, k: nat)
    requires DiskOk(d) && k < |d.torn|
    ensures d.torn[k].ref in Directory(d) && Directory(d)[d.torn[k].ref] == Content(d.torn[k])
  {
    AddFilesAdds(FilesOf(d.state.store), d.torn, Contents(d.torn), k);
  }

  /** The records that are complete in a torn file. */
  function Kept(f: TornFile): seq<ResultRecord> {
    f.records[..CompleteIn(f.records, f.length).0]
  }

  function KeptChunks(torn: seq<TornFile>): (r: seq<StoredChunk>)
    ensures |r| == |torn| && forall k :: 0 <= k < |r| ==> r[k] == StoredChunk(torn[k].ref, Kept(torn[k]))
  {
    seq(|torn|, k requires 0 <= k < |torn| => StoredChunk(torn[k].ref, Kept(torn[k])))
  }

  /** The store with what is complete in the torn files. */
  function WithKept(d: Files): seq<StoredChunk> {
    d.state.store + KeptChunks(d.torn)
  }

  /** The cut is at the end of a record, and no text before it holds a raw line boundary. */
  ghost predicate CutClean(f: TornFile) {
    CompleteIn(f.records, f.length).1 && WholeRecords(Kept(f))
  }

  ghost predicate AllClean(torn: seq<TornFile>, job: JobId) {
    forall k :: 0 <= k < |torn| && torn[k].ref.job == job ==> CutClean(torn[k])
  }

  lemma ConcatDistinct(store: seq<StoredChunk>, torn: seq<TornFile>, more: seq<StoredChunk>)
    requires Named(store, torn) && |more| == |torn| && forall k :: 0 <= k < |more| ==> more[k].ref == torn[k].ref
    ensures RefsDistinct(store + more)
  {}

  lemma KeptDistinct(d: Files)
    requires DiskOk(d)
    ensures RefsDistinct(WithKept(d))
  {
    ConcatDistinct(d.state.store, d.torn, KeptChunks(d.torn));
  }

  // ------------------------------------------------------------------- reading

  /** Files that read back as chunks, added one by one. */
  lemma {:induction false} AddReads(files: map<ChunkRef, string>, store: seq<StoredChunk>, torn: seq<TornFile>,
                                    contents: seq<string>, more: seq<StoredChunk>, job: JobId)
    requires Reads(files, RecordsOf(store), job) && |contents| == |torn| == |more|
    requires forall k :: 0 <= k < |torn| ==> more[k].ref == torn[k].ref
    requires forall k :: 0 <= k < |torn| && torn[k].ref.job == job ==> ReadBack(contents[k]) == Some(more[k].records)
    ensures Reads(AddFiles(files, torn, contents), RecordsOf(store + more), job)
    decreases |torn|
  {
    if torn == [] {
      assert store + more == store;
    } else {
      var n := |torn| - 1;
      AddReads(files, store, torn[..n], contents[..n], more[..n], job);
      ReadsOne(AddFiles(files, torn[..n], contents[..n]), RecordsOf(store + more[..n]), torn[n].ref, more[n].records,
               contents[n], job);
      RecordsSnoc(store + more[..n], more[n]);
      assert store + more[..n] + [more[n]] == store + more;
    }
  }

  lemma RecordsSnoc(store: seq<StoredChunk>, x: StoredChunk)
    ensures RecordsOf(store + [x]) == RecordsOf(store)[x.ref := x.records]
  {
    assert (store + [x])[..|store|] == store;
  }

  /** A torn file reads back as what is complete in it, exactly if it is cut clean. */
  lemma ContentReads(f: TornFile)
    requires f.length <= |Payload(f.records)|
    ensures ReadBack(Content(f)) == if CutClean(f) then Some(Kept(f)) else None
  {
    TornReads(f.records, f.length);
  }

  lemma CleanReads(d: Files, job: JobId)
    requires DiskOk(d) && AllWhole(d.state.store, job) && AllClean(d.torn, job)
    ensures Reads(Directory(d), RecordsOf(WithKept(d)), job)
  {
    StoreReads(d.state.store, job);
    forall k | 0 <= k < |d.torn| && d.torn[k].ref.job == job
      ensures ReadBack(Contents(d.torn)[k]) == Some(KeptChunks(d.torn)[k].records)
    {
      ContentReads(d.torn[k]);
    }
    AddReads(FilesOf(d.state.store), d.state.store, d.torn, Contents(d.torn), KeptChunks(d.torn), job);
  }

  lemma {:induction false} EachReads(files: map<ChunkRef, string>, order: seq<ChunkRef>, k: nat)
    requires (forall r <- order :: r in files) && ReadFiles(files, order).Some? && k < |order|
    ensures ReadBack(files[order[k]]).Some?
    decreases |order|
  {
    if k < |order| - 1 { EachReads(files, order[..|order| - 1], k); }
  }

  /** If the directory can be read, every file of it can. */
  lemma FileReads(d: Files, job: JobId, order: seq<ChunkRef>, ref: ChunkRef)
    requires Lists(Directory(d).Keys, job, order)
    requires ReadFiles(Directory(d), order).Some?
    requires ref in Directory(d) && ref.job == job
    ensures ReadBack(Directory(d)[ref]).Some?
  {
    var k :| 0 <= k < |order| && order[k] == ref;
    EachReads(Directory(d), order, k);
  }

  lemma ReadsOnlyClean(d: Files, job: JobId, order: seq<ChunkRef>)
    requires DiskOk(d) && Lists(Directory(d).Keys, job, order)
    requires ReadFiles(Directory(d), order).Some?
    ensures AllWhole(d.state.store, job) && AllClean(d.torn, job)
  {
    forall n | 0 <= n < |d.state.store| && d.state.store[n].ref.job == job
      ensures WholeRecords(d.state.store[n].records)
    {
      DirectoryOfStore(d, n);
      FileReads(d, job, order, d.state.store[n].ref);
      ChunkRoundTrip(d.state.store[n].records);
    }
    forall k | 0 <= k < |d.torn| && d.torn[k].ref.job == job ensures CutClean(d.torn[k]) {
      DirectoryOfTorn(d, k);
      FileReads(d, job, order, d.torn[k].ref);
      ContentReads(d.torn[k]);
    }
  }

  // ------------------------------------------------------- what the records tell

  ghost predicate TornTold(c: Config, given: set<Answer>, rows: seq<Row>, torn: seq<TornFile>) {
    forall k :: 0 <= k < |torn| ==> AllRecordsTold(c, given, rows, torn[k].ref.job, torn[k].records)
  }

  lemma TornToldMove(c: Config, d: Files, m: Move, given: set<Answer>)
    requires Inv(c, d.state) && Can(c, d, m) && AllTold(c, given, d.state)
    requires TornTold(c, given, d.state.rows, d.torn)
    ensures TornTold(c, given, Do(c, d, m).state.rows, Do(c, d, m).torn)
  {
    var rows, rows' := d.state.rows, Do(c, d, m).state.rows;
    StepEvolves(c, d.state, StepFor(m));
    forall k | 0 <= k < |d.torn| ensures AllRecordsTold(c, given, rows', d.torn[k].ref.job, d.torn[k].records) {
      RecordsFrame(c, given, rows, rows', d.torn[k].ref.job, d.torn[k].records);
    }
    if m.Tear? {
      var wk := d.state.workers[m.w];
      assert WorkerOk(c, d.state, m.w) && WorkerTold(c, given, wk);
      ChunkOfRows(c, given, rows, c.size, wk.job, wk.phase.chunk, wk.phase.results);
    }
  }

  lemma {:induction false} TornToldRun(c: Config, d: Files, moves: seq<Move>, given: set<Answer>)
    requires Inv(c, d.state) && CanAll(c, d, moves) && AllTold(c, given, d.state)
    requires TornTold(c, given, d.state.rows, d.torn)
    requires Valid(c, d.state, StepsFor(moves)) && Given(c, d.state, StepsFor(moves)) <= given
    ensures TornTold(c, given, DoAll(c, d, moves).state.rows, DoAll(c, d, moves).torn)
    decreases |moves|
  {
    if moves != [] {
      assert StepsFor(moves)[1..] == StepsFor(moves[1..]);
      StepInv(c, d.state, StepFor(moves[0]));
      ToldStep(c, d.state, StepFor(moves[0]), given);
      TornToldMove(c, d, moves[0], given);
      TornToldRun(c, Do(c, d, moves[0]), moves[1..], given);
    }
  }

  lemma KeptTold(c: Config, given: set<Answer>, rows: seq<Row>, d: Files)
    requires StoreTold(c, given, rows, d.state.store) && TornTold(c, given, rows, d.torn)
    ensures StoreTold(c, given, rows, WithKept(d))
  {
    var size := |d.state.store|;
    forall n | 0 <= n < |WithKept(d)|
      ensures AllRecordsTold(c, given, rows, WithKept(d)[n].ref.job, WithKept(d)[n].records)
    {
      if n < size {
        assert WithKept(d)[n] == d.state.store[n];
      } else {
        assert WithKept(d)[n] == KeptChunks(d.torn)[n - size];
        KeptOfTorn(c, given, rows, d.torn[n - size]);
      }
    }
  }

  lemma KeptOfTorn(c: Config, given: set<Answer>, rows: seq<Row>, f: TornFile)
    requires AllRecordsTold(c, given, rows, f.ref.job, f.records)
    ensures AllRecordsTold(c, given, rows, f.ref.job, Kept(f))
  {
    forall k | 0 <= k < |Kept(f)| ensures RecordTold(c, given, rows, f.ref.job, Kept(f)[k]) {
      assert Kept(f)[k] == f.records[k];
    }
  }

  /** All that a directory holds tells how the calls of the run went. */
  lemma DiskTold(c: Config, s: State, moves: seq<Move>)
    requires Reachable(c, s, moves)
    ensures Valid(c, s, StepsFor(moves))
    ensures var d := DoAll(c, Files(s, []), moves);
            StoreTold(c, Given(c, s, StepsFor(moves)), d.state.rows, WithKept(d))
  {
    var d := DoAll(c, Files(s, []), moves);
    MovesAreRun(c, Files(s, []), moves);
    var given := Given(c, s, StepsFor(moves));
    InitialInv(c, s);
    InitialTold(c, s, StepsFor(moves));
    TornToldRun(c, Files(s, []), moves, given);
    KeptTold(c, given, d.state.rows, d);
  }

  /** A file system after any run with broken writes. */
  ghost predicate Reachable(c: Config, s: State, moves: seq<Move>) {
    Initial(s) && CanAll(c, Files(s, []), moves)
  }

  /** In every state that can be reached with broken writes, the download of a job can be read to its end if and only if
      each torn file of the job was cut at the end of a record and no text of what is complete holds a raw line
      boundary; and then the client reads exactly the stored records and those complete in torn files, each of which
      tells how calls for the prompt of its row went. */
  lemma TornDownload(c: Config, s: State, moves: seq<Move>, job: JobId, order: seq<ChunkRef>, x: string)
    returns (records: seq<ResultRecord>)
    requires Reachable(c, s, moves)
    requires var d := DoAll(c, Files(s, []), moves); Lists(Directory(d).Keys, job, order)
    ensures var d := DoAll(c, Files(s, []), moves);
            && (ReadFiles(Directory(d), order).Some? <==>
                AllWhole(d.state.store, job) && AllClean(d.torn, job))
            && (AllWhole(d.state.store, job) && AllClean(d.torn, job) ==>
                  && ClientReads(Directory(d), WithKept(d), job, order, records)
                  && CountIn(records, x) == StoredFor(WithKept(d), job, x)
                  && Valid(c, s, StepsFor(moves))
                  && AllRecordsTold(c, Given(c, s, StepsFor(moves)), d.state.rows, job, records))
  {
    var d := DoAll(c, Files(s, []), moves);
    DiskRun(c, Files(s, []), moves);
    records := [];
    if AllWhole(d.state.store, job) && AllClean(d.torn, job) {
      KeptDistinct(d);
      CleanReads(d, job);
      records := DownloadReads(Directory(d), WithKept(d), job, order, x);
      DiskTold(c, s, moves);
      ClientTold(c, Given(c, s, StepsFor(moves)), d.state.rows, Directory(d), WithKept(d), job, order, records);
    } else if ReadFiles(Directory(d), order).Some? {
      ReadsOnlyClean(d, job, order);
    }
  }

  /** No row ever names a torn file: the file of a row that a worker made terminal is complete. */
  lemma NeverTorn(c: Config, s: State, moves: seq<Move>, i: nat) returns (records: seq<ResultRecord>, k: nat)
    requires Reachable(c, s, moves)
    requires var t := DoAll(c, Files(s, []), moves).state;
             i < |t.rows| && Terminal(t.rows[i].status) && t.rows[i].prompt.Some?
    ensures var d, row := DoAll(c, Files(s, []), moves), DoAll(c, Files(s, []), moves).state.rows[i];
            && row.resultRef.Some? && (forall n :: 0 <= n < |d.torn| ==> d.torn[n].ref != row.resultRef.value)
            && row.resultRef.value in Directory(d)
            && Directory(d)[row.resultRef.value] == Payload(records)
            && k < |records| && Matches(records[k], row)
            && Valid(c, s, StepsFor(moves)) && Told(c, Given(c, s, StepsFor(moves)), row.prompt.value, records[k])
  {
    var d := DoAll(c, Files(s, []), moves);
    DiskRun(c, Files(s, []), moves);
    MovesAreRun(c, Files(s, []), moves);
    records, k := WriteBeforeCommit.WriteBeforeCommit(c, s, StepsFor(moves), i);
    var n :| 0 <= n < |d.state.store| && d.state.store[n] == StoredChunk(d.state.rows[i].resultRef.value, records);
    DirectoryOfStore(d, n);
  }
}
