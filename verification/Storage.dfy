/** Chunk files of a job: written once per chunk, read back for the download. */
module Storage {
  import opened Domain
  import opened Framing
  import opened Text
  import Torn
  import JsonReader

  /** The records of some chunk files in the order listed, up to the first line that does not parse, and whether there
      is none. */
  function ReadUpTo(files: map<ChunkRef, string>, order: seq<ChunkRef>): (seq<ResultRecord>, bool)
    requires forall r <- order :: r in files
  {
    if order == [] then ([], true)
    else
      var (front, whole) := ReadUpTo(files, order[..|order| - 1]);
      if !whole then (front, false)
      else
        var (last, all) := ParseUpTo(SplitLines(files[order[|order| - 1]]));
        (front + last, all)
  }

  /** The records of some chunk files, in the order listed; None once a file does not parse. */
  function ReadFiles(files: map<ChunkRef, string>, order: seq<ChunkRef>): Option<seq<ResultRecord>>
    requires forall r <- order :: r in files
  {
    if order == [] then Some([])
    else
      var front := ReadFiles(files, order[..|order| - 1]);
      var last := ReadBack(files[order[|order| - 1]]);
      if front.None? || last.None? then None else Some(front.value + last.value)
  }

  lemma {:induction false} ReadUpToIs(files: map<ChunkRef, string>, order: seq<ChunkRef>)
    requires forall r <- order :: r in files
    ensures ReadFiles(files, order) == if ReadUpTo(files, order).1 then Some(ReadUpTo(files, order).0) else None
    decreases |order|
  {
    if order != [] {
      ReadUpToIs(files, order[..|order| - 1]);
      ParseUpToIs(SplitLines(files[order[|order| - 1]]));
    }
  }

  /** The files before one that does not parse decide what is read. */
  lemma {:induction false} StopsThere(files: map<ChunkRef, string>, order: seq<ChunkRef>, k: nat)
    requires k <= |order| && (forall r <- order :: r in files) && !ReadUpTo(files, order[..k]).1
    ensures ReadUpTo(files, order) == ReadUpTo(files, order[..k])
    decreases |order|
  {
    if k < |order| {
      assert order[..|order| - 1][..k] == order[..k];
      StopsThere(files, order[..|order| - 1], k);
    } else {
      assert order[..k] == order;
    }
  }

  lemma ReadNext(files: map<ChunkRef, string>, order: seq<ChunkRef>, k: nat,
                 records: seq<ResultRecord>, some: seq<ResultRecord>, all: bool)
    requires k < |order| && (forall r <- order :: r in files) && (records, true) == ReadUpTo(files, order[..k])
    requires (some, all) == ParseUpTo(SplitLines(files[order[k]]))
    ensures ReadUpTo(files, order[..k + 1]) == (records + some, all)
  {
    assert order[..k + 1][..k] == order[..k] && order[..k + 1][k] == order[k];
  }

  /** A listing of the chunk files of a job: all of them, by ascending name, hence each once. */
  ghost predicate Lists(refs: set<ChunkRef>, job: JobId, order: seq<ChunkRef>) {
    && (forall r <- order :: r in refs && r.job == job)
    && (forall r <- refs :: r.job == job ==> r in order)
    && (forall k, l :: 0 <= k < l < |order| ==> order[k].chunk < order[l].chunk)
  }

  function Without(order: seq<ChunkRef>, k: nat): (r: seq<ChunkRef>)
    requires k < |order|
    ensures |r| == |order| - 1 && forall n :: 0 <= n < |r| ==> r[n] == order[if n < k then n else n + 1]
  {
    order[..k] + order[k + 1..]
  }

  lemma ListsLess(less: set<ChunkRef>, refs: set<ChunkRef>, job: JobId, order: seq<ChunkRef>, k: nat)
    requires Lists(refs, job, order) && k < |order| && refs == less + {order[k]} && order[k] !in less
    ensures Lists(less, job, Without(order, k))
  {
    var without := Without(order, k);
    forall n | 0 <= n < |without| ensures without[n] in order && without[n] != order[k] {}
    forall r | r in less && r.job == job ensures r in without {
      var n :| 0 <= n < |order| && order[n] == r;
      assert without[if n < k then n else n - 1] == r;
    }
  }

  lemma EmptyListing(refs: set<ChunkRef>, job: JobId, order: seq<ChunkRef>)
    requires Lists(refs, job, order)
    ensures order == [] <==> forall r <- refs :: r.job != job
  {
    if order != [] { assert order[0] in order; }
  }

  lemma SameFirst(refs: set<ChunkRef>, job: JobId, a: seq<ChunkRef>, b: seq<ChunkRef>)
    requires Lists(refs, job, a) && Lists(refs, job, b) && a != [] && b != []
    ensures a[0].job == b[0].job && a[0].chunk <= b[0].chunk
  {
    assert b[0] in b && a[0] in a;
    var k :| 0 <= k < |a| && a[k] == b[0];
  }

  /** There is one sorted listing, hence one download. */
  lemma {:induction false} OneListing(refs: set<ChunkRef>, job: JobId, a: seq<ChunkRef>, b: seq<ChunkRef>)
    requires Lists(refs, job, a) && Lists(refs, job, b)
    ensures a == b
    decreases |a|
  {
    if a == [] || b == [] {
      EmptyListing(refs, job, a);
      EmptyListing(refs, job, b);
    } else {
      SameFirst(refs, job, a, b);
      SameFirst(refs, job, b, a);
      assert a[0] == b[0];
      var rest := refs - {a[0]};
      ListsLess(rest, refs, job, a, 0);
      ListsLess(rest, refs, job, b, 0);
      assert Without(a, 0) == a[1..] && Without(b, 0) == b[1..];
      OneListing(rest, job, a[1..], b[1..]);
    }
  }

  /** The listed files come before those still to be listed. */
  ghost predicate ListedSoFar(refs: set<ChunkRef>, job: JobId, order: seq<ChunkRef>, todo: set<ChunkRef>) {
    && (forall r <- todo :: r.job == job)
    && (forall r <- order :: r in refs && r.job == job)
    && (forall r <- refs :: r.job == job ==> r in todo || r in order)
    && (forall r, s :: r in order && s in todo ==> r.chunk < s.chunk)
    && (forall k, l :: 0 <= k < l < |order| ==> order[k].chunk < order[l].chunk)
  }

  lemma ListNext(refs: set<ChunkRef>, job: JobId, order: seq<ChunkRef>, todo: set<ChunkRef>, ref: ChunkRef)
    requires ListedSoFar(refs, job, order, todo) && todo <= refs
    requires ref in todo && forall r <- todo :: ref.chunk <= r.chunk
    ensures ListedSoFar(refs, job, order + [ref], todo - {ref})
  {
    var more := order + [ref];
    forall r | r in more ensures r in order || r == ref {}
    forall k, l | 0 <= k < l < |more| ensures more[k].chunk < more[l].chunk {
      assert more[k] in order;
    }
    forall r | r in refs && r.job == job ensures r in todo - {ref} || r in more {
      assert more[|order|] == ref;
      assert r in order ==> r in more;
    }
    forall s | s in todo - {ref} ensures ref.chunk < s.chunk {
      assert s.job == ref.job && s != ref;
    }
  }

  /** What the operating system does to a write: the file cannot be opened, or the write breaks off. */
  datatype Fault = NoFault | NotOpened | BrokeOff(written: nat)

  class LocalFileStorage {
    var files: map<ChunkRef, string>

    constructor ()
      ensures files == map[]
    {
      files := map[];
    }

    /** A written chunk holds one JSON object of the record's fields per line, and reads back as its records, unless a
        text in them holds a raw line boundary. A write that breaks off leaves the beginning of the file, which reads
        back as the records complete in it if it was cut at the end of one. Other files stay. */
    method WriteChunk(job: JobId, chunkId: nat, records: seq<ResultRecord>, fault: Fault)
      returns (ref: Option<ChunkRef>)
      requires fault.BrokeOff? ==> fault.written <= |Payload(records)|
      modifies this
      ensures ref == if fault.NoFault? then Some(ChunkRef(job, chunkId)) else None
      ensures var name := ChunkRef(job, chunkId);
              match fault
              case NoFault =>
                && files == old(files)[name := Payload(records)]
                && ReadBack(files[name]) == (if WholeRecords(records) then Some(records) else None)
                && (records != [] && WholeRecords(records) ==>
                      JsonReader.LinesAre(SplitLines(files[name]), records))
              case NotOpened => files == old(files)
              case BrokeOff(n) =>
                && files == old(files)[name := Payload(records)[..n]]
                && var (m, end) := Torn.CompleteIn(records, n);
                   ReadBack(files[name]) == if end && WholeRecords(records[..m]) then Some(records[..m]) else None
    {
      match fault {
        case NoFault =>
          files := files[ChunkRef(job, chunkId) := Payload(records)];
          ChunkRoundTrip(records);
          if records != [] { JsonReader.PayloadMembers(records); }
          ref := Some(ChunkRef(job, chunkId));
        case NotOpened =>
          ref := None;
        case BrokeOff(n) =>
          files := files[ChunkRef(job, chunkId) := Payload(records)[..n]];
          Torn.TornReads(records, n);
          ref := None;
      }
    }

    /** The chunk files of a job, sorted by name. */
    method ListChunks(job: JobId) returns (order: seq<ChunkRef>)
      ensures Lists(files.Keys, job, order)
    {
      var todo := set r | r in files && r.job == job;
      order := [];
      while todo != {}
        invariant todo <= files.Keys && ListedSoFar(files.Keys, job, order, todo)
        decreases |todo|
      {
        SomeLeast(todo, job);
        var ref :| ref in todo && forall r <- todo :: ref.chunk <= r.chunk;
        ListNext(files.Keys, job, order, todo, ref);
        todo, order := todo - {ref}, order + [ref];
      }
    }

    /** Lists the files of a job and reads them one after the other, line by line; a line that does not parse ends the
        reading after the records before it. */
    method IterResults(job: JobId) returns (records: seq<ResultRecord>, whole: bool, ghost order: seq<ChunkRef>)
      ensures Lists(files.Keys, job, order)
      ensures forall o :: Lists(files.Keys, job, o) ==> (records, whole) == ReadUpTo(files, o)
      ensures forall o :: Lists(files.Keys, job, o) ==> (whole <==> ReadFiles(files, o) == Some(records))
    {
      var list := ListChunks(job);
      order, records := list, [];
      forall o | Lists(files.Keys, job, o) ensures o == list { OneListing(files.Keys, job, o, list); }
      ReadUpToIs(files, order);
      for k := 0 to |list|
        invariant (records, true) == ReadUpTo(files, list[..k])
      {
        var some, all := ReadLines(SplitLines(files[list[k]]));
        ReadNext(files, list, k, records, some, all);
        records := records + some;
        if !all {
          StopsThere(files, list, k + 1);
          return records, false, order;
        }
      }
      assert list[..|list|] == list;
      whole := true;
    }
  }

  /** What is read so far and what is still to be read make up the whole. */
  ghost predicate Adds(all: (seq<ResultRecord>, bool), records: seq<ResultRecord>, rest: (seq<ResultRecord>, bool)) {
    all.0 == records + rest.0 && all.1 == rest.1
  }

  lemma AddsNone(all: (seq<ResultRecord>, bool))
    ensures Adds(all, [], all)
  {}

  lemma AddsAll(all: (seq<ResultRecord>, bool), records: seq<ResultRecord>)
    requires Adds(all, records, ParseUpTo([]))
    ensures all == (records, true)
  {
    assert records + [] == records;
  }

  lemma AddsOne(all: (seq<ResultRecord>, bool), records: seq<ResultRecord>, rest: (seq<ResultRecord>, bool),
                r: ResultRecord, rest': (seq<ResultRecord>, bool))
    requires Adds(all, records, rest) && rest.0 == [r] + rest'.0 && rest.1 == rest'.1
    ensures Adds(all, records + [r], rest')
  {
    assert records + ([r] + rest'.0) == (records + [r]) + rest'.0;
  }

  /** What the next line does to the reading. */
  datatype Line = Skipped | Broken | Record(record: ResultRecord)

  function Classify(line: string): Line {
    if Strip(line) == "" then Skipped
    else
      var r := ParseLine(line);
      if r.None? then Broken else Record(r.value)
  }

  lemma NextLine(all: (seq<ResultRecord>, bool), rest: seq<string>, records: seq<ResultRecord>, line: Line)
    requires rest != [] && Adds(all, records, ParseUpTo(rest)) && line == Classify(rest[0])
    ensures match line
            case Skipped => Adds(all, records, ParseUpTo(rest[1..]))
            case Broken => all == (records, false)
            case Record(r) => Adds(all, records + [r], ParseUpTo(rest[1..]))
  {
    match line
    case Skipped =>
    case Broken => assert records + [] == records;
    case Record(r) => AddsOne(all, records, ParseUpTo(rest), r, ParseUpTo(rest[1..]));
  }

  /** The lines of one file: blank ones are skipped. */
  method ReadLines(lines: seq<string>) returns (records: seq<ResultRecord>, whole: bool)
    ensures (records, whole) == ParseUpTo(lines)
  {
    ghost var all := ParseUpTo(lines);
    var rest := lines;
    records := [];
    AddsNone(all);
    while rest != []
      invariant Adds(all, records, ParseUpTo(rest))
    {
      var line := Classify(rest[0]);
      NextLine(all, rest, records, line);
      match line {
        case Skipped =>
        case Broken =>
          return records, false;
        case Record(r) =>
          records := records + [r];
      }
      rest := rest[1..];
    }
    AddsAll(all, records);
    whole := true;
  }

  lemma {:induction false} SomeLeast(refs: set<ChunkRef>, job: JobId)
    requires refs != {} && forall r <- refs :: r.job == job
    ensures exists ref :: ref in refs && forall r <- refs :: ref.chunk <= r.chunk
    decreases refs
  {
    var a :| a in refs;
    if refs - {a} == {} {
      assert refs == {a};
    } else {
      SomeLeast(refs - {a}, job);
      var b :| b in refs - {a} && forall r <- refs - {a} :: b.chunk <= r.chunk;
      var least := if a.chunk <= b.chunk then a else b;
      forall r | r in refs ensures least.chunk <= r.chunk { assert r == a || r in refs - {a}; }
    }
  }
}
