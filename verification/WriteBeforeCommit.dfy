/** Every committed result is already in storage, down to the bytes of its file. */
module WriteBeforeCommit {
  import opened Domain
  import opened Protocol
  import opened Invariant
  import opened Framing
  import opened Records

  /** The files behind the store; a second write under one reference would replace the first. */
  function FilesOf(store: seq<StoredChunk>): map<ChunkRef, string> {
    if store == [] then map[]
    else FilesOf(store[..|store| - 1])[store[|store| - 1].ref := Payload(store[|store| - 1].records)]
  }

  ghost predicate RefsDistinct(store: seq<StoredChunk>) {
    forall n, m :: 0 <= n < m < |store| ==> store[n].ref != store[m].ref
  }

  lemma {:induction false} FileOf(store: seq<StoredChunk>, n: nat)
    requires n < |store| && RefsDistinct(store)
    ensures store[n].ref in FilesOf(store) && FilesOf(store)[store[n].ref] == Payload(store[n].records)
    decreases |store|
  {
    var last := |store| - 1;
    if n < last {
      assert store[..last][n] == store[n] && store[n].ref != store[last].ref;
      FileOf(store[..last], n);
    }
  }

  /** Generated chunk ids are fresh, so no file is ever overwritten. */
  lemma {:induction false} NeverOverwritten(c: Config, s: State, steps: seq<Step>)
    requires Valid(c, s, steps) && RefsDistinct(s.store)
    ensures RefsDistinct(Final(c, s, steps).store) && s.store <= Final(c, s, steps).store
    decreases |steps|
  {
    if steps != [] {
      NeverOverwritten(c, Next(c, s, steps[0]), steps[1..]);
    }
  }

  /** In every reachable state a row with a prompt that is terminal names a file of its job in storage, and that file
      was written from records among which is one with the row's external id, status, error and attempts, which tells
      how calls for the row's prompt went and, if the last one succeeded, holds its text. */
  lemma WriteBeforeCommit(c: Config, s: State, steps: seq<Step>, i: nat) returns (records: seq<ResultRecord>, k: nat)
    requires Initial(s) && Valid(c, s, steps) && i < |Final(c, s, steps).rows|
    requires var row := Final(c, s, steps).rows[i]; Terminal(row.status) && row.prompt.Some?
    ensures var row, files := Final(c, s, steps).rows[i], FilesOf(Final(c, s, steps).store);
            && row.resultRef.Some? && StoredChunk(row.resultRef.value, records) in Final(c, s, steps).store
            && row.resultRef.value in files && files[row.resultRef.value] == Payload(records)
            && ReadBack(files[row.resultRef.value]) == (if WholeRecords(records) then Some(records) else None)
            && k < |records| && Matches(records[k], row)
            && row.resultRef.value.job == row.job && Told(c, Given(c, s, steps), row.prompt.value, records[k])
  {
    var t := Final(c, s, steps);
    InitialTold(c, s, steps);
    NeverOverwritten(c, s, steps);
    assert RowOk(t, i);
    var n, m :| 0 <= n < |t.store| && 0 <= m < |t.store[n].records|
                && t.store[n].ref == t.rows[i].resultRef.value && Matches(t.store[n].records[m], t.rows[i]);
    FileOf(t.store, n);
    ChunkRoundTrip(t.store[n].records);
    records, k := t.store[n].records, m;
    assert t.store[n] == StoredChunk(t.rows[i].resultRef.value, records);
    StoredAnswers(c, s, steps, n, m);
  }

  /** A row that was never deliverable is FAILED from the start and names no file. */
  lemma RejectedNamesNoFile(c: Config, s: State, steps: seq<Step>, i: nat)
    requires Initial(s) && Valid(c, s, steps) && i < |Final(c, s, steps).rows|
    ensures var row := Final(c, s, steps).rows[i];
            row.prompt.None? <==> Terminal(row.status) && row.resultRef.None?
    ensures Final(c, s, steps).rows[i].prompt.None? ==> Final(c, s, steps).rows[i].status.Failed?
  {
    InitialInv(c, s);
    RunInv(c, s, steps);
    assert RowOk(Final(c, s, steps), i);
  }
}
