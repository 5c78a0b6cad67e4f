/** Batched ingestion against a one-shot specification, and when the two agree. */
module OneShot {
  import opened Domain
  import opened Text
  import opened Validation
  import opened Ingest

  /** The index of the first entry with a key, or the length. */
  function FirstWith(entries: seq<Entry>, x: string): nat {
    if entries == [] || entries[0].Key() == x then 0 else 1 + FirstWith(entries[1..], x)
  }

  /** The index of the first accepted entry with a key, or the length. */
  function FirstAccepted(entries: seq<Entry>, x: string): nat {
    if entries == [] || (entries[0].Accepted? && entries[0].Key() == x) then 0 else 1 + FirstAccepted(entries[1..], x)
  }

  lemma {:induction false} FirstIndexes(entries: seq<Entry>, x: string)
    ensures FirstWith(entries, x) <= FirstAccepted(entries, x) <= |entries|
    ensures FirstWith(entries, x) < |entries| ==> entries[FirstWith(entries, x)].Key() == x
    ensures forall i :: 0 <= i < FirstWith(entries, x) ==> entries[i].Key() != x
    ensures FirstAccepted(entries, x) < |entries| ==>
              entries[FirstAccepted(entries, x)].Accepted? && entries[FirstAccepted(entries, x)].Key() == x
    ensures forall i :: 0 <= i < FirstAccepted(entries, x) && entries[i].Accepted? ==> entries[i].Key() != x
  {
    if entries != [] { FirstIndexes(entries[1..], x); }
  }

  /** The specification, which knows no batches: an id's row is PENDING with its first accepted prompt if any row
      with the id was accepted, and FAILED otherwise. */
  function OneShot(entries: seq<Entry>, x: string): Option<Option<string>> {
    var k := FirstAccepted(entries, x);
    if k < |entries| && entries[k].Accepted? then Some(Some(entries[k].item.prompt))
    else if FirstWith(entries, x) < |entries| then Some(None)
    else None
  }

  /** The number of the batch entry `i` goes into. */
  function BatchOf(i: nat, size: nat): nat
    requires size >= 1
  {
    if i < size then 0 else 1 + BatchOf(i - size, size)
  }

  /** The first row with the id and the first accepted row with it go into the same batch. */
  predicate SameBatch(entries: seq<Entry>, size: nat, x: string)
    requires size >= 1
  {
    SameBatchAt(FirstWith(entries, x), FirstAccepted(entries, x), |entries|, size)
  }

  predicate SameBatchAt(firstWith: nat, firstAccepted: nat, n: nat, size: nat)
    requires size >= 1
  {
    firstAccepted < n ==> BatchOf(firstWith, size) == BatchOf(firstAccepted, size)
  }

  // ------------------------------------------------------------- one batch

  lemma {:induction false} ItemsLookup(batch: seq<Entry>, x: string)
    ensures var items := ItemsOf(batch);
            var w: Writing := seq(|items|, i requires 0 <= i < |items| => (items[i].externalId, Some(items[i].prompt)));
            Lookup(w, x) == if FirstAccepted(batch, x) < |batch| then OneShot(batch, x) else None
    decreases |batch|
  {
    if batch != [] {
      var items, rest := ItemsOf(batch), ItemsOf(batch[1..]);
      var w: Writing := seq(|items|, i requires 0 <= i < |items| => (items[i].externalId, Some(items[i].prompt)));
      var w': Writing := seq(|rest|, i requires 0 <= i < |rest| => (rest[i].externalId, Some(rest[i].prompt)));
      ItemsLookup(batch[1..], x);
      FirstIndexes(batch[1..], x);
      if batch[0].Accepted? {
        assert items == [batch[0].item] + rest;
        assert w == [(batch[0].item.externalId, Some(batch[0].item.prompt))] + w';
        assert w[1..] == w';
      } else {
        assert items == rest && w == w';
      }
    }
  }

  lemma {:induction false} FailedLookup(batch: seq<Entry>, x: string)
    requires FirstAccepted(batch, x) == |batch|
    ensures var failed := FailedOf(batch);
            var w: Writing := seq(|failed|, i requires 0 <= i < |failed| => (failed[i], None));
            Lookup(w, x) == if FirstWith(batch, x) < |batch| then Some(None) else None
    decreases |batch|
  {
    if batch != [] {
      var failed, rest := FailedOf(batch), FailedOf(batch[1..]);
      var w: Writing := seq(|failed|, i requires 0 <= i < |failed| => (failed[i], None));
      var w': Writing := seq(|rest|, i requires 0 <= i < |rest| => (rest[i], None));
      FailedLookup(batch[1..], x);
      if batch[0].Rejected? {
        assert failed == [batch[0].id] + rest;
        assert w == [(batch[0].id, None)] + w';
        assert w[1..] == w';
      } else {
        assert failed == rest && w == w';
      }
    }
  }

  /** Within one batch accepted rows go before rejected ones, which is just the specification. */
  lemma BatchLookup(batch: seq<Entry>, x: string)
    ensures Lookup(BatchWriting(batch), x) == OneShot(batch, x)
  {
    var items, failed := ItemsOf(batch), FailedOf(batch);
    var a: Writing := seq(|items|, i requires 0 <= i < |items| => (items[i].externalId, Some(items[i].prompt)));
    var b: Writing := seq(|failed|, i requires 0 <= i < |failed| => (failed[i], None));
    assert BatchWriting(batch) == a + b;
    LookupConcat(a, b, x);
    ItemsLookup(batch, x);
    FirstIndexes(batch, x);
    if FirstAccepted(batch, x) == |batch| { FailedLookup(batch, x); }
  }

  // ---------------------------------------------------------------- all batches

  lemma {:induction false} SplitIndexes(a: seq<Entry>, b: seq<Entry>, x: string)
    ensures FirstWith(a + b, x) == if FirstWith(a, x) < |a| then FirstWith(a, x) else |a| + FirstWith(b, x)
    ensures FirstAccepted(a + b, x) == if FirstAccepted(a, x) < |a| then FirstAccepted(a, x)
            else |a| + FirstAccepted(b, x)
    decreases |a|
  {
    if a == [] {
      assert a + b == b;
    } else {
      assert (a + b)[0] == a[0] && (a + b)[1..] == a[1..] + b;
      SplitIndexes(a[1..], b, x);
      FirstIndexes(a[1..], x);
    }
  }

  /** What the first batch writes for an id, and what the specification says, by where the id occurs. */
  lemma OneShotSplit(a: seq<Entry>, b: seq<Entry>, x: string)
    ensures FirstAccepted(a, x) < |a| ==> OneShot(a + b, x) == OneShot(a, x)
    ensures FirstWith(a, x) == |a| ==> OneShot(a, x) == None && OneShot(a + b, x) == OneShot(b, x)
    ensures FirstWith(a, x) < |a| == FirstAccepted(a, x) ==>
              OneShot(a, x) == Some(None)
              && (OneShot(a + b, x) == Some(None) <==> FirstAccepted(b, x) == |b|)
  {
    SplitIndexes(a, b, x);
    FirstIndexes(a, x);
    FirstIndexes(b, x);
    var e, f := a + b, FirstAccepted(a + b, x);
    if FirstAccepted(a, x) < |a| {
      assert e[f] == a[f];
    } else if FirstAccepted(b, x) < |b| {
      assert e[f] == b[FirstAccepted(b, x)];
    }
  }

  lemma BatchOfNext(i: nat, size: nat)
    requires size >= 1
    ensures BatchOf(size + i, size) == 1 + BatchOf(i, size)
  {}

  /** Indexes in the first batch, and indexes after it. */
  lemma BatchOfFirst(i: nat, size: nat)
    requires i < size
    ensures BatchOf(i, size) == 0
  {}

  lemma SameBatchSplit(a: seq<Entry>, b: seq<Entry>, size: nat, x: string)
    requires size >= 1 && |a| == size
    ensures FirstAccepted(a, x) < |a| ==> SameBatch(a + b, size, x)
    ensures FirstWith(a, x) == |a| ==> (SameBatch(a + b, size, x) <==> SameBatch(b, size, x))
    ensures FirstWith(a, x) < |a| == FirstAccepted(a, x) ==> (SameBatch(a + b, size, x) <==> FirstAccepted(b, x) == |b|)
  {
    SplitIndexes(a, b, x);
    FirstIndexes(a, x);
    FirstIndexes(b, x);
    SameBatchOfConcat(a, b, FirstWith(a, x), FirstAccepted(a, x), FirstWith(b, x), FirstAccepted(b, x), size, a + b, x);
  }

  lemma SameBatchOfConcat(a: seq<Entry>, b: seq<Entry>, w: nat, k: nat, w': nat, k': nat, size: nat, all: seq<Entry>,
                          x: string)
    requires size >= 1 && |a| == size && |all| == size + |b| && w <= k <= size && w' <= k' <= |b|
    requires FirstWith(b, x) == w' && FirstAccepted(b, x) == k'
    requires FirstWith(all, x) == (if w < size then w else size + w')
    requires FirstAccepted(all, x) == (if k < size then k else size + k')
    ensures k < size ==> SameBatch(all, size, x)
    ensures w == size ==> (SameBatch(all, size, x) <==> SameBatch(b, size, x))
    ensures w < size == k ==> (SameBatch(all, size, x) <==> k' == |b|)
  {
    SameBatchAtSplit(w, k, w', k', |b|, size);
  }

  /** `w`, `k`: the indexes in the first batch; `w'`, `k'` and `n'`: the indexes and the number of the entries after
      it. */
  lemma SameBatchAtSplit(w: nat, k: nat, w': nat, k': nat, n': nat, size: nat)
    requires size >= 1 && w <= k <= size && w' <= k' <= n'
    ensures k < size ==> SameBatchAt(w, k, size + n', size)
    ensures w == size ==> (SameBatchAt(size + w', size + k', size + n', size) <==> SameBatchAt(w', k', n', size))
    ensures w < size ==> (SameBatchAt(w, size + k', size + n', size) <==> k' == n')
  {
    BatchOfNext(w', size);
    BatchOfNext(k', size);
    if w < size { BatchOfFirst(w, size); }
    if k < size { BatchOfFirst(k, size); }
  }

  /** Batched ingestion writes for an id what the specification says if and only if the id meets `SameBatch`. */
  lemma {:induction false} WritingRefines(entries: seq<Entry>, size: nat, x: string)
    requires size >= 1
    ensures Lookup(WritingOf(entries, size), x) == OneShot(entries, x) <==> SameBatch(entries, size, x)
    decreases |entries|
  {
    if |entries| < size {
      BatchLookup(entries, x);
      FirstIndexes(entries, x);
    } else {
      var a, b := entries[..size], entries[size..];
      assert entries == a + b;
      BatchLookup(a, x);
      WritingRefines(b, size, x);
      LookupConcat(BatchWriting(a), WritingOf(b, size), x);
      FirstIndexes(a, x);
      FirstIndexes(b, x);
      OneShotSplit(a, b, x);
      SameBatchSplit(a, b, size, x);
    }
  }

  /** For a fresh job the table is the specification's for every id, if and only if every id meets `SameBatch`. */
  lemma IngestRefines(rows: seq<Row>, job: JobId, entries: seq<Entry>, size: nat)
    requires size >= 1 && Seeds(rows, job) == map[]
    ensures (forall x :: SameBatch(entries, size, x)) <==>
            forall x :: var m := Seeds(IngestRows(rows, job, entries, size), job);
                        OneShot(entries, x) == if x in m then Some(m[x]) else None
  {
    var m := Seeds(IngestRows(rows, job, entries, size), job);
    IngestSeeds(rows, job, entries, size);
    forall x ensures SameBatch(entries, size, x) <==> OneShot(entries, x) == if x in m then Some(m[x]) else None {
      FirstLookup(map[], WritingOf(entries, size), x);
      WritingRefines(entries, size, x);
    }
  }

  // --------------------------------------------------- with the duplicate rule on

  /** An accepted id has not been validated before, and every later row with it is rejected. */
  lemma {:induction false} AcceptedFirst(rules: seq<Rule>, objs: seq<Obj>, done: nat, seen: set<string>, k: nat)
    requires OneUnique(rules) && UniqueExternalId in rules && k < |objs|
    ensures var e := Entries(rules, objs, done, seen);
            e[k].Accepted? ==>
              && e[k].Key() !in seen
              && forall i :: 0 <= i < k && e[i].Key() == e[k].Key() ==> e[i].Rejected? && e[i].malformed
    decreases k
  {
    var e := Entries(rules, objs, done, seen);
    var (entry, after) := ToEntry(rules, objs[0], done + 1, seen);
    assert e[0] == entry;
    var item := ToItem(objs[0], done + 1).0;
    if item.Some? { CheckAllMeaning(rules, item.value, seen); }
    if k > 0 {
      AcceptedFirst(rules, objs[1..], done + 1, after, k - 1);
      var e' := Entries(rules, objs[1..], done + 1, after);
      assert e == [entry] + e';
      if e[k].Accepted? {
        forall i | 0 <= i < k && e[i].Key() == e[k].Key() ensures e[i].Rejected? && e[i].malformed {
          if i > 0 { assert e[i] == e'[i - 1]; }
        }
      }
    }
  }

  /** No malformed row precedes an accepted row of the same id. */
  ghost predicate CleanOrder(entries: seq<Entry>) {
    forall i, k :: 0 <= i < k < |entries| && entries[i].Rejected? && entries[i].malformed && entries[k].Accepted? ==>
      entries[i].Key() != entries[k].Key()
  }

  /** Then the final table is the specification's, whatever the batch size. */
  lemma BatchSizeIrrelevant(rules: seq<Rule>, objs: seq<Obj>, rows: seq<Row>, job: JobId, size: nat)
    requires size >= 1 && Seeds(rows, job) == map[]
    requires OneUnique(rules) && UniqueExternalId in rules && CleanOrder(Entries(rules, objs, 0, {}))
    ensures var entries := Entries(rules, objs, 0, {});
            var m := Seeds(IngestRows(rows, job, entries, size), job);
            && (forall x :: OneShot(entries, x) == if x in m then Some(m[x]) else None)
            && m == Seeds(IngestRows(rows, job, entries, 1), job)
  {
    var entries := Entries(rules, objs, 0, {});
    forall x ensures FirstAccepted(entries, x) < |entries| ==> FirstWith(entries, x) == FirstAccepted(entries, x) {
      FirstIndexes(entries, x);
      var r, f := FirstWith(entries, x), FirstAccepted(entries, x);
      if f < |entries| && r < f { AcceptedFirst(rules, objs, 0, {}, f); }
    }
    assert forall x :: SameBatch(entries, size, x) && SameBatch(entries, 1, x);
    IngestRefines(rows, job, entries, size);
    IngestRefines(rows, job, entries, 1);
    var m, m1 := Seeds(IngestRows(rows, job, entries, size), job), Seeds(IngestRows(rows, job, entries, 1), job);
    forall x ensures x in m <==> x in m1
             ensures x in m ==> m[x] == m1[x]
    {
      assert OneShot(entries, x) == if x in m then Some(m[x]) else None;
      assert OneShot(entries, x) == if x in m1 then Some(m1[x]) else None;
    }
  }

  // ------------------------------------------------------- an input that loses a prompt

  predicate Malformed(obj: Obj) {
    obj.NotAnObject? || obj.prompt.NoTextPrompt?
  }

  function RejectedEntry(obj: Obj, rowNumber: nat): Entry {
    Rejected(ToItem(obj, rowNumber).1, true)
  }

  function RejectedEntries(objs: seq<Obj>, done: nat): seq<Entry> {
    seq(|objs|, k requires 0 <= k < |objs| => RejectedEntry(objs[k], done + k + 1))
  }

  lemma RejectedCons(objs: seq<Obj>, done: nat)
    requires objs != []
    ensures RejectedEntries(objs, done) == [RejectedEntry(objs[0], done + 1)] + RejectedEntries(objs[1..], done + 1)
  {
    var e := RejectedEntries(objs, done);
    forall k | 1 <= k < |e| ensures e[k] == RejectedEntries(objs[1..], done + 1)[k - 1] {
      assert objs[1..][k - 1] == objs[k] && done + 1 + (k - 1) + 1 == done + k + 1;
    }
  }

  lemma EntriesCons(rules: seq<Rule>, objs: seq<Obj>, done: nat, seen: set<string>)
    requires objs != [] && Malformed(objs[0])
    ensures Entries(rules, objs, done, seen) == [RejectedEntry(objs[0], done + 1)]
            + Entries(rules, objs[1..], done + 1, seen)
  {
    assert ToItem(objs[0], done + 1).0.None?;
  }

  lemma ConsConcat(head: Entry, tail: seq<Entry>, rest: seq<Entry>, all: seq<Entry>)
    requires all == tail + rest
    ensures [head] + all == ([head] + tail) + rest
  {}

  /** Malformed objects are rejected under their ids and leave the validation of the others alone. */
  lemma {:induction false} MalformedEntries(rules: seq<Rule>, a: seq<Obj>, b: seq<Obj>, done: nat, seen: set<string>)
    requires forall k :: 0 <= k < |a| ==> Malformed(a[k])
    ensures Entries(rules, a + b, done, seen) == RejectedEntries(a, done) + Entries(rules, b, done + |a|, seen)
    decreases |a|
  {
    if a == [] {
      assert a + b == b;
    } else {
      assert (a + b)[0] == a[0] && (a + b)[1..] == a[1..] + b;
      EntriesCons(rules, a + b, done, seen);
      MalformedEntries(rules, a[1..], b, done + 1, seen);
      assert done + 1 + |a[1..]| == done + |a|;
      RejectedCons(a, done);
      ConsConcat(RejectedEntry(a[0], done + 1), RejectedEntries(a[1..], done + 1), Entries(rules, b, done + |a|, seen),
                 Entries(rules, a[1..] + b, done + 1, seen));
    }
  }

  /** An object with the id "a" and no prompt, values that are no objects until the batch is full, and the "a" that
      counts. */
  function LosingInput(size: nat, prompt: string): seq<Obj>
    requires size >= 1
  {
    [Object(TextId("a"), NoTextPrompt)] + seq(size - 1, i => NotAnObject) + [Object(TextId("a"), TextPrompt(prompt))]
  }

  lemma LosingEntries(rules: seq<Rule>, size: nat, prompt: string)
    requires size >= 1 && OneUnique(rules) && Stateless(rules, PromptItem("a", prompt))
    ensures var entries := Entries(rules, LosingInput(size, prompt), 0, {});
            && |entries| == size + 1 && entries[0] == Rejected("a", true)
            && (forall k :: 0 <= k < size ==> entries[k].Rejected?)
               && entries[size] == Accepted(PromptItem("a", prompt))
  {
    var a := [Object(TextId("a"), NoTextPrompt)] + seq(size - 1, i => NotAnObject);
    var b := [Object(TextId("a"), TextPrompt(prompt))];
    MalformedEntries(rules, a, b, 0, {});
    CheckAllMeaning(rules, PromptItem("a", prompt), {});
    assert a[0] == Object(TextId("a"), NoTextPrompt) && RejectedEntries(a, 0)[0] == Rejected("a", true);
  }

  /** For every batch size and every prompt the rules let pass there is an input whose last object is accepted with that
      prompt, while the table ends with the id FAILED and the prompt lost: a malformed object came a batch before. */
  lemma MalformedFirstLosesPrompt(rules: seq<Rule>, size: nat, prompt: string, rows: seq<Row>, job: JobId)
    requires size >= 1 && Seeds(rows, job) == map[]
    requires OneUnique(rules) && Stateless(rules, PromptItem("a", prompt))
    ensures var entries := Entries(rules, LosingInput(size, prompt), 0, {});
            && entries[size] == Accepted(PromptItem("a", prompt)) && OneShot(entries, "a") == Some(Some(prompt))
            && var m := Seeds(IngestRows(rows, job, entries, size), job); "a" in m && m["a"] == None
  {
    LosingEntries(rules, size, prompt);
    LostPrompt(Entries(rules, LosingInput(size, prompt), 0, {}), size, prompt, rows, job);
  }

  lemma LostPrompt(entries: seq<Entry>, size: nat, prompt: string, rows: seq<Row>, job: JobId)
    requires size >= 1 && Seeds(rows, job) == map[]
    requires |entries| == size + 1 && entries[0] == Rejected("a", true)
    requires (forall k :: 0 <= k < size ==> entries[k].Rejected?) && entries[size] == Accepted(PromptItem("a", prompt))
    ensures OneShot(entries, "a") == Some(Some(prompt))
    ensures var m := Seeds(IngestRows(rows, job, entries, size), job); "a" in m && m["a"] == None
  {
    FirstIndexes(entries, "a");
    assert entries[size].Key() == "a" && entries[0].Key() == "a";
    assert FirstWith(entries, "a") == 0 && FirstAccepted(entries, "a") == size;
    var a := entries[..size];
    FirstIndexes(a, "a");
    BatchLookup(a, "a");
    LookupConcat(BatchWriting(a), WritingOf(entries[size..], size), "a");
    IngestSeeds(rows, job, entries, size);
    FirstLookup(map[], WritingOf(entries, size), "a");
  }

  /** The pipeline as it is composed: the prompts an id passes with, with or without the duplicate rule. */
  lemma ComposedRules(minChars: int, maxTokens: int, unique: bool, item: PromptItem)
    ensures var rules := Composed(minChars, maxTokens, unique);
            && OneUnique(rules) && (UniqueExternalId in rules <==> unique)
            && (Stateless(rules, item) <==>
                  Strip(item.externalId) != "" && |Strip(item.prompt)| >= minChars && |item.prompt| / 4 <= maxTokens)
  {
    var rules := Composed(minChars, maxTokens, unique);
    assert rules[0] == NonEmptyExternalId && rules[1] == NonEmptyPrompt(minChars)
           && rules[2] == MaxPromptTokens(maxTokens);
    assert Strip("") == "";
    if Stateless(rules, item) {
      assert Check(rules[0], item, {}).0 == [] && Check(rules[1], item, {}).0 == []
             && Check(rules[2], item, {}).0 == [];
    }
  }

  /** With the composed pipeline, whatever its settings, every prompt it accepts can be lost this way. */
  lemma ComposedLosesPrompt(minChars: int, maxTokens: int, unique: bool, size: nat, prompt: string, rows: seq<Row>,
                            job: JobId)
    requires size >= 1 && Seeds(rows, job) == map[]
    requires |Strip(prompt)| >= minChars && |prompt| / 4 <= maxTokens
    ensures var entries := Entries(Composed(minChars, maxTokens, unique), LosingInput(size, prompt), 0, {});
            && entries[size] == Accepted(PromptItem("a", prompt)) && OneShot(entries, "a") == Some(Some(prompt))
            && var m := Seeds(IngestRows(rows, job, entries, size), job); "a" in m && m["a"] == None
  {
    StripBlank("a");
    assert !Blank("a") by { assert "a"[0] == 'a'; }
    ComposedRules(minChars, maxTokens, unique, PromptItem("a", prompt));
    MalformedFirstLosesPrompt(Composed(minChars, maxTokens, unique), size, prompt, rows, job);
  }
}
