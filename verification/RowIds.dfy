/** What an object of the input becomes: its id, its prompt, and whether it is accepted. */
module RowIds {
  import opened Domain
  import opened Text
  import opened Jsonl
  import opened Validation
  import opened Ingest

  /** The object brings an id of its own: any value but null and the empty string. */
  predicate HasId(obj: Obj) {
    obj.Object? && !obj.id.NoId? && (obj.id.TextId? ==> obj.id.text != "")
  }

  /** An object with a prompt that is a string. */
  predicate WellFormed(obj: Obj) {
    obj.Object? && obj.prompt.TextPrompt?
  }

  /** "row-" and the decimal digits of the position, counted from one. */
  predicate IsPosition(id: string, n: nat) {
    && |id| > 4 && id[0] == 'r' && id[1] == 'o' && id[2] == 'w' && id[3] == '-' && id[4] != '0'
    && ParseDigits(0, id[4..]) == (n, "")
  }

  /** The id of an object: its own, in text form, or its position. */
  predicate Identifies(obj: Obj, n: nat, id: string) {
    if HasId(obj) then id == (match obj.id case TextId(text) => text case OtherId(repr) => repr case NoId => "")
    else IsPosition(id, n)
  }

  /** The entry of the `n`-th object: under its id, with its prompt if accepted, and malformed exactly if it is so. */
  predicate EntryOf(obj: Obj, n: nat, entry: Entry) {
    && Identifies(obj, n, entry.Key())
    && match entry
       case Accepted(item) => WellFormed(obj) && item.prompt == obj.prompt.text
       case Rejected(_, malformed) => malformed <==> !WellFormed(obj)
  }

  lemma {:induction false} NoLeadingZero(n: nat)
    requires n >= 1
    ensures NatToString(n)[0] != '0'
  {
    if n >= 10 { NoLeadingZero(n / 10); }
  }

  lemma FallbackIsPosition(n: nat)
    requires n >= 1
    ensures IsPosition(Fallback(n), n)
  {
    var id, digits := Fallback(n), NatToString(n);
    assert id == "row-" + digits && id[4..] == digits;
    NoLeadingZero(n);
    DigitsRoundTrip(n, "");
    assert digits + "" == digits;
  }

  lemma ToEntryIs(rules: seq<Rule>, obj: Obj, n: nat, seen: set<string>)
    requires n >= 1
    ensures EntryOf(obj, n, ToEntry(rules, obj, n, seen).0)
  {
    FallbackIsPosition(n);
  }

  /** Object by object, in whatever position of the input. */
  lemma {:induction false} EntriesAre(rules: seq<Rule>, objs: seq<Obj>, done: nat, seen: set<string>, k: nat)
    requires k < |objs|
    ensures EntryOf(objs[k], done + k + 1, Entries(rules, objs, done, seen)[k])
    decreases |objs|
  {
    if k == 0 {
      ToEntryIs(rules, objs[0], done + 1, seen);
    } else {
      EntriesAre(rules, objs[1..], done + 1, ToEntry(rules, objs[0], done + 1, seen).1, k - 1);
    }
  }

  /** Objects without an id of their own never share one. */
  lemma PositionsDiffer(rules: seq<Rule>, objs: seq<Obj>, k: nat, l: nat)
    requires k < l < |objs| && !HasId(objs[k]) && !HasId(objs[l])
    ensures Entries(rules, objs, 0, {})[k].Key() != Entries(rules, objs, 0, {})[l].Key()
  {
    EntriesAre(rules, objs, 0, {}, k);
    EntriesAre(rules, objs, 0, {}, l);
  }

  // ------------------------------------------------------------- acceptance

  /** The item of a well-formed object under the id it has got. */
  function ItemAs(obj: Obj, id: string): PromptItem
    requires WellFormed(obj)
  {
    PromptItem(id, obj.prompt.text)
  }

  /** No earlier well-formed object, accepted or not, has the id. */
  ghost predicate FirstWithId(objs: seq<Obj>, entries: seq<Entry>, k: nat)
    requires k < |entries| == |objs|
  {
    forall l :: 0 <= l < k && WellFormed(objs[l]) ==> entries[l].Key() != entries[k].Key()
  }

  lemma ToEntryAccepts(rules: seq<Rule>, obj: Obj, n: nat, seen: set<string>)
    requires OneUnique(rules)
    ensures var (entry, after) := ToEntry(rules, obj, n, seen);
            && (entry.Accepted? <==>
                WellFormed(obj) && Stateless(rules, ItemAs(obj, entry.Key()))
                && (UniqueExternalId in rules ==> entry.Key() !in seen))
            && after == if WellFormed(obj) && UniqueExternalId in rules then seen + {entry.Key()} else seen
  {
    var (item, externalId) := ToItem(obj, n);
    if item.Some? { CheckAllMeaning(rules, item.value, seen); }
  }

  lemma {:induction false} AcceptedFrom(rules: seq<Rule>, objs: seq<Obj>, done: nat, seen: set<string>, k: nat)
    requires OneUnique(rules) && k < |objs|
    ensures var entries := Entries(rules, objs, done, seen);
            entries[k].Accepted? <==>
            WellFormed(objs[k]) && Stateless(rules, ItemAs(objs[k], entries[k].Key()))
            && (UniqueExternalId in rules ==> entries[k].Key() !in seen && FirstWithId(objs, entries, k))
    decreases |objs|
  {
    ToEntryAccepts(rules, objs[0], done + 1, seen);
    if k > 0 {
      var after := ToEntry(rules, objs[0], done + 1, seen).1;
      AcceptedFrom(rules, objs[1..], done + 1, after, k - 1);
      FirstCons(objs, Entries(rules, objs, done, seen), k);
    }
  }

  lemma FirstCons(objs: seq<Obj>, entries: seq<Entry>, k: nat)
    requires 0 < k < |entries| == |objs|
    ensures FirstWithId(objs, entries, k) <==>
            (WellFormed(objs[0]) ==> entries[0].Key() != entries[k].Key())
              && FirstWithId(objs[1..], entries[1..], k - 1)
  {
    if FirstWithId(objs[1..], entries[1..], k - 1) {
      forall l | 0 < l < k && WellFormed(objs[l]) ensures entries[l].Key() != entries[k].Key() {
        assert objs[1..][l - 1] == objs[l] && entries[1..][l - 1] == entries[l];
      }
    }
    if FirstWithId(objs, entries, k) {
      forall l | 0 <= l < k - 1 && WellFormed(objs[1..][l]) ensures entries[1..][l].Key() != entries[1..][k - 1].Key() {
        assert objs[1..][l] == objs[l + 1] && entries[1..][l] == entries[l + 1];
      }
    }
  }

  /** An object of an input is accepted if and only if it is well formed, passes the stateless rules, and, with the
      duplicate rule on, no earlier well-formed object, accepted or not, had its id. */
  lemma AcceptedExactly(rules: seq<Rule>, objs: seq<Obj>, k: nat)
    requires OneUnique(rules) && k < |objs|
    ensures var entries := Entries(rules, objs, 0, {});
            entries[k].Accepted? <==>
            WellFormed(objs[k]) && Stateless(rules, ItemAs(objs[k], entries[k].Key()))
            && (UniqueExternalId in rules ==> FirstWithId(objs, entries, k))
  {
    AcceptedFrom(rules, objs, 0, {}, k);
  }
}
