/** Row validation: the rules and the pipeline that runs all of them. */
module Validation {
  import opened Domain
  import opened Text

  datatype Rule =
    | NonEmptyExternalId
    | NonEmptyPrompt(minChars: int)
    | MaxPromptTokens(maxTokens: int)
    | UniqueExternalId

  datatype Violation =
    | MissingId
    | ShortPrompt(minChars: int)
    | TooManyTokens(tokens: nat, maxTokens: int)
    | DuplicateId(externalId: string)

  /** One rule's `check`: its violations, and the ids seen after it. */
  function Check(rule: Rule, item: PromptItem, seen: set<string>): (seq<Violation>, set<string>) {
    match rule
    case NonEmptyExternalId =>
      (if item.externalId == "" || Strip(item.externalId) == "" then [MissingId] else [], seen)
    case NonEmptyPrompt(min) =>
      (if |Strip(item.prompt)| < min then [ShortPrompt(min)] else [], seen)
    case MaxPromptTokens(max) =>
      (if |item.prompt| / 4 > max then [TooManyTokens(|item.prompt| / 4, max)] else [], seen)
    case UniqueExternalId =>
      if item.externalId in seen then ([DuplicateId(item.externalId)], seen) else ([], seen + {item.externalId})
  }

  /** Every rule runs, in order, on the context the earlier ones left. */
  function CheckAll(rules: seq<Rule>, item: PromptItem, seen: set<string>): (seq<Violation>, set<string>) {
    if rules == [] then ([], seen)
    else
      var (errors, mid) := CheckAll(rules[..|rules| - 1], item, seen);
      var (more, last) := Check(rules[|rules| - 1], item, mid);
      (errors + more, last)
  }

  /** The pipeline the composition root builds. */
  function Composed(minChars: int, maxTokens: int, unique: bool): seq<Rule> {
    [NonEmptyExternalId, NonEmptyPrompt(minChars), MaxPromptTokens(maxTokens)]
    + if unique then [UniqueExternalId] else []
  }

  class ValidationContext {
    var seenIds: set<string>

    constructor ()
      ensures seenIds == {}
    {
      seenIds := {};
    }
  }

  datatype ValidationOutcome = ValidationOutcome(ok: bool, errors: seq<Violation>)

  class ValidationPipeline {
    const rules: seq<Rule>

    constructor (rules: seq<Rule>)
      ensures this.rules == rules
    {
      this.rules := rules;
    }

    method CheckOne(rule: Rule, item: PromptItem, ctx: ValidationContext) returns (errors: seq<Violation>)
      modifies ctx
      ensures (errors, ctx.seenIds) == Check(rule, item, old(ctx.seenIds))
    {
      errors := Check(rule, item, ctx.seenIds).0;
      if rule.UniqueExternalId? && errors == [] {
        ctx.seenIds := ctx.seenIds + {item.externalId};
      }
    }

    /** Runs every rule without stopping at the first violation. */
    method ValidateItem(item: PromptItem, ctx: ValidationContext) returns (outcome: ValidationOutcome)
      modifies ctx
      ensures (outcome.errors, ctx.seenIds) == CheckAll(rules, item, old(ctx.seenIds))
      ensures outcome.ok <==> outcome.errors == []
    {
      var errors: seq<Violation> := [];
      for k := 0 to |rules|
        invariant (errors, ctx.seenIds) == CheckAll(rules[..k], item, old(ctx.seenIds))
      {
        var more := CheckOne(rules[k], item, ctx);
        assert rules[..k + 1][..k] == rules[..k];
        errors := errors + more;
      }
      assert rules[..|rules|] == rules;
      outcome := ValidationOutcome(errors == [], errors);
    }
  }

  // --------------------------------------------------------------- one item

  predicate Stateless(rules: seq<Rule>, item: PromptItem) {
    forall k :: 0 <= k < |rules| && !rules[k].UniqueExternalId? ==> Check(rules[k], item, {}).0 == []
  }

  predicate OneUnique(rules: seq<Rule>) {
    forall k, l :: 0 <= k < l < |rules| ==> !(rules[k].UniqueExternalId? && rules[l].UniqueExternalId?)
  }

  /** With at most one duplicate rule, wherever it stands: an item passes iff it passes the stateless rules and, if the
      duplicate rule is there, its id was not seen; afterwards its id is seen, passed or not. */
  lemma {:induction false} CheckAllMeaning(rules: seq<Rule>, item: PromptItem, seen: set<string>)
    requires OneUnique(rules)
    ensures var (errors, after) := CheckAll(rules, item, seen);
            && (errors == [] <==> Stateless(rules, item) && (UniqueExternalId in rules ==> item.externalId !in seen))
            && after == if UniqueExternalId in rules then seen + {item.externalId} else seen
    decreases |rules|
  {
    if rules != [] {
      var front, last := rules[..|rules| - 1], rules[|rules| - 1];
      assert rules == front + [last];
      CheckAllMeaning(front, item, seen);
      assert Check(last, item, {}).0 == [] <==>
             (!last.UniqueExternalId? ==> Check(last, item, seen).0 == []) || last.UniqueExternalId?;
      if last.UniqueExternalId? { assert UniqueExternalId !in front; }
    }
  }

  /** The violations of one item under the composed rules, each on its own and in this order. */
  function Violations(minChars: int, maxTokens: int, unique: bool, item: PromptItem,
                      seen: set<string>): seq<Violation> {
    (if Blank(item.externalId) then [MissingId] else [])
    + (if |Strip(item.prompt)| < minChars then [ShortPrompt(minChars)] else [])
    + (if |item.prompt| / 4 > maxTokens then [TooManyTokens(|item.prompt| / 4, maxTokens)] else [])
    + if unique && item.externalId in seen then [DuplicateId(item.externalId)] else []
  }

  lemma CheckSnoc(rules: seq<Rule>, last: Rule, item: PromptItem, seen: set<string>)
    ensures var (errors, mid) := CheckAll(rules, item, seen);
            CheckAll(rules + [last], item, seen) == (errors + Check(last, item, mid).0, Check(last, item, mid).1)
  {
    assert (rules + [last])[..|rules|] == rules;
  }

  /** No rule stops the ones after it: all violations are collected, and no others. */
  lemma ComposedViolations(minChars: int, maxTokens: int, unique: bool, item: PromptItem, seen: set<string>)
    ensures var (errors, after) := CheckAll(Composed(minChars, maxTokens, unique), item, seen);
            && errors == Violations(minChars, maxTokens, unique, item, seen)
            && after == if unique then seen + {item.externalId} else seen
  {
    var a, b, d := NonEmptyExternalId, NonEmptyPrompt(minChars), MaxPromptTokens(maxTokens);
    StripBlank(item.externalId);
    CheckSnoc([], a, item, seen);
    CheckSnoc([a], b, item, seen);
    CheckSnoc([a, b], d, item, seen);
    assert [] + [a] == [a] && [a] + [b] == [a, b] && [a, b] + [d] == [a, b, d];
    assert Composed(minChars, maxTokens, false) == [a, b, d];
    if unique {
      CheckSnoc([a, b, d], UniqueExternalId, item, seen);
      assert Composed(minChars, maxTokens, true) == [a, b, d] + [UniqueExternalId];
      if item.externalId in seen { assert seen + {item.externalId} == seen; }
    }
  }

  /** Two duplicate rules would reject everything. */
  lemma TwoUniqueRejectAll(item: PromptItem, seen: set<string>)
    ensures CheckAll([UniqueExternalId, UniqueExternalId], item, seen).0 != []
  {
    var rules := [UniqueExternalId, UniqueExternalId];
    assert rules[..1] == [UniqueExternalId];
    assert rules[..1][..0] == [];
    assert item.externalId in CheckAll(rules[..1], item, seen).1;
  }

  // ------------------------------------------------------ a sequence of items

  function SeenAfter(rules: seq<Rule>, items: seq<PromptItem>, n: nat): set<string>
    requires n <= |items|
  {
    if n == 0 then {} else CheckAll(rules, items[n - 1], SeenAfter(rules, items, n - 1)).1
  }

  predicate AcceptedAt(rules: seq<Rule>, items: seq<PromptItem>, n: nat)
    requires n < |items|
  {
    CheckAll(rules, items[n], SeenAfter(rules, items, n)).0 == []
  }

  lemma {:induction false} SeenIsAllIds(rules: seq<Rule>, items: seq<PromptItem>, n: nat)
    requires n <= |items| && OneUnique(rules) && UniqueExternalId in rules
    ensures forall x :: x in SeenAfter(rules, items, n) <==> exists i :: 0 <= i < n && items[i].externalId == x
  {
    if n > 0 {
      SeenIsAllIds(rules, items, n - 1);
      CheckAllMeaning(rules, items[n - 1], SeenAfter(rules, items, n - 1));
    }
  }

  /** An item is accepted iff it passes the stateless rules and no earlier item, accepted or rejected, had its id. */
  lemma AcceptedIff(rules: seq<Rule>, items: seq<PromptItem>, n: nat)
    requires n < |items| && OneUnique(rules) && UniqueExternalId in rules
    ensures AcceptedAt(rules, items, n) <==>
            Stateless(rules, items[n]) && forall i :: 0 <= i < n ==> items[i].externalId != items[n].externalId
  {
    SeenIsAllIds(rules, items, n);
    CheckAllMeaning(rules, items[n], SeenAfter(rules, items, n));
  }

  /** Hence accepted ids are pairwise distinct. */
  lemma AcceptedDistinct(rules: seq<Rule>, items: seq<PromptItem>, m: nat, n: nat)
    requires m < n < |items| && OneUnique(rules) && UniqueExternalId in rules && AcceptedAt(rules, items, n)
    ensures items[m].externalId != items[n].externalId
  {
    AcceptedIff(rules, items, n);
  }
}
