/** Row outcome and back-off arithmetic: what a row's attempts end in and how long they wait. */
module Retry {
  import opened Domain

  // ------------------------------------------------------------ row outcomes

  /** Whether call number `k` (from 0) ends the attempts for a row. */
  predicate Stops(o: Outcome, k: nat, max: nat) {
    !o.Retryable? || k + 1 >= max
  }

  /** The index of the last call made, given that call `k` is made. */
  function LastCall(outcomes: seq<Outcome>, max: nat, k: nat): (last: nat)
    requires k < max <= |outcomes|
    ensures k <= last < max && Stops(outcomes[last], last, max)
    ensures forall i :: k <= i < last ==> outcomes[i].Retryable? && i + 1 < max
    decreases max - k
  {
    if Stops(outcomes[k], k, max) then k else LastCall(outcomes, max, k + 1)
  }

  /** How many calls to the endpoint a row makes. */
  function Calls(outcomes: seq<Outcome>, max: nat): nat
    requires max <= |outcomes|
  {
    if max == 0 then 0 else LastCall(outcomes, max, 0) + 1
  }

  /** The record a row ends in; with no attempt allowed it fails without a call or an error text. */
  function RowResult(externalId: string, outcomes: seq<Outcome>, max: nat, latency: nat): ResultRecord
    requires max <= |outcomes|
  {
    if max == 0 then ResultRecord(externalId, Failed, None, None, 1, Some(latency))
    else
      var k := LastCall(outcomes, max, 0);
      match outcomes[k]
      case Success(text) => ResultRecord(externalId, Succeeded, Some(text), None, k + 1, Some(latency))
      case Retryable(m) => ResultRecord(externalId, Failed, None, Some(m), k + 1, Some(latency))
      case Permanent(m) => ResultRecord(externalId, Failed, None, Some(m), k + 1, Some(latency))
      case Unexpected(m) => ResultRecord(externalId, Failed, None, Some("unexpected: " + m), k + 1, Some(latency))
  }

  /** The record tells exactly how the calls went. */
  lemma RowResultMeaning(externalId: string, outcomes: seq<Outcome>, max: nat, latency: nat)
    requires 1 <= max <= |outcomes|
    ensures var r := RowResult(externalId, outcomes, max, latency);
            var k := r.attempts;
            && r.externalId == externalId
            && 1 <= k <= max
            && k == Calls(outcomes, max)
            && (forall i :: 0 <= i < k - 1 ==> outcomes[i].Retryable?)
            && (r.status.Succeeded? <==> outcomes[k - 1].Success?)
            && (r.status.Failed? <==> !outcomes[k - 1].Success?)
            && (r.status.Succeeded? ==> r.response == Some(outcomes[k - 1].text) && r.error == None)
            && (r.status.Failed? ==> r.response == None && r.error.Some?)
            && (outcomes[k - 1].Retryable? ==> k == max && r.error == Some(outcomes[k - 1].message))
            && (outcomes[k - 1].Permanent? ==> r.error == Some(outcomes[k - 1].message))
            && (outcomes[k - 1].Unexpected? ==> r.error == Some("unexpected: " + outcomes[k - 1].message))
            && r.latencyMs == Some(latency)
  {
    var k := LastCall(outcomes, max, 0);
    assert Stops(outcomes[k], k, max);
  }

  /** The record tells how the calls went: `attempts` of them were made, all but the last to be retried, and the status
      and texts are those of the last; with no attempt allowed it fails without a text. */
  ghost predicate Tells(r: ResultRecord, outcomes: seq<Outcome>, max: nat)
    requires max <= |outcomes|
  {
    if max == 0 then r.status.Failed? && r.response == None && r.error == None && r.attempts == 1
    else
      && 1 <= r.attempts <= max
      && (forall i :: 0 <= i < r.attempts - 1 ==> outcomes[i].Retryable?)
      && (outcomes[r.attempts - 1].Retryable? ==> r.attempts == max)
      && match outcomes[r.attempts - 1]
         case Success(text) => r.status.Succeeded? && r.response == Some(text) && r.error == None
         case Retryable(m) => r.status.Failed? && r.response == None && r.error == Some(m)
         case Permanent(m) => r.status.Failed? && r.response == None && r.error == Some(m)
         case Unexpected(m) => r.status.Failed? && r.response == None && r.error == Some("unexpected: " + m)
  }

  lemma RowResultTells(externalId: string, outcomes: seq<Outcome>, max: nat, latency: nat)
    requires max <= |outcomes|
    ensures var r := RowResult(externalId, outcomes, max, latency);
            r.externalId == externalId && r.latencyMs == Some(latency) && Tells(r, outcomes, max)
  {
    if max >= 1 { RowResultMeaning(externalId, outcomes, max, latency); }
  }

  /** The calls determine status, response, error and attempts. */
  lemma TellsOne(a: ResultRecord, b: ResultRecord, outcomes: seq<Outcome>, max: nat)
    requires max <= |outcomes| && Tells(a, outcomes, max) && Tells(b, outcomes, max)
    ensures a.status == b.status && a.response == b.response && a.error == b.error && a.attempts == b.attempts
  {}

  /** `attempts` counts calls exactly when at least one attempt is configured. */
  lemma AttemptsCountCalls(externalId: string, outcomes: seq<Outcome>, max: nat, latency: nat)
    requires max <= |outcomes|
    ensures RowResult(externalId, outcomes, max, latency).attempts == Calls(outcomes, max) <==> max >= 1
  {
    if max >= 1 { RowResultMeaning(externalId, outcomes, max, latency); }
  }

  // ---------------------------------------------------------------- back-off

  datatype Policy = Policy(base: real, factor: real, cap: real, maxAttempts: nat) {
    /** `uniform(0, min(cap, base * factor ** attempt))` for a draw in [0, 1]. */
    function DelayFor(attempt: nat, draw: real): real {
      draw * Ceiling(attempt)
    }

    function Ceiling(attempt: nat): real {
      Min(cap, base * Pow(factor, attempt))
    }

    predicate Sane() {
      base >= 0.0 && factor >= 0.0 && cap >= 0.0
    }
  }

  function Min(a: real, b: real): real {
    if b < a then b else a
  }

  function Pow(x: real, n: nat): real {
    if n == 0 then 1.0 else x * Pow(x, n - 1)
  }

  predicate Draws(draws: seq<real>) {
    forall i :: 0 <= i < |draws| ==> 0.0 <= draws[i] <= 1.0
  }

  /** Total back-off after `n` retryable failures. */
  function Slept(p: Policy, draws: seq<real>, n: nat): real
    requires n <= |draws|
  {
    if n == 0 then 0.0 else Slept(p, draws, n - 1) + p.DelayFor(n - 1, draws[n - 1])
  }

  function CeilingSum(p: Policy, n: nat): real {
    if n == 0 then 0.0 else CeilingSum(p, n - 1) + p.Ceiling(n - 1)
  }

  lemma {:induction false} PowNonNegative(x: real, n: nat)
    requires x >= 0.0
    ensures Pow(x, n) >= 0.0
  {
    if n > 0 { PowNonNegative(x, n - 1); }
  }

  lemma ProductNonNegative(a: real, b: real, ab: real)
    requires a >= 0.0 && b >= 0.0 && ab == a * b
    ensures ab >= 0.0
  {}

  lemma Scaled(u: real, c: real, uc: real)
    requires 0.0 <= u <= 1.0 && c >= 0.0 && uc == u * c
    ensures 0.0 <= uc <= c
  {
    ProductNonNegative(u, c, uc);
    ProductNonNegative(1.0 - u, c, c - uc);
  }

  /** A delay lies between zero and its ceiling; the ceiling respects the cap and the exponential. */
  lemma DelayBounds(p: Policy, attempt: nat, draw: real)
    requires p.Sane() && 0.0 <= draw <= 1.0
    ensures 0.0 <= p.DelayFor(attempt, draw) <= p.Ceiling(attempt) <= p.cap
  {
    CeilingBounds(p, attempt);
    Scaled(draw, p.Ceiling(attempt), p.DelayFor(attempt, draw));
  }

  lemma CeilingBounds(p: Policy, attempt: nat)
    requires p.Sane()
    ensures 0.0 <= p.Ceiling(attempt) <= p.cap
    ensures p.Ceiling(attempt) <= p.base * Pow(p.factor, attempt)
  {
    PowNonNegative(p.factor, attempt);
    ProductNonNegative(p.base, Pow(p.factor, attempt), p.base * Pow(p.factor, attempt));
  }

  /** The delay is the drawn share of the smaller of the cap and the exponential. */
  lemma DelayExact(p: Policy, attempt: nat, draw: real)
    ensures var most, exponential := p.DelayFor(attempt, 1.0), p.base * Pow(p.factor, attempt);
            && most <= p.cap && most <= exponential && (most == p.cap || most == exponential)
            && p.DelayFor(attempt, draw) == draw * most
  {}

  lemma {:induction false} PowSum(x: real, m: nat, n: nat)
    ensures Pow(x, 1) == x && Pow(x, m + n) == Pow(x, m) * Pow(x, n)
  {
    assert Pow(x, 1) == x * Pow(x, 0);
    if m > 0 {
      PowSum(x, m - 1, n);
      Regroup(x, Pow(x, m - 1), Pow(x, n));
    }
  }

  lemma Regroup(a: real, b: real, c: real)
    ensures a * (b * c) == a * b * c
  {}

  /** Draws of one attain the sum of the ceilings. */
  lemma {:induction false} SleptAttained(p: Policy, draws: seq<real>, n: nat)
    requires n <= |draws| && forall i :: 0 <= i < n ==> draws[i] == 1.0
    ensures Slept(p, draws, n) == CeilingSum(p, n)
  {
    if n > 0 { SleptAttained(p, draws, n - 1); }
  }

  lemma OneMoreDelay(slept: real, sum: real, most: real, delay: real, ceiling: real, cap: real)
    requires 0.0 <= slept <= sum <= most && 0.0 <= delay <= ceiling <= cap
    ensures 0.0 <= slept + delay <= sum + ceiling <= most + cap
  {}

  /** Total sleep is bounded by the sum of the ceilings, hence linearly by the cap. */
  lemma {:induction false} SleptBounds(p: Policy, draws: seq<real>, n: nat)
    requires p.Sane() && Draws(draws) && n <= |draws|
    ensures 0.0 <= Slept(p, draws, n) <= CeilingSum(p, n) <= n as real * p.cap
  {
    if n > 0 {
      SleptBounds(p, draws, n - 1);
      DelayBounds(p, n - 1, draws[n - 1]);
      OneMore(n, p.cap);
      OneMoreDelay(Slept(p, draws, n - 1), CeilingSum(p, n - 1), (n - 1) as real * p.cap,
                   p.DelayFor(n - 1, draws[n - 1]), p.Ceiling(n - 1), p.cap);
    }
  }

  lemma OneMore(n: nat, x: real)
    requires n > 0
    ensures n as real * x == (n - 1) as real * x + x
  {}

  /** base * (1 + factor + ... + factor^(n-1)) */
  function GeometricSum(base: real, factor: real, n: nat): real {
    if n == 0 then 0.0 else GeometricSum(base, factor, n - 1) + base * Pow(factor, n - 1)
  }

  /** Without the cap, the ceilings sum to a geometric series, which bounds the total sleep too. */
  lemma {:induction false} SleptGeometric(p: Policy, draws: seq<real>, n: nat)
    requires p.Sane() && Draws(draws) && n <= |draws|
    ensures Slept(p, draws, n) <= GeometricSum(p.base, p.factor, n)
  {
    if n > 0 {
      SleptGeometric(p, draws, n - 1);
      DelayBounds(p, n - 1, draws[n - 1]);
      CeilingBounds(p, n - 1);
    }
  }

  /** The closed form of that series. */
  lemma {:induction false} GeometricClosedForm(base: real, factor: real, n: nat)
    requires factor > 1.0
    ensures GeometricSum(base, factor, n) == base * (Pow(factor, n) - 1.0) / (factor - 1.0)
  {
    GeometricProduct(base, factor, n);
    DivideExact(GeometricSum(base, factor, n), factor - 1.0, base * (Pow(factor, n) - 1.0));
  }

  lemma DivideExact(x: real, d: real, y: real)
    requires d > 0.0 && d * x == y
    ensures x == y / d
  {}

  lemma {:induction false} GeometricProduct(base: real, factor: real, n: nat)
    ensures (factor - 1.0) * GeometricSum(base, factor, n) == base * (Pow(factor, n) - 1.0)
  {
    if n > 0 {
      GeometricProduct(base, factor, n - 1);
      GeometricStep(factor, base, Pow(factor, n - 1), Pow(factor, n),
                    GeometricSum(base, factor, n - 1), GeometricSum(base, factor, n));
    }
  }

  lemma GeometricStep(factor: real, base: real, pow: real, pow': real, sum: real, sum': real)
    requires pow' == factor * pow && sum' == sum + base * pow
    requires (factor - 1.0) * sum == base * (pow - 1.0)
    ensures (factor - 1.0) * sum' == base * (pow' - 1.0)
  {
    var q := base * pow;
    assert (factor - 1.0) * sum' == (factor - 1.0) * sum + (factor - 1.0) * q;
    assert factor * q == base * pow';
  }
}
