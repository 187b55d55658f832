/**
 The cost engine (app/services/cost_service.py): integer micro-units per started
 block of 1000, priced per category, both for one event and for period totals.
 */
module CostService {
  import opened Dates
  import opened FloatCeiling
  import opened Models
  import opened Session
  import opened Sums
  import opened SubscriptionRepository
  import opened UsageRepository

  // Micro-units per block; 10,000 micro-units are one cent (app/constants/pricing.py).
  const CACHED_INPUT_RATE := 1000
  const INPUT_RATE := 3000
  const OUTPUT_RATE := 6000
  const API_CALL_RATE := 20000
  const CENTS_TO_MICRO := 10000

  /** Reasoning tokens join the output bucket before pricing. */
  function TokenCost(cachedInput: nat, input: nat, output: nat, reasoning: nat): nat {
    Blocks(cachedInput) * CACHED_INPUT_RATE
    + Blocks(input) * INPUT_RATE
    + Blocks(output + reasoning) * OUTPUT_RATE
  }

  function ApiCallCost(quantity: nat): nat {
    Blocks(quantity) * API_CALL_RATE
  }

  /** The price `generate` quotes for a stored event. */
  function Quote(e: UsageEvent): nat {
    TokenCost(e.cachedInput, e.input, e.output, e.reasoning)
  }

  function TotalsCost(totals: TokenTotals): nat {
    TokenCost(totals.cachedInput, totals.input, totals.output, totals.reasoning)
  }

  datatype RollupResult = RollupResult(
    subscriptionId: Uuid,
    planId: Uuid,
    usedApiCalls: nat,
    apiCallLimit: int,
    usedTokens: nat,
    tokensLimit: int,
    costMicro: nat)

  function Rollup(t: Tables, subscriptionId: Uuid, start: Option<Instant>, end: Option<Instant>): Option<RollupResult>
    requires ForeignKeys(t)
  {
    var found := GetById(t.subscriptions, subscriptionId);
    if found.None? then None
    else
      var planId := t.subscriptions[found.value].planId;
      var plan := t.plans[planId];
      var usedApiCalls := GetTotalByType(t.usage, subscriptionId, ApiCall, start, end);
      var usedTokens := GetTotalByType(t.usage, subscriptionId, Tokens, start, end);
      var totals := GetTokenTotals(t.usage, subscriptionId, start, end);
      Some(RollupResult(subscriptionId, planId, usedApiCalls, plan.apiCallLimit, usedTokens,
                        plan.tokensLimit, ApiCallCost(usedApiCalls) + TotalsCost(totals)))
  }

  // ---- what a price is ----

  /** Prices are exact at block boundaries, where each category pays its own rate
      and reasoning pays the output rate; in between, a started block costs as
      much as a full one, and output and reasoning start blocks together. */
  lemma PricedByStartedBlock(c: nat, i: nat, o: nat, r: nat)
    ensures TokenCost(1000 * c, 1000 * i, 1000 * o, 1000 * r) == 1000 * c + 3000 * i + 6000 * (o + r)
    ensures TokenCost(c, i, o, r) == TokenCost(1000 * Blocks(c), 1000 * Blocks(i), 1000 * Blocks(o + r), 0)
    ensures ApiCallCost(1000 * c) == 20000 * c && ApiCallCost(c) == ApiCallCost(1000 * Blocks(c))
  {
  }

  // ---- the float in the money path ----

  /** `quotient(n)` is a correctly rounded n / 1000 wherever that is harmless. */
  ghost predicate Rounded(quotient: nat -> real) {
    forall n: nat | n <= EXACT_UP_TO :: IsQuotient(n, quotient(n))
  }

  /** A double nearest to n / 1000. */
  ghost function Nearest(n: nat): real {
    if exists y :: IsQuotient(n, y) then
      var y :| IsQuotient(n, y);
      y
    else 0.0
  }

  /** There is such a quotient. */
  lemma RoundingExists()
    ensures Rounded((n: nat) => Nearest(n))
  {
    forall n: nat | n <= EXACT_UP_TO
      ensures IsQuotient(n, Nearest(n))
    {
      var y := NearestExists(n);
    }
  }

  function FloatTokenCost(quotient: nat -> real, cachedInput: nat, input: nat, output: nat, reasoning: nat): int {
    Ceil(quotient(cachedInput)) * CACHED_INPUT_RATE
    + Ceil(quotient(input)) * INPUT_RATE
    + Ceil(quotient(output + reasoning)) * OUTPUT_RATE
  }

  function FloatApiCallCost(quotient: nat -> real, quantity: nat): int {
    Ceil(quotient(quantity)) * API_CALL_RATE
  }

  /** math.ceil over correctly rounded quotients prices every event exactly,
      as long as no bucket exceeds 1000 * 2^44 tokens. */
  lemma FloatPricingIsExact(cachedInput: nat, input: nat, output: nat, reasoning: nat, quotient: nat -> real)
    requires Rounded(quotient)
    requires cachedInput <= EXACT_UP_TO && input <= EXACT_UP_TO && output + reasoning <= EXACT_UP_TO
    ensures FloatTokenCost(quotient, cachedInput, input, output, reasoning)
            == TokenCost(cachedInput, input, output, reasoning)
  {
    CeilingIsExact(cachedInput, quotient(cachedInput));
    CeilingIsExact(input, quotient(input));
    CeilingIsExact(output + reasoning, quotient(output + reasoning));
  }

  /** A rollup priced through floats is exact while neither type's total exceeds
      that range: conserved breakdowns keep every bucket within the tokens used. */
  lemma FloatRollupIsExact(t: Tables, subscriptionId: Uuid, start: Option<Instant>, end: Option<Instant>,
                           quotient: nat -> real)
    requires ForeignKeys(t) && Rounded(quotient) && forall e | e in t.usage :: Conserved(e)
    requires GetTotalByType(t.usage, subscriptionId, ApiCall, start, end) <= EXACT_UP_TO
    requires GetTotalByType(t.usage, subscriptionId, Tokens, start, end) <= EXACT_UP_TO
    ensures var rollup := Rollup(t, subscriptionId, start, end);
            var totals := GetTokenTotals(t.usage, subscriptionId, start, end);
            rollup.Some? ==>
              rollup.value.costMicro
              == FloatApiCallCost(quotient, rollup.value.usedApiCalls)
               + FloatTokenCost(quotient, totals.cachedInput, totals.input, totals.output, totals.reasoning)
  {
    var calls := GetTotalByType(t.usage, subscriptionId, ApiCall, start, end);
    var totals := GetTokenTotals(t.usage, subscriptionId, start, end);
    BreakdownConserved(t.usage, subscriptionId, start, end);
    CeilingIsExact(calls, quotient(calls));
    FloatPricingIsExact(totals.cachedInput, totals.input, totals.output, totals.reasoning, quotient);
  }

  // ---- quoted against rolled-up cost ----

  predicate Priced(e: UsageEvent, subscriptionId: Uuid, start: Option<Instant>, end: Option<Instant>) {
    Selects(e, subscriptionId, Some(Tokens), start, end)
  }

  function EventWeight(subscriptionId: Uuid, start: Option<Instant>, end: Option<Instant>): UsageEvent -> nat {
    (e: UsageEvent) => if Priced(e, subscriptionId, start, end) then 1 else 0
  }

  function QuoteWeight(subscriptionId: Uuid, start: Option<Instant>, end: Option<Instant>): UsageEvent -> nat {
    (e: UsageEvent) => if Priced(e, subscriptionId, start, end) then Quote(e) else 0
  }

  /** How many TOKENS events the period holds. */
  function TokenEvents(usage: seq<UsageEvent>, subscriptionId: Uuid,
                       start: Option<Instant>, end: Option<Instant>): nat {
    Sum(usage, EventWeight(subscriptionId, start, end))
  }

  function QuotedCost(usage: seq<UsageEvent>, subscriptionId: Uuid, start: Option<Instant>, end: Option<Instant>): nat {
    Sum(usage, QuoteWeight(subscriptionId, start, end))
  }

  function Blocked(amount: UsageEvent -> nat): UsageEvent -> nat {
    (e: UsageEvent) => Blocks(amount(e))
  }

  /** Pricing a total instead of its parts saves blocks, at most n - Blocks(n) of
      them for n parts. */
  lemma {:induction false} BlocksOfSum(usage: seq<UsageEvent>, amount: UsageEvent -> nat, part: UsageEvent -> nat)
    requires forall e | e in usage :: part(e) == 1 || (part(e) == 0 && amount(e) == 0)
    ensures var separate := Sum(usage, Blocked(amount));
            var n := Sum(usage, part);
            && Blocks(Sum(usage, amount)) <= separate
            && separate + Blocks(n) <= Blocks(Sum(usage, amount)) + n
  {
    SumCapped(usage, amount, Blocked(amount), 1000);
    ScaledBlocks(usage, amount, part);
  }

  lemma {:induction false} ScaledBlocks(usage: seq<UsageEvent>, amount: UsageEvent -> nat, part: UsageEvent -> nat)
    requires forall e | e in usage :: part(e) == 1 || (part(e) == 0 && amount(e) == 0)
    ensures 1000 * Sum(usage, Blocked(amount)) <= Sum(usage, amount) + 999 * Sum(usage, part)
  {
    if usage != [] {
      ScaledBlocks(usage[..|usage| - 1], amount, part);
      assert usage[|usage| - 1] in usage;
    }
  }

  predicate PricedBy(e: UsageEvent, quote: UsageEvent -> nat, part: UsageEvent -> nat,
                     c: UsageEvent -> nat, i: UsageEvent -> nat, o: UsageEvent -> nat) {
    && quote(e) == Blocks(c(e)) * CACHED_INPUT_RATE + Blocks(i(e)) * INPUT_RATE + Blocks(o(e)) * OUTPUT_RATE
    && (part(e) == 1 || (part(e) == 0 && c(e) == 0 && i(e) == 0 && o(e) == 0))
  }

  lemma {:induction false} QuotesPerCategory(
    usage: seq<UsageEvent>, quote: UsageEvent -> nat, part: UsageEvent -> nat,
    c: UsageEvent -> nat, i: UsageEvent -> nat, o: UsageEvent -> nat)
    requires forall e | e in usage :: PricedBy(e, quote, part, c, i, o)
    ensures Sum(usage, quote)
            == Sum(usage, Blocked(c)) * CACHED_INPUT_RATE
             + Sum(usage, Blocked(i)) * INPUT_RATE
             + Sum(usage, Blocked(o)) * OUTPUT_RATE
  {
    if usage != [] {
      QuotesPerCategory(usage[..|usage| - 1], quote, part, c, i, o);
      assert PricedBy(usage[|usage| - 1], quote, part, c, i, o);
    }
  }

  lemma PooledVersusSeparate(
    usage: seq<UsageEvent>, quote: UsageEvent -> nat, part: UsageEvent -> nat,
    c: UsageEvent -> nat, i: UsageEvent -> nat, o: UsageEvent -> nat)
    requires forall e | e in usage :: PricedBy(e, quote, part, c, i, o)
    ensures var pooled := Blocks(Sum(usage, c)) * CACHED_INPUT_RATE
                        + Blocks(Sum(usage, i)) * INPUT_RATE
                        + Blocks(Sum(usage, o)) * OUTPUT_RATE;
            var n := Sum(usage, part);
            pooled <= Sum(usage, quote) <= pooled + (n - Blocks(n)) * CENTS_TO_MICRO
  {
    QuotesPerCategory(usage, quote, part, c, i, o);
    BlocksOfSum(usage, c, part);
    BlocksOfSum(usage, i, part);
    BlocksOfSum(usage, o, part);
  }

  function OutputBucket(subscriptionId: Uuid, start: Option<Instant>, end: Option<Instant>): UsageEvent -> nat {
    (e: UsageEvent) => if Priced(e, subscriptionId, start, end) then e.output + e.reasoning else 0
  }

  /** The token cost of a rollup never exceeds the sum of the quotes, and falls
      short of it by at most one cent for each event beyond the first in every
      thousand. */
  lemma QuotedVersusRolledUp(usage: seq<UsageEvent>, subscriptionId: Uuid, start: Option<Instant>, end: Option<Instant>)
    ensures var rolledUp := TotalsCost(GetTokenTotals(usage, subscriptionId, start, end));
            var quoted := QuotedCost(usage, subscriptionId, start, end);
            var n := TokenEvents(usage, subscriptionId, start, end);
            rolledUp <= quoted <= rolledUp + (n - Blocks(n)) * CENTS_TO_MICRO
  {
    var c := CategoryWeight(subscriptionId, CachedInput, start, end);
    var i := CategoryWeight(subscriptionId, Input, start, end);
    var bucket := OutputBucket(subscriptionId, start, end);
    var quote, part := QuoteWeight(subscriptionId, start, end), EventWeight(subscriptionId, start, end);
    OutputBucketSplits(usage, subscriptionId, start, end);
    forall e | e in usage
      ensures PricedBy(e, quote, part, c, i, bucket)
    {
    }
    PooledVersusSeparate(usage, quote, part, c, i, bucket);
  }

  lemma OutputBucketSplits(usage: seq<UsageEvent>, subscriptionId: Uuid, start: Option<Instant>, end: Option<Instant>)
    ensures var totals := GetTokenTotals(usage, subscriptionId, start, end);
            Sum(usage, OutputBucket(subscriptionId, start, end)) == totals.output + totals.reasoning
  {
    SumSplit(usage, OutputBucket(subscriptionId, start, end), CategoryWeight(subscriptionId, Output, start, end),
             CategoryWeight(subscriptionId, Reasoning, start, end));
  }

  /** n one-token-per-category events of one subscription. */
  function SmallEvents(n: nat, subscriptionId: Uuid, at: Instant): seq<UsageEvent> {
    seq(n, (k: nat) => UsageEvent(subscriptionId, Tokens, 3, 1, 1, 1, 0, seq(k, _ => 'k'), at))
  }

  /** The shortfall is attained for every number of events. */
  lemma {:induction false} ShortfallIsAttained(n: nat, subscriptionId: Uuid, at: Instant)
    ensures var usage := SmallEvents(n, subscriptionId, at);
            && UniqueKeys(usage)
            && TokenEvents(usage, subscriptionId, None, None) == n
            && GetTokenTotals(usage, subscriptionId, None, None) == TokenTotals(n, n, n, 0)
            && QuotedCost(usage, subscriptionId, None, None)
               == TotalsCost(GetTokenTotals(usage, subscriptionId, None, None)) + (n - Blocks(n)) * CENTS_TO_MICRO
  {
    if n > 0 {
      var usage := SmallEvents(n, subscriptionId, at);
      assert usage[..n - 1] == SmallEvents(n - 1, subscriptionId, at);
      ShortfallIsAttained(n - 1, subscriptionId, at);
    }
  }

  /** A rollup exists exactly for known subscriptions. Its two counts add up to
      the period's usage, and its cost is the API cost of the calls plus the
      quotes of the TOKENS events, short of them by less than a cent an event. */
  lemma RollupVersusQuotes(t: Tables, subscriptionId: Uuid, start: Option<Instant>, end: Option<Instant>)
    requires ForeignKeys(t)
    ensures var rollup := Rollup(t, subscriptionId, start, end);
            && (rollup.Some? <==> exists s :: s in t.subscriptions && s.id == subscriptionId)
            && (rollup.Some? ==>
                  var n := TokenEvents(t.usage, subscriptionId, start, end);
                  var apart := ApiCallCost(rollup.value.usedApiCalls) + QuotedCost(t.usage, subscriptionId, start, end);
                  var totals := GetTokenTotals(t.usage, subscriptionId, start, end);
                  && rollup.value.subscriptionId == subscriptionId
                  && rollup.value.costMicro == 20000 * ((rollup.value.usedApiCalls + 999) / 1000)
                                             + 1000 * ((totals.cachedInput + 999) / 1000)
                                             + 3000 * ((totals.input + 999) / 1000)
                                             + 6000 * ((totals.output + totals.reasoning + 999) / 1000)
                  && rollup.value.usedApiCalls == GetTotalByType(t.usage, subscriptionId, ApiCall, start, end)
                  && rollup.value.usedApiCalls + rollup.value.usedTokens
                     == GetTotalUsage(t.usage, subscriptionId, start, end)
                  && rollup.value.costMicro <= apart
                  && apart <= rollup.value.costMicro + (n - Blocks(n)) * CENTS_TO_MICRO
                  && exists s :: && s in t.subscriptions && s.id == subscriptionId
                                 && rollup.value.planId == s.planId
                                 && rollup.value.apiCallLimit == t.plans[s.planId].apiCallLimit
                                 && rollup.value.tokensLimit == t.plans[s.planId].tokensLimit)
  {
    var found := GetById(t.subscriptions, subscriptionId);
    if found.Some? {
      assert t.subscriptions[found.value] in t.subscriptions;
      TypesAddUp(t.usage, subscriptionId, start, end);
      QuotedVersusRolledUp(t.usage, subscriptionId, start, end);
    }
  }
}
