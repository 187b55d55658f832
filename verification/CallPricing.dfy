/**
 Events that `generate` records as API_CALL: the caller is quoted by token
 categories, while the rollup charges by calls. How far the two prices can be
 apart, in both directions and exactly.
 */
module CallPricing {
  import opened CostService
  import opened Dates
  import opened FloatCeiling
  import opened Models
  import opened Session
  import opened Sums
  import opened UsageRepository

  predicate Called(e: UsageEvent, subscriptionId: Uuid, start: Option<Instant>, end: Option<Instant>) {
    Selects(e, subscriptionId, Some(ApiCall), start, end)
  }

  /** An API_CALL event with a token breakdown can only come from `generate`. */
  function GeneratedCalls(subscriptionId: Uuid, start: Option<Instant>, end: Option<Instant>): UsageEvent -> nat {
    (e: UsageEvent) => if Called(e, subscriptionId, start, end) && e.Breakdown() != 0 then e.quantity else 0
  }

  function PlainCalls(subscriptionId: Uuid, start: Option<Instant>, end: Option<Instant>): UsageEvent -> nat {
    (e: UsageEvent) => if Called(e, subscriptionId, start, end) && e.Breakdown() == 0 then e.quantity else 0
  }

  function GeneratedEvent(subscriptionId: Uuid, start: Option<Instant>, end: Option<Instant>): UsageEvent -> nat {
    (e: UsageEvent) => if Called(e, subscriptionId, start, end) && e.Breakdown() != 0 then 1 else 0
  }

  function CallQuote(subscriptionId: Uuid, start: Option<Instant>, end: Option<Instant>): UsageEvent -> nat {
    (e: UsageEvent) => if Called(e, subscriptionId, start, end) then Quote(e) else 0
  }

  // ---- one event ----

  /** How much of its last block a quantity uses. */
  function InLastBlock(q: nat): nat {
    if q == 0 then 0 else (q - 1) % 1000 + 1
  }

  /** x starts b blocks. */
  predicate Starts(x: nat, b: nat) {
    if x == 0 then b == 0 else 1000 * b - 1000 < x <= 1000 * b
  }

  lemma BlocksStart(x: nat)
    ensures Starts(x, Blocks(x))
  {
  }

  /** Starting another category costs a call in the last block of the whole. */
  lemma CostOfBlocks(c: nat, i: nat, o: nat, bc: nat, bi: nat, bo: nat, b: nat, r: nat)
    requires Starts(c, bc) && Starts(i, bi) && Starts(o, bo)
    requires 1 <= r <= 1000 && c + i + o == 1000 * b - 1000 + r
    ensures 1000 * b <= 1000 * bc + 3000 * bi + 6000 * bo
    ensures 1000 * bc + 3000 * bi + 6000 * bo <= 6000 * b + 1000 * (1 + Min(r, 3))
  {
    assert b <= bc + bi + bo;
    if bc == 0 || bi == 0 || bo == 0 {
      assert bc + bi + bo <= b + 1;
    }
  }

  /** A quote is highest when all blocks are output, except that one cached and one
      fresh token open a block of their own: for that the last block needs room. */
  lemma QuotePerBlock(c: nat, i: nat, o: nat)
    requires 0 < c + i + o
    ensures var q := c + i + o;
            && Blocks(q) * CACHED_INPUT_RATE <= TokenCost(c, i, o, 0)
            && TokenCost(c, i, o, 0) <= Blocks(q) * OUTPUT_RATE + 1000 * (1 + Min(InLastBlock(q), 3))
  {
    var q := c + i + o;
    BlocksStart(c);
    BlocksStart(i);
    BlocksStart(o);
    assert q == 1000 * Blocks(q) - 1000 + InLastBlock(q);
    CostOfBlocks(c, i, o, Blocks(c), Blocks(i), Blocks(o), Blocks(q), InLastBlock(q));
  }

  function Min(a: nat, b: nat): nat {
    if a < b then a else b
  }

  function Used(calls: UsageEvent -> nat): UsageEvent -> nat {
    (e: UsageEvent) => InLastBlock(calls(e))
  }

  function Room(calls: UsageEvent -> nat): UsageEvent -> nat {
    (e: UsageEvent) => Min(InLastBlock(calls(e)), 3)
  }

  // ---- all events ----

  predicate QuoteFits(e: UsageEvent, quote: UsageEvent -> nat, calls: UsageEvent -> nat, part: UsageEvent -> nat) {
    && part(e) == (if calls(e) == 0 then 0 else 1)
    && Blocks(calls(e)) * CACHED_INPUT_RATE <= quote(e)
    && quote(e) <= Blocks(calls(e)) * OUTPUT_RATE + 1000 * (part(e) + Room(calls)(e))
  }

  lemma {:induction false} QuotesFit(usage: seq<UsageEvent>, quote: UsageEvent -> nat,
                                     calls: UsageEvent -> nat, part: UsageEvent -> nat)
    requires forall e | e in usage :: QuoteFits(e, quote, calls, part)
    ensures var blocks, n := Sum(usage, Blocked(calls)), Sum(usage, part);
            && blocks * CACHED_INPUT_RATE <= Sum(usage, quote)
            && Sum(usage, quote) <= blocks * OUTPUT_RATE + 1000 * (n + Sum(usage, Room(calls)))
            && 1000 * blocks + Sum(usage, Used(calls)) == Sum(usage, calls) + 1000 * n
            && n <= Sum(usage, Room(calls)) <= 3 * n
            && Sum(usage, Room(calls)) <= Sum(usage, Used(calls))
  {
    if usage != [] {
      var e := usage[|usage| - 1];
      QuotesFit(usage[..|usage| - 1], quote, calls, part);
      assert QuoteFits(e, quote, calls, part);
      assert 1000 * Blocks(calls(e)) + InLastBlock(calls(e)) == calls(e) + 1000 * part(e);
    }
  }

  /** By how much n quotes can exceed 6000 micro-units a block of their calls: one
      cent an event less the blocks of their 3 * n calls, unless dropping up to
      five of those calls saves a block. */
  function Excess(n: nat): int {
    var blocks := Blocks(3 * n);
    var spill := 3 * n - 1000 * (blocks - 1);
    10000 * n - 6000 * blocks + if 2 <= blocks && spill < 6 then 6000 - 1000 * spill else 0
  }

  lemma BestRoom(n: nat, room: nat)
    requires n <= room <= 3 * n
    ensures 7000 * n + 1000 * room - 6000 * Blocks(room) <= Excess(n)
  {
    if Blocks(room) < Blocks(3 * n) {
      assert room <= 1000 * Blocks(room);
    }
  }

  /** The price of calls against the quotes of the n generated events among them. */
  predicate Comparable(called: nat, plain: nat, quoted: nat, n: nat) {
    called <= plain + 20 * quoted && 10 * quoted <= 3 * called + 10 * Excess(n)
  }

  /** From blocks per event to blocks of the total. */
  lemma PooledCalls(plain: nat, calls: nat, quoted: nat, n: nat, blocks: nat, used: nat, room: nat)
    requires blocks * CACHED_INPUT_RATE <= quoted <= blocks * OUTPUT_RATE + 1000 * (n + room)
    requires 1000 * blocks + used == calls + 1000 * n
    requires n <= room <= 3 * n && room <= used && Blocks(calls) <= blocks
    ensures Comparable(ApiCallCost(calls + plain), ApiCallCost(plain), quoted, n)
  {
    assert Blocks(calls) <= Blocks(calls + plain) <= Blocks(calls) + Blocks(plain);
    assert blocks + Blocks(used) == Blocks(calls) + n;
    BestRoom(n, room);
  }

  lemma CallQuoteFits(e: UsageEvent, subscriptionId: Uuid, start: Option<Instant>, end: Option<Instant>)
    requires Conserved(e)
    ensures QuoteFits(e, CallQuote(subscriptionId, start, end), GeneratedCalls(subscriptionId, start, end),
                      GeneratedEvent(subscriptionId, start, end))
  {
    if 0 < e.Breakdown() {
      QuotePerBlock(e.cachedInput, e.input, e.output + e.reasoning);
    }
  }

  lemma GeneratedSums(usage: seq<UsageEvent>, subscriptionId: Uuid, start: Option<Instant>, end: Option<Instant>)
    requires forall e | e in usage :: Conserved(e)
    ensures var calls := GeneratedCalls(subscriptionId, start, end);
            var n := Sum(usage, GeneratedEvent(subscriptionId, start, end));
            var quoted := Sum(usage, CallQuote(subscriptionId, start, end));
            var blocks, room := Sum(usage, Blocked(calls)), Sum(usage, Room(calls));
            && blocks * CACHED_INPUT_RATE <= quoted <= blocks * OUTPUT_RATE + 1000 * (n + room)
            && 1000 * blocks + Sum(usage, Used(calls)) == Sum(usage, calls) + 1000 * n
            && n <= room <= 3 * n && room <= Sum(usage, Used(calls)) && Blocks(Sum(usage, calls)) <= blocks
  {
    var calls, part := GeneratedCalls(subscriptionId, start, end), GeneratedEvent(subscriptionId, start, end);
    forall e | e in usage
      ensures QuoteFits(e, CallQuote(subscriptionId, start, end), calls, part)
    {
      CallQuoteFits(e, subscriptionId, start, end);
    }
    QuotesFit(usage, CallQuote(subscriptionId, start, end), calls, part);
    BlocksOfSum(usage, calls, part);
  }

  lemma CallsSplit(usage: seq<UsageEvent>, subscriptionId: Uuid, start: Option<Instant>, end: Option<Instant>)
    ensures GetTotalByType(usage, subscriptionId, ApiCall, start, end)
            == Sum(usage, GeneratedCalls(subscriptionId, start, end))
             + Sum(usage, PlainCalls(subscriptionId, start, end))
  {
    SumSplit(usage, Quantity(subscriptionId, Some(ApiCall), start, end),
             GeneratedCalls(subscriptionId, start, end), PlainCalls(subscriptionId, start, end));
  }

  /** The call price is at most the plain calls' own price and 20 times the quotes of
      the generated ones; the quotes are at most 3/10 of the call price and the
      excess of n events. */
  lemma GeneratedVersusCalled(usage: seq<UsageEvent>, subscriptionId: Uuid,
                              start: Option<Instant>, end: Option<Instant>)
    requires forall e | e in usage :: Conserved(e)
    ensures var called := ApiCallCost(GetTotalByType(usage, subscriptionId, ApiCall, start, end));
            var plain := ApiCallCost(Sum(usage, PlainCalls(subscriptionId, start, end)));
            var quoted := Sum(usage, CallQuote(subscriptionId, start, end));
            var n := Sum(usage, GeneratedEvent(subscriptionId, start, end));
            Comparable(called, plain, quoted, n)
  {
    CallsSplit(usage, subscriptionId, start, end);
    GeneratedBeside(usage, subscriptionId, start, end, Sum(usage, PlainCalls(subscriptionId, start, end)));
  }

  /** The same, beside any number of plain calls. */
  lemma GeneratedBeside(usage: seq<UsageEvent>, subscriptionId: Uuid, start: Option<Instant>, end: Option<Instant>,
                        plain: nat)
    requires forall e | e in usage :: Conserved(e)
    ensures var called := ApiCallCost(Sum(usage, GeneratedCalls(subscriptionId, start, end)) + plain);
            var quoted := Sum(usage, CallQuote(subscriptionId, start, end));
            var n := Sum(usage, GeneratedEvent(subscriptionId, start, end));
            Comparable(called, ApiCallCost(plain), quoted, n)
  {
    var calls := GeneratedCalls(subscriptionId, start, end);
    var made, quoted := Sum(usage, calls), Sum(usage, CallQuote(subscriptionId, start, end));
    var n := Sum(usage, GeneratedEvent(subscriptionId, start, end));
    var blocks, used, room := Sum(usage, Blocked(calls)), Sum(usage, Used(calls)), Sum(usage, Room(calls));
    GeneratedSums(usage, subscriptionId, start, end);
    PooledCalls(plain, made, quoted, n, blocks, used, room);
  }

  /** All quotes of a period, of whichever type `generate` recorded, against the
      period's rollup. */
  lemma AllQuotesVersusRollup(t: Tables, subscriptionId: Uuid, start: Option<Instant>, end: Option<Instant>)
    requires ForeignKeys(t) && Rollup(t, subscriptionId, start, end).Some?
    requires forall e | e in t.usage :: Conserved(e)
    ensures var cost := Rollup(t, subscriptionId, start, end).value.costMicro;
            var called := ApiCallCost(GetTotalByType(t.usage, subscriptionId, ApiCall, start, end));
            var plain := ApiCallCost(Sum(t.usage, PlainCalls(subscriptionId, start, end)));
            var tokens := QuotedCost(t.usage, subscriptionId, start, end);
            var calls := Sum(t.usage, CallQuote(subscriptionId, start, end));
            var n := TokenEvents(t.usage, subscriptionId, start, end);
            var m := Sum(t.usage, GeneratedEvent(subscriptionId, start, end));
            && cost <= plain + tokens + 20 * calls
            && 10 * (tokens + calls) + 7 * called
               <= 10 * cost + 10 * (n - Blocks(n)) * CENTS_TO_MICRO + 10 * Excess(m)
  {
    QuotedVersusRolledUp(t.usage, subscriptionId, start, end);
    GeneratedVersusCalled(t.usage, subscriptionId, start, end);
  }

  // ---- the bounds are reached ----

  /** n generated calls: each of one token of fresh input and one of output, and all
      but the first `short` with a cached token as well. */
  function MixedCalls(n: nat, short: nat, subscriptionId: Uuid, at: Instant): seq<UsageEvent> {
    seq(n, (k: nat) =>
      var cached := if k < short then 0 else 1;
      UsageEvent(subscriptionId, ApiCall, cached + 2, cached, 1, 1, 0, seq(k + 1, _ => 'c'), at))
  }

  /** n generated calls of 1000 cached tokens each. */
  function CachedCalls(n: nat, subscriptionId: Uuid, at: Instant): seq<UsageEvent> {
    seq(n, (k: nat) => UsageEvent(subscriptionId, ApiCall, 1000, 1000, 0, 0, 0, seq(k + 1, _ => 'c'), at))
  }

  lemma {:induction false} MixedTotals(n: nat, short: nat, subscriptionId: Uuid, at: Instant)
    ensures var usage := MixedCalls(n, short, subscriptionId, at);
            && Sum(usage, Quantity(subscriptionId, Some(ApiCall), None, None)) == 3 * n - Min(short, n)
            && Sum(usage, CallQuote(subscriptionId, None, None)) == 10000 * n - 1000 * Min(short, n)
            && Sum(usage, GeneratedEvent(subscriptionId, None, None)) == n
  {
    if n > 0 {
      var usage := MixedCalls(n, short, subscriptionId, at);
      assert usage[..n - 1] == MixedCalls(n - 1, short, subscriptionId, at);
      MixedTotals(n - 1, short, subscriptionId, at);
    }
  }

  /** How many calls to drop so that n quotes exceed their blocks the most. */
  function Spill(n: nat): nat {
    var blocks := Blocks(3 * n);
    var spill := 3 * n - 1000 * (blocks - 1);
    if 2 <= blocks && spill < 6 then spill else 0
  }

  lemma SpillIsBest(n: nat)
    ensures Spill(n) <= n
    ensures 10000 * n - 1000 * Spill(n) == 6000 * Blocks(3 * n - Spill(n)) + Excess(n)
  {
  }

  lemma MixedRows(n: nat, short: nat, subscriptionId: Uuid, at: Instant)
    ensures var usage := MixedCalls(n, short, subscriptionId, at);
            UniqueKeys(usage) && forall e | e in usage :: Conserved(e)
  {
    var usage := MixedCalls(n, short, subscriptionId, at);
    assert forall k | 0 <= k < n :: |usage[k].idempotencyKey| == k + 1;
  }

  /** The quotes reach their bound for every number of events. */
  lemma ExcessIsAttained(n: nat, subscriptionId: Uuid, at: Instant)
    ensures var usage := MixedCalls(n, Spill(n), subscriptionId, at);
            && UniqueKeys(usage) && (forall e | e in usage :: Conserved(e))
            && Sum(usage, GeneratedEvent(subscriptionId, None, None)) == n
            && 10 * Sum(usage, CallQuote(subscriptionId, None, None))
               == 3 * ApiCallCost(GetTotalByType(usage, subscriptionId, ApiCall, None, None)) + 10 * Excess(n)
  {
    MixedRows(n, Spill(n), subscriptionId, at);
    MixedTotals(n, Spill(n), subscriptionId, at);
    SpillIsBest(n);
  }

  lemma {:induction false} CachedTotals(n: nat, subscriptionId: Uuid, at: Instant)
    ensures var usage := CachedCalls(n, subscriptionId, at);
            && Sum(usage, GeneratedEvent(subscriptionId, None, None)) == n
            && Sum(usage, PlainCalls(subscriptionId, None, None)) == 0
            && Sum(usage, Quantity(subscriptionId, Some(ApiCall), None, None)) == 1000 * n
            && Sum(usage, CallQuote(subscriptionId, None, None)) == 1000 * n
  {
    if n > 0 {
      var usage := CachedCalls(n, subscriptionId, at);
      assert usage[..n - 1] == CachedCalls(n - 1, subscriptionId, at);
      CachedTotals(n - 1, subscriptionId, at);
    }
  }

  /** So does the call price. */
  lemma CallPriceIsAttained(n: nat, subscriptionId: Uuid, at: Instant)
    ensures var usage := CachedCalls(n, subscriptionId, at);
            && UniqueKeys(usage) && (forall e | e in usage :: Conserved(e))
            && Sum(usage, GeneratedEvent(subscriptionId, None, None)) == n
            && Sum(usage, PlainCalls(subscriptionId, None, None)) == 0
            && ApiCallCost(GetTotalByType(usage, subscriptionId, ApiCall, None, None))
               == 20 * Sum(usage, CallQuote(subscriptionId, None, None)) == 20000 * n
  {
    var usage := CachedCalls(n, subscriptionId, at);
    assert forall k | 0 <= k < n :: |usage[k].idempotencyKey| == k + 1;
    CachedTotals(n, subscriptionId, at);
    assert Blocks(1000 * n) == n;
  }

  /** Token events in front of calls, as the token queries see them. */
  lemma TokensThenCalls(n: nat, calls: seq<UsageEvent>, subscriptionId: Uuid, at: Instant)
    requires forall e | e in calls :: e.usageType == ApiCall
    ensures var usage := SmallEvents(n, subscriptionId, at) + calls;
            && TokenEvents(usage, subscriptionId, None, None) == n
            && QuotedCost(usage, subscriptionId, None, None)
               == TotalsCost(GetTokenTotals(usage, subscriptionId, None, None)) + (n - Blocks(n)) * CENTS_TO_MICRO
  {
    var small := SmallEvents(n, subscriptionId, at);
    ShortfallIsAttained(n, subscriptionId, at);
    forall c: Category
      ensures Sum(small + calls, CategoryWeight(subscriptionId, c, None, None))
              == Sum(small, CategoryWeight(subscriptionId, c, None, None))
    {
      Unseen(small, calls, CategoryWeight(subscriptionId, c, None, None));
    }
    Unseen(small, calls, EventWeight(subscriptionId, None, None));
    Unseen(small, calls, QuoteWeight(subscriptionId, None, None));
  }

  lemma Unseen(usage: seq<UsageEvent>, more: seq<UsageEvent>, weight: UsageEvent -> nat)
    requires forall e | e in more :: weight(e) == 0
    ensures Sum(usage + more, weight) == Sum(usage, weight)
    ensures Sum(more + usage, weight) == Sum(usage, weight)
  {
    SumCapped(more, weight, weight, 0);
    SumConcat(usage, more, weight);
    SumConcat(more, usage, weight);
  }

  /** And the calls, as the call queries see them. */
  lemma CallsAfterTokens(n: nat, m: nat, subscriptionId: Uuid, at: Instant)
    ensures var usage := SmallEvents(n, subscriptionId, at) + MixedCalls(m, Spill(m), subscriptionId, at);
            && Sum(usage, GeneratedEvent(subscriptionId, None, None)) == m
            && 10 * Sum(usage, CallQuote(subscriptionId, None, None))
               == 3 * ApiCallCost(GetTotalByType(usage, subscriptionId, ApiCall, None, None)) + 10 * Excess(m)
  {
    var small, calls := SmallEvents(n, subscriptionId, at), MixedCalls(m, Spill(m), subscriptionId, at);
    ExcessIsAttained(m, subscriptionId, at);
    Unseen(calls, small, CallQuote(subscriptionId, None, None));
    Unseen(calls, small, GeneratedEvent(subscriptionId, None, None));
    Unseen(calls, small, Quantity(subscriptionId, Some(ApiCall), None, None));
  }

  /** n token events and m calls whose quotes are as high as they can be. */
  function DearUsage(n: nat, m: nat, subscriptionId: Uuid, at: Instant): seq<UsageEvent> {
    SmallEvents(n, subscriptionId, at) + MixedCalls(m, Spill(m), subscriptionId, at)
  }

  /** What a rollup of the whole usage costs. */
  function WholeCost(usage: seq<UsageEvent>, subscriptionId: Uuid): nat {
    ApiCallCost(GetTotalByType(usage, subscriptionId, ApiCall, None, None))
    + TotalsCost(GetTokenTotals(usage, subscriptionId, None, None))
  }

  /** n token events and m generated calls with distinct keys, whose quotes reach their
      bound against this cost of the whole usage. */
  predicate Dear(usage: seq<UsageEvent>, subscriptionId: Uuid, cost: nat, n: nat, m: nat) {
    var called := ApiCallCost(GetTotalByType(usage, subscriptionId, ApiCall, None, None));
    var tokens := QuotedCost(usage, subscriptionId, None, None);
    var calls := Sum(usage, CallQuote(subscriptionId, None, None));
    && UniqueKeys(usage)
    && TokenEvents(usage, subscriptionId, None, None) == n
    && Sum(usage, GeneratedEvent(subscriptionId, None, None)) == m
    && 10 * (tokens + calls) + 7 * called == 10 * cost + 10 * (n - Blocks(n)) * CENTS_TO_MICRO + 10 * Excess(m)
  }

  lemma DearQuotes(n: nat, m: nat, subscriptionId: Uuid, at: Instant)
    ensures var usage := DearUsage(n, m, subscriptionId, at);
            var called := ApiCallCost(GetTotalByType(usage, subscriptionId, ApiCall, None, None));
            10 * (QuotedCost(usage, subscriptionId, None, None) + Sum(usage, CallQuote(subscriptionId, None, None)))
            + 7 * called
            == 10 * WholeCost(usage, subscriptionId) + 10 * (n - Blocks(n)) * CENTS_TO_MICRO + 10 * Excess(m)
  {
    TokensThenCalls(n, MixedCalls(m, Spill(m), subscriptionId, at), subscriptionId, at);
    CallsAfterTokens(n, m, subscriptionId, at);
  }

  lemma TokenCount(n: nat, calls: seq<UsageEvent>, subscriptionId: Uuid, at: Instant)
    requires forall e | e in calls :: e.usageType == ApiCall
    ensures TokenEvents(SmallEvents(n, subscriptionId, at) + calls, subscriptionId, None, None) == n
  {
    ShortfallIsAttained(n, subscriptionId, at);
    Unseen(SmallEvents(n, subscriptionId, at), calls, EventWeight(subscriptionId, None, None));
  }

  lemma CallCount(small: seq<UsageEvent>, m: nat, short: nat, subscriptionId: Uuid, at: Instant)
    requires forall e | e in small :: e.usageType == Tokens
    ensures Sum(small + MixedCalls(m, short, subscriptionId, at), GeneratedEvent(subscriptionId, None, None)) == m
  {
    MixedTotals(m, short, subscriptionId, at);
    Unseen(MixedCalls(m, short, subscriptionId, at), small, GeneratedEvent(subscriptionId, None, None));
  }

  lemma DearCounts(n: nat, m: nat, subscriptionId: Uuid, at: Instant)
    ensures var usage := DearUsage(n, m, subscriptionId, at);
            && UniqueKeys(usage)
            && TokenEvents(usage, subscriptionId, None, None) == n
            && Sum(usage, GeneratedEvent(subscriptionId, None, None)) == m
  {
    TokenCount(n, MixedCalls(m, Spill(m), subscriptionId, at), subscriptionId, at);
    CallCount(SmallEvents(n, subscriptionId, at), m, Spill(m), subscriptionId, at);
    KeysDiffer(n, m, Spill(m), subscriptionId, at);
  }

  lemma DearUsageIsDear(n: nat, m: nat, subscriptionId: Uuid, at: Instant)
    ensures var usage := DearUsage(n, m, subscriptionId, at);
            Dear(usage, subscriptionId, WholeCost(usage, subscriptionId), n, m)
  {
    DearCounts(n, m, subscriptionId, at);
    DearQuotes(n, m, subscriptionId, at);
  }

  lemma RollupIsWhole(t: Tables, subscriptionId: Uuid)
    requires ForeignKeys(t) && Rollup(t, subscriptionId, None, None).Some?
    ensures Rollup(t, subscriptionId, None, None).value.costMicro == WholeCost(t.usage, subscriptionId)
  {
  }

  /** The quotes of both types together reach their bound against the rollup, for
      every number of events of either type. */
  lemma AllQuotesAttained(t: Tables, subscriptionId: Uuid, n: nat, m: nat, at: Instant)
    requires ForeignKeys(t) && Rollup(t, subscriptionId, None, None).Some?
    requires t.usage == DearUsage(n, m, subscriptionId, at)
    ensures Dear(t.usage, subscriptionId, Rollup(t, subscriptionId, None, None).value.costMicro, n, m)
  {
    DearUsageIsDear(n, m, subscriptionId, at);
    RollupIsWhole(t, subscriptionId);
  }

  lemma KeysDiffer(n: nat, m: nat, short: nat, subscriptionId: Uuid, at: Instant)
    ensures UniqueKeys(SmallEvents(n, subscriptionId, at) + MixedCalls(m, short, subscriptionId, at))
  {
    var small, calls := SmallEvents(n, subscriptionId, at), MixedCalls(m, short, subscriptionId, at);
    var usage := small + calls;
    forall i, j | 0 <= i < j < |usage|
      ensures usage[i].idempotencyKey != usage[j].idempotencyKey
    {
      if j < n {
        assert |usage[i].idempotencyKey| < |usage[j].idempotencyKey|;
      } else if i < n {
        assert usage[j].idempotencyKey[0] == 'c';
        assert i > 0 ==> usage[i].idempotencyKey[0] == 'k';
      } else {
        assert |usage[i].idempotencyKey| < |usage[j].idempotencyKey|;
      }
    }
  }
}
