/**
 Queries over the usage table (app/repositories/usage_repository.py) and the
 laws that connect them: monthly windows, usage types and token categories all
 partition the same quantities.
 */
module UsageRepository {
  import opened Dates
  import opened Models
  import opened Sums

  /** The row with a given key. Keys are unique, so the search order is immaterial. */
  function GetByIdempotencyKey(usage: seq<UsageEvent>, key: string): (found: Option<UsageEvent>)
    ensures found.Some? ==> found.value in usage && found.value.idempotencyKey == key
    ensures found.None? ==> forall e | e in usage :: e.idempotencyKey != key
  {
    if usage == [] then None
    else if usage[|usage| - 1].idempotencyKey == key then Some(usage[|usage| - 1])
    else GetByIdempotencyKey(usage[..|usage| - 1], key)
  }

  predicate Selects(e: UsageEvent, subscriptionId: Uuid, usageType: Option<UsageType>,
                    start: Option<Instant>, end: Option<Instant>) {
    && e.subscriptionId == subscriptionId
    && (usageType.Some? ==> e.usageType == usageType.value)
    && (start.Some? ==> start.value.AtMost(e.createdAt))
    && (end.Some? ==> e.createdAt.Before(end.value))
  }

  /** What a selected row contributes to SUM(quantity). */
  function Quantity(subscriptionId: Uuid, usageType: Option<UsageType>,
                    start: Option<Instant>, end: Option<Instant>): UsageEvent -> nat {
    (e: UsageEvent) => if Selects(e, subscriptionId, usageType, start, end) then e.quantity else 0
  }

  function GetTotalUsage(usage: seq<UsageEvent>, subscriptionId: Uuid,
                         start: Option<Instant>, end: Option<Instant>): nat {
    Sum(usage, Quantity(subscriptionId, None, start, end))
  }

  function GetTotalByType(usage: seq<UsageEvent>, subscriptionId: Uuid, usageType: UsageType,
                          start: Option<Instant>, end: Option<Instant>): nat {
    Sum(usage, Quantity(subscriptionId, Some(usageType), start, end))
  }

  datatype Category = CachedInput | Input | Output | Reasoning

  function Count(e: UsageEvent, c: Category): nat {
    match c
    case CachedInput => e.cachedInput
    case Input => e.input
    case Output => e.output
    case Reasoning => e.reasoning
  }

  function CategoryWeight(subscriptionId: Uuid, c: Category,
                          start: Option<Instant>, end: Option<Instant>): UsageEvent -> nat {
    (e: UsageEvent) => if Selects(e, subscriptionId, Some(Tokens), start, end) then Count(e, c) else 0
  }

  datatype TokenTotals = TokenTotals(cachedInput: nat, input: nat, output: nat, reasoning: nat)

  function GetTokenTotals(usage: seq<UsageEvent>, subscriptionId: Uuid,
                          start: Option<Instant>, end: Option<Instant>): TokenTotals {
    TokenTotals(
      Sum(usage, CategoryWeight(subscriptionId, CachedInput, start, end)),
      Sum(usage, CategoryWeight(subscriptionId, Input, start, end)),
      Sum(usage, CategoryWeight(subscriptionId, Output, start, end)),
      Sum(usage, CategoryWeight(subscriptionId, Reasoning, start, end)))
  }

  // ---- months ----

  function MonthQuantity(subscriptionId: Uuid, usageType: UsageType, m: int): UsageEvent -> nat {
    (e: UsageEvent) =>
      if e.subscriptionId == subscriptionId && e.usageType == usageType && Month(e.createdAt) == m
      then e.quantity else 0
  }

  /** The quantity of one type that fell into calendar month m. */
  function MonthTotal(usage: seq<UsageEvent>, subscriptionId: Uuid, usageType: UsageType, m: int): nat {
    Sum(usage, MonthQuantity(subscriptionId, usageType, m))
  }

  lemma WindowTotalIsMonthTotal(usage: seq<UsageEvent>, subscriptionId: Uuid, usageType: UsageType, now: Instant)
    ensures var (start, end) := MonthBounds(now);
            GetTotalByType(usage, subscriptionId, usageType, Some(start), Some(end))
            == MonthTotal(usage, subscriptionId, usageType, Month(now))
  {
    var (start, end) := MonthBounds(now);
    forall e | e in usage
      ensures Quantity(subscriptionId, Some(usageType), Some(start), Some(end))(e)
              == MonthQuantity(subscriptionId, usageType, Month(now))(e)
    {
      WindowIsMonth(now, e.createdAt);
    }
    SumSame(usage, Quantity(subscriptionId, Some(usageType), Some(start), Some(end)),
            MonthQuantity(subscriptionId, usageType, Month(now)));
  }

  predicate StampedBy(usage: seq<UsageEvent>, now: Instant) {
    forall e | e in usage :: Month(e.createdAt) <= Month(now)
  }

  lemma NothingInFuture(usage: seq<UsageEvent>, subscriptionId: Uuid, usageType: UsageType, now: Instant, m: int)
    requires StampedBy(usage, now) && Month(now) < m
    ensures MonthTotal(usage, subscriptionId, usageType, m) == 0
  {
    var w := MonthQuantity(subscriptionId, usageType, m);
    SumCapped(usage, w, w, 0);
  }

  /** Over any period, API_CALL plus TOKENS is everything. */
  lemma TypesAddUp(usage: seq<UsageEvent>, subscriptionId: Uuid, start: Option<Instant>, end: Option<Instant>)
    ensures GetTotalUsage(usage, subscriptionId, start, end)
            == GetTotalByType(usage, subscriptionId, ApiCall, start, end)
             + GetTotalByType(usage, subscriptionId, Tokens, start, end)
  {
    SumSplit(usage, Quantity(subscriptionId, None, start, end),
             Quantity(subscriptionId, Some(ApiCall), start, end),
             Quantity(subscriptionId, Some(Tokens), start, end));
  }

  /** The total from the start of one month to that of another. */
  function SpanTotal(usage: seq<UsageEvent>, subscriptionId: Uuid, first: int, last: int): nat
    requires 12 <= first && 12 <= last
  {
    GetTotalUsage(usage, subscriptionId, Some(MonthStart(first)), Some(MonthStart(last)))
  }

  /** The totals of `count` consecutive calendar months from month `first`. */
  function SumOfMonths(usage: seq<UsageEvent>, subscriptionId: Uuid, first: int, count: nat): nat
    requires 12 <= first
  {
    if count == 0 then 0
    else
      var last := first + count - 1;
      SumOfMonths(usage, subscriptionId, first, count - 1) + SpanTotal(usage, subscriptionId, last, last + 1)
  }

  lemma SpanSplits(first: int, last: int, d: Instant)
    requires 12 <= first <= last
    ensures var before := MonthStart(first).AtMost(d) && d.Before(MonthStart(last));
            var month := MonthStart(last).AtMost(d) && d.Before(MonthStart(last + 1));
            && !(before && month)
            && (MonthStart(first).AtMost(d) && d.Before(MonthStart(last + 1)) <==> before || month)
  {
    SpanIsMonths(first, last + 1, d);
    SpanIsMonths(first, last, d);
    SpanIsMonths(last, last + 1, d);
  }

  lemma SpanGrows(usage: seq<UsageEvent>, subscriptionId: Uuid, first: int, last: int)
    requires 12 <= first <= last
    ensures SpanTotal(usage, subscriptionId, first, last + 1)
            == SpanTotal(usage, subscriptionId, first, last) + SpanTotal(usage, subscriptionId, last, last + 1)
  {
    var whole := Quantity(subscriptionId, None, Some(MonthStart(first)), Some(MonthStart(last + 1)));
    var before := Quantity(subscriptionId, None, Some(MonthStart(first)), Some(MonthStart(last)));
    var month := Quantity(subscriptionId, None, Some(MonthStart(last)), Some(MonthStart(last + 1)));
    forall e | e in usage
      ensures whole(e) == before(e) + month(e)
    {
      SpanSplits(first, last, e.createdAt);
    }
    SumSplit(usage, whole, before, month);
  }

  lemma EmptySpan(usage: seq<UsageEvent>, subscriptionId: Uuid, first: int)
    requires 12 <= first
    ensures SpanTotal(usage, subscriptionId, first, first) == 0
  {
    var none := Quantity(subscriptionId, None, Some(MonthStart(first)), Some(MonthStart(first)));
    SumCapped(usage, none, none, 0);
  }

  /** Consecutive monthly totals add up to the total over the whole span. */
  lemma {:induction false} MonthsAddUp(usage: seq<UsageEvent>, subscriptionId: Uuid, first: int, count: nat)
    requires 12 <= first
    ensures SumOfMonths(usage, subscriptionId, first, count)
            == GetTotalUsage(usage, subscriptionId, Some(MonthStart(first)), Some(MonthStart(first + count)))
  {
    if count == 0 {
      EmptySpan(usage, subscriptionId, first);
    } else {
      MonthsAddUp(usage, subscriptionId, first, count - 1);
      SpanGrows(usage, subscriptionId, first, first + count - 1);
    }
  }

  predicate Ordered(start: Option<Instant>, at: Instant, end: Option<Instant>) {
    && (start.Some? ==> start.value.AtMost(at))
    && (end.Some? ==> at.AtMost(end.value))
  }

  /** Any period splits at any instant within it, for every kind of total; a missing
      bound leaves its side open. */
  lemma PeriodSplits(usage: seq<UsageEvent>, subscriptionId: Uuid, usageType: Option<UsageType>,
                     start: Option<Instant>, at: Instant, end: Option<Instant>)
    requires Ordered(start, at, end)
    ensures Sum(usage, Quantity(subscriptionId, usageType, start, end))
            == Sum(usage, Quantity(subscriptionId, usageType, start, Some(at)))
             + Sum(usage, Quantity(subscriptionId, usageType, Some(at), end))
  {
    SumSplit(usage, Quantity(subscriptionId, usageType, start, end),
             Quantity(subscriptionId, usageType, start, Some(at)),
             Quantity(subscriptionId, usageType, Some(at), end));
  }

  lemma CategorySplits(usage: seq<UsageEvent>, subscriptionId: Uuid, c: Category,
                       start: Option<Instant>, at: Instant, end: Option<Instant>)
    requires Ordered(start, at, end)
    ensures Sum(usage, CategoryWeight(subscriptionId, c, start, end))
            == Sum(usage, CategoryWeight(subscriptionId, c, start, Some(at)))
             + Sum(usage, CategoryWeight(subscriptionId, c, Some(at), end))
  {
    SumSplit(usage, CategoryWeight(subscriptionId, c, start, end),
             CategoryWeight(subscriptionId, c, start, Some(at)),
             CategoryWeight(subscriptionId, c, Some(at), end));
  }

  /** The totals of the two parts of a period add up to those of the whole. */
  lemma PeriodsAddUp(usage: seq<UsageEvent>, subscriptionId: Uuid, usageType: UsageType,
                     start: Option<Instant>, at: Instant, end: Option<Instant>)
    requires Ordered(start, at, end)
    ensures GetTotalUsage(usage, subscriptionId, start, end)
            == GetTotalUsage(usage, subscriptionId, start, Some(at))
             + GetTotalUsage(usage, subscriptionId, Some(at), end)
    ensures GetTotalByType(usage, subscriptionId, usageType, start, end)
            == GetTotalByType(usage, subscriptionId, usageType, start, Some(at))
             + GetTotalByType(usage, subscriptionId, usageType, Some(at), end)
    ensures var before := GetTokenTotals(usage, subscriptionId, start, Some(at));
            var after := GetTokenTotals(usage, subscriptionId, Some(at), end);
            GetTokenTotals(usage, subscriptionId, start, end)
            == TokenTotals(before.cachedInput + after.cachedInput, before.input + after.input,
                           before.output + after.output, before.reasoning + after.reasoning)
  {
    PeriodSplits(usage, subscriptionId, None, start, at, end);
    PeriodSplits(usage, subscriptionId, Some(usageType), start, at, end);
    forall c: Category
      ensures Sum(usage, CategoryWeight(subscriptionId, c, start, end))
              == Sum(usage, CategoryWeight(subscriptionId, c, start, Some(at)))
               + Sum(usage, CategoryWeight(subscriptionId, c, Some(at), end))
    {
      CategorySplits(usage, subscriptionId, c, start, at, end);
    }
  }

  /** What one more row adds to the totals of all time: its quantity to its
      subscription's usage, and its four categories if it is a TOKENS row. */
  lemma RowAdds(usage: seq<UsageEvent>, e: UsageEvent)
    ensures GetTotalUsage(usage + [e], e.subscriptionId, None, None)
            == GetTotalUsage(usage, e.subscriptionId, None, None) + e.quantity
    ensures var before := GetTokenTotals(usage, e.subscriptionId, None, None);
            GetTokenTotals(usage + [e], e.subscriptionId, None, None)
            == if e.usageType == ApiCall then before
               else TokenTotals(before.cachedInput + e.cachedInput, before.input + e.input,
                                before.output + e.output, before.reasoning + e.reasoning)
    ensures forall other | other != e.subscriptionId ::
              && GetTotalUsage(usage + [e], other, None, None) == GetTotalUsage(usage, other, None, None)
              && GetTokenTotals(usage + [e], other, None, None) == GetTokenTotals(usage, other, None, None)
  {
    forall id: Uuid
      ensures Sum(usage + [e], Quantity(id, None, None, None))
              == Sum(usage, Quantity(id, None, None, None)) + Quantity(id, None, None, None)(e)
    {
      SumAppend(usage, e, Quantity(id, None, None, None));
    }
    forall id: Uuid, c: Category
      ensures Sum(usage + [e], CategoryWeight(id, c, None, None))
              == Sum(usage, CategoryWeight(id, c, None, None)) + CategoryWeight(id, c, None, None)(e)
    {
      SumAppend(usage, e, CategoryWeight(id, c, None, None));
    }
  }

  // ---- token breakdown ----

  /** A row's breakdown is absent or accounts for all of its quantity. */
  predicate Conserved(e: UsageEvent) {
    e.Breakdown() == 0 || e.Breakdown() == e.quantity
  }

  function BreakdownWeight(subscriptionId: Uuid, start: Option<Instant>, end: Option<Instant>): UsageEvent -> nat {
    (e: UsageEvent) => if Selects(e, subscriptionId, Some(Tokens), start, end) then e.Breakdown() else 0
  }

  lemma TotalsAreBreakdowns(usage: seq<UsageEvent>, subscriptionId: Uuid, start: Option<Instant>, end: Option<Instant>)
    ensures var totals := GetTokenTotals(usage, subscriptionId, start, end);
            totals.cachedInput + totals.input + totals.output + totals.reasoning
            == Sum(usage, BreakdownWeight(subscriptionId, start, end))
  {
    var c := CategoryWeight(subscriptionId, CachedInput, start, end);
    var i := CategoryWeight(subscriptionId, Input, start, end);
    var o := CategoryWeight(subscriptionId, Output, start, end);
    var r := CategoryWeight(subscriptionId, Reasoning, start, end);
    SumSplit(usage, (e: UsageEvent) => c(e) + i(e), c, i);
    SumSplit(usage, (e: UsageEvent) => o(e) + r(e), o, r);
    SumSplit(usage, BreakdownWeight(subscriptionId, start, end),
             (e: UsageEvent) => c(e) + i(e), (e: UsageEvent) => o(e) + r(e));
  }

  /** Token categories never exceed the tokens used; they account for all of
      them exactly when no selected row lacks its breakdown. */
  lemma BreakdownConserved(usage: seq<UsageEvent>, subscriptionId: Uuid, start: Option<Instant>, end: Option<Instant>)
    requires forall e | e in usage :: Conserved(e)
    ensures var totals := GetTokenTotals(usage, subscriptionId, start, end);
            var counted := totals.cachedInput + totals.input + totals.output + totals.reasoning;
            var used := GetTotalByType(usage, subscriptionId, Tokens, start, end);
            && counted <= used
            && (counted == used <==>
                  forall e | e in usage && Selects(e, subscriptionId, Some(Tokens), start, end) ::
                    e.Breakdown() == e.quantity)
  {
    var u := BreakdownWeight(subscriptionId, start, end);
    var v := Quantity(subscriptionId, Some(Tokens), start, end);
    TotalsAreBreakdowns(usage, subscriptionId, start, end);
    SumMonotone(usage, u, v);
    SumEqualIff(usage, u, v);
    forall e | e in usage
      ensures u(e) == v(e) <==>
                (Selects(e, subscriptionId, Some(Tokens), start, end) ==> e.Breakdown() == e.quantity)
    {
    }
  }

  lemma {:induction false} SumEqualIff(usage: seq<UsageEvent>, u: UsageEvent -> nat, v: UsageEvent -> nat)
    requires forall e | e in usage :: u(e) <= v(e)
    ensures Sum(usage, u) == Sum(usage, v) <==> forall e | e in usage :: u(e) == v(e)
  {
    if usage != [] {
      var init := usage[..|usage| - 1];
      SumMonotone(init, u, v);
      SumEqualIff(init, u, v);
      assert forall e | e in usage :: e in init || e == usage[|usage| - 1];
    }
  }
}
