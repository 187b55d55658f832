/**
 Whole runs: metering, webhooks, reconciliation and billing acting one after
 another on the same tables, with every clock reading monotone.
 */
module SystemRuns {
  import opened Dates
  import opened Models
  import opened Session
  import opened SubscriptionRepository
  import opened Sums
  import opened UsageRepository
  import opened UsageSchema
  import opened FloatCeiling
  import B = BillingService
  import G = GenerateService
  import C = ReconciliationService
  import P = CostService
  import S = StripeService
  import U = UsageService

  datatype Op =
    | Meter(req: Request, checkAt: Instant, stampAt: Instant)
    | Webhook(delivery: S.Delivery)
    | Reconcile(stripe: Option<C.Retrieve>, policy: C.Policy, available: bool)
    | Bill(subscriptionId: Uuid, periodStart: Option<Instant>, periodEnd: Option<Instant>, at: Instant)

  datatype Result =
    | Metered(answer: U.Answer)
    | Replied(reply: S.Reply)
    | Synced(changed: Option<nat>)
    | Billed(bill: Option<Invoice>)

  function Step(t: Tables, op: Op): (Tables, Result)
    requires ForeignKeys(t)
  {
    match op
    case Meter(r, checkAt, stampAt) =>
      var (t', answer) := U.Record(t, r, checkAt, stampAt);
      (t', Metered(answer))
    case Webhook(d) =>
      var (t', reply) := S.Deliver(t, d);
      (t', Replied(reply))
    case Reconcile(stripe, policy, available) =>
      var (t', changed) := C.Synced(t, stripe, policy, available);
      (t', Synced(changed))
    case Bill(subscriptionId, start, end, at) =>
      var (t', bill) := B.Bill(t, subscriptionId, start, end, at);
      (t', Billed(bill))
  }

  /** What every step keeps: the constraints, one consistent invoice per period,
      and conserved breakdowns. */
  predicate Safe(t: Tables) {
    && Constraints(t)
    && B.OneInvoicePerPeriod(t.invoices)
    && (forall i | i in t.invoices :: B.Consistent(i))
    && (forall e | e in t.usage :: Conserved(e))
  }

  /** How tables change: rows are only appended, except that a subscription's
      plan, status and Stripe ids may be rewritten. */
  predicate Evolves(t: Tables, t': Tables) {
    && t.usage <= t'.usage && t.invoices <= t'.invoices && t.markers <= t'.markers
    && t'.tenants == t.tenants && t'.plans == t.plans && t'.planByPrice == t.planByPrice
    && |t.subscriptions| <= |t'.subscriptions|
    && forall i | 0 <= i < |t.subscriptions| ::
         t'.subscriptions[i].id == t.subscriptions[i].id && t'.subscriptions[i].tenantId == t.subscriptions[i].tenantId
  }

  predicate Validated(op: Op) {
    op.Meter? ==> op.req.WellFormed()
  }

  lemma MeterIsSafe(t: Tables, op: Op)
    requires Safe(t) && Validated(op) && op.Meter?
    ensures Safe(Step(t, op).0) && Evolves(t, Step(t, op).0)
  {
    U.RecordInsertsIffAdmitted(t, op.req, op.checkAt, op.stampAt);
    U.RecordKeepsConstraints(t, op.req, op.checkAt, op.stampAt);
  }

  lemma WebhookIsSafe(t: Tables, op: Op)
    requires Safe(t) && op.Webhook?
    ensures Safe(Step(t, op).0) && Evolves(t, Step(t, op).0)
  {
    S.DeliveryIsAtomic(t, op.delivery);
    S.DeliveryTouchesOneRow(t, op.delivery);
  }

  lemma ReconcileIsSafe(t: Tables, op: Op)
    requires Safe(t) && op.Reconcile?
    ensures Safe(Step(t, op).0) && Evolves(t, Step(t, op).0)
  {
    if op.stripe.Some? {
      C.ReconcileKeepsConstraints(t, op.stripe.value, op.policy);
    }
  }

  lemma BillIsSafe(t: Tables, op: Op)
    requires Safe(t) && op.Bill?
    ensures Safe(Step(t, op).0) && Evolves(t, Step(t, op).0)
  {
    B.BillingAppendsOnce(t, op.subscriptionId, op.periodStart, op.periodEnd, op.at);
  }

  lemma StepIsSafe(t: Tables, op: Op)
    requires Safe(t) && Validated(op)
    ensures Safe(Step(t, op).0) && Evolves(t, Step(t, op).0)
  {
    match op
    case Meter(_, _, _) => MeterIsSafe(t, op);
    case Webhook(_) => WebhookIsSafe(t, op);
    case Reconcile(_, _, _) => ReconcileIsSafe(t, op);
    case Bill(_, _, _, _) => BillIsSafe(t, op);
  }

  /** Only metering writes usage: an admitted call appends its row. */
  lemma UsageChanges(t: Tables, op: Op)
    requires Safe(t)
    ensures Step(t, op).0.usage
            == if op.Meter? && U.Admits(t, op.req, op.checkAt) then t.usage + [op.req.ToEvent(op.stampAt)] else t.usage
  {
    match op
    case Meter(r, checkAt, stampAt) => U.RecordInsertsIffAdmitted(t, r, checkAt, stampAt);
    case Webhook(d) => S.DeliveryIsAtomic(t, d);
    case Reconcile(_, _, _) =>
    case Bill(_, _, _, _) =>
  }

  /** What each operation answers, by what is in the tables before and after it. */
  lemma StepAnswers(t: Tables, op: Op)
    requires Safe(t)
    ensures var (t', result) := Step(t, op);
            match op
            case Meter(r, _, _) =>
              && result.Metered?
              && (result.answer.Recorded? <==> exists e :: e in t'.usage && e.idempotencyKey == r.idempotencyKey)
              && (result.answer.Recorded? ==>
                    result.answer.event in t'.usage && result.answer.event.idempotencyKey == r.idempotencyKey)
            case Webhook(d) =>
              && result.Replied?
              && (result.reply.Accepted? <==>
                    d.configured && d.signed && exists m :: m in t'.markers && m.eventId == d.event.id)
            case Reconcile(stripe, _, available) =>
              && result.Synced? && |t'.subscriptions| == |t.subscriptions|
              && result.changed
                 == if stripe.Some? && !available then None
                    else Some(|set i | 0 <= i < |t.subscriptions| && t.subscriptions[i] != t'.subscriptions[i]|)
            case Bill(subscriptionId, _, _, _) =>
              && result.Billed?
              && (result.bill.Some? <==> exists s :: s in t.subscriptions && s.id == subscriptionId)
              && (result.bill.Some? ==>
                    result.bill.value in t'.invoices && result.bill.value.subscriptionId == subscriptionId)
  {
    match op
    case Meter(r, checkAt, stampAt) => U.RecordInsertsIffAdmitted(t, r, checkAt, stampAt);
    case Webhook(d) => ReplyIsMarked(t, d);
    case Reconcile(stripe, policy, available) =>
      C.RunAnswers(t, stripe, policy, available);
      assert (set i | 0 <= i < |t.subscriptions| && t.subscriptions[i] != t.subscriptions[i]) == {};
    case Bill(subscriptionId, start, end, at) =>
      B.BillSays(t, subscriptionId, start, end, at);
      B.BillingAppendsOnce(t, subscriptionId, start, end, at);
  }

  lemma ReplyIsMarked(t: Tables, d: S.Delivery)
    requires Constraints(t)
    ensures var (t', reply) := S.Deliver(t, d);
            reply.Accepted? <==> d.configured && d.signed && exists m :: m in t'.markers && m.eventId == d.event.id
  {
    S.DeliveryReply(t, d);
    S.DeliveryIsAtomic(t, d);
    S.MarkedIsSeen(S.Deliver(t, d).0.markers, d.event.id);
    S.MarkedIsSeen(t.markers, d.event.id);
  }

  /** The tables after the first ops of a run. */
  ghost function Run(t: Tables, ops: seq<Op>): (t': Tables)
    requires Safe(t) && forall op | op in ops :: Validated(op)
    ensures Safe(t')
    decreases |ops|
  {
    if ops == [] then t
    else
      StepIsSafe(t, ops[0]);
      Run(Step(t, ops[0]).0, ops[1..])
  }

  ghost function Results(t: Tables, ops: seq<Op>): (rs: seq<Result>)
    requires Safe(t) && forall op | op in ops :: Validated(op)
    ensures |rs| == |ops|
    decreases |ops|
  {
    if ops == [] then []
    else
      StepIsSafe(t, ops[0]);
      [Step(t, ops[0]).1] + Results(Step(t, ops[0]).0, ops[1..])
  }

  /** Over every run, keys, markers, Stripe links and invoice periods stay
      unique, breakdowns stay conserved, recorded rows stay as they are, and no
      subscription changes its id or tenant. */
  lemma {:induction false} RunEvolves(t: Tables, ops: seq<Op>)
    requires Safe(t) && forall op | op in ops :: Validated(op)
    ensures Safe(Run(t, ops)) && Evolves(t, Run(t, ops))
    decreases |ops|
  {
    if ops != [] {
      StepIsSafe(t, ops[0]);
      RunEvolves(Step(t, ops[0]).0, ops[1..]);
    }
  }

  // ---- erasing retries ----

  /** A request whose key is recorded, or a webhook that is a replay or fails. */
  predicate Erasable(t: Tables, op: Op) {
    match op
    case Meter(r, _, _) => GetByIdempotencyKey(t.usage, r.idempotencyKey).Some?
    case Webhook(d) => S.Marked(t.markers, d.event.id) || !S.Deliver(t, d).1.Accepted?
    case _ => false
  }

  ghost function Erased(t: Tables, ops: seq<Op>): (kept: seq<Op>)
    requires Safe(t) && forall op | op in ops :: Validated(op)
    ensures forall op | op in kept :: Validated(op)
    decreases |ops|
  {
    if ops == [] then []
    else
      StepIsSafe(t, ops[0]);
      var kept := Erased(Step(t, ops[0]).0, ops[1..]);
      if Erasable(t, ops[0]) then kept else [ops[0]] + kept
  }

  /** No request of the run repeats a recorded key, and every webhook is accepted for
      the first time. */
  ghost predicate WithoutRetries(t: Tables, ops: seq<Op>)
    requires Safe(t) && forall op | op in ops :: Validated(op)
    decreases |ops|
  {
    if ops == [] then true
    else
      StepIsSafe(t, ops[0]);
      && (match ops[0]
          case Meter(r, _, _) => forall e | e in t.usage :: e.idempotencyKey != r.idempotencyKey
          case Webhook(d) =>
            && S.Deliver(t, d).1.Accepted?
            && forall m | m in t.markers :: m.eventId != d.event.id
          case _ => true)
      && WithoutRetries(Step(t, ops[0]).0, ops[1..])
  }

  /** The answers of the operations that `Erased` keeps, as given in the full run. */
  ghost function KeptResults(t: Tables, ops: seq<Op>): seq<Result>
    requires Safe(t) && forall op | op in ops :: Validated(op)
    decreases |ops|
  {
    if ops == [] then []
    else
      StepIsSafe(t, ops[0]);
      var kept := KeptResults(Step(t, ops[0]).0, ops[1..]);
      if Erasable(t, ops[0]) then kept else [Step(t, ops[0]).1] + kept
  }

  /** Removing from any history every retried request, replayed webhook and
      failed webhook leaves the final tables and all other answers unchanged; what
      remains holds no retry. */
  lemma {:induction false} RetriesErased(t: Tables, ops: seq<Op>)
    requires Safe(t) && forall op | op in ops :: Validated(op)
    ensures Run(t, Erased(t, ops)) == Run(t, ops)
    ensures Results(t, Erased(t, ops)) == KeptResults(t, ops)
    ensures WithoutRetries(t, Erased(t, ops))
    decreases |ops|
  {
    if ops != [] {
      var t' := Step(t, ops[0]).0;
      StepIsSafe(t, ops[0]);
      RetriesErased(t', ops[1..]);
      if !Erasable(t, ops[0]) {
        if ops[0].Webhook? {
          S.MarkedIsSeen(t.markers, ops[0].delivery.event.id);
        }
        var kept := Erased(t', ops[1..]);
        assert ([ops[0]] + kept)[1..] == kept;
      }
    }
  }

  /** Every successful `generate` under one key returns the same event and cost,
      whatever ran in between. */
  lemma GenerateIsStable(t: Tables, r: Request, checkAt: Instant, stampAt: Instant, ops: seq<Op>,
                         retry: Request, checkAt': Instant, stampAt': Instant)
    requires Safe(t) && r.WellFormed() && forall op | op in ops :: Validated(op)
    requires G.Serve(t, r, checkAt, stampAt).1.Generated? && retry.idempotencyKey == r.idempotencyKey
    ensures var (t1, response) := G.Serve(t, r, checkAt, stampAt);
            && Safe(t1)
            && G.Serve(Run(t1, ops), retry, checkAt', stampAt') == (Run(t1, ops), response)
  {
    StepIsSafe(t, Meter(r, checkAt, stampAt));
    var t1 := G.Serve(t, r, checkAt, stampAt).0;
    RunEvolves(t1, ops);
    G.RetryMirrorsResponse(t, r, checkAt, stampAt, Run(t1, ops), retry, checkAt', stampAt');
  }

  // ---- quota ----

  predicate PlanOf(t: Tables, subscriptionId: Uuid, holds: Plan -> bool)
    requires ForeignKeys(t)
  {
    var found := GetById(t.subscriptions, subscriptionId);
    found.Some? ==> holds(t.plans[t.subscriptions[found.value].planId])
  }

  /** In every state of the run the subscription's plan satisfies `holds`. */
  ghost predicate AlwaysOnPlan(t: Tables, ops: seq<Op>, subscriptionId: Uuid, holds: Plan -> bool)
    requires Safe(t) && forall op | op in ops :: Validated(op)
    decreases |ops|
  {
    if ops == [] then PlanOf(t, subscriptionId, holds)
    else
      StepIsSafe(t, ops[0]);
      PlanOf(t, subscriptionId, holds) && AlwaysOnPlan(Step(t, ops[0]).0, ops[1..], subscriptionId, holds)
  }

  function Clock(op: Op, now: Instant): Instant {
    match op
    case Meter(_, _, stampAt) => stampAt
    case Bill(_, _, _, at) => at
    case _ => now
  }

  predicate InTime(op: Op, now: Instant) {
    match op
    case Meter(_, checkAt, stampAt) => now.AtMost(checkAt) && checkAt.AtMost(stampAt)
    case Bill(_, _, _, at) => now.AtMost(at)
    case _ => true
  }

  /** Every clock reading of the run is at or after the one before. */
  predicate Monotone(ops: seq<Op>, now: Instant)
    decreases |ops|
  {
    ops != [] ==> InTime(ops[0], now) && Monotone(ops[1..], Clock(ops[0], now))
  }

  ghost predicate WithinQuota(t: Tables, subscriptionId: Uuid, usageType: UsageType, limit: nat) {
    forall m :: MonthTotal(t.usage, subscriptionId, usageType, m) <= limit
  }

  function LimitedTo(usageType: UsageType, limit: nat): Plan -> bool {
    (p: Plan) => LimitOf(p, usageType) <= limit
  }

  /** An admitted row fits the month it is checked against, and a month that turns
      before the row is stamped is still empty. */
  lemma AdmittedFits(t: Tables, op: Op, now: Instant, subscriptionId: Uuid, usageType: UsageType, limit: nat, m: int)
    requires Safe(t) && op.Meter? && InTime(op, now) && U.Admits(t, op.req, op.checkAt)
    requires StampedBy(t.usage, now) && MonthTotal(t.usage, subscriptionId, usageType, m) <= limit
    requires PlanOf(t, subscriptionId, LimitedTo(usageType, limit))
    ensures MonthTotal(t.usage + [op.req.ToEvent(op.stampAt)], subscriptionId, usageType, m) <= limit
  {
    MonthIsMonotone(now, op.checkAt);
    MonthIsMonotone(op.checkAt, op.stampAt);
    SumAppend(t.usage, op.req.ToEvent(op.stampAt), MonthQuantity(subscriptionId, usageType, m));
    if m == Month(op.stampAt) > Month(op.checkAt) {
      NothingInFuture(t.usage, subscriptionId, usageType, now, m);
    }
  }

  lemma StepKeepsQuota(t: Tables, op: Op, now: Instant, subscriptionId: Uuid, usageType: UsageType, limit: nat)
    requires Safe(t) && Validated(op) && InTime(op, now)
    requires StampedBy(t.usage, now) && WithinQuota(t, subscriptionId, usageType, limit)
    requires PlanOf(t, subscriptionId, LimitedTo(usageType, limit))
    ensures StampedBy(Step(t, op).0.usage, Clock(op, now))
    ensures WithinQuota(Step(t, op).0, subscriptionId, usageType, limit)
  {
    var t' := Step(t, op).0;
    UsageChanges(t, op);
    if op.Meter? {
      MonthIsMonotone(now, op.checkAt);
      MonthIsMonotone(op.checkAt, op.stampAt);
      if U.Admits(t, op.req, op.checkAt) {
        forall m
          ensures MonthTotal(t'.usage, subscriptionId, usageType, m) <= limit
        {
          AdmittedFits(t, op, now, subscriptionId, usageType, limit, m);
        }
      }
    } else if op.Bill? {
      MonthIsMonotone(now, op.at);
    }
  }

  /** The strict quota: run sequentially, no calendar month exceeds the limit, even
      when the month turns between a request's check and its row's timestamp. */
  lemma {:induction false} SequentialQuota(t: Tables, ops: seq<Op>, now: Instant, subscriptionId: Uuid,
                                           usageType: UsageType, limit: nat)
    requires Safe(t) && (forall op | op in ops :: Validated(op)) && Monotone(ops, now)
    requires StampedBy(t.usage, now) && WithinQuota(t, subscriptionId, usageType, limit)
    requires AlwaysOnPlan(t, ops, subscriptionId, LimitedTo(usageType, limit))
    ensures WithinQuota(Run(t, ops), subscriptionId, usageType, limit)
    decreases |ops|
  {
    if ops != [] {
      StepIsSafe(t, ops[0]);
      StepKeepsQuota(t, ops[0], now, subscriptionId, usageType, limit);
      SequentialQuota(Step(t, ops[0]).0, ops[1..], Clock(ops[0], now), subscriptionId, usageType, limit);
    }
  }

  // ---- float prices ----

  lemma QuoteIsExact(t: Tables, subscriptionId: Uuid, usageType: UsageType, limit: nat, e: UsageEvent,
                     quotient: nat -> real)
    requires Safe(t) && WithinQuota(t, subscriptionId, usageType, limit) && limit <= EXACT_UP_TO
    requires e in t.usage && e.subscriptionId == subscriptionId && e.usageType == usageType && P.Rounded(quotient)
    ensures P.FloatTokenCost(quotient, e.cachedInput, e.input, e.output, e.reasoning) == P.Quote(e)
  {
    SumHolds(t.usage, e, MonthQuantity(subscriptionId, usageType, Month(e.createdAt)));
    assert MonthTotal(t.usage, subscriptionId, usageType, Month(e.createdAt)) <= limit;
    P.FloatPricingIsExact(e.cachedInput, e.input, e.output, e.reasoning, quotient);
  }

  lemma MonthRollupIsExact(t: Tables, subscriptionId: Uuid, limit: nat, at: Instant, quotient: nat -> real)
    requires Safe(t) && P.Rounded(quotient) && limit <= EXACT_UP_TO
    requires WithinQuota(t, subscriptionId, ApiCall, limit) && WithinQuota(t, subscriptionId, Tokens, limit)
    ensures var (start, end) := MonthBounds(at);
            var rollup := P.Rollup(t, subscriptionId, Some(start), Some(end));
            var totals := GetTokenTotals(t.usage, subscriptionId, Some(start), Some(end));
            rollup.Some? ==>
              rollup.value.costMicro
              == P.FloatApiCallCost(quotient, rollup.value.usedApiCalls)
               + P.FloatTokenCost(quotient, totals.cachedInput, totals.input, totals.output, totals.reasoning)
  {
    var (start, end) := MonthBounds(at);
    WindowTotalIsMonthTotal(t.usage, subscriptionId, ApiCall, at);
    WindowTotalIsMonthTotal(t.usage, subscriptionId, Tokens, at);
    assert MonthTotal(t.usage, subscriptionId, ApiCall, Month(at)) <= limit;
    assert MonthTotal(t.usage, subscriptionId, Tokens, Month(at)) <= limit;
    P.FloatRollupIsExact(t, subscriptionId, Some(start), Some(end), quotient);
  }

  /** The quota keeps the floats exact: after any run whose plan limits stay within
      1000 * 2^44, every quote of the subscription and every monthly rollup computed
      through floats is the integer price. */
  lemma QuotaKeepsFloatsExact(t: Tables, ops: seq<Op>, now: Instant, subscriptionId: Uuid, limit: nat,
                              at: Instant, quotient: nat -> real)
    requires Safe(t) && (forall op | op in ops :: Validated(op)) && Monotone(ops, now)
    requires StampedBy(t.usage, now) && limit <= EXACT_UP_TO && P.Rounded(quotient)
    requires WithinQuota(t, subscriptionId, ApiCall, limit) && WithinQuota(t, subscriptionId, Tokens, limit)
    requires AlwaysOnPlan(t, ops, subscriptionId, LimitedTo(ApiCall, limit))
    requires AlwaysOnPlan(t, ops, subscriptionId, LimitedTo(Tokens, limit))
    ensures var later := Run(t, ops);
            var (start, end) := MonthBounds(at);
            var rollup := P.Rollup(later, subscriptionId, Some(start), Some(end));
            var totals := GetTokenTotals(later.usage, subscriptionId, Some(start), Some(end));
            && (forall e | e in later.usage && e.subscriptionId == subscriptionId ::
                  P.FloatTokenCost(quotient, e.cachedInput, e.input, e.output, e.reasoning) == P.Quote(e))
            && (rollup.Some? ==>
                  rollup.value.costMicro
                  == P.FloatApiCallCost(quotient, rollup.value.usedApiCalls)
                   + P.FloatTokenCost(quotient, totals.cachedInput, totals.input, totals.output, totals.reasoning))
  {
    SequentialQuota(t, ops, now, subscriptionId, ApiCall, limit);
    SequentialQuota(t, ops, now, subscriptionId, Tokens, limit);
    var later := Run(t, ops);
    MonthRollupIsExact(later, subscriptionId, limit, at, quotient);
    forall e | e in later.usage && e.subscriptionId == subscriptionId
      ensures P.FloatTokenCost(quotient, e.cachedInput, e.input, e.output, e.reasoning) == P.Quote(e)
    {
      QuoteIsExact(later, subscriptionId, e.usageType, limit, e, quotient);
    }
  }

  // ---- bills ----

  /** Plans no dearer, no more generous and with no less included usage than cap. */
  function Within(cap: Plan): Plan -> bool {
    (p: Plan) =>
      p.price <= cap.price && cap.usageLimit <= p.usageLimit
      && p.apiCallLimit <= cap.apiCallLimit && p.tokensLimit <= cap.tokensLimit
  }

  function MaxOverage(cap: Plan): int {
    B.Max(cap.apiCallLimit + cap.tokensLimit - cap.usageLimit, 0)
  }

  predicate CalendarMonth(i: Invoice) {
    MonthBounds(i.periodStart) == (i.periodStart, i.periodEnd)
  }

  predicate Capped(invoices: seq<Invoice>, subscriptionId: Uuid, cap: Plan) {
    forall i | i in invoices && i.subscriptionId == subscriptionId && CalendarMonth(i) ::
      i.overage <= MaxOverage(cap) && i.amountDue <= cap.price + 10 * MaxOverage(cap)
  }

  lemma StepCapsBill(t: Tables, op: Op, subscriptionId: Uuid, cap: Plan)
    requires Safe(t) && Validated(op) && 0 <= cap.apiCallLimit && 0 <= cap.tokensLimit
    requires WithinQuota(t, subscriptionId, ApiCall, cap.apiCallLimit)
    requires WithinQuota(t, subscriptionId, Tokens, cap.tokensLimit)
    requires PlanOf(t, subscriptionId, Within(cap)) && Capped(t.invoices, subscriptionId, cap)
    ensures Capped(Step(t, op).0.invoices, subscriptionId, cap)
  {
    if op.Webhook? {
      S.DeliveryIsAtomic(t, op.delivery);
    } else if op.Bill? && op.subscriptionId == subscriptionId {
      var (start, end) := B.Period(op.periodStart, op.periodEnd, op.at);
      if MonthBounds(start) == (start, end) {
        TypesAddUp(t.usage, subscriptionId, Some(start), Some(end));
        WindowTotalIsMonthTotal(t.usage, subscriptionId, ApiCall, start);
        WindowTotalIsMonthTotal(t.usage, subscriptionId, Tokens, start);
        assert MonthTotal(t.usage, subscriptionId, ApiCall, Month(start)) <= cap.apiCallLimit;
        assert MonthTotal(t.usage, subscriptionId, Tokens, Month(start)) <= cap.tokensLimit;
      }
    }
  }

  /** The quota bounds the bill: while a subscription's plans stay within `cap` (its
      one fixed plan, for instance), no calendar-month invoice charges more overage
      than the two type limits allow beyond the included usage. */
  lemma {:induction false} QuotaBoundsBill(t: Tables, ops: seq<Op>, now: Instant, subscriptionId: Uuid, cap: Plan)
    requires Safe(t) && (forall op | op in ops :: Validated(op)) && Monotone(ops, now)
    requires StampedBy(t.usage, now) && 0 <= cap.apiCallLimit && 0 <= cap.tokensLimit
    requires WithinQuota(t, subscriptionId, ApiCall, cap.apiCallLimit)
    requires WithinQuota(t, subscriptionId, Tokens, cap.tokensLimit)
    requires Capped(t.invoices, subscriptionId, cap)
    requires AlwaysOnPlan(t, ops, subscriptionId, Within(cap))
    ensures Capped(Run(t, ops).invoices, subscriptionId, cap)
    decreases |ops|
  {
    if ops != [] {
      StepIsSafe(t, ops[0]);
      StepKeepsQuota(t, ops[0], now, subscriptionId, ApiCall, cap.apiCallLimit);
      StepKeepsQuota(t, ops[0], now, subscriptionId, Tokens, cap.tokensLimit);
      StepCapsBill(t, ops[0], subscriptionId, cap);
      QuotaBoundsBill(Step(t, ops[0]).0, ops[1..], Clock(ops[0], now), subscriptionId, cap);
    }
  }

  lemma LookupSurvives(t: Tables, t': Tables, subscriptionId: Uuid)
    requires Evolves(t, t') && GetById(t.subscriptions, subscriptionId).Some?
    ensures GetById(t'.subscriptions, subscriptionId).Some?
  {
    var i := GetById(t.subscriptions, subscriptionId).value;
    assert t'.subscriptions[i].id == subscriptionId;
  }

  /** A bill is frozen: whatever happens after it was first computed, computing it
      again for the same period answers the same figures and stores nothing. */
  lemma BillIsFrozen(t: Tables, first: Op, ops: seq<Op>, again: Op)
    requires Safe(t) && forall op | op in ops :: Validated(op)
    requires first.Bill? && again.Bill? && first.subscriptionId == again.subscriptionId
    requires B.Period(first.periodStart, first.periodEnd, first.at)
             == B.Period(again.periodStart, again.periodEnd, again.at)
    requires Step(t, first).1.bill.Some?
    ensures Safe(Step(t, first).0)
    ensures var later := Run(Step(t, first).0, ops);
            Step(later, again) == (later, Step(t, first).1)
  {
    StepIsSafe(t, first);
    B.BillingAppendsOnce(t, first.subscriptionId, first.periodStart, first.periodEnd, first.at);
    var t1 := Step(t, first).0;
    RunEvolves(t1, ops);
    var later := Run(t1, ops);
    LookupSurvives(t1, later, first.subscriptionId);
    B.StoredBillAnswers(later, t1.invoices, Step(t, first).1.bill.value, first.subscriptionId,
                        again.periodStart, again.periodEnd, again.at);
  }

  /** All default-period bills within one calendar month answer the first one's figures. */
  lemma MonthHasOneBill(t: Tables, subscriptionId: Uuid, at: Instant, ops: seq<Op>, at': Instant)
    requires Safe(t) && (forall op | op in ops :: Validated(op)) && Month(at) == Month(at')
    requires Step(t, Bill(subscriptionId, None, None, at)).1.bill.Some?
    ensures Safe(Step(t, Bill(subscriptionId, None, None, at)).0)
    ensures var (t1, result) := Step(t, Bill(subscriptionId, None, None, at));
            var later := Run(t1, ops);
            Step(later, Bill(subscriptionId, None, None, at')) == (later, result)
  {
    WindowIsMonth(at, at);
    WindowIsMonth(at', at');
    BillIsFrozen(t, Bill(subscriptionId, None, None, at), ops, Bill(subscriptionId, None, None, at'));
  }

  /** How wrong a frozen bill becomes: at any later time, recomputing its period
      under the plan it was computed with costs at least as much, and more by at
      most the overage price of the usage recorded in that period since. */
  lemma FrozenBillDrift(t: Tables, first: Op, ops: seq<Op>)
    requires Safe(t) && (forall op | op in ops :: Validated(op)) && first.Bill?
    requires Step(t, first).0 != t
    ensures Safe(Step(t, first).0)
    ensures var stored := Step(t, first).1.bill.value;
            var plan := t.plans[t.subscriptions[GetById(t.subscriptions, first.subscriptionId).value].planId];
            var later := Run(Step(t, first).0, ops);
            var recomputed := B.Draft(later.usage, first.subscriptionId, plan, stored.periodStart, stored.periodEnd);
            && t.usage <= later.usage
            && var since := GetTotalUsage(later.usage[|t.usage|..], first.subscriptionId,
                                          Some(stored.periodStart), Some(stored.periodEnd));
            && stored in later.invoices
            && stored.amountDue <= recomputed.amountDue <= stored.amountDue + 10 * since
  {
    StepIsSafe(t, first);
    var t1 := Step(t, first).0;
    RunEvolves(t1, ops);
    var later := Run(t1, ops);
    var stored := Step(t, first).1.bill.value;
    assert later.invoices[|t.invoices|] == stored;
    var plan := t.plans[t.subscriptions[GetById(t.subscriptions, first.subscriptionId).value].planId];
    B.FrozenInvoiceDrift(t.usage, later.usage, first.subscriptionId, plan, stored.periodStart, stored.periodEnd);
  }

  // ---- activity ----

  /** Running the first j + 1 operations is running the first and then j of the others. */
  lemma PrefixOfRun(t: Tables, ops: seq<Op>, j: nat)
    requires Safe(t) && (forall op | op in ops :: Validated(op)) && j < |ops|
    ensures Safe(Step(t, ops[0]).0)
    ensures forall op | op in ops[..j + 1] :: Validated(op)
    ensures Run(t, ops[..j + 1]) == Run(Step(t, ops[0]).0, ops[1..][..j])
  {
    StepIsSafe(t, ops[0]);
    assert ops[..j + 1][1..] == ops[1..][..j];
    assert ops[..j + 1][0] == ops[0];
  }

  /** Every row recorded in a run was inserted by a metering call made while its
      subscription was active. */
  lemma {:induction false} RowsInsertedWhileActive(t: Tables, ops: seq<Op>, i: nat) returns (k: nat)
    requires Safe(t) && forall op | op in ops :: Validated(op)
    requires |t.usage| <= i < |Run(t, ops).usage|
    ensures k < |ops| && ops[k].Meter?
    ensures forall op | op in ops[..k] :: Validated(op)
    ensures var before := Run(t, ops[..k]);
            && |before.usage| == i
            && Run(t, ops).usage[i] == ops[k].req.ToEvent(ops[k].stampAt)
            && U.IsActive(before, ops[k].req.subscriptionId)
    decreases |ops|
  {
    var t' := Step(t, ops[0]).0;
    StepIsSafe(t, ops[0]);
    RunEvolves(t', ops[1..]);
    UsageChanges(t, ops[0]);
    if i < |t'.usage| {
      k := 0;
    } else {
      var j := RowsInsertedWhileActive(t', ops[1..], i);
      k := j + 1;
      PrefixOfRun(t, ops, j);
    }
  }

  /** The Stripe texts that cost a subscription its right to record usage. */
  predicate Blocking(text: Option<string>) {
    text in {Some("trialing"), Some("past_due"), Some("unpaid"), Some("canceled"), Some("incomplete_expired")}
  }

  /** A request meets the status of the row with its subscription's id. */
  lemma StatusDecidesAccess(t: Tables, i: nat, text: Option<string>, r: Request, checkAt: Instant, stampAt: Instant)
    requires Constraints(t) && GetByIdempotencyKey(t.usage, r.idempotencyKey).None?
    requires i < |t.subscriptions| && t.subscriptions[i].id == r.subscriptionId
    requires t.subscriptions[i].status == FromStripeStatus(text)
    ensures U.IsActive(t, r.subscriptionId) <==> !Blocking(text)
    ensures U.Record(t, r, checkAt, stampAt).1.NotActive? <==> Blocking(text)
  {
    StatusTable(text);
    assert GetById(t.subscriptions, r.subscriptionId) == Some(i);
  }

  /** After a committed update, the row with the event's Stripe id may record usage
      unless the event carried one of the five blocking texts; a text that is
      unknown or missing grants access, whatever the status was before. */
  lemma UpdateDecidesAccess(t: Tables, d: S.Delivery, i: nat, r: Request, checkAt: Instant, stampAt: Instant)
    requires Constraints(t) && GetByIdempotencyKey(t.usage, r.idempotencyKey).None?
    requires S.Deliver(t, d).1.Accepted? && !S.Marked(t.markers, d.event.id)
    requires d.event.payload.SubscriptionUpdated? && S.Truthy(d.event.payload.stripeId)
    requires i < |t.subscriptions| && t.subscriptions[i].id == r.subscriptionId
    requires t.subscriptions[i].stripeSubscriptionId == d.event.payload.stripeId
    ensures Constraints(S.Deliver(t, d).0)
    ensures var t' := S.Deliver(t, d).0;
            && (U.IsActive(t', r.subscriptionId) <==> !Blocking(d.event.payload.status))
            && (U.Record(t', r, checkAt, stampAt).1.NotActive? <==> Blocking(d.event.payload.status))
  {
    S.DeliveryIsAtomic(t, d);
    S.EventEffect(t, d.event.payload, d.newId);
    S.DeliveryTouchesOneRow(t, d);
    StatusDecidesAccess(S.Deliver(t, d).0, i, d.event.payload.status, r, checkAt, stampAt);
  }

  /** A committed reconciliation decides access in the same way, by the text Stripe
      answers for the row's id. */
  lemma ReconcileDecidesAccess(t: Tables, retrieve: C.Retrieve, policy: C.Policy, i: nat,
                               r: Request, checkAt: Instant, stampAt: Instant)
    requires Constraints(t) && GetByIdempotencyKey(t.usage, r.idempotencyKey).None?
    requires i < |t.subscriptions| && t.subscriptions[i].id == r.subscriptionId && Linked(t.subscriptions[i])
    requires C.View(retrieve, policy, t.subscriptions[i].stripeSubscriptionId.value).Ok?
    ensures Constraints(C.Synced(t, Some(retrieve), policy, true).0)
    ensures var t' := C.Synced(t, Some(retrieve), policy, true).0;
            var text := C.View(retrieve, policy, t.subscriptions[i].stripeSubscriptionId.value).value;
            && (U.IsActive(t', r.subscriptionId) <==> !Blocking(text))
            && (U.Record(t', r, checkAt, stampAt).1.NotActive? <==> Blocking(text))
  {
    C.ReconcileKeepsConstraints(t, retrieve, policy);
    var text := C.View(retrieve, policy, t.subscriptions[i].stripeSubscriptionId.value).value;
    StatusDecidesAccess(C.Synced(t, Some(retrieve), policy, true).0, i, text, r, checkAt, stampAt);
  }

  ghost predicate InactiveThroughout(t: Tables, ops: seq<Op>, subscriptionId: Uuid)
    requires Safe(t) && forall op | op in ops :: Validated(op)
    decreases |ops|
  {
    if ops == [] then !U.IsActive(t, subscriptionId)
    else
      StepIsSafe(t, ops[0]);
      !U.IsActive(t, subscriptionId) && InactiveThroughout(Step(t, ops[0]).0, ops[1..], subscriptionId)
  }

  function RowsOf(usage: seq<UsageEvent>, subscriptionId: Uuid): (rows: seq<UsageEvent>)
    ensures forall e :: e in rows <==> e in usage && e.subscriptionId == subscriptionId
  {
    if usage == [] then []
    else
      var last := usage[|usage| - 1];
      RowsOf(usage[..|usage| - 1], subscriptionId) + if last.subscriptionId == subscriptionId then [last] else []
  }

  /** Along any stretch where a subscription stays non-active, its rows are constant. */
  lemma {:induction false} InactiveRowsConstant(t: Tables, ops: seq<Op>, subscriptionId: Uuid)
    requires Safe(t) && forall op | op in ops :: Validated(op)
    requires InactiveThroughout(t, ops, subscriptionId)
    ensures RowsOf(Run(t, ops).usage, subscriptionId) == RowsOf(t.usage, subscriptionId)
    decreases |ops|
  {
    if ops != [] {
      var t' := Step(t, ops[0]).0;
      StepIsSafe(t, ops[0]);
      UsageChanges(t, ops[0]);
      if t'.usage != t.usage {
        assert t'.usage[..|t.usage|] == t.usage;
      }
      InactiveRowsConstant(t', ops[1..], subscriptionId);
    }
  }
}
