/**
 Monthly billing with overage (app/services/billing_service.py) over the invoice
 lookups of app/repositories/invoice_repository.py.
 */
module BillingService {
  import opened Dates
  import opened Models
  import opened Session
  import opened SubscriptionRepository
  import opened Sums
  import opened UsageRepository

  // Cents per unit over the plan's usage limit.
  const OVERAGE_PRICE := 10

  function Max(a: int, b: int): int {
    if a < b then b else a
  }

  function Overage(totalUsage: nat, usageLimit: int): nat {
    Max(totalUsage - usageLimit, 0)
  }

  predicate Covers(i: Invoice, subscriptionId: Uuid, start: Instant, end: Instant) {
    i.subscriptionId == subscriptionId && i.periodStart == start && i.periodEnd == end
  }

  /** The first stored invoice of a subscription and period. */
  function GetBySubscriptionAndPeriod(invoices: seq<Invoice>, subscriptionId: Uuid, start: Instant, end: Instant):
    (found: Option<Invoice>)
    ensures found.Some? ==> found.value in invoices && Covers(found.value, subscriptionId, start, end)
    ensures found.None? ==> forall i | i in invoices :: !Covers(i, subscriptionId, start, end)
  {
    if invoices == [] then None
    else if Covers(invoices[0], subscriptionId, start, end) then Some(invoices[0])
    else GetBySubscriptionAndPeriod(invoices[1..], subscriptionId, start, end)
  }

  lemma {:induction false} FirstInvoiceStays(invoices: seq<Invoice>, more: seq<Invoice>,
                                             subscriptionId: Uuid, start: Instant, end: Instant)
    ensures var found := GetBySubscriptionAndPeriod(invoices, subscriptionId, start, end);
            GetBySubscriptionAndPeriod(invoices + more, subscriptionId, start, end)
            == if found.Some? then found else GetBySubscriptionAndPeriod(more, subscriptionId, start, end)
  {
    if invoices == [] {
      assert invoices + more == more;
    } else {
      assert (invoices + more)[1..] == invoices[1..] + more;
      FirstInvoiceStays(invoices[1..], more, subscriptionId, start, end);
    }
  }

  /** The period of a bill: the current month unless both ends are given. */
  function Period(start: Option<Instant>, end: Option<Instant>, now: Instant): (Instant, Instant) {
    if start.None? || end.None? then MonthBounds(now) else (start.value, end.value)
  }

  /** What a bill for a period would say now, under the given plan. */
  function Draft(usage: seq<UsageEvent>, subscriptionId: Uuid, plan: Plan, start: Instant, end: Instant): Invoice {
    var total := GetTotalUsage(usage, subscriptionId, Some(start), Some(end));
    var overage := Overage(total, plan.usageLimit);
    Invoice(subscriptionId, plan.price, plan.usageLimit, total, overage,
            plan.price + overage * OVERAGE_PRICE, start, end)
  }

  /** The figures of a bill, or None when the subscription does not exist. */
  function Bill(t: Tables, subscriptionId: Uuid, periodStart: Option<Instant>, periodEnd: Option<Instant>,
                         now: Instant): (Tables, Option<Invoice>)
    requires ForeignKeys(t)
  {
    var found := GetById(t.subscriptions, subscriptionId);
    if found.None? then (t, None)
    else
      var plan := t.plans[t.subscriptions[found.value].planId];
      var (start, end) := Period(periodStart, periodEnd, now);
      var existing := GetBySubscriptionAndPeriod(t.invoices, subscriptionId, start, end);
      if existing.Some? then (t, existing)
      else
        var invoice := Draft(t.usage, subscriptionId, plan, start, end);
        (t.(invoices := t.invoices + [invoice]), Some(invoice))
  }

  predicate OneInvoicePerPeriod(invoices: seq<Invoice>) {
    forall i, j | 0 <= i < j < |invoices| ::
      !Covers(invoices[j], invoices[i].subscriptionId, invoices[i].periodStart, invoices[i].periodEnd)
  }

  /** A stored invoice's figures agree with one another. */
  predicate Consistent(i: Invoice) {
    && i.overage == Overage(i.totalUsage, i.usageLimit)
    && i.amountDue == i.planPrice + i.overage * OVERAGE_PRICE
  }

  /** Billing stores an invoice at most, for a period that had none, and
      answers the period's one invoice. */
  lemma BillingAppendsOnce(t: Tables, subscriptionId: Uuid, periodStart: Option<Instant>, periodEnd: Option<Instant>,
                           now: Instant)
    requires ForeignKeys(t) && OneInvoicePerPeriod(t.invoices)
    requires forall i | i in t.invoices :: Consistent(i)
    ensures var (t', bill) := Bill(t, subscriptionId, periodStart, periodEnd, now);
            var (start, end) := Period(periodStart, periodEnd, now);
            && t' == t.(invoices := t'.invoices)
            && t.invoices <= t'.invoices
            && |t'.invoices| <= |t.invoices| + 1
            && OneInvoicePerPeriod(t'.invoices)
            && (forall i | i in t'.invoices :: Consistent(i))
            && (bill.None? ==> t' == t)
            && (t' != t ==>
                  && Covers(bill.value, subscriptionId, start, end)
                  && bill.value.totalUsage
                     == GetTotalByType(t.usage, subscriptionId, ApiCall, Some(start), Some(end))
                      + GetTotalByType(t.usage, subscriptionId, Tokens, Some(start), Some(end))
                  && exists s :: && s in t.subscriptions && s.id == subscriptionId
                                 && bill.value.planPrice == t.plans[s.planId].price
                                 && bill.value.usageLimit == t.plans[s.planId].usageLimit)
            && (bill.Some? ==>
                  && bill.value in t'.invoices
                  && bill == GetBySubscriptionAndPeriod(t'.invoices, subscriptionId, start, end))
  {
    var (t', bill) := Bill(t, subscriptionId, periodStart, periodEnd, now);
    var (start, end) := Period(periodStart, periodEnd, now);
    TypesAddUp(t.usage, subscriptionId, Some(start), Some(end));
    if t' != t {
      assert t.subscriptions[GetById(t.subscriptions, subscriptionId).value] in t.subscriptions;
      assert t'.invoices[|t.invoices|] == bill.value;
      forall i | i in t.invoices
        ensures !Covers(bill.value, i.subscriptionId, i.periodStart, i.periodEnd)
      {
        assert !Covers(i, subscriptionId, start, end);
      }
      FirstInvoiceStays(t.invoices, [bill.value], subscriptionId, start, end);
    }
  }

  predicate StoredFor(invoices: seq<Invoice>, subscriptionId: Uuid, start: Instant, end: Instant) {
    exists i :: i in invoices && i.subscriptionId == subscriptionId && i.periodStart == start && i.periodEnd == end
  }

  /** What a bill says. Every known subscription gets one, for the period asked for or
      else the calendar month of now. A stored invoice of the period is answered
      as it is; otherwise one is stored that charges ten cents for each unit of the
      period's usage over the plan's limit. */
  lemma BillSays(t: Tables, subscriptionId: Uuid, periodStart: Option<Instant>, periodEnd: Option<Instant>,
                 now: Instant)
    requires Constraints(t)
    ensures var (t', bill) := Bill(t, subscriptionId, periodStart, periodEnd, now);
            match bill
            case None => t' == t && forall s | s in t.subscriptions :: s.id != subscriptionId
            case Some(i) =>
              && i.subscriptionId == subscriptionId
              && (if periodStart.Some? && periodEnd.Some? then
                    Some(i.periodStart) == periodStart && Some(i.periodEnd) == periodEnd
                  else
                    && i.periodStart == DateTime(now.year, now.month, 1, 0)
                    && i.periodEnd == if now.month == 12 then DateTime(now.year + 1, 1, 1, 0)
                                      else DateTime(now.year, now.month + 1, 1, 0))
              && (exists s :: s in t.subscriptions && s.id == subscriptionId)
              && if StoredFor(t.invoices, subscriptionId, i.periodStart, i.periodEnd) then
                   t' == t && i in t.invoices
                 else
                   && t' == t.(invoices := t.invoices + [i])
                   && i.totalUsage == GetTotalUsage(t.usage, subscriptionId, Some(i.periodStart), Some(i.periodEnd))
                   && forall s | s in t.subscriptions && s.id == subscriptionId ::
                        && i.planPrice == t.plans[s.planId].price
                        && i.usageLimit == t.plans[s.planId].usageLimit
                        && i.overage == (if i.totalUsage > t.plans[s.planId].usageLimit
                                         then i.totalUsage - t.plans[s.planId].usageLimit else 0)
                        && i.amountDue == t.plans[s.planId].price + 10 * i.overage
  {
    var found := GetById(t.subscriptions, subscriptionId);
    if found.Some? {
      assert t.subscriptions[found.value] in t.subscriptions;
      var (start, end) := Period(periodStart, periodEnd, now);
      var existing := GetBySubscriptionAndPeriod(t.invoices, subscriptionId, start, end);
      assert existing.Some? <==> StoredFor(t.invoices, subscriptionId, start, end) by {
        if StoredFor(t.invoices, subscriptionId, start, end) {
          var i :| i in t.invoices && i.subscriptionId == subscriptionId
                   && i.periodStart == start && i.periodEnd == end;
          assert Covers(i, subscriptionId, start, end);
        }
      }
    }
  }

  /** A period with a stored invoice answers it, wherever more invoices were appended. */
  lemma StoredBillAnswers(t: Tables, invoices: seq<Invoice>, stored: Invoice, subscriptionId: Uuid,
                          periodStart: Option<Instant>, periodEnd: Option<Instant>, now: Instant)
    requires ForeignKeys(t) && GetById(t.subscriptions, subscriptionId).Some? && invoices <= t.invoices
    requires var (start, end) := Period(periodStart, periodEnd, now);
             GetBySubscriptionAndPeriod(invoices, subscriptionId, start, end) == Some(stored)
    ensures Bill(t, subscriptionId, periodStart, periodEnd, now) == (t, Some(stored))
  {
    var (start, end) := Period(periodStart, periodEnd, now);
    var more := t.invoices[|invoices|..];
    assert t.invoices == invoices + more;
    FirstInvoiceStays(invoices, more, subscriptionId, start, end);
  }

  /** How far a frozen invoice can drift: recomputed after more usage was
      appended, a period under the same plan costs at least as much, and at most
      the overage price of what was appended to that period more. */
  lemma FrozenInvoiceDrift(usage: seq<UsageEvent>, later: seq<UsageEvent>, subscriptionId: Uuid, plan: Plan,
                           start: Instant, end: Instant)
    requires usage <= later
    ensures var stored := Draft(usage, subscriptionId, plan, start, end);
            var recomputed := Draft(later, subscriptionId, plan, start, end);
            var appended := GetTotalUsage(later[|usage|..], subscriptionId, Some(start), Some(end));
            && recomputed.totalUsage == stored.totalUsage + appended
            && stored.amountDue <= recomputed.amountDue <= stored.amountDue + 10 * appended
            && (stored.overage > 0 ==> recomputed.amountDue == stored.amountDue + 10 * appended)
  {
    SumOfPrefix(usage, later, Quantity(subscriptionId, None, Some(start), Some(end)));
  }

  class BillingService {
    const db: Session

    constructor (db: Session)
      ensures this.db == db
    {
      this.db := db;
    }

    method CalculateBill(subscriptionId: Uuid, periodStart: Option<Instant>, periodEnd: Option<Instant>,
                         now: Instant) returns (bill: Option<Invoice>)
      requires db.Clean()
      modifies db
      ensures db.Clean()
      ensures (db.committed, bill) == Bill(old(db.committed), subscriptionId, periodStart, periodEnd, now)
    {
      var found := GetById(db.committed.subscriptions, subscriptionId);
      if found.None? {
        return None;
      }
      var plan := db.committed.plans[db.committed.subscriptions[found.value].planId];
      var start, end;
      if periodStart.None? || periodEnd.None? {
        var month := MonthBounds(now);
        start, end := month.0, month.1;
      } else {
        start, end := periodStart.value, periodEnd.value;
      }
      var totalUsage := GetTotalUsage(db.committed.usage, subscriptionId, Some(start), Some(end));
      var overage := Max(totalUsage - plan.usageLimit, 0);
      var amountDue := plan.price + overage * OVERAGE_PRICE;
      var existing := GetBySubscriptionAndPeriod(db.committed.invoices, subscriptionId, start, end);
      if existing.Some? {
        return existing;
      }
      var invoice := Invoice(subscriptionId, plan.price, plan.usageLimit, totalUsage, overage, amountDue, start, end);
      db.pending := db.pending.(invoices := db.pending.invoices + [invoice]);
      var ok := db.Commit(true);
      return Some(invoice);
    }
  }
}
