/**
 Metering with quota (app/services/usage_service.py) and the insert it ends in
 (`UsageRepository.create`), first as a function of the tables and the two clock
 readings of one call, then as the services that mutate a session.
 */
module UsageService {
  import opened Dates
  import opened Models
  import opened Session
  import opened SubscriptionRepository
  import opened UsageRepository
  import opened UsageSchema

  datatype Answer =
    | Recorded(event: UsageEvent)
    | NotFound
    | NotActive(status: Status)
    | QuotaExceeded(limit: int, current: nat, requested: nat)

  /** The quota window is read off the clock at `checkAt`, the row's timestamp at
      `stampAt`; the calendar month may change in between. */
  function Record(t: Tables, r: Request, checkAt: Instant, stampAt: Instant): (result: (Tables, Answer))
    requires ForeignKeys(t)
  {
    var existing := GetByIdempotencyKey(t.usage, r.idempotencyKey);
    if existing.Some? then (t, Recorded(existing.value))
    else
      var found := GetById(t.subscriptions, r.subscriptionId);
      if found.None? then (t, NotFound)
      else
        var s := t.subscriptions[found.value];
        if s.status != Active then (t, NotActive(s.status))
        else
          var (start, end) := MonthBounds(checkAt);
          var current := GetTotalByType(t.usage, r.subscriptionId, r.usageType, Some(start), Some(end));
          var limit := LimitOf(t.plans[s.planId], r.usageType);
          if current + r.quantity > limit then (t, QuotaExceeded(limit, current, r.quantity))
          else
            var e := r.ToEvent(stampAt);
            (t.(usage := t.usage + [e]), Recorded(e))
  }

  predicate IsActive(t: Tables, subscriptionId: Uuid) {
    var found := GetById(t.subscriptions, subscriptionId);
    found.Some? && t.subscriptions[found.value].status == Active
  }

  /** The call is admitted: unseen key, active subscription, quota left. */
  predicate Admits(t: Tables, r: Request, checkAt: Instant)
    requires ForeignKeys(t)
  {
    var found := GetById(t.subscriptions, r.subscriptionId);
    && (forall e | e in t.usage :: e.idempotencyKey != r.idempotencyKey)
    && IsActive(t, r.subscriptionId)
    && MonthTotal(t.usage, r.subscriptionId, r.usageType, Month(checkAt)) + r.quantity
       <= LimitOf(t.plans[t.subscriptions[found.value].planId], r.usageType)
  }

  /** A row is inserted exactly for admitted calls, and only the usage table changes. */
  lemma RecordInsertsIffAdmitted(t: Tables, r: Request, checkAt: Instant, stampAt: Instant)
    requires ForeignKeys(t)
    ensures var (t', answer) := Record(t, r, checkAt, stampAt);
            && t' == t.(usage := if Admits(t, r, checkAt) then t.usage + [r.ToEvent(stampAt)] else t.usage)
            && (answer.Recorded? ==> answer.event in t'.usage && answer.event.idempotencyKey == r.idempotencyKey)
            && (answer.Recorded? <==> exists e :: e in t'.usage && e.idempotencyKey == r.idempotencyKey)
  {
    WindowTotalIsMonthTotal(t.usage, r.subscriptionId, r.usageType, checkAt);
    var (t', answer) := Record(t, r, checkAt, stampAt);
    if Admits(t, r, checkAt) {
      assert t'.usage[|t.usage|] == r.ToEvent(stampAt);
    }
  }

  /** Every refusal names its true reason; they are tried in this order. */
  lemma RefusalReasons(t: Tables, r: Request, checkAt: Instant, stampAt: Instant)
    requires Constraints(t)
    ensures var unseen := forall e | e in t.usage :: e.idempotencyKey != r.idempotencyKey;
            match Record(t, r, checkAt, stampAt).1
            case Recorded(_) => true
            case NotFound => unseen && forall s | s in t.subscriptions :: s.id != r.subscriptionId
            case NotActive(status) =>
              && unseen && status != Active
              && exists s :: s in t.subscriptions && s.id == r.subscriptionId && s.status == status
            case QuotaExceeded(limit, current, requested) =>
              && unseen && IsActive(t, r.subscriptionId)
              && current == MonthTotal(t.usage, r.subscriptionId, r.usageType, Month(checkAt))
              && requested == r.quantity && current + requested > limit
              && forall s | s in t.subscriptions && s.id == r.subscriptionId ::
                   limit == if r.usageType == Tokens then t.plans[s.planId].tokensLimit
                            else t.plans[s.planId].apiCallLimit
  {
    WindowTotalIsMonthTotal(t.usage, r.subscriptionId, r.usageType, checkAt);
    var found := GetById(t.subscriptions, r.subscriptionId);
    if found.Some? {
      assert t.subscriptions[found.value] in t.subscriptions;
    }
  }

  /** Keys stay unique, so the database accepts every insert `Record` makes. */
  lemma RecordKeepsConstraints(t: Tables, r: Request, checkAt: Instant, stampAt: Instant)
    requires Constraints(t)
    ensures Constraints(Record(t, r, checkAt, stampAt).0)
  {
    RecordInsertsIffAdmitted(t, r, checkAt, stampAt);
  }

  lemma LookupIsUnique(usage: seq<UsageEvent>, e: UsageEvent)
    requires UniqueKeys(usage) && e in usage
    ensures GetByIdempotencyKey(usage, e.idempotencyKey) == Some(e)
  {
  }

  /** The unique constraint rejects an append exactly when the key is taken. */
  lemma AppendRespectsKeys(usage: seq<UsageEvent>, e: UsageEvent)
    requires UniqueKeys(usage)
    ensures UniqueKeys(usage + [e]) <==> GetByIdempotencyKey(usage, e.idempotencyKey).None?
  {
    var found := GetByIdempotencyKey(usage, e.idempotencyKey);
    if found.Some? {
      var i :| 0 <= i < |usage| && usage[i] == found.value;
      assert (usage + [e])[i].idempotencyKey == (usage + [e])[|usage|].idempotencyKey;
    }
  }

  class UsageRows {
    const db: Session

    constructor (db: Session)
      ensures this.db == db
    {
      this.db := db;
    }

    /** Insert, or on a key conflict roll back and re-read the winner's row. */
    method Create(r: Request, now: Instant) returns (e: UsageEvent)
      requires db.Clean()
      modifies db
      ensures db.Clean()
      ensures var existing := GetByIdempotencyKey(old(db.committed).usage, r.idempotencyKey);
              && e == (if existing.Some? then existing.value else r.ToEvent(now))
              && db.committed == if existing.Some? then old(db.committed)
                                 else old(db.committed).(usage := old(db.committed).usage + [e])
    {
      e := r.ToEvent(now);
      AppendRespectsKeys(db.committed.usage, e);
      db.pending := db.pending.(usage := db.pending.usage + [e]);
      var ok := db.Commit(true);
      if !ok {
        db.Rollback();
        var existing := GetByIdempotencyKey(db.committed.usage, r.idempotencyKey);
        if existing.Some? {
          e := existing.value;
        } else {
          assert false;
        }
      }
    }
  }

  class UsageService {
    const db: Session
    const repository: UsageRows

    constructor (db: Session)
      ensures this.db == db && this.repository.db == db && fresh(this.repository)
    {
      this.db := db;
      this.repository := new UsageRows(db);
    }

    method RecordUsage(r: Request, checkAt: Instant, stampAt: Instant) returns (answer: Answer)
      requires repository.db == db && db.Clean()
      modifies db
      ensures db.Clean()
      ensures (db.committed, answer) == Record(old(db.committed), r, checkAt, stampAt)
    {
      var existing := GetByIdempotencyKey(db.committed.usage, r.idempotencyKey);
      if existing.Some? {
        return Recorded(existing.value);
      }
      var found := GetById(db.committed.subscriptions, r.subscriptionId);
      if found.None? {
        return NotFound;
      }
      var s := db.committed.subscriptions[found.value];
      if s.status != Active {
        return NotActive(s.status);
      }
      var (start, end) := MonthBounds(checkAt);
      var current := GetTotalByType(db.committed.usage, r.subscriptionId, r.usageType, Some(start), Some(end));
      var limit := if r.usageType == ApiCall then db.committed.plans[s.planId].apiCallLimit
                   else db.committed.plans[s.planId].tokensLimit;
      if current + r.quantity > limit {
        return QuotaExceeded(limit, current, r.quantity);
      }
      var e := repository.Create(r, stampAt);
      return Recorded(e);
    }
  }
}
