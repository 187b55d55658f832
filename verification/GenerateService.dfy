/**
 The billable endpoint (app/services/generate_service.py): meter a response,
 then price the stored row.
 */
module GenerateService {
  import opened CostService
  import opened Dates
  import opened Models
  import opened Session
  import opened SubscriptionRepository
  import opened UsageRepository
  import opened UsageSchema
  import U = UsageService

  datatype Response =
    | Generated(event: UsageEvent, costMicro: nat)
    | Refused(reason: U.Answer)

  function Respond(answer: U.Answer): Response {
    if answer.Recorded? then Generated(answer.event, Quote(answer.event)) else Refused(answer)
  }

  function Serve(t: Tables, r: Request, checkAt: Instant, stampAt: Instant): (Tables, Response)
    requires ForeignKeys(t)
  {
    var (t', answer) := U.Record(t, r, checkAt, stampAt);
    (t', Respond(answer))
  }

  /** A first call under a key stores the body's breakdown, stamped at the insert,
      and quotes its price: cached input at 1000 micro-units a started block,
      fresh input at 3000, output and reasoning together at 6000. */
  lemma FirstCallQuotesBody(t: Tables, r: Request, checkAt: Instant, stampAt: Instant)
    requires ForeignKeys(t) && GetByIdempotencyKey(t.usage, r.idempotencyKey).None?
    requires Serve(t, r, checkAt, stampAt).1.Generated?
    ensures var (t', response) := Serve(t, r, checkAt, stampAt);
            var e := response.event;
            && t'.usage == t.usage + [e]
            && e.subscriptionId == r.subscriptionId && e.usageType == r.usageType && e.createdAt == stampAt
            && (e.quantity, e.cachedInput, e.input) == (r.quantity, r.cachedInput, r.input)
            && (e.output, e.reasoning, e.idempotencyKey) == (r.output, r.reasoning, r.idempotencyKey)
            && response.costMicro == 1000 * ((r.cachedInput + 999) / 1000) + 3000 * ((r.input + 999) / 1000)
                                   + 6000 * ((r.output + r.reasoning + 999) / 1000)
  {
    U.RecordInsertsIffAdmitted(t, r, checkAt, stampAt);
  }

  /** A call is answered with an event exactly when its key is recorded afterwards,
      and then with that key's row and the price of the row's categories. A refusal
      changes nothing and names its true reason. */
  lemma GenerateAnswers(t: Tables, r: Request, checkAt: Instant, stampAt: Instant)
    requires Constraints(t)
    ensures var (t', response) := Serve(t, r, checkAt, stampAt);
            var known := exists e :: e in t.usage && e.idempotencyKey == r.idempotencyKey;
            && (response.Generated? <==> exists e :: e in t'.usage && e.idempotencyKey == r.idempotencyKey)
            && (known ==> t' == t)
            && match response
               case Generated(e, costMicro) =>
                 && e in t'.usage && e.idempotencyKey == r.idempotencyKey
                 && costMicro == 1000 * ((e.cachedInput + 999) / 1000) + 3000 * ((e.input + 999) / 1000)
                               + 6000 * ((e.output + e.reasoning + 999) / 1000)
               case Refused(reason) =>
                 && t' == t && !known
                 && match reason
                    case Recorded(_) => false
                    case NotFound => forall s | s in t.subscriptions :: s.id != r.subscriptionId
                    case NotActive(status) =>
                      && status != Active
                      && exists s :: s in t.subscriptions && s.id == r.subscriptionId && s.status == status
                    case QuotaExceeded(limit, current, requested) =>
                      && current == MonthTotal(t.usage, r.subscriptionId, r.usageType, Month(checkAt))
                      && requested == r.quantity && current + requested > limit
                      && exists s :: && s in t.subscriptions && s.id == r.subscriptionId && s.status == Active
                                     && limit == if r.usageType == Tokens then t.plans[s.planId].tokensLimit
                                                 else t.plans[s.planId].apiCallLimit
  {
    U.RecordInsertsIffAdmitted(t, r, checkAt, stampAt);
    U.RefusalReasons(t, r, checkAt, stampAt);
    var found := GetById(t.subscriptions, r.subscriptionId);
    if found.Some? {
      assert t.subscriptions[found.value] in t.subscriptions;
    }
  }

  /** Once a key has been generated, every later call with it answers the same
      event and cost and changes nothing, whatever was appended, whichever
      statuses or plans changed, and whatever the retry's body says. */
  lemma RetryMirrorsResponse(t: Tables, r: Request, checkAt: Instant, stampAt: Instant,
                             later: Tables, retry: Request, checkAt': Instant, stampAt': Instant)
    requires ForeignKeys(t) && Serve(t, r, checkAt, stampAt).1.Generated?
    requires Constraints(later) && Serve(t, r, checkAt, stampAt).0.usage <= later.usage
    requires retry.idempotencyKey == r.idempotencyKey
    ensures Serve(later, retry, checkAt', stampAt') == (later, Serve(t, r, checkAt, stampAt).1)
  {
    U.RecordInsertsIffAdmitted(t, r, checkAt, stampAt);
    var e := Serve(t, r, checkAt, stampAt).1.event;
    var i :| 0 <= i < |Serve(t, r, checkAt, stampAt).0.usage| && Serve(t, r, checkAt, stampAt).0.usage[i] == e;
    assert later.usage[i] == e;
    U.LookupIsUnique(later.usage, e);
  }

  class GenerateService {
    const db: Session
    const usageService: U.UsageService

    constructor (db: Session)
      ensures this.db == db && usageService.db == db && usageService.repository.db == db
      ensures fresh(usageService) && fresh(usageService.repository)
    {
      this.db := db;
      this.usageService := new U.UsageService(db);
    }

    method Generate(body: TokenUsageCreate, checkAt: Instant, stampAt: Instant) returns (response: Response)
      requires usageService.db == db && usageService.repository.db == db && db.Clean()
      requires 0 <= body.quantity
      modifies db
      ensures db.Clean()
      ensures (db.committed, response) == Serve(old(db.committed), body.Validated(), checkAt, stampAt)
    {
      var answer := usageService.RecordUsage(body.Validated(), checkAt, stampAt);
      match answer
      case Recorded(e) =>
        var cost := TokenCost(e.cachedInput, e.input, e.output, e.reasoning);
        response := Generated(e, cost);
      case _ =>
        response := Refused(answer);
    }
  }
}
