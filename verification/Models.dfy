/**
 The rows of the five tables (app/models) and the request and reply types that
 the services exchange. UUIDs are numbers; optional columns are Options.
 */
module Models {
  import opened Dates

  datatype Option<+T> = None | Some(value: T)

  type Uuid = nat

  datatype UsageType = ApiCall | Tokens

  datatype Status = Active | Cancelled | PastDue | Trialing

  datatype Plan = Plan(
    price: int,
    usageLimit: int,
    apiCallLimit: int,
    tokensLimit: int,
    stripePriceId: Option<string>)

  datatype Subscription = Subscription(
    id: Uuid,
    tenantId: Uuid,
    planId: Uuid,
    status: Status,
    stripeCustomerId: Option<string>,
    stripeSubscriptionId: Option<string>)

  datatype UsageEvent = UsageEvent(
    subscriptionId: Uuid,
    usageType: UsageType,
    quantity: nat,
    cachedInput: nat,
    input: nat,
    output: nat,
    reasoning: nat,
    idempotencyKey: string,
    createdAt: Instant)
  {
    function Breakdown(): nat {
      cachedInput + input + output + reasoning
    }
  }

  datatype Invoice = Invoice(
    subscriptionId: Uuid,
    planPrice: int,
    usageLimit: int,
    totalUsage: nat,
    overage: nat,
    amountDue: int,
    periodStart: Instant,
    periodEnd: Instant)

  datatype Marker = Marker(eventId: string, eventType: string)

  function LimitOf(plan: Plan, usageType: UsageType): int {
    if usageType == ApiCall then plan.apiCallLimit else plan.tokensLimit
  }

  /** Translate a Stripe subscription status (app/constants/subscription_status.py);
      anything unknown counts as active. */
  function FromStripeStatus(text: Option<string>): Status {
    if text == Some("trialing") then Trialing
    else if text == Some("past_due") || text == Some("unpaid") then PastDue
    else if text == Some("canceled") || text == Some("incomplete_expired") then Cancelled
    else Active
  }

  /** The translation is total: a subscription loses its right to record usage only
      for the five listed texts, and a missing status never does. */
  lemma StatusTable(text: Option<string>)
    ensures FromStripeStatus(text) == Trialing <==> text == Some("trialing")
    ensures FromStripeStatus(text) == PastDue <==> text in {Some("past_due"), Some("unpaid")}
    ensures FromStripeStatus(text) == Cancelled <==> text in {Some("canceled"), Some("incomplete_expired")}
    ensures FromStripeStatus(None) == Active
  {
  }
}
