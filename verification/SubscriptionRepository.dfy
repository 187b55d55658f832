/**
 Lookups over the subscriptions table (app/repositories/subscription_repository.py).
 Each returns the position of the first matching row in table order.
 */
module SubscriptionRepository {
  import opened Models

  /** The first position from `from` whose row satisfies the filter. */
  function First(subscriptions: seq<Subscription>, filter: Subscription -> bool, from: nat := 0): (found: Option<nat>)
    requires from <= |subscriptions|
    ensures found.Some? ==>
              && from <= found.value < |subscriptions|
              && filter(subscriptions[found.value])
              && forall i | from <= i < found.value :: !filter(subscriptions[i])
    ensures found.None? ==> forall i | from <= i < |subscriptions| :: !filter(subscriptions[i])
    decreases |subscriptions| - from
  {
    if from == |subscriptions| then None
    else if filter(subscriptions[from]) then Some(from)
    else First(subscriptions, filter, from + 1)
  }

  function GetById(subscriptions: seq<Subscription>, id: Uuid): Option<nat> {
    First(subscriptions, (s: Subscription) => s.id == id)
  }

  function GetByTenant(subscriptions: seq<Subscription>, tenantId: Uuid): Option<nat> {
    First(subscriptions, (s: Subscription) => s.tenantId == tenantId)
  }

  function GetByStripeSubscriptionId(subscriptions: seq<Subscription>, stripeId: string): Option<nat> {
    First(subscriptions, (s: Subscription) => s.stripeSubscriptionId == Some(stripeId))
  }

  predicate Linked(s: Subscription) {
    s.stripeSubscriptionId.Some?
  }
}
