/**
 The database as a service sees it: committed tables, a session's pending
 changes, and a commit that either installs all of them or none.
 */
module Session {
  import opened Models

  /** `planByPrice` is the plan that a lookup by Stripe price id finds; several
      plans may carry the same price, and the database picks one of them. */
  datatype Tables = Tables(
    tenants: set<Uuid>,
    plans: map<Uuid, Plan>,
    planByPrice: map<string, Uuid>,
    subscriptions: seq<Subscription>,
    usage: seq<UsageEvent>,
    invoices: seq<Invoice>,
    markers: seq<Marker>)

  predicate UniqueKeys(usage: seq<UsageEvent>) {
    forall i, j | 0 <= i < j < |usage| :: usage[i].idempotencyKey != usage[j].idempotencyKey
  }

  predicate UniqueMarkers(markers: seq<Marker>) {
    forall i, j | 0 <= i < j < |markers| :: markers[i].eventId != markers[j].eventId
  }

  predicate UniqueIds(subscriptions: seq<Subscription>) {
    forall i, j | 0 <= i < j < |subscriptions| :: subscriptions[i].id != subscriptions[j].id
  }

  /** A unique constraint ignores NULLs. */
  predicate UniqueLinks(subscriptions: seq<Subscription>) {
    forall i, j | 0 <= i < j < |subscriptions| ::
      subscriptions[i].stripeSubscriptionId.Some? ==>
        subscriptions[i].stripeSubscriptionId != subscriptions[j].stripeSubscriptionId
  }

  predicate ForeignKeys(t: Tables) {
    forall i | 0 <= i < |t.subscriptions| ::
      t.subscriptions[i].planId in t.plans && t.subscriptions[i].tenantId in t.tenants
  }

  predicate PriceIndex(t: Tables) {
    && (forall p | p in t.planByPrice ::
          t.planByPrice[p] in t.plans && t.plans[t.planByPrice[p]].stripePriceId == Some(p))
    && (forall id | id in t.plans ::
          t.plans[id].stripePriceId.Some? ==> t.plans[id].stripePriceId.value in t.planByPrice)
  }

  predicate Constraints(t: Tables) {
    && UniqueKeys(t.usage)
    && UniqueMarkers(t.markers)
    && UniqueIds(t.subscriptions)
    && UniqueLinks(t.subscriptions)
    && ForeignKeys(t)
    && PriceIndex(t)
  }

  /** One SQLAlchemy session over the shared database. */
  class Session {
    var committed: Tables
    var pending: Tables

    constructor (tables: Tables)
      ensures committed == pending == tables
    {
      committed, pending := tables, tables;
    }

    /** No change is waiting to be committed, and the database meets its constraints. */
    ghost predicate Clean()
      reads this
    {
      pending == committed && Constraints(committed)
    }

    /** `available` is false when the database itself fails the commit. */
    method Commit(available: bool) returns (ok: bool)
      modifies this`committed
      ensures ok == (available && Constraints(pending))
      ensures committed == if ok then pending else old(committed)
    {
      ok := available && Constraints(pending);
      if ok {
        committed := pending;
      }
    }

    method Rollback()
      modifies this`pending
      ensures pending == committed
    {
      pending := committed;
    }
  }
}
