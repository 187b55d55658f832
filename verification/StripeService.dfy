/**
 Stripe webhooks (app/services/stripe_service.py): a replay-protected event
 processor whose marker row commits together with the subscription changes.
 */
module StripeService {
  import opened Models
  import opened Session
  import opened SubscriptionRepository
  import opened Sums

  /** The parts of an event the handler reads. None stands for a missing key or,
      for the two metadata ids, for text that is not a UUID. */
  datatype Payload =
    | CheckoutCompleted(tenantId: Option<Uuid>, planId: Option<Uuid>,
                        customer: Option<string>, subscription: Option<string>)
    | SubscriptionUpdated(stripeId: Option<string>, status: Option<string>, items: Option<seq<Option<string>>>)
    | SubscriptionDeleted(stripeId: Option<string>)
    | Unhandled
    | WithoutObject

  datatype Event = Event(id: string, eventType: string, payload: Payload)

  /** One POST to the webhook endpoint: whether a secret is configured, whether
      the signature verifies, the uuid a new row would draw, and whether the
      database accepts the commit. */
  datatype Delivery = Delivery(configured: bool, signed: bool, event: Event, newId: Uuid, available: bool)

  datatype Reply = NotConfigured | BadSignature | Accepted | ProcessingFailed

  /** Python truth of an optional string. */
  predicate Truthy(text: Option<string>) {
    text.Some? && text.value != ""
  }

  function PriceIdFromItems(items: Option<seq<Option<string>>>): Option<string> {
    if items.Some? && |items.value| > 0 then items.value[0] else None
  }

  predicate Marked(markers: seq<Marker>, eventId: string) {
    exists i | 0 <= i < |markers| :: markers[i].eventId == eventId
  }

  // ---- processing one event ----

  function CheckedOut(s: Subscription, planId: Uuid,
                      customer: Option<string>, subscription: Option<string>): Subscription {
    s.(planId := planId,
       status := Active,
       stripeCustomerId := if Truthy(customer) then customer else s.stripeCustomerId,
       stripeSubscriptionId := if Truthy(subscription) then subscription else s.stripeSubscriptionId)
  }

  function SyncFromCheckout(t: Tables, tenantId: Uuid, planId: Uuid, customer: Option<string>,
                            subscription: Option<string>, newId: Uuid): seq<Subscription> {
    var found := GetByTenant(t.subscriptions, tenantId);
    if found.None? then
      t.subscriptions
      + [CheckedOut(Subscription(newId, tenantId, planId, Active, None, None), planId, customer, subscription)]
    else
      t.subscriptions[found.value := CheckedOut(t.subscriptions[found.value], planId, customer, subscription)]
  }

  function SyncSubscriptionStatus(t: Tables, stripeId: Option<string>, status: Option<string>,
                                  items: Option<seq<Option<string>>>): seq<Subscription> {
    if !Truthy(stripeId) then t.subscriptions
    else
      var found := GetByStripeSubscriptionId(t.subscriptions, stripeId.value);
      if found.None? then t.subscriptions
      else
        var s := t.subscriptions[found.value].(status := FromStripeStatus(status));
        var price := PriceIdFromItems(items);
        var s' := if Truthy(price) && price.value in t.planByPrice
                  then s.(planId := t.planByPrice[price.value]) else s;
        t.subscriptions[found.value := s']
  }

  function CancelSubscription(t: Tables, stripeId: Option<string>): seq<Subscription> {
    if !Truthy(stripeId) then t.subscriptions
    else
      var found := GetByStripeSubscriptionId(t.subscriptions, stripeId.value);
      if found.None? then t.subscriptions
      else t.subscriptions[found.value := t.subscriptions[found.value].(status := Cancelled)]
  }

  /** The subscriptions an event leaves behind, or None when the handler raises. */
  function ProcessEvent(t: Tables, payload: Payload, newId: Uuid): Option<seq<Subscription>> {
    match payload
    case CheckoutCompleted(tenantId, planId, customer, subscription) =>
      if tenantId.None? || planId.None? then None
      else Some(SyncFromCheckout(t, tenantId.value, planId.value, customer, subscription, newId))
    case SubscriptionUpdated(stripeId, status, items) => Some(SyncSubscriptionStatus(t, stripeId, status, items))
    case SubscriptionDeleted(stripeId) => Some(CancelSubscription(t, stripeId))
    case Unhandled => Some(t.subscriptions)
    case WithoutObject => None
  }

  /** The tables the session would commit for a delivery. */
  function Staged(t: Tables, d: Delivery): Option<Tables> {
    var subscriptions := ProcessEvent(t, d.event.payload, d.newId);
    if subscriptions.None? then None
    else Some(t.(markers := t.markers + [Marker(d.event.id, d.event.eventType)],
                 subscriptions := subscriptions.value))
  }

  function Deliver(t: Tables, d: Delivery): (Tables, Reply) {
    if !d.configured then (t, NotConfigured)
    else if !d.signed then (t, BadSignature)
    else if Marked(t.markers, d.event.id) then (t, Accepted)
    else
      var staged := Staged(t, d);
      if staged.Some? && d.available && Constraints(staged.value)
      then (staged.value, Accepted)
      else (t, ProcessingFailed)
  }

  // ---- one delivery ----

  /** All or nothing: only an accepted delivery of an unseen event changes the
      tables, and then it leaves exactly one more marker, its own. */
  lemma DeliveryIsAtomic(t: Tables, d: Delivery)
    requires Constraints(t)
    ensures var (t', reply) := Deliver(t, d);
            var commits := reply.Accepted? && !Marked(t.markers, d.event.id);
            && Constraints(t')
            && (commits ==> Staged(t, d) == Some(t'))
            && (!commits ==> t' == t)
            && t' == t.(subscriptions := t'.subscriptions,
                        markers := if commits then t.markers + [Marker(d.event.id, d.event.eventType)] else t.markers)
            && (reply.Accepted? ==> Marked(t'.markers, d.event.id))
  {
    var (t', reply) := Deliver(t, d);
    if reply.Accepted? && !Marked(t.markers, d.event.id) {
      assert t'.markers[|t.markers|].eventId == d.event.id;
    }
  }

  // ---- which deliveries are accepted ----

  /** The handler can make sense of the event: it has an object, and a checkout names
      its tenant and its plan. */
  predicate Processable(p: Payload) {
    !p.WithoutObject? && (p.CheckoutCompleted? ==> p.tenantId.Some? && p.planId.Some?)
  }

  /** The database can take a checkout: tenant and plan exist, the id a new row would
      get is free, and the Stripe id belongs to no row but the tenant's first. */
  predicate Storable(t: Tables, p: Payload, newId: Uuid) {
    p.CheckoutCompleted? && p.tenantId.Some? && p.planId.Some? ==>
      var tenantId := p.tenantId.value;
      && tenantId in t.tenants && p.planId.value in t.plans
      && ((forall s | s in t.subscriptions :: s.tenantId != tenantId) ==>
            forall s | s in t.subscriptions :: s.id != newId)
      && (Given(p.subscription) ==>
            forall i | 0 <= i < |t.subscriptions| && t.subscriptions[i].stripeSubscriptionId == p.subscription ::
              && t.subscriptions[i].tenantId == tenantId
              && forall j | 0 <= j < i :: t.subscriptions[j].tenantId != tenantId)
  }

  lemma RowKeepsConstraints(t: Tables, k: nat, s: Subscription)
    requires Constraints(t) && k < |t.subscriptions|
    requires s.id == t.subscriptions[k].id && s.tenantId == t.subscriptions[k].tenantId
    ensures Constraints(t.(subscriptions := t.subscriptions[k := s])) <==>
              && s.planId in t.plans
              && (s.stripeSubscriptionId.Some? ==>
                    forall i | 0 <= i < |t.subscriptions| && i != k ::
                      t.subscriptions[i].stripeSubscriptionId != s.stripeSubscriptionId)
  {
    var after := t.subscriptions[k := s];
    if Constraints(t.(subscriptions := after)) {
      assert after[k] == s;
      forall i | 0 <= i < |t.subscriptions| && i != k && s.stripeSubscriptionId.Some?
        ensures t.subscriptions[i].stripeSubscriptionId != s.stripeSubscriptionId
      {
        assert after[i] == t.subscriptions[i];
        if i < k {
          assert after[i].stripeSubscriptionId.Some? ==> after[i].stripeSubscriptionId != after[k].stripeSubscriptionId;
        } else {
          assert after[k].stripeSubscriptionId != after[i].stripeSubscriptionId;
        }
      }
    }
  }

  lemma NewRowKeepsConstraints(t: Tables, s: Subscription)
    requires Constraints(t)
    ensures Constraints(t.(subscriptions := t.subscriptions + [s])) <==>
              && s.planId in t.plans && s.tenantId in t.tenants
              && (forall r | r in t.subscriptions :: r.id != s.id)
              && (s.stripeSubscriptionId.Some? ==>
                    forall r | r in t.subscriptions :: r.stripeSubscriptionId != s.stripeSubscriptionId)
  {
    var after := t.subscriptions + [s];
    assert after[|t.subscriptions|] == s;
    if Constraints(t.(subscriptions := after)) {
      forall r | r in t.subscriptions
        ensures r.id != s.id
        ensures s.stripeSubscriptionId.Some? ==> r.stripeSubscriptionId != s.stripeSubscriptionId
      {
        var i :| 0 <= i < |t.subscriptions| && t.subscriptions[i] == r;
        assert after[i] == r;
      }
    }
  }

  /** The subscriptions a processable event leaves meet the constraints exactly when
      the event is storable; only a checkout can fail to be. */
  lemma StorableKeepsConstraints(t: Tables, p: Payload, newId: Uuid)
    requires Constraints(t) && Processable(p)
    ensures ProcessEvent(t, p, newId).Some?
    ensures Constraints(t.(subscriptions := ProcessEvent(t, p, newId).value)) <==> Storable(t, p, newId)
  {
    var rows, after := t.subscriptions, ProcessEvent(t, p, newId).value;
    match p
    case CheckoutCompleted(tenantId, planId, _, _) =>
      var found := GetByTenant(rows, tenantId.value);
      if found.Some? {
        assert rows[found.value] in rows;
        RowKeepsConstraints(t, found.value, after[found.value]);
        FirstRowOnly(t, p, found.value, after[found.value]);
      } else {
        NewRowKeepsConstraints(t, after[|rows|]);
        assert forall i | 0 <= i < |rows| :: rows[i] in rows;
      }
    case SubscriptionUpdated(stripeId, _, _) =>
      if after != rows {
        var k := GetByStripeSubscriptionId(rows, stripeId.value).value;
        RowKeepsConstraints(t, k, after[k]);
      }
    case SubscriptionDeleted(stripeId) =>
      if after != rows {
        var k := GetByStripeSubscriptionId(rows, stripeId.value).value;
        RowKeepsConstraints(t, k, after[k]);
      }
    case Unhandled =>
  }

  lemma FirstRowOnly(t: Tables, p: Payload, k: nat, s: Subscription)
    requires Constraints(t) && p.CheckoutCompleted? && p.tenantId.Some? && k < |t.subscriptions|
    requires GetByTenant(t.subscriptions, p.tenantId.value) == Some(k)
    requires s.stripeSubscriptionId == (if Truthy(p.subscription) then p.subscription
                                        else t.subscriptions[k].stripeSubscriptionId)
    ensures (s.stripeSubscriptionId.Some? ==>
               forall i | 0 <= i < |t.subscriptions| && i != k ::
                 t.subscriptions[i].stripeSubscriptionId != s.stripeSubscriptionId)
            <==>
            (Given(p.subscription) ==>
               forall i | 0 <= i < |t.subscriptions| && t.subscriptions[i].stripeSubscriptionId == p.subscription ::
                 && t.subscriptions[i].tenantId == p.tenantId.value
                 && forall j | 0 <= j < i :: t.subscriptions[j].tenantId != p.tenantId.value)
  {
  }

  lemma MarkerKeepsConstraints(t: Tables, subscriptions: seq<Subscription>, m: Marker)
    requires Constraints(t) && !Marked(t.markers, m.eventId)
    ensures Constraints(t.(markers := t.markers + [m], subscriptions := subscriptions))
            <==> Constraints(t.(subscriptions := subscriptions))
  {
  }

  /** The reply to every delivery, case by case. A delivery that is not accepted, or
      whose event was accepted before, changes nothing; any other accepted one adds
      its marker. An event of a type that is not handled is accepted. */
  lemma DeliveryReply(t: Tables, d: Delivery)
    requires Constraints(t)
    ensures var (t', reply) := Deliver(t, d);
            var seen := exists m :: m in t.markers && m.eventId == d.event.id;
            var p := d.event.payload;
            && reply == (if !d.configured then NotConfigured
                         else if !d.signed then BadSignature
                         else if seen || (Processable(p) && d.available && Storable(t, p, d.newId)) then Accepted
                         else ProcessingFailed)
            && (reply != Accepted || seen ==> t' == t)
            && (reply == Accepted && !seen ==> t'.markers == t.markers + [Marker(d.event.id, d.event.eventType)])
            && (d.configured && d.signed && d.available && p.Unhandled? && !seen ==>
                  reply == Accepted && t' == t.(markers := t.markers + [Marker(d.event.id, d.event.eventType)]))
  {
    MarkedIsSeen(t.markers, d.event.id);
    if Processable(d.event.payload) && !Marked(t.markers, d.event.id) {
      var after := ProcessEvent(t, d.event.payload, d.newId);
      StorableKeepsConstraints(t, d.event.payload, d.newId);
      MarkerKeepsConstraints(t, after.value, Marker(d.event.id, d.event.eventType));
    }
  }

  lemma MarkedIsSeen(markers: seq<Marker>, eventId: string)
    ensures Marked(markers, eventId) <==> exists m :: m in markers && m.eventId == eventId
  {
    if Marked(markers, eventId) {
      var i :| 0 <= i < |markers| && markers[i].eventId == eventId;
      assert markers[i] in markers;
    }
  }

  predicate SameExcept(before: seq<Subscription>, after: seq<Subscription>, k: int) {
    forall i | 0 <= i < |after| && i != k :: i < |before| && after[i] == before[i]
  }

  /** Every row keeps its id and tenant, and at most one row is new or rewritten. */
  ghost predicate TouchesOneRow(before: seq<Subscription>, after: seq<Subscription>) {
    && |before| <= |after| <= |before| + 1
    && (forall i | 0 <= i < |before| :: after[i].id == before[i].id && after[i].tenantId == before[i].tenantId)
    && exists k :: SameExcept(before, after, k)
  }

  lemma EventTouchesOneRow(t: Tables, payload: Payload, newId: Uuid)
    requires ProcessEvent(t, payload, newId).Some?
    ensures TouchesOneRow(t.subscriptions, ProcessEvent(t, payload, newId).value)
  {
    var before, after := t.subscriptions, ProcessEvent(t, payload, newId).value;
    if |after| > |before| {
      assert SameExcept(before, after, |before|);
    } else if after == before {
      assert SameExcept(before, after, -1);
    } else {
      var k :| 0 <= k < |before| && after[k] != before[k];
      assert SameExcept(before, after, k);
    }
  }

  lemma DeliveryTouchesOneRow(t: Tables, d: Delivery)
    ensures TouchesOneRow(t.subscriptions, Deliver(t, d).0.subscriptions)
  {
    assert SameExcept(t.subscriptions, t.subscriptions, -1);
    if ProcessEvent(t, d.event.payload, d.newId).Some? {
      EventTouchesOneRow(t, d.event.payload, d.newId);
    }
  }

  /** A text that is there and not empty. */
  predicate Given(text: Option<string>) {
    text !in {None, Some("")}
  }

  /** A checkout reuses its tenant's first row if there is one and otherwise inserts
      one; that row is active, on the bought plan, and linked as far as the session
      says. */
  ghost predicate ChecksOut(before: seq<Subscription>, after: seq<Subscription>, tenantId: Uuid, planId: Uuid,
                            customer: Option<string>, subscription: Option<string>, newId: Uuid) {
    exists i ::
      && 0 <= i < |after| && SameExcept(before, after, i)
      && after[i].tenantId == tenantId && after[i].planId == planId && after[i].status == Active
      && (Given(customer) ==> after[i].stripeCustomerId == customer)
      && (Given(subscription) ==> after[i].stripeSubscriptionId == subscription)
      && (forall j | 0 <= j < i && j < |before| :: before[j].tenantId != tenantId)
      && if exists s :: s in before && s.tenantId == tenantId then
           && |after| == |before|
           && before[i].tenantId == tenantId && after[i].id == before[i].id
           && (!Given(customer) ==> after[i].stripeCustomerId == before[i].stripeCustomerId)
           && (!Given(subscription) ==> after[i].stripeSubscriptionId == before[i].stripeSubscriptionId)
         else
           && |after| == |before| + 1 && i == |before| && after[i].id == newId
           && (!Given(customer) ==> after[i].stripeCustomerId.None?)
           && (!Given(subscription) ==> after[i].stripeSubscriptionId.None?)
  }

  /** An update sets the status of the row with its Stripe id, and its plan if the
      first item's price names one. */
  predicate Updates(before: seq<Subscription>, after: seq<Subscription>, planByPrice: map<string, Uuid>,
                    stripeId: Option<string>, status: Option<string>, items: Option<seq<Option<string>>>) {
    && |after| == |before|
    && forall i | 0 <= i < |before| ::
         if Given(stripeId) && before[i].stripeSubscriptionId == stripeId then
           && after[i] == before[i].(status := FromStripeStatus(status), planId := after[i].planId)
           && after[i].planId
              == if items.Some? && items.value != [] && Given(items.value[0]) && items.value[0].value in planByPrice
                 then planByPrice[items.value[0].value] else before[i].planId
         else after[i] == before[i]
  }

  /** A deletion cancels the row with its Stripe id. */
  predicate Deletes(before: seq<Subscription>, after: seq<Subscription>, stripeId: Option<string>) {
    && |after| == |before|
    && forall i | 0 <= i < |before| ::
         after[i] == if Given(stripeId) && before[i].stripeSubscriptionId == stripeId
                     then before[i].(status := Cancelled) else before[i]
  }

  lemma CheckoutEffect(t: Tables, payload: Payload, newId: Uuid)
    requires payload.CheckoutCompleted? && ProcessEvent(t, payload, newId).Some?
    ensures payload.tenantId.Some? && payload.planId.Some?
    ensures ChecksOut(t.subscriptions, ProcessEvent(t, payload, newId).value, payload.tenantId.value,
                      payload.planId.value, payload.customer, payload.subscription, newId)
  {
    var before, after := t.subscriptions, ProcessEvent(t, payload, newId).value;
    var found := GetByTenant(before, payload.tenantId.value);
    var i := if found.Some? then found.value else |before|;
    assert SameExcept(before, after, i);
  }

  lemma UpdateEffect(t: Tables, payload: Payload, newId: Uuid)
    requires Constraints(t) && payload.SubscriptionUpdated?
    ensures Updates(t.subscriptions, ProcessEvent(t, payload, newId).value, t.planByPrice,
                    payload.stripeId, payload.status, payload.items)
  {
  }

  lemma DeleteEffect(t: Tables, payload: Payload, newId: Uuid)
    requires Constraints(t) && payload.SubscriptionDeleted?
    ensures Deletes(t.subscriptions, ProcessEvent(t, payload, newId).value, payload.stripeId)
  {
  }

  /** What a committed event means, row by row; no other event changes anything. */
  lemma EventEffect(t: Tables, payload: Payload, newId: Uuid)
    requires Constraints(t) && ProcessEvent(t, payload, newId).Some?
    ensures var before, after := t.subscriptions, ProcessEvent(t, payload, newId).value;
            match payload
            case CheckoutCompleted(tenantId, planId, customer, subscription) =>
              && tenantId.Some? && planId.Some?
              && ChecksOut(before, after, tenantId.value, planId.value, customer, subscription, newId)
            case SubscriptionUpdated(stripeId, status, items) =>
              Updates(before, after, t.planByPrice, stripeId, status, items)
            case SubscriptionDeleted(stripeId) => Deletes(before, after, stripeId)
            case _ => after == before
  {
    match payload
    case CheckoutCompleted(_, _, _, _) => CheckoutEffect(t, payload, newId);
    case SubscriptionUpdated(_, _, _) => UpdateEffect(t, payload, newId);
    case SubscriptionDeleted(_) => DeleteEffect(t, payload, newId);
    case _ =>
  }

  function OfTenant(tenantId: Uuid): Subscription -> nat {
    (s: Subscription) => if s.tenantId == tenantId then 1 else 0
  }

  function TenantCount(subscriptions: seq<Subscription>, tenantId: Uuid): nat {
    Sum(subscriptions, OfTenant(tenantId))
  }

  lemma {:induction false} NoRowsNoCount(subscriptions: seq<Subscription>, tenantId: Uuid)
    ensures TenantCount(subscriptions, tenantId) == 0 <==> GetByTenant(subscriptions, tenantId).None?
  {
    if subscriptions != [] {
      var init, last := subscriptions[..|subscriptions| - 1], subscriptions[|subscriptions| - 1];
      NoRowsNoCount(init, tenantId);
      assert subscriptions == init + [last];
    }
  }

  /** A committed checkout leaves its tenant with max(previous count, 1)
      subscriptions; no event changes any other tenant's count. */
  lemma CheckoutCount(t: Tables, d: Delivery, tenantId: Uuid)
    requires Deliver(t, d).0 != t
    ensures var before := TenantCount(t.subscriptions, tenantId);
            var after := TenantCount(Deliver(t, d).0.subscriptions, tenantId);
            if d.event.payload.CheckoutCompleted? && d.event.payload.tenantId == Some(tenantId)
            then after == (if before == 0 then 1 else before)
            else after == before
  {
    NoRowsNoCount(t.subscriptions, tenantId);
    var before, after := t.subscriptions, Deliver(t, d).0.subscriptions;
    match d.event.payload {
      case CheckoutCompleted(owner, planId, customer, subscription) =>
        var found := GetByTenant(before, owner.value);
        if found.None? {
          SumAppend(before, after[|before|], OfTenant(tenantId));
        } else {
          SumUpdate(before, found.value, after[found.value], OfTenant(tenantId));
        }
      case SubscriptionUpdated(stripeId, _, _) =>
        SameTenantsSameCount(before, after, tenantId);
      case SubscriptionDeleted(stripeId) =>
        SameTenantsSameCount(before, after, tenantId);
      case _ =>
    }
  }

  lemma {:induction false} SameTenantsSameCount(before: seq<Subscription>, after: seq<Subscription>, tenantId: Uuid)
    requires |before| == |after|
    requires forall i | 0 <= i < |before| :: before[i].tenantId == after[i].tenantId
    ensures TenantCount(before, tenantId) == TenantCount(after, tenantId)
  {
    if before != [] {
      SameTenantsSameCount(before[..|before| - 1], after[..|after| - 1], tenantId);
    }
  }

  // ---- sequences of deliveries ----

  function DeliverAll(t: Tables, ds: seq<Delivery>): Tables
    decreases |ds|
  {
    if ds == [] then t else DeliverAll(Deliver(t, ds[0]).0, ds[1..])
  }

  function Ids(markers: seq<Marker>): set<string> {
    set i | 0 <= i < |markers| :: markers[i].eventId
  }

  /** The first accepted delivery of each event id not in `seen`, in order. */
  function FirstAccepted(t: Tables, ds: seq<Delivery>, seen: set<string>): seq<Delivery>
    decreases |ds|
  {
    if ds == [] then []
    else
      var (t', reply) := Deliver(t, ds[0]);
      if reply.Accepted? && ds[0].event.id !in seen
      then [ds[0]] + FirstAccepted(t', ds[1..], seen + {ds[0].event.id})
      else FirstAccepted(t', ds[1..], seen)
  }

  function MarkersOf(ds: seq<Delivery>): seq<Marker> {
    seq(|ds|, i requires 0 <= i < |ds| => Marker(ds[i].event.id, ds[i].event.eventType))
  }

  /** Replays and failures leave no trace: the committed tables are those of
      processing only the first accepted delivery of each event id, and the new
      markers are exactly theirs. */
  lemma {:induction false} ReplaysAndFailuresErased(t: Tables, ds: seq<Delivery>)
    requires Constraints(t)
    ensures var kept := FirstAccepted(t, ds, Ids(t.markers));
            && DeliverAll(t, ds) == DeliverAll(t, kept)
            && DeliverAll(t, ds).markers == t.markers + MarkersOf(kept)
            && Constraints(DeliverAll(t, ds))
    decreases |ds|
  {
    if ds == [] {
    } else {
      var d := ds[0];
      var (t', reply) := Deliver(t, d);
      DeliveryIsAtomic(t, d);
      ReplaysAndFailuresErased(t', ds[1..]);
      var rest := FirstAccepted(t', ds[1..], Ids(t'.markers));
      if reply.Accepted? && d.event.id !in Ids(t.markers) {
        assert Ids(t'.markers) == Ids(t.markers) + {d.event.id} by {
          assert t'.markers == t.markers + [Marker(d.event.id, d.event.eventType)];
          assert forall i | 0 <= i < |t.markers| :: t'.markers[i] == t.markers[i];
          assert t'.markers[|t.markers|].eventId == d.event.id;
        }
        assert ([d] + rest)[1..] == rest;
        assert MarkersOf([d] + rest) == [Marker(d.event.id, d.event.eventType)] + MarkersOf(rest);
      }
    }
  }

  lemma {:induction false} DeliverConcat(t: Tables, a: seq<Delivery>, b: seq<Delivery>)
    ensures DeliverAll(t, a + b) == DeliverAll(DeliverAll(t, a), b)
    decreases |a|
  {
    if a == [] {
      assert a + b == b;
    } else {
      assert (a + b)[1..] == a[1..] + b;
      DeliverConcat(Deliver(t, a[0]).0, a[1..], b);
    }
  }

  /** A failed delivery can be dropped from any history, and a retry of it that
      follows at once is accepted exactly when processing it does not raise and
      meets the constraints, whatever made the first one fail. */
  lemma FailureIsForgotten(t: Tables, before: seq<Delivery>, d: Delivery, retry: Delivery, after: seq<Delivery>)
    requires !Deliver(DeliverAll(t, before), d).1.Accepted?
    requires retry.configured && retry.signed && retry.available && retry.event == d.event
    ensures DeliverAll(t, before + ([d] + after)) == DeliverAll(t, before + after)
    ensures var mid := DeliverAll(t, before);
            && DeliverAll(t, before + [d]) == mid
            && (Deliver(mid, retry).1.Accepted? <==>
                  || Marked(mid.markers, d.event.id)
                  || (Staged(mid, retry).Some? && Constraints(Staged(mid, retry).value)))
  {
    var mid := DeliverAll(t, before);
    DeliverConcat(t, before, [d] + after);
    DeliverConcat(t, before, after);
    DeliverConcat(t, before, [d]);
    assert ([d] + after)[1..] == after;
    assert DeliverAll(mid, [d]) == DeliverAll(Deliver(mid, d).0, [d][1..]);
  }

  class StripeService {
    const db: Session
    const configured: bool

    constructor (db: Session, configured: bool)
      ensures this.db == db && this.configured == configured
    {
      this.db, this.configured := db, configured;
    }

    method HandleWebhook(signed: bool, event: Event, newId: Uuid, available: bool) returns (reply: Reply)
      requires db.Clean()
      modifies db
      ensures db.Clean()
      ensures (db.committed, reply)
              == Deliver(old(db.committed), Delivery(configured, signed, event, newId, available))
    {
      if !configured {
        return NotConfigured;
      }
      if !signed {
        return BadSignature;
      }
      if Marked(db.committed.markers, event.id) {
        return Accepted;
      }
      db.pending := db.pending.(markers := db.pending.markers + [Marker(event.id, event.eventType)]);
      var ok := Process(event.payload, newId);
      if ok {
        ok := db.Commit(available);
      }
      if !ok {
        db.Rollback();
        return ProcessingFailed;
      }
      return Accepted;
    }

    /** False when the handler raises; what it wrote before is still pending. */
    method Process(payload: Payload, newId: Uuid) returns (ok: bool)
      requires db.pending.subscriptions == db.committed.subscriptions
      requires db.pending.planByPrice == db.committed.planByPrice
      modifies db`pending
      ensures var after := ProcessEvent(old(db.pending), payload, newId);
              && ok == after.Some?
              && db.pending == if ok then old(db.pending).(subscriptions := after.value) else old(db.pending)
    {
      match payload
      case CheckoutCompleted(tenantId, planId, customer, subscription) =>
        if tenantId.None? || planId.None? {
          return false;
        }
        Checkout(tenantId.value, planId.value, customer, subscription, newId);
        return true;
      case SubscriptionUpdated(stripeId, status, items) =>
        SyncStatus(stripeId, status, items);
        return true;
      case SubscriptionDeleted(stripeId) =>
        if Truthy(stripeId) {
          var found := GetByStripeSubscriptionId(db.committed.subscriptions, stripeId.value);
          if found.Some? {
            Write(found.value, db.pending.subscriptions[found.value].(status := Cancelled));
          }
        }
        return true;
      case Unhandled =>
        return true;
      case WithoutObject =>
        return false;
    }

    method Write(i: nat, s: Subscription)
      requires i < |db.pending.subscriptions|
      modifies db`pending
      ensures db.pending == old(db.pending).(subscriptions := old(db.pending).subscriptions[i := s])
    {
      db.pending := db.pending.(subscriptions := db.pending.subscriptions[i := s]);
    }

    method Checkout(tenantId: Uuid, planId: Uuid, customer: Option<string>, subscription: Option<string>, newId: Uuid)
      requires db.pending.subscriptions == db.committed.subscriptions
      modifies db`pending
      ensures db.pending == old(db.pending).(subscriptions :=
                SyncFromCheckout(old(db.pending), tenantId, planId, customer, subscription, newId))
    {
      var found := GetByTenant(db.committed.subscriptions, tenantId);
      var i;
      if found.None? {
        var s := Subscription(newId, tenantId, planId, Active, None, None);
        i := |db.pending.subscriptions|;
        db.pending := db.pending.(subscriptions := db.pending.subscriptions + [s]);
      } else {
        i := found.value;
      }
      SetColumns(i, planId, customer, subscription);
    }

    /** What a checkout writes on its tenant's row. */
    method SetColumns(i: nat, planId: Uuid, customer: Option<string>, subscription: Option<string>)
      requires i < |db.pending.subscriptions|
      modifies db`pending
      ensures var rows := old(db.pending).subscriptions;
              db.pending == old(db.pending).(subscriptions :=
                rows[i := CheckedOut(rows[i], planId, customer, subscription)])
    {
      Write(i, db.pending.subscriptions[i].(planId := planId));
      Write(i, db.pending.subscriptions[i].(status := Active));
      if Truthy(customer) {
        Write(i, db.pending.subscriptions[i].(stripeCustomerId := customer));
      }
      if Truthy(subscription) {
        Write(i, db.pending.subscriptions[i].(stripeSubscriptionId := subscription));
      }
    }

    method SyncStatus(stripeId: Option<string>, status: Option<string>, items: Option<seq<Option<string>>>)
      requires db.pending.subscriptions == db.committed.subscriptions
      requires db.pending.planByPrice == db.committed.planByPrice
      modifies db`pending
      ensures db.pending == old(db.pending).(subscriptions :=
                SyncSubscriptionStatus(old(db.pending), stripeId, status, items))
    {
      if !Truthy(stripeId) {
        return;
      }
      var found := GetByStripeSubscriptionId(db.committed.subscriptions, stripeId.value);
      if found.None? {
        return;
      }
      Write(found.value, db.pending.subscriptions[found.value].(status := FromStripeStatus(status)));
      var price := PriceIdFromItems(items);
      if Truthy(price) && price.value in db.committed.planByPrice {
        Write(found.value,
              db.pending.subscriptions[found.value].(planId := db.committed.planByPrice[price.value]));
      }
    }
  }
}
