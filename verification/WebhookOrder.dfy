/**
 When interleaved webhook handlers amount to a sequence of deliveries. A commit
 writes what its handler staged earlier; as long as no other handler commits to
 the same row or tenant in between, that is what processing the event at the time
 of the commit would have written.
 */
module WebhookOrder {
  import opened Models
  import opened Schedules
  import opened Session
  import opened SubscriptionRepository
  import opened StripeService
  import opened ConcurrentWebhooks

  // ---- what an event looks up and writes ----

  /** The event's lookup matches this row. */
  predicate Looks(p: Payload, s: Subscription) {
    match p
    case CheckoutCompleted(tenantId, _, _, _) => tenantId == Some(s.tenantId)
    case SubscriptionUpdated(stripeId, _, _) => Truthy(stripeId) && s.stripeSubscriptionId == stripeId
    case SubscriptionDeleted(stripeId) => Truthy(stripeId) && s.stripeSubscriptionId == stripeId
    case _ => false
  }

  /** The Stripe subscription id an event names, if any. */
  function Names(p: Payload): Option<string> {
    match p
    case CheckoutCompleted(_, _, _, subscription) => if Truthy(subscription) then subscription else None
    case SubscriptionUpdated(stripeId, _, _) => if Truthy(stripeId) then stripeId else None
    case SubscriptionDeleted(stripeId) => if Truthy(stripeId) then stripeId else None
    case _ => None
  }

  /** Two events about one tenant, one Stripe id, or one row of the table. */
  predicate Overlap(rows: seq<Subscription>, p: Payload, q: Payload) {
    || (p.CheckoutCompleted? && q.CheckoutCompleted? && p.tenantId == q.tenantId)
    || (Names(p).Some? && Names(p) == Names(q))
    || exists s | s in rows :: Looks(p, s) && Looks(q, s)
  }

  function Find(rows: seq<Subscription>, p: Payload): Option<nat> {
    First(rows, (s: Subscription) => Looks(p, s))
  }

  /** The row an event leaves in place of the one it found. */
  function Rewritten(planByPrice: map<string, Uuid>, p: Payload, s: Subscription): Subscription {
    match p
    case CheckoutCompleted(_, planId, customer, subscription) =>
      if planId.Some? then CheckedOut(s, planId.value, customer, subscription) else s
    case SubscriptionUpdated(_, status, items) =>
      var price := PriceIdFromItems(items);
      var s' := s.(status := FromStripeStatus(status));
      if Truthy(price) && price.value in planByPrice then s'.(planId := planByPrice[price.value]) else s'
    case SubscriptionDeleted(_) => s.(status := Cancelled)
    case _ => s
  }

  /** What an event stages, as a function of the one row it finds. */
  function PatchFor(planByPrice: map<string, Uuid>, d: Delivery, found: Option<Subscription>): Patch {
    var p := d.event.payload;
    match found
    case Some(s) =>
      var s' := Rewritten(planByPrice, p, s);
      if s' == s then NoRow else Diff(s, s')
    case None =>
      if p.CheckoutCompleted? && p.tenantId.Some? && p.planId.Some? then
        InsertRow(CheckedOut(Subscription(d.newId, p.tenantId.value, p.planId.value, Active, None, None),
                             p.planId.value, p.customer, p.subscription))
      else NoRow
  }

  function Found(rows: seq<Subscription>, p: Payload): Option<Subscription> {
    var k := Find(rows, p);
    if k.Some? then Some(rows[k.value]) else None
  }

  lemma FoundAt(rows: seq<Subscription>, p: Payload, k: nat)
    requires k < |rows| && Looks(p, rows[k]) && forall i | 0 <= i < k :: !Looks(p, rows[i])
    ensures Find(rows, p) == Some(k)
  {
  }

  /** Processing an event rewrites the row it finds, or inserts one, or does nothing. */
  lemma EventRewrites(t: Tables, d: Delivery)
    requires ProcessEvent(t, d.event.payload, d.newId).Some?
    ensures var rows, p := t.subscriptions, d.event.payload;
            var after := ProcessEvent(t, p, d.newId).value;
            var patch := PatchFor(t.planByPrice, d, Found(rows, p));
            match Find(rows, p)
            case Some(k) => after == rows[k := Rewritten(t.planByPrice, p, rows[k])]
            case None => after == if patch.InsertRow? then rows + [patch.row] else rows
  {
    var rows, p := t.subscriptions, d.event.payload;
    match p
    case CheckoutCompleted(tenantId, _, _, _) =>
      var k := GetByTenant(rows, tenantId.value);
      if k.Some? { FoundAt(rows, p, k.value); }
    case SubscriptionUpdated(stripeId, _, _) => LinkFound(rows, p, stripeId);
    case SubscriptionDeleted(stripeId) => LinkFound(rows, p, stripeId);
    case _ =>
  }

  lemma LinkFound(rows: seq<Subscription>, p: Payload, stripeId: Option<string>)
    requires forall s :: Looks(p, s) <==> Truthy(stripeId) && s.stripeSubscriptionId == stripeId
    ensures Find(rows, p) == if Truthy(stripeId) then GetByStripeSubscriptionId(rows, stripeId.value) else None
  {
    if Truthy(stripeId) {
      var k := GetByStripeSubscriptionId(rows, stripeId.value);
      if k.Some? { FoundAt(rows, p, k.value); }
    }
  }

  lemma PatchOfWrite(rows: seq<Subscription>, k: nat, s: Subscription)
    requires k < |rows|
    ensures PatchOf(rows, rows[k := s]) == if s == rows[k] then NoRow else Diff(rows[k], s)
  {
    var after := rows[k := s];
    if s == rows[k] {
      assert after == rows;
    } else {
      assert after[k] != rows[k];
      assert FirstDifference(rows, after) == k;
    }
  }

  lemma StagedIsFound(t: Tables, d: Delivery)
    requires ProcessEvent(t, d.event.payload, d.newId).Some?
    ensures Stages(t, d, PatchFor(t.planByPrice, d, Found(t.subscriptions, d.event.payload)))
  {
    var rows, p := t.subscriptions, d.event.payload;
    EventRewrites(t, d);
    match Find(rows, p)
    case Some(k) => PatchOfWrite(rows, k, Rewritten(t.planByPrice, p, rows[k]));
    case None =>
  }

  // ---- commits that do not meet ----

  /** A table in which one row that p does not look up was rewritten or added, and
      still is not one that p looks up. */
  predicate Elsewhere(rows: seq<Subscription>, rows': seq<Subscription>, p: Payload) {
    && |rows| <= |rows'|
    && (forall i | 0 <= i < |rows| :: rows'[i] == rows[i] || (!Looks(p, rows[i]) && !Looks(p, rows'[i])))
    && (forall i | |rows| <= i < |rows'| :: !Looks(p, rows'[i]))
  }

  lemma ElsewhereFindsSame(rows: seq<Subscription>, rows': seq<Subscription>, p: Payload)
    requires Elsewhere(rows, rows', p)
    ensures Found(rows', p) == Found(rows, p)
  {
    var k := Find(rows, p);
    if k.Some? {
      FoundAt(rows', p, k.value);
    }
  }

  /** The row an event writes is looked up by no event that does not overlap. */
  lemma WritesElsewhere(t: Tables, d: Delivery, p: Payload)
    requires ProcessEvent(t, d.event.payload, d.newId).Some?
    requires !Overlap(t.subscriptions, d.event.payload, p)
    ensures Elsewhere(t.subscriptions, ProcessEvent(t, d.event.payload, d.newId).value, p)
  {
    var rows, q := t.subscriptions, d.event.payload;
    EventRewrites(t, d);
    match Find(rows, q)
    case Some(k) =>
      assert rows[k] in rows && Looks(q, rows[k]);
      RewrittenElsewhere(t.planByPrice, q, rows[k], p);
    case None =>
  }

  lemma RewrittenElsewhere(planByPrice: map<string, Uuid>, q: Payload, s: Subscription, p: Payload)
    requires Looks(q, s) && !Looks(p, s) && !(Names(p).Some? && Names(p) == Names(q))
    ensures !Looks(p, Rewritten(planByPrice, q, s))
  {
  }

  lemma StaysStaged(t: Tables, t': Tables, d: Delivery, patch: Patch)
    requires Stages(t, d, patch) && Elsewhere(t.subscriptions, t'.subscriptions, d.event.payload)
    requires t'.planByPrice == t.planByPrice
    ensures Stages(t', d, patch)
  {
    ElsewhereFindsSame(t.subscriptions, t'.subscriptions, d.event.payload);
    StagedIsFound(t, d);
    StagedIsFound(t', d);
  }

  // ---- runs in commit order ----

  function Deliveries(log: seq<Transaction>): seq<Delivery> {
    seq(|log|, i requires 0 <= i < |log| => log[i].delivery)
  }

  predicate Commits(s: State, step: Step) {
    step.Advance? && step.i < |s.handlers| && Proceed(s.tables, s.handlers[step.i]).1 != []
  }

  /** A handler commits only while no other one has staged an overlapping event. */
  predicate CommitsApart(s: State, step: Step) {
    Commits(s, step) ==>
      forall j | 0 <= j < |s.handlers| && j != step.i && s.handlers[j].Pending? ::
        !Overlap(s.tables.subscriptions, s.handlers[step.i].delivery.event.payload,
                 s.handlers[j].delivery.event.payload)
  }

  /** Everything pending is what its event would stage now. */
  predicate UpToDate(t: Tables, h: Handler) {
    h.Pending? ==> h.delivery.configured && h.delivery.signed && Stages(t, h.delivery, h.patch)
  }

  predicate Serial(start: Tables, s: State) {
    && Constraints(s.tables)
    && s.tables == DeliverAll(start, Deliveries(s.log))
    && (forall i | 0 <= i < |s.handlers| :: UpToDate(s.tables, s.handlers[i]))
    && (forall i | 0 <= i < |s.handlers| && s.handlers[i].Unmarked? ::
          s.handlers[i].delivery.configured && s.handlers[i].delivery.signed)
  }

  /** Committing an up-to-date patch is delivering the event. */
  lemma CommitIsDelivery(t: Tables, d: Delivery, patch: Patch)
    requires Constraints(t) && UpToDate(t, Pending(d, patch)) && Proceed(t, Pending(d, patch)).1 != []
    ensures Proceed(t, Pending(d, patch)) == (Deliver(t, d).0, [Transaction(d, patch)], Finished(d, Accepted))
    ensures Deliver(t, d).0.subscriptions == ProcessEvent(t, d.event.payload, d.newId).value
    ensures Constraints(Deliver(t, d).0) && Deliver(t, d).0.planByPrice == t.planByPrice
  {
    EventTouchesOneRow(t, d.event.payload, d.newId);
    PatchReproduces(t.subscriptions, ProcessEvent(t, d.event.payload, d.newId).value);
    NewMarkerOnly(t, Proceed(t, Pending(d, patch)).0, d);
    DeliveryIsAtomic(t, d);
  }

  lemma NewMarkerOnly(t: Tables, t': Tables, d: Delivery)
    requires UniqueMarkers(t'.markers) && t'.markers == t.markers + [MarkerOf(d)]
    ensures !Marked(t.markers, d.event.id)
  {
    assert forall i | 0 <= i < |t.markers| :: t'.markers[i] == t.markers[i];
    assert t'.markers[|t.markers|] == MarkerOf(d);
  }

  lemma CommitIsSerial(start: Tables, s: State, step: Step)
    requires Serial(start, s) && Enabled(s, step) && Commits(s, step) && CommitsApart(s, step)
    ensures Serial(start, Next(s, step))
  {
    var h, s' := s.handlers[step.i], Next(s, step);
    CommitIsDelivery(s.tables, h.delivery, h.patch);
    assert Deliveries(s'.log) == Deliveries(s.log) + [h.delivery];
    DeliverConcat(start, Deliveries(s.log), [h.delivery]);
    DeliverOne(s.tables, h.delivery);
    forall j | 0 <= j < |s'.handlers|
      ensures UpToDate(s'.tables, s'.handlers[j])
    {
      if j != step.i && s.handlers[j].Pending? {
        WritesElsewhere(s.tables, h.delivery, s.handlers[j].delivery.event.payload);
        StaysStaged(s.tables, s'.tables, s.handlers[j].delivery, s.handlers[j].patch);
      }
    }
  }

  lemma DeliverOne(t: Tables, d: Delivery)
    ensures DeliverAll(t, [d]) == Deliver(t, d).0
  {
    assert [d][1..] == [];
  }

  lemma StepIsSerial(start: Tables, s: State, step: Step)
    requires Serial(start, s) && Enabled(s, step) && CommitsApart(s, step)
    ensures Serial(start, Next(s, step))
  {
    if Commits(s, step) {
      CommitIsSerial(start, s, step);
    } else if step.Advance? {
      assert s.log + [] == s.log;
      assert UpToDate(s.tables, s.handlers[step.i]);
    }
  }

  lemma {:induction false} RunIsSerial(start: Tables, s: State, steps: seq<Step>)
    requires Webhooks().Valid(s, steps) && Serial(start, s)
    requires Webhooks().Throughout(s, steps, CommitsApart)
    ensures Serial(start, Webhooks().Run(s, steps))
    decreases |steps|
  {
    if steps != [] {
      StepIsSerial(start, s, steps[0]);
      RunIsSerial(start, Next(s, steps[0]), steps[1..]);
    }
  }

  /** If handlers only commit while no other one has an overlapping event staged, the
      interleaving is a sequence: the tables are those of delivering the committed
      events one after another, in the order of their commits. */
  lemma CommitOrderIsSerial(t: Tables, steps: seq<Step>)
    requires Constraints(t) && Webhooks().Valid(State(t, [], []), steps)
    requires Webhooks().Throughout(State(t, [], []), steps, CommitsApart)
    ensures var end := Webhooks().Run(State(t, [], []), steps);
            end.tables == DeliverAll(t, Deliveries(end.log))
  {
    RunIsSerial(t, State(t, [], []), steps);
  }

  // ---- a schedule that is no sequence ----

  /** An update of row i, ready to be accepted. */
  predicate UpdatesRow(t: Tables, d: Delivery, i: nat) {
    && d.configured && d.signed && d.available && !Marked(t.markers, d.event.id)
    && i < |t.subscriptions|
    && d.event.payload.SubscriptionUpdated? && Truthy(d.event.payload.stripeId)
    && t.subscriptions[i].stripeSubscriptionId == d.event.payload.stripeId
    && Truthy(PriceIdFromItems(d.event.payload.items))
    && PriceIdFromItems(d.event.payload.items).value in t.planByPrice
  }

  function StatusIn(d: Delivery): Status
    requires d.event.payload.SubscriptionUpdated?
  {
    FromStripeStatus(d.event.payload.status)
  }

  function PlanIn(t: Tables, d: Delivery): Uuid
    requires d.event.payload.SubscriptionUpdated? && PriceIdFromItems(d.event.payload.items).Some?
    requires PriceIdFromItems(d.event.payload.items).value in t.planByPrice
  {
    t.planByPrice[PriceIdFromItems(d.event.payload.items).value]
  }

  /** Row i with the columns given, and the event's marker. */
  function Moved(t: Tables, d: Delivery, i: nat, status: Status, planId: Uuid): Tables
    requires i < |t.subscriptions|
  {
    t.(markers := t.markers + [MarkerOf(d)],
       subscriptions := t.subscriptions[i := t.subscriptions[i].(status := status, planId := planId)])
  }

  lemma MovedIsSound(t: Tables, d: Delivery, i: nat, status: Status, planId: Uuid)
    requires Constraints(t) && i < |t.subscriptions| && planId in t.plans && !Marked(t.markers, d.event.id)
    ensures Constraints(Moved(t, d, i, status, planId))
  {
  }

  lemma UpdateDelivers(t: Tables, d: Delivery, i: nat)
    requires Constraints(t) && UpdatesRow(t, d, i)
    ensures Deliver(t, d) == (Moved(t, d, i, StatusIn(d), PlanIn(t, d)), Accepted)
  {
    assert GetByStripeSubscriptionId(t.subscriptions, d.event.payload.stripeId.value) == Some(i);
    MovedIsSound(t, d, i, StatusIn(d), PlanIn(t, d));
  }

  lemma UpdateStages(t: Tables, d: Delivery, i: nat)
    requires Constraints(t) && UpdatesRow(t, d, i)
    ensures var s := t.subscriptions[i];
            var s' := s.(status := StatusIn(d), planId := PlanIn(t, d));
            var patch := if s' == s then NoRow else Diff(s, s');
            && Proceed(t, Arrived(d)) == (t, [], Unmarked(d))
            && Proceed(t, Unmarked(d)) == (t, [], Pending(d, patch))
  {
    UpdateDelivers(t, d, i);
    PatchOfWrite(t.subscriptions, i, t.subscriptions[i].(status := StatusIn(d), planId := PlanIn(t, d)));
  }

  lemma ColumnCommits(t: Tables, d: Delivery, i: nat, status: Option<Status>, planId: Option<Uuid>)
    requires Constraints(t) && i < |t.subscriptions| && d.available && !Marked(t.markers, d.event.id)
    requires planId.Some? ==> planId.value in t.plans
    ensures var s := t.subscriptions[i];
            var patch := UpdateRow(s.id, planId, status, None, None);
            Proceed(t, Pending(d, patch))
            == (Moved(t, d, i, Written(s.status, status), Written(s.planId, planId)),
                [Transaction(d, patch)], Finished(d, Accepted))
  {
    var s := t.subscriptions[i];
    assert GetById(t.subscriptions, s.id) == Some(i);
    MovedIsSound(t, d, i, Written(s.status, status), Written(s.planId, planId));
  }

  /** Both stage, then both commit. */
  function StageAndCommit(): seq<Step> {
    [Advance(0)] + ([Advance(1)] + ([Advance(0)] + ([Advance(1)] + [])))
  }

  /** Both look, both stage, then both commit. */
  function Lockstep(d: Delivery, e: Delivery): seq<Step> {
    [Arrive(d)] + ([Arrive(e)] + ([Advance(0)] + ([Advance(1)] + StageAndCommit())))
  }

  lemma StageAndCommitRuns(t: Tables, d: Delivery, e: Delivery, p: Patch, q: Patch) returns (end: State)
    requires Proceed(t, Unmarked(d)) == (t, [], Pending(d, p)) && Proceed(t, Unmarked(e)) == (t, [], Pending(e, q))
    ensures Webhooks().Reaches(State(t, [], [Unmarked(d), Unmarked(e)]), StageAndCommit(), end)
    ensures end.tables == Proceed(Proceed(t, Pending(d, p)).0, Pending(e, q)).0
  {
    var m, a, b := Webhooks(), Advance(0), Advance(1);
    var s1 := State(t, [], [Unmarked(d), Unmarked(e)]);
    var s2, s3 := State(t, [], [Pending(d, p), Unmarked(e)]), State(t, [], [Pending(d, p), Pending(e, q)]);
    var s4 := Next(s3, a);
    end := Next(s4, b);
    assert Next(s1, a) == s2 && Next(s2, b) == s3;
    m.Prepend(s4, b, end, [], end);
    m.Prepend(s3, a, s4, [b] + [], end);
    m.Prepend(s2, b, s3, [a] + ([b] + []), end);
    m.Prepend(s1, a, s2, [b] + ([a] + ([b] + [])), end);
  }

  lemma LockstepRuns(t: Tables, d: Delivery, e: Delivery, p: Patch, q: Patch) returns (end: State)
    requires Proceed(t, Arrived(d)) == (t, [], Unmarked(d)) && Proceed(t, Arrived(e)) == (t, [], Unmarked(e))
    requires Proceed(t, Unmarked(d)) == (t, [], Pending(d, p)) && Proceed(t, Unmarked(e)) == (t, [], Pending(e, q))
    ensures Webhooks().Reaches(State(t, [], []), Lockstep(d, e), end)
    ensures end.tables == Proceed(Proceed(t, Pending(d, p)).0, Pending(e, q)).0
  {
    var m, a, b, rest := Webhooks(), Advance(0), Advance(1), StageAndCommit();
    var s1, s2 := State(t, [], [Arrived(d)]), State(t, [], [Arrived(d), Arrived(e)]);
    var s3, s4 := State(t, [], [Unmarked(d), Arrived(e)]), State(t, [], [Unmarked(d), Unmarked(e)]);
    var none: seq<Transaction> := [];
    assert none + [] == none;
    var s0: State := State(t, [], []);
    assert Next(s0, Arrive(d)) == s1 && Next(s1, Arrive(e)) == s2;
    assert Next(s2, a) == s3 && Next(s3, b) == s4;
    end := StageAndCommitRuns(t, d, e, p, q);
    m.Prepend(s3, b, s4, rest, end);
    m.Prepend(s2, a, s3, [b] + rest, end);
    m.Prepend(s1, Arrive(e), s2, [a] + ([b] + rest), end);
    m.Prepend(s0, Arrive(d), s1, [Arrive(e)] + ([a] + ([b] + rest)), end);
  }

  /** Two updates of one row, the first changing its status and the second its plan,
      can leave it with the first one's status and the second one's plan, which no
      order of delivering them does. */
  lemma UpdatesMayMix(t: Tables, d: Delivery, e: Delivery, i: nat)
    requires Constraints(t) && UpdatesRow(t, d, i) && UpdatesRow(t, e, i) && d.event.id != e.event.id
    requires StatusIn(d) != t.subscriptions[i].status && PlanIn(t, d) == t.subscriptions[i].planId
    requires StatusIn(e) == t.subscriptions[i].status && PlanIn(t, e) != t.subscriptions[i].planId
    ensures Webhooks().Valid(State(t, [], []), Lockstep(d, e))
    ensures var rows := Webhooks().Run(State(t, [], []), Lockstep(d, e)).tables.subscriptions;
            && rows == t.subscriptions[i := t.subscriptions[i].(status := StatusIn(d), planId := PlanIn(t, e))]
            && rows != DeliverAll(t, [d, e]).subscriptions
            && rows != DeliverAll(t, [e, d]).subscriptions
  {
    var p, q := StatusPatch(t, d, i), PlanPatch(t, e, i);
    UpdateStages(t, d, i);
    UpdateStages(t, e, i);
    var end := LockstepRuns(t, d, e, p, q);
    BothCommit(t, d, e, i);
    InOrder(t, d, e, i);
    InOrder(t, e, d, i);
  }

  function StatusPatch(t: Tables, d: Delivery, i: nat): Patch
    requires i < |t.subscriptions| && UpdatesRow(t, d, i)
  {
    UpdateRow(t.subscriptions[i].id, None, Some(StatusIn(d)), None, None)
  }

  function PlanPatch(t: Tables, d: Delivery, i: nat): Patch
    requires i < |t.subscriptions| && UpdatesRow(t, d, i)
  {
    UpdateRow(t.subscriptions[i].id, Some(PlanIn(t, d)), None, None, None)
  }

  lemma BothCommit(t: Tables, d: Delivery, e: Delivery, i: nat)
    requires Constraints(t) && UpdatesRow(t, d, i) && UpdatesRow(t, e, i) && d.event.id != e.event.id
    ensures Proceed(Proceed(t, Pending(d, StatusPatch(t, d, i))).0, Pending(e, PlanPatch(t, e, i))).0.subscriptions
            == t.subscriptions[i := t.subscriptions[i].(status := StatusIn(d), planId := PlanIn(t, e))]
  {
    var s := t.subscriptions[i];
    ColumnCommits(t, d, i, Some(StatusIn(d)), None);
    var t' := Proceed(t, Pending(d, StatusPatch(t, d, i))).0;
    StillNew(t, d, e, t');
    MovedIsSound(t, d, i, StatusIn(d), s.planId);
    ColumnCommits(t', e, i, None, Some(PlanIn(t, e)));
  }

  lemma StillNew(t: Tables, d: Delivery, e: Delivery, t': Tables)
    requires t'.markers == t.markers + [MarkerOf(d)] && d.event.id != e.event.id && !Marked(t.markers, e.event.id)
    ensures !Marked(t'.markers, e.event.id)
  {
  }

  /** One after another, the second update decides status and plan. */
  lemma InOrder(t: Tables, d: Delivery, e: Delivery, i: nat)
    requires Constraints(t) && UpdatesRow(t, d, i) && UpdatesRow(t, e, i) && d.event.id != e.event.id
    ensures var rows := DeliverAll(t, [d, e]).subscriptions;
            i < |rows| && rows[i].status == StatusIn(e) && rows[i].planId == PlanIn(t, e)
  {
    UpdateDelivers(t, d, i);
    var t' := Deliver(t, d).0;
    StillNew(t, d, e, t');
    DeliveryIsAtomic(t, d);
    assert UpdatesRow(t', e, i);
    UpdateDelivers(t', e, i);
    assert [d, e][1..] == [e];
    DeliverOne(t', e);
  }
}
