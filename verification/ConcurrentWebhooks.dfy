/**
 Webhook handlers in flight together. A handler looks its event's marker up,
 stages its changes against the rows it read, and commits marker and changes
 atomically; other handlers may commit in between, so what is staged can be
 stale. The session writes only the columns it changed.
 */
module ConcurrentWebhooks {
  import opened Models
  import opened Schedules
  import opened Session
  import opened SubscriptionRepository
  import opened Sums
  import opened StripeService

  /** The row changes a session flushes; a None column is not written. */
  datatype Patch =
    | NoRow
    | InsertRow(row: Subscription)
    | UpdateRow(id: Uuid, planId: Option<Uuid>, status: Option<Status>,
                customer: Option<Option<string>>, link: Option<Option<string>>)

  datatype Handler =
    | Arrived(delivery: Delivery)
    | Unmarked(delivery: Delivery)
    | Pending(delivery: Delivery, patch: Patch)
    | Finished(delivery: Delivery, reply: Reply)

  /** A committed transaction: whose marker it brought, and the row changes committed with it. */
  datatype Transaction = Transaction(delivery: Delivery, patch: Patch)

  /** `log` is history: the transactions in commit order. */
  datatype State = State(tables: Tables, log: seq<Transaction>, handlers: seq<Handler>)

  datatype Step = Arrive(delivery: Delivery) | Advance(i: nat)

  function MarkerOf(d: Delivery): Marker {
    Marker(d.event.id, d.event.eventType)
  }

  /** The patch is what processing the delivery on these tables stages. */
  predicate Stages(t: Tables, d: Delivery, patch: Patch) {
    var after := ProcessEvent(t, d.event.payload, d.newId);
    after.Some? && patch == PatchOf(t.subscriptions, after.value)
  }

  function Changed<T(==)>(before: T, after: T): Option<T> {
    if before == after then None else Some(after)
  }

  function Diff(before: Subscription, after: Subscription): Patch {
    UpdateRow(before.id,
              Changed(before.planId, after.planId),
              Changed(before.status, after.status),
              Changed(before.stripeCustomerId, after.stripeCustomerId),
              Changed(before.stripeSubscriptionId, after.stripeSubscriptionId))
  }

  function FirstDifference(before: seq<Subscription>, after: seq<Subscription>, from: nat := 0): (k: nat)
    requires |before| == |after| && from <= |before|
    ensures from <= k <= |before|
    ensures k < |before| ==> before[k] != after[k]
    ensures forall i | from <= i < k :: before[i] == after[i]
    decreases |before| - from
  {
    if from == |before| || before[from] != after[from] then from else FirstDifference(before, after, from + 1)
  }

  function PatchOf(before: seq<Subscription>, after: seq<Subscription>): Patch {
    if |after| > |before| then InsertRow(after[|before|])
    else if |after| < |before| || after == before then NoRow
    else
      var k := FirstDifference(before, after);
      if k == |before| then NoRow else Diff(before[k], after[k])
  }

  function Written<T>(column: T, change: Option<T>): T {
    if change.Some? then change.value else column
  }

  function Apply(rows: seq<Subscription>, patch: Patch): seq<Subscription> {
    match patch
    case NoRow => rows
    case InsertRow(row) => rows + [row]
    case UpdateRow(id, planId, status, customer, link) =>
      var found := GetById(rows, id);
      if found.None? then rows
      else
        var s := rows[found.value];
        rows[found.value := s.(planId := Written(s.planId, planId),
                               status := Written(s.status, status),
                               stripeCustomerId := Written(s.stripeCustomerId, customer),
                               stripeSubscriptionId := Written(s.stripeSubscriptionId, link))]
  }

  function Replay(rows: seq<Subscription>, log: seq<Transaction>): seq<Subscription> {
    if log == [] then rows else Apply(Replay(rows, log[..|log| - 1]), log[|log| - 1].patch)
  }

  /** One atomic step of a handler: the tables and the transactions it commits,
      none or one, and where it is afterwards. */
  function Proceed(t: Tables, h: Handler): (Tables, seq<Transaction>, Handler) {
    match h
    case Arrived(d) =>
      (t, [], if !d.configured then Finished(d, NotConfigured)
              else if !d.signed then Finished(d, BadSignature)
              else if Marked(t.markers, d.event.id) then Finished(d, Accepted)
              else Unmarked(d))
    case Unmarked(d) =>
      var after := ProcessEvent(t, d.event.payload, d.newId);
      (t, [], if after.None? then Finished(d, ProcessingFailed)
              else Pending(d, PatchOf(t.subscriptions, after.value)))
    case Pending(d, patch) =>
      var t' := t.(markers := t.markers + [MarkerOf(d)], subscriptions := Apply(t.subscriptions, patch));
      if d.available && Constraints(t')
      then (t', [Transaction(d, patch)], Finished(d, Accepted))
      else (t, [], Finished(d, ProcessingFailed))
    case Finished(_, _) => (t, [], h)
  }

  predicate Enabled(s: State, step: Step) {
    step.Advance? ==> step.i < |s.handlers|
  }

  function Next(s: State, step: Step): State
    requires Enabled(s, step)
  {
    match step
    case Arrive(d) => s.(handlers := s.handlers + [Arrived(d)])
    case Advance(i) =>
      var (t, committed, h) := Proceed(s.tables, s.handlers[i]);
      State(t, s.log + committed, s.handlers[i := h])
  }

  function Webhooks(): Machine<State, Step> {
    Machine(Enabled, (s: State, step: Step) => if Enabled(s, step) then Next(s, step) else s)
  }

  // ---- at most once ----

  function LogMarkers(log: seq<Transaction>): seq<Marker> {
    seq(|log|, i requires 0 <= i < |log| => MarkerOf(log[i].delivery))
  }

  /** The tables are those at the start with the log applied. */
  predicate Logged(start: Tables, t: Tables, log: seq<Transaction>) {
    && Constraints(t)
    && t.markers == start.markers + LogMarkers(log)
    && t == start.(markers := t.markers, subscriptions := Replay(start.subscriptions, log))
  }

  /** Every accepted handler's event is marked. */
  predicate Acknowledged(s: State) {
    forall h | h in s.handlers && h.Finished? && h.reply.Accepted? :: Marked(s.tables.markers, h.delivery.event.id)
  }

  predicate Accounted(start: Tables, s: State) {
    Logged(start, s.tables, s.log) && Acknowledged(s)
  }

  lemma CommitIsLogged(start: Tables, t: Tables, log: seq<Transaction>, h: Handler)
    requires Logged(start, t, log)
    ensures var (t', committed, h') := Proceed(t, h);
            && Logged(start, t', log + committed)
            && t.markers <= t'.markers
            && (h'.Finished? && h'.reply.Accepted? && !h.Finished? ==> Marked(t'.markers, h'.delivery.event.id))
  {
    var (t', committed, h') := Proceed(t, h);
    if committed == [] {
      assert log + committed == log;
    } else {
      var last := committed[0];
      assert (log + committed)[..|log|] == log;
      assert LogMarkers(log + committed) == LogMarkers(log) + [MarkerOf(last.delivery)];
      assert t'.markers[|t.markers|] == MarkerOf(last.delivery);
    }
  }

  lemma MarksStay(markers: seq<Marker>, more: seq<Marker>, eventId: string)
    requires markers <= more && Marked(markers, eventId)
    ensures Marked(more, eventId)
  {
    var i :| 0 <= i < |markers| && markers[i].eventId == eventId;
    assert more[i].eventId == eventId;
  }

  lemma StepIsAccounted(start: Tables, s: State, step: Step)
    requires Accounted(start, s) && Enabled(s, step)
    ensures Accounted(start, Next(s, step))
  {
    if step.Advance? {
      var h := s.handlers[step.i];
      CommitIsLogged(start, s.tables, s.log, h);
      var (t', committed, h') := Proceed(s.tables, h);
      assert h in s.handlers;
      forall g | g in s.handlers[step.i := h'] && g.Finished? && g.reply.Accepted?
        ensures Marked(t'.markers, g.delivery.event.id)
      {
        if g in s.handlers {
          MarksStay(s.tables.markers, t'.markers, g.delivery.event.id);
        }
      }
    }
  }

  lemma {:induction false} RunIsAccounted(start: Tables, s: State, steps: seq<Step>)
    requires Accounted(start, s) && Webhooks().Valid(s, steps)
    ensures Accounted(start, Webhooks().Run(s, steps))
    decreases |steps|
  {
    if steps != [] {
      StepIsAccounted(start, s, steps[0]);
      RunIsAccounted(start, Next(s, steps[0]), steps[1..]);
    }
  }

  lemma LogIdsAreNew(start: seq<Marker>, markers: seq<Marker>, log: seq<Transaction>)
    requires markers == start + LogMarkers(log) && UniqueMarkers(markers)
    ensures forall i, j | 0 <= i < j < |log| :: log[i].delivery.event.id != log[j].delivery.event.id
    ensures forall i | 0 <= i < |log| :: !Marked(start, log[i].delivery.event.id)
  {
    assert forall i | 0 <= i < |log| :: markers[|start| + i] == MarkerOf(log[i].delivery);
    assert forall i | 0 <= i < |start| :: markers[i] == start[i];
  }

  lemma MarkedByLog(start: seq<Marker>, markers: seq<Marker>, log: seq<Transaction>, eventId: string)
    requires markers == start + LogMarkers(log) && Marked(markers, eventId) && !Marked(start, eventId)
    ensures exists i | 0 <= i < |log| :: log[i].delivery.event.id == eventId
  {
    var m :| 0 <= m < |markers| && markers[m].eventId == eventId;
    assert |start| <= m;
    assert log[m - |start|].delivery.event.id == eventId;
  }

  /** All states of a run, in order. */
  function History(s: State, steps: seq<Step>): seq<State>
    requires Webhooks().Valid(s, steps)
    decreases |steps|
  {
    if steps == [] then [s] else [s] + History(Next(s, steps[0]), steps[1..])
  }

  /** The patch was staged in a past state, when at most n transactions had committed. */
  ghost predicate StagedIn(past: seq<State>, n: nat, d: Delivery, patch: Patch) {
    exists u :: u in past && |u.log| <= n && Stages(u.tables, d, patch)
  }

  /** Every committed or pending patch was staged for its own delivery in a past
      state, and every committed delivery has its accepted handler. */
  ghost predicate Traced(past: seq<State>, s: State) {
    && (forall i | 0 <= i < |s.log| :: StagedIn(past, i, s.log[i].delivery, s.log[i].patch))
    && (forall i | 0 <= i < |s.log| :: Finished(s.log[i].delivery, Accepted) in s.handlers)
    && (forall h | h in s.handlers && h.Pending? :: StagedIn(past, |s.log|, h.delivery, h.patch))
  }

  lemma StagedLater(past: seq<State>, more: seq<State>, n: nat, m: nat, d: Delivery, patch: Patch)
    requires StagedIn(past, n, d, patch) && n <= m && forall u | u in past :: u in more
    ensures StagedIn(more, m, d, patch)
  {
    var u :| u in past && |u.log| <= n && Stages(u.tables, d, patch);
    assert u in more;
  }

  lemma StepIsTraced(past: seq<State>, s: State, step: Step)
    requires s in past && Traced(past, s) && Enabled(s, step)
    ensures Traced(past + [Next(s, step)], Next(s, step))
  {
    var s' := Next(s, step);
    var more := past + [s'];
    if step.Advance? {
      var h := s.handlers[step.i];
      var h' := s'.handlers[step.i];
      assert h in s.handlers;
      assert h' in s'.handlers;
      forall i | 0 <= i < |s'.log|
        ensures StagedIn(more, i, s'.log[i].delivery, s'.log[i].patch)
        ensures Finished(s'.log[i].delivery, Accepted) in s'.handlers
      {
        if i < |s.log| {
          StagedLater(past, more, i, i, s.log[i].delivery, s.log[i].patch);
          KeepsFinished(s, step.i, Finished(s.log[i].delivery, Accepted));
        } else {
          StagedLater(past, more, i, i, h.delivery, h.patch);
        }
      }
      forall g | g in s'.handlers && g.Pending?
        ensures StagedIn(more, |s'.log|, g.delivery, g.patch)
      {
        if g in s.handlers {
          StagedLater(past, more, |s.log|, |s'.log|, g.delivery, g.patch);
        } else {
          assert s in more && Stages(s.tables, g.delivery, g.patch);
        }
      }
    } else {
      forall i | 0 <= i < |s.log|
        ensures StagedIn(more, i, s.log[i].delivery, s.log[i].patch)
      {
        StagedLater(past, more, i, i, s.log[i].delivery, s.log[i].patch);
      }
      forall g | g in s'.handlers && g.Pending?
        ensures StagedIn(more, |s.log|, g.delivery, g.patch)
      {
        StagedLater(past, more, |s.log|, |s.log|, g.delivery, g.patch);
      }
    }
  }

  lemma KeepsFinished(s: State, i: nat, h: Handler)
    requires i < |s.handlers| && h in s.handlers && h.Finished?
    ensures h in Next(s, Advance(i)).handlers
  {
    var j :| 0 <= j < |s.handlers| && s.handlers[j] == h;
    assert Next(s, Advance(i)).handlers[j] == h;
  }

  lemma Reassociate(past: seq<State>, s: State, rest: seq<State>)
    ensures past + [s] + rest == past + ([s] + rest)
  {
  }

  lemma {:induction false} RunIsTraced(past: seq<State>, s: State, steps: seq<Step>)
    requires Webhooks().Valid(s, steps) && Traced(past + [s], s)
    ensures Traced(past + History(s, steps), Webhooks().Run(s, steps))
    decreases |steps|
  {
    if steps != [] {
      StepIsTraced(past + [s], s, steps[0]);
      RunIsTraced(past + [s], Next(s, steps[0]), steps[1..]);
      Reassociate(past, s, History(Next(s, steps[0]), steps[1..]));
    }
  }

  /** In every interleaving the subscriptions are the initial ones with the
      committed transactions applied in order. Each transaction is what its own
      delivery staged against the tables of a state before the commit, has an
      accepted handler and brought exactly its own marker; and no event id was
      committed twice, or after it was marked. */
  lemma CommittedAtMostOnce(t: Tables, steps: seq<Step>)
    requires Constraints(t) && Webhooks().Valid(State(t, [], []), steps)
    ensures var end := Webhooks().Run(State(t, [], []), steps);
            && end.tables.subscriptions == Replay(t.subscriptions, end.log)
            && end.tables.markers == t.markers + LogMarkers(end.log)
            && (forall i | 0 <= i < |end.log| ::
                  && Finished(end.log[i].delivery, Accepted) in end.handlers
                  && StagedIn(History(State(t, [], []), steps), i, end.log[i].delivery, end.log[i].patch))
            && (forall i, j | 0 <= i < j < |end.log| :: end.log[i].delivery.event.id != end.log[j].delivery.event.id)
            && (forall i | 0 <= i < |end.log| :: !Marked(t.markers, end.log[i].delivery.event.id))
            && (forall h | h in end.handlers && h.Finished? && h.reply.Accepted? ::
                  || Marked(t.markers, h.delivery.event.id)
                  || exists i | 0 <= i < |end.log| :: end.log[i].delivery.event.id == h.delivery.event.id)
            && Constraints(end.tables)
  {
    var s := State(t, [], []);
    var end := Webhooks().Run(s, steps);
    StartIsAccounted(t);
    RunIsAccounted(t, s, steps);
    WholeRunIsTraced(s, steps);
    LogIdsAreNew(t.markers, end.tables.markers, end.log);
    AcceptedIsLogged(t, end);
  }

  lemma StartIsAccounted(t: Tables)
    requires Constraints(t)
    ensures Accounted(t, State(t, [], []))
  {
    assert t.markers + LogMarkers([]) == t.markers;
    assert Replay(t.subscriptions, []) == t.subscriptions;
  }

  lemma WholeRunIsTraced(s: State, steps: seq<Step>)
    requires Webhooks().Valid(s, steps) && s.log == [] && s.handlers == []
    ensures Traced(History(s, steps), Webhooks().Run(s, steps))
  {
    RunIsTraced([], s, steps);
    assert [] + History(s, steps) == History(s, steps);
  }

  lemma AcceptedIsLogged(start: Tables, s: State)
    requires Accounted(start, s)
    ensures forall h | h in s.handlers && h.Finished? && h.reply.Accepted? ::
              || Marked(start.markers, h.delivery.event.id)
              || exists i | 0 <= i < |s.log| :: s.log[i].delivery.event.id == h.delivery.event.id
  {
    forall h | h in s.handlers && h.Finished? && h.reply.Accepted? && !Marked(start.markers, h.delivery.event.id)
      ensures exists i | 0 <= i < |s.log| :: s.log[i].delivery.event.id == h.delivery.event.id
    {
      MarkedByLog(start.markers, s.tables.markers, s.log, h.delivery.event.id);
    }
  }

  // ---- one handler at a time ----

  /** A change of one row is recovered from its net column changes. */
  lemma PatchReproduces(before: seq<Subscription>, after: seq<Subscription>)
    requires UniqueIds(before) && TouchesOneRow(before, after)
    ensures Apply(before, PatchOf(before, after)) == after
  {
    var k :| SameExcept(before, after, k);
    if |after| > |before| {
      assert after == before + [after[|before|]];
    } else if after != before {
      var i :| 0 <= i < |before| && before[i] != after[i];
      assert FirstDifference(before, after) == k;
      assert GetById(before, before[k].id) == Some(k);
      assert after == before[k := after[k]];
    }
  }

  lemma AdvanceLast(t: Tables, log: seq<Transaction>, before: seq<Handler>, h: Handler,
                    after: (Tables, seq<Transaction>, Handler), rest: seq<Step>, end: State)
    requires Proceed(t, h) == after
    requires Webhooks().Reaches(State(after.0, log + after.1, before + [after.2]), rest, end)
    ensures Webhooks().Reaches(State(t, log, before + [h]), [Advance(|before|)] + rest, end)
  {
    var s := State(t, log, before + [h]);
    assert s.handlers[|before| := after.2] == before + [after.2];
    Webhooks().Prepend(s, Advance(|before|), State(after.0, log + after.1, before + [after.2]), rest, end);
  }

  lemma HandlerIsDeliver(t: Tables, d: Delivery) returns (h1: Handler, h2: Handler, committed: seq<Transaction>)
    requires Constraints(t)
    ensures Proceed(t, Arrived(d)) == (t, [], h1)
    ensures Proceed(t, h1) == (t, [], h2)
    ensures Proceed(t, h2) == (Deliver(t, d).0, committed, Finished(d, Deliver(t, d).1))
  {
    if ProcessEvent(t, d.event.payload, d.newId).Some? {
      EventTouchesOneRow(t, d.event.payload, d.newId);
      PatchReproduces(t.subscriptions, ProcessEvent(t, d.event.payload, d.newId).value);
    }
    h1 := Proceed(t, Arrived(d)).2;
    h2 := Proceed(t, h1).2;
    committed := Proceed(t, h2).1;
  }

  function Alone(d: Delivery, i: nat): seq<Step> {
    [Arrive(d)] + ([Advance(i)] + ([Advance(i)] + ([Advance(i)] + [])))
  }

  /** Undisturbed, a handler does what `Deliver` does: what it stages and flushes
      column by column is the event's effect. */
  lemma AloneIsDeliver(s: State, d: Delivery)
    requires Constraints(s.tables)
    ensures var steps := Alone(d, |s.handlers|);
            var (t', reply) := Deliver(s.tables, d);
            && Webhooks().Valid(s, steps)
            && Webhooks().Run(s, steps).tables == t'
            && Webhooks().Run(s, steps).handlers == s.handlers + [Finished(d, reply)]
  {
    var t, log, before, a := s.tables, s.log, s.handlers, Advance(|s.handlers|);
    var h1, h2, committed := HandlerIsDeliver(t, d);
    assert log + [] == log;
    var end := State(Deliver(t, d).0, log + committed, before + [Finished(d, Deliver(t, d).1)]);
    AdvanceLast(t, log, before, h2, (end.tables, committed, Finished(d, Deliver(t, d).1)), [], end);
    AdvanceLast(t, log, before, h1, (t, [], h2), [a] + [], end);
    AdvanceLast(t, log, before, Arrived(d), (t, [], h1), [a] + ([a] + []), end);
    Webhooks().Prepend(s, Arrive(d), State(t, log, before + [Arrived(d)]), [a] + ([a] + ([a] + [])), end);
  }

  // ---- the one-row law of checkouts ----

  /** A checkout of the tenant. */
  predicate Buys(d: Delivery, tenantId: Uuid) {
    d.event.payload.CheckoutCompleted? && d.event.payload.tenantId == Some(tenantId)
  }

  predicate Adds(patch: Patch, tenantId: Uuid) {
    patch.InsertRow? && patch.row.tenantId == tenantId
  }

  predicate Bought(log: seq<Transaction>, tenantId: Uuid) {
    exists i | 0 <= i < |log| :: Buys(log[i].delivery, tenantId)
  }

  /** The tenant's checkout events with a handler that has not answered. */
  function InFlight(handlers: seq<Handler>, tenantId: Uuid): set<string> {
    set i | 0 <= i < |handlers| && !handlers[i].Finished? && Buys(handlers[i].delivery, tenantId) ::
      handlers[i].delivery.event.id
  }

  function AtMostInFlight(tenantId: Uuid, n: nat): State -> bool {
    (s: State) => |InFlight(s.handlers, tenantId)| <= n
  }

  /** In every state of the run at most n checkout events of the tenant are in flight. */
  predicate AlwaysInFlight(s: State, steps: seq<Step>, tenantId: Uuid, n: nat)
    requires Webhooks().Valid(s, steps)
  {
    Webhooks().Always(s, steps, AtMostInFlight(tenantId, n))
  }

  function Adding(handlers: seq<Handler>, tenantId: Uuid): set<string> {
    set i | 0 <= i < |handlers| && handlers[i].Pending? && Adds(handlers[i].patch, tenantId) ::
      handlers[i].delivery.event.id
  }

  function Added(log: seq<Transaction>, tenantId: Uuid): set<string> {
    set i | 0 <= i < |log| && Adds(log[i].patch, tenantId) :: log[i].delivery.event.id
  }

  function Rows(s: State, tenantId: Uuid): nat {
    TenantCount(s.tables.subscriptions, tenantId)
  }

  /** A pending checkout of the tenant adds a row or found one; nothing else adds a row. */
  predicate Honest(h: Handler, rows: nat, tenantId: Uuid) {
    h.Pending? ==>
      && (Adds(h.patch, tenantId) ==> Buys(h.delivery, tenantId))
      && (Buys(h.delivery, tenantId) ==> Adds(h.patch, tenantId) || 0 < rows)
  }

  predicate AllHonest(handlers: seq<Handler>, rows: nat, tenantId: Uuid) {
    forall h | h in handlers :: Honest(h, rows, tenantId)
  }

  /** What interleaving keeps of a tenant's row count, given whether a checkout of its
      has committed, and the event ids whose row is in the table or staged. */
  predicate Tally(rows: nat, bought: bool, added: set<string>, adding: set<string>, before: nat, n: nat) {
    && (bought ==> 0 < rows)
    && if 0 < before then
         rows == before && adding == {}
       else
         rows == |added| && |added + adding| <= n && (0 < rows ==> bought)
  }

  /** The invariant, for a tenant with `before` rows at the start. */
  predicate Counted(s: State, tenantId: Uuid, before: nat, n: nat) {
    && AllHonest(s.handlers, Rows(s, tenantId), tenantId)
    && Tally(Rows(s, tenantId), Bought(s.log, tenantId), Added(s.log, tenantId), Adding(s.handlers, tenantId),
             before, n)
  }

  lemma PatchCounts(rows: seq<Subscription>, patch: Patch, tenantId: Uuid)
    ensures TenantCount(Apply(rows, patch), tenantId)
            == TenantCount(rows, tenantId) + if Adds(patch, tenantId) then 1 else 0
  {
    match patch
    case NoRow =>
    case InsertRow(row) => SumAppend(rows, row, OfTenant(tenantId));
    case UpdateRow(id, _, _, _, _) =>
      var found := GetById(rows, id);
      if found.Some? {
        SumUpdate(rows, found.value, Apply(rows, patch)[found.value], OfTenant(tenantId));
      }
  }

  /** A checkout adds a row exactly when its tenant has none, and nothing else does. */
  lemma StagedAdds(t: Tables, d: Delivery, patch: Patch, tenantId: Uuid)
    requires Stages(t, d, patch)
    ensures Adds(patch, tenantId) <==> Buys(d, tenantId) && TenantCount(t.subscriptions, tenantId) == 0
  {
    NoRowsNoCount(t.subscriptions, tenantId);
    var after := ProcessEvent(t, d.event.payload, d.newId).value;
    if !d.event.payload.CheckoutCompleted? {
      assert |after| == |t.subscriptions|;
    }
  }

  function IdIf(h: Handler, tenantId: Uuid): set<string> {
    if h.Pending? && Adds(h.patch, tenantId) then {h.delivery.event.id} else {}
  }

  lemma AddingAdvance(handlers: seq<Handler>, i: nat, h: Handler, tenantId: Uuid)
    requires i < |handlers|
    ensures Adding(handlers[i := h], tenantId) <= Adding(handlers, tenantId) + IdIf(h, tenantId)
    ensures IdIf(handlers[i], tenantId) <= Adding(handlers, tenantId)
  {
  }

  lemma AddingArrive(handlers: seq<Handler>, d: Delivery, tenantId: Uuid)
    ensures Adding(handlers + [Arrived(d)], tenantId) == Adding(handlers, tenantId)
  {
    var after := handlers + [Arrived(d)];
    forall id | id in Adding(handlers, tenantId)
      ensures id in Adding(after, tenantId)
    {
      var i :| 0 <= i < |handlers| && handlers[i].Pending? && Adds(handlers[i].patch, tenantId)
               && handlers[i].delivery.event.id == id;
      assert after[i] == handlers[i];
    }
  }

  lemma AddingIsInFlight(handlers: seq<Handler>, rows: nat, tenantId: Uuid)
    requires AllHonest(handlers, rows, tenantId)
    ensures Adding(handlers, tenantId) <= InFlight(handlers, tenantId)
  {
    forall id | id in Adding(handlers, tenantId)
      ensures id in InFlight(handlers, tenantId)
    {
      var i :| 0 <= i < |handlers| && handlers[i].Pending? && Adds(handlers[i].patch, tenantId)
               && handlers[i].delivery.event.id == id;
      assert Honest(handlers[i], rows, tenantId);
    }
  }

  lemma SubsetFits(a: set<string>, b: set<string>)
    requires a <= b
    ensures |a| <= |b|
  {
    assert b == a + (b - a);
  }

  lemma FewerTally(rows: nat, bought: bool, added: set<string>, adding: set<string>, before: nat, n: nat,
                   adding': set<string>)
    requires Tally(rows, bought, added, adding, before, n) && adding' <= adding
    ensures Tally(rows, bought, added, adding', before, n)
  {
    SubsetFits(added + adding', added + adding);
  }

  lemma FirstTally(bought: bool, added: set<string>, adding: set<string>, before: nat, n: nat,
                   adding': set<string>, inFlight: set<string>)
    requires Tally(0, bought, added, adding, before, n) && adding' <= inFlight && |inFlight| <= n
    ensures Tally(0, bought, added, adding', before, n)
  {
    assert added + adding' == adding';
    SubsetFits(adding', inFlight);
  }

  lemma HonestAdvance(handlers: seq<Handler>, i: nat, h: Handler, rows: nat, rows': nat, tenantId: Uuid)
    requires i < |handlers| && AllHonest(handlers, rows, tenantId) && rows <= rows' && Honest(h, rows', tenantId)
    ensures AllHonest(handlers[i := h], rows', tenantId)
  {
    forall g | g in handlers[i := h]
      ensures Honest(g, rows', tenantId)
    {
      assert g in handlers || g == h;
    }
  }

  /** A step that keeps tables and log, and whose handler stages no new row. */
  lemma NothingNewCounts(s: State, i: nat, h: Handler, tenantId: Uuid, before: nat, n: nat)
    requires i < |s.handlers| && Counted(s, tenantId, before, n)
    requires Honest(h, Rows(s, tenantId), tenantId) && IdIf(h, tenantId) <= Adding(s.handlers, tenantId)
    ensures Counted(s.(handlers := s.handlers[i := h]), tenantId, before, n)
  {
    var rows, handlers := Rows(s, tenantId), s.handlers[i := h];
    HonestAdvance(s.handlers, i, h, rows, rows, tenantId);
    AddingAdvance(s.handlers, i, h, tenantId);
    FewerTally(rows, Bought(s.log, tenantId), Added(s.log, tenantId), Adding(s.handlers, tenantId),
               before, n, Adding(handlers, tenantId));
  }

  /** A new row is staged only when there is none; all that can add one is in flight. */
  lemma NewRowCounts(s: State, i: nat, h: Handler, tenantId: Uuid, before: nat, n: nat)
    requires i < |s.handlers| && Counted(s, tenantId, before, n) && Rows(s, tenantId) == 0
    requires Honest(h, 0, tenantId) && IdIf(h, tenantId) <= InFlight(s.handlers, tenantId)
    requires |InFlight(s.handlers, tenantId)| <= n
    ensures Counted(s.(handlers := s.handlers[i := h]), tenantId, before, n)
  {
    var handlers := s.handlers[i := h];
    HonestAdvance(s.handlers, i, h, 0, 0, tenantId);
    AddingAdvance(s.handlers, i, h, tenantId);
    AddingIsInFlight(s.handlers, 0, tenantId);
    FirstTally(Bought(s.log, tenantId), Added(s.log, tenantId), Adding(s.handlers, tenantId), before, n,
               Adding(handlers, tenantId), InFlight(s.handlers, tenantId));
  }

  /** A handler that does not commit. */
  lemma QuietStepCounts(s: State, i: nat, tenantId: Uuid, before: nat, n: nat)
    requires i < |s.handlers| && Counted(s, tenantId, before, n)
    requires Proceed(s.tables, s.handlers[i]).1 == []
    requires |InFlight(s.handlers, tenantId)| <= n
    ensures Counted(Next(s, Advance(i)), tenantId, before, n)
  {
    var h := s.handlers[i];
    var h' := Proceed(s.tables, h).2;
    assert h in s.handlers;
    assert Next(s, Advance(i)) == s.(handlers := s.handlers[i := h']) by {
      assert s.log + [] == s.log;
    }
    if h.Unmarked? && h'.Pending? {
      StagedAdds(s.tables, h.delivery, h'.patch, tenantId);
    }
    if h.Unmarked? && IdIf(h', tenantId) != {} {
      NewRowCounts(s, i, h', tenantId, before, n);
    } else {
      NothingNewCounts(s, i, h', tenantId, before, n);
    }
  }

  lemma LogGrows(log: seq<Transaction>, x: Transaction, tenantId: Uuid)
    ensures Added(log + [x], tenantId)
            == Added(log, tenantId) + IdIf(Pending(x.delivery, x.patch), tenantId)
    ensures Bought(log + [x], tenantId) <==> Bought(log, tenantId) || Buys(x.delivery, tenantId)
  {
    var after := log + [x];
    assert after[|log|] == x && forall i | 0 <= i < |log| :: after[i] == log[i];
    forall id | id in Added(log, tenantId)
      ensures id in Added(after, tenantId)
    {
      var i :| 0 <= i < |log| && Adds(log[i].patch, tenantId) && log[i].delivery.event.id == id;
      assert after[i] == log[i];
    }
    if Bought(log, tenantId) {
      var i :| 0 <= i < |log| && Buys(log[i].delivery, tenantId);
      assert Buys(after[i].delivery, tenantId);
    }
    if Buys(x.delivery, tenantId) {
      assert Buys(after[|log|].delivery, tenantId);
    }
  }

  /** The step of a commit: the log grows by an event id it did not have. */
  lemma CommitIsNew(start: Tables, s: State, i: nat, tenantId: Uuid)
    requires i < |s.handlers| && Logged(start, s.tables, s.log)
    requires Proceed(s.tables, s.handlers[i]).1 != []
    ensures var h := s.handlers[i];
            && h.Pending?
            && Next(s, Advance(i)).log == s.log + [Transaction(h.delivery, h.patch)]
            && Next(s, Advance(i)).tables.subscriptions == Apply(s.tables.subscriptions, h.patch)
            && Next(s, Advance(i)).handlers == s.handlers[i := Finished(h.delivery, Accepted)]
            && h.delivery.event.id !in Added(s.log, tenantId)
  {
    var s', h := Next(s, Advance(i)), s.handlers[i];
    CommitIsLogged(start, s.tables, s.log, h);
    LogIdsAreNew(start.markers, s'.tables.markers, s'.log);
    assert forall k | 0 <= k < |s.log| :: s'.log[k] == s.log[k];
    assert s'.log[|s.log|].delivery == h.delivery;
  }

  lemma CommitCounts(start: Tables, s: State, i: nat, tenantId: Uuid, before: nat, n: nat)
    requires i < |s.handlers| && Counted(s, tenantId, before, n) && Logged(start, s.tables, s.log)
    requires Proceed(s.tables, s.handlers[i]).1 != []
    ensures Counted(Next(s, Advance(i)), tenantId, before, n)
  {
    var s', h := Next(s, Advance(i)), s.handlers[i];
    CommitIsNew(start, s, i, tenantId);
    assert h in s.handlers;
    LogGrows(s.log, Transaction(h.delivery, h.patch), tenantId);
    CommittedCounts(s, i, h, s', tenantId, before, n);
  }

  /** Handler h commits its patch and is done. */
  lemma CommittedCounts(s: State, i: nat, h: Handler, s': State, tenantId: Uuid, before: nat, n: nat)
    requires i < |s.handlers| && s.handlers[i] == h && h.Pending? && Counted(s, tenantId, before, n)
    requires Honest(h, Rows(s, tenantId), tenantId) && h.delivery.event.id !in Added(s.log, tenantId)
    requires s'.handlers == s.handlers[i := Finished(h.delivery, Accepted)]
    requires s'.tables.subscriptions == Apply(s.tables.subscriptions, h.patch)
    requires Added(s'.log, tenantId) == Added(s.log, tenantId) + IdIf(h, tenantId)
    requires Bought(s'.log, tenantId) == (Bought(s.log, tenantId) || Buys(h.delivery, tenantId))
    ensures Counted(s', tenantId, before, n)
  {
    PatchCounts(s.tables.subscriptions, h.patch, tenantId);
    HonestAdvance(s.handlers, i, Finished(h.delivery, Accepted), Rows(s, tenantId), Rows(s', tenantId), tenantId);
    CommittedTallies(s, i, h, s'.handlers, tenantId, before, n);
  }

  lemma CommittedTallies(s: State, i: nat, h: Handler, handlers: seq<Handler>, tenantId: Uuid, before: nat, n: nat)
    requires i < |s.handlers| && s.handlers[i] == h && h.Pending? && Counted(s, tenantId, before, n)
    requires Honest(h, Rows(s, tenantId), tenantId) && h.delivery.event.id !in Added(s.log, tenantId)
    requires handlers == s.handlers[i := Finished(h.delivery, Accepted)]
    ensures Tally(Rows(s, tenantId) + |IdIf(h, tenantId)|, Bought(s.log, tenantId) || Buys(h.delivery, tenantId),
                  Added(s.log, tenantId) + IdIf(h, tenantId), Adding(handlers, tenantId), before, n)
  {
    AddingAdvance(s.handlers, i, Finished(h.delivery, Accepted), tenantId);
    CommitTallies(Rows(s, tenantId), Bought(s.log, tenantId), Added(s.log, tenantId), Adding(s.handlers, tenantId),
                  before, n, Adding(handlers, tenantId), IdIf(h, tenantId), h.delivery.event.id,
                  Buys(h.delivery, tenantId));
  }

  /** A commit moves an event id from the staged to the added ones, or none. */
  lemma CommitTallies(rows: nat, bought: bool, added: set<string>, adding: set<string>, before: nat, n: nat,
                      adding': set<string>, more: set<string>, id: string, buys: bool)
    requires Tally(rows, bought, added, adding, before, n)
    requires more == {} || more == {id}
    requires id !in added && more <= adding && adding' <= adding
    requires (more != {} ==> buys) && (buys ==> more != {} || 0 < rows)
    ensures Tally(rows + |more|, bought || buys, added + more, adding', before, n)
  {
    SubsetFits(added + more + adding', added + adding);
  }

  lemma StepCounts(start: Tables, s: State, step: Step, tenantId: Uuid, before: nat, n: nat)
    requires Enabled(s, step) && Counted(s, tenantId, before, n) && Accounted(start, s)
    requires |InFlight(s.handlers, tenantId)| <= n
    ensures Counted(Next(s, step), tenantId, before, n)
  {
    match step
    case Arrive(d) => AddingArrive(s.handlers, d, tenantId);
    case Advance(i) =>
      if Proceed(s.tables, s.handlers[i]).1 == [] {
        QuietStepCounts(s, i, tenantId, before, n);
      } else {
        CommitCounts(start, s, i, tenantId, before, n);
      }
  }

  lemma {:induction false} RunCounts(start: Tables, s: State, steps: seq<Step>, tenantId: Uuid, before: nat, n: nat)
    requires Webhooks().Valid(s, steps) && Counted(s, tenantId, before, n) && Accounted(start, s)
    requires AlwaysInFlight(s, steps, tenantId, n)
    ensures Counted(Webhooks().Run(s, steps), tenantId, before, n)
    decreases |steps|
  {
    if steps != [] {
      StepCounts(start, s, steps[0], tenantId, before, n);
      StepIsAccounted(start, s, steps[0]);
      RunCounts(start, Next(s, steps[0]), steps[1..], tenantId, before, n);
    }
  }

  /** In every interleaving a tenant with a subscription keeps exactly as many as
      it had. A tenant without one gains a row iff a checkout of its commits, and
      ends with at most as many rows as checkout events of its were in flight at once. */
  lemma CheckoutRows(t: Tables, steps: seq<Step>, tenantId: Uuid, n: nat)
    requires Constraints(t) && Webhooks().Valid(State(t, [], []), steps)
    requires AlwaysInFlight(State(t, [], []), steps, tenantId, n)
    ensures var end := Webhooks().Run(State(t, [], []), steps);
            var rows := TenantCount(end.tables.subscriptions, tenantId);
            if GetByTenant(t.subscriptions, tenantId).Some? then
              rows == TenantCount(t.subscriptions, tenantId)
            else
              rows <= n && (0 < rows <==> Bought(end.log, tenantId))
  {
    var s := State(t, [], []);
    NoRowsNoCount(t.subscriptions, tenantId);
    StartIsAccounted(t);
    assert Added(s.log, tenantId) + Adding(s.handlers, tenantId) == {};
    RunCounts(t, s, steps, tenantId, TenantCount(t.subscriptions, tenantId), n);
    var end := Webhooks().Run(s, steps);
    SubsetFits(Added(end.log, tenantId), Added(end.log, tenantId) + Adding(end.handlers, tenantId));
  }

  /** The tenant's checkout events that arrive during a schedule. */
  function Arrivals(steps: seq<Step>, tenantId: Uuid): set<string> {
    set i | 0 <= i < |steps| && steps[i].Arrive? && Buys(steps[i].delivery, tenantId) :: steps[i].delivery.event.id
  }

  lemma {:induction false} InFlightArrived(s: State, steps: seq<Step>, tenantId: Uuid, ids: set<string>, n: nat)
    requires Webhooks().Valid(s, steps) && |ids| <= n
    requires InFlight(s.handlers, tenantId) <= ids && Arrivals(steps, tenantId) <= ids
    ensures AlwaysInFlight(s, steps, tenantId, n)
    decreases |steps|
  {
    SubsetFits(InFlight(s.handlers, tenantId), ids);
    if steps != [] {
      if steps[0].Arrive? && Buys(steps[0].delivery, tenantId) {
        assert steps[0].delivery.event.id in Arrivals(steps, tenantId);
      }
      forall id | id in Arrivals(steps[1..], tenantId)
        ensures id in ids
      {
        var i :| 0 <= i < |steps| - 1 && steps[1..][i].Arrive? && Buys(steps[1..][i].delivery, tenantId)
                 && steps[1..][i].delivery.event.id == id;
        assert steps[i + 1].delivery.event.id in Arrivals(steps, tenantId);
      }
      InFlightArrived(Next(s, steps[0]), steps[1..], tenantId, ids, n);
    }
  }

  /** A tenant without a subscription never ends with more rows than distinct
      checkout events of its arrived, however often each was delivered. */
  lemma RowsWithinArrivals(t: Tables, steps: seq<Step>, tenantId: Uuid)
    requires Constraints(t) && Webhooks().Valid(State(t, [], []), steps) && GetByTenant(t.subscriptions, tenantId).None?
    ensures TenantCount(Webhooks().Run(State(t, [], []), steps).tables.subscriptions, tenantId)
            <= |Arrivals(steps, tenantId)|
  {
    var ids := Arrivals(steps, tenantId);
    InFlightArrived(State(t, [], []), steps, tenantId, ids, |ids|);
    CheckoutRows(t, steps, tenantId, |ids|);
  }

  // ---- the bound is attained ----

  /** Checkouts of one tenant for one plan, with event ids that get longer from
      `base` on and row ids counted from `firstId`. */
  datatype Race = Race(tenantId: Uuid, planId: Uuid, base: nat, firstId: nat)
  {
    function Checkout(k: nat): Delivery {
      Delivery(true, true,
               Event(seq(base + k, _ => 'e'), "checkout.session.completed",
                     CheckoutCompleted(Some(tenantId), Some(planId), None, None)),
               firstId + k, true)
    }

    function Row(k: nat): Subscription {
      Subscription(firstId + k, tenantId, planId, Active, None, None)
    }

    function Tx(k: nat): Transaction {
      Transaction(Checkout(k), InsertRow(Row(k)))
    }

    function Log(k: nat): seq<Transaction> {
      seq(k, (j: nat) => Tx(j))
    }

    function Ids(k: nat): set<string> {
      set j | 0 <= j < k :: Checkout(j).event.id
    }

    function Rows(k: nat): seq<Subscription> {
      seq(k, (j: nat) => Row(j))
    }

    function Markers(k: nat): seq<Marker> {
      seq(k, (j: nat) => MarkerOf(Checkout(j)))
    }

    /** The tables after the first k checkouts have committed. */
    function After(t: Tables, k: nat): Tables {
      t.(markers := t.markers + Markers(k), subscriptions := t.subscriptions + Rows(k))
    }

    /** Checkouts below `done` have committed; the others have staged their row. */
    function Handlers(done: nat, k: nat): seq<Handler> {
      seq(k, (j: nat) => if j < done then Finished(Checkout(j), Accepted) else Pending(Checkout(j), InsertRow(Row(j))))
    }

    /** Of n checkouts staged on t, the first `done` have committed. */
    function Committed(t: Tables, done: nat, n: nat): State {
      State(After(t, done), Log(done), Handlers(done, n))
    }

    predicate Ready(t: Tables) {
      && Constraints(t) && tenantId in t.tenants && planId in t.plans
      && GetByTenant(t.subscriptions, tenantId).None?
      && (forall m | m in t.markers :: |m.eventId| < base)
      && (forall s | s in t.subscriptions :: s.id < firstId)
    }
  }

  lemma RacerStages(t: Tables, race: Race, k: nat)
    requires race.Ready(t)
    ensures var d := race.Checkout(k);
            && Proceed(t, Arrived(d)) == (t, [], Unmarked(d))
            && Proceed(t, Unmarked(d)) == (t, [], Pending(d, InsertRow(race.Row(k))))
  {
    var d := race.Checkout(k);
    assert forall i | 0 <= i < |t.markers| :: t.markers[i] in t.markers;
    assert ProcessEvent(t, d.event.payload, d.newId).value == t.subscriptions + [race.Row(k)];
  }

  lemma OneMoreStages(t: Tables, race: Race, k: nat) returns (steps: seq<Step>)
    requires race.Ready(t)
    ensures Webhooks().Reaches(State(t, [], race.Handlers(0, k)), steps, State(t, [], race.Handlers(0, k + 1)))
    ensures Arrivals(steps, race.tenantId) <= {race.Checkout(k).event.id}
  {
    var before, d, a := race.Handlers(0, k), race.Checkout(k), Advance(k);
    var staged := Pending(d, InsertRow(race.Row(k)));
    RacerStages(t, race, k);
    var none: seq<Transaction> := [];
    assert none + [] == none;
    assert before + [staged] == race.Handlers(0, k + 1);
    var end := State(t, [], before + [staged]);
    AdvanceLast(t, [], before, Unmarked(d), (t, [], staged), [], end);
    AdvanceLast(t, [], before, Arrived(d), (t, [], Unmarked(d)), [a] + [], end);
    Webhooks().Prepend(State(t, [], before), Arrive(d), State(t, [], before + [Arrived(d)]), [a] + ([a] + []), end);
    steps := [Arrive(d)] + ([a] + ([a] + []));
  }

  lemma ArrivalsConcat(a: seq<Step>, b: seq<Step>, tenantId: Uuid)
    ensures Arrivals(a + b, tenantId) <= Arrivals(a, tenantId) + Arrivals(b, tenantId)
  {
  }

  lemma NoArrivals(steps: seq<Step>, tenantId: Uuid)
    requires forall step | step in steps :: step.Advance?
    ensures Arrivals(steps, tenantId) == {}
  {
    assert forall i | 0 <= i < |steps| :: steps[i] in steps;
  }

  lemma IdsGrow(race: Race, k: nat)
    ensures race.Ids(k + 1) == race.Ids(k) + {race.Checkout(k).event.id}
  {
  }

  lemma {:induction false} AllStage(t: Tables, race: Race, n: nat) returns (steps: seq<Step>)
    requires race.Ready(t)
    ensures Webhooks().Reaches(State(t, [], []), steps, State(t, [], race.Handlers(0, n)))
    ensures Arrivals(steps, race.tenantId) <= race.Ids(n)
  {
    steps := [];
    if n > 0 {
      var first := AllStage(t, race, n - 1);
      var last := OneMoreStages(t, race, n - 1);
      Webhooks().Join(State(t, [], []), first, State(t, [], race.Handlers(0, n - 1)),
                      last, State(t, [], race.Handlers(0, n)));
      ArrivalsConcat(first, last, race.tenantId);
      IdsGrow(race, n - 1);
      steps := first + last;
    }
  }

  lemma AfterIsSound(t: Tables, race: Race, k: nat)
    requires race.Ready(t)
    ensures Constraints(race.After(t, k))
  {
    var after := race.After(t, k);
    forall i, j | 0 <= i < j < |after.markers|
      ensures after.markers[i].eventId != after.markers[j].eventId
    {
      if j >= |t.markers| {
        assert i < |t.markers| ==> after.markers[i] in t.markers;
        assert |after.markers[i].eventId| < |after.markers[j].eventId|;
      }
    }
    forall i, j | 0 <= i < j < |after.subscriptions|
      ensures after.subscriptions[i].id != after.subscriptions[j].id
    {
      if j >= |t.subscriptions| {
        assert i < |t.subscriptions| ==> after.subscriptions[i] in t.subscriptions;
        assert after.subscriptions[i].id < after.subscriptions[j].id;
      }
    }
  }

  lemma RacerCommits(t: Tables, race: Race, k: nat)
    requires race.Ready(t)
    ensures Proceed(race.After(t, k), Pending(race.Checkout(k), InsertRow(race.Row(k))))
            == (race.After(t, k + 1), [race.Tx(k)], Finished(race.Checkout(k), Accepted))
  {
    var now, later := race.After(t, k), race.After(t, k + 1);
    assert now.markers + [MarkerOf(race.Checkout(k))] == later.markers;
    assert now.subscriptions + [race.Row(k)] == later.subscriptions;
    AfterIsSound(t, race, k + 1);
  }

  lemma OneMoreCommits(t: Tables, race: Race, n: nat, k: nat)
    requires race.Ready(t) && k < n
    ensures Next(race.Committed(t, k, n), Advance(k)) == race.Committed(t, k + 1, n)
  {
    RacerCommits(t, race, k);
    assert race.Handlers(k, n)[k := Finished(race.Checkout(k), Accepted)] == race.Handlers(k + 1, n);
    assert race.Log(k) + [race.Tx(k)] == race.Log(k + 1);
  }

  lemma {:induction false} AllCommit(t: Tables, race: Race, n: nat, k: nat) returns (steps: seq<Step>)
    requires race.Ready(t) && k <= n
    ensures Webhooks().Reaches(State(t, [], race.Handlers(0, n)), steps, race.Committed(t, k, n))
    ensures forall step | step in steps :: step.Advance?
  {
    steps := [];
    if k == 0 {
      NoneCommitted(t, race);
    } else {
      var first := AllCommit(t, race, n, k - 1);
      var a, mid, end := Advance(k - 1), race.Committed(t, k - 1, n), race.Committed(t, k, n);
      OneMoreCommits(t, race, n, k - 1);
      Webhooks().Prepend(mid, a, end, [], end);
      Webhooks().Join(State(t, [], race.Handlers(0, n)), first, mid, [a] + [], end);
      steps := first + ([a] + []);
    }
  }

  lemma NoneCommitted(t: Tables, race: Race)
    ensures race.After(t, 0) == t && race.Log(0) == []
  {
    assert t.markers + [] == t.markers && t.subscriptions + [] == t.subscriptions;
  }

  lemma {:induction false} RacedRows(race: Race, k: nat)
    ensures TenantCount(race.Rows(k), race.tenantId) == k
  {
    if k > 0 {
      RacedRows(race, k - 1);
      SumAppend(race.Rows(k - 1), race.Row(k - 1), OfTenant(race.tenantId));
      assert race.Rows(k) == race.Rows(k - 1) + [race.Row(k - 1)];
    }
  }

  lemma {:induction false} RacedIds(race: Race, k: nat)
    ensures |race.Ids(k)| <= k
  {
    if k > 0 {
      RacedIds(race, k - 1);
      IdsGrow(race, k - 1);
    }
  }

  /** Handlers that all look before any commits leave a tenant with as many rows
      as checkouts were in flight, for every n. */
  lemma CheckoutsMayDuplicate(t: Tables, tenantId: Uuid, n: nat) returns (steps: seq<Step>)
    requires Constraints(t) && GetByTenant(t.subscriptions, tenantId).None?
    requires tenantId in t.tenants && t.plans != map[]
    ensures Webhooks().Valid(State(t, [], []), steps) && AlwaysInFlight(State(t, [], []), steps, tenantId, n)
    ensures TenantCount(Webhooks().Run(State(t, [], []), steps).tables.subscriptions, tenantId) == n
  {
    var planId :| planId in t.plans;
    var base := Above(t.markers, (m: Marker) => |m.eventId|);
    var firstId := Above(t.subscriptions, (s: Subscription) => s.id);
    var race := Race(tenantId, planId, base, firstId);
    var stage := AllStage(t, race, n);
    var commit := AllCommit(t, race, n, n);
    Webhooks().Join(State(t, [], []), stage, State(t, [], race.Handlers(0, n)), commit, race.Committed(t, n, n));
    ArrivalsConcat(stage, commit, tenantId);
    NoArrivals(commit, tenantId);
    steps := stage + commit;
    RacedRows(race, n);
    RacedIds(race, n);
    NoRowsNoCount(t.subscriptions, tenantId);
    SumConcat(t.subscriptions, race.Rows(n), OfTenant(tenantId));
    InFlightArrived(State(t, [], []), steps, tenantId, race.Ids(n), n);
  }

  /** In every interleaving with at most n of the tenant's checkout events in
      flight at once, the tenant ends with max(previous count, 1) subscriptions if
      a checkout of its committed and with the previous count if none did. */
  ghost predicate OneRowLaw(t: Tables, tenantId: Uuid, n: nat) {
    forall steps | Webhooks().Valid(State(t, [], []), steps) && AlwaysInFlight(State(t, [], []), steps, tenantId, n) ::
      var end := Webhooks().Run(State(t, [], []), steps);
      var before := TenantCount(t.subscriptions, tenantId);
      TenantCount(end.tables.subscriptions, tenantId)
      == if before == 0 && Bought(end.log, tenantId) then 1 else before
  }

  lemma NoTenantNoRows(t: Tables, tenantId: Uuid)
    requires ForeignKeys(t) && (tenantId !in t.tenants || t.plans == map[])
    ensures GetByTenant(t.subscriptions, tenantId).None? && TenantCount(t.subscriptions, tenantId) == 0
  {
    NoRowsNoCount(t.subscriptions, tenantId);
  }

  /** When the law of `CheckoutCount` survives interleaving: exactly if the tenant
      has a subscription already, or at most one of its checkouts is in flight at
      a time, or it could not have a subscription at all. */
  lemma CheckoutLawIff(t: Tables, tenantId: Uuid, n: nat)
    requires Constraints(t)
    ensures OneRowLaw(t, tenantId, n) <==>
              || GetByTenant(t.subscriptions, tenantId).Some?
              || n <= 1
              || tenantId !in t.tenants || t.plans == map[]
  {
    var s := State(t, [], []);
    NoRowsNoCount(t.subscriptions, tenantId);
    StartIsAccounted(t);
    if GetByTenant(t.subscriptions, tenantId).None? && 1 < n && tenantId in t.tenants && t.plans != map[] {
      var steps := CheckoutsMayDuplicate(t, tenantId, n);
      assert TenantCount(Webhooks().Run(s, steps).tables.subscriptions, tenantId) == n;
    } else {
      forall steps | Webhooks().Valid(s, steps) && AlwaysInFlight(s, steps, tenantId, n)
        ensures var end := Webhooks().Run(s, steps);
                var before := TenantCount(t.subscriptions, tenantId);
                TenantCount(end.tables.subscriptions, tenantId)
                == if before == 0 && Bought(end.log, tenantId) then 1 else before
      {
        CheckoutRows(t, steps, tenantId, n);
        RunIsAccounted(t, s, steps);
        if tenantId !in t.tenants || t.plans == map[] {
          NoTenantNoRows(Webhooks().Run(s, steps).tables, tenantId);
        }
      }
    }
  }
}
