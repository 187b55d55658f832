/**
 Metering with any number of requests in flight. One call of `record_usage` is
 six atomic steps: SELECT by key, read the subscription, read the clock for the
 month window, SUM the month, draw the row's timestamp, and INSERT-or-reread.
 Steps of different requests interleave freely with the clock and with changes
 to subscriptions.
 */
module ConcurrentMetering {
  import opened Dates
  import opened Models
  import opened Schedules
  import opened Session
  import opened SubscriptionRepository
  import opened Sums
  import opened UsageRepository
  import opened UsageSchema
  import opened UsageService

  /** Where a request is; the state before the step it will take next. */
  datatype Client =
    | Looking(req: Request)
    | Loading(req: Request)
    | Windowing(req: Request, limit: int)
    | Summing(req: Request, limit: int, windowAt: Instant)
    | Stamping(req: Request)
    | Inserting(req: Request, stampedAt: Instant)
    | Returned(req: Request, event: UsageEvent)
    | Refused(req: Request, answer: Answer)
  {
    predicate Done() {
      Returned? || Refused?
    }
  }

  datatype State = State(tables: Tables, now: Instant, clients: seq<Client>)

  /** A schedule's choices. `Environment` is any committed change to subscriptions. */
  datatype Step =
    | Tick(to: Instant)
    | Environment(subscriptions: seq<Subscription>)
    | Begin(req: Request)
    | Advance(i: nat)

  /** A row that lost the race for its key re-reads the winner; rows are never
      deleted, so the re-read finds it whenever it happens. The service loads the
      limit of the plan only after the SUM; plans never change and the plan's id was
      read with the subscription, so fixing the limit there is the same. */
  function Proceed(t: Tables, now: Instant, c: Client): (Tables, Client)
    requires ForeignKeys(t)
  {
    match c
    case Looking(r) =>
      var existing := GetByIdempotencyKey(t.usage, r.idempotencyKey);
      (t, if existing.Some? then Returned(r, existing.value) else Loading(r))
    case Loading(r) =>
      var found := GetById(t.subscriptions, r.subscriptionId);
      if found.None? then (t, Refused(r, NotFound))
      else
        var s := t.subscriptions[found.value];
        (t, if s.status != Active then Refused(r, NotActive(s.status))
            else Windowing(r, LimitOf(t.plans[s.planId], r.usageType)))
    case Windowing(r, limit) => (t, Summing(r, limit, now))
    case Summing(r, limit, windowAt) =>
      var (start, end) := MonthBounds(windowAt);
      var current := GetTotalByType(t.usage, r.subscriptionId, r.usageType, Some(start), Some(end));
      (t, if current + r.quantity > limit then Refused(r, QuotaExceeded(limit, current, r.quantity))
          else Stamping(r))
    case Stamping(r) => (t, Inserting(r, now))
    case Inserting(r, stampedAt) =>
      var existing := GetByIdempotencyKey(t.usage, r.idempotencyKey);
      if existing.Some? then (t, Returned(r, existing.value))
      else
        var e := r.ToEvent(stampedAt);
        (t.(usage := t.usage + [e]), Returned(r, e))
    case Returned(_, _) => (t, c)
    case Refused(_, _) => (t, c)
  }

  predicate Enabled(s: State, step: Step) {
    && ForeignKeys(s.tables)
    && match step
       case Tick(to) => s.now.AtMost(to)
       case Environment(subscriptions) => ForeignKeys(s.tables.(subscriptions := subscriptions))
       case Begin(_) => true
       case Advance(i) => i < |s.clients|
  }

  function Next(s: State, step: Step): State
    requires Enabled(s, step)
  {
    match step
    case Tick(to) => s.(now := to)
    case Environment(subscriptions) => s.(tables := s.tables.(subscriptions := subscriptions))
    case Begin(r) => s.(clients := s.clients + [Looking(r)])
    case Advance(i) =>
      var (t, c) := Proceed(s.tables, s.now, s.clients[i]);
      State(t, s.now, s.clients[i := c])
  }

  function Metering(): Machine<State, Step> {
    Machine(Enabled, (s: State, step: Step) => if Enabled(s, step) then Next(s, step) else s)
  }

  // ---- exactly once ----

  /** Keys are unique and every returned event is the stored row of its key. */
  predicate Sound(s: State) {
    && UniqueKeys(s.tables.usage)
    && forall c | c in s.clients && c.Returned? ::
         c.event in s.tables.usage && c.event.idempotencyKey == c.req.idempotencyKey
  }

  /** Tables only grow and finished requests stay finished. */
  predicate Extends(s: State, s': State) {
    && s.tables.usage <= s'.tables.usage
    && |s.clients| <= |s'.clients|
    && forall i | 0 <= i < |s.clients| ::
         && s'.clients[i].req == s.clients[i].req
         && (s.clients[i].Done() ==> s'.clients[i] == s.clients[i])
  }

  lemma StepIsSound(s: State, step: Step)
    requires Sound(s) && Enabled(s, step)
    ensures Sound(Next(s, step)) && Extends(s, Next(s, step))
  {
    var s' := Next(s, step);
    assert forall e | e in s.tables.usage :: e in s'.tables.usage;
    if step.Advance? && s.clients[step.i].Inserting? {
      var e := s.clients[step.i].req.ToEvent(s.clients[step.i].stampedAt);
      AppendRespectsKeys(s.tables.usage, e);
      assert s'.tables.usage != s.tables.usage ==> s'.tables.usage[|s.tables.usage|] == e;
    }
  }

  lemma {:induction false} RunIsSound(s: State, steps: seq<Step>)
    requires Sound(s) && Metering().Valid(s, steps)
    ensures Sound(Metering().Run(s, steps)) && Extends(s, Metering().Run(s, steps))
    decreases |steps|
  {
    if steps != [] {
      StepIsSound(s, steps[0]);
      RunIsSound(Next(s, steps[0]), steps[1..]);
    }
  }

  /** In every interleaving there is at most one row per key, every request that
      returns for a key returns that row, and the row and the answer are the same
      in every later state. */
  lemma ExactlyOnce(s: State, steps: seq<Step>, later: seq<Step>)
    requires Sound(s) && Metering().Valid(s, steps) && Metering().Valid(Metering().Run(s, steps), later)
    ensures var mid := Metering().Run(s, steps);
            var end := Metering().Run(mid, later);
            && UniqueKeys(end.tables.usage)
            && mid.tables.usage <= end.tables.usage
            && |mid.clients| <= |end.clients|
            && (forall i | 0 <= i < |mid.clients| && mid.clients[i].Returned? ::
                  && end.clients[i] == mid.clients[i]
                  && forall e | e in end.tables.usage && e.idempotencyKey == mid.clients[i].req.idempotencyKey ::
                       e == mid.clients[i].event)
            && (forall i, j | 0 <= i < |end.clients| && 0 <= j < |end.clients|
                              && end.clients[i].Returned? && end.clients[j].Returned?
                              && end.clients[i].req.idempotencyKey == end.clients[j].req.idempotencyKey ::
                  end.clients[i].event == end.clients[j].event)
  {
    RunIsSound(s, steps);
    var mid := Metering().Run(s, steps);
    RunIsSound(mid, later);
    var end := Metering().Run(mid, later);
    forall c, e | c in end.clients && c.Returned? && e in end.tables.usage
                  && e.idempotencyKey == c.req.idempotencyKey
      ensures e == c.event
    {
      LookupIsUnique(end.tables.usage, e);
      LookupIsUnique(end.tables.usage, c.event);
    }
    forall i | 0 <= i < |end.clients|
      ensures end.clients[i] in end.clients
    {
    }
  }

  // ---- quota overshoot ----

  predicate Concerns(r: Request, subscriptionId: Uuid, usageType: UsageType) {
    r.subscriptionId == subscriptionId && r.usageType == usageType
  }

  function InFlight(subscriptionId: Uuid, usageType: UsageType): Client -> nat {
    (c: Client) => if Concerns(c.req, subscriptionId, usageType) && !c.Done() then 1 else 0
  }

  /** What a request may still add to month m when the current month is `current`.
      A request whose window went stale before its SUM counts as soon as it can
      no longer see the month it would land in. */
  function Exposure(subscriptionId: Uuid, usageType: UsageType, m: int, current: int, limit: nat): Client -> nat {
    (c: Client) =>
      if !Concerns(c.req, subscriptionId, usageType) then 0
      else match c
        case Stamping(r) => if m == current then r.quantity else 0
        case Inserting(r, at) => if m == Month(at) then r.quantity else 0
        case Summing(r, _, at) => if m == current && Month(at) != m && r.quantity <= limit then r.quantity else 0
        case _ => 0
  }

  /** At most n requests for the subscription and type are in flight, each of
      quantity at most q, and the plan in force allows at most `limit`. */
  predicate Bounded(s: State, subscriptionId: Uuid, usageType: UsageType, n: nat, q: nat, limit: nat) {
    && ForeignKeys(s.tables)
    && Sum(s.clients, InFlight(subscriptionId, usageType)) <= n
    && (forall c | c in s.clients && Concerns(c.req, subscriptionId, usageType) :: c.req.quantity <= q)
    && var found := GetById(s.tables.subscriptions, subscriptionId);
       found.Some? ==> LimitOf(s.tables.plans[s.tables.subscriptions[found.value].planId], usageType) <= limit
  }

  function BoundedBy(subscriptionId: Uuid, usageType: UsageType, n: nat, q: nat, limit: nat): State -> bool {
    (s: State) => Bounded(s, subscriptionId, usageType, n, q, limit)
  }

  predicate AlwaysBounded(s: State, steps: seq<Step>, subscriptionId: Uuid, usageType: UsageType,
                          n: nat, q: nat, limit: nat)
    requires Metering().Valid(s, steps)
  {
    Metering().Always(s, steps, BoundedBy(subscriptionId, usageType, n, q, limit))
  }

  /** Nothing is stamped after now, and every request past the quota check fits
      the limit on its own. */
  predicate ClientInOrder(c: Client, subscriptionId: Uuid, usageType: UsageType, now: Instant, limit: nat) {
    match c
    case Windowing(r, l) => Concerns(r, subscriptionId, usageType) ==> l <= limit
    case Summing(r, l, at) => (Concerns(r, subscriptionId, usageType) ==> l <= limit) && Month(at) <= Month(now)
    case Stamping(r) => Concerns(r, subscriptionId, usageType) ==> r.quantity <= limit
    case Inserting(r, at) =>
      (Concerns(r, subscriptionId, usageType) ==> r.quantity <= limit) && Month(at) <= Month(now)
    case _ => true
  }

  predicate InOrder(s: State, subscriptionId: Uuid, usageType: UsageType, limit: nat) {
    && StampedBy(s.tables.usage, s.now)
    && forall c | c in s.clients :: ClientInOrder(c, subscriptionId, usageType, s.now, limit)
  }

  /** Recorded plus exposed quantity of a month. */
  function Committed(s: State, subscriptionId: Uuid, usageType: UsageType, m: int, limit: nat): nat {
    MonthTotal(s.tables.usage, subscriptionId, usageType, m)
    + Sum(s.clients, Exposure(subscriptionId, usageType, m, Month(s.now), limit))
  }

  function Min(a: nat, b: nat): nat {
    if a < b then a else b
  }

  /** A request over the limit is refused whatever else happens, so at most
      Min(q, limit) of each request gets through. */
  function Overshoot(n: nat, q: nat, limit: nat): nat
    requires 1 <= n
  {
    limit + (n - 1) * Min(q, limit)
  }

  lemma OrderIsKept(s: State, step: Step, subscriptionId: Uuid, usageType: UsageType, n: nat, q: nat, limit: nat)
    requires Enabled(s, step) && InOrder(s, subscriptionId, usageType, limit)
    requires Bounded(s, subscriptionId, usageType, n, q, limit)
    ensures InOrder(Next(s, step), subscriptionId, usageType, limit)
  {
    var s' := Next(s, step);
    if step.Tick? {
      MonthIsMonotone(s.now, step.to);
    }
    forall c | c in s'.clients
      ensures ClientInOrder(c, subscriptionId, usageType, s'.now, limit)
    {
      if step.Advance? && c == s'.clients[step.i] {
        assert s.clients[step.i] in s.clients;
      } else if c !in s.clients {
        assert step.Begin?;
      }
    }
    if step.Advance? {
      assert s.clients[step.i] in s.clients;
    }
  }

  /** When a month begins, all that can land in it is what is in flight. */
  lemma NewMonthIsBounded(s: State, to: Instant, subscriptionId: Uuid, usageType: UsageType,
                          n: nat, q: nat, limit: nat)
    requires 1 <= n && Enabled(s, Tick(to)) && Month(s.now) < Month(to)
    requires InOrder(s, subscriptionId, usageType, limit) && Bounded(s, subscriptionId, usageType, n, q, limit)
    ensures Committed(s.(now := to), subscriptionId, usageType, Month(to), limit) <= Overshoot(n, q, limit)
  {
    var m := Month(to);
    var cap := Min(q, limit);
    NothingInFuture(s.tables.usage, subscriptionId, usageType, s.now, m);
    forall c | c in s.clients
      ensures Exposure(subscriptionId, usageType, m, m, limit)(c) <= cap * InFlight(subscriptionId, usageType)(c)
    {
      assert ClientInOrder(c, subscriptionId, usageType, s.now, limit);
    }
    SumCapped(s.clients, Exposure(subscriptionId, usageType, m, m, limit), InFlight(subscriptionId, usageType), cap);
    CapFits(Sum(s.clients, InFlight(subscriptionId, usageType)), n, q, limit);
  }

  lemma CapFits(k: nat, n: nat, q: nat, limit: nat)
    requires 1 <= n && k <= n
    ensures Min(q, limit) * k <= Overshoot(n, q, limit)
  {
    var cap := Min(q, limit);
    assert cap * k <= cap * n == cap + (n - 1) * cap;
  }

  lemma TickIsBounded(s: State, to: Instant, subscriptionId: Uuid, usageType: UsageType, m: int,
                      n: nat, q: nat, limit: nat)
    requires 1 <= n && Enabled(s, Tick(to))
    requires InOrder(s, subscriptionId, usageType, limit) && Bounded(s, subscriptionId, usageType, n, q, limit)
    requires Committed(s, subscriptionId, usageType, m, limit) <= Overshoot(n, q, limit)
    ensures Committed(s.(now := to), subscriptionId, usageType, m, limit) <= Overshoot(n, q, limit)
  {
    MonthIsMonotone(s.now, to);
    if Month(s.now) < Month(to) == m {
      NewMonthIsBounded(s, to, subscriptionId, usageType, n, q, limit);
    } else {
      SumMonotone(s.clients, Exposure(subscriptionId, usageType, m, Month(to), limit),
                  Exposure(subscriptionId, usageType, m, Month(s.now), limit));
    }
  }

  /** A request that passes a fresh check fits the limit; the others in flight
      add at most Min(q, limit) each. */
  lemma FreshCheckIsBounded(s: State, i: nat, subscriptionId: Uuid, usageType: UsageType,
                            n: nat, q: nat, limit: nat)
    requires 1 <= n && i < |s.clients| && s.clients[i].Summing?
    requires InOrder(s, subscriptionId, usageType, limit) && Bounded(s, subscriptionId, usageType, n, q, limit)
    requires Concerns(s.clients[i].req, subscriptionId, usageType)
    requires var m := Month(s.now);
             MonthTotal(s.tables.usage, subscriptionId, usageType, m) + s.clients[i].req.quantity <= limit
    ensures var s' := s.(clients := s.clients[i := Stamping(s.clients[i].req)]);
            Committed(s', subscriptionId, usageType, Month(s.now), limit) <= Overshoot(n, q, limit)
  {
    var r := s.clients[i].req;
    var exposure := Exposure(subscriptionId, usageType, Month(s.now), Month(s.now), limit);
    var inFlight := InFlight(subscriptionId, usageType);
    var others := s.clients[i := Refused(r, NotFound)];
    SumUpdate(s.clients, i, Refused(r, NotFound), inFlight);
    SumUpdate(others, i, Stamping(r), exposure);
    assert others[i := Stamping(r)] == s.clients[i := Stamping(r)];
    forall c | c in others
      ensures exposure(c) <= Min(q, limit) * inFlight(c)
    {
      assert c in s.clients || c == Refused(r, NotFound);
      assert c in s.clients ==> ClientInOrder(c, subscriptionId, usageType, s.now, limit);
    }
    SumCapped(others, exposure, inFlight, Min(q, limit));
    MoreInFlight(Sum(others, inFlight), n - 1, Min(q, limit));
  }

  lemma MoreInFlight(k: nat, n: nat, q: nat)
    requires k <= n
    ensures q * k <= n * q
  {
  }

  /** Only the last step touches the usage table, and only to append its row. */
  lemma ProceedWrites(t: Tables, now: Instant, c: Client)
    requires ForeignKeys(t)
    ensures var (t', c') := Proceed(t, now, c);
            && c'.req == c.req
            && (t' == t ||
                (c.Inserting? && c'.Returned? && t' == t.(usage := t.usage + [c.req.ToEvent(c.stampedAt)])))
  {
  }

  lemma InsertIsBounded(s: State, i: nat, subscriptionId: Uuid, usageType: UsageType, m: int, limit: nat)
    requires Enabled(s, Advance(i)) && s.clients[i].Inserting?
    ensures Committed(Next(s, Advance(i)), subscriptionId, usageType, m, limit)
            <= Committed(s, subscriptionId, usageType, m, limit)
  {
    var c := s.clients[i];
    ProceedWrites(s.tables, s.now, c);
    SumUpdate(s.clients, i, Proceed(s.tables, s.now, c).1, Exposure(subscriptionId, usageType, m, Month(s.now), limit));
    SumAppend(s.tables.usage, c.req.ToEvent(c.stampedAt), MonthQuantity(subscriptionId, usageType, m));
  }

  lemma CheckIsBounded(s: State, i: nat, subscriptionId: Uuid, usageType: UsageType, m: int,
                       n: nat, q: nat, limit: nat)
    requires 1 <= n && Enabled(s, Advance(i)) && s.clients[i].Summing?
    requires InOrder(s, subscriptionId, usageType, limit) && Bounded(s, subscriptionId, usageType, n, q, limit)
    requires Committed(s, subscriptionId, usageType, m, limit) <= Overshoot(n, q, limit)
    ensures Committed(Next(s, Advance(i)), subscriptionId, usageType, m, limit) <= Overshoot(n, q, limit)
  {
    var c := s.clients[i];
    assert c in s.clients && ClientInOrder(c, subscriptionId, usageType, s.now, limit);
    var c' := Proceed(s.tables, s.now, c).1;
    WindowTotalIsMonthTotal(s.tables.usage, c.req.subscriptionId, c.req.usageType, c.windowAt);
    if c'.Stamping? && Concerns(c.req, subscriptionId, usageType) && m == Month(s.now) == Month(c.windowAt) {
      FreshCheckIsBounded(s, i, subscriptionId, usageType, n, q, limit);
    } else {
      SumUpdate(s.clients, i, c', Exposure(subscriptionId, usageType, m, Month(s.now), limit));
    }
  }

  lemma AdvanceIsBounded(s: State, i: nat, subscriptionId: Uuid, usageType: UsageType, m: int,
                         n: nat, q: nat, limit: nat)
    requires 1 <= n && Enabled(s, Advance(i))
    requires InOrder(s, subscriptionId, usageType, limit) && Bounded(s, subscriptionId, usageType, n, q, limit)
    requires Committed(s, subscriptionId, usageType, m, limit) <= Overshoot(n, q, limit)
    ensures Committed(Next(s, Advance(i)), subscriptionId, usageType, m, limit) <= Overshoot(n, q, limit)
  {
    var c := s.clients[i];
    if c.Inserting? {
      InsertIsBounded(s, i, subscriptionId, usageType, m, limit);
    } else if c.Summing? {
      CheckIsBounded(s, i, subscriptionId, usageType, m, n, q, limit);
    } else {
      ProceedWrites(s.tables, s.now, c);
      SumUpdate(s.clients, i, Proceed(s.tables, s.now, c).1,
                Exposure(subscriptionId, usageType, m, Month(s.now), limit));
    }
  }

  lemma StepIsBounded(s: State, step: Step, subscriptionId: Uuid, usageType: UsageType, m: int,
                      n: nat, q: nat, limit: nat)
    requires 1 <= n && Enabled(s, step)
    requires InOrder(s, subscriptionId, usageType, limit) && Bounded(s, subscriptionId, usageType, n, q, limit)
    requires Committed(s, subscriptionId, usageType, m, limit) <= Overshoot(n, q, limit)
    ensures Committed(Next(s, step), subscriptionId, usageType, m, limit) <= Overshoot(n, q, limit)
  {
    match step {
      case Tick(to) => TickIsBounded(s, to, subscriptionId, usageType, m, n, q, limit);
      case Environment(_) =>
      case Begin(r) =>
        SumAppend(s.clients, Looking(r), Exposure(subscriptionId, usageType, m, Month(s.now), limit));
      case Advance(i) => AdvanceIsBounded(s, i, subscriptionId, usageType, m, n, q, limit);
    }
  }

  lemma {:induction false} RunIsBounded(s: State, steps: seq<Step>, subscriptionId: Uuid, usageType: UsageType, m: int,
                                        n: nat, q: nat, limit: nat)
    requires 1 <= n && Metering().Valid(s, steps)
    requires AlwaysBounded(s, steps, subscriptionId, usageType, n, q, limit)
    requires InOrder(s, subscriptionId, usageType, limit)
    requires Committed(s, subscriptionId, usageType, m, limit) <= Overshoot(n, q, limit)
    ensures Committed(Metering().Run(s, steps), subscriptionId, usageType, m, limit) <= Overshoot(n, q, limit)
    decreases |steps|
  {
    if steps != [] {
      OrderIsKept(s, steps[0], subscriptionId, usageType, n, q, limit);
      StepIsBounded(s, steps[0], subscriptionId, usageType, m, n, q, limit);
      RunIsBounded(Next(s, steps[0]), steps[1..], subscriptionId, usageType, m, n, q, limit);
    }
  }

  /** With at most n requests in flight per subscription and type, each of
      quantity at most q, every reachable state keeps each calendar month at most
      (n - 1) * Min(q, limit) over the limit, even when the month turns between the window's
      clock reading, the SUM, the row's timestamp and the INSERT. */
  lemma QuotaOvershoot(s: State, steps: seq<Step>, subscriptionId: Uuid, usageType: UsageType, m: int,
                       n: nat, q: nat, limit: nat)
    requires 1 <= n && s.clients == [] && StampedBy(s.tables.usage, s.now)
    requires MonthTotal(s.tables.usage, subscriptionId, usageType, m) <= limit
    requires Metering().Valid(s, steps) && AlwaysBounded(s, steps, subscriptionId, usageType, n, q, limit)
    ensures MonthTotal(Metering().Run(s, steps).tables.usage, subscriptionId, usageType, m)
            <= limit + (n - 1) * Min(q, limit)
  {
    RunIsBounded(s, steps, subscriptionId, usageType, m, n, q, limit);
  }

  // ---- deactivation ----

  /** Requests that have already seen their subscription active. */
  function Admitted(subscriptionId: Uuid): Client -> nat {
    (c: Client) =>
      if c.req.subscriptionId == subscriptionId && (c.Windowing? || c.Summing? || c.Stamping? || c.Inserting?)
      then 1 else 0
  }

  function RowOf(subscriptionId: Uuid): UsageEvent -> nat {
    (e: UsageEvent) => if e.subscriptionId == subscriptionId then 1 else 0
  }

  function Inactive(subscriptionId: Uuid): State -> bool {
    (s: State) => !IsActive(s.tables, subscriptionId)
  }

  predicate NeverActive(s: State, steps: seq<Step>, subscriptionId: Uuid)
    requires Metering().Valid(s, steps)
  {
    Metering().Always(s, steps, Inactive(subscriptionId))
  }

  /** Rows of a subscription plus requests that may still add one. */
  function Ceiling(s: State, subscriptionId: Uuid): nat {
    Sum(s.tables.usage, RowOf(subscriptionId)) + Sum(s.clients, Admitted(subscriptionId))
  }

  lemma NoneAdmitted(t: Tables, now: Instant, c: Client, subscriptionId: Uuid)
    requires ForeignKeys(t) && !IsActive(t, subscriptionId)
    ensures Admitted(subscriptionId)(Proceed(t, now, c).1) <= Admitted(subscriptionId)(c)
  {
  }

  lemma LateStep(s: State, step: Step, subscriptionId: Uuid)
    requires Enabled(s, step) && !IsActive(s.tables, subscriptionId)
    ensures Ceiling(Next(s, step), subscriptionId) <= Ceiling(s, subscriptionId)
  {
    match step {
      case Begin(r) => SumAppend(s.clients, Looking(r), Admitted(subscriptionId));
      case Advance(i) =>
        var c := s.clients[i];
        ProceedWrites(s.tables, s.now, c);
        NoneAdmitted(s.tables, s.now, c, subscriptionId);
        SumUpdate(s.clients, i, Proceed(s.tables, s.now, c).1, Admitted(subscriptionId));
        if c.Inserting? {
          SumAppend(s.tables.usage, c.req.ToEvent(c.stampedAt), RowOf(subscriptionId));
        }
      case _ =>
    }
  }

  /** Over any stretch in which a subscription is not active, the rows it gains
      are inserted by requests that were admitted before; each inserts at most one. */
  lemma {:induction false} LateInsertsBounded(s: State, steps: seq<Step>, subscriptionId: Uuid)
    requires Metering().Valid(s, steps) && NeverActive(s, steps, subscriptionId)
    ensures Sum(Metering().Run(s, steps).tables.usage, RowOf(subscriptionId))
            <= Sum(s.tables.usage, RowOf(subscriptionId)) + Sum(s.clients, Admitted(subscriptionId))
    ensures Ceiling(Metering().Run(s, steps), subscriptionId) <= Ceiling(s, subscriptionId)
    decreases |steps|
  {
    if steps != [] {
      LateStep(s, steps[0], subscriptionId);
      LateInsertsBounded(Next(s, steps[0]), steps[1..], subscriptionId);
    }
  }

  // ---- one request at a time ----

  lemma AdvanceLast(t: Tables, now: Instant, before: seq<Client>, c: Client, after: (Tables, Client),
                    rest: seq<Step>, end: State)
    requires ForeignKeys(t) && Proceed(t, now, c) == after
    requires Metering().Reaches(State(after.0, now, before + [after.1]), rest, end)
    ensures Metering().Reaches(State(t, now, before + [c]), [Advance(|before|)] + rest, end)
  {
    var s := State(t, now, before + [c]);
    assert s.clients[|before| := after.1] == before + [after.1];
    Metering().Prepend(s, Advance(|before|), State(after.0, now, before + [after.1]), rest, end);
  }

  /** One request run to completion, with the clock readings of `Record`. */
  function Serial(i: nat, r: Request, checkAt: Instant, stampAt: Instant): seq<Step> {
    [Begin(r)] + ([Advance(i)] + ([Advance(i)] + ([Tick(checkAt)] + ([Advance(i)] + ([Advance(i)]
    + ([Tick(stampAt)] + ([Advance(i)] + ([Advance(i)] + []))))))))
  }

  function Finished(r: Request, answer: Answer): Client {
    if answer.Recorded? then Returned(r, answer.event) else Refused(r, answer)
  }

  /** The six steps of one request, with nothing in between. */
  lemma SoloIsRecord(t: Tables, now: Instant, r: Request, checkAt: Instant, stampAt: Instant)
    returns (c1: Client, c2: Client, c3: Client, c4: Client, c5: Client)
    requires ForeignKeys(t)
    ensures Proceed(t, now, Looking(r)) == (t, c1)
    ensures Proceed(t, now, c1) == (t, c2)
    ensures Proceed(t, checkAt, c2) == (t, c3)
    ensures Proceed(t, checkAt, c3) == (t, c4)
    ensures Proceed(t, stampAt, c4) == (t, c5)
    ensures var (t', answer) := Record(t, r, checkAt, stampAt);
            Proceed(t, stampAt, c5) == (t', Finished(r, answer)) && ForeignKeys(t')
  {
    c1 := Proceed(t, now, Looking(r)).1;
    c2 := Proceed(t, now, c1).1;
    c3 := Proceed(t, checkAt, c2).1;
    c4 := Proceed(t, checkAt, c3).1;
    c5 := Proceed(t, stampAt, c4).1;
  }

  /** Undisturbed, the six steps do what the sequential service does, to the
      tables and to the caller. */
  lemma SerialIsRecord(s: State, r: Request, checkAt: Instant, stampAt: Instant)
    requires ForeignKeys(s.tables) && s.now.AtMost(checkAt) && checkAt.AtMost(stampAt)
    ensures var steps := Serial(|s.clients|, r, checkAt, stampAt);
            var (t', answer) := Record(s.tables, r, checkAt, stampAt);
            Metering().Reaches(s, steps, State(t', stampAt, s.clients + [Finished(r, answer)]))
  {
    var t, before, a := s.tables, s.clients, Advance(|s.clients|);
    var c1, c2, c3, c4, c5 := SoloIsRecord(t, s.now, r, checkAt, stampAt);
    var (t', answer) := Record(t, r, checkAt, stampAt);
    var end := State(t', stampAt, before + [Finished(r, answer)]);
    AdvanceLast(t, stampAt, before, c5, (t', Finished(r, answer)), [], end);
    AdvanceLast(t, stampAt, before, c4, (t, c5), [a] + [], end);
    var rest := [a] + ([a] + []);
    Metering().Prepend(State(t, checkAt, before + [c4]), Tick(stampAt), State(t, stampAt, before + [c4]), rest, end);
    rest := [Tick(stampAt)] + rest;
    AdvanceLast(t, checkAt, before, c3, (t, c4), rest, end);
    rest := [a] + rest;
    AdvanceLast(t, checkAt, before, c2, (t, c3), rest, end);
    rest := [a] + rest;
    Metering().Prepend(State(t, s.now, before + [c2]), Tick(checkAt), State(t, checkAt, before + [c2]), rest, end);
    rest := [Tick(checkAt)] + rest;
    AdvanceLast(t, s.now, before, c1, (t, c2), rest, end);
    rest := [a] + rest;
    AdvanceLast(t, s.now, before, Looking(r), (t, c1), rest, end);
    rest := [a] + rest;
    Metering().Prepend(s, Begin(r), State(t, s.now, before + [Looking(r)]), rest, end);
  }

  // ---- the overshoot bound is attained ----

  /** A schedule of requests of quantity at most q, with no other change. */
  predicate Quiet(steps: seq<Step>, q: nat) {
    forall step | step in steps :: step.Advance? || (step.Begin? && step.req.quantity <= q)
  }

  lemma {:induction false} QuietIsBounded(s: State, steps: seq<Step>, subscriptionId: Uuid, usageType: UsageType,
                                          n: nat, q: nat, limit: nat)
    requires Metering().Valid(s, steps) && Quiet(steps, q) && |Metering().Run(s, steps).clients| <= n
    requires ForeignKeys(s.tables) && forall c | c in s.clients :: c.req.quantity <= q
    requires var found := GetById(s.tables.subscriptions, subscriptionId);
             found.Some? && LimitOf(s.tables.plans[s.tables.subscriptions[found.value].planId], usageType) <= limit
    ensures AlwaysBounded(s, steps, subscriptionId, usageType, n, q, limit)
    ensures |s.clients| <= |Metering().Run(s, steps).clients|
    decreases |steps|
  {
    if steps != [] {
      assert steps[0] in steps;
      forall c | c in Next(s, steps[0]).clients
        ensures c.req.quantity <= q
      {
        if c !in s.clients && steps[0].Advance? {
          assert s.clients[steps[0].i] in s.clients;
        }
      }
      QuietIsBounded(Next(s, steps[0]), steps[1..], subscriptionId, usageType, n, q, limit);
    }
    SumOfOnes(s.clients, InFlight(subscriptionId, usageType));
  }

  lemma {:induction false} SumOfOnes(clients: seq<Client>, w: Client -> nat)
    requires forall c | c in clients :: w(c) <= 1
    ensures Sum(clients, w) <= |clients|
  {
    if clients != [] {
      SumOfOnes(clients[..|clients| - 1], w);
      assert clients[|clients| - 1] in clients;
    }
  }

  /** The limit in force for an active subscription. */
  function PlanLimit(t: Tables, subscriptionId: Uuid, usageType: UsageType): int
    requires ForeignKeys(t) && IsActive(t, subscriptionId)
  {
    LimitOf(t.plans[t.subscriptions[GetById(t.subscriptions, subscriptionId).value].planId], usageType)
  }

  /** Requests of one quantity for one subscription and type, all at one instant,
      with keys that get longer from `base` on. */
  datatype Race = Race(subscriptionId: Uuid, usageType: UsageType, quantity: nat, now: Instant, base: nat)
  {
    function Racer(k: nat): Request {
      Request(subscriptionId, usageType, quantity, 0, 0, 0, 0, seq(base + k, _ => 'k'))
    }

    function Row(k: nat): UsageEvent {
      Racer(k).ToEvent(now)
    }

    function Rows(k: nat): seq<UsageEvent> {
      seq(k, (j: nat) => Row(j))
    }

    /** Racers below `done` have inserted; the others passed the check. */
    function Clients(done: nat, k: nat): seq<Client> {
      seq(k, (j: nat) => if j < done then Returned(Racer(j), Row(j)) else Stamping(Racer(j)))
    }

    /** Of n racers past the check, the first `done` have inserted. */
    function Inserted(t: Tables, done: nat, n: nat): State {
      State(t.(usage := t.usage + Rows(done)), now, Clients(done, n))
    }

    predicate NewKeys(t: Tables) {
      forall e | e in t.usage :: |e.idempotencyKey| < base
    }

    /** Alone, every racer would be admitted. */
    predicate Admissible(t: Tables, limit: nat) {
      && ForeignKeys(t) && NewKeys(t) && IsActive(t, subscriptionId)
      && PlanLimit(t, subscriptionId, usageType) == limit
      && MonthTotal(t.usage, subscriptionId, usageType, Month(now)) + quantity <= limit
    }
  }

  lemma RacerChecks(t: Tables, race: Race, limit: nat, k: nat)
    requires race.Admissible(t, limit)
    ensures var r, now := race.Racer(k), race.now;
            && Proceed(t, now, Looking(r)) == (t, Loading(r))
            && Proceed(t, now, Loading(r)) == (t, Windowing(r, limit))
            && Proceed(t, now, Windowing(r, limit)) == (t, Summing(r, limit, now))
            && Proceed(t, now, Summing(r, limit, now)) == (t, Stamping(r))
  {
    WindowTotalIsMonthTotal(t.usage, race.subscriptionId, race.usageType, race.now);
    assert GetByIdempotencyKey(t.usage, race.Racer(k).idempotencyKey).None?;
  }

  lemma OneMorePasses(t: Tables, race: Race, limit: nat, k: nat) returns (steps: seq<Step>)
    requires race.Admissible(t, limit)
    ensures var start := State(t, race.now, race.Clients(0, k));
            && Metering().Reaches(start, steps, State(t, race.now, race.Clients(0, k + 1)))
            && Quiet(steps, race.quantity)
  {
    var before, now := race.Clients(0, k), race.now;
    var r, a := race.Racer(k), Advance(k);
    assert before + [Stamping(r)] == race.Clients(0, k + 1);
    RacerChecks(t, race, limit, k);
    var end := State(t, now, before + [Stamping(r)]);
    AdvanceLast(t, now, before, Summing(r, limit, now), (t, Stamping(r)), [], end);
    AdvanceLast(t, now, before, Windowing(r, limit), (t, Summing(r, limit, now)), [a] + [], end);
    AdvanceLast(t, now, before, Loading(r), (t, Windowing(r, limit)), [a] + ([a] + []), end);
    AdvanceLast(t, now, before, Looking(r), (t, Loading(r)), [a] + ([a] + ([a] + [])), end);
    var rest := [a] + ([a] + ([a] + ([a] + [])));
    Metering().Prepend(State(t, now, before), Begin(r), State(t, now, before + [Looking(r)]), rest, end);
    steps := [Begin(r)] + rest;
  }

  lemma {:induction false} AllPassTheCheck(t: Tables, race: Race, limit: nat, k: nat) returns (steps: seq<Step>)
    requires race.Admissible(t, limit)
    ensures Metering().Reaches(State(t, race.now, []), steps, State(t, race.now, race.Clients(0, k)))
    ensures Quiet(steps, race.quantity)
  {
    steps := [];
    if k > 0 {
      var first := AllPassTheCheck(t, race, limit, k - 1);
      var last := OneMorePasses(t, race, limit, k - 1);
      Metering().Join(State(t, race.now, []), first, State(t, race.now, race.Clients(0, k - 1)),
                      last, State(t, race.now, race.Clients(0, k)));
      steps := first + last;
    }
  }

  /** A racer past the check inserts, whatever has become of its subscription. */
  lemma OneMoreInserts(t: Tables, race: Race, n: nat, k: nat) returns (steps: seq<Step>)
    requires ForeignKeys(t) && race.NewKeys(t) && k < n
    ensures Metering().Reaches(race.Inserted(t, k, n), steps, race.Inserted(t, k + 1, n))
    ensures Quiet(steps, race.quantity)
  {
    var mid, end, a := race.Inserted(t, k, n), race.Inserted(t, k + 1, n), Advance(k);
    var r := race.Racer(k);
    var stamped := Next(mid, a);
    forall e | e in mid.tables.usage
      ensures e.idempotencyKey != r.idempotencyKey
    {
      assert |e.idempotencyKey| < |r.idempotencyKey|;
    }
    assert Next(stamped, a).clients == race.Clients(k + 1, n);
    assert t.usage + race.Rows(k) + [race.Row(k)] == t.usage + race.Rows(k + 1);
    Metering().Prepend(stamped, a, end, [], end);
    Metering().Prepend(mid, a, stamped, [a] + [], end);
    steps := [a] + ([a] + []);
  }

  lemma {:induction false} AllInsert(t: Tables, race: Race, n: nat, k: nat) returns (steps: seq<Step>)
    requires ForeignKeys(t) && race.NewKeys(t) && k <= n
    ensures Metering().Reaches(State(t, race.now, race.Clients(0, n)), steps, race.Inserted(t, k, n))
    ensures Quiet(steps, race.quantity)
  {
    steps := [];
    if k == 0 {
      assert t.usage + race.Rows(0) == t.usage;
    } else {
      var first := AllInsert(t, race, n, k - 1);
      var last := OneMoreInserts(t, race, n, k - 1);
      Metering().Join(State(t, race.now, race.Clients(0, n)), first, race.Inserted(t, k - 1, n),
                      last, race.Inserted(t, k, n));
      steps := first + last;
    }
  }

  lemma {:induction false} RacedTotal(usage: seq<UsageEvent>, race: Race, k: nat)
    ensures MonthTotal(usage + race.Rows(k), race.subscriptionId, race.usageType, Month(race.now))
            == MonthTotal(usage, race.subscriptionId, race.usageType, Month(race.now)) + k * race.quantity
    ensures Sum(usage + race.Rows(k), RowOf(race.subscriptionId)) == Sum(usage, RowOf(race.subscriptionId)) + k
  {
    if k == 0 {
      assert usage + race.Rows(0) == usage;
    } else {
      var init := usage + race.Rows(k - 1);
      assert usage + race.Rows(k) == init + [race.Row(k - 1)];
      RacedTotal(usage, race, k - 1);
      SumAppend(init, race.Row(k - 1), MonthQuantity(race.subscriptionId, race.usageType, Month(race.now)));
      SumAppend(init, race.Row(k - 1), RowOf(race.subscriptionId));
      assert k * race.quantity == (k - 1) * race.quantity + race.quantity;
    }
  }

  /** For every n, q and limit, a race of n requests from a month in which one of
      them still just fits attains the overshoot bound, within the very
      assumptions of `QuotaOvershoot`. */
  lemma OvershootIsAttained(t: Tables, now: Instant, subscriptionId: Uuid, usageType: UsageType,
                            n: nat, q: nat, limit: nat) returns (steps: seq<Step>)
    requires 1 <= n && ForeignKeys(t) && IsActive(t, subscriptionId)
    requires PlanLimit(t, subscriptionId, usageType) == limit
    requires MonthTotal(t.usage, subscriptionId, usageType, Month(now)) == limit - Min(q, limit)
    ensures var s := State(t, now, []);
            && Metering().Valid(s, steps) && AlwaysBounded(s, steps, subscriptionId, usageType, n, q, limit)
            && MonthTotal(Metering().Run(s, steps).tables.usage, subscriptionId, usageType, Month(now))
               == limit + (n - 1) * Min(q, limit)
  {
    var s := State(t, now, []);
    var base := Above(t.usage, (e: UsageEvent) => |e.idempotencyKey|);
    var race := Race(subscriptionId, usageType, Min(q, limit), now, base);
    var check := AllPassTheCheck(t, race, limit, n);
    var insert := AllInsert(t, race, n, n);
    Metering().Join(s, check, State(t, now, race.Clients(0, n)), insert, race.Inserted(t, n, n));
    steps := check + insert;
    QuietIsBounded(s, steps, subscriptionId, usageType, n, q, limit);
    RacedTotal(t.usage, race, n);
    assert n * Min(q, limit) == (n - 1) * Min(q, limit) + Min(q, limit);
  }

  // ---- the deactivation bound is attained ----

  lemma {:induction false} QuietStaysInactive(s: State, steps: seq<Step>, subscriptionId: Uuid, q: nat)
    requires Metering().Valid(s, steps) && Quiet(steps, q) && !IsActive(s.tables, subscriptionId)
    ensures NeverActive(s, steps, subscriptionId)
    decreases |steps|
  {
    if steps != [] {
      assert steps[0] in steps;
      if steps[0].Advance? {
        ProceedWrites(s.tables, s.now, s.clients[steps[0].i]);
      }
      QuietStaysInactive(Next(s, steps[0]), steps[1..], subscriptionId, q);
    }
  }

  lemma {:induction false} AllAdmitted(race: Race, n: nat)
    ensures Sum(race.Clients(0, n), Admitted(race.subscriptionId)) == n
  {
    if n > 0 {
      assert race.Clients(0, n)[..n - 1] == race.Clients(0, n - 1);
      AllAdmitted(race, n - 1);
    }
  }

  /** For every n, n requests can pass the status check, the subscription be
      deactivated, and each of them still insert its row: `LateInsertsBounded`
      holds with equality. */
  lemma LateInsertsAttained(t: Tables, now: Instant, subscriptionId: Uuid, usageType: UsageType,
                            q: nat, n: nat, inactive: seq<Subscription>)
    returns (before: seq<Step>, after: seq<Step>)
    requires ForeignKeys(t) && IsActive(t, subscriptionId)
    requires MonthTotal(t.usage, subscriptionId, usageType, Month(now)) + q
             <= PlanLimit(t, subscriptionId, usageType)
    requires ForeignKeys(t.(subscriptions := inactive)) && !IsActive(t.(subscriptions := inactive), subscriptionId)
    ensures Metering().Valid(State(t, now, []), before)
    ensures var mid := Metering().Run(State(t, now, []), before);
            && mid.tables == t.(subscriptions := inactive)
            && Sum(mid.clients, Admitted(subscriptionId)) == n
            && Metering().Valid(mid, after) && NeverActive(mid, after, subscriptionId)
            && Sum(Metering().Run(mid, after).tables.usage, RowOf(subscriptionId))
               == Sum(mid.tables.usage, RowOf(subscriptionId)) + Sum(mid.clients, Admitted(subscriptionId))
  {
    var s, off := State(t, now, []), t.(subscriptions := inactive);
    var base := Above(t.usage, (e: UsageEvent) => |e.idempotencyKey|);
    var race := Race(subscriptionId, usageType, q, now, base);
    var limit: nat := PlanLimit(t, subscriptionId, usageType);
    var check := AllPassTheCheck(t, race, limit, n);
    var passed, stopped := State(t, now, race.Clients(0, n)), State(off, now, race.Clients(0, n));
    Metering().Prepend(passed, Environment(inactive), stopped, [], stopped);
    Metering().Join(s, check, passed, [Environment(inactive)] + [], stopped);
    before := check + ([Environment(inactive)] + []);
    after := AllInsert(off, race, n, n);
    QuietStaysInactive(stopped, after, subscriptionId, q);
    AllAdmitted(race, n);
    RacedTotal(t.usage, race, n);
  }
}
