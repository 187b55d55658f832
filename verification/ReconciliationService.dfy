/**
 The nightly reconciliation job (app/services/reconciliation_service.py): a
 retrying reader of Stripe's view that overwrites the status of linked rows.
 */
module ReconciliationService {
  import opened Models
  import opened Powers
  import opened Session
  import opened SubscriptionRepository
  import opened Sums
  import S = StripeService

  datatype Outcome<+T> = Ok(value: T) | Raised(error: string)

  // ---- backoff ----

  /** How many of the calls from `from` on fail before one succeeds, counted
      from call 0; `attempts` if none does. */
  function Failures<T>(call: nat -> Outcome<T>, attempts: nat, from: nat := 0): (failures: nat)
    requires from <= attempts
    ensures from <= failures <= attempts
    ensures forall k | from <= k < failures :: call(k).Raised?
    ensures failures < attempts ==> call(failures).Ok?
    decreases attempts - from
  {
    if from == attempts || call(from).Ok? then from else Failures(call, attempts, from + 1)
  }

  /** How often a call is tried, and the first delay in seconds; any numbers will do. */
  datatype Policy = Policy(attempts: int, baseDelay: real)
  {
    function Tries(): nat {
      if attempts <= 0 then 0 else attempts
    }

    /** A retry would have to sleep for a negative time, which raises. */
    predicate CannotSleep() {
      baseDelay < 0.0 && 1 < attempts
    }
  }

  /** The result of a retried call: the first success, else the last failure.
      With no attempt at all the code raises None, which is a TypeError; a failed
      sleep ends the retries with a ValueError. */
  function Retried<T>(call: nat -> Outcome<T>, policy: Policy): Outcome<T> {
    if policy.attempts <= 0 then Raised("TypeError")
    else if policy.CannotSleep() && call(0).Raised? then Raised("ValueError")
    else
      var failures := Failures(call, policy.attempts);
      if failures < policy.attempts then call(failures) else call(policy.attempts - 1)
  }

  /** How many calls are made for it. */
  function Tried<T>(call: nat -> Outcome<T>, policy: Policy): nat {
    if policy.attempts <= 0 then 0
    else if policy.CannotSleep() then 1
    else
      var failures := Failures(call, policy.attempts);
      if failures < policy.attempts then failures + 1 else policy.attempts
  }

  /** The k-th delay doubles the one before. */
  function Delay(baseDelay: real, k: nat): real
    decreases k
  {
    if k == 0 then baseDelay else 2.0 * Delay(baseDelay, k - 1)
  }

  /** The time slept in a number of delays. */
  function Backoff(baseDelay: real, sleeps: nat): real
    decreases sleeps
  {
    if sleeps == 0 then 0.0 else Backoff(baseDelay, sleeps - 1) + Delay(baseDelay, sleeps - 1)
  }

  /** The time slept in between. */
  function Slept<T>(call: nat -> Outcome<T>, policy: Policy): real {
    var calls := Tried(call, policy);
    Backoff(policy.baseDelay, if calls == 0 then 0 else calls - 1)
  }

  /** Calls 0 to k - 1 raise and call k succeeds. */
  predicate FirstSuccess<T>(call: nat -> Outcome<T>, k: nat) {
    call(k).Ok? && forall j | 0 <= j < k :: call(j).Raised?
  }

  predicate AllRaise<T>(call: nat -> Outcome<T>, attempts: int) {
    forall k | 0 <= k < attempts :: call(k).Raised?
  }

  /** What a retried call does, by what the calls answer. The first success within
      the attempts is returned, after failures only if their sleeps can be slept;
      if all attempts raise, so does the result, as the last one did; a sleep of
      negative length and a call without attempts raise exceptions of their own. */
  ghost predicate Retries<T>(call: nat -> Outcome<T>, policy: Policy, result: Outcome<T>, calls: nat, slept: real) {
    var (attempts, baseDelay) := (policy.attempts, policy.baseDelay);
    && (attempts <= 0 ==> result == Raised("TypeError") && calls == 0 && slept == Backoff(baseDelay, 0))
    && (attempts > 1 && baseDelay < 0.0 && call(0).Raised? ==>
          result == Raised("ValueError") && calls == 1 && slept == Backoff(baseDelay, 0))
    && (forall k: nat | k < attempts && FirstSuccess(call, k) && (k == 0 || 0.0 <= baseDelay) ::
          result == call(k) && calls == k + 1 && slept == Backoff(baseDelay, k))
    && (attempts >= 1 && (attempts == 1 || 0.0 <= baseDelay) && AllRaise(call, attempts) ==>
          result == call(attempts - 1) && calls == attempts && slept == Backoff(baseDelay, attempts - 1))
  }

  lemma RetryMeans<T>(call: nat -> Outcome<T>, policy: Policy)
    ensures Retries(call, policy, Retried(call, policy), Tried(call, policy), Slept(call, policy))
  {
    forall k: nat | k < policy.attempts && FirstSuccess(call, k)
      ensures Failures(call, policy.attempts) == k
    {
      FailuresIs(call, policy.attempts, k);
    }
    if policy.attempts >= 1 && AllRaise(call, policy.attempts) {
      FailuresIs(call, policy.attempts, policy.attempts);
    }
  }

  /** k doubling delays add up to 2^k - 1 times the first. */
  lemma {:induction false} BackoffSums(baseDelay: real, k: nat)
    ensures Delay(baseDelay, k) == baseDelay * Pow2(k) as real
    ensures Backoff(baseDelay, k) == baseDelay * (Pow2(k) - 1) as real
    decreases k
  {
    if k > 0 {
      BackoffSums(baseDelay, k - 1);
      var p := Pow2(k - 1) as real;
      assert baseDelay * (2.0 * p) == 2.0 * (baseDelay * p);
      assert baseDelay * (p - 1.0) + baseDelay * p == baseDelay * (2.0 * p - 1.0);
    }
  }

  lemma {:induction false} DelaySign(baseDelay: real, k: nat)
    ensures Delay(baseDelay, k) < 0.0 <==> baseDelay < 0.0
    decreases k
  {
    if k > 0 {
      DelaySign(baseDelay, k - 1);
    }
  }

  /** Calls up to `attempts` times; sleeps between failures, doubling the delay. */
  method Retry<T>(call: nat -> Outcome<T>, policy: Policy) returns (result: Outcome<T>, calls: nat, slept: real)
    ensures result == Retried(call, policy) && calls == Tried(call, policy) && slept == Slept(call, policy)
    ensures calls <= policy.Tries()
    ensures Retries(call, policy, result, calls, slept)
  {
    result, calls, slept := Raised("TypeError"), 0, 0.0;
    var attempts, delay := policy.attempts, policy.baseDelay;
    var attempt := 0;
    while attempt < attempts
      invariant attempt == 0 || 0 < attempt <= attempts
      invariant calls == attempt
      invariant forall k | 0 <= k < attempt :: call(k).Raised?
      invariant result == if attempt == 0 then Raised("TypeError") else call(attempt - 1)
      invariant attempt < attempts ==> delay == Delay(policy.baseDelay, attempt)
      invariant 0 < attempt ==> !policy.CannotSleep()
      invariant slept == Backoff(policy.baseDelay, if attempt == 0 || attempt < attempts then attempt else attempts - 1)
    {
      var outcome := call(attempt);
      calls := calls + 1;
      if outcome.Ok? {
        FailuresIs(call, attempts, attempt);
        RetryMeans(call, policy);
        return outcome, calls, slept;
      }
      result := outcome;
      if attempt < attempts - 1 {
        DelaySign(policy.baseDelay, attempt);
        if delay < 0.0 {
          RetryMeans(call, policy);
          return Raised("ValueError"), calls, slept;
        }
        slept := slept + delay;
        delay := delay * 2.0;
      }
      attempt := attempt + 1;
    }
    if attempts >= 1 {
      FailuresIs(call, attempts, attempts);
    }
    RetryMeans(call, policy);
  }

  lemma FailuresIs<T>(call: nat -> Outcome<T>, attempts: nat, k: nat)
    requires k <= attempts
    requires forall j | 0 <= j < k :: call(j).Raised?
    requires k < attempts ==> call(k).Ok?
    ensures Failures(call, attempts) == k
  {
  }

  // ---- one run ----

  /** Stripe's answer to the k-th retrieve of a subscription id: a status, or an
      exception. */
  type Retrieve = (string, nat) -> Outcome<Option<string>>

  function Calls(retrieve: Retrieve, stripeId: string): nat -> Outcome<Option<string>> {
    (k: nat) => retrieve(stripeId, k)
  }

  function View(retrieve: Retrieve, policy: Policy, stripeId: string): Outcome<Option<string>> {
    Retried(Calls(retrieve, stripeId), policy)
  }

  function ReconciledRow(s: Subscription, retrieve: Retrieve, policy: Policy): Subscription {
    if !Linked(s) then s
    else
      var view := View(retrieve, policy, s.stripeSubscriptionId.value);
      if view.Ok? then s.(status := FromStripeStatus(view.value)) else s
  }

  function Reconciled(rows: seq<Subscription>, retrieve: Retrieve, policy: Policy): seq<Subscription> {
    seq(|rows|, i requires 0 <= i < |rows| => ReconciledRow(rows[i], retrieve, policy))
  }

  /** What one run sees of Stripe, for one linked row: the view is the first answer
      within the attempts, or no answer, and then the row stays. */
  lemma ViewMeans(retrieve: Retrieve, policy: Policy, s: Subscription)
    requires Linked(s)
    ensures var id := s.stripeSubscriptionId.value;
            && (forall k: nat | k < policy.attempts && (k == 0 || 0.0 <= policy.baseDelay) && retrieve(id, k).Ok?
                                && forall j | 0 <= j < k :: retrieve(id, j).Raised? ::
                  ReconciledRow(s, retrieve, policy) == s.(status := FromStripeStatus(retrieve(id, k).value)))
            && ((forall k: nat | k < policy.attempts :: retrieve(id, k).Raised?) ==>
                  ReconciledRow(s, retrieve, policy) == s)
            && (policy.baseDelay < 0.0 && retrieve(id, 0).Raised? ==> ReconciledRow(s, retrieve, policy) == s)
  {
    var id := s.stripeSubscriptionId.value;
    RetryMeans(Calls(retrieve, id), policy);
    forall k: nat | k < policy.attempts && retrieve(id, k).Ok? && forall j | 0 <= j < k :: retrieve(id, j).Raised?
      ensures FirstSuccess(Calls(retrieve, id), k)
    {
    }
  }

  /** The calls made for one row. */
  function CallsFor(s: Subscription, retrieve: Retrieve, policy: Policy): nat {
    if Linked(s) then Tried(Calls(retrieve, s.stripeSubscriptionId.value), policy) else 0
  }

  function RowCalls(retrieve: Retrieve, policy: Policy): Subscription -> nat {
    (s: Subscription) => CallsFor(s, retrieve, policy)
  }

  /** In how many positions two tables of the same length differ. */
  function Changes(before: seq<Subscription>, after: seq<Subscription>): nat
    requires |before| == |after|
  {
    if before == [] then 0
    else
      var last := |before| - 1;
      Changes(before[..last], after[..last]) + if before[last] == after[last] then 0 else 1
  }

  lemma {:induction false} ChangesUpdate(before: seq<Subscription>, after: seq<Subscription>, i: nat, s: Subscription)
    requires |before| == |after| && i < |before| && before[i] == after[i]
    ensures Changes(before, after[i := s]) == Changes(before, after) + if s == before[i] then 0 else 1
  {
    var last := |before| - 1;
    if i < last {
      assert after[i := s][..last] == after[..last][i := s];
      ChangesUpdate(before[..last], after[..last], i, s);
    } else {
      assert after[i := s][..last] == after[..last];
    }
  }

  lemma {:induction false} NoChanges(before: seq<Subscription>, after: seq<Subscription>)
    requires |before| == |after|
    ensures Changes(before, after) == 0 <==> before == after
  {
    if before != [] {
      var last := |before| - 1;
      NoChanges(before[..last], after[..last]);
      assert before == before[..last] + [before[last]] && after == after[..last] + [after[last]];
    }
  }

  /** The positions in which two tables differ. */
  function Differing(before: seq<Subscription>, after: seq<Subscription>): set<nat>
    requires |before| == |after|
  {
    set i | 0 <= i < |before| && before[i] != after[i]
  }

  lemma {:induction false} ChangesAreCounted(before: seq<Subscription>, after: seq<Subscription>)
    requires |before| == |after|
    ensures Changes(before, after) == |Differing(before, after)|
  {
    if before != [] {
      var last := |before| - 1;
      ChangesAreCounted(before[..last], after[..last]);
      DifferingAtLast(before, after);
    }
  }

  lemma DifferingAtLast(before: seq<Subscription>, after: seq<Subscription>)
    requires |before| == |after| && before != []
    ensures var last := |before| - 1;
            && last !in Differing(before[..last], after[..last])
            && Differing(before, after)
               == Differing(before[..last], after[..last]) + if before[last] == after[last] then {} else {last}
  {
    var last := |before| - 1;
    assert forall i | 0 <= i < last :: before[..last][i] == before[i] && after[..last][i] == after[i];
  }

  /** One run: without a client nothing happens, not even a commit; with one, the
      reconciled rows are committed and their changes counted, or the commit raises
      and the tables stay. */
  function Synced(t: Tables, stripe: Option<Retrieve>, policy: Policy, available: bool): (Tables, Option<nat>) {
    if stripe.None? then (t, Some(0))
    else if !available then (t, None)
    else
      var after := Reconciled(t.subscriptions, stripe.value, policy);
      (t.(subscriptions := after), Some(Changes(t.subscriptions, after)))
  }

  /** Positions of the rows with a Stripe id, in table order. */
  function GetAllWithStripeId(rows: seq<Subscription>): (found: seq<nat>)
    ensures forall i | 0 <= i < |rows| :: i in found <==> Linked(rows[i])
    ensures forall j | 0 <= j < |found| :: found[j] < |rows|
    ensures forall j, k | 0 <= j < k < |found| :: found[j] < found[k]
  {
    if rows == [] then []
    else
      var last := |rows| - 1;
      var found := GetAllWithStripeId(rows[..last]);
      if Linked(rows[last]) then found + [last] else found
  }

  /** The first j linked rows are reconciled, all others still as they were. */
  ghost predicate Progress(before: seq<Subscription>, now: seq<Subscription>,
                           retrieve: Retrieve, policy: Policy, j: nat) {
    var rows := GetAllWithStripeId(before);
    && |now| == |before| && j <= |rows|
    && forall i | 0 <= i < |before| ::
         now[i] == if i in rows[..j] then ReconciledRow(before[i], retrieve, policy) else before[i]
  }

  lemma ProgressStep(before: seq<Subscription>, now: seq<Subscription>, retrieve: Retrieve, policy: Policy, j: nat)
    requires Progress(before, now, retrieve, policy, j) && j < |GetAllWithStripeId(before)|
    ensures var i := GetAllWithStripeId(before)[j];
            var row := ReconciledRow(now[i], retrieve, policy);
            && Linked(now[i])
            && Progress(before, now[i := row], retrieve, policy, j + 1)
            && Changes(before, now[i := row]) == Changes(before, now) + if row == now[i] then 0 else 1
  {
    var rows := GetAllWithStripeId(before);
    var i := rows[j];
    assert rows[..j + 1] == rows[..j] + [i];
    assert i in rows;
    ChangesUpdate(before, now, i, ReconciledRow(now[i], retrieve, policy));
  }

  lemma ProgressEnds(rows: seq<Subscription>, now: seq<Subscription>, retrieve: Retrieve, policy: Policy)
    requires Progress(rows, now, retrieve, policy, |GetAllWithStripeId(rows)|)
    ensures now == Reconciled(rows, retrieve, policy)
  {
    var linked := GetAllWithStripeId(rows);
    assert linked[..|linked|] == linked;
  }

  /** The calls made for the row in a position. */
  function PositionCalls(rows: seq<Subscription>, retrieve: Retrieve, policy: Policy): nat -> nat {
    (i: nat) => if i < |rows| then CallsFor(rows[i], retrieve, policy) else 0
  }

  lemma {:induction false} CallsByPosition(rows: seq<Subscription>, retrieve: Retrieve, policy: Policy)
    ensures Sum(GetAllWithStripeId(rows), PositionCalls(rows, retrieve, policy))
            == Sum(rows, RowCalls(retrieve, policy))
  {
    if rows != [] {
      var last := |rows| - 1;
      var init, found := rows[..last], GetAllWithStripeId(rows[..last]);
      CallsByPosition(init, retrieve, policy);
      SumSame(found, PositionCalls(rows, retrieve, policy), PositionCalls(init, retrieve, policy));
      SumAppend<nat>(found, last, PositionCalls(rows, retrieve, policy));
    }
  }

  lemma CallsStep(before: seq<Subscription>, now: seq<Subscription>, retrieve: Retrieve, policy: Policy, j: nat)
    requires Progress(before, now, retrieve, policy, j) && j < |GetAllWithStripeId(before)|
    ensures var rows := GetAllWithStripeId(before);
            Sum(rows[..j + 1], PositionCalls(before, retrieve, policy))
            == Sum(rows[..j], PositionCalls(before, retrieve, policy)) + CallsFor(now[rows[j]], retrieve, policy)
  {
    var rows := GetAllWithStripeId(before);
    assert rows[..j + 1] == rows[..j] + [rows[j]];
    SumAppend(rows[..j], rows[j], PositionCalls(before, retrieve, policy));
  }

  class ReconciliationService {
    const db: Session
    const policy: Policy

    constructor (db: Session, attempts: int := 3, baseDelay: real := 1.0)
      ensures this.db == db && this.policy == Policy(attempts, baseDelay)
    {
      this.db, this.policy := db, Policy(attempts, baseDelay);
    }

    /** One row of the loop: retrieve with retries, then overwrite a stale status. */
    method SyncRow(i: nat, retrieve: Retrieve) returns (changed: bool, calls: nat)
      requires i < |db.pending.subscriptions| && Linked(db.pending.subscriptions[i])
      modifies db`pending
      ensures var rows := old(db.pending).subscriptions;
              var row := ReconciledRow(rows[i], retrieve, policy);
              && db.pending == old(db.pending).(subscriptions := rows[i := row])
              && changed == (row != rows[i])
              && calls == CallsFor(rows[i], retrieve, policy)
    {
      changed := false;
      var s := db.pending.subscriptions[i];
      var view, tried, _ := Retry(Calls(retrieve, s.stripeSubscriptionId.value), policy);
      calls := tried;
      if view.Ok? {
        var status := FromStripeStatus(view.value);
        if s.status != status {
          db.pending := db.pending.(subscriptions := db.pending.subscriptions[i := s.(status := status)]);
          changed := true;
        }
      }
    }

    /** The loop of a run, before its commit; a row whose retries all fail is skipped. */
    method SyncAll(retrieve: Retrieve) returns (synced: nat, calls: nat)
      modifies db`pending
      ensures var before := old(db.pending).subscriptions;
              var after := Reconciled(before, retrieve, policy);
              && db.pending == old(db.pending).(subscriptions := after)
              && synced == Changes(before, after)
              && calls == Sum(before, RowCalls(retrieve, policy))
    {
      synced, calls := 0, 0;
      ghost var start := db.pending;
      ghost var before := start.subscriptions;
      var rows := GetAllWithStripeId(db.pending.subscriptions);
      NoChanges(before, before);
      var j := 0;
      while j < |rows|
        invariant 0 <= j <= |rows|
        invariant db.pending == start.(subscriptions := db.pending.subscriptions)
        invariant Progress(before, db.pending.subscriptions, retrieve, policy, j)
        invariant synced == Changes(before, db.pending.subscriptions)
        invariant calls == Sum(rows[..j], PositionCalls(before, retrieve, policy))
      {
        CallsStep(before, db.pending.subscriptions, retrieve, policy, j);
        ProgressStep(before, db.pending.subscriptions, retrieve, policy, j);
        var changed, tried := SyncRow(rows[j], retrieve);
        if changed {
          synced := synced + 1;
        }
        calls := calls + tried;
        j := j + 1;
      }
      ProgressEnds(before, db.pending.subscriptions, retrieve, policy);
      assert rows[..j] == rows;
      CallsByPosition(before, retrieve, policy);
    }

    /** One run: returns the number of changed rows, or None when the commit
        raises; the caller's session is closed then, which drops what is pending. */
    method RunOnce(stripe: Option<Retrieve>, available: bool) returns (synced: Option<nat>, calls: nat)
      requires db.Clean()
      modifies db
      ensures (db.committed, synced) == Synced(old(db.committed), stripe, policy, available)
      ensures synced.Some? ==> db.Clean()
      ensures stripe.None? ==> synced == Some(0) && calls == 0 && db.committed == old(db.committed)
      ensures stripe.Some? && !available ==> synced == None && db.committed == old(db.committed)
      ensures stripe.Some? && available ==>
                var before, after := old(db.committed).subscriptions, db.committed.subscriptions;
                |after| == |before| && synced == Some(|set i | 0 <= i < |before| && before[i] != after[i]|)
      ensures stripe.Some? ==> calls == Sum(old(db.committed).subscriptions, RowCalls(stripe.value, policy))
    {
      if stripe.None? {
        return Some(0), 0;
      }
      ReconcileKeepsConstraints(db.committed, stripe.value, policy);
      ChangesAreCounted(db.committed.subscriptions, Reconciled(db.committed.subscriptions, stripe.value, policy));
      var changed, tried := SyncAll(stripe.value);
      var ok := db.Commit(available);
      return if ok then Some(changed) else None, tried;
    }
  }

  /** What a run answers: the number of rows it changed, 0 without a client, and
      nothing if its commit raises. */
  lemma RunAnswers(t: Tables, stripe: Option<Retrieve>, policy: Policy, available: bool)
    ensures var (t', synced) := Synced(t, stripe, policy, available);
            if stripe.None? then t' == t && synced == Some(0)
            else if !available then t' == t && synced == None
            else
              && |t'.subscriptions| == |t.subscriptions|
              && synced == Some(|set i | 0 <= i < |t.subscriptions| && t.subscriptions[i] != t'.subscriptions[i]|)
  {
    if stripe.Some? {
      ChangesAreCounted(t.subscriptions, Reconciled(t.subscriptions, stripe.value, policy));
    }
  }

  /** A run never makes more calls than its attempts for each linked row. */
  lemma CallsAreBounded(rows: seq<Subscription>, retrieve: Retrieve, policy: Policy)
    ensures Sum(rows, RowCalls(retrieve, policy)) <= policy.Tries() * Sum(rows, OneIfLinked())
  {
    SumCapped(rows, RowCalls(retrieve, policy), OneIfLinked(), policy.Tries());
  }

  function OneIfLinked(): Subscription -> nat {
    (s: Subscription) => if Linked(s) then 1 else 0
  }

  // ---- convergence ----

  lemma ReconcileKeepsConstraints(t: Tables, retrieve: Retrieve, policy: Policy)
    requires Constraints(t)
    ensures Constraints(t.(subscriptions := Reconciled(t.subscriptions, retrieve, policy)))
  {
    var after := Reconciled(t.subscriptions, retrieve, policy);
    assert forall i | 0 <= i < |after| ::
        after[i].id == t.subscriptions[i].id && after[i].planId == t.subscriptions[i].planId
        && after[i].tenantId == t.subscriptions[i].tenantId
        && after[i].stripeSubscriptionId == t.subscriptions[i].stripeSubscriptionId;
  }

  /** Equal except possibly in status. */
  predicate SameButStatus(a: Subscription, b: Subscription) {
    a.(status := b.status) == b
  }

  ghost predicate AllRetrieved(rows: seq<Subscription>, retrieve: Retrieve, policy: Policy) {
    forall s | s in rows && Linked(s) :: View(retrieve, policy, s.stripeSubscriptionId.value).Ok?
  }

  /** Two databases end in the same subscriptions exactly when they agreed on
      everything but the statuses of linked rows: a status difference is always
      repaired, a plan or link difference never is. */
  lemma ReconciliationConverges(a: seq<Subscription>, b: seq<Subscription>, retrieve: Retrieve, policy: Policy)
    requires |a| == |b|
    requires AllRetrieved(a, retrieve, policy) && AllRetrieved(b, retrieve, policy)
    ensures Reconciled(a, retrieve, policy) == Reconciled(b, retrieve, policy) <==>
              forall i | 0 <= i < |a| :: SameButStatus(a[i], b[i]) && (Linked(a[i]) || a[i].status == b[i].status)
  {
    forall i | 0 <= i < |a|
      ensures Reconciled(a, retrieve, policy)[i] == Reconciled(b, retrieve, policy)[i] <==>
                SameButStatus(a[i], b[i]) && (Linked(a[i]) || a[i].status == b[i].status)
    {
      assert a[i] in a && b[i] in b;
    }
    if forall i | 0 <= i < |a| :: SameButStatus(a[i], b[i]) && (Linked(a[i]) || a[i].status == b[i].status) {
      assert Reconciled(a, retrieve, policy) == Reconciled(b, retrieve, policy);
    } else {
      var i :| 0 <= i < |a| && !(SameButStatus(a[i], b[i]) && (Linked(a[i]) || a[i].status == b[i].status));
      assert Reconciled(a, retrieve, policy)[i] != Reconciled(b, retrieve, policy)[i];
    }
  }

  /** After a run the rows mirror Stripe's view; a further run whose retrieves
      fail or repeat that view changes nothing and returns 0. Rows whose retrieve
      failed are as before. */
  lemma SecondRunChangesNothing(rows: seq<Subscription>, retrieve: Retrieve, again: Retrieve, policy: Policy)
    requires forall s | s in rows && Linked(s) ::
               var id := s.stripeSubscriptionId.value;
               View(again, policy, id).Raised? || View(again, policy, id) == View(retrieve, policy, id)
    ensures var once := Reconciled(rows, retrieve, policy);
            && (forall t: Tables | t.subscriptions == once :: Synced(t, Some(again), policy, true) == (t, Some(0)))
            && Reconciled(once, again, policy) == once
            && Changes(once, Reconciled(once, again, policy)) == 0
            && forall i | 0 <= i < |rows| ::
                 && SameButStatus(rows[i], once[i])
                 && (Linked(rows[i]) ==>
                       match View(retrieve, policy, rows[i].stripeSubscriptionId.value)
                       case Ok(text) => once[i].status == FromStripeStatus(text)
                       case Raised(_) => once[i] == rows[i])
  {
    var once := Reconciled(rows, retrieve, policy);
    forall i | 0 <= i < |rows|
      ensures Reconciled(once, again, policy)[i] == once[i]
    {
      assert rows[i] in rows;
    }
    NoChanges(once, Reconciled(once, again, policy));
  }

  // ---- dropped webhooks ----

  predicate NoCheckouts(ds: seq<S.Delivery>) {
    forall d | d in ds :: !d.event.payload.CheckoutCompleted?
  }

  /** Equal rows, except that linked ones may differ in status and plan. */
  predicate SameButLinkedState(a: seq<Subscription>, b: seq<Subscription>) {
    && |a| == |b|
    && forall i | 0 <= i < |a| ::
         && a[i].(status := b[i].status, planId := b[i].planId) == b[i]
         && (Linked(a[i]) || a[i] == b[i])
  }

  lemma {:induction false} HistoryMovesLinkedState(t: Tables, ds: seq<S.Delivery>)
    requires Constraints(t) && NoCheckouts(ds)
    ensures SameButLinkedState(t.subscriptions, S.DeliverAll(t, ds).subscriptions)
    decreases |ds|
  {
    if ds != [] {
      S.DeliveryIsAtomic(t, ds[0]);
      assert !ds[0].event.payload.CheckoutCompleted?;
      HistoryMovesLinkedState(S.Deliver(t, ds[0]).0, ds[1..]);
    }
  }

  /** What a run recovers of dropped updates and deletions: whichever of them
      arrived, in whatever order and number, after one successful run every row has
      the same status, and the rows are the same exactly if the events that did
      arrive left every row on the same plan. */
  lemma DroppedWebhooksRecovered(t: Tables, arrived: seq<S.Delivery>, sent: seq<S.Delivery>,
                                 retrieve: Retrieve, policy: Policy)
    requires Constraints(t) && NoCheckouts(arrived) && NoCheckouts(sent)
    requires AllRetrieved(t.subscriptions, retrieve, policy)
    ensures var a, b := S.DeliverAll(t, arrived).subscriptions, S.DeliverAll(t, sent).subscriptions;
            var a', b' := Reconciled(a, retrieve, policy), Reconciled(b, retrieve, policy);
            && |a| == |b| == |t.subscriptions|
            && (forall i | 0 <= i < |a| :: a'[i].status == b'[i].status)
            && (a' == b' <==> forall i | 0 <= i < |a| :: a[i].planId == b[i].planId)
  {
    HistoryMovesLinkedState(t, arrived);
    HistoryMovesLinkedState(t, sent);
    var a, b := S.DeliverAll(t, arrived).subscriptions, S.DeliverAll(t, sent).subscriptions;
    var a', b' := Reconciled(a, retrieve, policy), Reconciled(b, retrieve, policy);
    forall i | 0 <= i < |a|
      ensures a'[i].status == b'[i].status
      ensures a'[i] == b'[i] <==> a[i].planId == b[i].planId
    {
      assert t.subscriptions[i] in t.subscriptions;
    }
    if forall i | 0 <= i < |a| :: a[i].planId == b[i].planId {
      assert a' == b';
    }
  }

  /** An event that moves no plan, as can be seen before it is handled: not a
      checkout, and not an update whose price names a plan other than its row's. */
  predicate KeepsPlans(t: Tables, payload: S.Payload) {
    match payload
    case CheckoutCompleted(_, _, _, _) => false
    case SubscriptionUpdated(stripeId, _, items) =>
      var price := S.PriceIdFromItems(items);
      S.Truthy(stripeId) && S.Truthy(price) && price.value in t.planByPrice ==>
        forall s | s in t.subscriptions && s.stripeSubscriptionId == stripeId ::
          s.planId == t.planByPrice[price.value]
    case _ => true
  }

  predicate SameButStatuses(a: seq<Subscription>, b: seq<Subscription>) {
    |a| == |b| && forall i | 0 <= i < |a| :: SameButStatus(a[i], b[i])
  }

  lemma DeliveryKeepsPlans(t: Tables, d: S.Delivery)
    requires Constraints(t) && KeepsPlans(t, d.event.payload)
    ensures SameButStatuses(t.subscriptions, S.Deliver(t, d).0.subscriptions)
  {
    S.DeliveryIsAtomic(t, d);
    assert forall i | 0 <= i < |t.subscriptions| :: t.subscriptions[i] in t.subscriptions;
  }

  lemma KeepsPlansAfter(t: Tables, t': Tables, payload: S.Payload)
    requires SameButStatuses(t.subscriptions, t'.subscriptions) && t'.planByPrice == t.planByPrice
    requires KeepsPlans(t, payload)
    ensures KeepsPlans(t', payload)
  {
    forall s | s in t'.subscriptions
      ensures exists r :: r in t.subscriptions && SameButStatus(r, s)
    {
      var i :| 0 <= i < |t'.subscriptions| && t'.subscriptions[i] == s;
      assert t.subscriptions[i] in t.subscriptions && SameButStatus(t.subscriptions[i], s);
    }
  }

  lemma {:induction false} HistoryKeepsPlans(t: Tables, ds: seq<S.Delivery>)
    requires Constraints(t) && forall d | d in ds :: KeepsPlans(t, d.event.payload)
    ensures SameButStatuses(t.subscriptions, S.DeliverAll(t, ds).subscriptions)
    decreases |ds|
  {
    if ds != [] {
      var t' := S.Deliver(t, ds[0]).0;
      S.DeliveryIsAtomic(t, ds[0]);
      DeliveryKeepsPlans(t, ds[0]);
      forall d | d in ds[1..]
        ensures KeepsPlans(t', d.event.payload)
      {
        KeepsPlansAfter(t, t', d.event.payload);
      }
      HistoryKeepsPlans(t', ds[1..]);
    }
  }

  /** Events that name no plan but the one their row is on are recovered in full,
      whichever of them arrived. */
  lemma PlanKeepingWebhooksRecovered(t: Tables, arrived: seq<S.Delivery>, sent: seq<S.Delivery>,
                                     retrieve: Retrieve, policy: Policy)
    requires Constraints(t) && AllRetrieved(t.subscriptions, retrieve, policy)
    requires forall d | d in arrived + sent :: KeepsPlans(t, d.event.payload)
    ensures Reconciled(S.DeliverAll(t, arrived).subscriptions, retrieve, policy)
            == Reconciled(S.DeliverAll(t, sent).subscriptions, retrieve, policy)
  {
    assert forall d | d in arrived :: d in arrived + sent;
    assert forall d | d in sent :: d in arrived + sent;
    HistoryKeepsPlans(t, arrived);
    HistoryKeepsPlans(t, sent);
    DroppedWebhooksRecovered(t, arrived, sent, retrieve, policy);
  }

  /** One dropped update or deletion is recovered exactly if it would have moved no
      plan: a plan change whose webhook is lost stays lost, however the run goes. */
  lemma DroppedWebhookRecoveredIff(t: Tables, d: S.Delivery, retrieve: Retrieve, policy: Policy)
    requires Constraints(t) && AllRetrieved(t.subscriptions, retrieve, policy)
    requires S.Deliver(t, d).1.Accepted? && !S.Marked(t.markers, d.event.id)
    requires !d.event.payload.CheckoutCompleted?
    ensures Reconciled(t.subscriptions, retrieve, policy)
            == Reconciled(S.Deliver(t, d).0.subscriptions, retrieve, policy)
            <==> KeepsPlans(t, d.event.payload)
  {
    var after := S.Deliver(t, d).0.subscriptions;
    assert S.DeliverAll(t, [d]) == S.DeliverAll(S.Deliver(t, d).0, [d][1..]) == S.Deliver(t, d).0;
    DroppedWebhooksRecovered(t, [], [d], retrieve, policy);
    if KeepsPlans(t, d.event.payload) {
      DeliveryKeepsPlans(t, d);
    } else {
      PlanMoves(t, d);
    }
  }

  /** The row an update moves, in the table before and after it. */
  lemma PlanMoves(t: Tables, d: S.Delivery)
    requires Constraints(t) && S.Deliver(t, d).1.Accepted? && !S.Marked(t.markers, d.event.id)
    requires !d.event.payload.CheckoutCompleted? && !KeepsPlans(t, d.event.payload)
    ensures var after := S.Deliver(t, d).0.subscriptions;
            exists i | 0 <= i < |t.subscriptions| && i < |after| :: after[i].planId != t.subscriptions[i].planId
  {
    S.DeliveryIsAtomic(t, d);
    S.EventEffect(t, d.event.payload, d.newId);
    var p := d.event.payload;
    var s :| s in t.subscriptions && s.stripeSubscriptionId == p.stripeId
             && s.planId != t.planByPrice[S.PriceIdFromItems(p.items).value];
    var i :| 0 <= i < |t.subscriptions| && t.subscriptions[i] == s;
    assert S.Deliver(t, d).0.subscriptions[i].planId != s.planId;
  }
}
