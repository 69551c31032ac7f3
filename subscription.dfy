/**
 * The subscription entity of src/Subscription.php: one row of the subscriptions table,
 * the lifecycle predicates derived from its `end_date` and `status` columns and the current
 * time, and the transitions that the entity performs around gateway calls.
 */
module Subscriptions {
  import opened Wrappers
  import opened Values
  import opened Gateway

  const DEFAULT_TYPE: string := "default"
  const ACTIVE: string := "active"
  const INACTIVE: string := "inactive"

  /**
   * A subscription row. The lifecycle predicates read only `endDate` and `status`; the builder
   * writes `trialEndsAt` and `endsAt`; the gateway lookup uses `subscriptionCode`, a column that
   * nothing in the package writes; the webhook matches rows on `paystackCode`.
   */
  datatype Row = Row(
    owner: Owner,
    slot: string,  // the `type` column (e.g. "default")
    paystackId: Json,
    paystackCode: Json,
    paystackPlan: Json,
    quantity: int,
    trialEndsAt: Option<Time>,
    endsAt: Option<Time>,
    endDate: Option<Time>,
    status: Option<string>,
    subscriptionCode: Json,
    createdAt: Time)

  // The instance predicates, as written. onTrial and onGracePeriod have the same body.

  predicate OnTrial(r: Row, now: Time) {
    r.endDate.Some? && r.endDate.value > now
  }

  predicate OnGracePeriod(r: Row, now: Time) {
    r.endDate.Some? && r.endDate.value > now
  }

  predicate Active(r: Row, now: Time) {
    r.endDate.None? || OnGracePeriod(r, now)
  }

  predicate Valid(r: Row, now: Time) {
    Active(r, now) || OnTrial(r, now) || OnGracePeriod(r, now)
  }

  predicate Cancelled(r: Row) {
    r.status == Some(INACTIVE)
  }

  predicate Ended(r: Row, now: Time) {
    Cancelled(r) && !OnGracePeriod(r, now)
  }

  predicate Recurring(r: Row, now: Time) {
    !OnTrial(r, now) && !Cancelled(r)
  }

  /** `hasPlan(string $planId)`: strict comparison of the stored plan with the given string. */
  predicate HasPlan(r: Row, plan: string) {
    r.paystackPlan == JStr(plan)
  }

  /** How the predicates relate to each other and to the two columns, at any instant. */
  lemma PredicateRelations(r: Row, now: Time)
    ensures OnTrial(r, now) <==> OnGracePeriod(r, now)
    ensures OnGracePeriod(r, now) <==> r.endDate.Some? && r.endDate.value > now
    ensures Active(r, now) <==> r.endDate.None? || r.endDate.value > now
    ensures Valid(r, now) <==> Active(r, now)
    ensures Cancelled(r) <==> r.status == Some(INACTIVE)
    ensures Ended(r, now) <==> Cancelled(r) && !OnGracePeriod(r, now)
    ensures Recurring(r, now) <==> !OnTrial(r, now) && !Cancelled(r)
    ensures Ended(r, now) ==> Cancelled(r) && (Active(r, now) <==> r.endDate.None?)
  {
  }

  /** A cancelled row whose end date is cleared is active and ended at the same time. */
  lemma ActiveAndEndedWithoutEndDate(r: Row, now: Time)
    requires Cancelled(r) && r.endDate.None?
    ensures Active(r, now) && Ended(r, now) && Valid(r, now) && !Recurring(r, now)
  {
  }

  /** Once a row has ended it stays ended as time passes, and it never becomes active again by itself. */
  lemma EndedIsStable(r: Row, now: Time, later: Time)
    requires Ended(r, now) && r.endDate.Some? && now <= later
    ensures Ended(r, later) && !Active(r, later) && !Valid(r, later)
  {
  }

  // Pure transitions on a row.

  /** `markAsCancelled()`: end_date := now, status := inactive. */
  function MarkedAsCancelled(r: Row, now: Time): (c: Row)
    ensures c.(endDate := r.endDate, status := r.status) == r
    ensures c.endDate == Some(now) && Cancelled(c)
    ensures forall t :: t >= now ==> Ended(c, t) && !Active(c, t) && !OnGracePeriod(c, t) && !Valid(c, t)
  {
    r.(endDate := Some(now), status := Some(INACTIVE))
  }

  /** The local half of `resume()`: end_date := null, status := active. */
  function Resumed(r: Row): (c: Row)
    ensures c.(endDate := r.endDate, status := r.status) == r
    ensures c.endDate.None? && !Cancelled(c)
    ensures forall t :: Active(c, t) && Valid(c, t) && !OnGracePeriod(c, t) && Recurring(c, t) && !Ended(c, t)
  {
    assert |ACTIVE| != |INACTIVE|;
    r.(endDate := None, status := Some(ACTIVE))
  }

  /** `skipTrial()`: end_date := null; status is left as it was. */
  function TrialSkipped(r: Row): (c: Row)
    ensures c.(endDate := r.endDate) == r
    ensures forall t :: Active(c, t) && !OnTrial(c, t) && (Ended(c, t) <==> Cancelled(r))
  {
    r.(endDate := None)
  }

  /** The local half of `cancel()` once the remote disable succeeded and the next payment date is known. */
  function CancelledUntil(r: Row, now: Time, nextPayment: Time): (c: Row)
    ensures OnTrial(r, now) ==> c == r
    ensures !OnTrial(r, now) ==> c.(endDate := r.endDate, status := r.status) == r
    ensures !OnTrial(r, now) ==> c.endDate == Some(nextPayment) && Cancelled(c)
    ensures !OnTrial(r, now) && nextPayment > now ==>
      Active(c, now) && OnGracePeriod(c, now) && !Ended(c, now) && !Recurring(c, now)
    ensures !OnTrial(r, now) ==> forall t :: t >= nextPayment ==> Ended(c, t) && !Active(c, t)
  {
    if OnTrial(r, now) then r else r.(endDate := Some(nextPayment), status := Some(INACTIVE))
  }

  // The remote snapshot and the requests built from it.

  /** `asPaystackSubscription()`: fetch by the row's subscription_code; a falsy `data` is "not found". */
  function AsPaystackSubscription(env: Env, r: Row): (s: Result<Json>)
    ensures s.Ok? <==> env.gateway(FetchSubscription(r.subscriptionCode)).Returned?
                       && Truthy(env.gateway(FetchSubscription(r.subscriptionCode)).reply.data)
    ensures s.Ok? ==> s.value == env.gateway(FetchSubscription(r.subscriptionCode)).reply.data
  {
    var reply :- Call(env, FetchSubscription(r.subscriptionCode));
    if !Truthy(reply.data) then Err(Exception("Subscription not found.")) else Ok(reply.data)
  }

  /** The `{token, code}` body sent to enable or disable the remote subscription. */
  function TokenAndCode(snapshot: Json): (p: Result<Fields>)
    ensures p.Ok? ==> p.value.Keys == {"token", "code"}
    ensures p.Ok? <==> snapshot.JObj? && "email_token" in snapshot.fields && "subscription_code" in snapshot.fields
    ensures p.Ok? ==> p.value["token"] == snapshot.fields["email_token"]
                      && p.value["code"] == snapshot.fields["subscription_code"]
  {
    var token :- Index(snapshot, "email_token");
    var code :- Index(snapshot, "subscription_code");
    Ok(map["token" := token, "code" := code])
  }

  /** `Carbon::parse($subscription['next_payment_date'])`. */
  function NextPaymentDate(env: Env, snapshot: Json): Result<Time> {
    var j :- Index(snapshot, "next_payment_date");
    ParseDate(env, j)
  }

  /** The next payment date of the remote snapshot, as `cancel()` reads it. */
  function SnapshotNextPayment(env: Env, r: Row): Result<Time> {
    var snapshot :- AsPaystackSubscription(env, r);
    NextPaymentDate(env, snapshot)
  }

  /** What a lifecycle operation leaves behind: its outcome, the persisted row, and the gateway requests issued in order. */
  datatype Effect = Effect(outcome: Result<()>, row: Row, calls: seq<Request>)

  /** `cancel()`: fetch, disable remotely, then set end_date/status unless on trial. */
  function CancelEffect(env: Env, r: Row): (e: Effect)
    ensures |e.calls| >= 1 && e.calls[0] == FetchSubscription(r.subscriptionCode)
    ensures e.outcome.Err? ==> e.row == r
    ensures e.outcome.Ok? ==>
      |e.calls| == 2 && e.calls[1].DisableSubscription? && env.gateway(e.calls[1]).Returned?
    ensures AsPaystackSubscription(env, r).Err? ==> e.outcome.Err? && e.calls == [FetchSubscription(r.subscriptionCode)]
    ensures e.outcome.Ok? && OnTrial(r, env.now) ==> e.row == r
    ensures e.outcome.Ok? && !OnTrial(r, env.now) ==>
      SnapshotNextPayment(env, r).Ok? && Cancelled(e.row)
      && e.row == CancelledUntil(r, env.now, SnapshotNextPayment(env, r).value)
  {
    var fetch := FetchSubscription(r.subscriptionCode);
    match AsPaystackSubscription(env, r)
    case Err(err) => Effect(Err(err), r, [fetch])
    case Ok(snapshot) =>
      match TokenAndCode(snapshot)
      case Err(err) => Effect(Err(err), r, [fetch])
      case Ok(body) =>
        var disable := DisableSubscription(body);
        match Call(env, disable)
        case Err(err) => Effect(Err(err), r, [fetch, disable])
        case Ok(_) =>
          if OnTrial(r, env.now) then Effect(Ok(()), r, [fetch, disable])
          else
            match NextPaymentDate(env, snapshot)
            case Err(err) => Effect(Err(err), r, [fetch, disable])
            case Ok(t) => Effect(Ok(()), CancelledUntil(r, env.now, t), [fetch, disable])
  }

  /** `resume()`: fetch, enable remotely, then end_date := null and status := active. */
  function ResumeEffect(env: Env, r: Row): (e: Effect)
    ensures |e.calls| >= 1 && e.calls[0] == FetchSubscription(r.subscriptionCode)
    ensures e.outcome.Err? ==> e.row == r
    ensures e.outcome.Ok? ==>
      |e.calls| == 2 && e.calls[1].EnableSubscription? && env.gateway(e.calls[1]).Returned?
      && e.row == Resumed(r)
    ensures AsPaystackSubscription(env, r).Err? ==> e.outcome.Err? && e.calls == [FetchSubscription(r.subscriptionCode)]
  {
    var fetch := FetchSubscription(r.subscriptionCode);
    match AsPaystackSubscription(env, r)
    case Err(err) => Effect(Err(err), r, [fetch])
    case Ok(snapshot) =>
      match TokenAndCode(snapshot)
      case Err(err) => Effect(Err(err), r, [fetch])
      case Ok(body) =>
        var enable := EnableSubscription(body);
        match Call(env, enable)
        case Err(err) => Effect(Err(err), r, [fetch, enable])
        case Ok(_) => Effect(Ok(()), Resumed(r), [fetch, enable])
  }

  /** The body of the create request `swap` sends: defaults from the old snapshot, overridden by the caller's attributes. */
  function SwapPayload(snapshot: Json, plan: string, attributes: Fields): (p: Result<Fields>)
    ensures p.Ok? ==> p.value.Keys == {"customer", "plan", "start_date"} + attributes.Keys
    ensures p.Ok? ==> p.value["plan"] == (if "plan" in attributes then attributes["plan"] else JStr(plan))
    ensures p.Ok? && "start_date" !in attributes ==>
      snapshot.JObj? && "next_payment_date" in snapshot.fields
      && p.value["start_date"] == snapshot.fields["next_payment_date"]
  {
    var customer :- Index(snapshot, "customer");
    var code :- Index(customer, "customer_code");
    var start :- Index(snapshot, "next_payment_date");
    Ok(Merge(map["customer" := code, "plan" := JStr(plan), "start_date" := start], attributes))
  }

  /** What `swap` does after its fetch: cancel unless already cancelled, then request the new subscription. */
  function SwapAfterFetch(env: Env, r: Row, snapshot: Json, plan: string, attributes: Fields): (e: Effect)
    ensures e.row.paystackPlan == r.paystackPlan
    ensures Cancelled(r) ==> e.row == r
    ensures Cancelled(r) ==>
      e.calls == if SwapPayload(snapshot, plan, attributes).Ok?
                 then [CreateSubscription(SwapPayload(snapshot, plan, attributes).value)] else []
    ensures !Cancelled(r) ==>
      var c := CancelEffect(env, r);
      && |e.calls| >= |c.calls| && e.calls[..|c.calls|] == c.calls && e.row == c.row
      && (c.outcome.Err? ==> e == c)
    ensures (Cancelled(r) || CancelEffect(env, r).outcome.Ok?) && SwapPayload(snapshot, plan, attributes).Ok? ==>
      var create := CreateSubscription(SwapPayload(snapshot, plan, attributes).value);
      |e.calls| >= 1 && e.calls[|e.calls| - 1] == create && (e.outcome.Ok? <==> Call(env, create).Ok?)
    ensures e.outcome.Ok? <==>
      (Cancelled(r) || CancelEffect(env, r).outcome.Ok?) && SwapPayload(snapshot, plan, attributes).Ok?
      && Call(env, CreateSubscription(SwapPayload(snapshot, plan, attributes).value)).Ok?
  {
    var cancel := if !Cancelled(r) then CancelEffect(env, r) else Effect(Ok(()), r, []);
    if cancel.outcome.Err? then cancel
    else
      match SwapPayload(snapshot, plan, attributes)
      case Err(err) => Effect(Err(err), cancel.row, cancel.calls)
      case Ok(body) =>
        var create := CreateSubscription(body);
        assert (cancel.calls + [create])[..|cancel.calls|] == cancel.calls;
        match Call(env, create)
        case Err(err) => Effect(Err(err), cancel.row, cancel.calls + [create])
        case Ok(_) => Effect(Ok(()), cancel.row, cancel.calls + [create])
  }

  /** `swap($plan, $attributes)`: fetch; cancel unless already cancelled; request a new remote subscription. */
  function SwapEffect(env: Env, r: Row, plan: string, attributes: Fields): (e: Effect)
    ensures |e.calls| >= 1 && e.calls[0] == FetchSubscription(r.subscriptionCode)
    ensures AsPaystackSubscription(env, r).Err? ==> e == Effect(e.outcome, r, [FetchSubscription(r.subscriptionCode)]) && e.outcome.Err?
    ensures var s := AsPaystackSubscription(env, r);
      s.Ok? ==> var t := SwapAfterFetch(env, r, s.value, plan, attributes);
      e == Effect(t.outcome, t.row, [FetchSubscription(r.subscriptionCode)] + t.calls)
  {
    var fetch := FetchSubscription(r.subscriptionCode);
    match AsPaystackSubscription(env, r)
    case Err(err) => Effect(Err(err), r, [fetch])
    case Ok(snapshot) =>
      var t := SwapAfterFetch(env, r, snapshot, plan, attributes);
      Effect(t.outcome, t.row, [fetch] + t.calls)
  }

  /**
   * An Eloquent subscription instance. Eloquent keeps a model's columns in its attribute array,
   * so the instance holds the row it would save; cancel, cancelNow, resume, skipTrial and
   * markAsCancelled rewrite it, and swap rewrites it only through the cancel it performs.
   */
  class Subscription {
    var attributes: Row

    constructor (r: Row)
      ensures attributes == r
    {
      attributes := r;
    }

    method SkipTrial()
      modifies this
      ensures attributes == TrialSkipped(old(attributes))
    {
      attributes := attributes.(endDate := None);
    }

    method MarkAsCancelled(now: Time)
      modifies this
      ensures attributes == MarkedAsCancelled(old(attributes), now)
    {
      attributes := attributes.(endDate := Some(now), status := Some(INACTIVE));
    }

    method Cancel(env: Env) returns (outcome: Result<()>, calls: seq<Request>)
      modifies this
      ensures var e := CancelEffect(env, old(attributes));
        outcome == e.outcome && calls == e.calls && attributes == e.row
    {
      var fetch := FetchSubscription(attributes.subscriptionCode);
      calls := [fetch];
      var snapshot := AsPaystackSubscription(env, attributes);
      if snapshot.Err? {
        return Err(snapshot.error), calls;
      }
      var body := TokenAndCode(snapshot.value);
      if body.Err? {
        return Err(body.error), calls;
      }
      var disable := DisableSubscription(body.value);
      calls := calls + [disable];
      var reply := Call(env, disable);
      if reply.Err? {
        return Err(reply.error), calls;
      }
      if !OnTrial(attributes, env.now) {
        var next := NextPaymentDate(env, snapshot.value);
        if next.Err? {
          return Err(next.error), calls;
        }
        attributes := attributes.(endDate := Some(next.value), status := Some(INACTIVE));
      }
      outcome := Ok(());
    }

    method CancelNow(env: Env) returns (outcome: Result<()>, calls: seq<Request>)
      modifies this
      ensures var e := CancelEffect(env, old(attributes));
        calls == e.calls && outcome == e.outcome
        && attributes == (if e.outcome.Ok? then MarkedAsCancelled(e.row, env.now) else e.row)
    {
      outcome, calls := Cancel(env);
      if outcome.Ok? {
        MarkAsCancelled(env.now);
      }
    }

    method Resume(env: Env) returns (outcome: Result<()>, calls: seq<Request>)
      modifies this
      ensures var e := ResumeEffect(env, old(attributes));
        outcome == e.outcome && calls == e.calls && attributes == e.row
    {
      var fetch := FetchSubscription(attributes.subscriptionCode);
      calls := [fetch];
      var snapshot := AsPaystackSubscription(env, attributes);
      if snapshot.Err? {
        return Err(snapshot.error), calls;
      }
      var body := TokenAndCode(snapshot.value);
      if body.Err? {
        return Err(body.error), calls;
      }
      var enable := EnableSubscription(body.value);
      calls := calls + [enable];
      var reply := Call(env, enable);
      if reply.Err? {
        return Err(reply.error), calls;
      }
      attributes := attributes.(endDate := None, status := Some(ACTIVE));
      outcome := Ok(());
    }

    method Swap(env: Env, plan: string, extra: Fields) returns (outcome: Result<()>, calls: seq<Request>)
      modifies this
      ensures var e := SwapEffect(env, old(attributes), plan, extra);
        outcome == e.outcome && calls == e.calls && attributes == e.row
    {
      var fetch := FetchSubscription(attributes.subscriptionCode);
      calls := [fetch];
      var snapshot := AsPaystackSubscription(env, attributes);
      if snapshot.Err? {
        return Err(snapshot.error), calls;
      }
      ghost var t := SwapAfterFetch(env, attributes, snapshot.value, plan, extra);
      assert SwapEffect(env, attributes, plan, extra) == Effect(t.outcome, t.row, [fetch] + t.calls);
      if !Cancelled(attributes) {
        var cancelled, cancelCalls := Cancel(env);
        calls := calls + cancelCalls;
        if cancelled.Err? {
          return cancelled, calls;
        }
      }
      var body := SwapPayload(snapshot.value, plan, extra);
      if body.Err? {
        return Err(body.error), calls;
      }
      var create := CreateSubscription(body.value);
      calls := calls + [create];
      var reply := Call(env, create);
      if reply.Err? {
        return Err(reply.error), calls;
      }
      outcome := Ok(());
    }
  }

  /** After a successful cancelNow the subscription is cancelled and ended from that instant on. */
  lemma CancelNowEnds(env: Env, r: Row, later: Time)
    requires CancelEffect(env, r).outcome.Ok? && later >= env.now
    ensures var c := MarkedAsCancelled(CancelEffect(env, r).row, env.now);
      Cancelled(c) && Ended(c, later) && !Active(c, later) && !Valid(c, later)
  {
  }
}
