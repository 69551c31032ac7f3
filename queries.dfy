/**
 * src/Concerns/ManagesSubscriptions.php: the billable's questions about its subscriptions,
 * asked of its `subscriptions` relation (the owner's rows, newest first).
 */
module ManagesSubscriptions {
  import opened Wrappers
  import opened Values
  import opened Subscriptions
  import opened Store
  import Builder

  /** `subscription($type)`: the first (newest) subscription of that type, if any. */
  function SubscriptionOfType(subs: seq<Row>, slot: string): (r: Option<Row>)
    ensures r.Some? ==> r.value in subs && r.value.slot == slot
    ensures r.Some? ==> exists i :: 0 <= i < |subs| && subs[i] == r.value
                                    && forall j :: 0 <= j < i ==> subs[j].slot != slot
    ensures r.None? <==> forall i :: 0 <= i < |subs| ==> subs[i].slot != slot
  {
    if subs == [] then None
    else if subs[0].slot == slot then Some(subs[0])
    else
      var rest := SubscriptionOfType(subs[1..], slot);
      assert rest.Some? ==> exists i :: 0 <= i < |subs[1..]| && subs[1..][i] == rest.value
                                        && forall j :: 0 <= j < i ==> subs[1..][j].slot != slot;
      assert forall i :: 0 < i < |subs| ==> subs[i] == subs[1..][i - 1];
      rest
  }

  /** `$plan ? ... : true`: a plan argument only filters when it is truthy. */
  predicate PlanGiven(plan: Option<string>) {
    plan.Some? && TruthyString(plan.value)
  }

  /** `subscribed($type, $plan)`: the subscription exists, is valid, and has the plan when one is given. */
  predicate Subscribed(subs: seq<Row>, slot: string, plan: Option<string>, now: Time) {
    var s := SubscriptionOfType(subs, slot);
    s.Some? && Valid(s.value, now) && (PlanGiven(plan) ==> HasPlan(s.value, plan.value))
  }

  /** The plans argument of subscribedToPlan: one plan, or a list of them (`(array) $plans`). */
  datatype Plans = OnePlan(plan: string) | PlanList(plans: seq<string>)

  function AsList(plans: Plans): (l: seq<string>)
    ensures plans.OnePlan? ==> l == [plans.plan]
  {
    match plans
    case OnePlan(p) => [p]
    case PlanList(ps) => ps
  }

  /** What subscribedToPlan answers: a valid subscription of the type whose plan is one of the given ones. */
  predicate SubscribedToAnyOf(subs: seq<Row>, plans: seq<string>, slot: string, now: Time) {
    var s := SubscriptionOfType(subs, slot);
    s.Some? && Valid(s.value, now) && exists i :: 0 <= i < |plans| && HasPlan(s.value, plans[i])
  }

  /** `subscribedToPlan($plans, $type)`: the guard, then the loop over the plans with an early return. */
  method SubscribedToPlan(subs: seq<Row>, plans: Plans, slot: string, now: Time) returns (r: bool)
    ensures r <==> SubscribedToAnyOf(subs, AsList(plans), slot, now)
  {
    var s := SubscriptionOfType(subs, slot);
    if s.None? || !Valid(s.value, now) {
      return false;
    }
    var list := AsList(plans);
    var i := 0;
    while i < |list|
      invariant 0 <= i <= |list|
      invariant forall j :: 0 <= j < i ==> !HasPlan(s.value, list[j])
    {
      if HasPlan(s.value, list[i]) {
        return true;
      }
      i := i + 1;
    }
    r := false;
  }

  /**
   * subscribed with one truthy plan and subscribedToPlan with that plan agree; a falsy plan such
   * as "0" is ignored by subscribed but compared by subscribedToPlan.
   */
  lemma SubscribedAgreesWithPlanList(subs: seq<Row>, slot: string, p: string, now: Time)
    ensures TruthyString(p) ==> (Subscribed(subs, slot, Some(p), now) <==> SubscribedToAnyOf(subs, [p], slot, now))
    ensures Subscribed(subs, slot, Some("0"), now) <==> Subscribed(subs, slot, None, now)
  {
    var s := SubscriptionOfType(subs, slot);
    if TruthyString(p) && SubscribedToAnyOf(subs, [p], slot, now) {
      var i :| 0 <= i < 1 && HasPlan(s.value, [p][i]);
      assert i == 0;
    }
    if TruthyString(p) && Subscribed(subs, slot, Some(p), now) {
      assert HasPlan(s.value, [p][0]);
    }
  }

  /** Without a plan, subscribed holds exactly when the subscription of the type exists and is active. */
  lemma SubscribedIsActive(subs: seq<Row>, slot: string, now: Time)
    ensures Subscribed(subs, slot, None, now)
            <==> SubscriptionOfType(subs, slot).Some? && Active(SubscriptionOfType(subs, slot).value, now)
  {
    var s := SubscriptionOfType(subs, slot);
    if s.Some? {
      PredicateRelations(s.value, now);
    }
  }

  /** `onGenericTrial()`: false without a customer, else the customer's own answer. */
  function OnGenericTrial(customer: Option<Customer>, genericTrial: Customer -> bool): (b: bool)
    ensures customer.None? ==> !b
    ensures customer.Some? ==> b == genericTrial(customer.value)
  {
    customer.Some? && genericTrial(customer.value)
  }

  /** `hasExpiredGenericTrial()`: false without a customer, else the customer's own answer. */
  function HasExpiredGenericTrial(customer: Option<Customer>, expiredGenericTrial: Customer -> bool): (b: bool)
    ensures customer.None? ==> !b
    ensures customer.Some? ==> b == expiredGenericTrial(customer.value)
  {
    customer.Some? && expiredGenericTrial(customer.value)
  }

  /** How onTrial was called: with no arguments at all, or with a type and a plan (possibly null). */
  datatype TrialQuery = NoArgs | Args(slot: string, plan: Option<string>)

  /**
   * `onTrial(...)`: with no arguments a generic trial answers true first; otherwise, and failing
   * that, the subscription of the type must exist, be on trial and have the plan when one is given.
   */
  predicate OnTrialQuery(subs: seq<Row>, customer: Option<Customer>, genericTrial: Customer -> bool,
                         query: TrialQuery, now: Time)
  {
    var slot := if query.NoArgs? then DEFAULT_TYPE else query.slot;
    var plan := if query.NoArgs? then None else query.plan;
    var s := SubscriptionOfType(subs, slot);
    (query.NoArgs? && OnGenericTrial(customer, genericTrial))
    || (s.Some? && OnTrial(s.value, now) && (PlanGiven(plan) ==> HasPlan(s.value, plan.value)))
  }

  /**
   * The generic trial counts only when onTrial is called with no arguments: passing the default
   * type explicitly gives the subscription's answer alone.
   */
  lemma GenericTrialOnlyWithoutArguments(subs: seq<Row>, customer: Option<Customer>, genericTrial: Customer -> bool, now: Time)
    ensures OnGenericTrial(customer, genericTrial) ==> OnTrialQuery(subs, customer, genericTrial, NoArgs, now)
    ensures OnTrialQuery(subs, customer, genericTrial, Args(DEFAULT_TYPE, None), now)
            <==> SubscriptionOfType(subs, DEFAULT_TYPE).Some? && OnTrial(SubscriptionOfType(subs, DEFAULT_TYPE).value, now)
    ensures customer.None? ==>
              (OnTrialQuery(subs, customer, genericTrial, NoArgs, now)
               <==> OnTrialQuery(subs, customer, genericTrial, Args(DEFAULT_TYPE, None), now))
  {
  }

  /**
   * `trialEndsAt($type)`: the subscription's end_date when one of the type exists; else the
   * customer's, which raises a warning when there is no customer.
   */
  function TrialEndsAt(subs: seq<Row>, slot: string, customer: Option<Customer>): (r: Result<Option<Time>>)
    ensures r.Err? <==> SubscriptionOfType(subs, slot).None? && customer.None?
    ensures SubscriptionOfType(subs, slot).Some? ==> r == Ok(SubscriptionOfType(subs, slot).value.endDate)
    ensures SubscriptionOfType(subs, slot).None? && customer.Some? ==> r == Ok(customer.value.endDate)
  {
    match SubscriptionOfType(subs, slot)
    case Some(s) => Ok(s.endDate)
    case None =>
      if customer.None? then Err(Warning("Attempt to read property \"end_date\" on null"))
      else Ok(customer.value.endDate)
  }

  /** `onPlan($plan)`: some subscription, of any type and in any state, has exactly that plan. */
  function OnPlan(subs: seq<Row>, plan: Json): (b: bool)
    ensures b <==> exists i :: 0 <= i < |subs| && subs[i].paystackPlan == plan
  {
    if subs == [] then false
    else if subs[0].paystackPlan == plan then true
    else
      var b := OnPlan(subs[1..], plan);
      assert forall i :: 0 < i < |subs| ==> subs[i] == subs[1..][i - 1];
      assert b ==> exists i :: 0 <= i < |subs[1..]| && subs[1..][i].paystackPlan == plan;
      b
  }

  /** A billable subscribed to a plan under some type is on that plan. */
  lemma SubscribedImpliesOnPlan(subs: seq<Row>, slot: string, p: string, now: Time)
    requires Subscribed(subs, slot, Some(p), now) && TruthyString(p)
    ensures OnPlan(subs, JStr(p))
  {
    var s := SubscriptionOfType(subs, slot).value;
    var i :| 0 <= i < |subs| && subs[i] == s;
    assert subs[i].paystackPlan == JStr(p);
  }

  /**
   * The row a builder has just inserted for an owner is what that owner's `subscription($type)`
   * returns next, whatever older rows of the same type exist.
   */
  lemma NewestRowAnswers(rows: seq<Row>, r: Row)
    ensures SubscriptionOfType(SubscriptionsOf(rows + [r], r.owner), r.slot) == Some(r)
  {
    InsertIsNewest(rows, r, r.owner);
  }

  /** `newSubscription($type, $plan)`: a fresh builder for this billable with that type and plan and no trial settings. */
  method NewSubscription(billable: Billable, slot: string, plan: Json) returns (b: Builder.SubscriptionBuilder)
    ensures fresh(b)
    ensures b.billable == billable && b.slot == slot && b.plan == plan
    ensures b.trialDays.None? && !b.skipTrial
  {
    b := new Builder.SubscriptionBuilder(billable, slot, plan);
  }
}
