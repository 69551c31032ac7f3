/**
 * src/SubscriptionBuilder.php: the fluent builder that starts a subscription on the gateway and
 * records it locally, and the one-off charge that pays for a plan.
 */
module Builder {
  import opened Wrappers
  import opened Values
  import opened Gateway
  import opened Subscriptions
  import opened Store
  import opened ManagesCustomer
  import opened ManagesPayments

  /** The trial end `save` records: none when skipped, else now plus the trial days when they are truthy. */
  function TrialEndsAt(skipTrial: bool, trialDays: Option<int>, now: Time): (t: Option<Time>)
    ensures t.Some? <==> !skipTrial && trialDays.Some? && trialDays.value != 0
    ensures t.Some? ==> t.value == now + trialDays.value * DAY
  {
    if skipTrial then None
    else if trialDays.Some? && trialDays.value != 0 then Some(now + trialDays.value * DAY)
    else None
  }

  /** The start date getSubscriptionPayload sends: now, moved by the trial days when they are truthy and not skipped. */
  function StartDate(skipTrial: bool, trialDays: Option<int>, now: Time): (t: Time)
    ensures skipTrial || trialDays.None? || trialDays.value == 0 ==> t == now
  {
    if skipTrial then now
    else if trialDays.Some? && trialDays.value != 0 then now + trialDays.value * DAY
    else now
  }

  /** The billing start sent to the gateway is the trial end recorded locally, or now when there is none. */
  lemma StartDateIsTrialEnd(skipTrial: bool, trialDays: Option<int>, now: Time)
    ensures StartDate(skipTrial, trialDays, now)
            == match TrialEndsAt(skipTrial, trialDays, now) { case Some(t) => t case None => now }
    ensures StartDate(skipTrial, trialDays, now) >= now <==> TrialEndsAt(skipTrial, trialDays, now).None? || trialDays.value > 0
  {
  }

  /**
   * `getSubscriptionPayload($customer, $options)`: customer code, plan and start date as defaults,
   * every option the caller passes winning over them; a customer without a code raises a warning.
   */
  function SubscriptionPayload(customer: Json, plan: Json, start: string, options: Fields): (p: Result<Fields>)
    ensures p.Ok? <==> customer.JObj? && "customer_code" in customer.fields
    ensures p.Ok? ==> p.value.Keys == options.Keys + {"customer", "plan", "start_date"}
    ensures p.Ok? ==> forall k :: k in options ==> p.value[k] == options[k]
    ensures p.Ok? && "customer" !in options ==> p.value["customer"] == customer.fields["customer_code"]
    ensures p.Ok? && "plan" !in options ==> p.value["plan"] == plan
    ensures p.Ok? && "start_date" !in options ==> p.value["start_date"] == JStr(start)
  {
    var code :- Index(customer, "customer_code");
    Ok(Merge(map["customer" := code, "plan" := plan, "start_date" := JStr(start)], options))
  }

  /** `isset($token)`: a non-null token becomes the subscription's authorization. */
  function WithAuthorization(payload: Fields, token: Json): (p: Fields)
    ensures token != JNull ==> p == payload["authorization" := token]
    ensures token == JNull ==> p == payload
  {
    if token != JNull then payload["authorization" := token] else payload
  }

  /**
   * The row `save($options)` inserts from the gateway's subscription data: its id and code, the
   * builder's type and plan, quantity 1 and no end. Data that is not an array is a TypeError; an
   * array without `id` or `subscription_code` raises a warning.
   */
  function NewRow(owner: Owner, slot: string, plan: Json, trialEndsAt: Option<Time>, data: Json, now: Time)
    : (r: Result<Row>)
    ensures r.Ok? <==> data.JObj? && "id" in data.fields && "subscription_code" in data.fields
    ensures r.Ok? ==> r.value.owner == owner && r.value.slot == slot && r.value.paystackPlan == plan
                      && r.value.paystackId == data.fields["id"]
                      && r.value.paystackCode == data.fields["subscription_code"]
                      && r.value.quantity == 1 && r.value.trialEndsAt == trialEndsAt
                      && r.value.endsAt.None? && r.value.endDate.None? && r.value.status.None?
                      && r.value.createdAt == now
  {
    if !(data.JObj? || data.JList?) then Err(TypeError("save(): Argument #1 ($options) must be of type array"))
    else
      var id :- Index(data, "id");
      var code :- Index(data, "subscription_code");
      Ok(Row(owner, slot, id, code, plan, 1, trialEndsAt, None, None, None, JNull, now))
  }

  /** The metadata charge always attaches: the billable's key and morph class. */
  function MetadataBase(billable: Billable): (m: Fields)
    ensures m.Keys == {"billable_id", "billable_type"}
    ensures m["billable_id"] == JInt(billable.owner.id) && m["billable_type"] == JStr(billable.owner.kind)
  {
    map["billable_id" := JInt(billable.owner.id), "billable_type" := JStr(billable.owner.kind)]
  }

  /**
   * `json_decode($options['metadata'] ?? '') ?? []`: absent, null or false metadata decodes to the
   * empty array, scalars are decoded from their string form, an array is a TypeError.
   */
  function DecodedMetadata(env: Env, options: Fields): (d: Result<Json>)
    ensures d.Err? <==> "metadata" in options && (options["metadata"].JObj? || options["metadata"].JList?)
    ensures d.Ok? ==> d.value != JNull
    ensures "metadata" !in options ==> d == Ok(JList([]))
    ensures "metadata" in options && (options["metadata"] == JNull || options["metadata"] == JBool(false))
            ==> d == Ok(JList([]))
    ensures "metadata" in options && options["metadata"].JStr? && env.decodeJson(options["metadata"].s) == JNull
            ==> d == Ok(JList([]))
    ensures "metadata" in options && options["metadata"].JStr? && env.decodeJson(options["metadata"].s) != JNull
            ==> d == Ok(env.decodeJson(options["metadata"].s))
  {
    var decoded :-
      if "metadata" !in options then Ok(JNull)
      else match options["metadata"]
        case JNull => Ok(JNull)
        case JStr(s) => Ok(env.decodeJson(s))
        case JInt(i) => Ok(env.decodeJson(IntText(i)))
        case JBool(b) => if b then Ok(env.decodeJson("1")) else Ok(JNull)
        case _ => Err(TypeError("json_decode(): Argument #1 ($json) must be of type string"));
    if decoded == JNull then Ok(JList([])) else Ok(decoded)
  }

  /** A decoded JSON list as a PHP array: its items under the keys "0", "1", .... */
  function ListFields(items: seq<Json>): Fields {
    if items == [] then map[]
    else ListFields(items[..|items| - 1])[NatText(|items| - 1) := items[|items| - 1]]
  }

  /** The keys "0", ..., "n-1". */
  ghost function Positions(n: nat): set<string> {
    set i | 0 <= i < n :: NatText(i)
  }

  /** The array's keys are exactly the item positions. */
  lemma {:induction false} ListFieldsKeys(items: seq<Json>)
    ensures ListFields(items).Keys == Positions(|items|)
  {
    if items != [] {
      var n := |items| - 1;
      ListFieldsKeys(items[..n]);
      assert Positions(n + 1) == Positions(n) + {NatText(n)} by {
        forall k | k in Positions(n + 1) ensures k in Positions(n) + {NatText(n)} {
          var i :| 0 <= i < n + 1 && k == NatText(i);
          if i < n {
            assert k in Positions(n);
          }
        }
      }
    }
  }

  /** Each item sits under its own position. */
  lemma {:induction false} ListFieldsValues(items: seq<Json>)
    ensures forall i :: 0 <= i < |items| ==> NatText(i) in ListFields(items) && ListFields(items)[NatText(i)] == items[i]
  {
    if items != [] {
      var n := |items| - 1;
      var prefix := items[..n];
      var f := ListFields(prefix);
      assert ListFields(items) == f[NatText(n) := items[n]];
      ListFieldsValues(prefix);
      forall i | 0 <= i < |items|
        ensures NatText(i) in ListFields(items) && ListFields(items)[NatText(i)] == items[i]
      {
        if i < n {
          if NatText(i) == NatText(n) {
            NatTextInjective(i, n);
          }
          assert prefix[i] == items[i] && f[NatText(i)] == prefix[i];
        }
      }
    }
  }

  /** Every key of a list-derived array is a decimal numeral. */
  lemma ListKeysAreDigits(items: seq<Json>)
    ensures forall k :: k in ListFields(items) ==> |k| >= 1 && '0' <= k[0] <= '9'
  {
    ListFieldsKeys(items);
  }

  /**
   * `array_merge($base, $decoded)` as written, where json_decode was called without its
   * associative flag: a JSON list is an array and is appended, but a JSON object decodes to a
   * stdClass, and array_merge rejects it (as it does any scalar).
   */
  function MergeMetadataAsWritten(base: Fields, decoded: Json): (m: Result<Fields>)
    ensures m.Ok? <==> decoded.JList?
    ensures m.Ok? ==> m.value == Merge(base, ListFields(decoded.items))
  {
    match decoded
    case JList(items) => Ok(Merge(base, ListFields(items)))
    case JObj(_) => Err(TypeError("array_merge(): Argument #2 must be of type array, stdClass given"))
    case _ => Err(TypeError("array_merge(): Argument #2 must be of type array"))
  }

  /**
   * The merge as intended, with the metadata decoded as an associative array: the caller's
   * object fields are merged over the billable's key and morph class.
   */
  function MergeMetadata(base: Fields, decoded: Json): (m: Result<Fields>)
    ensures m.Ok? <==> decoded.JList? || decoded.JObj?
    ensures m.Ok? && decoded.JObj? ==> m.value == Merge(base, decoded.fields)
    ensures m.Ok? && decoded.JList? ==> m.value == MergeMetadataAsWritten(base, decoded).value
  {
    match decoded
    case JObj(fields) => Ok(Merge(base, fields))
    case _ => MergeMetadataAsWritten(base, decoded)
  }

  /**
   * As written, metadata given as a JSON object, the form the gateway documents for metadata,
   * makes the charge fail before any request; the intended merge keeps every caller field and
   * adds the billable's key and morph class where the caller did not set them.
   */
  lemma ObjectMetadataRejectedAsWritten(env: Env, billable: Billable, options: Fields)
    requires "metadata" in options && options["metadata"].JStr?
    requires env.decodeJson(options["metadata"].s).JObj?
    ensures DecodedMetadata(env, options) == Ok(env.decodeJson(options["metadata"].s))
    ensures MergeMetadataAsWritten(MetadataBase(billable), DecodedMetadata(env, options).value).Err?
    ensures var fields := env.decodeJson(options["metadata"].s).fields;
            var m := MergeMetadata(MetadataBase(billable), DecodedMetadata(env, options).value);
            && m.Ok?
            && m.value.Keys == fields.Keys + {"billable_id", "billable_type"}
            && (forall k :: k in fields ==> m.value[k] == fields[k])
            && ("billable_id" !in fields ==> m.value["billable_id"] == JInt(billable.owner.id))
  {
  }

  /**
   * The options charge passes on once the metadata is merged: the plan as a default, the
   * metadata replaced by the encoded merge, every other caller option kept.
   */
  function ChargeOptionsWith(env: Env, plan: Json, merged: Fields, options: Fields): (o: Fields)
    ensures o.Keys == options.Keys + {"plan", "metadata"}
    ensures forall k :: k in options && k != "metadata" ==> o[k] == options[k]
    ensures "plan" !in options ==> o["plan"] == plan
    ensures o["metadata"] == JStr(env.encodeJson(JObj(merged)))
  {
    Merge(map["plan" := plan, "metadata" := JStr(env.encodeJson(JObj(merged)))], options - {"metadata"})
  }

  /** The options charge builds, as written: object metadata makes the merge fail. */
  function SubscriptionChargeOptionsAsWritten(env: Env, billable: Billable, plan: Json, options: Fields): (o: Result<Fields>)
    ensures var d := DecodedMetadata(env, options);
      o.Ok? <==> d.Ok? && d.value.JList?
    ensures o.Ok? ==>
      o.value == ChargeOptionsWith(env, plan, Merge(MetadataBase(billable), ListFields(DecodedMetadata(env, options).value.items)), options)
  {
    var decoded :- DecodedMetadata(env, options);
    var merged :- MergeMetadataAsWritten(MetadataBase(billable), decoded);
    Ok(ChargeOptionsWith(env, plan, merged, options))
  }

  /** The options charge builds with the intended merge: object metadata is kept field by field. */
  function SubscriptionChargeOptions(env: Env, billable: Billable, plan: Json, options: Fields): (o: Result<Fields>)
    ensures var d := DecodedMetadata(env, options);
      o.Ok? <==> d.Ok? && (d.value.JList? || d.value.JObj?)
    ensures var d := DecodedMetadata(env, options);
      o.Ok? && d.value.JObj? ==>
      o.value == ChargeOptionsWith(env, plan, Merge(MetadataBase(billable), d.value.fields), options)
    ensures SubscriptionChargeOptionsAsWritten(env, billable, plan, options).Ok? ==>
      o == SubscriptionChargeOptionsAsWritten(env, billable, plan, options)
  {
    var decoded :- DecodedMetadata(env, options);
    var merged :- MergeMetadata(MetadataBase(billable), decoded);
    Ok(ChargeOptionsWith(env, plan, merged, options))
  }

  /** With object metadata the as-written options fail, so charge sends nothing; the intended options exist. */
  lemma ObjectMetadataChargeRejected(env: Env, billable: Billable, plan: Json, options: Fields)
    requires "metadata" in options && options["metadata"].JStr?
    requires env.decodeJson(options["metadata"].s).JObj?
    ensures SubscriptionChargeOptionsAsWritten(env, billable, plan, options).Err?
    ensures SubscriptionChargeOptions(env, billable, plan, options).Ok?
  {
  }

  /** The message create throws when the gateway reports failure. */
  function SubscriptionFailure(message: string): string {
    "Paystack failed to create subscription: " + message
  }

  /** A SubscriptionBuilder: the billable, the subscription type and plan, and the trial settings. */
  class SubscriptionBuilder {
    const billable: Billable
    const slot: string
    const plan: Json
    var trialDays: Option<int>
    var skipTrial: bool

    constructor (billable: Billable, slot: string, plan: Json)
      ensures this.billable == billable && this.slot == slot && this.plan == plan
      ensures trialDays.None? && !skipTrial
    {
      this.billable := billable;
      this.slot := slot;
      this.plan := plan;
      trialDays := None;
      skipTrial := false;
    }

    /** `trialDays($days)`: record the trial length and return the builder itself. */
    method TrialDays(days: int) returns (self: SubscriptionBuilder)
      modifies this
      ensures self == this && trialDays == Some(days) && skipTrial == old(skipTrial)
    {
      trialDays := Some(days);
      self := this;
    }

    /** `skipTrial()`: no trial, whatever the trial days, and return the builder itself. */
    method SkipTrial() returns (self: SubscriptionBuilder)
      modifies this
      ensures self == this && skipTrial && trialDays == old(trialDays)
    {
      skipTrial := true;
      self := this;
    }

    /** `save($options)`: insert the row built from the gateway's data, or nothing when it cannot be built. */
    method Save(db: Database, data: Json, now: Time) returns (r: Result<Row>)
      requires db.Valid()
      modifies db
      ensures db.Valid() && db.customers == old(db.customers)
      ensures r == NewRow(billable.owner, slot, plan, TrialEndsAt(skipTrial, trialDays, now), data, now)
      ensures db.subscriptions == if r.Ok? then old(db.subscriptions) + [r.value] else old(db.subscriptions)
    {
      r := NewRow(billable.owner, slot, plan, TrialEndsAt(skipTrial, trialDays, now), data, now);
      if r.Ok? {
        db.InsertSubscription(r.value);
      }
    }

    /**
     * `getPaystackCustomer()`: fetch the remote customer when the billable has one with a truthy
     * paystack_id (the reply's data, whatever its status), otherwise create it.
     */
    method GetPaystackCustomer(db: Database, env: Env) returns (customer: Result<Json>, calls: seq<Request>)
      requires db.Valid()
      modifies db
      ensures db.Valid() && db.subscriptions == old(db.subscriptions)
      ensures |calls| == 1
      ensures customer.Ok? ==> env.gateway(calls[0]).Returned?
      ensures customer.Ok? ==> customer.value == env.gateway(calls[0]).reply.data
      ensures var existing := CustomerOf(old(db.customers), billable.owner);
              if existing.Some? && Truthy(existing.value.paystackId) then
                calls[0] == FetchCustomer(existing.value.paystackCode) && db.customers == old(db.customers)
                && (customer.Ok? <==> env.gateway(calls[0]).Returned?)
              else
                calls[0] == CreateCustomer(CustomerRequestBody(billable, map[]))
                && (customer.Ok? <==> env.gateway(calls[0]).Returned? && env.gateway(calls[0]).reply.status
                                      && NewCustomer(billable, env.gateway(calls[0]).reply.data).Ok? && existing.None?)
                && (customer.Ok? ==> env.gateway(calls[0]).reply.status && NewCustomer(billable, customer.value).Ok?
                                     && db.customers == old(db.customers) + [NewCustomer(billable, customer.value).value])
                && (customer.Err? ==> db.customers == old(db.customers))
    {
      var existing := CustomerOf(db.customers, billable.owner);
      if existing.Some? && Truthy(existing.value.paystackId) {
        calls := [FetchCustomer(existing.value.paystackCode)];
        var reply := Call(env, calls[0]);
        if reply.Err? {
          return Err(reply.error), calls;
        }
        customer := Ok(reply.value.data);
      } else {
        customer, calls := CreateAsCustomer(db, env, billable, map[]);
      }
    }

    /**
     * `create($token, $options)`: look up or create the remote customer, create the remote
     * subscription, and on a true status insert the local row. Any failure leaves the
     * subscriptions table as it was; a customer created on the way stays, and the customers
     * table changes only by that one row.
     */
    method Create(db: Database, env: Env, token: Json, options: Fields) returns (r: Result<Row>, calls: seq<Request>)
      requires db.Valid()
      modifies db
      ensures db.Valid()
      ensures 1 <= |calls| <= 2
      ensures r.Err? ==> db.subscriptions == old(db.subscriptions)
      ensures var existing := CustomerOf(old(db.customers), billable.owner);
        var first := env.gateway(calls[0]);
        db.customers ==
          if existing.None? && first.Returned? && first.reply.status && NewCustomer(billable, first.reply.data).Ok?
          then old(db.customers) + [NewCustomer(billable, first.reply.data).value]
          else old(db.customers)
      ensures var existing := CustomerOf(old(db.customers), billable.owner);
        calls[0] == if existing.Some? && Truthy(existing.value.paystackId)
                    then FetchCustomer(existing.value.paystackCode)
                    else CreateCustomer(CustomerRequestBody(billable, map[]))
      ensures var existing := CustomerOf(old(db.customers), billable.owner);
        var first := env.gateway(calls[0]);
        var found := existing.Some? && Truthy(existing.value.paystackId);
        var customerOk := first.Returned? && (found || (first.reply.status && NewCustomer(billable, first.reply.data).Ok? && existing.None?));
        |calls| == 2 <==>
          customerOk
          && SubscriptionPayload(first.reply.data, plan, env.formatDate(StartDate(skipTrial, trialDays, env.now)), options).Ok?
      ensures |calls| == 2 && env.gateway(calls[1]).Returned? && env.gateway(calls[1]).reply.status ==>
        r == NewRow(billable.owner, slot, plan, TrialEndsAt(skipTrial, trialDays, env.now),
                    env.gateway(calls[1]).reply.data, env.now)
      ensures |calls| == 2 ==> env.gateway(calls[0]).Returned?
      ensures |calls| == 2 ==>
        var customer := env.gateway(calls[0]).reply.data;
        var payload := SubscriptionPayload(customer, plan, env.formatDate(StartDate(skipTrial, trialDays, env.now)), options);
        && payload.Ok?
        && calls[1] == CreateSubscription(WithAuthorization(payload.value, token))
        && (env.gateway(calls[1]).Returned? && !env.gateway(calls[1]).reply.status ==>
              r == Err(Exception(SubscriptionFailure(env.gateway(calls[1]).reply.message))))
      ensures r.Ok? ==>
        |calls| == 2 && env.gateway(calls[1]).Returned? && env.gateway(calls[1]).reply.status
        && r == NewRow(billable.owner, slot, plan, TrialEndsAt(skipTrial, trialDays, env.now),
                       env.gateway(calls[1]).reply.data, env.now)
        && db.subscriptions == old(db.subscriptions) + [r.value]
    {
      var customer;
      customer, calls := GetPaystackCustomer(db, env);
      if customer.Err? {
        return Err(customer.error), calls;
      }
      var start := env.formatDate(StartDate(skipTrial, trialDays, env.now));
      var payload := SubscriptionPayload(customer.value, plan, start, options);
      if payload.Err? {
        return Err(payload.error), calls;
      }
      var request := CreateSubscription(WithAuthorization(payload.value, token));
      calls := calls + [request];
      var reply := Call(env, request);
      if reply.Err? {
        return Err(reply.error), calls;
      }
      if !reply.value.status {
        return Err(Exception(SubscriptionFailure(reply.value.message))), calls;
      }
      r := Save(db, reply.value.data, env.now);
    }

    /**
     * `charge($options)`, as written: a charge of 100 minor units for the plan, tagged with the
     * billable; `currency` and `reference` are what preferredCurrency and the reference generator
     * give. Metadata given as a JSON object fails before any request.
     */
    function Charge(env: Env, currency: string, reference: string, options: Fields): (r: Result<Reply>)
      ensures var o := SubscriptionChargeOptionsAsWritten(env, billable, plan, options);
        o.Err? ==> r == Err(o.error)
      ensures var o := SubscriptionChargeOptionsAsWritten(env, billable, plan, options);
        o.Ok? ==> r == ChargeBillable(env, currency, reference, billable, 100, o.value)
      ensures var o := SubscriptionChargeOptionsAsWritten(env, billable, plan, options);
        o.Ok? ==>
        var body := ChargeOptions(currency, reference, billable.email, 100, o.value);
        && body["amount"] == JInt(100)
        && (r.Ok? <==> env.gateway(ChargeRequest(body)).Returned? && env.gateway(ChargeRequest(body)).reply.status)
    {
      var opts :- SubscriptionChargeOptionsAsWritten(env, billable, plan, options);
      ChargeBillable(env, currency, reference, billable, 100, opts)
    }

    /** `charge($options)` with the metadata decoded as an associative array, as intended. */
    function ChargeIntended(env: Env, currency: string, reference: string, options: Fields): (r: Result<Reply>)
      ensures var o := SubscriptionChargeOptions(env, billable, plan, options);
        o.Err? ==> r == Err(o.error)
      ensures var o := SubscriptionChargeOptions(env, billable, plan, options);
        o.Ok? ==> r == ChargeBillable(env, currency, reference, billable, 100, o.value)
      ensures Charge(env, currency, reference, options).Ok? ==> r == Charge(env, currency, reference, options)
    {
      var opts :- SubscriptionChargeOptions(env, billable, plan, options);
      ChargeBillable(env, currency, reference, billable, 100, opts)
    }
  }
}
