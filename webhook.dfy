/**
 * src/Http/Controllers/WebhookController.php: the endpoint Paystack posts events to. It maps the
 * event name to a handler method, answers every outcome with a fixed text, and reconciles the
 * subscriptions table on `subscription.create` and `subscription.disable`.
 */
module WebhookController {
  import opened Wrappers
  import opened Values
  import opened Gateway
  import opened Subscriptions
  import opened Store
  import Builder
  import Sig = VerifyWebhookSignature

  const NO_EVENT: string := "Webhook received but no event was found."
  const SKIPPED: string := "Webhook skipped due to error processing it."
  const HANDLED: string := "Webhook was handled."
  const NO_HANDLER: string := "Webhook received but no handler found."

  /** What the endpoint answers: a 200 with a text, a 403 from the signature gate, or an uncaught error (a 500). */
  datatype HttpResponse = Respond(body: string) | Forbidden | ServerError(reason: string)

  /** The events the controller dispatches, in order, as an append-only log. */
  datatype Event =
    | WebhookReceived(payload: Fields)
    | WebhookHandled(payload: Fields)
    | SubscriptionCreated(owner: Owner, row: Row, payload: Fields)
    | SubscriptionCancelled(owner: Owner, row: Row, payload: Fields)

  // Handler names: 'handle' . Str::studly(str_replace('.', '_', $event)).

  /** `str_replace('.', '_', $name)`. */
  function DotsToUnderscores(s: string): (r: string)
    ensures |r| == |s|
    ensures forall i :: 0 <= i < |s| ==> r[i] == if s[i] == '.' then '_' else s[i]
  {
    seq(|s|, i requires 0 <= i < |s| => if s[i] == '.' then '_' else s[i])
  }

  /** The characters Str::studly splits words at. */
  predicate Separator(c: char) {
    c == '-' || c == '_' || c == ' '
  }

  /**
   * `Str::studly`: split at `-`, `_` and space, upper-case the first letter of every word, and
   * join the words with nothing between them. `capital` says whether a word starts here.
   */
  function StudlyFrom(s: string, capital: bool): string {
    if s == [] then []
    else if Separator(s[0]) then StudlyFrom(s[1..], true)
    else [if capital then UpperChar(s[0]) else s[0]] + StudlyFrom(s[1..], false)
  }

  function Studly(s: string): string {
    StudlyFrom(s, true)
  }

  /** The name with every separator removed. */
  function Unseparated(s: string): string {
    if s == [] then [] else (if Separator(s[0]) then [] else [s[0]]) + Unseparated(s[1..])
  }

  lemma LowerOfUpper(c: char)
    ensures LowerChar(UpperChar(c)) == LowerChar(c)
  {
  }

  /** Up to letter case, Str::studly only removes the separators. */
  lemma {:induction false} StudlyIgnoringCase(s: string, capital: bool)
    ensures Lower(StudlyFrom(s, capital)) == Lower(Unseparated(s))
  {
    if s != [] {
      StudlyIgnoringCase(s[1..], Separator(s[0]));
      var head: string := if Separator(s[0]) then [] else [s[0]];
      var first: string := if Separator(s[0]) then [] else [if capital then UpperChar(s[0]) else s[0]];
      LowerOfUpper(s[0]);
      assert Lower(first) == Lower(head);
      LowerAppend(first, StudlyFrom(s[1..], Separator(s[0])));
      LowerAppend(head, Unseparated(s[1..]));
    }
  }

  /** The prefix of every handler method name, and the two handled events' names after it, in lower case. */
  const HANDLE: string := "handle"
  const CREATE: string := "subscriptioncreate"
  const DISABLE: string := "subscriptiondisable"

  /** The handler method `__invoke` looks for. */
  function MethodName(event: string): string {
    HANDLE + Studly(DotsToUnderscores(event))
  }

  datatype Handler = SubscriptionCreate | SubscriptionDisable

  /** `method_exists($this, $method)`: PHP method names match without regard to letter case. */
  function HandlerFor(name: string): (h: Option<Handler>)
    ensures h == Some(SubscriptionCreate) <==> Lower(name) == HANDLE + CREATE
    ensures h == Some(SubscriptionDisable) <==> Lower(name) == HANDLE + DISABLE
  {
    assert |HANDLE + CREATE| != |HANDLE + DISABLE|;
    if Lower(name) == HANDLE + CREATE then Some(SubscriptionCreate)
    else if Lower(name) == HANDLE + DISABLE then Some(SubscriptionDisable)
    else None
  }

  /**
   * The event as the string str_replace sees: integers and booleans in their string form; an
   * array makes Str::studly fail with an error no handler catches.
   */
  function EventText(event: Json): (r: Result<string>)
    ensures r.Err? <==> event.JObj? || event.JList?
    ensures event.JStr? ==> r == Ok(event.s)
  {
    match event
    case JStr(s) => Ok(s)
    case JInt(i) => Ok(IntText(i))
    case JBool(b) => Ok(if b then "1" else "")
    case JNull => Ok("")
    case _ => Err(TypeError("Illegal offset type"))
  }

  /** Where `__invoke` sends a payload. */
  datatype Route = NoEvent | Crashes | Unhandled | Dispatch(handler: Handler)

  function RouteOf(payload: Fields): (r: Route)
    ensures r == NoEvent <==> "event" !in payload || payload["event"] == JNull
    ensures r == Crashes <==> "event" in payload && (payload["event"].JObj? || payload["event"].JList?)
  {
    if "event" !in payload || payload["event"] == JNull then NoEvent
    else match EventText(payload["event"])
      case Err(_) => Crashes
      case Ok(name) =>
        match HandlerFor(MethodName(name))
        case None => Unhandled
        case Some(h) => Dispatch(h)
  }

  lemma LowerHandle(rest: string)
    ensures Lower(HANDLE + rest) == HANDLE + Lower(rest)
  {
    LowerAppend(HANDLE, rest);
    assert Lower(HANDLE) == HANDLE;
  }

  lemma PrefixCancel(p: string, a: string, b: string)
    ensures p + a == p + b <==> a == b
  {
    if p + a == p + b {
      assert a == (p + a)[|p|..];
      assert b == (p + b)[|p|..];
    }
  }

  /**
   * A string event reaches the create handler exactly when, separators dropped and dots read as
   * separators, it spells "subscriptioncreate" in any letter case; likewise for disable.
   */
  lemma RouteOfStringEvent(payload: Fields, e: string)
    requires "event" in payload && payload["event"] == JStr(e)
    ensures RouteOf(payload) == Dispatch(SubscriptionCreate) <==> Lower(Unseparated(DotsToUnderscores(e))) == CREATE
    ensures RouteOf(payload) == Dispatch(SubscriptionDisable) <==> Lower(Unseparated(DotsToUnderscores(e))) == DISABLE
  {
    var studly := Studly(DotsToUnderscores(e));
    StudlyIgnoringCase(DotsToUnderscores(e), true);
    LowerHandle(studly);
    var low := Lower(studly);
    assert Lower(MethodName(e)) == HANDLE + low;
    PrefixCancel(HANDLE, low, CREATE);
    PrefixCancel(HANDLE, low, DISABLE);
  }

  // The subscription.create handler.

  /**
   * `resolveBillable($payload)`: no customer code (missing or null anywhere on the path) throws;
   * otherwise the owner of the first customer with that code, or null when there is none.
   */
  function ResolveBillable(customers: seq<Customer>, payload: Fields): (r: Result<Option<Owner>>)
    ensures r.Err? <==> Path(JObj(payload), ["data", "customer", "customer_code"]).None?
    ensures r.Ok? && r.value.Some? ==>
      exists k :: 0 <= k < |customers| && customers[k].owner == r.value.value
                  && Some(customers[k].paystackCode) == Path(JObj(payload), ["data", "customer", "customer_code"])
                  && forall j :: 0 <= j < k ==> Some(customers[j].paystackCode) != Path(JObj(payload), ["data", "customer", "customer_code"])
    ensures r.Ok? && r.value.None? ==>
      forall k :: 0 <= k < |customers| ==> Some(customers[k].paystackCode) != Path(JObj(payload), ["data", "customer", "customer_code"])
  {
    match Path(JObj(payload), ["data", "customer", "customer_code"])
    case None => Err(Exception("Customer data not found in payload"))
    case Some(code) =>
      match FindCustomerByCode(customers, code)
      case None => Ok(None)
      case Some(k) => Ok(Some(customers[k].owner))
  }

  /**
   * What handleSubscriptionCreate adds: nothing, or the row that
   * `newSubscription('default', $plan['plan_code'])->save($data)` inserts with `$data['id']` nulled.
   */
  function CreatedRow(customers: seq<Customer>, rows: seq<Row>, payload: Fields, now: Time): (r: Result<Option<Row>>)
    ensures r.Ok? <==>
      && "data" in payload && ResolveBillable(customers, payload).Ok?
      && payload["data"].JObj? && "subscription_code" in payload["data"].fields
      && (ResolveBillable(customers, payload).value.Some?
          && FindSubscription(rows, payload["data"].fields["subscription_code"]).None? ==>
            var data := payload["data"].fields;
            "plan" in data && data["plan"].JObj? && "plan_code" in data["plan"].fields)
    ensures r.Ok? ==> "data" in payload && payload["data"].JObj? && "subscription_code" in payload["data"].fields
                      && ResolveBillable(customers, payload).Ok?
    ensures r.Ok? ==> (r.value.Some? <==> (ResolveBillable(customers, payload).value.Some?
                                          && FindSubscription(rows, payload["data"].fields["subscription_code"]).None?))
    ensures r.Ok? && r.value.Some? ==>
      var row := r.value.value;
      var data := payload["data"].fields;
      && row.owner == ResolveBillable(customers, payload).value.value
      && row.slot == DEFAULT_TYPE && row.paystackId == JNull
      && row.paystackCode == data["subscription_code"]
      && "plan" in data && data["plan"].JObj? && "plan_code" in data["plan"].fields
      && row.paystackPlan == data["plan"].fields["plan_code"]
      && row.endDate.None? && row.status.None? && row.trialEndsAt.None? && row.createdAt == now
    ensures r.Err? && r.error.TypeError? <==>
      && "data" in payload && payload["data"].JObj? && ResolveBillable(customers, payload).Ok?
      && ResolveBillable(customers, payload).value.Some?
      && "subscription_code" in payload["data"].fields
      && FindSubscription(rows, payload["data"].fields["subscription_code"]).None?
      && "plan" in payload["data"].fields && payload["data"].fields["plan"].JStr?
  {
    var data :- Index(JObj(payload), "data");
    var owner :- ResolveBillable(customers, payload);
    var code :- Index(data, "subscription_code");
    if owner.Some? && FindSubscription(rows, code).None? then
      var plan :- Index(data, "plan");
      var planCode :- Index(plan, "plan_code");
      var row := Builder.NewRow(owner.value, DEFAULT_TYPE, planCode, Builder.TrialEndsAt(false, None, now),
                                JObj(data.fields["id" := JNull]), now);
      assert row.Ok?;
      Ok(Some(row.value))
    else
      Ok(None)
  }

  /** A second delivery of a create event adds nothing, whenever it arrives. */
  lemma CreateIsIdempotent(customers: seq<Customer>, rows: seq<Row>, payload: Fields, now: Time, later: Time)
    requires CreatedRow(customers, rows, payload, now).Ok?
    ensures CreatedRow(customers, rows + CreatedRows(CreatedRow(customers, rows, payload, now).value), payload, later)
            == Ok(None)
  {
    var created := CreatedRow(customers, rows, payload, now).value;
    var added := CreatedRows(created);
    var code := payload["data"].fields["subscription_code"];
    if created.Some? {
      assert (rows + added)[|rows|] == created.value && created.value.paystackCode == code;
      assert FindSubscription(rows + added, code).Some?;
    } else {
      assert rows + added == rows;
    }
  }

  /** The rows to append for a create outcome: none, or the one created. */
  function CreatedRows(created: Option<Row>): (rows: seq<Row>)
    ensures created.None? ==> rows == []
    ensures created.Some? ==> rows == [created.value]
  {
    if created.Some? then [created.value] else []
  }

  // The subscription.disable handler.

  /**
   * Which row handleSubscriptionDisable marks as cancelled: the first row whose paystack_code is
   * the event's subscription_code, when it is not cancelled or is still on its grace period.
   */
  function DisableTarget(rows: seq<Row>, payload: Fields, now: Time): (r: Result<Option<nat>>)
    ensures r.Ok? <==> "data" in payload && payload["data"].JObj? && "subscription_code" in payload["data"].fields
    ensures r.Ok? && r.value.Some? ==>
      var k := r.value.value;
      && FindSubscription(rows, payload["data"].fields["subscription_code"]) == Some(k)
      && (!Cancelled(rows[k]) || OnGracePeriod(rows[k], now))
    ensures r.Ok? && r.value.None? ==>
      var found := FindSubscription(rows, payload["data"].fields["subscription_code"]);
      found.None? || (Cancelled(rows[found.value]) && !OnGracePeriod(rows[found.value], now))
    ensures r.Err? && r.error.TypeError? <==> "data" in payload && payload["data"].JStr?
  {
    var data :- Index(JObj(payload), "data");
    var code :- Index(data, "subscription_code");
    match FindSubscription(rows, code)
    case None => Ok(None)
    case Some(k) => if !Cancelled(rows[k]) || OnGracePeriod(rows[k], now) then Ok(Some(k)) else Ok(None)
  }

  /** The table after a disable outcome: the target row marked as cancelled at `now`, every other row as it was. */
  function AfterDisable(rows: seq<Row>, target: Option<nat>, now: Time): (after: seq<Row>)
    requires target.Some? ==> target.value < |rows|
    ensures |after| == |rows|
    ensures forall j :: 0 <= j < |rows| && target != Some(j) ==> after[j] == rows[j]
    ensures target.Some? ==> after[target.value] == MarkedAsCancelled(rows[target.value], now)
  {
    if target.Some? then rows[target.value := MarkedAsCancelled(rows[target.value], now)] else rows
  }

  /** A second delivery of a disable event, at the same time or later, changes nothing. */
  lemma DisableIsIdempotent(rows: seq<Row>, payload: Fields, now: Time, later: Time)
    requires DisableTarget(rows, payload, now).Ok?
    requires later >= now
    ensures DisableTarget(AfterDisable(rows, DisableTarget(rows, payload, now).value, now), payload, later) == Ok(None)
  {
    var target := DisableTarget(rows, payload, now).value;
    var after := AfterDisable(rows, target, now);
    var code := payload["data"].fields["subscription_code"];
    if target.Some? {
      var k := target.value;
      assert after[k].paystackCode == code;
      assert forall j :: 0 <= j < k ==> after[j] == rows[j];
      FindSubscriptionAt(after, code, k);
    } else {
      var found := FindSubscription(rows, code);
      assert after == rows;
      if found.Some? {
        var k := found.value;
        assert !OnGracePeriod(rows[k], later) by {
          assert !OnGracePeriod(rows[k], now);
        }
      }
    }
  }

  /**
   * A disable event that marks a row leaves it cancelled and ended at once, whether it was
   * active or still in a grace period, and it stays ended and inactive from then on.
   */
  lemma DisableEndsGracePeriod(rows: seq<Row>, payload: Fields, now: Time)
    requires DisableTarget(rows, payload, now).Ok? && DisableTarget(rows, payload, now).value.Some?
    ensures var target := DisableTarget(rows, payload, now).value;
            var after := AfterDisable(rows, target, now)[target.value];
            && Cancelled(after) && !OnGracePeriod(after, now)
            && forall later :: later >= now ==> Ended(after, later) && !Active(after, later)
  {
  }

  // The controller's methods, in the order they touch the database.

  /** `handleSubscriptionCreate($payload)`: each step in order; the created row goes through the builder's save. */
  method HandleSubscriptionCreate(db: Database, payload: Fields, now: Time) returns (r: Result<()>, events: seq<Event>)
    requires db.Valid()
    modifies db
    ensures db.Valid() && db.customers == old(db.customers)
    ensures var spec := CreatedRow(old(db.customers), old(db.subscriptions), payload, now);
            && (r.Ok? <==> spec.Ok?)
            && (r.Err? ==> r.error == spec.error && db.subscriptions == old(db.subscriptions) && events == [])
            && (spec.Ok? ==> db.subscriptions == old(db.subscriptions) + CreatedRows(spec.value))
            && (spec.Ok? && spec.value.Some? ==>
                  events == [SubscriptionCreated(spec.value.value.owner, spec.value.value, payload)])
            && (spec.Ok? && spec.value.None? ==> events == [])
  {
    events := [];
    var data := Index(JObj(payload), "data");
    if data.Err? {
      return Err(data.error), events;
    }
    var owner := ResolveBillable(db.customers, payload);
    if owner.Err? {
      return Err(owner.error), events;
    }
    var code := Index(data.value, "subscription_code");
    if code.Err? {
      return Err(code.error), events;
    }
    var existing := FindSubscription(db.subscriptions, code.value);
    if owner.value.Some? && existing.None? {
      var plan := Index(data.value, "plan");
      if plan.Err? {
        return Err(plan.error), events;
      }
      var planCode := Index(plan.value, "plan_code");
      if planCode.Err? {
        return Err(planCode.error), events;
      }
      var row := Builder.NewRow(owner.value.value, DEFAULT_TYPE, planCode.value, Builder.TrialEndsAt(false, None, now),
                                JObj(data.value.fields["id" := JNull]), now);
      db.InsertSubscription(row.value);
      events := [SubscriptionCreated(owner.value.value, row.value, payload)];
    }
    r := Ok(());
  }

  /** `handleSubscriptionDisable($payload)`: load the row, mark it as cancelled through the entity, save it back. */
  method HandleSubscriptionDisable(db: Database, payload: Fields, now: Time) returns (r: Result<()>, events: seq<Event>)
    requires db.Valid()
    modifies db
    ensures db.Valid() && db.customers == old(db.customers)
    ensures var spec := DisableTarget(old(db.subscriptions), payload, now);
            && (r.Ok? <==> spec.Ok?)
            && (r.Err? ==> r.error == spec.error && db.subscriptions == old(db.subscriptions) && events == [])
            && (spec.Ok? ==> db.subscriptions == AfterDisable(old(db.subscriptions), spec.value, now))
            && (spec.Ok? && spec.value.Some? ==>
                  events == [SubscriptionCancelled(old(db.subscriptions)[spec.value.value].owner,
                                                   db.subscriptions[spec.value.value], payload)])
            && (spec.Ok? && spec.value.None? ==> events == [])
  {
    events := [];
    var data := Index(JObj(payload), "data");
    if data.Err? {
      return Err(data.error), events;
    }
    var code := Index(data.value, "subscription_code");
    if code.Err? {
      return Err(code.error), events;
    }
    var found := FindSubscription(db.subscriptions, code.value);
    if found.Some? {
      var k := found.value;
      var subscription := new Subscription(db.subscriptions[k]);
      if !Cancelled(subscription.attributes) || OnGracePeriod(subscription.attributes, now) {
        subscription.MarkAsCancelled(now);
        db.UpdateSubscription(k, subscription.attributes);
        events := [SubscriptionCancelled(subscription.attributes.owner, subscription.attributes, payload)];
      }
    }
    r := Ok(());
  }

  /**
   * `__invoke($request)`: route the payload; a handler's exception becomes the "skipped" text and
   * is not rethrown; every handled, skipped or unhandled event is answered with a 200. A TypeError
   * is an `Error`, which the `catch (Exception $e)` does not catch: it escapes and the framework
   * answers with a server error.
   */
  method Invoke(db: Database, payload: Fields, now: Time) returns (response: HttpResponse, events: seq<Event>)
    requires db.Valid()
    modifies db
    ensures db.Valid() && db.customers == old(db.customers)
    ensures RouteOf(payload) == NoEvent ==>
      response == Respond(NO_EVENT) && events == [] && db.subscriptions == old(db.subscriptions)
    ensures RouteOf(payload) == Crashes ==>
      response.ServerError? && events == [] && db.subscriptions == old(db.subscriptions)
    ensures RouteOf(payload) == Unhandled ==>
      response == Respond(NO_HANDLER) && events == [WebhookReceived(payload)] && db.subscriptions == old(db.subscriptions)
    ensures RouteOf(payload).Dispatch? ==>
      |events| >= 1 && events[0] == WebhookReceived(payload)
      && (response == Respond(HANDLED) || response == Respond(SKIPPED) || response.ServerError?)
      && (response == Respond(HANDLED) <==> events[|events| - 1] == WebhookHandled(payload))
    ensures RouteOf(payload) == Dispatch(SubscriptionCreate) ==>
      var spec := CreatedRow(old(db.customers), old(db.subscriptions), payload, now);
      && (response == Respond(HANDLED) <==> spec.Ok?)
      && (response == Respond(SKIPPED) <==> spec.Err? && !spec.error.TypeError?)
      && (response.ServerError? <==> spec.Err? && spec.error.TypeError?)
      && db.subscriptions == old(db.subscriptions) + (if spec.Ok? then CreatedRows(spec.value) else [])
      && events == [WebhookReceived(payload)]
                   + (if spec.Ok? && spec.value.Some? then [SubscriptionCreated(spec.value.value.owner, spec.value.value, payload)] else [])
                   + (if spec.Ok? then [WebhookHandled(payload)] else [])
    ensures RouteOf(payload) == Dispatch(SubscriptionDisable) ==>
      var spec := DisableTarget(old(db.subscriptions), payload, now);
      && (response == Respond(HANDLED) <==> spec.Ok?)
      && (response == Respond(SKIPPED) <==> spec.Err? && !spec.error.TypeError?)
      && (response.ServerError? <==> spec.Err? && spec.error.TypeError?)
      && db.subscriptions == (if spec.Ok? then AfterDisable(old(db.subscriptions), spec.value, now) else old(db.subscriptions))
      && events == [WebhookReceived(payload)]
                   + (if spec.Ok? && spec.value.Some?
                      then [SubscriptionCancelled(old(db.subscriptions)[spec.value.value].owner,
                                                  db.subscriptions[spec.value.value], payload)]
                      else [])
                   + (if spec.Ok? then [WebhookHandled(payload)] else [])
  {
    if "event" !in payload || payload["event"] == JNull {
      return Respond(NO_EVENT), [];
    }
    var name := EventText(payload["event"]);
    if name.Err? {
      return ServerError(name.error.message), [];
    }
    var handler := HandlerFor(MethodName(name.value));
    events := [WebhookReceived(payload)];
    if handler.None? {
      return Respond(NO_HANDLER), events;
    }
    var outcome, raised;
    if handler.value == SubscriptionCreate {
      outcome, raised := HandleSubscriptionCreate(db, payload, now);
    } else {
      outcome, raised := HandleSubscriptionDisable(db, payload, now);
    }
    if outcome.Err? && outcome.error.TypeError? {
      return ServerError(outcome.error.message), events + raised;
    }
    if outcome.Err? {
      return Respond(SKIPPED), events + raised;
    }
    events := events + raised + [WebhookHandled(payload)];
    response := Respond(HANDLED);
  }

  /** The constructor attaches the signature middleware exactly when the package's secret key is configured. */
  predicate MiddlewareAttached(config: map<string, string>) {
    TruthyString(Sig.Secret(config, Sig.CASHIER_SECRET_KEY))
  }

  /** `$request->json()->all()`: the decoded body when it is an object, else an empty payload. */
  function PayloadOf(env: Env, body: string): Fields {
    match env.decodeJson(body)
    case JObj(fields) => fields
    case _ => map[]
  }

  /**
   * A request through the route: the signature gate first when it is attached, then `__invoke`
   * on the decoded body. A request the gate refuses never reaches a handler; one it lets through
   * is routed and handled as `__invoke` does.
   */
  method Receive(db: Database, env: Env, config: map<string, string>, request: Sig.HttpRequest,
                 hmac: (string, string) -> string)
    returns (response: HttpResponse, events: seq<Event>)
    requires db.Valid()
    modifies db
    ensures db.Valid() && db.customers == old(db.customers)
    ensures MiddlewareAttached(config) && Sig.Handle(request, config, hmac).Abort? ==>
      response == Forbidden && events == [] && db.subscriptions == old(db.subscriptions)
    ensures response == Forbidden <==> MiddlewareAttached(config) && Sig.Handle(request, config, hmac).Abort?
    ensures !(MiddlewareAttached(config) && Sig.Handle(request, config, hmac).Abort?) ==>
      var payload := PayloadOf(env, request.body);
      && (RouteOf(payload) == NoEvent ==>
            response == Respond(NO_EVENT) && events == [] && db.subscriptions == old(db.subscriptions))
      && (RouteOf(payload) == Unhandled ==>
            response == Respond(NO_HANDLER) && events == [WebhookReceived(payload)]
            && db.subscriptions == old(db.subscriptions))
      && (RouteOf(payload) == Dispatch(SubscriptionCreate) ==>
            var spec := CreatedRow(old(db.customers), old(db.subscriptions), payload, env.now);
            && (response == Respond(HANDLED) <==> spec.Ok?)
            && (response.ServerError? <==> spec.Err? && spec.error.TypeError?)
            && db.subscriptions == old(db.subscriptions) + (if spec.Ok? then CreatedRows(spec.value) else []))
      && (RouteOf(payload) == Dispatch(SubscriptionDisable) ==>
            var spec := DisableTarget(old(db.subscriptions), payload, env.now);
            && (response == Respond(HANDLED) <==> spec.Ok?)
            && (response.ServerError? <==> spec.Err? && spec.error.TypeError?)
            && db.subscriptions == (if spec.Ok? then AfterDisable(old(db.subscriptions), spec.value, env.now)
                                    else old(db.subscriptions)))
  {
    if MiddlewareAttached(config) && Sig.Handle(request, config, hmac).Abort? {
      return Forbidden, [];
    }
    response, events := Invoke(db, PayloadOf(env, request.body), env.now);
  }

  lemma {:induction false} UnseparatedAppend(a: string, b: string)
    ensures Unseparated(a + b) == Unseparated(a) + Unseparated(b)
  {
    if a != [] {
      assert (a + b)[0] == a[0] && (a + b)[1..] == a[1..] + b;
      UnseparatedAppend(a[1..], b);
      var head: string := if Separator(a[0]) then [] else [a[0]];
      assert Unseparated(a + b) == head + Unseparated(a[1..] + b);
      assert Unseparated(a) == head + Unseparated(a[1..]);
      assert head + (Unseparated(a[1..]) + Unseparated(b)) == (head + Unseparated(a[1..])) + Unseparated(b);
    } else {
      assert a + b == b;
    }
  }

  lemma {:induction false} UnseparatedPlain(s: string)
    requires forall i :: 0 <= i < |s| ==> !Separator(s[i])
    ensures Unseparated(s) == s
  {
    if s != [] {
      UnseparatedPlain(s[1..]);
    }
  }

  lemma CreateEventUnderscored()
    ensures DotsToUnderscores("subscription.create") == "subscription" + "_" + "create"
  {
  }

  /** Two words joined by an underscore lose only the underscore. */
  lemma UnseparatedWords(a: string, b: string)
    requires forall i :: 0 <= i < |a| ==> 'a' <= a[i] <= 'z'
    requires forall i :: 0 <= i < |b| ==> 'a' <= b[i] <= 'z'
    ensures Unseparated(a + "_" + b) == a + b
  {
    var u: string := "_";
    assert Unseparated(u) == [];
    UnseparatedAppend(a + u, b);
    UnseparatedAppend(a, u);
    UnseparatedPlain(a);
    UnseparatedPlain(b);
    assert Unseparated(a + u) == a + [];
    assert a + [] == a;
    assert a + u + b == (a + u) + b;
  }

  lemma CreateEventUnseparated()
    ensures Unseparated("subscription" + "_" + "create") == CREATE
  {
    UnseparatedWords("subscription", "create");
  }

  lemma LowerOfLower(s: string)
    requires forall i :: 0 <= i < |s| ==> 'a' <= s[i] <= 'z'
    ensures Lower(s) == s
  {
  }

  lemma CreateIsLetters()
    ensures forall i :: 0 <= i < |CREATE| ==> 'a' <= CREATE[i] <= 'z'
  {
  }

  lemma CreateIsLower()
    ensures Lower(CREATE) == CREATE
  {
    CreateIsLetters();
    LowerOfLower(CREATE);
  }

  lemma CreateEventSpellsCreate()
    ensures Lower(Unseparated(DotsToUnderscores("subscription.create"))) == CREATE
  {
    CreateEventUnderscored();
    CreateEventUnseparated();
    CreateIsLower();
  }

  lemma FooEventSpellsNoHandler()
    ensures Lower(Unseparated(DotsToUnderscores("foo.bar")))[0] == 'f'
  {
    var f := DotsToUnderscores("foo.bar");
    assert f[0] == 'f';
    assert Unseparated(f)[0] == 'f';
  }

  /** A subscription.create delivery reaches the create handler. */
  lemma CreateEventRoutes(data: Json)
    ensures RouteOf(map["event" := JStr("subscription.create"), "data" := data]) == Dispatch(SubscriptionCreate)
  {
    var payload := map["event" := JStr("subscription.create"), "data" := data];
    CreateEventSpellsCreate();
    RouteOfStringEvent(payload, "subscription.create");
  }

  /** A foo.bar delivery finds no handler. */
  lemma FooEventUnrouted(data: Json)
    ensures RouteOf(map["event" := JStr("foo.bar"), "data" := data]) == Unhandled
  {
    var payload := map["event" := JStr("foo.bar"), "data" := data];
    var spelled := Lower(Unseparated(DotsToUnderscores("foo.bar")));
    FooEventSpellsNoHandler();
    assert CREATE[0] == 's' && DISABLE[0] == 's';
    assert spelled != CREATE && spelled != DISABLE;
    RouteOfStringEvent(payload, "foo.bar");
    assert payload["event"] == JStr("foo.bar");
  }

  /** A subscription.disable delivery reaches the disable handler. */
  lemma DisableEventRoutes(data: Json)
    ensures RouteOf(map["event" := JStr("subscription.disable"), "data" := data]) == Dispatch(SubscriptionDisable)
  {
    var payload := map["event" := JStr("subscription.disable"), "data" := data];
    DisableEventSpellsDisable();
    RouteOfStringEvent(payload, "subscription.disable");
  }

  lemma DisableEventSpellsDisable()
    ensures Lower(Unseparated(DotsToUnderscores("subscription.disable"))) == DISABLE
  {
    DisableEventUnderscored();
    DisableEventUnseparated();
    DisableIsLower();
  }

  lemma DisableEventUnseparated()
    ensures Unseparated("subscription" + "_" + "disable") == DISABLE
  {
    UnseparatedWords("subscription", "disable");
  }

  lemma DisableIsLower()
    ensures Lower(DISABLE) == DISABLE
  {
    DisableIsLetters();
    LowerOfLower(DISABLE);
  }

  lemma DisableEventUnderscored()
    ensures DotsToUnderscores("subscription.disable") == "subscription" + "_" + "disable"
  {
  }

  lemma DisableIsLetters()
    ensures forall i :: 0 <= i < |DISABLE| ==> 'a' <= DISABLE[i] <= 'z'
  {
  }

  /**
   * A disable delivery whose `data` is a string reaches the handler, whose `$payload['data']['subscription_code']`
   * throws a TypeError the handler's catch does not take, so the answer is a server error.
   */
  lemma StringDataEscapesDisable(rows: seq<Row>, now: Time)
    ensures var payload := map["event" := JStr("subscription.disable"), "data" := JStr("x")];
            && RouteOf(payload) == Dispatch(SubscriptionDisable)
            && DisableTarget(rows, payload, now).Err? && DisableTarget(rows, payload, now).error.TypeError?
  {
    DisableEventRoutes(JStr("x"));
  }

  /** The two deliveries in the controller's own tests: subscription.create has a handler, foo.bar has none. */
  lemma KnownEvents(data: Json)
    ensures RouteOf(map["event" := JStr("subscription.create"), "data" := data]) == Dispatch(SubscriptionCreate)
    ensures RouteOf(map["event" := JStr("foo.bar"), "data" := data]) == Unhandled
  {
    CreateEventRoutes(data);
    FooEventUnrouted(data);
  }
}
