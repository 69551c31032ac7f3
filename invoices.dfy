/**
 * src/Concerns/ManagesInvoices.php: one-off invoices (Paystack payment requests) and the lookup
 * and listing of a billable's invoices. `preferredCurrency()` arrives as the currency string.
 */
module ManagesInvoices {
  import opened Wrappers
  import opened Values
  import opened Gateway
  import opened Store
  import ManagesCustomer

  /** An Invoice wraps the billable and the invoice data Paystack returned. */
  datatype Invoice = Invoice(owner: Owner, data: Json)

  /** `class_basename($class)`: the class name after its last namespace separator. */
  function ClassBasename(name: string): (base: string)
    ensures |base| <= |name| && base == name[|name| - |base|..]
    ensures forall i :: 0 <= i < |base| ==> base[i] != '\\'
    ensures |base| < |name| ==> name[|name| - |base| - 1] == '\\'
  {
    if name == [] then []
    else if name[|name| - 1] == '\\' then []
    else ClassBasename(name[..|name| - 1]) + [name[|name| - 1]]
  }

  /** The message tab throws for a customer without a paystack_id. */
  function NotCustomerMessage(kind: string): string {
    ClassBasename(kind) + " is not a Paystack customer. See the createAsCustomer method."
  }

  const NO_DUE_DATE: string := "No due date provided."

  /**
   * The body tab sends: the caller's options over the defaults `customer`, `amount`, `currency`
   * and `description`, with `due_date` replaced by its reformatted value.
   */
  function InvoiceOptions(paystackId: Json, amount: Json, currency: string, description: Json,
                          options: Fields, due: string): (o: Fields)
    ensures o.Keys == options.Keys + {"customer", "amount", "currency", "description", "due_date"}
    ensures o["due_date"] == JStr(due)
    ensures o["customer"] == if "customer" in options then options["customer"] else paystackId
    ensures o["amount"] == if "amount" in options then options["amount"] else amount
    ensures o["currency"] == if "currency" in options then options["currency"] else JStr(currency)
    ensures o["description"] == if "description" in options then options["description"] else description
    ensures forall k :: k in options && k != "due_date" ==> o[k] == options[k]
  {
    var defaults := map["customer" := paystackId, "amount" := amount, "currency" := JStr(currency),
                        "description" := description];
    Merge(defaults, options)["due_date" := JStr(due)]
  }

  /**
   * `tab($description, $amount, $options)` (and `invoiceFor`, which calls it): reading the
   * customer's paystack_id fails without a customer; a falsy paystack_id and a missing `due_date`
   * key each throw; the due date is parsed and written back in ISO-8601; then one create request.
   */
  function Tab(env: Env, owner: Owner, customer: Option<Customer>, currency: string,
               description: Json, amount: Json, options: Fields): (r: Result<Reply>)
    ensures customer.None? ==> r.Err? && r.error.Warning?
    ensures customer.Some? && !Truthy(customer.value.paystackId) ==>
              r == Err(Exception(NotCustomerMessage(owner.kind)))
    ensures customer.Some? && Truthy(customer.value.paystackId) && "due_date" !in options ==>
              r == Err(Exception(NO_DUE_DATE))
    ensures r.Ok? ==>
      && customer.Some? && Truthy(customer.value.paystackId) && "due_date" in options
      && ParseDate(env, options["due_date"]).Ok?
      && var req := CreateInvoice(InvoiceOptions(customer.value.paystackId, amount, currency, description, options,
                                                 env.formatDate(ParseDate(env, options["due_date"]).value)));
         env.gateway(req) == Returned(r.value)
    ensures customer.Some? && Truthy(customer.value.paystackId) && "due_date" in options
            && ParseDate(env, options["due_date"]).Ok? ==>
      var req := CreateInvoice(InvoiceOptions(customer.value.paystackId, amount, currency, description, options,
                                              env.formatDate(ParseDate(env, options["due_date"]).value)));
      r == Call(env, req)
  {
    if customer.None? then Err(Warning("Attempt to read property \"paystack_id\" on null"))
    else if !Truthy(customer.value.paystackId) then Err(Exception(NotCustomerMessage(owner.kind)))
    else if "due_date" !in options then Err(Exception(NO_DUE_DATE))
    else
      var due :- ParseDate(env, options["due_date"]);
      Call(env, CreateInvoice(InvoiceOptions(customer.value.paystackId, amount, currency, description, options,
                                             env.formatDate(due))))
  }

  /** A tab never reaches the gateway without a due date, whatever else the options say. */
  lemma TabNeedsDueDate(env: Env, owner: Owner, customer: Option<Customer>, currency: string,
                        description: Json, amount: Json, options: Fields)
    requires "due_date" !in options
    ensures Tab(env, owner, customer, currency, description, amount, options).Err?
  {
  }

  /**
   * `findInvoice($id)` as written: the invoice when the lookup succeeds and the invoice's
   * `customer.id` equals the billable's own `paystack_id` attribute; null when they differ, and
   * null when the lookup raises or the data lacks the keys, since those exceptions are swallowed.
   * A string where the data or its `customer` should be is a TypeError, which is an `Error` and
   * not an `Exception`, so it escapes the catch.
   */
  function FindInvoiceAsWritten(env: Env, owner: Owner, ownPaystackId: Json, id: Json): (r: Result<Option<Invoice>>)
    ensures var reply := env.gateway(Request.FindInvoice(id));
      r.Err? <==> reply.Returned? && (reply.reply.data.JStr? || (Index(reply.reply.data, "customer").Ok?
                                                                 && Index(reply.reply.data, "customer").value.JStr?))
    ensures r.Err? ==> r.error.TypeError?
    ensures r.Ok? && r.value.Some? <==>
      && env.gateway(Request.FindInvoice(id)).Returned?
      && Path(env.gateway(Request.FindInvoice(id)).reply.data, ["customer"]).Some?
      && Index(env.gateway(Request.FindInvoice(id)).reply.data.fields["customer"], "id") == Ok(ownPaystackId)
    ensures r.Ok? && r.value.Some? ==> r.value.value == Invoice(owner, env.gateway(Request.FindInvoice(id)).reply.data)
  {
    match env.gateway(Request.FindInvoice(id))
    case Raised(_) => Ok(None)
    case Returned(reply) =>
      match Index(reply.data, "customer")
      case Err(e) => if e.TypeError? then Err(e) else Ok(None)
      case Ok(customer) =>
        match Index(customer, "id")
        case Err(e) => if e.TypeError? then Err(e) else Ok(None)
        case Ok(cid) => if cid != ownPaystackId then Ok(None) else Ok(Some(Invoice(owner, reply.data)))
  }

  /**
   * `findInvoice($id)` as intended: the invoice's `customer.id` is compared with the paystack_id
   * of the billable's customer record, the one tab and invoices send; without a customer the
   * property read fails inside the try and the answer is null.
   */
  function FindInvoice(env: Env, owner: Owner, customer: Option<Customer>, id: Json): (r: Result<Option<Invoice>>)
    ensures customer.None? ==> r == Ok(None)
    ensures customer.Some? ==> r == FindInvoiceAsWritten(env, owner, customer.value.paystackId, id)
    ensures r.Ok? && r.value.Some? ==>
      && customer.Some? && env.gateway(Request.FindInvoice(id)).Returned?
      && r.value.value == Invoice(owner, env.gateway(Request.FindInvoice(id)).reply.data)
      && (customer.value.paystackId != JNull ==>
            Path(env.gateway(Request.FindInvoice(id)).reply.data, ["customer", "id"]) == Some(customer.value.paystackId))
  {
    if customer.None? then Ok(None) else FindInvoiceAsWritten(env, owner, customer.value.paystackId, id)
  }

  /**
   * As written, a billable whose own model has no paystack_id attribute (it lives on the customer
   * record) never finds its own invoice: the invoice's customer id is compared with null.
   */
  lemma OwnInvoiceMissedAsWritten(env: Env, owner: Owner, c: Customer, id: Json, status: bool, message: string)
    requires c.paystackId != JNull
    requires env.gateway(Request.FindInvoice(id))
             == Returned(Reply(status, JObj(map["customer" := JObj(map["id" := c.paystackId])]), message))
    ensures FindInvoiceAsWritten(env, owner, JNull, id) == Ok(None)
    ensures FindInvoice(env, owner, Some(c), id).Ok? && FindInvoice(env, owner, Some(c), id).value.Some?
  {
    var data := JObj(map["customer" := JObj(map["id" := c.paystackId])]);
    assert Index(data, "customer") == Ok(JObj(map["id" := c.paystackId]));
    assert Index(JObj(map["id" := c.paystackId]), "id") == Ok(c.paystackId);
  }

  /**
   * `findInvoiceOrFail($id)`: the invoice, a 404 exactly when findInvoice returns null, and
   * findInvoice's escaping TypeError passed on.
   */
  function FindInvoiceOrFail(env: Env, owner: Owner, customer: Option<Customer>, id: Json): (r: Result<Invoice>)
    ensures r == Err(NotFound) <==> FindInvoice(env, owner, customer, id) == Ok(None)
    ensures FindInvoice(env, owner, customer, id).Err? ==> r == Err(FindInvoice(env, owner, customer, id).error)
    ensures r.Ok? <==> FindInvoice(env, owner, customer, id).Ok? && FindInvoice(env, owner, customer, id).value.Some?
    ensures r.Ok? ==> r.value == FindInvoice(env, owner, customer, id).value.value
  {
    match FindInvoice(env, owner, customer, id)
    case Err(e) => Err(e)
    case Ok(None) => Err(NotFound)
    case Ok(Some(invoice)) => Ok(invoice)
  }

  /** The query invoices sends: the caller's options over the default `customer`. */
  function InvoiceQuery(paystackId: Json, options: Fields): (q: Fields)
    ensures q.Keys == options.Keys + {"customer"}
    ensures q["customer"] == if "customer" in options then options["customer"] else paystackId
    ensures forall k :: k in options ==> q[k] == options[k]
  {
    Merge(map["customer" := paystackId], options)
  }

  /**
   * What invoices returns once its list request has been sent: the raised error, an Invoice per
   * item of a list in order, an Invoice per value of an object (in an order not fixed here), and
   * the `foreach` warning for any other data.
   */
  ghost predicate Listed(env: Env, owner: Owner, request: Request, r: Result<seq<Invoice>>) {
    && (env.gateway(request).Raised? ==> r == Err(env.gateway(request).error))
    && (env.gateway(request).Returned? ==>
      var data := env.gateway(request).reply.data;
      && (data.JList? ==> r.Ok? && |r.value| == |data.items|
                          && forall i :: 0 <= i < |data.items| ==> r.value[i] == Invoice(owner, data.items[i]))
      && (data.JObj? ==> r.Ok? && |r.value| == |data.fields|
                         && (forall i :: 0 <= i < |r.value| ==> r.value[i].owner == owner && r.value[i].data in data.fields.Values)
                         && (forall k :: k in data.fields ==> exists i :: 0 <= i < |r.value| && r.value[i].data == data.fields[k]))
      && (!data.JList? && !data.JObj? ==> r.Err? && r.error.Warning?))
  }

  /**
   * `invoices($options)`: asserts the customer exists, sends one list request and wraps every
   * entry of the returned data in an Invoice, in order. The guard before the loop tests
   * `is_null` of a boolean and so always holds; `foreach` over data that is neither a list nor
   * an object fails. An object's entries are visited in an order the model does not fix.
   */
  method Invoices(env: Env, owner: Owner, customer: Option<Customer>, options: Fields)
    returns (r: Result<seq<Invoice>>, calls: seq<Request>)
    ensures ManagesCustomer.AssertCustomerExists(customer).Err? ==> r == Err(InvalidCustomer) && calls == []
    ensures ManagesCustomer.AssertCustomerExists(customer).Ok? ==>
              calls == [FetchInvoices(InvoiceQuery(customer.value.paystackId, options))]
    ensures calls != [] ==> Listed(env, owner, calls[0], r)
  {
    var check := ManagesCustomer.AssertCustomerExists(customer);
    if check.Err? {
      return Err(check.error), [];
    }
    calls := [FetchInvoices(InvoiceQuery(customer.value.paystackId, options))];
    var response := Call(env, calls[0]);
    if response.Err? {
      return Err(response.error), calls;
    }
    var data := response.value.data;
    var invoices: seq<Invoice> := [];
    match data {
      case JList(items) =>
        for i := 0 to |items|
          invariant |invoices| == i
          invariant forall j :: 0 <= j < i ==> invoices[j] == Invoice(owner, items[j])
        {
          invoices := invoices + [Invoice(owner, items[i])];
        }
      case JObj(fields) =>
        var left := fields.Keys;
        ghost var at: map<string, nat> := map[];
        while left != {}
          invariant left <= fields.Keys
          invariant |invoices| + |left| == |fields.Keys|
          invariant forall i :: 0 <= i < |invoices| ==> invoices[i].owner == owner && invoices[i].data in fields.Values
          invariant forall k :: k in fields.Keys - left ==> k in at && at[k] < |invoices| && invoices[at[k]].data == fields[k]
          decreases |left|
        {
          var k :| k in left;
          at := at[k := |invoices|];
          invoices := invoices + [Invoice(owner, fields[k])];
          left := left - {k};
        }
        assert |fields| == |fields.Keys|;
        assert forall k :: k in fields ==> invoices[at[k]].data == fields[k];
      case _ =>
        return Err(Warning("foreach() argument must be of type array|object")), calls;
    }
    r := Ok(invoices);
  }

  /** `invoicesOnlyPending($parameters)`: invoices with `status` forced to "pending". */
  function PendingQuery(parameters: Fields): (p: Fields)
    ensures p.Keys == parameters.Keys + {"status"} && p["status"] == JStr("pending")
    ensures forall k :: k in parameters && k != "status" ==> p[k] == parameters[k]
  {
    parameters["status" := JStr("pending")]
  }

  /** `invoicesOnlyPaid($parameters)`: invoices with `paid` forced to true. */
  function PaidQuery(parameters: Fields): (p: Fields)
    ensures p.Keys == parameters.Keys + {"paid"} && p["paid"] == JBool(true)
    ensures forall k :: k in parameters && k != "paid" ==> p[k] == parameters[k]
  {
    parameters["paid" := JBool(true)]
  }

  /** `invoicesOnlyPending($parameters)`: invoices of the pending query, with the same result as invoices. */
  method InvoicesOnlyPending(env: Env, owner: Owner, customer: Option<Customer>, parameters: Fields)
    returns (r: Result<seq<Invoice>>, calls: seq<Request>)
    ensures ManagesCustomer.AssertCustomerExists(customer).Ok? ==>
              && calls == [FetchInvoices(InvoiceQuery(customer.value.paystackId, PendingQuery(parameters)))]
              && "status" in calls[0].payload && calls[0].payload["status"] == JStr("pending")
    ensures ManagesCustomer.AssertCustomerExists(customer).Err? ==> r == Err(InvalidCustomer) && calls == []
    ensures calls != [] ==> Listed(env, owner, calls[0], r)
  {
    r, calls := Invoices(env, owner, customer, PendingQuery(parameters));
  }

  /** `invoicesOnlyPaid($parameters)`: invoices of the paid query, with the same result as invoices. */
  method InvoicesOnlyPaid(env: Env, owner: Owner, customer: Option<Customer>, parameters: Fields)
    returns (r: Result<seq<Invoice>>, calls: seq<Request>)
    ensures ManagesCustomer.AssertCustomerExists(customer).Ok? ==>
              && calls == [FetchInvoices(InvoiceQuery(customer.value.paystackId, PaidQuery(parameters)))]
              && "paid" in calls[0].payload && calls[0].payload["paid"] == JBool(true)
    ensures ManagesCustomer.AssertCustomerExists(customer).Err? ==> r == Err(InvalidCustomer) && calls == []
    ensures calls != [] ==> Listed(env, owner, calls[0], r)
  {
    r, calls := Invoices(env, owner, customer, PaidQuery(parameters));
  }
}
