/** src/Concerns/ManagesCustomer.php: creating the remote customer and checking that one exists. */
module ManagesCustomer {
  import opened Wrappers
  import opened Values
  import opened Gateway
  import opened Store

  /** `paystackEmail()`: the billable's email attribute, null when it has none. */
  function PaystackEmail(billable: Billable): Json {
    billable.email
  }

  /** The body of the create-customer request: the caller's options, plus `email` only when they lack one. */
  function CustomerRequestBody(billable: Billable, options: Fields): (body: Fields)
    ensures "email" in body
    ensures "email" in options ==> body == options
    ensures "email" !in options ==> body == options[ "email" := PaystackEmail(billable)]
  {
    if "email" in options then options else Merge(options, map["email" := PaystackEmail(billable)])
  }

  /** The customer row built from a successful reply: paystack_id and paystack_code from `data`. */
  function NewCustomer(billable: Billable, data: Json): (c: Result<Customer>)
    ensures c.Ok? <==> data.JObj? && "id" in data.fields && "customer_code" in data.fields
    ensures c.Ok? ==> c.value == Customer(billable.owner, data.fields["id"], data.fields["customer_code"], None)
  {
    var id :- Index(data, "id");
    var code :- Index(data, "customer_code");
    Ok(Customer(billable.owner, id, code, None))
  }

  /** The message createAsCustomer throws when the gateway reports failure. */
  function CreateFailure(message: string): string {
    "Unable to create Paystack customer: " + message
  }

  /**
   * `createAsCustomer($options)`: one create-customer request; on a false status it throws and
   * writes nothing; otherwise it inserts exactly one customer row and returns the reply's data.
   */
  method CreateAsCustomer(db: Database, env: Env, billable: Billable, options: Fields)
    returns (data: Result<Json>, calls: seq<Request>)
    requires db.Valid()
    modifies db
    ensures db.Valid() && db.subscriptions == old(db.subscriptions)
    ensures calls == [CreateCustomer(CustomerRequestBody(billable, options))]
    ensures data.Ok? ==> env.gateway(calls[0]).Returned? && env.gateway(calls[0]).reply.status
    ensures data.Ok? ==> data.value == env.gateway(calls[0]).reply.data
    ensures data.Ok? ==> NewCustomer(billable, data.value).Ok? && CustomerOf(old(db.customers), billable.owner).None?
                         && db.customers == old(db.customers) + [NewCustomer(billable, data.value).value]
    ensures data.Err? ==> db.customers == old(db.customers)
    ensures data.Ok? <==>
      env.gateway(calls[0]).Returned? && env.gateway(calls[0]).reply.status
      && NewCustomer(billable, env.gateway(calls[0]).reply.data).Ok?
      && CustomerOf(old(db.customers), billable.owner).None?
    ensures env.gateway(calls[0]).Returned? && !env.gateway(calls[0]).reply.status ==>
      data == Err(Exception(CreateFailure(env.gateway(calls[0]).reply.message)))
  {
    var request := CreateCustomer(CustomerRequestBody(billable, options));
    calls := [request];
    var reply := Call(env, request);
    if reply.Err? {
      return Err(reply.error), calls;
    }
    if !reply.value.status {
      return Err(Exception(CreateFailure(reply.value.message))), calls;
    }
    var customer := NewCustomer(billable, reply.value.data);
    if customer.Err? {
      return Err(customer.error), calls;
    }
    var inserted := db.InsertCustomer(customer.value);
    if inserted.Err? {
      return Err(inserted.error), calls;
    }
    data := Ok(reply.value.data);
  }

  /** `assertCustomerExists()`: throws exactly when there is no customer or its paystack_id is null. */
  function AssertCustomerExists(customer: Option<Customer>): (r: Result<()>)
    ensures r.Err? <==> customer.None? || customer.value.paystackId == JNull
    ensures r.Err? ==> r.error == InvalidCustomer
  {
    if customer.None? || customer.value.paystackId == JNull then Err(InvalidCustomer) else Ok(())
  }
}
