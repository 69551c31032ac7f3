/**
 * The Paystack REST gateway as an oracle, and the environment every operation runs in.
 * Each request names the endpoint that src/Paystack.php calls; the oracle answers with the
 * decoded body or raises the error that Paystack::api throws.
 */
module Gateway {
  import opened Wrappers
  import opened Values

  datatype Request =
    | FetchSubscription(code: Json)         // GET  /subscription/{code}
    | CreateSubscription(payload: Fields)   // POST /subscription
    | EnableSubscription(payload: Fields)   // POST /subscription/enable
    | DisableSubscription(payload: Fields)  // POST /subscription/disable
    | CreateCustomer(payload: Fields)       // POST /customer
    | FetchCustomer(code: Json)             // GET  /customer/{code}
    | Charge(payload: Fields)               // POST /charge
    | ChargeAuthorization(payload: Fields)  // POST /charge_authorization
    | MakePaymentRequest(payload: Fields)   // POST /transaction/initialize
    | Refund(payload: Fields)               // POST /refund
    | CreateInvoice(payload: Fields)        // POST /paymentrequest
    | FetchInvoices(payload: Fields)        // GET  /paymentrequest
    | FindInvoice(id: Json)                 // GET  /paymentrequest/{id}

  /** The decoded body of a successful HTTP exchange: `{status, data, message}`. */
  datatype Reply = Reply(status: bool, data: Json, message: string)

  /** What one gateway call yields: the reply, or the exception Paystack::api throws. */
  datatype Response = Returned(reply: Reply) | Raised(error: Error)

  /**
   * Everything outside the package an operation depends on: the clock, the gateway,
   * Carbon's parser and ISO-8601 formatter, json_decode (objects decoded as objects, invalid
   * text as null) and json_encode.
   */
  datatype Env = Env(
    now: Time,
    gateway: Request -> Response,
    parseDate: string -> Option<Time>,
    formatDate: Time -> string,
    decodeJson: string -> Json,
    encodeJson: Json -> string)

  /** One gateway call, with a failed call turned into the error it raises. */
  function Call(env: Env, req: Request): (r: Result<Reply>)
    ensures r.Ok? <==> env.gateway(req).Returned?
    ensures r.Ok? ==> r.value == env.gateway(req).reply
    ensures r.Err? ==> r.error == env.gateway(req).error
  {
    match env.gateway(req)
    case Returned(reply) => Ok(reply)
    case Raised(e) => Err(e)
  }

  /** Carbon's string parser on one text: the parsed instant, or the exception it throws. */
  function ParseText(env: Env, s: string): (r: Result<Time>)
    ensures r.Ok? <==> env.parseDate(s).Some?
    ensures r.Ok? ==> r.value == env.parseDate(s).value
  {
    match env.parseDate(s)
    case Some(t) => Ok(t)
    case None => Err(Exception("Could not parse '" + s + "'"))
  }

  /**
   * `Carbon::parse($j)`, as Carbon's constructor reads its argument: an integer is a Unix
   * timestamp; a value `empty()` holds for (null, false, "", "0", an empty array) means now;
   * true is the text "1"; any other string goes to the parser; a non-empty array is a TypeError.
   */
  function ParseDate(env: Env, j: Json): (r: Result<Time>)
    ensures j.JInt? ==> r == Ok(j.i)
    ensures !j.JInt? && !Truthy(j) ==> r == Ok(env.now)
    ensures j.JStr? && Truthy(j) ==> (r.Ok? <==> env.parseDate(j.s).Some?)
    ensures j.JStr? && Truthy(j) && r.Ok? ==> r.value == env.parseDate(j.s).value
    ensures j == JBool(true) ==> r == ParseText(env, "1")
    ensures (j.JObj? || j.JList?) && Truthy(j) ==> r.Err?
  {
    match j
    case JInt(t) => Ok(t)
    case JNull => Ok(env.now)
    case JBool(b) => if b then ParseText(env, "1") else Ok(env.now)
    case JStr(s) => if s == "" || s == "0" then Ok(env.now) else ParseText(env, s)
    case _ =>
      if !Truthy(j) then Ok(env.now)
      else Err(TypeError("DateTime::__construct(): Argument #1 ($datetime) must be of type string, array given"))
  }
}
