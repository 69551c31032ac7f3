/** src/Concerns/ManagesPayments.php: one-off charges and refunds. */
module ManagesPayments {
  import opened Wrappers
  import opened Values
  import opened Gateway
  import opened Store
  import CashierConfig

  /** `preferredCurrency()`: the configured currency code, upper-cased. */
  function PreferredCurrency(cashier: CashierConfig.Cashier): string
    reads cashier
  {
    cashier.UsesCurrency()
  }

  /**
   * The body of a charge: currency and reference are defaults the caller may override; the
   * billable's email and the amount always replace whatever the caller passed.
   */
  function ChargeOptions(currency: string, reference: string, email: Json, amount: int, options: Fields): (o: Fields)
    ensures o.Keys == options.Keys + {"currency", "reference", "email", "amount"}
    ensures o["email"] == email && o["amount"] == JInt(amount)
    ensures o["currency"] == if "currency" in options then options["currency"] else JStr(currency)
    ensures o["reference"] == if "reference" in options then options["reference"] else JStr(reference)
    ensures forall k :: k in options && k != "email" && k != "amount" ==> o[k] == options[k]
  {
    Merge(map["currency" := JStr(currency), "reference" := JStr(reference)], options)["email" := email]["amount" := JInt(amount)]
  }

  /** The endpoint a charge goes to: a stored authorization, then a card or bank, else a payment request. */
  function ChargeRequest(o: Fields): (r: Request)
    ensures (r.ChargeAuthorization? || r.Charge? || r.MakePaymentRequest?) && r.payload == o
    ensures r.ChargeAuthorization? <==> "authorization_code" in o
    ensures r.Charge? <==> "authorization_code" !in o && ("card" in o || "bank" in o)
  {
    if "authorization_code" in o then ChargeAuthorization(o)
    else if "card" in o || "bank" in o then Charge(o)
    else MakePaymentRequest(o)
  }

  /** The message charge throws when the gateway reports failure. */
  function ChargeFailure(message: string): string {
    "Paystack was unable to perform a charge: " + message
  }

  /**
   * `charge($amount, $options)`: exactly one gateway request; the whole reply when its status is
   * true, else an exception carrying the reply's message. `reference` is the value
   * ReferenceGenerator::generate() produced for this call.
   */
  function ChargeBillable(env: Env, currency: string, reference: string, billable: Billable, amount: int, options: Fields)
    : (r: Result<Reply>)
    ensures var req := ChargeRequest(ChargeOptions(currency, reference, billable.email, amount, options));
            && (r.Ok? <==> env.gateway(req).Returned? && env.gateway(req).reply.status)
            && (r.Ok? ==> r.value == env.gateway(req).reply)
            && (env.gateway(req).Raised? ==> r == Err(env.gateway(req).error))
            && (env.gateway(req).Returned? && !env.gateway(req).reply.status ==>
                  r == Err(Exception(ChargeFailure(env.gateway(req).reply.message))))
  {
    var req := ChargeRequest(ChargeOptions(currency, reference, billable.email, amount, options));
    var reply :- Call(env, req);
    if reply.status then Ok(reply) else Err(Exception(ChargeFailure(reply.message)))
  }

  /** The body of a refund: the caller's options with `transaction` set to the charge being refunded. */
  function RefundOptions(transaction: Json, options: Fields): (o: Fields)
    ensures o.Keys == options.Keys + {"transaction"} && o["transaction"] == transaction
    ensures forall k :: k in options && k != "transaction" ==> o[k] == options[k]
  {
    options["transaction" := transaction]
  }

  /** `refund($transaction, $options)`: one refund request; the reply is returned whatever its status. */
  function RefundCharge(env: Env, transaction: Json, options: Fields): (r: Result<Reply>)
    ensures var req := Refund(RefundOptions(transaction, options));
            && (r.Ok? <==> env.gateway(req).Returned?)
            && (r.Ok? ==> r.value == env.gateway(req).reply)
            && (r.Err? ==> r.error == env.gateway(req).error)
  {
    Call(env, Refund(RefundOptions(transaction, options)))
  }
}
