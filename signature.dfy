/**
 * src/Http/Middleware/VerifyWebhookSignature.php: the gate in front of the webhook controller.
 * HMAC-SHA256 is an uninterpreted function `hmac(payload, key)`; configuration values are strings.
 */
module VerifyWebhookSignature {
  import opened Wrappers
  import opened Values

  /** The header name the middleware asks for. */
  const ASKED_HEADER: string := "HTTP_X_PAYSTACK_SIGNATURE"
  /** The header Paystack sends its signature in. */
  const PAYSTACK_HEADER: string := "x-paystack-signature"

  /** The configuration key the middleware reads its secret from, and the one the package's config defines. */
  const MIDDLEWARE_SECRET_KEY: string := "paystack.secretKey"
  const CASHIER_SECRET_KEY: string := "cashier-paystack.secret_key"

  /** Header names as Symfony's header bag stores and looks them up: `_` becomes `-`, ASCII letters lower case. */
  function HeaderKey(name: string): (k: string)
    ensures |k| == |name|
    ensures forall i :: 0 <= i < |name| ==> k[i] == (if name[i] == '_' then '-' else LowerChar(name[i]))
  {
    seq(|name|, i requires 0 <= i < |name| => if name[i] == '_' then '-' else LowerChar(name[i]))
  }

  /** A request's headers, under their stored names, each with its list of values; and its raw body. */
  datatype HttpRequest = HttpRequest(headers: map<string, seq<string>>, body: string)

  /** `$request->headers->has($name)`. */
  predicate HasHeader(request: HttpRequest, name: string) {
    HeaderKey(name) in request.headers
  }

  /** `$request->header($name)`: the first value, or null. */
  function Header(request: HttpRequest, name: string): (v: Option<string>)
    ensures v.Some? ==> HasHeader(request, name)
  {
    var k := HeaderKey(name);
    if k in request.headers && |request.headers[k]| > 0 then Some(request.headers[k][0]) else None
  }

  /** `$config->get($key)` passed where a string is expected: a missing key reads as the empty string. */
  function Secret(config: map<string, string>, key: string): string {
    if key in config then config[key] else ""
  }

  /** What the middleware does with a request: abort with a status code, or hand it to `$next`. */
  datatype Gate = Abort(status: int) | Next

  /**
   * `handle($request, $next)` as written: 403 without the asked header, 403 when the header equals
   * the HMAC of the body under `paystack.secretKey`, and on to `$next` otherwise.
   */
  function HandleAsWritten(request: HttpRequest, config: map<string, string>, hmac: (string, string) -> string)
    : (g: Gate)
    ensures g == Next <==> HasHeader(request, ASKED_HEADER)
                           && Header(request, ASKED_HEADER) != Some(hmac(request.body, Secret(config, MIDDLEWARE_SECRET_KEY)))
    ensures g.Abort? ==> g.status == 403
  {
    if !HasHeader(request, ASKED_HEADER) then Abort(403)
    else if Header(request, ASKED_HEADER) == Some(hmac(request.body, Secret(config, MIDDLEWARE_SECRET_KEY))) then Abort(403)
    else Next
  }

  /**
   * The asked name is stored as "http-x-paystack-signature", so it never finds the header that
   * Paystack sends (stored as "x-paystack-signature").
   */
  lemma AskedHeaderIsNotPaystacks()
    ensures HeaderKey(ASKED_HEADER)[0] == 'h' && HeaderKey(ASKED_HEADER)[4] == '-'
    ensures HeaderKey(ASKED_HEADER) != HeaderKey(PAYSTACK_HEADER)
  {
    var asked := HeaderKey(ASKED_HEADER);
    var paystack := HeaderKey(PAYSTACK_HEADER);
    assert ASKED_HEADER[0] == 'H' && ASKED_HEADER[4] == '_';
    assert asked[0] == LowerChar('H') == 'h';
    assert PAYSTACK_HEADER[0] == 'x';
    assert paystack[0] == 'x';
  }

  /** As written, a request signed the way Paystack signs it, in Paystack's header, is refused. */
  lemma PaystackRequestRefusedAsWritten(body: string, config: map<string, string>, hmac: (string, string) -> string)
    ensures var signed := HttpRequest(map[HeaderKey(PAYSTACK_HEADER) := [hmac(body, Secret(config, CASHIER_SECRET_KEY))]], body);
            HandleAsWritten(signed, config, hmac) == Abort(403)
  {
    AskedHeaderIsNotPaystacks();
  }

  /**
   * As written, the equality test is inverted: under the asked name a correct signature is
   * refused and any other value, a forgery, goes through.
   */
  lemma ComparisonInvertedAsWritten(body: string, config: map<string, string>, hmac: (string, string) -> string)
    ensures var key := HeaderKey(ASKED_HEADER);
            var good := hmac(body, Secret(config, MIDDLEWARE_SECRET_KEY));
            && HandleAsWritten(HttpRequest(map[key := [good]], body), config, hmac) == Abort(403)
            && HandleAsWritten(HttpRequest(map[key := [good + "x"]], body), config, hmac) == Next
  {
    var good := hmac(body, Secret(config, MIDDLEWARE_SECRET_KEY));
    assert |good + "x"| != |good|;
  }

  /**
   * The gate as intended: the signature is read from Paystack's header, and the request goes on
   * exactly when it equals the HMAC of the body under the package's configured secret key.
   */
  function Handle(request: HttpRequest, config: map<string, string>, hmac: (string, string) -> string): (g: Gate)
    ensures g == Next <==> Header(request, PAYSTACK_HEADER) == Some(hmac(request.body, Secret(config, CASHIER_SECRET_KEY)))
    ensures g.Abort? ==> g.status == 403
    ensures !HasHeader(request, PAYSTACK_HEADER) ==> g == Abort(403)
  {
    if !HasHeader(request, PAYSTACK_HEADER) then Abort(403)
    else if Header(request, PAYSTACK_HEADER) == Some(hmac(request.body, Secret(config, CASHIER_SECRET_KEY))) then Next
    else Abort(403)
  }

  /**
   * The intended gate passes a request signed with the configured secret, and refuses one signed
   * with any other key whose HMAC differs, or carrying no signature at all.
   */
  lemma HandleAcceptsOnlySigned(body: string, config: map<string, string>, other: string, hmac: (string, string) -> string)
    requires hmac(body, other) != hmac(body, Secret(config, CASHIER_SECRET_KEY))
    ensures Handle(HttpRequest(map[HeaderKey(PAYSTACK_HEADER) := [hmac(body, Secret(config, CASHIER_SECRET_KEY))]], body), config, hmac) == Next
    ensures Handle(HttpRequest(map[HeaderKey(PAYSTACK_HEADER) := [hmac(body, other)]], body), config, hmac) == Abort(403)
    ensures Handle(HttpRequest(map[], body), config, hmac) == Abort(403)
  {
    AskedHeaderIsNotPaystacks();
  }
}
