/** The checkout-session endpoint. One POST request is validated, the client's
    price alias is resolved to a payment-provider price id, the provider's
    session-creation request is built, and the provider's reply is mapped to
    the response the storefront receives. */
module Checkout {
  import opened Php

  // ---------------------------------------------------------------------------
  // Configuration

  /** The values fixed at the top of the script: the provider secret key
      (opaque), the site's own domain, and the alias-to-price-id table. */
  datatype Config = Config(secretKey: string, domain: string, priceMapping: map<string, string>)

  /** The sentinel that a not-yet-configured alias maps to. */
  const PlaceholderPriceId: string := "price_REPLACE_WITH_REAL_ID"
  /** Every provider price id starts with this. */
  const PricePrefix: string := "price_"
  const SessionsEndpoint: string := "https://api.stripe.com/v1/checkout/sessions"
  /** Appended to the success URL; the provider substitutes the session id. */
  const SessionIdTemplate: string := "?session_id={CHECKOUT_SESSION_ID}"

  /** The configuration as the script ships: a placeholder key, the production
      domain, and all three aliases mapped to the placeholder. */
  const Shipped: Config := Config(
    "sk_test_YOUR_SECRET_KEY_HERE",
    "https://mpowerio.ai",
    map["price_retainer" := PlaceholderPriceId,
        "price_starter" := PlaceholderPriceId,
        "price_workshop" := PlaceholderPriceId])

  // ---------------------------------------------------------------------------
  // Requests and responses

  /** A value of the decoded request body: a string, or JSON null. */
  datatype Field = Null | Str(s: string)

  /** The decoded request body: the fields of a JSON object, or None when the
      body is not a JSON object (malformed JSON, a scalar, a list). */
  type RequestBody = Option<map<string, Field>>

  /** The request body as the JSON value `json_decode` yields: the fields of
      an object, or null for anything that is not an object. */
  function BodyJson(body: RequestBody): (j: Json)
    ensures body.None? ==> j == JNull
    ensures body.Some? ==> j.JObject? && j.fields.Keys == body.value.Keys
    ensures body.Some? ==> forall k | k in body.value ::
      j.fields[k] == match body.value[k] case Null => JNull case Str(s) => JStr(s)
  {
    match body
    case None => JNull
    case Some(fields) =>
      JObject(map k | k in fields :: match fields[k] case Null => JNull case Str(s) => JStr(s))
  }

  /** `isset($data[$key])` on the decoded request body: it is the same test
      as `isset` on the body's JSON value. */
  predicate Has(body: RequestBody, key: string)
    ensures Has(body, key) <==> Isset(BodyJson(body), key)
  {
    body.Some? && key in body.value && body.value[key].Str?
  }

  /** `isset($data[$key]) ? $data[$key] : $default`. */
  function FieldOr(body: RequestBody, key: string, default: string): (r: string)
    ensures r == if Isset(BodyJson(body), key) then Offset(BodyJson(body), key).s else default
  {
    if Has(body, key) then body.value[key].s else default
  }

  /** What the client gets back: an HTTP status and a JSON payload. */
  datatype Payload = NoPayload | ErrorPayload(error: Json) | SessionPayload(url: Json, sessionId: Json)
  datatype Response = Response(status: int, payload: Payload)

  const Preflight: Response := Response(200, NoPayload)
  const MethodNotAllowed: Response := Response(405, ErrorPayload(JStr("Method not allowed")))
  const MissingFields: Response := Response(400, ErrorPayload(JStr("Missing required fields")))
  const InvalidPriceConfiguration: Response :=
    Response(400, ErrorPayload(JStr("Invalid price configuration. Please configure your Stripe Price IDs.")))
  const ConnectionFailed: Response := Response(500, ErrorPayload(JStr("Failed to connect to payment processor")))
  const GenericProviderError: string := "Payment processing error"

  // ---------------------------------------------------------------------------
  // Price-id resolution

  /** An alias from the table is replaced by its mapped value; anything else
      is forwarded unchanged (taken to be a provider price id already). */
  function ResolvePriceId(priceId: string, mapping: map<string, string>): (resolved: string)
    ensures priceId in mapping ==> resolved == mapping[priceId]
    ensures priceId !in mapping ==> resolved == priceId
    ensures resolved == priceId || resolved in mapping.Values
  {
    if priceId in mapping then mapping[priceId] else priceId
  }

  /** The gate in front of the provider: the id must start with `price_` and
      must not be the placeholder. */
  function IsUsablePriceId(id: string): (ok: bool)
    ensures ok <==> |PricePrefix| <= |id| && id[..|PricePrefix|] == PricePrefix && id != PlaceholderPriceId
  {
    StrPos(id, PricePrefix) == Some(0) && id != PlaceholderPriceId
  }

  // ---------------------------------------------------------------------------
  // The session-creation request

  datatype Mode = Subscription | Payment

  /** Anything but exactly "subscription" becomes a one-time payment. */
  function NormaliseMode(mode: string): (m: Mode)
    ensures m == Subscription <==> mode == "subscription"
  {
    if mode == "subscription" then Subscription else Payment
  }

  /** The provider's name for a mode; normalising it gives the mode back. */
  function ModeName(m: Mode): (name: string)
    ensures NormaliseMode(name) == m
  {
    match m
    case Subscription => "subscription"
    case Payment => "payment"
  }

  datatype LineItem = LineItem(price: string, quantity: int)
  datatype Metadata = Metadata(customerName: string, company: string)

  /** The parameters of the provider call. `customerEmail` is None when the
      parameter is not sent at all. */
  datatype SessionRequest = SessionRequest(
    paymentMethodTypes: seq<string>,
    lineItems: seq<LineItem>,
    mode: Mode,
    successUrl: string,
    cancelUrl: string,
    customerEmail: Option<string>,
    metadata: Metadata)

  /** The session request for an already accepted provider price id: the fixed
      part first, then the customer email when one was sent and is not empty,
      then the metadata. */
  function BuildSession(priceId: string, fields: map<string, Field>, domain: string): (s: SessionRequest)
    requires "mode" in fields && fields["mode"].Str?
    ensures s.paymentMethodTypes == ["card"]
    ensures s.lineItems == [LineItem(priceId, 1)]
    ensures s.mode == Subscription <==> fields["mode"] == Str("subscription")
    // the `mode` parameter on the wire is the client's value when it is one
    // the provider knows, and "payment" otherwise
    ensures ModeName(s.mode) == if fields["mode"].s == "subscription" then "subscription" else "payment"
    // the success URL is the client's (or the default) followed by the template
    ensures |SessionIdTemplate| <= |s.successUrl|
    ensures s.successUrl[|s.successUrl| - |SessionIdTemplate|..] == SessionIdTemplate
    ensures s.successUrl[..|s.successUrl| - |SessionIdTemplate|] == FieldOr(Some(fields), "successUrl", domain + "/success.html")
    // the cancel URL is passed on as it is
    ensures Has(Some(fields), "cancelUrl") ==> s.cancelUrl == fields["cancelUrl"].s
    ensures !Has(Some(fields), "cancelUrl") ==> s.cancelUrl == domain + "/checkout.html"
    ensures s.customerEmail.Some? <==> Has(Some(fields), "customerEmail") && Truthy(fields["customerEmail"].s)
    ensures s.customerEmail.Some? ==> s.customerEmail.value == fields["customerEmail"].s
    ensures s.metadata.customerName == FieldOr(Some(fields), "customerName", "")
    ensures s.metadata.company == FieldOr(Some(fields), "company", "")
  {
    var body := Some(fields);
    var mode := NormaliseMode(fields["mode"].s);
    var successUrl := FieldOr(body, "successUrl", domain + "/success.html");
    var cancelUrl := FieldOr(body, "cancelUrl", domain + "/checkout.html");
    var base := SessionRequest(["card"], [LineItem(priceId, 1)], mode,
                               successUrl + SessionIdTemplate, cancelUrl, None, Metadata("", ""));
    var withEmail :=
      if Has(body, "customerEmail") && Truthy(fields["customerEmail"].s)
      then base.(customerEmail := Some(fields["customerEmail"].s))
      else base;
    withEmail.(metadata := Metadata(FieldOr(body, "customerName", ""), FieldOr(body, "company", "")))
  }

  // ---------------------------------------------------------------------------
  // The handler up to the provider call

  /** The authenticated call the script makes with curl. */
  datatype ProviderCall = ProviderCall(endpoint: string, authorization: string, session: SessionRequest)

  /** Either the script answers on its own, or it calls the provider. */
  datatype Decision = Respond(response: Response) | Forward(call: ProviderCall)

  /** The request is a POST carrying both required fields, and its price id
      resolves to one the gate accepts. */
  predicate ReachesProvider(verb: string, body: RequestBody, cfg: Config) {
    && verb == "POST"
    && Has(body, "priceId") && Has(body, "mode")
    && IsUsablePriceId(ResolvePriceId(body.value["priceId"].s, cfg.priceMapping))
  }

  /** Everything the script does before the provider call. */
  function Handle(verb: string, body: RequestBody, cfg: Config): (d: Decision)
    // the method gate
    ensures verb == "OPTIONS" ==> d == Respond(Preflight)
    ensures verb != "OPTIONS" && verb != "POST" ==> d == Respond(MethodNotAllowed)
    // the required fields
    ensures verb == "POST" && !(Has(body, "priceId") && Has(body, "mode")) ==> d == Respond(MissingFields)
    // the price gate
    ensures verb == "POST" && Has(body, "priceId") && Has(body, "mode") && !ReachesProvider(verb, body, cfg)
      ==> d == Respond(InvalidPriceConfiguration)
    // the provider is called exactly when every check passes
    ensures d.Forward? <==> ReachesProvider(verb, body, cfg)
    ensures d.Forward? ==> d.call.endpoint == SessionsEndpoint && d.call.authorization == "Bearer " + cfg.secretKey
    ensures d.Forward? ==>
      d.call.session == BuildSession(ResolvePriceId(body.value["priceId"].s, cfg.priceMapping), body.value, cfg.domain)
    // the only price ever sent is a usable one
    ensures d.Forward? ==> |d.call.session.lineItems| == 1 && IsUsablePriceId(d.call.session.lineItems[0].price)
    ensures d.Forward? ==> d.call.session.lineItems[0].price != PlaceholderPriceId
  {
    if verb == "OPTIONS" then Respond(Preflight)
    else if verb != "POST" then Respond(MethodNotAllowed)
    else if !Has(body, "priceId") || !Has(body, "mode") then Respond(MissingFields)
    else
      var stripePriceId := ResolvePriceId(body.value["priceId"].s, cfg.priceMapping);
      if !IsUsablePriceId(stripePriceId) then Respond(InvalidPriceConfiguration)
      else Forward(ProviderCall(SessionsEndpoint, "Bearer " + cfg.secretKey,
                                BuildSession(stripePriceId, body.value, cfg.domain)))
  }

  // ---------------------------------------------------------------------------
  // The provider's reply

  /** What the script learns from the call: curl's error string ("" when there
      was none), the HTTP status, and the decoded reply body. */
  datatype ProviderReply = ProviderReply(curlError: string, httpCode: int, body: Json)

  /** The provider reply is an error: a non-200 status or an `error` field. */
  predicate IsProviderError(reply: ProviderReply)
    ensures !reply.body.JObject? ==> (IsProviderError(reply) <==> reply.httpCode != 200)
    ensures reply.httpCode == 200 ==> (IsProviderError(reply) <==> Isset(reply.body, "error"))
  {
    reply.httpCode != 200 || Isset(reply.body, "error")
  }

  /** The client's response to a provider reply. */
  function MapOutcome(reply: ProviderReply): (r: Response)
    ensures Truthy(reply.curlError) ==> r == ConnectionFailed
    ensures !Truthy(reply.curlError) && IsProviderError(reply) ==> r.status == 400 && r.payload.ErrorPayload?
    ensures !Truthy(reply.curlError) && IsProviderError(reply) && Isset(Offset(reply.body, "error"), "message")
      ==> r.payload.error == reply.body.fields["error"].fields["message"]
    ensures !Truthy(reply.curlError) && IsProviderError(reply) && !Isset(Offset(reply.body, "error"), "message")
      ==> r.payload.error == JStr(GenericProviderError)
    ensures r.payload.SessionPayload? <==> !Truthy(reply.curlError) && !IsProviderError(reply)
    ensures r.payload.SessionPayload? ==> r.status == 200
    ensures r.payload.SessionPayload? ==> r.payload == SessionPayload(Offset(reply.body, "url"), Offset(reply.body, "id"))
    // an error never carries session fields
    ensures r.payload.ErrorPayload? <==> r.status != 200
    ensures r.payload != NoPayload
  {
    if Truthy(reply.curlError) then ConnectionFailed
    else if IsProviderError(reply) then
      var error := Offset(reply.body, "error");
      var message := if Isset(error, "message") then Offset(error, "message") else JStr(GenericProviderError);
      Response(400, ErrorPayload(message))
    else Response(200, SessionPayload(Offset(reply.body, "url"), Offset(reply.body, "id")))
  }

  // ---------------------------------------------------------------------------
  // The whole script

  /** A run of the script: the response, and the provider calls it made. */
  datatype Exchange = Exchange(response: Response, sent: seq<ProviderCall>)

  /** One request from start to finish; `provider` stands for the curl call
      together with the decoding of its reply. */
  function Run(verb: string, body: RequestBody, cfg: Config, provider: ProviderCall -> ProviderReply): (x: Exchange)
    ensures |x.sent| <= 1
    ensures |x.sent| == 1 <==> ReachesProvider(verb, body, cfg)
    ensures forall c | c in x.sent :: c.endpoint == SessionsEndpoint && c.session.paymentMethodTypes == ["card"]
    ensures forall c | c in x.sent :: |c.session.lineItems| == 1 && IsUsablePriceId(c.session.lineItems[0].price)
    ensures x.sent != [] ==> Handle(verb, body, cfg) == Forward(x.sent[0])
    ensures x.sent == [] ==> x.response == Handle(verb, body, cfg).response
    ensures x.sent != [] ==> x.response == MapOutcome(provider(x.sent[0]))
    // session data only ever comes from a provider call, and only with 200
    ensures x.response.payload.SessionPayload? ==> |x.sent| == 1 && x.response.status == 200
    ensures x.response.payload.ErrorPayload? <==> x.response.status != 200
  {
    match Handle(verb, body, cfg)
    case Respond(response) => Exchange(response, [])
    case Forward(call) => Exchange(MapOutcome(provider(call)), [call])
  }

  /** Preflight and every method other than POST are answered without the
      provider, whatever the body and configuration. */
  lemma NonPostNeverReachesProvider(verb: string, body: RequestBody, cfg: Config,
                                                        provider: ProviderCall -> ProviderReply)
    requires verb != "POST"
    ensures Run(verb, body, cfg, provider).sent == []
    ensures Run(verb, body, cfg, provider).response == if verb == "OPTIONS" then Preflight else MethodNotAllowed
  {
  }

  /** A POST lacking `priceId` or `mode`, or whose body is not an object, gets
      400 without a provider call. */
  lemma MissingFieldsNeverReachProvider(body: RequestBody, cfg: Config,
                                                            provider: ProviderCall -> ProviderReply)
    requires body.None? || !Has(body, "priceId") || !Has(body, "mode")
    ensures Run("POST", body, cfg, provider) == Exchange(MissingFields, [])
  {
  }

  /** When every alias in the table maps to an unusable id, a request naming
      an alias is refused before any provider call, whatever the rest of it. */
  lemma UnconfiguredAliasIsRefused(alias: string, body: RequestBody, cfg: Config,
                                                       provider: ProviderCall -> ProviderReply)
    requires forall a | a in cfg.priceMapping :: !IsUsablePriceId(cfg.priceMapping[a])
    requires Has(body, "mode") && Has(body, "priceId") && body.value["priceId"].s == alias && alias in cfg.priceMapping
    ensures Run("POST", body, cfg, provider) == Exchange(InvalidPriceConfiguration, [])
  {
  }

  /** The shipped table maps every alias to the placeholder, so it refuses every alias. */
  lemma ShippedRefusesEveryAlias(alias: string, body: RequestBody,
                                                     provider: ProviderCall -> ProviderReply)
    requires Has(body, "mode") && Has(body, "priceId") && body.value["priceId"].s == alias && alias in Shipped.priceMapping
    ensures Run("POST", body, Shipped, provider) == Exchange(InvalidPriceConfiguration, [])
  {
  }

  /** An id that is not an alias reaches the provider unchanged, provided it
      passes the gate: the table is not a closed list. */
  lemma UnmappedPriceIdPassesThrough(priceId: string, body: RequestBody, cfg: Config,
                                                         provider: ProviderCall -> ProviderReply)
    requires Has(body, "mode") && Has(body, "priceId") && body.value["priceId"].s == priceId && priceId !in cfg.priceMapping
    requires |PricePrefix| <= |priceId| && priceId[..|PricePrefix|] == PricePrefix && priceId != PlaceholderPriceId
    ensures Run("POST", body, cfg, provider).sent != []
    ensures Run("POST", body, cfg, provider).sent[0].session.lineItems == [LineItem(priceId, 1)]
  {
  }
}
