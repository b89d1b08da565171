# Checkout-session endpoint of the mpowerio.ai site

The site's only server logic is `php/checkout.php`, a script that turns a
storefront purchase request into a checkout session at the payment provider
(Stripe). For each request the script does the following, in order:

- It answers a CORS preflight (`OPTIONS`) with an empty 200.
- It refuses any method other than POST with 405.
- It requires `priceId` and `mode` in the JSON body (400 otherwise).
- It resolves a client alias such as `price_retainer` to a provider price id through a fixed table. An id that is not in the table is passed through unchanged.
- It refuses any id that does not start with `price_`, and the placeholder `price_REPLACE_WITH_REAL_ID` (400).
- It normalises the mode and fills in default redirect URLs.
- It builds the session-creation parameters and calls the provider.
- It maps the provider's reply to `{url, sessionId}`, or to an error with status 400 or 500.

The model is written as functions over values, with the script's steps as separate functions:

- `php.dfy`, module `Php`: the PHP behaviour the script depends on. This covers decoded JSON values, `isset` and offset reads, the truthiness of strings, and `strpos`.
- `checkout.dfy`, module `Checkout`: the configuration and the price-id resolution and gate. It also has the session request that is sent, `Handle` (everything before the provider call), `MapOutcome` (the reply), and `Run`. `Run` is the whole script, with the provider as a function parameter, and it records every provider call the script makes.
- `site_plans.dfy`, module `SitePlans`: the storefront's plan table and the body its checkout form posts (`js/main.js`). It is used as fixed input. Under the shipped table, every storefront purchase is refused before any provider call. Once an alias is configured, the request is forwarded with the plan's mode and the form's data.

The code has no idempotency keys, retries, redirect-origin allow-list or closed price registry, and it answers a connection failure (a curl error) with 500 and any non-200 provider reply with 400. The model follows the code: any `price_…` id that is not in the table is forwarded.

## Model

| member | source | states |
|---|---|---|
| `Php.Offset` | php/checkout.php:147-160 | reading `$v[$key]` yields the stored value, or null exactly when `isset($v[$key])` fails |
| `Php.Isset` | php/checkout.php:147-148 | definition: `isset($v[$key])` holds for a present key of a decoded object whose value is not null |
| `Php.Truthy` | php/checkout.php:137 | definition: a string is true as a condition unless it is "" or "0"; `!empty($s)` at line 108 is the same test |
| `Php.StrPosFrom` | php/checkout.php:84 | the search behind the `strpos(...) === 0` test: it returns the first offset (in characters) at or after the start where the needle occurs, and `false` only when there is none |
| `Php.StrPos` | php/checkout.php:84 | `strpos($h, $p) === 0` holds exactly when `$p` is a prefix of `$h`; `false` means no occurrence anywhere |
| `Checkout.BodyJson` | php/checkout.php:64-65 | definition: the decoded request body as a JSON value, null when it is not an object, otherwise an object with the same keys and values |
| `Checkout.Has` | php/checkout.php:68 | `isset($data[k])` on the request body is exactly `isset` on the body's JSON value |
| `Checkout.FieldOr` | php/checkout.php:92-93 | `isset($data[k]) ? $data[k] : default` is the value read from the body's JSON when `isset` holds on it, and the default otherwise |
| `Checkout.ResolvePriceId` | php/checkout.php:74-81 | an alias in the table is replaced by its mapped id; any other id is kept unchanged; the result is the input or a table value |
| `Checkout.IsUsablePriceId` | php/checkout.php:83-88 | an id passes the gate exactly when it starts with `price_` and is not the placeholder sentinel |
| `Checkout.NormaliseMode` | php/checkout.php:91 | the mode is `subscription` iff the client sent exactly `"subscription"`, otherwise `payment` |
| `Checkout.ModeName` | php/checkout.php:102 | the `mode` string sent for a mode; it normalises back to the same mode (`BuildSession` states the string sent through it) |
| `Checkout.BuildSession` | php/checkout.php:90-116 | exactly one line item (resolved price, quantity 1); `["card"]`; `mode` sent as "subscription" iff the client sent exactly that, else "payment"; success URL = client's or `domain/success.html`, then the session-id template; cancel URL = client's or `domain/checkout.html` unchanged; `customer_email` present iff set and non-empty in PHP's sense; metadata always has name and company, defaulting to "" |
| `Checkout.Handle` | php/checkout.php:24-116 | OPTIONS gives 200 with no body; other non-POST methods give 405; a missing `priceId`/`mode` or a non-object body gives 400; an unusable resolved id gives 400 `Invalid price configuration…`; the provider is called iff all checks pass, at the sessions endpoint with the bearer key and a usable, non-placeholder price |
| `Checkout.IsProviderError` | php/checkout.php:147 | a reply is an error by status alone when its body is not an object, and, with status 200, exactly when `error` is set |
| `Checkout.MapOutcome` | php/checkout.php:136-161 | a transport error gives 500; otherwise a non-200 status or an `error` field gives 400 with `error.message` if set, else `Payment processing error`; otherwise 200 with exactly the reply's `url` and `id` read as PHP reads them (null when absent); an error never carries session fields |
| `Checkout.Run` | php/checkout.php:24-161 | at most one provider call, made iff every check passes, and always with a usable price; the call sent is exactly the one the handler builds (bearer key, mode, URLs, email, metadata); without a call the response is the handler's own; with one it is the mapped reply; session data only ever comes with status 200 from a provider call |
| `Checkout.NonPostNeverReachesProvider` | php/checkout.php:24-35 | any non-POST request is answered (200 empty for OPTIONS, 405 otherwise) without a provider call |
| `Checkout.MissingFieldsNeverReachProvider` | php/checkout.php:63-72 | a POST whose body is not an object, or lacks `priceId` or `mode`, gets 400 `Missing required fields` and no provider call |
| `Checkout.UnconfiguredAliasIsRefused` | php/checkout.php:74-88 | when every table value fails the gate, a request naming any alias is refused with no provider call |
| `Checkout.ShippedRefusesEveryAlias` | php/checkout.php:53-88 | under the shipped table every alias is refused with the price-configuration error and no provider call |
| `Checkout.UnmappedPriceIdPassesThrough` | php/checkout.php:74-88 | an id outside the table that starts with `price_` and is not the placeholder reaches the provider unchanged |
| `SitePlans.ClientBody` | js/main.js:252-260 | the body the checkout form posts always sets `priceId` and `mode` (the plan's), both redirect URLs and the email |
| `SitePlans.EveryPlanIsAnAlias` | js/main.js:129-172 | every `priceId` in the storefront's plan table is a key of the endpoint's price table |
| `SitePlans.ShippedRefusesEverySitePlan` | js/main.js:247-260 | the body the checkout form posts for any plan is refused under the shipped configuration, before any provider call |
| `SitePlans.ConfiguredSitePlanIsForwarded` | php/checkout.php:74-116 | once a plan's alias maps to a usable id, the form's request produces one provider call with that price, the plan's mode, the plan's own `mode` string on the wire, the form's redirect pages, the email iff it is non-empty in PHP's sense (not "" or "0"), and the name and company as metadata |

## Left out

- HTTP and process I/O: `header()` (including the wildcard CORS headers, which are the same on every path), `http_response_code`, `echo` and `exit`. A response is a status and a payload.
- Reading `php://input` and `json_decode` of the request: the body is given already decoded. It is either a map of fields or None when it is not a JSON object.
- Request fields whose JSON value is neither a string nor null (numbers, booleans, arrays, objects). PHP would coerce these or raise a type error, and the storefront never sends them.
- `http_build_query` and the order of the form parameters: the session request is a record, and `customerEmail` is None when the parameter is absent.
- The curl call itself and `json_decode` of its reply. `Run` takes them as a function parameter from the call to `(curl error string, HTTP status, decoded body)`.
- Offsets on a provider reply that decodes to a bare JSON string: PHP's string-offset rules are not modelled, and such a reply reads as having no fields. JSON floats are not modelled either: numbers are integers.
- Strings are sequences of characters: `strpos` offsets count characters, not bytes as in PHP. The two agree on the only use here, the offset-0 test with the ASCII needle `price_`.
- The secret key is opaque configuration: it only appears in the `Authorization` value, and nothing is proved about its content.
- The storefront's DOM, network and animation code in `js/main.js` and `js/site.js`. Only the plan table and the posted body are used, as input.
