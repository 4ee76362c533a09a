# Zarinpal gateway client — Dafny model

This project models the decision logic of the `Zarinpal` payment-gateway client
(`src/Zarinpal.php`): how a client configured with a merchant id, a sandbox flag
and the ZarinGate portal settings

- builds the StartPay redirect URL for a payment authority (`getRedirectUrl`),
  including the rule that picks between no suffix, `/ZarinGate` and a PSP
  suffix from the allow-list `Asan, Sep, Sad, Pec, Fan, Emz`;
- turns that URL into a redirect action (`redirect`);
- injects the merchant id into a caller payload (`makePayload`), under
  `MerchantID` in the sandbox and `merchant_id` in production, overriding any
  caller value under that key;
- picks the endpoint of each call (`PaymentRequest`/`request`,
  `PaymentVerification`/`verify`) and normalises the reply, which is flat
  (`Status`, `Authority`, `RefID`) in the sandbox and nested under `data`
  (`code`, `authority`, `ref_id`) in production, with `null` and `''` as
  defaults (`request`, `verify`).

Files:

- `wrappers.dfy` — `Option` and `Result`.
- `json.dfy` — JSON-like values; a PHP array with string keys is an ordered list
  of entries, with lookup (`Get`) and the one-key `array_merge` (`Put`).
- `php_string.dfy` — PHP's `trim` (default character set) and `in_array`.
- `client_config.dfy` — the constructor's settings as an immutable record.
- `redirect_url.dfy` — portal selection, the redirect URL, a parser that inverts
  it, and the redirect action.
- `gateway.dfy` — endpoints, payload construction, reply normalisation and the
  `request`/`verify` calls over a transport given as a function.

The HTTP client (`IClient::sendRequest`) is a parameter of type
`(string, Object) -> Result<Object, TransportError>`: a `Failure` is the
`RequestException` the client lets through unchanged.

Details of `src/Zarinpal.php` the model keeps:

- the generic portal suffix is `/ZarinGate`, and the host is `zarinpal.com`;
- `code` is returned as whatever JSON value the reply holds, with no conversion;
- `??` treats a field that is present but `null` like a missing one, so a
  `null` authority or reference id reads as `''`;
- `$response['data']['code']` only finds a value when `data` is an object; a
  list, a scalar or `null` under `data` gives the default.

## Model

| member | source | states |
|---|---|---|
| Json.Keys | src/Zarinpal.php:185-189 | the key list holds exactly the keys that occur in the array's entries |
| Json.Get | src/Zarinpal.php:95-96 | array lookup finds a value exactly when the key is present, and the value found is stored under that key |
| Json.Put | src/Zarinpal.php:185-189 | merging one string key: the key maps to the new value, every other key keeps its lookup, an existing key keeps its position and a new one is appended last, and distinct keys stay distinct |
| Json.PutIdempotent | src/Zarinpal.php:185-189 | merging the same key and value twice equals merging it once |
| PhpString.TrimStart | src/Zarinpal.php:150 | the result is a suffix of the input, what was dropped is all trim characters, and the result does not start with one |
| PhpString.TrimEnd | src/Zarinpal.php:150 | the result is a prefix of the input, what was dropped is all trim characters, and the result does not end with one |
| PhpString.Trim | src/Zarinpal.php:150 | the trimmed string is the input with an all-blank prefix and an all-blank suffix removed, and it neither starts nor ends with a trim character |
| PhpString.TrimEmptyIffBlank | src/Zarinpal.php:150 | `trim(s) !== ''` holds exactly when `s` has a character other than space, tab, LF, CR, NUL or vertical tab |
| PhpString.InArray | src/Zarinpal.php:150 | the linear scan reports true exactly when the needle is in the list |
| RedirectUrl.SelectPortal | src/Zarinpal.php:148-152 | the chosen portal is never an unlisted PSP, a PSP portal is the configured one, and the plain page is chosen exactly when ZarinGate is off |
| RedirectUrl.AllowedPspNotBlank | src/Zarinpal.php:150 | every allow-listed PSP survives `trim` non-empty, so the blank guard is implied by list membership |
| RedirectUrl.PortalRule | src/Zarinpal.php:148-152 | tie-break: no suffix iff ZarinGate is off; `/ZarinGate` iff it is on and the PSP is not listed (blank included); the PSP iff it is on and listed — exactly one applies |
| RedirectUrl.GetRedirectUrl | src/Zarinpal.php:146-155 | the URL starts with the host of the configured environment and, for a slash-free authority, parses back to that environment, authority and selected portal |
| RedirectUrl.RedirectUrlShape | src/Zarinpal.php:146-155 | the URL is `https://` + `sandbox` or `www` + `.zarinpal.com/pg/StartPay/` + authority + (nothing, `/{psp}` for a listed PSP, else `/ZarinGate`) |
| RedirectUrl.ParseRender | src/Zarinpal.php:154 | every URL the client can build for a slash-free authority and a valid portal parses back to its environment, authority and portal |
| RedirectUrl.RenderParse | src/Zarinpal.php:154 | every URL the parser accepts is exactly the rendering of what it returns, with a slash-free authority and a valid portal |
| RedirectUrl.SlashInAuthorityCollides | src/Zarinpal.php:154 | an authority `a/{psp}` without ZarinGate gives the same URL as authority `a` with ZarinGate and that PSP |
| ClientConfig.NewConfig | src/Zarinpal.php:71-79 | a client built from a merchant id alone keeps that id and takes the defaults: production, no ZarinGate, blank PSP, language `fa`, Laravel redirect |
| RedirectUrl.DefaultRedirectUrl | src/Zarinpal.php:71 | with only a merchant id given, the constructor's defaults yield the plain production URL `https://www.zarinpal.com/pg/StartPay/{authority}` |
| RedirectUrl.Redirect | src/Zarinpal.php:164-174 | the redirect always targets `getRedirectUrl(authority)`, through the Laravel helper exactly when the Laravel flag is set and a raw `Location` header otherwise |
| Gateway.EndpointsDistinct | src/Zarinpal.php:92-114 | the endpoint names of the two environments and two calls are pairwise different: equal names mean the same environment and the same call |
| Gateway.MakePayload | src/Zarinpal.php:183-190 | the mode's merchant key holds the merchant id even if the caller set it, every other caller key keeps its value, no other key is added, and key order is kept |
| Gateway.MakePayloadIdempotent | src/Zarinpal.php:183-190 | preparing an already prepared payload changes nothing |
| Gateway.DataField | src/Zarinpal.php:98-99 | `$response['data'][$k]` finds a value exactly when `data` is present, holds an object, and that object has key `k`, and then it is the value stored there |
| Gateway.Coalesce | src/Zarinpal.php:95-96 | `??` returns a present non-null value, and otherwise the default; the result is never null when the default is not null |
| Gateway.ReadCode | src/Zarinpal.php:94-100 | the code is the value at `Status` (sandbox) or `data.code` (production) when that is present and not null, and `null` otherwise |
| Gateway.ReadRequestResponse | src/Zarinpal.php:94-100 | the code is `Status` (sandbox) or `data.code` (production) when present and not null, else `null`; the authority is `Authority` or `data.authority` when present and not null, else `''` |
| Gateway.ReadVerifyResponse | src/Zarinpal.php:116-122 | the code is `Status` (sandbox) or `data.code` (production) when present and not null, else `null`; the reference id is `RefID` or `data.ref_id` when present and not null, else `''` |
| Gateway.RequestResultRoundTrip | src/Zarinpal.php:94-100 | a reply laid out in the mode's shape reads back as exactly the result it encodes, for every result with a non-null authority |
| Gateway.VerifyResultRoundTrip | src/Zarinpal.php:116-122 | a verification reply laid out in the mode's shape reads back as exactly the result it encodes, for every non-null reference id |
| Gateway.SandboxIgnoresData | src/Zarinpal.php:94-122 | in the sandbox, two replies that agree on every key but `data` give the same request and verify results, so `data` is never read |
| Gateway.ProductionIgnoresTopLevel | src/Zarinpal.php:94-122 | in production, two replies that agree on `data` give the same request and verify results, so `Status`, `Authority`, `RefID` and every other top-level key are never read |
| Gateway.ProductionWithoutDataDefaults | src/Zarinpal.php:97-100 | in production, a reply without an object under `data` reads as code `null` and authority or reference id `''` |
| Gateway.Request | src/Zarinpal.php:90-101 | `request` sends the prepared payload to `PaymentRequest` (sandbox) or `request` (production), fails exactly when the transport fails with the same error, and otherwise returns the normalised reply |
| Gateway.Verify | src/Zarinpal.php:112-123 | `verify` sends the prepared payload to `PaymentVerification` or `verify`, fails exactly when the transport fails with the same error, and otherwise returns the normalised reply |
| Gateway.OnlyTheExchangeMatters | src/Zarinpal.php:92-114 | two transports that answer the one endpoint/payload pair alike give identical `request` and `verify` results |
| Gateway.SandboxRequestExample | src/Zarinpal.php:94-96 | sandbox reply `{Status: 100, Authority: "XYZ"}` gives code 100 and authority `XYZ` |
| Gateway.ProductionRequestExample | src/Zarinpal.php:97-100 | production reply `{data: {code: 100, authority: "XYZ"}}` gives code 100 and authority `XYZ` |
| Gateway.VerifyMissingRefIdExample | src/Zarinpal.php:116-118 | a sandbox verification reply with `Status` but no `RefID` keeps the status and reads reference id `''` |

## Left out

- `getCodeMessage` (src/Zarinpal.php:133-136): it delegates to `Zarinpal\Messages\Message::get`, which is not part of this model, so neither its table nor its fallback can be stated.
- The HTTP client and Guzzle: network I/O. The transport is a function parameter; its reply or exception is an input.
- `redirect`'s effects: the Laravel `redirect()` helper, `header()` and `exit` are represented by the `RedirectAction` value they would act on.
- `array_merge` renumbering of integer keys: payload and reply keys are strings here.
- Floating-point JSON numbers: values are null, booleans, integers, strings, lists and objects.
- PHP strings are byte strings; they are modelled as `string` (sequences of `char`), so multi-byte characters are single characters here. `trim` strips its default set: space, tab, LF, CR, NUL, vertical tab.
- `in_array`'s loose comparison is modelled as equality: between two strings PHP compares numerically only when both are numeric, and no allow-list entry is.
- Duplicate keys: a PHP array never has two entries with the same key, but an `Object` may. `Get` returns the first such entry, whereas `json_decode` keeps the last one. Replies are not required to have distinct keys, so for a reply with duplicate keys the model may read a different value than PHP would.
- The public properties are mutable in PHP; the configuration here is an immutable record, so a change between two calls is two configurations.
