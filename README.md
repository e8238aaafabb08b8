# TokoCrypto relay: request rewriting and error normalisation

This project models the decision logic of the relay in `server.js`, a small
HTTP server that forwards a backend's calls to the TokoCrypto API. It makes
each call look like an ordinary browser request, and it reshapes every upstream
failure into one JSON diagnostic. The model covers four pieces:

- **Error normaliser** (`ErrorNormaliser`). This is the static `ERROR_MAP`
  table of eight upstream codes and `transformErrorResponse`. It takes the
  error code and message from an upstream body using fixed fallback orders. It
  looks the code up in the table or makes up an `UNKNOWN` entry. It then builds
  the diagnostic record: a numeric `code` from `parseInt(code) || -1`, a
  `msg`, and a `data` block with `status`, `type`, `code`, `errorData` and
  `details`.
- **Outbound request builder** (`RequestBuilder.BuildOutbound`). It builds the
  target URL from the path and the text between the first two `?` of the
  inbound URL. It starts a fresh header map from five browser-like entries and
  copies in only the API key and the content type. It picks the body by HTTP
  method and content type. It is an imperative method that updates a local map
  and a local variable, like the source does.
- **Response classifier** (`ResponseClassifier`). `IsError` keeps the
  precedence of the source's `isError` test exactly as written, including the
  TypeError it throws on a `null` body. `Respond` gives the reply for each
  result of the outbound call, including the three branches of the `catch`.
- **JavaScript semantics** (`JsValues`, `JsNumbers`). These cover truthiness,
  property access with and without `?.`, `String(v)`, `Number#toString` on
  integers and `parseInt` with no radix (leading whitespace, sign, `0x`
  prefix, longest digit prefix). The upstream body is a JSON value (`Json`).

The wall clock (`Date.now()`) is the parameter `now`. The HTTP client and the
network are the parameter `upstream`, which maps the outbound request to a
`Transport` result. `new URLSearchParams(body).toString()` is the opaque
parameter `formEncode`.

## Behaviour worth knowing

- When `TARGET_URL` is unset, the template literal builds `"undefined"`
  followed by the path, and the call is still made (`TargetText`).
- The body is form-encoded only when the copied `Content-Type` is exactly
  `application/x-www-form-urlencoded`. A value with parameters, such as a
  charset, sends the parsed body as it is.
- The `catch` branch for a rejected call that carries a response sets only
  `Content-Type`, not `Access-Control-Allow-Origin`.
- A `null` upstream body makes the `isError` test throw when it reads
  `data.status`. The `catch` then answers 500 with the TypeError's message,
  not the upstream status.
- When a rejected call carries a response whose body is `null`,
  `transformErrorResponse(null)` throws inside the `catch` and no reply is
  sent (`NoReply`). That exception escapes the handler as a rejected
  promise, which Express 4 does not catch.
- Headers are only ever built from a fixed list of names. The request
  therefore never carries a forwarded-for, real-ip, client-ip, forwarded
  or via header, whatever the caller sends.

## Model

| member | source | states |
|---|---|---|
| JsValues.OptToString | server.js:67 | `o?.toString()` is `undefined` exactly on `undefined` and `null` |
| JsNumbers.ParseIntOfIntToString | server.js:79 | `parseInt(String(n)) === n` for every integer: the decimal rendering reads back exactly |
| JsNumbers.ParseIntOfDigits | server.js:79 | `parseInt` on a string of decimal digits reads all of them, leading zeros included |
| JsNumbers.ParseIntOfNonNumeric | server.js:79 | `parseInt` is NaN on text that starts with no whitespace, no sign and no digit |
| JsNumbers.NatToDigitsShape | server.js:67 | the decimal rendering of a number is non-empty, all digits, and starts with '0' only for zero |
| ErrorNormaliser.ErrorCodeOf | server.js:67 | the extracted error code is never empty |
| ErrorNormaliser.ErrorMessageOf | server.js:68 | the extracted message is truthy or the empty string |
| ErrorNormaliser.NumericCode | server.js:79 | `parseInt(code) \|\| -1` is never 0 |
| ErrorNormaliser.TransformErrorResponse | server.js:66-94 | throws exactly on a `null` body; otherwise `data.status` is "ERROR", `data.code` is the extracted code, `originalResponse` is the input unchanged, the timestamp is `now` and the numeric code is non-zero |
| ErrorNormaliser.KnownCodeNormalised | server.js:12-61 | for every table code, `data.type` and `details.suggestion` are the entry's, and `msg` is "<category>: <message>" |
| ErrorNormaliser.UnmappedCodeNormalised | server.js:71-84 | an unknown code gives type UNKNOWN, msg "UNKNOWN_ERROR: Unmapped error code: <code>", the code in `data.code`, and the contact-support suggestion |
| ErrorNormaliser.LookupShowsMapping | server.js:71-76 | the diagnostic type is UNKNOWN (and the category UNKNOWN_ERROR) exactly when the code is not in the table, whose own entries never use them; an unmapped code is named in the message |
| ErrorNormaliser.NestedNumericCode | server.js:67 | `{data: {code: -2}}` is reported under "-2" with the INSUFFICIENT_BALANCE entry |
| ErrorNormaliser.ErrorCodeSources | server.js:67 | a top-level `code` of any kind whose text is non-empty wins (a number in decimal); a missing or null one, or one whose text is empty, defers to `data.code` under the same rule, numbers included; "UNKNOWN" when neither gives text |
| ErrorNormaliser.ErrorMessageSources | server.js:68 | a truthy `msg` wins, then a truthy `data.errorData`, else ""; a body that is not an object gives "" |
| ErrorNormaliser.DiagnosticText | server.js:85-87 | `errorData` is the table message, plus " - " and the upstream message exactly when there is one; `reason` is that message, else "TokoCrypto error code <code>" |
| ErrorNormaliser.NumericCodeOfRendering | server.js:79 | the numeric code of the decimal rendering of a non-zero integer is that integer |
| ErrorNormaliser.NumericBodyCodeKept | server.js:67-79 | a non-zero numeric `code` in the body comes back unchanged as the diagnostic's numeric code |
| ErrorNormaliser.NumericCodeOfNonNumbers | server.js:79 | "UNKNOWN" and "0" both give -1 |
| ErrorNormaliser.NumericCodeOfLeadingZero | server.js:37-42 | the code "027037" gives the numeric code 27037 |
| ErrorNormaliser.NoIntegerRendersAsLeadingZeroKey | server.js:37-42 | no numeric upstream code is written as "027037", so only a text code reaches that entry |
| ErrorNormaliser.TableKeysReadBack | server.js:12-61 | the table has exactly eight keys, and every key except "027037" is the decimal form of its own numeric code |
| RequestBuilder.Split | server.js:113 | `split('?')` gives at least one piece, none containing '?', and at least two pieces exactly when '?' occurs |
| RequestBuilder.JoinSplit | server.js:113 | joining the pieces of a split gives back the original text |
| RequestBuilder.QueryStringBetweenMarks | server.js:113 | the query is the '?'-free text right after the first '?' of the URL, ending at the next '?' or the end of the URL; it is empty when there is no '?' |
| RequestBuilder.BuildOutbound | server.js:112-157 | the request satisfies `BuiltFrom`: URL is target + path, plus "?" + query only when the query is non-empty; headers are exactly the five baseline entries plus X-MBX-APIKEY / Content-Type iff the inbound header is non-empty, copied as they are; body is none for GET/HEAD or empty bodies, form-encoded only for the exact form content type, else the parsed body; 5 redirects, 30 s timeout; and no header matches an identity-revealing name in any case |
| RequestBuilder.BuiltFromDeterminesRequest | server.js:112-157 | those rules pin the outbound request down completely: two requests built from the same inputs are equal |
| RequestBuilder.BuiltRequestHidesIdentity | server.js:127-144 | any request built by those rules carries no identity-revealing header, in any letter case |
| RequestBuilder.OutboundNamesHideIdentity | server.js:127-144 | none of the seven names the builder can write equals a forwarded-for, real-ip, client-ip, forwarded or via header, ignoring case |
| ResponseClassifier.IsError | server.js:176-179 | the test throws exactly on a `null` body, with the TypeError for reading `status` |
| ResponseClassifier.IsErrorMatchesRule | server.js:176-179 | on every non-null body the test as written equals "code present and not 0, or status ERROR, or HTTP status not 200" |
| ResponseClassifier.ResolvedReply | server.js:176-205 | a resolved call is answered with the upstream status: with the normalised diagnostic when the rule finds an error, else with the body unchanged |
| ResponseClassifier.ForwardedOnlyAt200 | server.js:176-205 | a forwarded body comes only from a resolved call with status 200 and a non-null body, and is that body unchanged, sent with the upstream content type (application/json when it has none) and `Access-Control-Allow-Origin: *` |
| ResponseClassifier.NullBodyIsInternalError | server.js:176-179 | a `null` body is answered 500 with code -9999, type INTERNAL_ERROR and the TypeError's message |
| ResponseClassifier.RejectedWithResponseReply | server.js:211-219 | a rejection with a response keeps its status and sends the normalised diagnostic; with a `null` body no reply is sent |
| ResponseClassifier.NoResponseReply | server.js:220-238 | no response gives 503, code -9999, type UPSTREAM_ERROR, and the timeout reason iff the error code is ETIMEDOUT, else "Network error" |
| ResponseClassifier.OtherFailureReply | server.js:239-257 | any other failure gives 500, code -9999, type INTERNAL_ERROR, with the failure message as reason and inside `errorData` |
| ResponseClassifier.EveryDiagnosticIsMarked | server.js:78-92 | every diagnostic sent, on any path, has status "ERROR", a non-zero code and the reply time |
| ResponseClassifier.InsufficientBalanceAt200 | server.js:19-24 | HTTP 200 with `code: -2` is reshaped into the INSUFFICIENT_BALANCE diagnostic with code -2, still with status 200 |
| ResponseClassifier.ZeroCodeStrictness | server.js:176-177 | `{code: 0}` at 200 is forwarded, while `{code: "0"}` and `{code: null}` are errors |
| ResponseClassifier.HandleProxyRequest | server.js:109-260 | the request sent is the one `BuiltFrom` describes for the inbound request (URL, headers, payload, limits), it has no identity-revealing header, and the reply is the classifier's answer to the result of calling upstream with it |

## Left out

- Express, axios, cors and dotenv wiring are not modelled. This covers body
  parsing middleware, route registration (`/proxy`, the catch-all routes,
  `/health`) and `app.listen`. It is framework plumbing with no decision logic.
- Headers added by middleware or by Express itself are not modelled, for
  example the `Access-Control-Allow-Origin` from `cors()` and the default JSON
  content type of `res.json`. A reply's `headers` holds only what the handler
  sets with `.set`.
- The HTTP call itself is not modelled. That includes redirect following and
  the 30-second timer. The call is the `upstream` parameter, and its result is
  the `Transport` input. Only the configured limits (5 redirects, 30000 ms)
  are recorded.
- `Date.now()` is the parameter `now`.
- `URLSearchParams` serialisation is library behaviour. It is the opaque
  parameter `formEncode`, and errors it might throw are not modelled.
- `console.log` and `console.error` output is not modelled.
- JSON numbers are modelled as integers. Fractional numbers, the exponent form
  `String` uses from 1e21 up, `-0`, and the rounding `parseInt` applies
  beyond 2^53 are not modelled.
- `ERROR_MAP` is a finite map of its eight keys. Codes that name members of
  `Object.prototype` (such as "toString" or "__proto__") count as unmapped.
  In JavaScript they would find the prototype member.
- An upstream object that has its own `toString` or `valueOf` field is turned
  into text as "[object Object]". JavaScript would call or reject those fields.
- Inbound header values are single strings. Node's array-valued headers are
  not modelled.
- A failure thrown while a reply is being written (`res.status(...).json(...)`)
  is not modelled.
- The "transparent-forward" header mode is not modelled, because the code has
  no such mode.
- `test-client.js` is not part of this model. It is a manual script that only
  sends one request and prints the result.
