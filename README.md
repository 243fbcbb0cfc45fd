# enrich-api-go: the request dispatchers, modelled in Dafny

This project models the dispatch core of the Go client library for the Enrich
and Graphmob data-enrichment APIs: how a prepared request is sent, how the
response status decides between success, error and another try, how error
bodies become errors, and how a client builds its requests.

Two client generations are modelled side by side:

- **enrich** (`enrich/main.go`): `Do` sends the same request up to three
  times. A `201 Created` always reschedules it, a `404` reschedules it once a
  retry is under way, and a call that is still being rescheduled after the
  third send ends with the synthetic `not_found` error, without sleeping or
  sending again. The hold before each send is 0 for the first and then the
  `Retry-After` header when `strconv.ParseInt(s, 10, 32)` accepts it,
  otherwise the previous hold. `checkResponse` maps a non-2xx body
  `{"error": {"reason", "message"}}` to an error, with the fallback
  `error` / `Request could not be submitted.`; a failed decode of a 2xx body is
  never reported.
- **graphmob** (`graphmob/graphmob.go`): `Do` sends once and never retries;
  `CheckResponse` reads a flat `{"reason", "message"}` body and always returns
  an error for a non-2xx status; a 2xx body that does not decode into the
  target is reported.

Layout:

- `wrappers.dfy` (`Wrappers`): `Option` and `Result`.
- `text.dfy` (`Text`): cutting text at the first separator, used to read
  error texts back.
- `decimal.dfy` (`Decimal`): `strconv.ParseInt(s, 10, 32)` and the `%d`
  rendering, with their round trip.
- `wire.dfy` (`Wire`): the HTTP and JSON values the clients branch on (a
  server is a function from the send number to a reply), JSON decoding into a
  `{reason, message}` struct, the `auth` record and the HTTP client as
  classes, and `PrepareRequest`, the header-by-header request building that
  both `NewRequest` methods perform.
- `enrich.dfy` (`Enrich`): the recursive `DoInner` as a specification
  function, `Do` as the equivalent bounded loop, the classifiers, the lemmas
  about the retry trace, and the `Client` class.
- `graphmob.dfy` (`Graphmob`): the single-send `Do`, `CheckResponse`, the
  error text and its reader, the as-written error type of the finding below,
  and the `Client` class.
- `generations.dfy` (`Generations`): the two generations compared on the same
  exchanges.

The sleeping, the network and the JSON text are not executed but abstracted:
the dispatcher records each hold in a list (one entry per send) instead of
sleeping, asks an abstract server for the reply to each send, and sees a body
as its bytes plus what a JSON decoder reads in them (nothing, a syntax error,
or a document).

A few consequences of the code that are easy to miss: there is no default
hold, so a missing or unparsable `Retry-After` keeps the previous hold, which
starts at 0; a negative `Retry-After` such as `-3` parses and is used as the
next hold; the graphmob generation never retries; and an enrich error body
that decodes but has no `"error"` member gives an error with an empty reason
and message, not the fallback.

## Model

| member | source | states |
|---|---|---|
| `Enrich.Classify` | enrich/main.go:177-215 | one send decides: a transport failure ends the call with no response; a rescheduling status (201 always, 404 once retryCount > 0) resends after the next hold; any other status ends the call with that response, and its error is nil exactly when the status is 2xx; the target changes only when the error is nil, and then it is what decodeResponse makes of the body |
| `Enrich.SendBounds` | enrich/main.go:169-216 | a call entered with retryCount makes at most 3 - retryCount sends, the first after the hold it was given; once retryCount > 2 it returns no response and the not_found error without holding or sending |
| `Enrich.OneToThreeSends` | enrich/main.go:163-203 | a call to Do makes between one and three sends, the first without a hold |
| `Enrich.Do` | enrich/main.go:163-216 | the bounded loop records the same holds, in order, and ends with the same response, error and target as the recursion DoInner(req, v, 0, 0) |
| `Enrich.HoldsFollowRetryAfter` | enrich/main.go:190-203 | every send after the first follows a reply that rescheduled, and its hold is that reply's Retry-After when it parses as a 32-bit integer, else the previous hold; a call that stops early stops on a reply that does not reschedule |
| `Enrich.AbortsExactlyWhenAlwaysRescheduled` | enrich/main.go:170-173 | the synthetic not_found outcome happens if and only if every allowed send got a rescheduling reply, and then all allowed sends were made |
| `Enrich.ResponseOutcome` | enrich/main.go:206-215 | a returned response answered the last send and did not reschedule; its error is nil exactly for a 2xx status (body decode failures never surface), an error is the one checkResponse gives, and with a nil error the target is what decodeResponse makes of that response's body |
| `Enrich.NoResponseOutcome` | enrich/main.go:171-181 | a call returns no response only on the not_found abort or on a transport failure of its last send |
| `Enrich.TargetChangesOnlyOnSuccess` | enrich/main.go:206-215 | the decode target changes only when the call returns a 2xx response with a nil error |
| `Enrich.FirstNotFoundIsFinal` | enrich/main.go:191-208 | a 404 on the first send is not retried: one send, the response, and checkResponse's non-nil error |
| `Enrich.RescheduleRules` | enrich/main.go:191-203 | a 201, or a 404 after a retry, resends with retryCount + 1 after the next hold |
| `Enrich.TransportFailureIsFinal` | enrich/main.go:178-181 | a transport failure returns no response and the transport error at once, with no retry |
| `Enrich.ThreeCreatedReplies` | enrich/main.go:171-203 | three 201 replies, the first with Retry-After 7 and then an unparsable one, give holds 0, 7, 7 and the not_found error |
| `Enrich.NextHold` | enrich/main.go:192-201 | the next hold is the parsed Retry-After value when the header parses, otherwise the previous hold |
| `Enrich.CheckResponse` | enrich/main.go:228-239 | no error exactly for status 200-299; otherwise the error under "error" in the body, or reason "error" with "Request could not be submitted." when the body does not decode |
| `Enrich.DecodeEnvelope` | enrich/main.go:69-76 | decoding into errorResponse fails exactly on a type error, and otherwise takes reason and message only from the "error" member |
| `Enrich.DecodeResponse` | enrich/main.go:243-252 | true exactly for a non-nil, non-Writer target and an empty body; a Writer receives the raw body; a decodable target takes the document; a nil target is left alone |
| `Enrich.ErrorText` | enrich/main.go:80-82 | the text splits at its first space back into reason and message when the reason has no space |
| `Enrich.Client.NewWithConfig` | enrich/main.go:86-107 | an empty endpoint becomes the default one; without an HTTP client the shared default client is used and its timeout set to 5 seconds; the client starts unauthenticated with the library's User-Agent |
| `Enrich.Client.New` | enrich/main.go:111-113 | a client with the default endpoint, the default HTTP client and no credentials |
| `Enrich.Client.Authenticate` | enrich/main.go:117-121 | the credentials are stored and marked available |
| `Enrich.Client.NewRequest` | enrich/main.go:125-159 | URL and encoding errors are returned; a request carries the encoded payload as its body, Basic credentials exactly when the client is authenticated, Accept and Content-Type application/json, and User-Agent exactly when it is non-empty |
| `Wire.PrepareRequest` | graphmob/graphmob.go:115-149 | the request-building steps shared by both NewRequest methods, with the same error order and headers |
| `Wire.DecodeReasonMessage` | graphmob/graphmob.go:62-66 | decoding a document into a {reason, message} struct: a type error exactly when a member is neither string nor null or the document is not an object or null; a member holding a string sets its field, and a non-empty field comes from the member of that name |
| `Wire.DecodeStringField` | enrich/main.go:73-76 | one string field: set from a JSON string, left empty by null or absence, a type error otherwise |
| `Wire.DecodeFlatError` | graphmob/graphmob.go:199-204 | the flat body {"reason": r, "message": m} decodes to r and m without error |
| `Decimal.ParseInt32` | enrich/main.go:196 | a parsed Retry-After lies in [-2^31, 2^31-1], starts with a digit or a sign, is negative only after a '-', and after the optional sign consists of one or more decimal digits |
| `Decimal.ParseFormatRoundTrip` | enrich/main.go:196 | parsing the decimal rendering of n gives n back exactly when n fits in 32 bits |
| `Decimal.ParseIgnoresPlusAndLeadingZero` | enrich/main.go:196 | a leading '+', or a leading zero before or after a '-', does not change the parsed value |
| `Decimal.ParseExamples` | enrich/main.go:195-199 | "-3" parses to -3 and "-0" to 0; "", "+", "-", " 5", "1_000" and "0x10" do not parse |
| `Decimal.FormatIntHasNoSpace` | graphmob/graphmob.go:71-73 | the %d rendering of the status holds no space, so the error text can be split |
| `Graphmob.Do` | graphmob/graphmob.go:153-183 | one send; no response exactly on a transport failure, which is returned as the error; a non-2xx status returns CheckResponse's error; a nil error exactly for a 2xx status unless a decodable target meets a malformed body; the target changes only on success and never when nil; on a 2xx status a Writer receives the raw body and a slot the decoded document |
| `Graphmob.OnlyFirstReplyMatters` | graphmob/graphmob.go:153-157 | the outcome depends on the first reply alone: no retry |
| `Graphmob.CheckResponse` | graphmob/graphmob.go:195-207 | nil exactly for status 200-299; otherwise always an error tied to the response, with the flat body's reason and message, empty when the body does not parse |
| `Graphmob.ErrorTextRoundTrip` | graphmob/graphmob.go:70-74 | the error text "method url: status reason message" reads back into all five parts when method, URL and reason hold no space |
| `Graphmob.CheckedErrorPrintsStatus` | graphmob/graphmob.go:195-207 | every error CheckResponse builds for a non-2xx status prints a text that reads back to its method, URL and status, whatever spaces the reason and message hold |
| `Graphmob.CheckResponseAsWritten` | graphmob/graphmob.go:62-66 | as written, a 2xx status gives no error, and the error loses its response exactly when the body sets the member "Response" (spelled exactly so) to null; its reason and message are those of the flat body, empty when the body does not parse |
| `Graphmob.ErrorTextAsWritten` | graphmob/graphmob.go:70-74 | as written, Error() fails exactly when the error has lost its response |
| `Graphmob.NullResponseMemberBreaksErrorText` | graphmob/graphmob.go:199-206 | a 500 with body {"Response": null} yields an error whose Error() dereferences nil |
| `Graphmob.AsWrittenAgreesWithoutResponseMember` | graphmob/graphmob.go:199-206 | without that member the as-written and corrected classifiers give the same error and text |
| `Graphmob.Client.NewWithConfig` | graphmob/graphmob.go:78-97 | an empty endpoint becomes the default one and a missing HTTP client the default client, unchanged; the client starts unauthenticated |
| `Graphmob.Client.New` | graphmob/graphmob.go:101-103 | a client with the default endpoint, the default HTTP client and no credentials |
| `Graphmob.Client.Authenticate` | graphmob/graphmob.go:107-111 | the credentials are stored and marked available |
| `Graphmob.Client.NewRequest` | graphmob/graphmob.go:115-149 | the encoded payload as body, Basic credentials exactly when authenticated, Accept and Content-Type always, User-Agent exactly when non-empty |
| `Generations.ErrorShapesDiffer` | enrich/main.go:232-238 | enrich reads only the nested {"error": {...}} body and graphmob only the flat one; each gives an empty reason and message for the other's shape |
| `Generations.SingleExchangeAgreement` | enrich/main.go:206-215 | on a first reply other than 201 both clients make one send and return the same response and target; their errors are nil on the same replies, except where graphmob reports a malformed body |

## Findings

| source | as written | input that shows it | evidently intended | confidence | as-written member | corrected member |
|---|---|---|---|---|---|---|
| graphmob/graphmob.go:62-66 | `errorResponse.Response` has no `json:"-"` tag, so `json.Unmarshal` of the error body assigns a member named "Response" (in any letter case) to it; a null sets it to nil, and `Error()` then dereferences `response.Response.Request` | status 500 with body `{"Response": null}` | the error keeps the response that caused it, whatever the body says | medium, not executed | `Graphmob.NullResponseMemberBreaksErrorText` | `Graphmob.CheckResponse` |

The rest of the model (`Graphmob.Do`) uses the corrected `CheckResponse`.

## Left out

- Network I/O and `http.Client.Do`: replaced by a server that gives the reply (transport error, or status, Retry-After header and body) to each send; the request is not passed to it: the requests the endpoint wrappers build are GETs without a body, so every send of a call re-sends the same request, and for a request with a body (which the first send drains) the server, being arbitrary per send, still covers whatever a later send gets back.
- `time.Sleep`: each hold is recorded instead; the model does not distinguish that Go returns at once for a zero or negative hold.
- The deferred 512-byte drain and `Body.Close` after each send, and the order in which the deferred drains of nested attempts run: resource cleanup.
- Body read and copy errors (`ioutil.ReadAll`, `io.Copy`): ignored by the source or not reachable in the abstraction.
- JSON text: a body is abstracted to what a decoder reads in it, so the difference between `Decoder.Decode` (first value only, trailing data ignored) and `json.Unmarshal` (trailing data is a syntax error) is not modelled.
- Wire.DecodeReasonMessage: matches member names exactly; encoding/json also matches them case-insensitively, and the order of duplicate keys is not modelled.
- Enrich.DecodeResponse: a well-formed document is assumed to fit the caller's target type, and a target is replaced rather than merged into; a decode that fails part-way leaves the target as it was.
- Graphmob.Do: the same two simplifications for the 2xx decode into the target.
- Graphmob.CheckResponseAsWritten: an object under "Response" would be decoded into the original `http.Response` and could overwrite its fields; only the null case is modelled.
- Graphmob.CheckResponseAsWritten: only the exact spelling "Response" clears the link; encoding/json also matches "response" or any other letter case, so such bodies lose the response in Go but keep it in the model.
- Enrich.DecodeEnvelope: finds the nested error under the exact member name "error"; encoding/json also accepts "Error" or any other letter case, where the model gives an empty reason and message.
- URL handling (`url.Parse`, `ResolveReference`): `NewRequest` receives the outcome of parsing and resolving the relative URL; a base URL that fails to parse in `NewWithConfig` is not modelled.
- The Authorization header: represented by the credential pair; its base64 encoding is not modelled.
- Redirects: the request attached to a response is taken to be the request that was sent.
- Schema-only files (`enrich/enrich.go`, `enrich/verify.go`, `graphmob/search.go`, `graphmob/generics.go`), the per-endpoint wrappers that format a path and call `Do`, and the example programs: data declarations and thin wrappers with no branching of their own.
