# Postal code to weather: a Dafny model of the two request handlers

The system answers "what is the temperature at this Brazilian postal code
(CEP)?" with two HTTP services:

- **service-a (the gateway)** accepts `POST /cep` with `{"cep": "..."}`. It
  checks the method, decodes and validates the body, and forwards
  `{"cep": "..."}` to service-b. It relays service-b's status and body
  unchanged.
- **service-b (the resolver)** validates the CEP again, geocodes it to a
  city and state (`localidade`, `uf`) through the ViaCEP service, and looks
  up the city's current Celsius temperature through WeatherAPI. It answers
  `{city, temp_C, temp_F, temp_K}`, with each value rounded to one decimal.

This project models the per-request decision logic of both handlers as pure
functions. The network is replaced by explicit inputs:

- Each outbound service is an **oracle**, a function from the request sent
  to what came back (`Http.Exchange`: a transport error, or a status with the
  decoded body).
- The handlers' results carry a **call log**: the outbound requests made, in
  order.
- "No call is made" is therefore stated twice: as an empty or shorter log,
  and as non-interference (the result does not depend on the oracle).

Modules:

- `Wrappers`: `Option` and `Result`.
- `Http`: the exchange outcome and the reply shape (`http.Error` plain text,
  `{"message": ...}` JSON, or a payload).
- `Cep`: the `^\d{8}$` validator as an anchored matcher (`MatchString`). It
  is proved equal to the reference predicate `ValidCep` (exactly eight ASCII
  digits). Also the gateway's body encoding and its inverse.
- `Temperature`: `math.Round` and `round1` over `real`, and the conversion
  to Celsius, Fahrenheit and Kelvin.
- `Resolver`: `lookupCity`, `lookupTempC` and `handleCEP` of service-b. Also
  `Resolve`, a second formulation of the pipeline as a chain of fallible
  steps over the error taxonomy (invalid input, not found, unavailable, bad
  status, malformed body, missing credential), with its status table
  `StatusFor`. `Resolve` reuses `LookupCity`, `LookupTempC` and `Report`, so
  comparing the handler with it checks the short-circuit wiring, the switch
  from the regex matcher to `ValidCep`, and the status table. It does not
  check the individual steps; their own contracts do that.
- `Gateway`: `handleCEP` of service-a, generic in the relayed body type.
- `Deployment`: the gateway wired to the resolver, with end-to-end examples.

Two behaviours follow the code, even where a reader might expect otherwise:

- The geocoder's not-found signal is the `erro` flag. When `erro` is missing
  it decodes as false, so a 200 with a non-empty `localidade` is a success.
  An absent flag is not treated as "not found".
- The gateway records nothing on its span when the forward fails.

## Model

| member | source | states |
|---|---|---|
| `Cep.MatchDigits` | cmd/service-b/main.go:41 | the anchored `\d{n}` matcher accepts only strings of length exactly n |
| `Cep.MatchString` | cmd/service-b/main.go:41 | `^\d{8}$` accepts only strings of exactly eight characters (a trailing newline is rejected) |
| `Cep.MatchDigitsIff` | cmd/service-b/main.go:41 | the matcher accepts s iff s has length n and every character is an ASCII digit (both directions) |
| `Cep.MatchStringIsValidCep` | cmd/service-a/main.go:44 | the gateway's and the resolver's validator accept exactly the eight-ASCII-digit strings |
| `Cep.MatchStringExamples` | cmd/service-b/main.go:67-69 | "01001000" and "00000000" pass; "abc", "", "01001-000", "0100100a" and "01001000\n" are rejected |
| `Cep.EncodeCepRequest` | cmd/service-a/main.go:66 | the forwarded body is `{"cep":"` + cep + `"}`, with the cep at a fixed position and nothing else in it |
| `Cep.ParseCepRequest` | cmd/service-a/main.go:66 | the inverse of the gateway's encoding: it accepts only the canonical one-field text `{"cep":"..."}`, whose string needs no escape, and returns the cep inside it; it is the witness decoder for the end-to-end lemmas, not a model of Go's decoder |
| `Cep.ParseEncodeRoundTrip` | cmd/service-a/main.go:66 | decoding the forwarded body gives back the same cep and only the cep |
| `Temperature.Round` | cmd/service-b/main.go:182 | `math.Round` returns an integer within 1/2, and on an exact half it picks the one farther from zero |
| `Temperature.RoundUnique` | cmd/service-b/main.go:182 | that nearest-with-ties-away integer is unique, so `Round` is the only such function |
| `Temperature.Round1` | cmd/service-b/main.go:182 | `round1` returns a one-decimal value within 0.05 of the input; on a tie it moves away from zero (`NearestTenthAwayFromZero`) |
| `Temperature.Round1Unique` | cmd/service-b/main.go:182 | any one-decimal value that is nearest with ties away from zero equals `round1` of the input |
| `Temperature.Round1Idempotent` | cmd/service-b/main.go:182 | a value already on the one-decimal grid is returned unchanged |
| `Temperature.Round1Odd` | cmd/service-b/main.go:182 | rounding is symmetric about zero: round1(-x) = -round1(x) |
| `Temperature.RoundMonotonic` | cmd/service-b/main.go:182 | `math.Round` preserves order |
| `Temperature.Round1Monotonic` | cmd/service-b/main.go:182 | `round1` preserves order: a lower temperature never rounds above a higher one |
| `Temperature.Round1TieExamples` | cmd/service-b/main.go:182 | 98.45 rounds to 98.5, -98.45 to -98.5, 0.05 to 0.1 |
| `Temperature.Convert` | cmd/service-b/main.go:88-93 | each of the three readings is the nearest one-decimal value, ties away from zero, to C, C*1.8+32 and C+273 respectively |
| `Temperature.ConvertDeterminedByRounding` | cmd/service-b/main.go:90-92 | any readings that are those nearest tenths are exactly `Convert`'s result, so the contract pins every reading |
| `Temperature.ConvertExamples` | cmd/service-b/main.go:88-93 | 0 gives 0/32/273, 100 gives 100/212/373, -40 gives -40/-40/233, 25 gives 25/77/298 |
| `Temperature.KelvinTracksCelsius` | cmd/service-b/main.go:90-92 | for C >= 0 the rounded Kelvin reading is exactly the rounded Celsius reading plus 273 |
| `Temperature.KelvinOffsetTieExample` | cmd/service-b/main.go:90-92 | because both are rounded from the raw value, C = -0.05 gives temp_C -0.1 but temp_K 273.0 |
| `Resolver.ClassifyGeocode` | cmd/service-b/main.go:110-131 | not found iff status 400/404, or 200 with `erro` or an empty `localidade`; success iff a decoded 200 that is neither, with exactly (`localidade`, `uf`) and a non-empty city; a transport error is "unavailable" |
| `Resolver.LookupCity` | cmd/service-b/main.go:100-132 | exactly one geocode request, to the CEP's ViaCEP URL; a success never carries an empty city |
| `Resolver.WeatherQuery` | cmd/service-b/main.go:144-149 | the query has exactly the keys `key`, `q`, `aqi`, with `q` = city,uf,BR and `aqi` = no |
| `Resolver.ClassifyWeather` | cmd/service-b/main.go:153-173 | a temperature iff a 200 whose body decoded, and then exactly the decoded `temp_c`; a weather failure is never "not found" |
| `Resolver.LookupTempC` | cmd/service-b/main.go:140-173 | no request is made iff the key is empty, and then the error is the missing credential; otherwise exactly one request, carrying the three-parameter query |
| `Resolver.Report` | cmd/service-b/main.go:88-93 | the success body names the geocoded city, and its readings are `round1` of C, C*1.8+32 and C+273, each within 0.05 of the exact conversion |
| `Resolver.HandleCep` | cmd/service-b/main.go:61-96 | at most two calls, geocode always first; status in {200,404,405,422,502}; 405 iff not POST; no call iff 405/422; 404 after one call only; 200 after both calls with a weather payload |
| `Resolver.StatusFor` | cmd/service-b/main.go:68-85 | 422 exactly for invalid input, 404 exactly for not found, 502 for every upstream failure |
| `Resolver.HandlerFollowsPipeline` | cmd/service-b/main.go:61-96 | for a POST, the handler's status is what the reference pipeline's error maps to, and on success the body is the pipeline's result |
| `Resolver.NonPostRejected` | cmd/service-b/main.go:62-64 | a non-POST request gets 405 "method not allowed" and no lookup at all |
| `Resolver.InvalidCepRejected` | cmd/service-b/main.go:66-70 | an undecodable body or a malformed CEP gets 422 "invalid zipcode" and no lookup at all |
| `Resolver.GeocodeFailureStopsPipeline` | cmd/service-b/main.go:72-80 | geocode not-found gives 404 "can not find zipcode", any other geocode failure 502 "zipcode lookup failed"; the geocode request is the only call |
| `Resolver.WeatherUnreachedAfterGeocodeFailure` | cmd/service-b/main.go:72-82 | after a geocode failure, any two weather services produce the same reply and calls |
| `Resolver.MissingKeyMakesNoWeatherCall` | cmd/service-b/main.go:140-143 | with an empty key the reply is 502 "weather lookup failed", and only the geocode call happened |
| `Resolver.WeatherFailureRenders502` | cmd/service-b/main.go:82-86 | a failing weather lookup gives 502 "weather lookup failed" after the geocode call and the weather call |
| `Resolver.SuccessReply` | cmd/service-b/main.go:88-95 | on success: 200 with city = `localidade`, temp_C = round1(C), temp_F = round1(C*1.8+32), temp_K = round1(C+273), after exactly the two calls |
| `Gateway.TargetUrl` | cmd/service-a/main.go:61-64 | the target ends in `/cep`, starts with `SERVICE_B_URL` when that is non-empty, and is `http://service-b:8081/cep` otherwise |
| `Gateway.HandleCep` | cmd/service-a/main.go:46-91 | at most one forward, to the target URL, whose body decodes to a valid CEP equal to the decoded request; non-POST gets 405 with no forward; a downstream answer is relayed as (status, body), and a transport failure gives 502 |
| `Gateway.InvalidRequestNotForwarded` | cmd/service-a/main.go:51-59 | an undecodable body or a malformed CEP gets 422 "invalid zipcode" and nothing is forwarded |
| `Gateway.UnbuildableRequestNotForwarded` | cmd/service-a/main.go:69-73 | when the outbound request cannot be constructed the reply is 500 "forward error" and nothing is sent |
| `Gateway.RejectionIgnoresServiceB` | cmd/service-a/main.go:47-73 | a request rejected before the forward makes no call, and its result is the same for every downstream service |
| `Gateway.ValidRequestRelayed` | cmd/service-a/main.go:66-90 | a valid request is forwarded once with the canonical body; any downstream status and body (2xx or not) reach the caller unchanged; a transport failure gives 502 "service b unavailable" |
| `Deployment.ParseDecodesCanonical` | cmd/service-b/main.go:66-67 | the canonical-form decoder reads every body the gateway can send |
| `Deployment.RelayedPayloadIffOK` | cmd/service-a/main.go:86-90 | when the resolver's reply is relayed, its inner body is a weather payload iff the status is 200 |
| `Deployment.ForwardedRequestsPassResolverValidation` | cmd/service-a/main.go:56-90 | every CEP the gateway forwards passes the resolver's validator; the caller receives exactly the resolver's reply, never its 405 or 422 |
| `Deployment.SaoPauloExample` | cmd/service-b/main.go:88-95 | 01001000 resolving to São Paulo at 25.0 gives 200 with 25.0 / 77.0 / 298.0 through both services |
| `Deployment.UnknownCepExample` | cmd/service-b/main.go:127-129 | 00000000 with `erro` set gives 404 "can not find zipcode" through both services |
| `Deployment.MalformedCepExample` | cmd/service-a/main.go:56-59 | "abc" gives 422 at the gateway and nothing is forwarded |

## Left out

- Tracing: span creation, attributes, `RecordError`, the `otelhttp` handler and transport wrappers, and W3C trace-context propagation are library behaviour. The exporter and provider setup in `internal/telemetry/otel.go` is process-wide state. None of it changes a reply.
- Transport and server plumbing: `ListenAndServe`, the 5-second client timeouts, context cancellation and `main` are I/O and concurrency. A timeout before the response headers arrive is an `Exchange.TransportError`. The client timeout also covers reading the body. In the resolver, a timeout while decoding is a decode error, which the oracle reports as `Answered(200, None)` or as a non-200 with any body.
- `Gateway.HandleCep`: a downstream body cut short is not modelled. The gateway writes the downstream status before copying the body, so a timeout or read error during `io.Copy` leaves the caller with that status and a truncated body. The model relays the body whole.
- JSON decoding is an oracle. Handlers receive `Option<CepRequest>`, `Option<ViaCepResp>` or `Option<real>`. This covers Go's decoder quirks: case-insensitive field names, trailing data after the first value, and a missing `current.temp_c` decoding as 0.
- `Cep.ParseCepRequest`: it is not Go's decoder. It returns None for bodies that Go's decoder accepts: whitespace (`{"cep": "01001000"}`), another key case (`{"CEP":"01001000"}`), extra fields, `\u0030`-style escapes and trailing data. It is used only as one decoder that reads the gateway's canonical encoding. The end-to-end lemma holds for every decoder that does so.
- JSON encoding of replies (`writeJSON`) is kept structured, as `JsonMessage` or `Payload`. Float formatting is not modelled.
- `Cep.EncodeCepRequest`: JSON string escaping is not modelled. It requires a valid CEP because the gateway only marshals a CEP after validation, and eight digits need no escaping.
- URL building and percent-encoding: the geocode URL is a string concatenation, and the weather query is a key-to-value map. `Gateway.HandleCep` takes whether `http.NewRequestWithContext` succeeds for the target URL as an oracle `buildsRequest`.
- Environment variables `SERVICE_B_URL` and `WEATHER_API_KEY` are string parameters.
- `Temperature.Round1`: the arithmetic is over exact reals, not float64. Values such as 98.45 or 1.8 are not representable in binary floating point, so the service's float results can differ in the last place, or at a tie, from the real-valued model. A very large reading can also overflow to infinity, which changes the reply (next line).
- `Resolver.SuccessReply`: float64 overflow is not modelled. A decoded `temp_c` above about 1.8e307 makes `f*10` in `round1` (or `tempC*1.8`) infinite. The JSON encoder refuses infinity only after `writeJSON` has written status 200, so the service answers 200 with an empty body, and the gateway relays that. The model promises a weather payload for every real temperature.
- `Gateway.HandleCep`: the relayed status is any integer. The HTTP client only produces three-digit codes, and `WriteHeader` panics outside 100-999; that constraint is not modelled.
- The response body of a failing weather call, which the source reads only to record it on the span, is not modelled.
