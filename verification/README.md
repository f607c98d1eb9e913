# USD/BRL quote handler — Dafny model

This project models the `/cotacao` endpoint of the client-server challenge server
(`client-server-challenge/server/main.go`). For each GET request the endpoint calls the
upstream quote API once, under a 200 ms context. It normalizes the upstream document,
whatever its shape, into one `ExchangeRate` record. It then tries to insert that record
into SQLite under a separate 10 ms deadline. Finally it answers `200 {"bid": ...}`
whatever the insert did.

Modules, one per component:

- `Options` (`options.dfy`): the `Option` wrapper used for Go's `value, ok` results.
- `JsonValues` (`json_values.dfy`): generic JSON values, the `interface{}` tree that
  `encoding/json` produces. Also `getStringOrDefault`.
- `Rates` (`exchange_rate.dfy`): the `ExchangeRate` record and its JSON tags, the clock
  readings, and `createDefaultExchangeRate`.
- `Normalizer` (`normalizer.dfy`): the dispatch on the `"USDBRL"` entry and the bid
  patch.
- `Store` (`store.dfy`): `insertDataWithContext`, with the goroutine/`select` race
  reduced to a `StoreWorld` value.
- `Handler` (`handler.dfy`): `fetchCurrencyHandler`. It is a pure function from the
  request method, the upstream outcome, the store world and the clock to the response
  and the trace of steps taken.

Inputs the model takes as parameters instead of computing:

- The clock. `Clock(unixSeconds, rfc3339)` holds the two formatted readings of
  `time.Now()`.
- The generic decode of the body into `map[string]interface{}`. It is an
  `Option<map<string, Json>>`. Go decodes the document `null` into a nil map without
  error. Such a document therefore behaves as an empty object, and the parameter is
  `Some(map[])` for it.
- The strict decode of the body into `CurrencyData`, which the handler runs only when
  the `"USDBRL"` key is absent. It is an `Option<ExchangeRate>`.
- The upstream call. `RequestNotCreated`, `FetchFailed` (the 200 ms deadline included),
  `ReadFailed`, or `Received`.
- The store. It says whether the database handle is nil, how `ExecContext` ends, and
  which case the `select` takes.

Three behaviours of the code are easy to misread:

- A body that does not parse as a JSON object gets HTTP 500 (main.go:174-176). No
  defaulted record is served.
- A `"USDBRL"` value that is neither a string nor an object gives the default record
  directly (main.go:220-222). No strict decode is tried.
- When the key is absent and the strict decode succeeds, the decoded fields are kept
  as they are, even when empty. Only an empty bid is patched (main.go:224-235).
  `Normalizer.KeyAbsentKeepsEmptyFields` shows this.

## Model

| member | source | states |
|---|---|---|
| JsonValues.StringOrDefault | client-server-challenge/server/main.go:256-261 | a string stored under the key is returned; a missing key or a non-string value gives the default |
| JsonValues.NonStringCountsAsMissing | client-server-challenge/server/main.go:256-261 | a non-string value behaves exactly as if the key were removed from the object |
| JsonValues.StringOrDefaultIsLocal | client-server-challenge/server/main.go:256-261 | the lookup depends only on the entry under its own key, and a stored string makes the default irrelevant |
| Rates.Field | client-server-challenge/server/main.go:30-42 | a JSON tag names a field of the record exactly when it is one of the eleven struct tags |
| Rates.FieldsDetermineRecord | client-server-challenge/server/main.go:30-42 | two records that agree on every tagged field are equal |
| Rates.DefaultRateShape | client-server-challenge/server/main.go:264-278 | the default record has bid "0", takes its timestamp and creation date from the clock, and does not depend on the clock otherwise |
| Rates.ToObject | client-server-challenge/server/main.go:30-42 | the record as a JSON object has exactly the eleven tags as keys, each holding the field's string |
| Normalizer.Classify | client-server-challenge/server/main.go:183-223 | the five shapes of the pair entry (bare string, object with string bid, object without one, other value, key absent) and exactly when each applies |
| Normalizer.PatchBid | client-server-challenge/server/main.go:232-235 | the patched bid is non-empty, a non-empty bid is left alone, and no other field changes |
| Normalizer.Normalize | client-server-challenge/server/main.go:179-235 | in every branch the bid is non-empty; a non-empty bid chosen by the dispatch is kept, and otherwise the bid is "0" (the branch lemmas give the other fields) |
| Normalizer.NormalizeBareString | client-server-challenge/server/main.go:185-199 | a bare string s under "USDBRL" gives the default record with bid s, or "0" when s is empty |
| Normalizer.NormalizeObjectWithBid | client-server-challenge/server/main.go:200-215 | with a string bid b in the nested object, the bid is b (or "0" if empty) and every other field is the object's string under its tag, or that field's default |
| Normalizer.FromObjectField | client-server-challenge/server/main.go:203-215 | tag by tag, the object branch reads the object with the same default as the default record |
| Normalizer.NormalizeFallsBackToDefault | client-server-challenge/server/main.go:216-223 | an object without a string bid, or a value that is neither string nor object, gives exactly the default record, with bid "0" |
| Normalizer.NormalizeKeyAbsent | client-server-challenge/server/main.go:224-235 | without the key, a successful strict decode is kept field for field with only an empty bid patched, and a failed one gives the default record |
| Normalizer.KeyAbsentKeepsEmptyFields | client-server-challenge/server/main.go:224-235 | a strict decode that found nothing yields empty fields with bid "0"; defaults are not filled in |
| Normalizer.PartialObjectScenario | client-server-challenge/server/main.go:200-215 | a nested quote with only code, codein, bid and high keeps those and defaults low and name |
| Normalizer.NormalizeClockOnlyTouchesTimes | client-server-challenge/server/main.go:183-235 | two runs on the same input at different times agree on every field except timestamp and creation date |
| Normalizer.NormalizeIgnoresClockWhenTimesSupplied | client-server-challenge/server/main.go:213-214 | when the nested object supplies both time fields as strings, the result does not depend on the clock |
| Normalizer.CanonicalRoundTrip | client-server-challenge/server/main.go:200-215 | a record with a bid, published as an object under "USDBRL", normalizes back to itself |
| Normalizer.NormalizeIdempotent | client-server-challenge/server/main.go:183-235 | normalizing the published form of a normalized record gives the same record again |
| Store.InsertWithDeadline | client-server-challenge/server/main.go:281-317 | success iff the handle exists, the insert commits and its result beats the deadline; nil handle, time-out and exec error are the other outcomes; a row reaches the table iff the handle exists and the insert commits, whoever wins the race, and that row is the record itself |
| Store.TimedOutInsertMayStillCommit | client-server-challenge/server/main.go:287-311 | a time-out can be reported for an insert that did commit its row |
| Handler.Handle | client-server-challenge/server/main.go:137-253 | 405 iff the method is not GET; 200 iff GET and the body was fetched and parsed; a 200 body is a single "bid" key holding the normalized record's non-empty bid; an insert is attempted iff the answer is 200 |
| Handler.NonGetIsRejected | client-server-challenge/server/main.go:138-141 | a non-GET request gets 405 "Method not allowed" and no step is taken |
| Handler.UpstreamFailureIsFatal | client-server-challenge/server/main.go:148-177 | a failure to build, send, read or parse the upstream request gets a plain-text 500, and nothing is normalized or inserted |
| Handler.ParsedDocumentIsServed | client-server-challenge/server/main.go:237-252 | a parsed document is fetched, normalized, handed to the store writer, and answered 200 with the normalized bid, in that order |
| Handler.StoreOutcomeIsInvisible | client-server-challenge/server/main.go:241-245 | the response is the same for every store outcome |
| Handler.BareStringQuoteScenario | client-server-challenge/server/main.go:183-199 | the document {"USDBRL": "5.50"} is answered 200 {"bid": "5.50"} |
| Handler.EmptyDocumentScenario | client-server-challenge/server/main.go:224-235 | an empty document is answered 200 {"bid": "0"}, whether the strict decode fails or yields an empty bid |

## Left out

- Byte-level JSON parsing and the rules of Go's `encoding/json`. This includes the
  case-insensitive field matching of the strict decode at main.go:226. Both decodes are
  inputs.
- The goroutine, the channel and the `select` race, and the two context time-outs
  (main.go:143-145, 237-239, 287-317). They are concurrency. The outcome of each race is
  an input: `FetchFailed` for the upstream call, `StoreWorld.race` for the insert.
- The formatting of `time.Now()` (main.go:197-198, 213-214, 275-276). The formatted
  strings are inputs.
- The database set-up, the connection pool, the SQL text and the directory creation
  (main.go:78-120). They are I/O. A written row is modelled as the record itself,
  without SQLite's conversion of text into REAL and INTEGER columns.
- Logging, the response headers other than Content-Type, the JSON escaping done by
  `json.Marshal`, `writeJSONResponse`, route set-up and `main` (main.go:123-134,
  321-335). The success body is given as a JSON value, not as bytes.
- The HTTP status of the upstream response is never checked by the handler. Any
  received body is treated alike, so the model has no upstream status.
- `client-server-challenge/client/client.go`, `client-server-challenge/server/server.go`
  and `client-server-challenge/server.go` are not part of this model. They are a
  polling loop, a pass-through handler that does not compile, and a fetch-and-print
  program.
