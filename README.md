# Directus schema migration, modelled in Dafny

This project models the core of `go-mirgrate-directus`. The tool copies a
Directus schema from a *base* instance to a *target* instance in three HTTP
calls. First it asks the base for a schema snapshot. Then it asks the target
for the diff between its own schema and that snapshot. Last, it has the target
apply that diff. The model covers the per-instance client (`DirectusClient`:
URL construction, status checks, unwrapping of the `{data: ...}` response
envelope) and the `Migrate` orchestrator, which runs the three steps in order,
stops at the first failure and labels it with the step that failed.

HTTP is made abstract. A `Transport` object sends a request (verb, URL,
headers, optional body) to a `Server` and gets back a reply. The server is a
function of the requests seen so far and the new request. A reply is either a
transport error or a response (status, body). Every request is appended to
the transport's `log`, so the model can state exactly which requests a
migration sends and in which order. JSON documents are an abstract tagged
union (`Json.Value`), and the codec (`Json.Codec`) is a pair of functions
that may fail. The model does not implement JSON itself.

Files: `wrappers.dfy` (Option/Result/Outcome), `json.dfy` (JSON values and
codec), `http.dfy` (requests, replies, the transport), `errors.dfy` (the
error taxonomy and the text each error reports), `client.dfy` (endpoints,
response interpretation, the client class), `migrate.dfy` (the orchestrator
and its properties).

Three behaviours of the code a reader might not expect:

- The code does not check that `data` is an object. It uses an unchecked type
  assertion (`data.(map[string]any)`), which panics when `data` is anything else,
  `null` included. The model makes this an explicit failure, `DataNotObject`,
  rather than a precondition.
- Apply succeeds on status 204 whatever the body holds. The body of a 204 is
  never read.
- The body is decoded into a Go `map[string]any`. So a JSON `null` body decodes
  without error into a nil map, and is then reported as missing `data`. Any
  other non-object body is a decode error.

## Model

| member | source | states |
|---|---|---|
| `Http.Transport.Do` | go-mirgrate-directus/go-mirgrate-directus.go:36-39 | One blocking round trip: the request is appended to the log, and the reply is the server's answer given the earlier requests. |
| `Client.DirectusClient.constructor` | go-mirgrate-directus/go-mirgrate-directus.go:20-26 | Stores the URL and token unchanged and sends no request (the transport log is unchanged). |
| `Client.SnapshotRequest` | go-mirgrate-directus/go-mirgrate-directus.go:30-31 | A GET with no body and no headers, to `base + "/schema/snapshot?access_token=" + token`. |
| `Client.DiffRequest` | go-mirgrate-directus/go-mirgrate-directus.go:61-75 | A POST carrying the encoded snapshot with a JSON content type, to the diff URL for the given force flag. |
| `Client.ApplyRequest` | go-mirgrate-directus/go-mirgrate-directus.go:102-113 | A POST carrying the encoded diff with a JSON content type, to `base + "/schema/apply?access_token=" + token`. |
| `Client.DiffForceAppendsFlag` | go-mirgrate-directus/go-mirgrate-directus.go:61-64 | Without force the diff URL is exactly `base + "/schema/diff?access_token=" + token`. With force it is that string with `"&force=true"` appended once at the end. |
| `Client.DiffForceOnlyChangesUrl` | go-mirgrate-directus/go-mirgrate-directus.go:61-75 | The forced and unforced diff requests for one body differ only in the flag appended to the URL. |
| `Client.EndpointsDistinct` | go-mirgrate-directus/go-mirgrate-directus.go:30-102 | The snapshot, diff and apply URLs of one instance are pairwise different for every base and token, so the log shows which operation each request was. |
| `Client.TokenNotEscaped` | go-mirgrate-directus/go-mirgrate-directus.go:61-64 | The token is pasted in verbatim. An unforced diff URL whose token ends in `&force=true` equals the forced URL for the shorter token. |
| `Client.InterpretFetch` | go-mirgrate-directus/go-mirgrate-directus.go:36-56 | Success only on a response with status exactly 200. A transport error becomes an execute error. Any other status becomes an error with that status and the raw body. On 200: a body that fails to decode and a body that decodes to something other than an object or `null` both give `DecodeFailed`; a `null` body and an object without `data` both give `MissingData`; a non-object `data` gives `DataNotObject`; an object `data` is returned as it was decoded. The diff response (lines 77-97) is read the same way. |
| `Client.InterpretApply` | go-mirgrate-directus/go-mirgrate-directus.go:115-126 | Success if and only if a response arrives with status exactly 204. Any other status gives an error with the status and the body. A transport error gives an execute error. |
| `Client.SnapshotExchange` | go-mirgrate-directus/go-mirgrate-directus.go:30-56 | Exactly the snapshot request is sent, and the result is its reply read by `InterpretFetch` for the snapshot operation. |
| `Client.DiffExchange` | go-mirgrate-directus/go-mirgrate-directus.go:66-86 | No request is sent exactly when the snapshot cannot be encoded, and the result is then a marshal error carrying the codec's error. Otherwise exactly one diff request is sent, carrying the encoded snapshot, and the result is its reply read by `InterpretFetch` for the diff operation. |
| `Client.ApplyExchange` | go-mirgrate-directus/go-mirgrate-directus.go:104-123 | No request is sent exactly when the diff cannot be encoded, and that failure is a marshal error. Otherwise exactly one apply request is sent, carrying the encoded diff, and the result is its reply read by `InterpretApply`. |
| `Client.DirectusClient.GetSnapshot` | go-mirgrate-directus/go-mirgrate-directus.go:29-57 | Sends exactly the snapshot request over the client's transport and returns the interpretation of the reply. |
| `Client.DirectusClient.GetDiff` | go-mirgrate-directus/go-mirgrate-directus.go:60-98 | Sends at most the one diff request and returns the diff exchange's result. The log grows by exactly the requests that exchange sends. |
| `Client.DirectusClient.ApplyDiff` | go-mirgrate-directus/go-mirgrate-directus.go:101-127 | Sends at most the one apply request and returns the apply exchange's result. The log grows by exactly the requests that exchange sends. |
| `Errors.Decimal` | go-mirgrate-directus/go-mirgrate-directus.go:44 | A status code is printed as a non-empty string of decimal digits whose value, read most significant digit first, is the code itself, with no leading zero. |
| `Errors.DecimalInjective` | go-mirgrate-directus/go-mirgrate-directus.go:44 | Different status codes print differently. |
| `Errors.Message` | go-mirgrate-directus/go-mirgrate-directus.go:38-123 | The error texts of lines 38, 44, 49, 56, 68, 79, 85, 90, 97, 106, 117 and 123. A rejected request's text starts with the operation, `" request failed with status "` and the printed code followed by `": "`, and ends with the body verbatim. Marshal, execute and decode failures start with `"failed to "` and end with the underlying cause verbatim. A missing or non-object `data` names the operation's response. |
| `Errors.StatusTextInjective` | go-mirgrate-directus/go-mirgrate-directus.go:44 | Two rejected-request texts are equal only when operation, status code and body all are. |
| `Errors.StatusMessageDeterminesError` | go-mirgrate-directus/go-mirgrate-directus.go:42-45 | The text of a rejected-request error determines the operation, the status code and the body. No diagnostic is lost in the message. |
| `Errors.MigrateMessage` | go-mirgrate-directus/go-mirgrate-directus.go:137 | A migration error's text starts with the step label followed by `": "`, and the rest is the cause's own text, unchanged. The labels are those of lines 137, 144 and 150. |
| `Errors.MigrateMessageShowsLabelAndBody` | go-mirgrate-directus/go-mirgrate-directus.go:135-150 | When the cause is a rejected request, the final text starts with the step label and `": "` and ends with the response body verbatim. |
| `Errors.MigrateStatusMessageDeterminesError` | go-mirgrate-directus/go-mirgrate-directus.go:135-150 | Even after wrapping, the final text determines the failed step, the status code and the body. |
| `Migration.MigrateSpec` | go-mirgrate-directus/go-mirgrate-directus.go:130-155 | The requests are always a prefix of [snapshot to base, diff to target, apply to target]. A snapshot failure sends nothing more. A diff failure sends no apply. A diff is sent only after a successful snapshot, and an apply only after a successful diff. Success holds if and only if all three requests went out and the apply was answered with 204. |
| `Migration.Migrate` | go-mirgrate-directus/go-mirgrate-directus.go:130-155 | Over a shared transport, the outcome is the one `MigrateSpec` gives, and the log grows by exactly the requests `MigrateSpec` sends, in that order. |
| `Migration.MigrateForwardsSnapshot` | go-mirgrate-directus/go-mirgrate-directus.go:135-142 | The diff request carries the encoding of exactly the snapshot the base returned. |
| `Migration.MigrateForwardsDiff` | go-mirgrate-directus/go-mirgrate-directus.go:142-149 | The apply request carries the encoding of exactly the diff the target returned. |
| `Migration.MigrateWrapsCause` | go-mirgrate-directus/go-mirgrate-directus.go:135-151 | The snapshot step fails if and only if the snapshot reply fails to interpret, and it carries that error unchanged. After a successful snapshot, the diff request is skipped exactly when the snapshot cannot be encoded, and the error is then the diff step wrapping that encode error. After a successful diff, the apply request is skipped exactly when the diff cannot be encoded, and the error is then the apply step wrapping that encode error. When the diff request went out and its reply fails to interpret, the result is the diff step wrapping that reply's error. When the apply request went out and its reply fails, the result is the apply step wrapping that reply's error. |
| `Migration.MigrateDecidedByApply` | go-mirgrate-directus/go-mirgrate-directus.go:142-154 | Once the base serves a snapshot and the target serves a diff for it, all three requests are sent in order. The outcome is success if the apply reply passes, and otherwise the apply step wrapping that reply's error. |
| `Migration.ScenarioSnapshotRejected` | go-mirgrate-directus/go-mirgrate-directus.go:134-138 | If the base answers 500 "internal error", only the snapshot request is sent. The error is a snapshot-step status error, and its text starts with "failed to get snapshot: " and ends with "internal error". |
| `Migration.ScenarioSuccess` | go-mirgrate-directus/go-mirgrate-directus.go:130-155 | If the snapshot and the diff are served with 200 and the apply is answered with 204, the migration succeeds after exactly the three requests. |
| `Migration.ScenarioApplyConflict` | go-mirgrate-directus/go-mirgrate-directus.go:148-151 | If the apply is answered with 400 `{"error":"conflict"}` after a good snapshot and diff, each request is sent once. The error text starts with "failed to apply diff: " and ends with the body. |

## Left out

- `main.go` is not part of this model: it loads the `.env` file, reads the environment and parses the force flag, then reports the error and exits.
- Request construction failures (`http.NewRequest` rejecting a malformed URL, lines 31-34, 71-74 and 109-112) are not modelled, because URL parsing belongs to the HTTP library. Every request is treated as constructible.
- The real `net/http` client (connections, redirects, timeouts), closing the response body, and the ignored `io.ReadAll` error are not modelled. The transport is an abstract server function, and a response carries its whole body.
- `NewDirectusClient` creates its own `http.Client`. Here the transport is passed to the constructor, and `Migrate` takes one transport shared by both clients, so the order of all requests appears in a single log.
- JSON encoding and decoding are abstract functions that may fail. JSON numbers are reals, without float64 rounding. Bodies are character strings, not bytes.
- The progress lines `Migrate` prints (lines 134-152) are console output and not modelled.
- Client.InterpretFetch: when `data` is present but is not an object, the source panics; the model returns the failure `DataNotObject` instead.
- Errors.Message: follows the source's format strings, except the `DataNotObject` text, which is the model's own because the source panics there. Go's `%w` unwrapping is modelled as the `cause` field of `MigrateError`.
