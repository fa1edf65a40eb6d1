# Set-password pipeline of the OpenSlides manage service

This project models the `set-password` operation of the manage service
(`pkg/manage/set_password.go`). The operation resets one user's password in
two upstream calls:

1. It asks the auth service to hash the plaintext. The request is a POST of
   `{"toHash": "<password>"}` to the path `/internal/auth/hash`.
2. It writes the returned hash into the user's `password` field. The request is a
   POST of a datastore write envelope to the path `/internal/datastore/writer/write`.
   The envelope has one `update` event on `user/<id>`.

The write step runs only after the hash step returned a hash. It gets exactly
that hash. A failure of either step is wrapped with `hash password: ` or
`set password: ` and ends the operation.

Modules, leaves first:

- `Decimal` (`decimal.dfy`): Go's `%d` rendering of an integer, and a strict
  parser that accepts exactly those renderings.
- `Wire` (`wire.dfy`): the two path constants and the URL path replacement.
  It also holds both request bodies, built by plain interpolation as the Go
  code builds them. Each body has a parser that reads the caller's text back
  out. The write body also has a typed view: an envelope datatype with its
  unescaped rendering, which is valid JSON only when the hash needs no escaping.
- `Upstream` (`upstream.dfy`): `hashPassword` and `setPassword`. The HTTP
  exchange is an input: a service is a function from a request to what came
  of sending it (request not built, not sent, or answered with status code,
  status line and body stream). The JSON decoder of the hash reply is also an
  input.
  This module holds the 2xx test, the `[can not read body]` placeholder and
  the wording of every error.
- `Orchestrator` (`orchestrator.dfy`): `Server.SetPassword` as a pure
  function. It returns the outcome and the ordered list of requests handed to
  the HTTP client. The module also restates the operation as the state
  machine Idle → Hashing → Writing(hash) → Done, with Halted reachable from
  both steps. Lemmas show that the state machine and the function agree.

Three behaviours of the code that a reader might not expect:

- An empty hash is written. A 2xx hash reply without a `hash` member decodes
  to the empty string without error, and nothing checks the hash before the
  write. `Orchestrator.EmptyHashIsWritten` shows this for any upstreams.
- A 2xx reply without `hash` is not a decode error. Whether decoding fails is
  up to `encoding/json`, which here is the `decode` input. That decoder reads
  the body stream itself and stops after the first JSON value.
- Bodies are not JSON-escaped. The password and the hash are interpolated
  verbatim. `Wire.HashBodyFirstQuote` shows one effect: the first `"`
  character after the value's opening quote is the password's own first `"`.

## Model

| member | source | states |
|---|---|---|
| `Decimal.ParseFormatInverse` | pkg/manage/set_password.go:105 | A string parses to `n` exactly when it is the `%d` rendering of `n`: minus sign for negatives, no leading zeros. |
| `Decimal.FormatIntRoundTrip` | pkg/manage/set_password.go:105 | Parsing the `%d` rendering of any integer gives that integer back. |
| `Decimal.FormatIntInjective` | pkg/manage/set_password.go:105 | Different user ids render to different digit strings. |
| `Decimal.FormatInt` | pkg/manage/set_password.go:105 | The rendering is non-empty, uses only digits and `-`, and starts with `-` exactly for negative ids. |
| `Wire.HashRequestBody` | pkg/manage/set_password.go:73 | The body starts with the 12-character head `{"toHash": "` and ends with the tail `"}`. The password occupies the positions between them, unchanged, so the body is exactly 14 characters longer than the password. |
| `Wire.HashBodyInverse` | pkg/manage/set_password.go:73 | A text is the hash request body of `p` exactly when cutting off the fixed head and tail gives `p`, so the body determines the password and vice versa. |
| `Wire.HashBodyFirstQuote` | pkg/manage/set_password.go:73 | No escaping: the first `"` character after the opening quote of the `toHash` value is the password's own first `"` character, and it is the template's closing `"` only when the password has none. Backslash escapes, which also decide where a JSON reader ends the value, are not covered. |
| `Wire.HashRequest` | pkg/manage/set_password.go:73-80 | The hash request is a JSON POST. Its path is `/internal/auth/hash`. Every other part of the configured auth address is kept. Its body reads back to the password. |
| `Wire.FqidInverse` | pkg/manage/set_password.go:105 | The text after `user/` in the fqid parses back to the user id, and only the id's own rendering does. |
| `Wire.WriteRequestBody` | pkg/manage/set_password.go:105 | The write body starts with the fixed envelope head and ends with the fixed tail `"}}]}`. The hash stands, unchanged, right before that tail. |
| `Wire.WriteBodyInverse` | pkg/manage/set_password.go:105 | A text is the write body for `(id, hash)` exactly when reading it back gives that id and that hash. The id's digits end at the first quote, and the hash is everything between the fixed middle and tail. |
| `Wire.WriteBodyIsPasswordEnvelope` | pkg/manage/set_password.go:105 | The interpolated body is the unescaped rendering `RenderEnvelope` of the typed envelope (valid JSON only when the hash needs no escaping): `user_id` 0, empty `information` and `locked_fields`, and one `update` event on `user/<id>` whose only field is `password` = hash. |
| `Wire.WriteRequest` | pkg/manage/set_password.go:105-112 | The write request is a JSON POST. Its path is `/internal/datastore/writer/write`. Every other part of the configured writer address is kept. Its body reads back to the id and the hash. |
| `Upstream.Message` | pkg/manage/set_password.go:78-124 | Each error message ends with what it wraps, unchanged: the cause for a creation, sending or decoding error, the quoted body for a status error. |
| `Upstream.MessageDeterminesError` | pkg/manage/set_password.go:78-124 | Two errors of one service with the same message have the same kind. They are the same error unless both are status errors, and status errors with the same status line are the same too. |
| `Upstream.Screen` | pkg/manage/set_password.go:76-125 | A call gets past the exchange exactly when a response came back with a status in [200,300). The body is then handed on. |
| `Upstream.HashPassword` | pkg/manage/set_password.go:72-102 | The hash step returns the decoder's hash exactly on a 2xx reply that the decoder accepts. The decoder is given the body stream, including a read error after the text it delivered. A refused status gives the status line and quoted body. Transport and construction failures give their own errors. On a 2xx, every failure is a decode error carrying the decoder's cause. Only an unbuilt request is never handed to the HTTP client. |
| `Upstream.WritePassword` | pkg/manage/set_password.go:104-128 | The write step succeeds exactly on a 2xx reply, whatever its body. A refused status gives the status line and quoted body. Only an unbuilt request is never handed to the HTTP client. |
| `Upstream.StatusMessageShape` | pkg/manage/set_password.go:87-124 | A refused status always produces an error. Its message is `<service> returned <status line>: <quoted body>`. |
| `Upstream.MessageNamesKind` | pkg/manage/set_password.go:78-124 | Whatever the cause text, the leading words of each error message tell which kind of failure it reports: request creation, sending, status, or decoding. |
| `Orchestrator.RefusedHashReported` | pkg/manage/set_password.go:87-92 | For any upstreams where the auth service refuses the status, the run fails with `hash password: auth service returned <status line>: <body>`, and the body is `[can not read body]` when it could not be read. |
| `Orchestrator.RefusedWriteReported` | pkg/manage/set_password.go:119-124 | For any upstreams where the hash step succeeds and the writer refuses the status, the run fails with `set password: datastore writer service returned <status line>: <body>`, and the body is `[can not read body]` when it could not be read. |
| `Orchestrator.ErrorMessage` | pkg/manage/set_password.go:62-66 | The returned error is the failed step's context (`hash password: ` or `set password: `) followed by the upstream error's own message. |
| `Orchestrator.SetPassword` | pkg/manage/set_password.go:59-69 | At most two requests are sent. Every request to the datastore writer follows a successful hash step and carries exactly that step's hash for the user's id. A success sent both requests. |
| `Orchestrator.HashFailureStopsRun` | pkg/manage/set_password.go:60-63 | Whenever the hash step fails, the run fails at that step with a message starting `hash password: `. At most one request, the hash request, was sent, and the writer is never called. |
| `Orchestrator.WriteFailureReported` | pkg/manage/set_password.go:65-67 | When hashing succeeds but the writer does not return a 2xx, the run fails at the write step with a message starting `set password: `. It carries the writer's status and body, or the transport error. The auth service comes first, and each service is called at most once. |
| `Orchestrator.SuccessWritesReturnedHash` | pkg/manage/set_password.go:60-68 | A successful run (by `SuccessIff`, exactly when both upstreams accept) answers with the empty `SetPasswordResponse`. The hash request goes first. The write request goes to the write path and its body names the user id and the hash the auth service returned, verbatim. |
| `Orchestrator.SuccessIff` | pkg/manage/set_password.go:59-69 | The operation succeeds exactly when the hash reply is a decodable 2xx and the writer's reply is a 2xx. |
| `Orchestrator.EmptyHashIsWritten` | pkg/manage/set_password.go:95-101 | For any upstreams whose hash step returns the empty string, which is what a reply without `hash` gives, every write request names the user id and the empty hash. The writer is called whenever its request can be built, and the run succeeds exactly when the writer answers 2xx. |
| `Orchestrator.AdminForUserSeven` | pkg/manage/set_password.go:73-105 | Setting `admin` for user 7 with hash reply `H1`: the hash body carries `admin`, and the write body targets `user/7` with password `H1`. |
| `Orchestrator.StepsReachable` | pkg/manage/set_password.go:59-69 | In every reachable state of the state machine, Writing holds only the hash step's own hash, and every write request carries that hash. At most two requests are sent. |
| `Orchestrator.MachineAgrees` | pkg/manage/set_password.go:59-69 | Three transitions from Idle always end in Done or Halted, which then stay put. They agree with `SetPassword` on the outcome and on the requests sent. |

## Left out

- `CmdSetPassword` (lines 26-56): command-line flags, their defaults, `Dial` and the command's timeout are process plumbing.
- The HTTP exchanges themselves (`http.NewRequestWithContext`, `http.DefaultClient.Do`, `io.ReadAll`) are network I/O. They are the `Exchange` inputs. The `Content-Type` header is a field of the modelled request. The response body is never closed in the code, and that is not modelled.
- Deadlines and context cancellation are runtime behaviour. A cancelled or expired context shows up as a request that was not sent (`NotSent`). After a response arrived, it shows up as a body that could not be read (`Unreadable`), which gives the `[can not read body]` placeholder in a status error or a decode failure of the hash reply.
- JSON decoding of the hash reply (line 98) belongs to `encoding/json`. It is the `decode` input. It is given the whole body stream (the text delivered and any read error after it), so where `json.Decoder` stops reading is up to that input.
- `cfg.AuthURL()` and `cfg.DatastoreWriterURL()` are defined elsewhere; `ServerConfig` is not part of this model. Their results are the two `Url` values of `Config`. `Url` keeps only scheme, host, path and query. Other `url.URL` fields and `URL.String()` are not modelled.
- `resp.Status`, the status line, is an input string next to the status code. How Go derives it is not modelled.
- `Orchestrator.GoInt`: `int(in.UserID)` is taken as a 64-bit platform's identity conversion. A 32-bit `int` truncation is not modelled.
- Strings are sequences of characters. The bytes of a response body and Go's UTF-8 strings are not distinguished.
