# Action gateway: a verified model of the request decision chain

The action gateway is a small HTTP service. It accepts `POST /dashboard-action`
with a JSON body `{"action": "cron.run", "cronName": …}` and asks the
`openclaw` job-control tool to list its jobs. It then finds the first job with
that name and runs it by id. It writes an audit line when the listing fails,
and when the run returns normally or exits non-zero; no other outcome is
logged. Every answer is a JSON object `{"ok": …}`.

This project models that behaviour in Dafny:

- `wrappers.dfy` holds `Option` and `Result`.
- `text.dfy` (module `Text`) gives Python's `str.strip()` with the Unicode
  whitespace set that `str.isspace()` uses, `str.split(',')` (empty pieces
  kept) and its inverse `join`, and the prefix slice `s[:n]`.
- `json.dfy` (module `Json`) holds decoded JSON values, Python truthiness
  (`or`, `not`) and `dict.get`.
- `allowlist.dfy` (module `Allowlist`) covers the allowlist read at start-up:
  split on commas, strip each piece, drop empty pieces. An empty allowlist
  allows every name.
- `gateway.dfy` (module `Gateway`) decides everything about one `POST` as a
  pure function, `Handle`. Its inputs are the configuration, the request, and
  what the tool answers to the list and run calls. `Handle` returns a `Trace`:
  - the outcome, which is a response or an exception that escapes the handler;
  - the audit records appended;
  - the tool calls made, in order.

  `Admission` is the part before any tool call (path, bearer token, body,
  action, cron name, allowlist). `Dispatch` and `Execute` are the tool steps.
- `gateway_properties.dfy` (module `GatewayProperties`) holds the lemmas about
  `Handle`:
  - the order of the checks;
  - which outcomes call the tool or write the audit log;
  - how a name resolves to a job and a job id;
  - the 400/200-character excerpts;
  - the shape of every response;
  - worked examples.
- `server.dfy` (module `Server`) holds the handler as a class, `Handler`. Its
  audit log, tool calls and written responses are `seq` fields.
  - `DoPost` runs the checks with early returns, as the handler does.
  - It is proved to append exactly the records, calls and response that
    `Handle` decides.
  - It keeps the invariant that every audit line carries a boolean `ok` and
    an admitted (non-empty, trimmed, allowed) cron name, and that there are
    no more audit lines than tool calls.

The tool calls, the clock and the bytes on the wire are not modelled as code.
The tool's answers are parameters: a `ListOutcome` and a `RunOutcome`. The
request body arrives already decoded: empty, malformed, or a JSON value.

Three Python exceptions in `do_POST` are not caught:
- `data.get` on a JSON body that is not an object;
- `.strip()` on a truthy `cronName` that is not a string;
- `TimeoutExpired`, or any other exception except `CalledProcessError`, from
  the run call.

Two more escape from the lookup at line 78, which iterates `jobs` and calls
`.get` on each item:
- a `jobs` value that cannot be iterated (a number, a boolean or `null`);
- an item without `.get`: a listed entry that is not an object, or a key of a
  non-empty `jobs` object, or a character of a non-empty `jobs` string.

An empty `jobs` object or string yields no items, so it is answered like an
empty list: 404 `cron_not_found`. The model gives each escaping case an
explicit outcome, `Raised(Uncaught)`: nothing is written back and nothing is
logged.

Where the code and the service's documented behaviour disagree, the model follows
the code:
- A run that times out is not caught (only `CalledProcessError` is). It
  therefore writes no audit record and no response. It is not reported as a
  run failure.
- The `list_failed:` error text is logged whole. It is not cut to 400
  characters.
- Methods other than `POST` and `OPTIONS` are answered by the HTTP library's
  default handling (501). The code has no `404` for them.

## Model

| member | source | states |
|---|---|---|
| Text.Strip | action_gateway.py:12 | `str.strip()`: the result has no whitespace at either end, and it is empty exactly when the input is all whitespace |
| Text.StripSlice | action_gateway.py:58 | the stripped text is a slice of the input, and only whitespace is cut from either side |
| Text.StripExact | action_gateway.py:58 | whitespace around a trimmed text is removed exactly, and nothing else is |
| Text.StripIdempotent | action_gateway.py:58 | stripping twice is stripping once, so an already trimmed name is left alone |
| Text.IsSpace | action_gateway.py:12 | the characters `str.isspace()` accepts, which `strip()` removes; stated through `Strip`, `StripSlice` and `StripExact` |
| Text.Split | action_gateway.py:12 | `str.split(',')`: at least one piece, no piece holds a comma, and joining the pieces with commas gives the input back |
| Text.SplitJoin | action_gateway.py:12 | splitting a comma-join of comma-free pieces gives back exactly those pieces, empty ones included |
| Text.Take | action_gateway.py:94-98 | `s[:n]`: a prefix of `s` of length `min(n, len(s))` |
| Text.TakeMonotone | action_gateway.py:97-98 | the 200-character excerpt is a prefix of the 400-character excerpt of the same text |
| Allowlist.Parse | action_gateway.py:12 | every allowlisted name is non-empty, has no outer whitespace and contains no comma; an empty setting gives the empty allowlist |
| Allowlist.ParseMembers | action_gateway.py:12 | a name is in the allowlist exactly when it is non-empty and some comma-separated piece strips to it |
| Allowlist.BlankSettingUnrestricted | action_gateway.py:12 | a setting of only commas and whitespace gives the empty allowlist, which admits every name |
| Allowlist.ParseJoin | action_gateway.py:12 | clean names joined by commas parse to exactly that set of names |
| Allowlist.ParseExample | action_gateway.py:12 | the setting `" backup , ,digest"` gives `{"backup", "digest"}` |
| Gateway.CronName | action_gateway.py:58 | `(data.get("cronName") or "").strip()`: a string value gives its strip, a falsy value gives the empty name, and it raises exactly for a truthy value that is not a string |
| Json.Truthy | action_gateway.py:58-59 | Python truthiness: false exactly for `null`, `false`, zero, the empty string, the empty list and the empty object |
| Json.Get | action_gateway.py:55 | `dict.get`: the stored value for a present key, `None` (falsy) for a missing one |
| Allowlist.Permits | action_gateway.py:62 | an empty allowlist permits every name; a non-empty one permits exactly its members |
| Gateway.Authorized | action_gateway.py:43-45 | without a token every request passes; with one, exactly a header equal to `Bearer <token>` passes |
| Gateway.DecodeBody | action_gateway.py:48-53 | decoding fails exactly for a malformed body; an empty body reads as `{}`, any other body as its decoded value |
| Gateway.JobsOf | action_gateway.py:73 | `.get("jobs", [])`: the listed `jobs` value, or the empty list when the key is missing |
| Gateway.Named | action_gateway.py:78 | `j.get("name") == cron_name` for an object entry; stated by `FirstMatchAt`, `FirstMatchFoundFirst` and `FirstMatchNone` |
| Gateway.FindJob | action_gateway.py:78 | a found job is an object among the listed entries with the requested name; the lookup raises "not iterable" exactly for a number, boolean or `null`; an object or string `jobs` finds nothing exactly when it is empty, and raises otherwise |
| Gateway.ListFailureRecord | action_gateway.py:75 | the list-failure audit line; stated by `ListFailureLogged` |
| Gateway.RunRecord | action_gateway.py:94 | the success audit line; stated by `RunSuccessLogged` |
| Gateway.SuccessPayload | action_gateway.py:95 | the 200 body with the name and id; stated by `RunSuccessLogged` |
| Gateway.RunFailureRecord | action_gateway.py:97 | the run-failure audit line; stated by `RunFailureLogged` |
| Gateway.RunFailurePayload | action_gateway.py:98 | the 500 `cron_run_failed` body with its details; stated by `RunFailureLogged` and `ResponseShape` |
| Gateway.Execute | action_gateway.py:86-98 | the run step makes exactly the run call; it writes one record, naming the cron name, exactly when the run returned or failed with a non-zero exit; it raises exactly on a timeout or a failure to start; a reply is 200 exactly for a successful run |
| Gateway.AuthHeader | action_gateway.py:44 | `headers.get("Authorization", "")`; stated through `Authorized` and `UnauthorizedExactly` |
| Gateway.ErrorPayload | action_gateway.py:41-84 | the error body `{"ok": False, "error": code}`; stated by `ResponseShape` and the refusal lemmas |
| Gateway.Fail | action_gateway.py:41-84 | an error answer with its status; stated by `ResponseShape` and the refusal lemmas |
| Gateway.Admission | action_gateway.py:39-63 | a request passes the checks only on `/dashboard-action` and with a valid token; the name it passes is non-empty, trimmed and allowed |
| Gateway.FirstMatch | action_gateway.py:78 | a found job has the requested name and is one of the listed entries; the scan only raises for an entry that is not an object |
| Gateway.JobId | action_gateway.py:82-84 | `job.get("jobId") or job.get("id")`: a chosen id is truthy |
| Gateway.Dispatch | action_gateway.py:65-98 | an admitted request lists the jobs first, makes at most one more call and writes at most one audit record, and it answers whenever it writes one |
| Gateway.Handle | action_gateway.py:39-98 | one request makes at most two tool calls and writes at most one audit record, and only after a tool call and with a response |
| GatewayProperties.OtherPathNotFound | action_gateway.py:40-41 | any other path gets 404 `not_found` with no tool call and no audit record, whatever the token and body |
| GatewayProperties.UnauthorizedExactly | action_gateway.py:43-46 | the answer is 401 `unauthorized` exactly when the path is right, a token is set and the header is not `Bearer <token>`; then nothing is called or logged |
| GatewayProperties.TokenlessIgnoresHeader | action_gateway.py:43 | without a token, the `Authorization` header does not change anything the handler does |
| GatewayProperties.ToolCalledOnlyWhenAdmitted | action_gateway.py:40-63 | the tool is called exactly when every check passed; a refused request calls nothing and logs nothing; the first call is the job listing |
| GatewayProperties.MalformedBodyInvalid | action_gateway.py:48-53 | an undecodable body is 400 `invalid_json` with no side effects |
| GatewayProperties.EmptyBodyUnsupported | action_gateway.py:50-56 | an empty body is read as `{}` and answered 400 `unsupported_action` |
| GatewayProperties.OtherActionUnsupported | action_gateway.py:55-56 | an action other than the string `cron.run` is 400 `unsupported_action` with no side effects |
| GatewayProperties.BlankCronNameRequired | action_gateway.py:58-60 | a missing, falsy or whitespace-only cron name is 400 `cron_name_required` with no side effects |
| GatewayProperties.BodyNotObjectEscapes | action_gateway.py:55 | a decoded body that is not an object raises at `data.get`: no response, no tool call, no audit record |
| GatewayProperties.CronNameNotStringEscapes | action_gateway.py:58 | a truthy cron name that is not a string raises at `.strip()`: no response, no tool call, no audit record |
| GatewayProperties.AllowlistGate | action_gateway.py:62-63 | after the earlier checks pass, the answer is 403 `cron_not_allowlisted` exactly when the allowlist is non-empty and lacks the name, and then no tool is called |
| GatewayProperties.AdmitsStrippedName | action_gateway.py:55-63 | a valid request whose `cronName` is a string `s` with a non-empty, allowed `s.strip()` is admitted with exactly `s.strip()` |
| GatewayProperties.TrimmedNameUsed | action_gateway.py:58-98 | a request naming `s` is handled exactly like one naming `s.strip()`: the allowlist, the lookup, the audit record and the response all see the trimmed name |
| GatewayProperties.FirstMatchAt | action_gateway.py:78 | the scan returns the first entry with the name when all entries before it are objects without it |
| GatewayProperties.FirstMatchFoundFirst | action_gateway.py:78 | a job the scan returns is the first listed entry with that name |
| GatewayProperties.FirstMatchNone | action_gateway.py:78 | the scan finds nothing exactly when every entry is an object with another name |
| GatewayProperties.NoJobNotFound | action_gateway.py:78-80 | an admitted request gets 404 `cron_not_found` after the list call, with no audit record, exactly when `jobs` is a list of objects none of which has the name, or an empty object or string |
| GatewayProperties.LookupCrashEscapes | action_gateway.py:78 | a lookup that raises ends the request after the list call with that exception, no response and no audit record |
| GatewayProperties.IdSelection | action_gateway.py:82-84 | the job is run with `jobId` when it is truthy, otherwise with `id`; when both are falsy the answer is 500 `cron_id_missing`, with no run and no audit record |
| GatewayProperties.ListFailureLogged | action_gateway.py:74-76 | a failed listing writes one record (`ok` false, the name, an error `list_failed:` plus the reason) and answers 500 `cron_list_failed` with no details |
| GatewayProperties.HandleResolved | action_gateway.py:65-98 | once the name resolves to an id, the request is the list call followed by the run step |
| GatewayProperties.RunSuccessLogged | action_gateway.py:94-95 | a successful run writes one record (`ok` true, the name, the id, the first 400 characters of stdout) and answers 200 with the name and id |
| GatewayProperties.RunFailureLogged | action_gateway.py:96-98 | a failed run writes one record with the first 400 characters of stderr and answers 500 `cron_run_failed`, whose 200-character details are a prefix of the logged stderr |
| GatewayProperties.RunEscapes | action_gateway.py:86-98 | a run that times out, or raises anything but `CalledProcessError`, escapes the handler with that exception, no record and no response |
| GatewayProperties.EscapeLogsNothing | action_gateway.py:39-98 | whenever an exception escapes the handler, the request has written no audit record |
| GatewayProperties.RunOnlyWhenResolved | action_gateway.py:65-93 | the run call happens only on the action path, with a valid token and an allowed name, for the id of the first listed job with that name |
| GatewayProperties.AuditExactlyForToolOutcomes | action_gateway.py:74-98 | an audit record is written exactly when the listing failed, or when a resolved job's run returned normally or with a non-zero exit |
| GatewayProperties.ResponseShape | action_gateway.py:22-27 | every JSON answer has `ok`, true exactly for 200; every error carries the code that goes with its status, and only `cron_run_failed` has details |
| GatewayProperties.ExampleRun | action_gateway.py:39-95 | with no token and no allowlist, `anything` listed with `jobId` `42` is run and answered 200, with one `ok` record |
| GatewayProperties.ExampleNotAllowlisted | action_gateway.py:62-63 | with the allowlist `backup, digest`, a request for `rotate` is refused with 403 and no side effects |
| Server.RecordsWellFormed | action_gateway.py:75-97 | every audit record of a request has a boolean `ok` and the admitted, trimmed, allowed cron name |
| Server.HandleKeepsConsistent | action_gateway.py:39-98 | appending one request's records and calls keeps the log well-formed and no longer than the call history |
| Server.Handler.constructor | action_gateway.py:10-12 | the handler starts with the token and the parsed allowlist, an empty log and no calls or responses |
| Server.Handler.LogAction | action_gateway.py:29-32 | `log_action` appends one line to the end of the audit log |
| Server.Handler.SendJson | action_gateway.py:22-27 | `_json` writes one JSON response with its status |
| Server.Handler.Invoke | action_gateway.py:66-72 | one call of the job-control tool is appended to the call history |
| Server.Handler.DoOptions | action_gateway.py:34-37 | OPTIONS always answers 204 with no body, no token check, no tool call and no audit line |
| Server.Handler.DoPost | action_gateway.py:39-63 | `do_POST` appends exactly the records, tool calls and response that `Handle` decides, returns the exception that escapes, and keeps the log invariant |
| Server.Handler.RunAdmitted | action_gateway.py:65-84 | the list and lookup steps append what `Dispatch` decides |
| Server.Handler.RunResolved | action_gateway.py:86-98 | the run step appends what `Execute` decides |

## Left out

- The HTTP server, threading and `serve_forever` (action_gateway.py:101-104) are I/O and concurrency. Two requests are modelled one after the other, never interleaved.
- The CORS headers (`_cors`) and the status line are left out, and so is the serialisation of payloads with `json.dumps` (key order, number format, escaping). A response is its status and its payload.
- The `ts` time stamp and opening and appending to the log file (action_gateway.py:30-32) are clock and file I/O. An audit record is the payload without `ts`, and the log is a sequence. A failed file write is not modelled.
- Reading the environment for host, port, origin and log path is left out. The token and the allowlist setting are the constructor's arguments.
- The `openclaw` subprocesses are foreign calls. Their outcomes are the parameters `listing` and `run`. Reading the `Content-Length` header and decoding the request body or the tool's stdout with `json.loads` are library code. The model receives the decoded value, or a decoding failure.
- Gateway.Dispatch: the job id is handed to the run call as the JSON value itself. The `str(job_id)` conversion of the command line is not modelled.
- Json.Value: strings are Dafny strings of Unicode scalar values, so a lone surrogate, which `json.loads` produces from `"\ud800"` and `os.getenv` from undecodable bytes, cannot be represented.
- Json.Value: a float is a real, so `NaN` and infinities, which `json.loads` accepts, are not modelled, and neither is the rounding of decimal literals to binary floats.
- Server.Handler.DoPost: two parts of the body are separate methods, `RunAdmitted` for lines 65-84 and `RunResolved` for lines 86-98, so that each proof stays small. The order of steps, the early returns and the side effects are those of the single Python method.
- Requests with any method other than `POST` or `OPTIONS`, `GET` included, get the HTTP library's own 501 answer. They are not part of this model.
