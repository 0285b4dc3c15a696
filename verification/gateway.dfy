/**
 * The decision made for one `POST` request to the action gateway, as a
 * function of the configuration, the request and what the job-control tool
 * answers. The handler runs a fixed chain of checks (path, bearer token,
 * body, action, cron name, allowlist); each either stops with a fixed error
 * response or passes the request on. An admitted request lists the jobs,
 * resolves the name to a job id and runs that job, and records the outcome
 * of those tool calls in the audit log.
 */
module Gateway {
  import opened Wrappers
  import opened Text
  import opened Json
  import Allowlist

  /** The only path a POST is served on. */
  const ActionPath: string := "/dashboard-action"
  /** The only action the gateway performs. */
  const RunAction: string := "cron.run"
  /** The length of tool output copied into an audit record. */
  const AuditExcerpt: nat := 400
  /** The length of tool error output returned to the client. */
  const DetailsExcerpt: nat := 200

  /** The process-wide settings: the bearer token (empty disables auth) and the allowlist (empty allows all). */
  datatype Config = Config(token: string, allowlist: set<string>)

  /**
   * The request body after reading `Content-Length` bytes and decoding them:
   * nothing was sent, the bytes are not UTF-8 JSON (or the length header is
   * not a number), or the decoded value.
   */
  datatype Body = Empty | Malformed | Decoded(value: Value)

  datatype Request = Request(path: string, authorization: Option<string>, body: Body)

  /**
   * What `openclaw cron list --all --json` yields: a failure (non-zero exit,
   * time-out, output that is not a JSON object, a tool that cannot be
   * started) described by the text of the exception, or the decoded object.
   */
  datatype ListOutcome = ListFailed(reason: string) | Listed(output: map<string, Value>)

  /**
   * What `openclaw cron run <id>` yields: normal completion with its
   * standard output, a non-zero exit with its standard error, a time-out, or
   * any other exception from the run call (the tool cannot be started, the
   * id's text holds a NUL, the output is not valid text, ...).
   */
  datatype RunOutcome = RunOk(stdout: string) | RunFailed(stderr: string) | RunTimedOut | RunAborted

  /** An invocation of the job-control tool. */
  datatype ToolCall = ListJobs | RunJob(id: Value)

  /** An exception the handler does not catch: the request gets no response. */
  datatype Uncaught =
    | BodyNotObject      // `data.get` on a decoded value that is not an object
    | CronNameNotString  // `.strip()` on a truthy `cronName` that is not a string
    | JobsNotIterable    // iterating a `jobs` value that is a number, boolean or null
    | JobNotObject       // `j.get` on a listed job that is not an object
    | RunTimeout         // `subprocess.TimeoutExpired` from the run step
    | RunError           // any other exception from the run call

  /** A response: a JSON object with a status code, or a status with no body. */
  datatype Response = JsonReply(status: int, payload: map<string, Value>) | EmptyReply(status: int)

  datatype Outcome = Replied(response: Response) | Raised(error: Uncaught)

  /** An audit log line without its time stamp. */
  type AuditRecord = map<string, Value>

  /** Everything one request does: its outcome, the audit records it appends and the tool calls it makes, in order. */
  datatype Trace = Trace(outcome: Outcome, records: seq<AuditRecord>, calls: seq<ToolCall>)

  /** The result of the checks that precede any tool call: the trimmed cron name, or the outcome that ends the request. */
  datatype Gate = Admit(name: string) | Refuse(outcome: Outcome)

  /** Where a job lookup ends: the first job with the name, no such job, or an exception. */
  datatype Lookup = Found(job: map<string, Value>) | NotFound | Crash(error: Uncaught)

  function ErrorPayload(code: string): map<string, Value>
  {
    map["ok" := Bool(false), "error" := Str(code)]
  }

  function Fail(status: int, code: string): Outcome
  {
    Replied(JsonReply(status, ErrorPayload(code)))
  }

  /** The `Authorization` header, or the empty string when it is absent. */
  function AuthHeader(req: Request): string
  {
    match req.authorization
    case Some(h) => h
    case None => ""
  }

  /** The token check: skipped when no token is configured, otherwise an exact match of `Bearer <token>`. */
  predicate Authorized(cfg: Config, req: Request)
    ensures cfg.token == [] ==> Authorized(cfg, req)
    ensures cfg.token != [] ==> (Authorized(cfg, req) <==> req.authorization == Some("Bearer " + cfg.token))
  {
    cfg.token == [] || AuthHeader(req) == "Bearer " + cfg.token
  }

  /** The decoded body, an empty body standing for `{}`; None when decoding failed. */
  function DecodeBody(body: Body): (data: Option<Value>)
    ensures data.None? <==> body.Malformed?
    ensures body.Empty? ==> data == Some(Object(map[]))
    ensures body.Decoded? ==> data == Some(body.value)
  {
    match body
    case Empty => Some(Object(map[]))
    case Malformed => None
    case Decoded(v) => Some(v)
  }

  /**
   * `(data.get("cronName") or "").strip()`: a falsy or missing value becomes
   * the empty name, a string is stripped, anything else has no `strip`.
   */
  function CronName(fields: map<string, Value>): (r: Result<string, Uncaught>)
    ensures r.Ok? ==> Trimmed(r.value)
    ensures r.Err? <==> Truthy(Get(fields, "cronName")) && !Get(fields, "cronName").Str?
    ensures r.Err? ==> r.error == CronNameNotString
    ensures Get(fields, "cronName").Str? ==> r == Ok(Strip(Get(fields, "cronName").s))
    ensures !Truthy(Get(fields, "cronName")) ==> r == Ok([])
  {
    var v := Get(fields, "cronName");
    if !Truthy(v) then Ok("")
    else if v.Str? then Ok(Strip(v.s))
    else Err(CronNameNotString)
  }

  /**
   * The checks before any tool call, in the handler's order: path, token,
   * body, action, cron name, allowlist. An admitted name is non-empty,
   * trimmed and allowed, and only a request on the action path that passed
   * the token check is admitted.
   */
  function Admission(cfg: Config, req: Request): (a: Gate)
    ensures a.Admit? ==> req.path == ActionPath && Authorized(cfg, req)
    ensures a.Admit? ==> a.name != [] && Trimmed(a.name) && Allowlist.Permits(cfg.allowlist, a.name)
  {
    if req.path != ActionPath then Refuse(Fail(404, "not_found"))
    else if !Authorized(cfg, req) then Refuse(Fail(401, "unauthorized"))
    else match DecodeBody(req.body)
      case None => Refuse(Fail(400, "invalid_json"))
      case Some(data) =>
        if !data.Object? then Refuse(Raised(BodyNotObject))
        else if Get(data.fields, "action") != Str(RunAction) then Refuse(Fail(400, "unsupported_action"))
        else match CronName(data.fields)
          case Err(e) => Refuse(Raised(e))
          case Ok(name) =>
            if name == [] then Refuse(Fail(400, "cron_name_required"))
            else if !Allowlist.Permits(cfg.allowlist, name) then Refuse(Fail(403, "cron_not_allowlisted"))
            else Admit(name)
  }

  /** `.get("jobs", [])` on the listing: the `jobs` value, an empty array when the key is absent. */
  function JobsOf(output: map<string, Value>): (jobs: Value)
    ensures "jobs" in output ==> jobs == output["jobs"]
    ensures "jobs" !in output ==> jobs == Array([])
  {
    if "jobs" in output then output["jobs"] else Array([])
  }

  /** Whether a listed job carries exactly this name. */
  predicate Named(job: Value, name: string)
  {
    job.Object? && Get(job.fields, "name") == Str(name)
  }

  /**
   * `next((j for j in jobs if j.get("name") == name), None)`. Iterating an
   * object yields its keys and iterating a string its characters; neither
   * has `get`, so only an empty one gets through. Numbers, booleans and null
   * are not iterable.
   */
  function FindJob(jobs: Value, name: string): (l: Lookup)
    ensures l.Found? ==> jobs.Array? && Object(l.job) in jobs.items && Get(l.job, "name") == Str(name)
    ensures l == Crash(JobsNotIterable) <==> !(jobs.Array? || jobs.Object? || jobs.Str?)
    ensures jobs.Object? ==> (l == NotFound <==> jobs.fields == map[])
    ensures jobs.Str? ==> (l == NotFound <==> jobs.s == [])
    ensures l.Crash? && jobs.Array? ==> l.error == JobNotObject
  {
    match jobs
    case Array(items) => FirstMatch(items, name)
    case Object(fields) => if fields == map[] then NotFound else Crash(JobNotObject)
    case Str(s) => if s == [] then NotFound else Crash(JobNotObject)
    case _ => Crash(JobsNotIterable)
  }

  /** The lazy scan over a job array: it stops at the first job with the name, or at the first entry that is not an object. */
  function FirstMatch(items: seq<Value>, name: string): (l: Lookup)
    ensures l.Found? ==> Get(l.job, "name") == Str(name) && Object(l.job) in items
    ensures l.Crash? ==> l.error == JobNotObject
  {
    if items == [] then NotFound
    else if !items[0].Object? then Crash(JobNotObject)
    else if Named(items[0], name) then Found(items[0].fields)
    else FirstMatch(items[1..], name)
  }

  /** `job.get("jobId") or job.get("id")`, with the `not job_id` test: None when both are falsy. */
  function JobId(job: map<string, Value>): (id: Option<Value>)
    ensures id.Some? ==> Truthy(id.value)
  {
    var v := if Truthy(Get(job, "jobId")) then Get(job, "jobId") else Get(job, "id");
    if Truthy(v) then Some(v) else None
  }

  function ListFailureRecord(name: string, reason: string): AuditRecord
  {
    map["ok" := Bool(false), "cronName" := Str(name), "error" := Str("list_failed:" + reason)]
  }

  function RunRecord(name: string, id: Value, stdout: string): AuditRecord
  {
    map["ok" := Bool(true), "cronName" := Str(name), "jobId" := id, "stdout" := Str(Take(stdout, AuditExcerpt))]
  }

  function RunFailureRecord(name: string, id: Value, stderr: string): AuditRecord
  {
    map["ok" := Bool(false), "cronName" := Str(name), "jobId" := id, "stderr" := Str(Take(stderr, AuditExcerpt))]
  }

  function SuccessPayload(name: string, id: Value): map<string, Value>
  {
    map["ok" := Bool(true), "cronName" := Str(name), "jobId" := id]
  }

  function RunFailurePayload(stderr: string): map<string, Value>
  {
    map["ok" := Bool(false), "error" := Str("cron_run_failed"), "details" := Str(Take(stderr, DetailsExcerpt))]
  }

  /** The run step for a resolved id: the call, then one audit record and a reply, unless the call raises. */
  function Execute(name: string, id: Value, run: RunOutcome): (t: Trace)
    ensures t.calls == [RunJob(id)]
    ensures t.records != [] <==> run.RunOk? || run.RunFailed?
    ensures |t.records| <= 1
    ensures t.records != [] ==> "cronName" in t.records[0] && t.records[0]["cronName"] == Str(name)
    ensures t.outcome.Raised? <==> run.RunTimedOut? || run.RunAborted?
    ensures t.outcome.Replied? ==>
      (t.outcome.response.JsonReply? && (t.outcome.response.status == 200 <==> run.RunOk?))
  {
    match run
    case RunOk(out) => Trace(Replied(JsonReply(200, SuccessPayload(name, id))), [RunRecord(name, id, out)], [RunJob(id)])
    case RunFailed(err) => Trace(Replied(JsonReply(500, RunFailurePayload(err))), [RunFailureRecord(name, id, err)], [RunJob(id)])
    case RunTimedOut => Trace(Raised(RunTimeout), [], [RunJob(id)])
    case RunAborted => Trace(Raised(RunError), [], [RunJob(id)])
  }

  /** Everything from the list call on, for an admitted name. */
  function Dispatch(name: string, listing: ListOutcome, run: RunOutcome): (t: Trace)
    ensures 1 <= |t.calls| <= 2 && t.calls[0] == ListJobs
    ensures |t.records| <= 1
    ensures t.records != [] ==> t.outcome.Replied?
  {
    var rest := match listing
      case ListFailed(reason) =>
        Trace(Fail(500, "cron_list_failed"), [ListFailureRecord(name, reason)], [])
      case Listed(output) =>
        match FindJob(JobsOf(output), name)
        case Crash(e) => Trace(Raised(e), [], [])
        case NotFound => Trace(Fail(404, "cron_not_found"), [], [])
        case Found(job) =>
          match JobId(job)
          case None => Trace(Fail(500, "cron_id_missing"), [], [])
          case Some(id) => Execute(name, id, run);
    rest.(calls := [ListJobs] + rest.calls)
  }

  /**
   * The whole of `do_POST`. `listing` and `run` are what the tool would
   * answer if asked; whether it is asked shows in the trace's calls.
   */
  function Handle(cfg: Config, req: Request, listing: ListOutcome, run: RunOutcome): (t: Trace)
    ensures |t.records| <= 1
    ensures |t.calls| <= 2
    ensures t.records != [] ==> t.calls != [] && t.outcome.Replied?
  {
    match Admission(cfg, req)
    case Refuse(o) => Trace(o, [], [])
    case Admit(name) => Dispatch(name, listing, run)
  }
}
