/**
 * The request handler as an object with state: the audit log it appends to,
 * the tool invocations it makes and the responses it writes. `DoPost` runs
 * the handler's checks step by step with early returns and is proved to do
 * exactly what `Gateway.Handle` decides; the invariant `Valid` says that
 * every audit line names an admitted cron name and follows a tool call.
 */
module Server {
  import opened Wrappers
  import opened Text
  import opened Json
  import opened Gateway
  import Allowlist

  /**
   * An audit line the handler can write: `ok` is a boolean and `cronName` is
   * a name that passed the checks (non-empty, trimmed, allowed).
   */
  predicate WellFormedRecord(cfg: Config, r: AuditRecord)
  {
    "ok" in r && r["ok"].Bool? &&
    "cronName" in r && r["cronName"].Str? &&
    r["cronName"].s != [] && Trimmed(r["cronName"].s) && Allowlist.Permits(cfg.allowlist, r["cronName"].s)
  }

  /** Every audit record of a request names the admitted cron name and carries `ok`. */
  lemma RecordsWellFormed(cfg: Config, req: Request, listing: ListOutcome, run: RunOutcome)
    ensures forall r :: r in Handle(cfg, req, listing, run).records ==> WellFormedRecord(cfg, r)
  {
    if Admission(cfg, req).Admit? {
      DispatchRecords(Admission(cfg, req).name, listing, run);
    }
  }

  /** The audit records of the tool steps carry a boolean `ok` and the cron name they were given. */
  lemma DispatchRecords(name: string, listing: ListOutcome, run: RunOutcome)
    ensures forall r: AuditRecord :: r in Dispatch(name, listing, run).records ==>
      "ok" in r && r["ok"].Bool? && "cronName" in r && r["cronName"] == Str(name)
  {
    match listing
    case ListFailed(_) =>
    case Listed(output) =>
      match FindJob(JobsOf(output), name)
      case Crash(_) =>
      case NotFound =>
      case Found(job) =>
        match JobId(job)
        case None =>
        case Some(id) => ExecuteRecords(name, id, run);
  }

  lemma ExecuteRecords(name: string, id: Value, run: RunOutcome)
    ensures forall r: AuditRecord :: r in Execute(name, id, run).records ==>
      "ok" in r && r["ok"].Bool? && "cronName" in r && r["cronName"] == Str(name)
  {
  }

  /** An audit log the handler can have written: well-formed lines, no more of them than tool calls. */
  predicate Consistent(cfg: Config, log: seq<AuditRecord>, calls: seq<ToolCall>)
  {
    (forall r :: r in log ==> WellFormedRecord(cfg, r)) && |log| <= |calls|
  }

  /** Appending what one request does to a consistent log and call history keeps them consistent. */
  lemma HandleKeepsConsistent(cfg: Config, log: seq<AuditRecord>, calls: seq<ToolCall>,
                              req: Request, listing: ListOutcome, run: RunOutcome)
    requires Consistent(cfg, log, calls)
    ensures var t := Handle(cfg, req, listing, run);
      Consistent(cfg, log + t.records, calls + t.calls)
  {
    RecordsWellFormed(cfg, req, listing, run);
  }

  /** The response of an outcome, if one is written. */
  function Written(o: Outcome): (rs: seq<Response>)
    ensures |rs| <= 1
    ensures rs != [] <==> o.Replied?
  {
    match o
    case Replied(r) => [r]
    case Raised(_) => []
  }

  /** The exception of an outcome, if one escapes. */
  function Escaped(o: Outcome): (e: Option<Uncaught>)
    ensures e.Some? <==> o.Raised?
  {
    match o
    case Replied(_) => None
    case Raised(err) => Some(err)
  }

  class Handler {
    /** The token and the allowlist, fixed at start-up. */
    const config: Config
    /** The audit log, one record per line, without the time stamp. */
    var auditLog: seq<AuditRecord>
    /** The invocations of the job-control tool, in order. */
    var toolCalls: seq<ToolCall>
    /** The responses written back, in order. */
    var replies: seq<Response>

    ghost predicate Valid()
      reads this
    {
      Consistent(config, auditLog, toolCalls)
    }

    /** A handler configured with a bearer token and the allowlist setting, before any request. */
    constructor (token: string, allowlistSetting: string)
      ensures Valid()
      ensures config == Config(token, Allowlist.Parse(allowlistSetting))
      ensures auditLog == [] && toolCalls == [] && replies == []
    {
      config := Config(token, Allowlist.Parse(allowlistSetting));
      auditLog := [];
      toolCalls := [];
      replies := [];
    }

    /** `log_action`: one more line at the end of the audit log. */
    method LogAction(payload: AuditRecord)
      modifies this`auditLog
      ensures auditLog == old(auditLog) + [payload]
    {
      auditLog := auditLog + [payload];
    }

    /** `_json`: writes a JSON response with its status. */
    method SendJson(status: int, payload: map<string, Value>)
      modifies this`replies
      ensures replies == old(replies) + [JsonReply(status, payload)]
    {
      replies := replies + [JsonReply(status, payload)];
    }

    /** `do_OPTIONS`: always 204 with no body; no token check, no tool call, no audit line. */
    method DoOptions()
      modifies this`replies
      ensures replies == old(replies) + [EmptyReply(204)]
    {
      replies := replies + [EmptyReply(204)];
    }

    /** A tool invocation; its outcome is the input the caller was given. */
    method Invoke(call: ToolCall)
      modifies this`toolCalls
      ensures toolCalls == old(toolCalls) + [call]
    {
      toolCalls := toolCalls + [call];
    }

    /**
     * `do_POST`. `listing` and `run` are what the tool answers when it is
     * asked. The checks run here with early returns; the tool steps continue
     * in RunAdmitted. The handler appends exactly the records, calls and
     * response of `Handle`, keeps `Valid`, and returns the exception that
     * escapes, if any.
     */
    method DoPost(req: Request, listing: ListOutcome, run: RunOutcome) returns (raised: Option<Uncaught>)
      requires Valid()
      modifies this
      ensures Valid()
      ensures var t := Handle(config, req, listing, run);
        auditLog == old(auditLog) + t.records &&
        toolCalls == old(toolCalls) + t.calls &&
        replies == old(replies) + Written(t.outcome) &&
        raised == Escaped(t.outcome)
    {
      ghost var t := Handle(config, req, listing, run);
      ghost var gate := Admission(config, req);
      HandleKeepsConsistent(config, auditLog, toolCalls, req, listing, run);
      assert Consistent(config, auditLog + t.records, toolCalls + t.calls);

      if req.path != ActionPath {
        assert gate == Refuse(Fail(404, "not_found"));
        assert t == Trace(Fail(404, "not_found"), [], []);
        SendJson(404, ErrorPayload("not_found"));
        return None;
      }

      if config.token != [] {
        var auth := AuthHeader(req);
        if auth != "Bearer " + config.token {
          assert gate == Refuse(Fail(401, "unauthorized"));
          assert t == Trace(Fail(401, "unauthorized"), [], []);
          SendJson(401, ErrorPayload("unauthorized"));
          return None;
        }
      }

      var data: Value;
      match DecodeBody(req.body) {
        case None =>
          assert gate == Refuse(Fail(400, "invalid_json"));
          assert t == Trace(Fail(400, "invalid_json"), [], []);
          SendJson(400, ErrorPayload("invalid_json"));
          return None;
        case Some(v) =>
          data := v;
      }

      if !data.Object? {
        assert gate == Refuse(Raised(BodyNotObject));
        assert t == Trace(Raised(BodyNotObject), [], []);
        return Some(BodyNotObject);
      }
      if Get(data.fields, "action") != Str(RunAction) {
        assert gate == Refuse(Fail(400, "unsupported_action"));
        assert t == Trace(Fail(400, "unsupported_action"), [], []);
        SendJson(400, ErrorPayload("unsupported_action"));
        return None;
      }

      var cronName: string;
      match CronName(data.fields) {
        case Err(e) =>
          assert gate == Refuse(Raised(e));
          assert t == Trace(Raised(e), [], []);
          return Some(e);
        case Ok(n) =>
          cronName := n;
      }
      if cronName == [] {
        assert gate == Refuse(Fail(400, "cron_name_required"));
        assert t == Trace(Fail(400, "cron_name_required"), [], []);
        SendJson(400, ErrorPayload("cron_name_required"));
        return None;
      }

      if config.allowlist != {} && cronName !in config.allowlist {
        assert gate == Refuse(Fail(403, "cron_not_allowlisted"));
        assert t == Trace(Fail(403, "cron_not_allowlisted"), [], []);
        SendJson(403, ErrorPayload("cron_not_allowlisted"));
        return None;
      }
      assert gate == Admit(cronName);
      raised := RunAdmitted(cronName, listing, run);
    }

    /**
     * The tool steps of `do_POST` for a name that passed every check: list
     * the jobs, resolve the name to an id, run the job, and log and answer
     * each outcome as `Dispatch` decides.
     */
    method RunAdmitted(cronName: string, listing: ListOutcome, run: RunOutcome) returns (raised: Option<Uncaught>)
      modifies this
      ensures var t := Dispatch(cronName, listing, run);
        auditLog == old(auditLog) + t.records &&
        toolCalls == old(toolCalls) + t.calls &&
        replies == old(replies) + Written(t.outcome) &&
        raised == Escaped(t.outcome)
    {
      ghost var t := Dispatch(cronName, listing, run);
      Invoke(ListJobs);
      var output: map<string, Value>;
      match listing {
        case ListFailed(reason) =>
          LogAction(ListFailureRecord(cronName, reason));
          SendJson(500, ErrorPayload("cron_list_failed"));
          return None;
        case Listed(o) =>
          output := o;
      }

      var job: map<string, Value>;
      match FindJob(JobsOf(output), cronName) {
        case Crash(e) =>
          return Some(e);
        case NotFound =>
          SendJson(404, ErrorPayload("cron_not_found"));
          return None;
        case Found(j) =>
          job := j;
      }

      var jobId: Value;
      match JobId(job) {
        case None =>
          SendJson(500, ErrorPayload("cron_id_missing"));
          return None;
        case Some(id) =>
          jobId := id;
      }

      assert t == Execute(cronName, jobId, run).(calls := [ListJobs, RunJob(jobId)]);
      raised := RunResolved(cronName, jobId, run);
    }

    /** The run step of `do_POST` for a resolved job id: run it, then log and answer as `Execute` decides. */
    method RunResolved(cronName: string, jobId: Value, run: RunOutcome) returns (raised: Option<Uncaught>)
      modifies this
      ensures var t := Execute(cronName, jobId, run);
        auditLog == old(auditLog) + t.records &&
        toolCalls == old(toolCalls) + t.calls &&
        replies == old(replies) + Written(t.outcome) &&
        raised == Escaped(t.outcome)
    {
      Invoke(RunJob(jobId));
      match run {
        case RunOk(out) =>
          LogAction(RunRecord(cronName, jobId, out));
          SendJson(200, SuccessPayload(cronName, jobId));
          return None;
        case RunFailed(err) =>
          LogAction(RunFailureRecord(cronName, jobId, err));
          SendJson(500, RunFailurePayload(err));
          return None;
        case RunTimedOut =>
          return Some(RunTimeout);
        case RunAborted =>
          return Some(RunError);
      }
    }
  }
}
