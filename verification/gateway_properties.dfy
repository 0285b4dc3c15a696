/**
 * What the gateway promises about one request: the order of its checks,
 * which outcomes touch the job-control tool or the audit log, how a cron
 * name is resolved to a job id, and the shape of every response.
 */
module GatewayProperties {
  import opened Wrappers
  import opened Text
  import opened Json
  import Allowlist
  import opened Gateway

  /** The HTTP status that goes with each error code of the gateway's vocabulary. */
  function ErrorStatus(code: string): int
  {
    if code == "not_found" then 404
    else if code == "unauthorized" then 401
    else if code == "invalid_json" then 400
    else if code == "unsupported_action" then 400
    else if code == "cron_name_required" then 400
    else if code == "cron_not_allowlisted" then 403
    else if code == "cron_list_failed" then 500
    else if code == "cron_not_found" then 404
    else if code == "cron_id_missing" then 500
    else if code == "cron_run_failed" then 500
    else 0
  }

  // ---------------------------------------------------------------------
  // The checks before any tool call
  // ---------------------------------------------------------------------

  /** A POST anywhere but the action path is 404 `not_found`, whatever the token, body or tool would say. */
  lemma OtherPathNotFound(cfg: Config, req: Request, listing: ListOutcome, run: RunOutcome)
    requires req.path != ActionPath
    ensures Handle(cfg, req, listing, run) == Trace(Fail(404, "not_found"), [], [])
  {
  }

  /**
   * The answer is 401 `unauthorized` exactly when the path is right, a token
   * is configured and the header is anything but `Bearer <token>`; such a
   * request calls no tool and writes no audit record.
   */
  lemma UnauthorizedExactly(cfg: Config, req: Request, listing: ListOutcome, run: RunOutcome)
    ensures Handle(cfg, req, listing, run).outcome == Fail(401, "unauthorized") <==>
      req.path == ActionPath && cfg.token != [] && AuthHeader(req) != "Bearer " + cfg.token
    ensures Handle(cfg, req, listing, run).outcome == Fail(401, "unauthorized") ==>
      Handle(cfg, req, listing, run).records == [] && Handle(cfg, req, listing, run).calls == []
  {
    var t := Handle(cfg, req, listing, run);
    if Admission(cfg, req).Admit? {
      DispatchStatuses(Admission(cfg, req).name, listing, run);
    }
  }

  /** The statuses the tool steps can answer with. */
  lemma DispatchStatuses(name: string, listing: ListOutcome, run: RunOutcome)
    ensures var o := Dispatch(name, listing, run).outcome;
      o.Replied? ==> o.response.JsonReply? && o.response.status in {200, 404, 500}
  {
  }

  /** Without a configured token the `Authorization` header is never consulted. */
  lemma TokenlessIgnoresHeader(cfg: Config, req: Request, header: Option<string>, listing: ListOutcome, run: RunOutcome)
    requires cfg.token == []
    ensures Handle(cfg, req, listing, run) == Handle(cfg, req.(authorization := header), listing, run)
  {
  }

  /** A request refused before the tool steps calls no tool and writes no audit record; an admitted one lists the jobs first. */
  lemma ToolCalledOnlyWhenAdmitted(cfg: Config, req: Request, listing: ListOutcome, run: RunOutcome)
    ensures Handle(cfg, req, listing, run).calls != [] <==> Admission(cfg, req).Admit?
    ensures Admission(cfg, req).Refuse? ==>
      Handle(cfg, req, listing, run) == Trace(Admission(cfg, req).outcome, [], [])
    ensures Admission(cfg, req).Admit? ==> Handle(cfg, req, listing, run).calls[0] == ListJobs
  {
  }

  /** An undecodable body is 400 `invalid_json`. */
  lemma MalformedBodyInvalid(cfg: Config, req: Request, listing: ListOutcome, run: RunOutcome)
    requires req.path == ActionPath && Authorized(cfg, req) && req.body == Malformed
    ensures Handle(cfg, req, listing, run) == Trace(Fail(400, "invalid_json"), [], [])
  {
  }

  /** An empty body is read as `{}`, which has no action: 400 `unsupported_action`. */
  lemma EmptyBodyUnsupported(cfg: Config, req: Request, listing: ListOutcome, run: RunOutcome)
    requires req.path == ActionPath && Authorized(cfg, req) && req.body == Empty
    ensures Handle(cfg, req, listing, run) == Trace(Fail(400, "unsupported_action"), [], [])
  {
  }

  /** An object whose `action` is anything but the string `cron.run` is 400 `unsupported_action`, whatever its cron name. */
  lemma OtherActionUnsupported(cfg: Config, req: Request, fields: map<string, Value>, listing: ListOutcome, run: RunOutcome)
    requires req.path == ActionPath && Authorized(cfg, req) && req.body == Decoded(Object(fields))
    requires Get(fields, "action") != Str(RunAction)
    ensures Handle(cfg, req, listing, run) == Trace(Fail(400, "unsupported_action"), [], [])
  {
  }

  /** A missing or falsy cron name, or a string of whitespace only, is 400 `cron_name_required`. */
  lemma BlankCronNameRequired(cfg: Config, req: Request, fields: map<string, Value>, listing: ListOutcome, run: RunOutcome)
    requires req.path == ActionPath && Authorized(cfg, req) && req.body == Decoded(Object(fields))
    requires Get(fields, "action") == Str(RunAction)
    requires !Truthy(Get(fields, "cronName")) || (Get(fields, "cronName").Str? && AllSpace(Get(fields, "cronName").s))
    ensures Handle(cfg, req, listing, run) == Trace(Fail(400, "cron_name_required"), [], [])
  {
  }

  /** `data.get` on a decoded body that is not an object raises: no response, no tool call, no audit record. */
  lemma BodyNotObjectEscapes(cfg: Config, req: Request, data: Value, listing: ListOutcome, run: RunOutcome)
    requires req.path == ActionPath && Authorized(cfg, req) && req.body == Decoded(data) && !data.Object?
    ensures Handle(cfg, req, listing, run) == Trace(Raised(BodyNotObject), [], [])
  {
  }

  /** `.strip()` on a truthy cron name that is not a string raises: no response, no tool call, no audit record. */
  lemma CronNameNotStringEscapes(cfg: Config, req: Request, fields: map<string, Value>, listing: ListOutcome, run: RunOutcome)
    requires req.path == ActionPath && Authorized(cfg, req) && req.body == Decoded(Object(fields))
    requires Get(fields, "action") == Str(RunAction)
    requires Truthy(Get(fields, "cronName")) && !Get(fields, "cronName").Str?
    ensures Handle(cfg, req, listing, run) == Trace(Raised(CronNameNotString), [], [])
  {
  }

  /** A non-empty allowlist refuses, with 403 `cron_not_allowlisted`, exactly the names it does not hold. */
  lemma AllowlistGate(cfg: Config, req: Request, fields: map<string, Value>, name: string, listing: ListOutcome, run: RunOutcome)
    requires req.path == ActionPath && Authorized(cfg, req) && req.body == Decoded(Object(fields))
    requires Get(fields, "action") == Str(RunAction) && CronName(fields) == Ok(name) && name != []
    ensures Handle(cfg, req, listing, run).outcome == Fail(403, "cron_not_allowlisted") <==>
      cfg.allowlist != {} && name !in cfg.allowlist
    ensures Handle(cfg, req, listing, run).outcome == Fail(403, "cron_not_allowlisted") ==>
      Handle(cfg, req, listing, run).calls == []
  {
    if Allowlist.Permits(cfg.allowlist, name) {
      DispatchStatuses(name, listing, run);
    }
  }

  /**
   * The cron name is trimmed before anything uses it: a request naming
   * `s` is handled exactly like one naming `s` stripped, so the allowlist
   * test, the name match, the audit records and the response all see the
   * stripped name.
   */
  lemma TrimmedNameUsed(cfg: Config, req: Request, fields: map<string, Value>, s: string, listing: ListOutcome, run: RunOutcome)
    requires req.body == Decoded(Object(fields)) && Get(fields, "cronName") == Str(s)
    ensures Handle(cfg, req, listing, run) ==
      Handle(cfg, req.(body := Decoded(Object(fields["cronName" := Str(Strip(s))]))), listing, run)
  {
    var req' := req.(body := Decoded(Object(fields["cronName" := Str(Strip(s))])));
    StrippedCronName(fields, s);
    AdmissionByFields(cfg, req, fields, fields["cronName" := Str(Strip(s))]);
    HandleByAdmission(cfg, req, req', listing, run);
  }

  /**
   * A request whose cron name is the string `s` and that passes the other
   * checks is admitted under `s` stripped, for every `s` whose stripped form
   * is non-empty and allowed.
   */
  lemma AdmitsStrippedName(cfg: Config, req: Request, fields: map<string, Value>, s: string)
    requires req.path == ActionPath && Authorized(cfg, req) && req.body == Decoded(Object(fields))
    requires Get(fields, "action") == Str(RunAction) && Get(fields, "cronName") == Str(s)
    requires Strip(s) != [] && Allowlist.Permits(cfg.allowlist, Strip(s))
    ensures Admission(cfg, req) == Admit(Strip(s))
  {
  }

  lemma StrippedCronName(fields: map<string, Value>, s: string)
    requires Get(fields, "cronName") == Str(s)
    ensures var fields' := fields["cronName" := Str(Strip(s))];
      Get(fields', "action") == Get(fields, "action") && CronName(fields') == CronName(fields)
  {
    var fields' := fields["cronName" := Str(Strip(s))];
    assert Get(fields', "cronName") == Str(Strip(s));
    if Strip(s) == [] {
      assert CronName(fields') == Ok([]);
      assert CronName(fields) == Ok([]);
    } else {
      StripIdempotent(s);
      assert CronName(fields') == Ok(Strip(s));
    }
  }

  /** Admission reads only the `action` and the cron name of a decoded object. */
  lemma AdmissionByFields(cfg: Config, req: Request, fields: map<string, Value>, fields': map<string, Value>)
    requires req.body == Decoded(Object(fields))
    requires Get(fields', "action") == Get(fields, "action") && CronName(fields') == CronName(fields)
    ensures Admission(cfg, req.(body := Decoded(Object(fields')))) == Admission(cfg, req)
  {
  }

  /** Handle reads the request only through Admission. */
  lemma HandleByAdmission(cfg: Config, req: Request, req': Request, listing: ListOutcome, run: RunOutcome)
    requires Admission(cfg, req) == Admission(cfg, req')
    ensures Handle(cfg, req, listing, run) == Handle(cfg, req', listing, run)
  {
  }

  // ---------------------------------------------------------------------
  // Resolving the name
  // ---------------------------------------------------------------------

  /** The scan finds the job at `i` when it is the first with the name and every entry before it is an object. */
  lemma {:induction false} FirstMatchAt(items: seq<Value>, name: string, i: nat)
    requires i < |items| && Named(items[i], name)
    requires forall j :: 0 <= j < i ==> items[j].Object? && !Named(items[j], name)
    ensures FirstMatch(items, name) == Found(items[i].fields)
  {
    if i > 0 {
      FirstMatchAt(items[1..], name, i - 1);
    }
  }

  /** A job the scan finds is the first entry with the name, and every entry before it is an object. */
  lemma {:induction false} FirstMatchFoundFirst(items: seq<Value>, name: string)
    requires FirstMatch(items, name).Found?
    ensures exists i :: (0 <= i < |items| && items[i] == Object(FirstMatch(items, name).job) && Named(items[i], name) &&
      forall j :: 0 <= j < i ==> items[j].Object? && !Named(items[j], name))
  {
    if !Named(items[0], name) {
      var rest := items[1..];
      assert FirstMatch(items, name) == FirstMatch(rest, name);
      FirstMatchFoundFirst(rest, name);
      var i :| 0 <= i < |rest| && rest[i] == Object(FirstMatch(rest, name).job) && Named(rest[i], name) &&
        forall j :: 0 <= j < i ==> rest[j].Object? && !Named(rest[j], name);
      forall j | 0 <= j < i + 1
        ensures items[j].Object? && !Named(items[j], name)
      {
        if j > 0 { assert items[j] == rest[j - 1]; }
      }
      assert items[i + 1] == rest[i];
    }
  }

  /** The scan finds nothing exactly when every entry is an object without the name. */
  lemma {:induction false} FirstMatchNone(items: seq<Value>, name: string)
    ensures FirstMatch(items, name) == NotFound <==>
      forall j :: 0 <= j < |items| ==> items[j].Object? && !Named(items[j], name)
  {
    if items != [] {
      FirstMatchNone(items[1..], name);
      assert forall j :: 1 <= j < |items| ==> items[j] == items[1..][j - 1];
    }
  }

  /**
   * A `jobs` value in which the scan finds no job of that name and raises
   * nothing: a list of objects none of which has the name, or an empty
   * object or string (which yield no items at all).
   */
  predicate NoJobNamed(jobs: Value, name: string)
  {
    match jobs
    case Array(items) => forall j :: 0 <= j < |items| ==> items[j].Object? && !Named(items[j], name)
    case Object(fields) => fields == map[]
    case Str(s) => s == []
    case _ => false
  }

  /**
   * An admitted request is answered 404 `cron_not_found`, after the list call
   * and with no audit record, exactly when the listing holds no job of that
   * name.
   */
  lemma NoJobNotFound(cfg: Config, req: Request, output: map<string, Value>, run: RunOutcome)
    requires Admission(cfg, req).Admit?
    ensures Handle(cfg, req, Listed(output), run) == Trace(Fail(404, "cron_not_found"), [], [ListJobs])
      <==> NoJobNamed(JobsOf(output), Admission(cfg, req).name)
  {
    var name := Admission(cfg, req).name;
    var jobs := JobsOf(output);
    if jobs.Array? {
      FirstMatchNone(jobs.items, name);
    }
  }

  /**
   * A lookup that raises (a `jobs` value that cannot be iterated, or an item
   * without `get` before any match) ends the request after the list call,
   * with no response and no audit record.
   */
  lemma LookupCrashEscapes(cfg: Config, req: Request, output: map<string, Value>, run: RunOutcome)
    requires Admission(cfg, req).Admit? && FindJob(JobsOf(output), Admission(cfg, req).name).Crash?
    ensures Handle(cfg, req, Listed(output), run)
      == Trace(Raised(FindJob(JobsOf(output), Admission(cfg, req).name).error), [], [ListJobs])
  {
  }

  /** The id is `jobId` when truthy and otherwise `id`; when both are falsy the answer is 500 `cron_id_missing`, with no audit record. */
  lemma IdSelection(cfg: Config, req: Request, output: map<string, Value>, run: RunOutcome)
    requires Admission(cfg, req).Admit? && FindJob(JobsOf(output), Admission(cfg, req).name).Found?
    ensures var job := FindJob(JobsOf(output), Admission(cfg, req).name).job;
      var t := Handle(cfg, req, Listed(output), run);
      (Truthy(Get(job, "jobId")) ==> |t.calls| == 2 && t.calls[1] == RunJob(Get(job, "jobId"))) &&
      (!Truthy(Get(job, "jobId")) && Truthy(Get(job, "id")) ==> |t.calls| == 2 && t.calls[1] == RunJob(Get(job, "id"))) &&
      (!Truthy(Get(job, "jobId")) && !Truthy(Get(job, "id")) ==> t == Trace(Fail(500, "cron_id_missing"), [], [ListJobs]))
  {
  }

  // ---------------------------------------------------------------------
  // The tool steps: audit records and responses
  // ---------------------------------------------------------------------

  /**
   * A failed list call writes one audit record, `ok` false with an error
   * tagged `list_failed:`, and answers 500 `cron_list_failed` without
   * details.
   */
  lemma ListFailureLogged(cfg: Config, req: Request, reason: string, run: RunOutcome)
    requires Admission(cfg, req).Admit?
    ensures var t := Handle(cfg, req, ListFailed(reason), run);
      t.calls == [ListJobs] && |t.records| == 1 &&
      t.records[0]["ok"] == Bool(false) &&
      t.records[0]["cronName"] == Str(Admission(cfg, req).name) &&
      t.records[0]["error"] == Str("list_failed:" + reason) &&
      t.outcome.Replied? && t.outcome.response.JsonReply? && t.outcome.response.status == 500 &&
      t.outcome.response.payload["error"] == Str("cron_list_failed") &&
      "details" !in t.outcome.response.payload
  {
  }

  /** The job the run step is about, when the listing resolves the admitted name to an id. */
  predicate ResolvesTo(cfg: Config, req: Request, listing: ListOutcome, id: Value)
  {
    Admission(cfg, req).Admit? && listing.Listed? &&
    FindJob(JobsOf(listing.output), Admission(cfg, req).name).Found? &&
    JobId(FindJob(JobsOf(listing.output), Admission(cfg, req).name).job) == Some(id)
  }

  /** Once the name resolves to an id, the request is the list call followed by the run step. */
  lemma HandleResolved(cfg: Config, req: Request, listing: ListOutcome, id: Value, run: RunOutcome)
    requires ResolvesTo(cfg, req, listing, id)
    ensures var e := Execute(Admission(cfg, req).name, id, run);
      Handle(cfg, req, listing, run) == e.(calls := [ListJobs] + e.calls)
  {
  }

  /**
   * A successful run writes one audit record with `ok` true, the job id and
   * at most 400 characters of the output, and answers 200 with the name and
   * the job id.
   */
  lemma RunSuccessLogged(cfg: Config, req: Request, listing: ListOutcome, id: Value, out: string)
    requires ResolvesTo(cfg, req, listing, id)
    ensures var t := Handle(cfg, req, listing, RunOk(out));
      var name := Admission(cfg, req).name;
      t.calls == [ListJobs, RunJob(id)] && |t.records| == 1 &&
      t.records[0]["ok"] == Bool(true) && t.records[0]["cronName"] == Str(name) &&
      t.records[0]["jobId"] == id &&
      t.records[0]["stdout"] == Str(Take(out, AuditExcerpt)) && |Take(out, AuditExcerpt)| <= 400 &&
      t.outcome == Replied(JsonReply(200, map["ok" := Bool(true), "cronName" := Str(name), "jobId" := id]))
  {
    HandleResolved(cfg, req, listing, id, RunOk(out));
  }

  /**
   * A run that exits non-zero writes one audit record with `ok` false and
   * at most 400 characters of its error output, and answers 500
   * `cron_run_failed` whose details, at most 200 characters of the same
   * error output, are a prefix of what was logged.
   */
  lemma RunFailureLogged(cfg: Config, req: Request, listing: ListOutcome, id: Value, err: string)
    requires ResolvesTo(cfg, req, listing, id)
    ensures var t := Handle(cfg, req, listing, RunFailed(err));
      t.calls == [ListJobs, RunJob(id)] && |t.records| == 1 &&
      t.records[0]["ok"] == Bool(false) && t.records[0]["jobId"] == id &&
      t.records[0]["stderr"] == Str(Take(err, AuditExcerpt)) &&
      t.outcome.Replied? && t.outcome.response.JsonReply? && t.outcome.response.status == 500 &&
      t.outcome.response.payload["error"] == Str("cron_run_failed") &&
      t.outcome.response.payload["details"] == Str(Take(err, DetailsExcerpt)) &&
      |Take(err, DetailsExcerpt)| <= 200 && Take(err, DetailsExcerpt) <= Take(err, AuditExcerpt)
  {
    TakeMonotone(err, DetailsExcerpt, AuditExcerpt);
    HandleResolved(cfg, req, listing, id, RunFailed(err));
  }

  /** A run that times out or raises any other exception escapes the handler: no audit record and no response. */
  lemma RunEscapes(cfg: Config, req: Request, listing: ListOutcome, id: Value, run: RunOutcome)
    requires ResolvesTo(cfg, req, listing, id) && (run.RunTimedOut? || run.RunAborted?)
    ensures var t := Handle(cfg, req, listing, run);
      t.calls == [ListJobs, RunJob(id)] && t.records == [] &&
      t.outcome == Raised(if run.RunTimedOut? then RunTimeout else RunError)
  {
  }

  /** Whatever escapes the handler, nothing was logged for that request. */
  lemma EscapeLogsNothing(cfg: Config, req: Request, listing: ListOutcome, run: RunOutcome)
    ensures var t := Handle(cfg, req, listing, run);
      t.outcome.Raised? ==> t.records == []
  {
  }

  /**
   * The job-run call is made only for a request on the action path that
   * passed the token check, for an allowed name, and with the id of the
   * first listed job of that name.
   */
  lemma RunOnlyWhenResolved(cfg: Config, req: Request, listing: ListOutcome, run: RunOutcome, id: Value)
    requires RunJob(id) in Handle(cfg, req, listing, run).calls
    ensures req.path == ActionPath && Authorized(cfg, req)
    ensures ResolvesTo(cfg, req, listing, id)
    ensures Allowlist.Permits(cfg.allowlist, Admission(cfg, req).name)
  {
  }

  /**
   * An audit record is written exactly when the list call failed or the run
   * call returned (successfully or with a non-zero exit); then it is the
   * only one and a response is sent.
   */
  lemma AuditExactlyForToolOutcomes(cfg: Config, req: Request, listing: ListOutcome, run: RunOutcome)
    ensures var t := Handle(cfg, req, listing, run);
      t.records != [] <==>
        Admission(cfg, req).Admit? &&
        (listing.ListFailed? || ((exists id :: ResolvesTo(cfg, req, listing, id)) && (run.RunOk? || run.RunFailed?)))
  {
    var t := Handle(cfg, req, listing, run);
    if Admission(cfg, req).Admit? && listing.Listed? {
      var lookup := FindJob(JobsOf(listing.output), Admission(cfg, req).name);
      if lookup.Found? && JobId(lookup.job).Some? {
        assert ResolvesTo(cfg, req, listing, JobId(lookup.job).value);
      }
    }
  }

  /**
   * Every JSON response has a boolean `ok` that is true exactly for 200;
   * every other response carries an error code whose status is the one the
   * vocabulary gives it, and only `cron_run_failed` carries details.
   */
  lemma ResponseShape(cfg: Config, req: Request, listing: ListOutcome, run: RunOutcome)
    ensures var o := Handle(cfg, req, listing, run).outcome;
      o.Replied? ==> WellShaped(o.response)
  {
    match Admission(cfg, req)
    case Refuse(o) => AdmissionShape(cfg, req);
    case Admit(name) => DispatchShape(name, listing, run);
  }

  /** The response shape promised by ResponseShape. */
  predicate WellShaped(r: Response)
  {
    r.JsonReply? &&
    var status, payload := r.status, r.payload;
    "ok" in payload && payload["ok"] == Bool(status == 200) &&
    (status == 200 ==> "error" !in payload) &&
    (status != 200 ==>
      "error" in payload && payload["error"].Str? && ErrorStatus(payload["error"].s) == status &&
      ("details" in payload <==> payload["error"] == Str("cron_run_failed")))
  }

  lemma ErrorShape(status: int, code: string)
    requires status != 200 && ErrorStatus(code) == status && code != "cron_run_failed"
    ensures WellShaped(JsonReply(status, ErrorPayload(code)))
  {
  }

  lemma AdmissionShape(cfg: Config, req: Request)
    ensures var a := Admission(cfg, req);
      a.Refuse? && a.outcome.Replied? ==> WellShaped(a.outcome.response)
  {
    ErrorShape(404, "not_found");
    ErrorShape(401, "unauthorized");
    ErrorShape(400, "invalid_json");
    ErrorShape(400, "unsupported_action");
    ErrorShape(400, "cron_name_required");
    ErrorShape(403, "cron_not_allowlisted");
  }

  lemma DispatchShape(name: string, listing: ListOutcome, run: RunOutcome)
    ensures var o := Dispatch(name, listing, run).outcome;
      o.Replied? ==> WellShaped(o.response)
  {
    match listing
    case ListFailed(_) => ErrorShape(500, "cron_list_failed");
    case Listed(output) =>
      match FindJob(JobsOf(output), name)
      case Crash(_) =>
      case NotFound => ErrorShape(404, "cron_not_found");
      case Found(job) =>
        match JobId(job)
        case None => ErrorShape(500, "cron_id_missing");
        case Some(id) => ExecuteShape(name, id, run);
  }

  lemma ExecuteShape(name: string, id: Value, run: RunOutcome)
    ensures var o := Execute(name, id, run).outcome;
      o.Replied? ==> WellShaped(o.response)
  {
    if run.RunFailed? {
      assert ErrorStatus("cron_run_failed") == 500;
    }
  }

  // ---------------------------------------------------------------------
  // Worked examples
  // ---------------------------------------------------------------------

  /** The job `anything` with id `42` is run and reported with 200, and one `ok` record is logged. */
  lemma ExampleRun(name: string, id: string, req: Request, listing: ListOutcome, out: string)
    requires name == "anything" && id == "42"
    requires req == Request(ActionPath, None, Decoded(Object(map["action" := Str(RunAction), "cronName" := Str(name)])))
    requires listing == Listed(map["jobs" := Array([Object(map["name" := Str(name), "jobId" := Str(id)])])])
    ensures var t := Handle(Config("", {}), req, listing, RunOk(out));
      t.calls == [ListJobs, RunJob(Str(id))] &&
      t.outcome == Replied(JsonReply(200, map["ok" := Bool(true), "cronName" := Str(name), "jobId" := Str(id)])) &&
      |t.records| == 1 && t.records[0]["ok"] == Bool(true)
  {
    var cfg := Config("", {});
    ExampleAdmits(cfg, name, req);
    ExampleResolves(cfg, name, id, req, listing);
    RunSuccessLogged(cfg, req, listing, Str(id), out);
  }

  lemma ExampleAdmits(cfg: Config, name: string, req: Request)
    requires name == "anything" && cfg == Config("", {})
    requires req == Request(ActionPath, None, Decoded(Object(map["action" := Str(RunAction), "cronName" := Str(name)])))
    ensures Admission(cfg, req) == Admit(name)
  {
    var fields := map["action" := Str(RunAction), "cronName" := Str(name)];
    ExampleFields(name, fields);
    AdmitsStrippedName(cfg, req, fields, name);
  }

  /** The body `{"action": "cron.run", "cronName": name}` for a trimmed, non-empty name. */
  lemma ExampleFields(name: string, fields: map<string, Value>)
    requires name != [] && Trimmed(name)
    requires fields == map["action" := Str(RunAction), "cronName" := Str(name)]
    ensures Get(fields, "action") == Str(RunAction) && CronName(fields) == Ok(name)
  {
    StripExact([], name, []);
    assert [] + name + [] == name;
  }

  lemma ExampleResolves(cfg: Config, name: string, id: string, req: Request, listing: ListOutcome)
    requires Admission(cfg, req) == Admit(name)
    requires listing == Listed(map["jobs" := Array([Object(map["name" := Str(name), "jobId" := Str(id)])])])
    requires id != []
    ensures ResolvesTo(cfg, req, listing, Str(id))
  {
    var job := map["name" := Str(name), "jobId" := Str(id)];
    FirstMatchAt([Object(job)], name, 0);
    assert JobsOf(listing.output) == Array([Object(job)]);
    assert JobId(job) == Some(Str(id));
  }

  /** With the allowlist `backup, digest`, a request for `rotate` is refused with 403 before any tool call. */
  lemma ExampleNotAllowlisted(name: string, req: Request, listing: ListOutcome, run: RunOutcome)
    requires name == "rotate"
    requires req == Request(ActionPath, None, Decoded(Object(map["action" := Str(RunAction), "cronName" := Str(name)])))
    ensures Handle(Config("", {"backup", "digest"}), req, listing, run) == Trace(Fail(403, "cron_not_allowlisted"), [], [])
  {
    var cfg := Config("", {"backup", "digest"});
    var fields := map["action" := Str(RunAction), "cronName" := Str(name)];
    ExampleFields(name, fields);
    assert name !in cfg.allowlist;
    AllowlistGate(cfg, req, fields, name, listing, run);
  }
}
