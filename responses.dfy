/**
 * The gateway's HTTP endpoints: creating and stopping a desk (the
 * Cyberdesk resource), the ready signal that records the stream URL in the
 * database, and the two endpoints that reach into the VM (command
 * execution and the VM health check) through `_proxy_request_to_vm`.
 */
module Responses {
  import opened Wrappers
  import opened Kube
  import opened Phases
  import opened Readiness
  import opened Routing
  import opened Provisioning
  import opened Teardown

  // ---------------------------------------------------------------------
  // Bodies
  // ---------------------------------------------------------------------

  /** A decoded JSON value; numbers are integers in this model. */
  datatype Json = JNull | JBool(b: bool) | JNum(n: int) | JStr(s: string) | JArr(items: seq<Json>) | JObj(fields: map<string, Json>)

  /** Python's truth value of a decoded JSON value. */
  predicate JsonTruthy(j: Json)
  {
    match j
    case JNull => false
    case JBool(b) => b
    case JNum(n) => n != 0
    case JStr(s) => s != ""
    case JArr(items) => items != []
    case JObj(fields) => |fields| > 0
  }

  /** A VM's answer as the proxy helper returns it: parsed JSON, or the raw
      text when it is not JSON. */
  datatype Body = JsonBody(json: Json) | TextBody(text: string)

  // ---------------------------------------------------------------------
  // The proxied call
  // ---------------------------------------------------------------------

  /** How the HTTP exchange with the VM (or the API server's pod proxy)
      ends: an answer with a status code, a timeout, a refused connection,
      or any other failure. On the pod-proxy route `TimedOut` stands for an
      `asyncio.TimeoutError` only: the Kubernetes client's own timeouts are
      urllib3 exceptions, which are `OtherFailure`. */
  datatype Transport = Answered(status: nat, body: Body) | TimedOut | ConnectFailed | OtherFailure

  predicate Success(status: nat)
  {
    200 <= status < 300
  }

  /** In the cluster (`httpx`): `raise_for_status` turns every non-2xx
      answer into an exception that only the generic handler catches (500);
      a timeout is 504, a refused connection 503. */
  function InClusterCall(t: Transport): (r: Result<(nat, Body), int>)
    ensures r.Ok? <==> t.Answered? && Success(t.status)
    ensures r.Ok? ==> r.value == (t.status, t.body)
    ensures r.Err? ==> r.error in {500, 503, 504}
    ensures r.Err? ==> (r.error == 504 <==> t.TimedOut?) && (r.error == 503 <==> t.ConnectFailed?)
  {
    match t
    case Answered(status, body) => if Success(status) then Ok((status, body)) else Err(500)
    case TimedOut => Err(504)
    case ConnectFailed => Err(503)
    case OtherFailure => Err(500)
  }

  /** The mapping of an `ApiException` raised by the pod-proxy call: the
      proxy path missing on the pod is a bad gateway, an unreachable pod
      is unavailable, and everything else (permission errors included) is
      an internal error. */
  function ProxyApiErrorStatus(apiStatus: nat): (code: int)
    ensures code in {500, 502, 503}
    ensures code == 502 <==> apiStatus == 404
    ensures code == 503 <==> apiStatus == 503 || apiStatus == 504
  {
    if apiStatus == 404 then 502
    else if apiStatus == 503 || apiStatus == 504 then 503
    else if apiStatus == 401 || apiStatus == 403 then 500
    else 500
  }

  /** From outside the cluster (the API server's pod proxy): the client
      library raises `ApiException` for every non-2xx answer, which is
      mapped as above; a timeout is 504 and anything else 500. */
  function LocalCall(t: Transport): (r: Result<(nat, Body), int>)
    ensures r.Ok? <==> t.Answered? && Success(t.status)
    ensures r.Ok? ==> r.value == (t.status, t.body)
    ensures r.Err? ==> r.error in {500, 502, 503, 504}
    ensures r.Err? ==> (r.error == 504 <==> t.TimedOut?)
    ensures r.Err? && t.Answered? ==> r.error == ProxyApiErrorStatus(t.status)
  {
    match t
    case Answered(status, body) => if Success(status) then Ok((status, body)) else Err(ProxyApiErrorStatus(status))
    case TimedOut => Err(504)
    case ConnectFailed => Err(500)
    case OtherFailure => Err(500)
  }

  /** The route of the current mode found the VM to call. */
  predicate RouteFound(inCluster: bool, k8sConfigured: bool, cr: CrLookup, vmi: VmiLookup, podList: PodList,
                       port: nat, path: string, httpMethod: string, hasPayload: bool)
  {
    if inCluster then InClusterRequest(k8sConfigured, cr, vmi, port, path).Ok?
    else LocalProxyRequest(k8sConfigured, cr, podList, port, path, httpMethod, hasPayload).Ok?
  }

  /** `_proxy_request_to_vm`: resolve the target in the current mode, then
      make the call. The `transport` is how the call would end. */
  function ProxyToVm(inCluster: bool, k8sConfigured: bool, cr: CrLookup, vmi: VmiLookup, podList: PodList,
                     port: nat, path: string, httpMethod: string, hasPayload: bool, t: Transport): (r: Result<(nat, Body), int>)
    ensures r.Ok? ==> Success(r.value.0)
    ensures r.Err? ==> r.error in {404, 500, 502, 503, 504}
    ensures inCluster && r.Ok? ==> InClusterTarget(cr, vmi, port, path).Ok?
    ensures !inCluster && r.Ok? ==> LocalProxyRequest(k8sConfigured, cr, podList, port, path, httpMethod, hasPayload).Ok?
    ensures !k8sConfigured ==> r == Err(503)
    ensures r.Ok? <==> RouteFound(inCluster, k8sConfigured, cr, vmi, podList, port, path, httpMethod, hasPayload)
                       && t.Answered? && Success(t.status)
    ensures r.Ok? ==> r.value == (t.status, t.body)
    ensures inCluster && InClusterRequest(k8sConfigured, cr, vmi, port, path).Err? ==>
      r == Err(InClusterRequest(k8sConfigured, cr, vmi, port, path).error)
    ensures !inCluster && LocalProxyRequest(k8sConfigured, cr, podList, port, path, httpMethod, hasPayload).Err? ==>
      r == Err(LocalProxyRequest(k8sConfigured, cr, podList, port, path, httpMethod, hasPayload).error)
    ensures RouteFound(inCluster, k8sConfigured, cr, vmi, podList, port, path, httpMethod, hasPayload) && t.TimedOut? ==>
      r == Err(504)
    ensures RouteFound(inCluster, k8sConfigured, cr, vmi, podList, port, path, httpMethod, hasPayload) && t.OtherFailure? ==>
      r == Err(500)
  {
    if inCluster then
      match InClusterRequest(k8sConfigured, cr, vmi, port, path)
      case Err(code) => Err(code)
      case Ok(_) => InClusterCall(t)
    else
      match LocalProxyRequest(k8sConfigured, cr, podList, port, path, httpMethod, hasPayload)
      case Err(code) => Err(code)
      case Ok(_) => LocalCall(t)
  }

  // ---------------------------------------------------------------------
  // The VM endpoints
  // ---------------------------------------------------------------------

  /** What the VM's command endpoint reports. */
  datatype CommandOutput = CommandOutput(args: seq<string>, returnCode: int, stdout: string, stderr: string, durationS: int)

  /** The gateway's answer for a VM endpoint: success with the VM's status
      code, or an error status with, for a VM that answered but not with a
      2xx, the `X-VM-Status-Code` header. */
  datatype VmReply<T> = VmOk(vmStatusCode: nat, value: T) | VmFailed(code: int, vmStatusHeader: Option<string>)

  /** The strings of a JSON array, if every item is one. */
  function Strings(items: seq<Json>): (r: Option<seq<string>>)
    ensures r.Some? ==> |r.value| == |items| && forall i :: 0 <= i < |items| ==> items[i] == JStr(r.value[i])
  {
    if items == [] then Some([])
    else match (items[0], Strings(items[1..]))
      case (JStr(s), Some(rest)) => Some([s] + rest)
      case _ => None
  }

  const CommandKeys: set<string> := {"args", "return_code", "stdout", "stderr", "duration_s"}

  /** The command result the gateway returns: the five fields of the VM's
      JSON object, with the types of the response model; anything else
      (text, another JSON value, a missing or mistyped field) fails. */
  function ParseCommandOutput(body: Body): (r: Option<CommandOutput>)
    ensures r.Some? ==> body.JsonBody? && body.json.JObj? && CommandKeys <= body.json.fields.Keys
  {
    match body
    case TextBody(_) => None
    case JsonBody(json) =>
      if !json.JObj? || !(CommandKeys <= json.fields.Keys) then None
      else
        var f := json.fields;
        match (f["args"], f["return_code"], f["stdout"], f["stderr"], f["duration_s"])
        case (JArr(items), JNum(code), JStr(out), JStr(err), JNum(duration)) =>
          (match Strings(items)
           case Some(args) => Some(CommandOutput(args, code, out, err, duration))
           case None => None)
        case _ => None
  }

  /** The JSON object a VM sends for a command result. */
  function EncodeCommandOutput(o: CommandOutput): Json
  {
    JObj(map["args" := JArr(JStrings(o.args)),
             "return_code" := JNum(o.returnCode),
             "stdout" := JStr(o.stdout),
             "stderr" := JStr(o.stderr),
             "duration_s" := JNum(o.durationS)])
  }

  function JStrings(args: seq<string>): seq<Json>
  {
    if args == [] then [] else [JStr(args[0])] + JStrings(args[1..])
  }

  lemma {:induction false} StringsRoundTrip(args: seq<string>)
    ensures Strings(JStrings(args)) == Some(args)
  {
    if args != [] {
      StringsRoundTrip(args[1..]);
      assert JStrings(args)[1..] == JStrings(args[1..]);
      assert [args[0]] + args[1..] == args;
    }
  }

  /** `Strings` succeeds only on the encoding of the strings it returns. */
  lemma {:induction false} StringsOnlyOfStrings(items: seq<Json>, args: seq<string>)
    requires Strings(items) == Some(args)
    ensures items == JStrings(args)
  {
    if items != [] {
      assert items[0].JStr? && Strings(items[1..]).Some?;
      var rest := Strings(items[1..]).value;
      assert args == [items[0].s] + rest;
      StringsOnlyOfStrings(items[1..], rest);
      assert args[1..] == rest;
      assert items == [items[0]] + items[1..];
    }
  }

  /** Whatever body a command result is read from, each of its five fields
      is the VM's own field: the result encodes back to exactly those
      fields, and keys beyond them are ignored. */
  lemma ParseCommandOutputReadsFields(body: Body, o: CommandOutput)
    requires ParseCommandOutput(body) == Some(o)
    ensures body.JsonBody? && body.json.JObj?
    ensures forall k :: k in CommandKeys ==> k in body.json.fields && body.json.fields[k] == EncodeCommandOutput(o).fields[k]
  {
    var f := body.json.fields;
    assert f["args"].JArr? && Strings(f["args"].items) == Some(o.args);
    StringsOnlyOfStrings(f["args"].items, o.args);
  }

  /** Whatever a VM reports is passed through unchanged. */
  lemma CommandOutputRoundTrip(o: CommandOutput)
    ensures ParseCommandOutput(JsonBody(EncodeCommandOutput(o))) == Some(o)
  {
    var items := JStrings(o.args);
    StringsRoundTrip(o.args);
    var f := EncodeCommandOutput(o).fields;
    assert CommandKeys <= f.Keys;
    assert f["args"] == JArr(items);
    assert f["return_code"] == JNum(o.returnCode);
    assert f["stdout"] == JStr(o.stdout) && f["stderr"] == JStr(o.stderr);
    assert f["duration_s"] == JNum(o.durationS);
  }

  /** `execute_vm_command` once the proxy helper has answered: a 2xx with a
      well-formed result is a success carrying that result; a 2xx without
      one is a 500; any other status is a 502 naming it in the header; a
      proxy error is passed on. */
  function CommandEndpoint(proxied: Result<(nat, Body), int>): (r: VmReply<CommandOutput>)
    ensures r.VmOk? <==> proxied.Ok? && Success(proxied.value.0) && ParseCommandOutput(proxied.value.1).Some?
    ensures r.VmOk? ==> r.vmStatusCode == proxied.value.0 && ParseCommandOutput(proxied.value.1) == Some(r.value)
    ensures r.VmFailed? && r.vmStatusHeader.Some? <==> proxied.Ok? && !Success(proxied.value.0)
    ensures r.VmFailed? && r.vmStatusHeader.Some? ==> r.code == 502 && r.vmStatusHeader == Some(DecimalString(proxied.value.0))
    ensures proxied.Err? ==> r == VmFailed(proxied.error, None)
  {
    match proxied
    case Err(code) => VmFailed(code, None)
    case Ok((status, body)) =>
      if Success(status) then
        match ParseCommandOutput(body)
        case Some(o) => VmOk(status, o)
        case None => VmFailed(500, None)
      else
        VmFailed(502, Some(DecimalString(status)))
  }

  /** `vm_health_check` once the proxy helper has answered. */
  function HealthEndpoint(proxied: Result<(nat, Body), int>): (r: VmReply<string>)
    ensures r.VmOk? <==> proxied.Ok? && Success(proxied.value.0)
    ensures r.VmOk? ==> r.vmStatusCode == proxied.value.0 && r.value == "ok"
    ensures r.VmFailed? && r.vmStatusHeader.Some? <==> proxied.Ok? && !Success(proxied.value.0)
    ensures r.VmFailed? && r.vmStatusHeader.Some? ==> r.code == 502 && r.vmStatusHeader == Some(DecimalString(proxied.value.0))
    ensures proxied.Err? ==> r == VmFailed(proxied.error, None)
  {
    match proxied
    case Err(code) => VmFailed(code, None)
    case Ok((status, _)) =>
      if Success(status) then VmOk(status, "ok")
      else
        VmFailed(502, Some(DecimalString(status)))
  }

  const CommandPort := 8000
  const HealthPort := 8000

  /** The endpoints' own 502-with-`X-VM-Status-Code` branch is never taken
      after a real proxy call: both transports turn a non-2xx answer into an
      error before the endpoint sees it. A command whose VM answers 2xx with
      a well-formed result succeeds, so does a health check answered 2xx. */
  lemma VmStatusHeaderNeverSent(inCluster: bool, k8sConfigured: bool, cr: CrLookup, vmi: VmiLookup, podList: PodList,
                                cmd: Transport, health: Transport)
    ensures var c := CommandEndpoint(ProxyToVm(inCluster, k8sConfigured, cr, vmi, podList, CommandPort, "execute-command", "POST", true, cmd));
      var h := HealthEndpoint(ProxyToVm(inCluster, k8sConfigured, cr, vmi, podList, HealthPort, "health", "GET", false, health));
      && (c.VmFailed? ==> c.vmStatusHeader.None?)
      && (h.VmFailed? ==> h.vmStatusHeader.None?)
      && (c.VmOk? ==> Success(c.vmStatusCode) && cmd.Answered? && cmd.status == c.vmStatusCode)
      && (h.VmOk? ==> Success(h.vmStatusCode) && health.Answered? && health.status == h.vmStatusCode)
  {
  }

  /** With the target found, in the cluster or through the pod proxy, a VM
      answering 2xx (with a well-formed result, for a command) makes both
      endpoints succeed with the VM's status. */
  lemma ReachableVmAnswers(inCluster: bool, cr: CrLookup, vmi: VmiLookup, podList: PodList, o: CommandOutput, status: nat)
    requires inCluster ==> InClusterTarget(cr, vmi, CommandPort, "execute-command").Ok?
    requires !inCluster ==> LocalProxyRequest(true, cr, podList, CommandPort, "execute-command", "POST", true).Ok?
    requires Success(status)
    ensures CommandEndpoint(ProxyToVm(inCluster, true, cr, vmi, podList, CommandPort, "execute-command", "POST", true,
                                      Answered(status, JsonBody(EncodeCommandOutput(o))))) == VmOk(status, o)
    ensures HealthEndpoint(ProxyToVm(inCluster, true, cr, vmi, podList, HealthPort, "health", "GET", false,
                                     Answered(status, TextBody("")))) == VmOk(status, "ok")
  {
    CommandOutputRoundTrip(o);
  }

  // ---------------------------------------------------------------------
  // Creating and stopping a desk
  // ---------------------------------------------------------------------

  const HourMs := 60 * 60 * 1000
  const GatewayDefaultTimeoutMs := 24 * HourMs
  const MinTimeoutMs := 60000

  /** A create request as FastAPI validates it: `timeoutMs` defaults to 24
      hours and must be at least one minute (else 422). */
  function RequestedTimeout(timeoutField: Option<int>): (r: Result<int, int>)
    ensures r.Err? <==> timeoutField.Some? && timeoutField.value < MinTimeoutMs
    ensures r.Err? ==> r.error == 422
    ensures r.Ok? ==> r.value >= MinTimeoutMs
    ensures r.Ok? ==> r.value == (if timeoutField.Some? then timeoutField.value else GatewayDefaultTimeoutMs)
  {
    match timeoutField
    case None => Ok(GatewayDefaultTimeoutMs)
    case Some(t) => if t >= MinTimeoutMs then Ok(t) else Err(422)
  }

  /** The answer of `create_cyberdesk`: the created resource (its name and
      the `spec.timeoutMs` it was given), or an error status. */
  datatype CreateAnswer = Created(id: string, timeoutMs: int) | CreateRefused(code: int)

  /** Create a desk: validation first, then the cluster client, then the
      create call, whose 409 (the name is taken) is passed on and whose
      other errors are 500. */
  function CreateDesk(vmId: string, timeoutField: Option<int>, k8sConfigured: bool, create: ApiResult): (r: CreateAnswer)
    ensures r.Created? <==> RequestedTimeout(timeoutField).Ok? && k8sConfigured && create.ApiOk?
    ensures r.Created? ==> r.id == vmId && r.timeoutMs == RequestedTimeout(timeoutField).value
    ensures r.CreateRefused? ==> r.code in {409, 422, 500, 503}
    ensures r == CreateRefused(409) <==> RequestedTimeout(timeoutField).Ok? && k8sConfigured && create == ApiError(409)
    ensures r == CreateRefused(503) <==> RequestedTimeout(timeoutField).Ok? && !k8sConfigured
  {
    match RequestedTimeout(timeoutField)
    case Err(code) => CreateRefused(code)
    case Ok(t) =>
      if !k8sConfigured then CreateRefused(503)
      else match create
        case ApiOk => Created(vmId, t)
        case ApiError(status) => CreateRefused(if status == 409 then 409 else 500)
  }

  /** A desk created through the gateway always carries its own timeout, so
      the operator's one-hour default never applies to it; once provisioned
      at `start`, the timer deletes it no sooner than a minute later, and
      exactly at `start + timeoutMs`. */
  lemma GatewayDeskLifetime(vmId: string, timeoutField: Option<int>, k8sConfigured: bool, create: ApiResult,
                            st: CreateStatus, obs: Observation, gatewayBase: Option<string>, retry: nat, start: int, now: int)
    requires CreateDesk(vmId, timeoutField, k8sConfigured, create).Created?
    requires vmId != "" && !Provisioned(st)
    requires var t := TimeoutOf(Some(CreateDesk(vmId, timeoutField, k8sConfigured, create).timeoutMs));
      Reconcile(vmId, st, obs, gatewayBase, retry, start, t).outcome == Done
    ensures var t := TimeoutOf(Some(CreateDesk(vmId, timeoutField, k8sConfigured, create).timeoutMs));
      var st' := NewStatus(st, Reconcile(vmId, st, obs, gatewayBase, retry, start, t));
      && t >= MinTimeoutMs
      && t == (if timeoutField.Some? then timeoutField.value else GatewayDefaultTimeoutMs)
      && (TimerDeletes(ExpiryOf(st'), now) <==> now >= start + t)
      && (TimerDeletes(ExpiryOf(st'), now) ==> now >= start + MinTimeoutMs)
  {
    var t := TimeoutOf(Some(CreateDesk(vmId, timeoutField, k8sConfigured, create).timeoutMs));
    FreshDeskLifetime(vmId, st, obs, gatewayBase, retry, start, t, now);
  }

  /** The answer of `stop_cyberdesk`. */
  datatype StopAnswer = Stopping | StopRefused(code: int)

  function StopDesk(k8sConfigured: bool, delete: ApiResult): (r: StopAnswer)
    ensures r.Stopping? <==> k8sConfigured && delete.ApiOk?
    ensures r.StopRefused? ==> r.code in {404, 500, 503}
    ensures r == StopRefused(404) <==> k8sConfigured && delete == ApiError(404)
    ensures r == StopRefused(503) <==> !k8sConfigured
  {
    if !k8sConfigured then StopRefused(503)
    else match delete
      case ApiOk => Stopping
      case ApiError(status) => StopRefused(if status == 404 then 404 else 500)
  }

  // ---------------------------------------------------------------------
  // The ready signal
  // ---------------------------------------------------------------------

  const StreamUrlPrefix := "https://gateway.cyberdesk.io/vnc/"

  function StreamUrl(vmId: string): string
  {
    StreamUrlPrefix + vmId
  }

  /** The stream URL names the instance it was built for. */
  lemma StreamUrlRoundTrip(vmId: string)
    ensures |StreamUrl(vmId)| == |StreamUrlPrefix| + |vmId|
    ensures StreamUrl(vmId)[..|StreamUrlPrefix|] == StreamUrlPrefix
    ensures StreamUrl(vmId)[|StreamUrlPrefix|..] == vmId
  {
    Cut3(StreamUrlPrefix, vmId, "");
  }

  /** The row values the ready signal writes. */
  datatype RowUpdate = RowUpdate(status: string, streamUrl: string)

  function ReadyRowUpdate(vmId: string): RowUpdate
  {
    RowUpdate(DbValue(Running), StreamUrl(vmId))
  }

  /** How the database update ends: it raised, or it returned `data`. */
  datatype DbUpdate = UpdateRaised | UpdateReturned(data: Json)

  /** `update_supabase_instance`'s test: `data` is a non-empty list whose
      first row is truthy. */
  predicate UpdateSucceeded(u: DbUpdate)
  {
    u.UpdateReturned? && u.data.JArr? && u.data.items != [] && JsonTruthy(u.data.items[0])
  }

  /** The answer of `cyberdesk_ready`. */
  datatype ReadyAnswer = Marked(status: string, streamUrl: string) | ReadyFailed(code: int)

  /** The ready endpoint: without a database client 503; otherwise the row
      is updated and the endpoint succeeds with the stream URL exactly when
      the update reports a changed row, and is a 500 otherwise (a raised
      update included). */
  function ReadyEndpoint(vmId: string, supabaseConfigured: bool, update: DbUpdate): (r: ReadyAnswer)
    ensures r.Marked? <==> supabaseConfigured && UpdateSucceeded(update)
    ensures r.Marked? ==> r.streamUrl == StreamUrl(vmId) && r.status == "success"
    ensures r.ReadyFailed? ==> (r.code == 503 <==> !supabaseConfigured) && r.code in {500, 503}
  {
    if !supabaseConfigured then ReadyFailed(503)
    else if UpdateSucceeded(update) then Marked("success", StreamUrl(vmId))
    else ReadyFailed(500)
  }

  /** The ready signal is the only writer of `running`: it writes
      `DbValue(Running)`, a status the phase watcher never derives from a VM
      phase. */
  lemma OnlyReadinessMarksRunning(vmId: string, phase: string)
    ensures ReadyRowUpdate(vmId).status == "running"
    ensures ReadyRowUpdate(vmId).status != DbValue(StatusForPhase(phase))
  {
    DbValueInjective(Running, StatusForPhase(phase));
  }

  /** End to end: when the operator's watcher announces a VMI, the URL it
      POSTs to makes the gateway mark that VMI's instance, with that
      instance's stream URL. */
  lemma ReadyNotificationMarksItsInstance(before: seq<Condition>, after: seq<Condition>, labels: Labels,
                                          gatewayBase: Option<string>, supabaseConfigured: bool, update: DbUpdate)
    requires ReadyNotification(before, after, labels, gatewayBase).Some?
    requires supabaseConfigured && UpdateSucceeded(update)
    ensures var url := ReadyNotification(before, after, labels, gatewayBase).value;
      var id := InstanceOfReadyUrl(gatewayBase.value, url);
      && id == labels[InstanceKey]
      && ReadyEndpoint(id, supabaseConfigured, update) == Marked("success", StreamUrl(labels[InstanceKey]))
      && ReadyRowUpdate(id) == RowUpdate("running", StreamUrl(labels[InstanceKey]))
  {
    NotifiesOnReadyEdge(before, after, labels, gatewayBase);
  }
}
