/**
 * How the gateway finds the machine behind an instance id: the Cyberdesk
 * resource names its VM (`virtualMachineRef`); in the cluster the VM's
 * instance gives the IP to connect to, and from a developer machine the
 * request goes through the Kubernetes API server's pod proxy to the VM's
 * virt-launcher pod, found by its `kubevirt.io/domain` annotation.
 */
module Routing {
  import opened Wrappers
  import opened Kube

  /** The Cyberdesk resource as the gateway fetches it: its recorded VM, or
      the API error of the fetch. */
  datatype CrLookup = CrFound(vmRef: Option<string>) | CrError(status: int)

  const VncPort := 5901
  const PodNamespace := "kubevirt"

  /** `path.lstrip('/')`: the path with every leading slash removed. */
  function LStripSlashes(path: string): (r: string)
    ensures |r| <= |path| && r == path[|path| - |r|..]
    ensures r == [] || r[0] != '/'
    ensures forall i :: 0 <= i < |path| - |r| ==> path[i] == '/'
  {
    if path != [] && path[0] == '/' then
      var r := LStripSlashes(path[1..]);
      assert r == path[|path| - |r|..] by {
        assert path[1..][|path| - 1 - |r|..] == path[|path| - |r|..];
      }
      assert forall i :: 1 <= i < |path| - |r| ==> path[i] == path[1..][i - 1];
      r
    else path
  }

  /** Stripping is idempotent, and slashes in front of a path change nothing. */
  lemma LStripSlashesProperties(path: string)
    ensures LStripSlashes(LStripSlashes(path)) == LStripSlashes(path)
    ensures LStripSlashes(['/'] + path) == LStripSlashes(path)
  {
    LStripSlashesKeepsUnslashed(LStripSlashes(path));
    LStripSlashesDropsSlash(path);
  }

  lemma LStripSlashesKeepsUnslashed(s: string)
    requires s == [] || s[0] != '/'
    ensures LStripSlashes(s) == s
  {
  }

  lemma LStripSlashesDropsSlash(path: string)
    ensures LStripSlashes(['/'] + path) == LStripSlashes(path)
  {
    assert (['/'] + path)[1..] == path;
  }

  // ---------------------------------------------------------------------
  // In the cluster
  // ---------------------------------------------------------------------

  function InClusterUrl(ip: string, port: nat, path: string): string
  {
    "http://" + ip + ":" + DecimalString(port) + "/" + LStripSlashes(path)
  }

  /** The in-cluster target of `_proxy_request_to_vm`: the resource must
      name a VM whose instance is Running with an address; every failure
      of that lookup is answered 404. */
  function InClusterTarget(cr: CrLookup, vmi: VmiLookup, port: nat, path: string): (r: Result<string, int>)
    ensures r.Err? ==> r.error == 404
    ensures r.Ok? <==>
      && cr.CrFound? && Truthy(cr.vmRef)
      && vmi.VmiFound? && vmi.phase == Some("Running") && Truthy(FirstIp(vmi.interfaces))
    ensures r.Ok? ==> r.value == InClusterUrl(FirstIp(vmi.interfaces).value, port, path)
  {
    if !cr.CrFound? || !Truthy(cr.vmRef) then Err(404)
    else match vmi
      case VmiError(_) => Err(404)
      case VmiFound(phase, interfaces) =>
        var ip := FirstIp(interfaces);
        if phase != Some("Running") then Err(404)
        else if !Truthy(ip) then Err(404)
        else Ok(InClusterUrl(ip.value, port, path))
  }

  /** The in-cluster URL can be taken apart again: scheme, the address, the
      port (read back as the same number) and the path without leading
      slashes. */
  lemma InClusterUrlRoundTrip(ip: string, port: nat, path: string)
    ensures var url := InClusterUrl(ip, port, path);
      var digits := DecimalString(port);
      var p := 7 + |ip|;
      && |url| == p + 1 + |digits| + 1 + |LStripSlashes(path)|
      && url[..7] == "http://"
      && url[7..p] == ip
      && url[p] == ':'
      && url[p + 1..p + 1 + |digits|] == digits && ParseDecimal(digits) == port
      && url[p + 1 + |digits|] == '/'
      && url[p + 2 + |digits|..] == LStripSlashes(path)
  {
    UrlShape(ip, DecimalString(port), LStripSlashes(path));
    DecimalStringRoundTrip(port);
  }

  /** Where each piece of an `http://` URL sits. */
  lemma UrlShape(ip: string, digits: string, rest: string)
    ensures var url := "http://" + ip + ":" + digits + "/" + rest;
      var p := 7 + |ip|;
      && |url| == p + 1 + |digits| + 1 + |rest|
      && url[..7] == "http://"
      && url[7..p] == ip
      && url[p] == ':'
      && url[p + 1..p + 1 + |digits|] == digits
      && url[p + 1 + |digits|] == '/'
      && url[p + 2 + |digits|..] == rest
  {
    Cut3("http://", ip, ":" + digits + "/" + rest);
    Cut3("http://" + ip + ":", digits, "/" + rest);
  }

  /** The three parts of a concatenation can be cut out of it again. */
  lemma Cut3(a: string, b: string, c: string)
    ensures var u := a + b + c;
      && |u| == |a| + |b| + |c|
      && u[..|a|] == a
      && u[|a|..|a| + |b|] == b
      && u[|a| + |b|..] == c
  {
    var u := a + b + c;
    assert u[..|a|] == a;
    assert u[|a|..|a| + |b|] == b;
    assert u[|a| + |b|..] == c;
  }

  // ---------------------------------------------------------------------
  // The VNC WebSocket
  // ---------------------------------------------------------------------

  /** Where `proxy_vnc` connects, or the close code it sends the browser. */
  datatype VncTarget = VncUri(uri: string) | VncClose(code: int)

  const VncCloseCode := 1011

  /** The VNC target: the instance's IP in the cluster; locally the Docker
      host, which a manual port-forward serves, so no IP is needed there.
      Every failure closes the browser's socket with 1011. */
  function VncTargetFor(inCluster: bool, k8sConfigured: bool, cr: CrLookup, vmi: VmiLookup): (t: VncTarget)
    ensures t.VncClose? ==> t.code == VncCloseCode
    ensures t.VncUri? <==>
      && k8sConfigured && cr.CrFound? && Truthy(cr.vmRef)
      && vmi.VmiFound? && vmi.phase == Some("Running")
      && (inCluster ==> Truthy(FirstIp(vmi.interfaces)))
    ensures t.VncUri? && inCluster ==> t.uri == "ws://" + FirstIp(vmi.interfaces).value + ":5901"
    ensures t.VncUri? && !inCluster ==> t.uri == "ws://host.docker.internal:5901"
  {
    if !k8sConfigured || !cr.CrFound? || !Truthy(cr.vmRef) then VncClose(VncCloseCode)
    else match vmi
      case VmiError(_) => VncClose(VncCloseCode)
      case VmiFound(phase, interfaces) =>
        var ip := FirstIp(interfaces);
        if phase != Some("Running") then VncClose(VncCloseCode)
        else if inCluster && !Truthy(ip) then VncClose(VncCloseCode)
        else if inCluster then VncUri("ws://" + ip.value + ":" + DecimalString(VncPort))
        else VncUri("ws://host.docker.internal:" + DecimalString(VncPort))
  }

  /** In the cluster the VNC socket and the HTTP proxy accept the same
      instances: both need the recorded VM Running with an address. */
  lemma VncAndProxyAgreeInCluster(cr: CrLookup, vmi: VmiLookup, port: nat, path: string)
    ensures VncTargetFor(true, true, cr, vmi).VncUri? <==> InClusterTarget(cr, vmi, port, path).Ok?
  {
  }

  // ---------------------------------------------------------------------
  // From outside the cluster: the virt-launcher pod
  // ---------------------------------------------------------------------

  /** One pod of the `kubevirt` namespace: its name, its
      `kubevirt.io/domain` annotation and its phase. */
  datatype Pod = Pod(name: string, domain: Option<string>, phase: Option<string>)

  predicate Matches(pod: Pod, vmName: string)
  {
    pod.domain == Some(vmName)
  }

  predicate IsRunningMatch(pod: Pod, vmName: string)
  {
    Matches(pod, vmName) && pod.phase == Some("Running")
  }

  /** The name of the first pod of the VM that is Running. */
  function FirstRunningMatch(pods: seq<Pod>, vmName: string): Option<string>
  {
    if pods == [] then None
    else if IsRunningMatch(pods[0], vmName) then Some(pods[0].name)
    else FirstRunningMatch(pods[1..], vmName)
  }

  /** The name of the last pod of the VM. */
  function LastMatch(pods: seq<Pod>, vmName: string): Option<string>
  {
    if pods == [] then None
    else if Matches(pods[|pods| - 1], vmName) then Some(pods[|pods| - 1].name)
    else LastMatch(pods[..|pods| - 1], vmName)
  }

  predicate AnyMatch(pods: seq<Pod>, vmName: string)
  {
    exists i :: 0 <= i < |pods| && Matches(pods[i], vmName)
  }

  /** `FirstRunningMatch` is the Running pod of least index, and is `None`
      exactly when no pod of the VM is Running. */
  lemma {:induction false} FirstRunningMatchIsFirst(pods: seq<Pod>, vmName: string)
    ensures FirstRunningMatch(pods, vmName).Some? ==>
      exists k :: 0 <= k < |pods| && IsRunningMatch(pods[k], vmName)
        && FirstRunningMatch(pods, vmName) == Some(pods[k].name)
        && forall j :: 0 <= j < k ==> !IsRunningMatch(pods[j], vmName)
    ensures FirstRunningMatch(pods, vmName).None? <==> forall k :: 0 <= k < |pods| ==> !IsRunningMatch(pods[k], vmName)
  {
    if pods != [] {
      var rest := pods[1..];
      FirstRunningMatchIsFirst(rest, vmName);
      if !IsRunningMatch(pods[0], vmName) {
        if FirstRunningMatch(rest, vmName).Some? {
          var k :| 0 <= k < |rest| && IsRunningMatch(rest[k], vmName)
            && FirstRunningMatch(rest, vmName) == Some(rest[k].name)
            && forall j :: 0 <= j < k ==> !IsRunningMatch(rest[j], vmName);
          assert pods[k + 1] == rest[k];
          forall j | 0 <= j < k + 1 ensures !IsRunningMatch(pods[j], vmName) {
            if j > 0 { assert pods[j] == rest[j - 1]; }
          }
        }
        forall k | 0 <= k < |pods| && FirstRunningMatch(rest, vmName).None? ensures !IsRunningMatch(pods[k], vmName) {
          if k > 0 { assert pods[k] == rest[k - 1]; }
        }
      }
    }
  }

  /** Some pod of the VM exists exactly when there is a last one. */
  lemma {:induction false} LastMatchExists(pods: seq<Pod>, vmName: string)
    ensures LastMatch(pods, vmName).Some? <==> AnyMatch(pods, vmName)
  {
    if pods != [] {
      var init := pods[..|pods| - 1];
      LastMatchExists(init, vmName);
      if !Matches(pods[|pods| - 1], vmName) {
        if AnyMatch(pods, vmName) {
          var i :| 0 <= i < |pods| && Matches(pods[i], vmName);
          assert init[i] == pods[i];
        }
        if AnyMatch(init, vmName) {
          var i :| 0 <= i < |init| && Matches(init[i], vmName);
          assert pods[i] == init[i];
        }
      }
    }
  }

  /** The search loop as the source has it: a pod of the VM that is not
      Running sets `pod_name` and then resets it to `None`, so once the loop
      ends without a Running pod, `pod_name` is always `None`. */
  method SearchPodsAsWritten(pods: seq<Pod>, vmName: string) returns (podName: Option<string>, runningPodFound: bool)
    ensures podName == FirstRunningMatch(pods, vmName)
    ensures runningPodFound <==> podName.Some?
  {
    podName := None;
    runningPodFound := false;
    var i := 0;
    while i < |pods|
      invariant 0 <= i <= |pods|
      invariant FirstRunningMatch(pods, vmName) == FirstRunningMatch(pods[i..], vmName)
      invariant podName.None? && !runningPodFound
    {
      assert pods[i..][1..] == pods[i + 1..];
      var pod := pods[i];
      if pod.domain == Some(vmName) {
        podName := Some(pod.name);
        if pod.phase == Some("Running") {
          runningPodFound := true;
          break;
        } else {
          podName := None;
        }
      }
      i := i + 1;
    }
  }

  /** The search loop as intended: a pod of the VM that is not Running is
      remembered, so that the lookup can say the VM's pod exists but is not
      Running; a Running pod found later still wins. */
  method SearchPods(pods: seq<Pod>, vmName: string) returns (podName: Option<string>, runningPodFound: bool)
    ensures runningPodFound <==> FirstRunningMatch(pods, vmName).Some?
    ensures runningPodFound ==> podName == FirstRunningMatch(pods, vmName)
    ensures !runningPodFound ==> podName == LastMatch(pods, vmName)
  {
    podName := None;
    runningPodFound := false;
    var i := 0;
    while i < |pods|
      invariant 0 <= i <= |pods|
      invariant FirstRunningMatch(pods, vmName) == FirstRunningMatch(pods[i..], vmName)
      invariant !runningPodFound && podName == LastMatch(pods[..i], vmName)
    {
      assert pods[i..][1..] == pods[i + 1..];
      assert pods[..i + 1][..i] == pods[..i];
      var pod := pods[i];
      if pod.domain == Some(vmName) {
        podName := Some(pod.name);
        if pod.phase == Some("Running") {
          runningPodFound := true;
          break;
        }
      }
      i := i + 1;
    }
    assert pods[..|pods|] == pods;
  }

  /** The answer after the loop: the Running pod, or 503 when the VM's pod
      was seen but not Running, or 404 when none was seen. */
  function PodLookup(podName: Option<string>, runningPodFound: bool): Result<string, int>
  {
    if !runningPodFound then (if podName.Some? then Err(503) else Err(404))
    else if podName.None? then Err(500)
    else Ok(podName.value)
  }

  /** The lookup on the as-written loop's result: the first Running pod of
      the VM when there is one. */
  function PodSearchOutcomeAsWritten(pods: seq<Pod>, vmName: string): (r: Result<string, int>)
    ensures r.Ok? <==> FirstRunningMatch(pods, vmName).Some?
    ensures r.Ok? ==> r.value == FirstRunningMatch(pods, vmName).value
  {
    var found := FirstRunningMatch(pods, vmName);
    PodLookup(found, found.Some?)
  }

  /** The lookup on the intended loop's result: the first Running pod of
      the VM, else 503 when the VM has a pod and 404 when it has none. */
  function PodSearchOutcome(pods: seq<Pod>, vmName: string): (r: Result<string, int>)
    ensures r.Ok? <==> FirstRunningMatch(pods, vmName).Some?
    ensures r.Ok? ==> r.value == FirstRunningMatch(pods, vmName).value
    ensures r.Err? ==> (r.error == 503 <==> LastMatch(pods, vmName).Some?) && r.error in {503, 404}
  {
    var found := FirstRunningMatch(pods, vmName);
    if found.Some? then PodLookup(found, true) else PodLookup(LastMatch(pods, vmName), false)
  }

  /** As written, the `503` answer is unreachable: a VM whose only pods are
      not Running is reported as having no pod at all. */
  lemma AsWrittenSearchNever503(pods: seq<Pod>, vmName: string)
    ensures PodSearchOutcomeAsWritten(pods, vmName) != Err(503)
    ensures FirstRunningMatch(pods, vmName).None? ==> PodSearchOutcomeAsWritten(pods, vmName) == Err(404)
  {
  }

  /** The input that shows it: one pod of `desk-1`, still Pending. The
      gateway's local route answers 404 for it. */
  lemma PendingPodCounterexample()
    ensures var pods := [Pod("virt-launcher-desk-1-x7k2p", Some("desk-1"), Some("Pending"))];
      && PodSearchOutcomeAsWritten(pods, "desk-1") == Err(404)
      && PodSearchOutcome(pods, "desk-1") == Err(503)
      && LocalProxyRequest(true, CrFound(Some("desk-1")), PodsListed(pods), 8000, "health", "GET", false) == Err(404)
  {
    var pods := [Pod("virt-launcher-desk-1-x7k2p", Some("desk-1"), Some("Pending"))];
    assert pods[..0] == [];
  }

  /** As intended, the search answers with the first Running pod of the VM;
      otherwise 503 exactly when the VM has a pod, and 404 when it has none. */
  lemma PodSearchOutcomeSpec(pods: seq<Pod>, vmName: string)
    ensures var r := PodSearchOutcome(pods, vmName);
      && (r.Ok? <==> exists k :: 0 <= k < |pods| && IsRunningMatch(pods[k], vmName))
      && (r.Ok? ==> exists k :: 0 <= k < |pods| && IsRunningMatch(pods[k], vmName) && r.value == pods[k].name
                      && forall j :: 0 <= j < k ==> !IsRunningMatch(pods[j], vmName))
      && (r == Err(503) <==> r.Err? && AnyMatch(pods, vmName))
      && (r.Err? ==> r.error == 503 || r.error == 404)
  {
    FirstRunningMatchIsFirst(pods, vmName);
    LastMatchExists(pods, vmName);
  }

  /** The API server path of the pod proxy. */
  function LocalProxyPath(podName: string, port: nat, path: string): string
  {
    "/api/v1/namespaces/" + PodNamespace + "/pods/" + podName + ":" + DecimalString(port) + "/proxy/" + LStripSlashes(path)
  }

  /** The proxy path names the pod and ends in the path without leading
      slashes, whatever slashes the caller put in front of it. */
  lemma LocalProxyPathParts(podName: string, port: nat, path: string)
    ensures var full := LocalProxyPath(podName, port, path);
      var head := "/api/v1/namespaces/kubevirt/pods/";
      && full[..|head|] == head
      && full[|head|..|head| + |podName|] == podName
      && full[|head| + |podName|] == ':'
      && full[|full| - |LStripSlashes(path)|..] == LStripSlashes(path)
      && LocalProxyPath(podName, port, ['/'] + path) == full
  {
    ProxyPathShape(podName, DecimalString(port), LStripSlashes(path));
    LStripSlashesProperties(path);
  }

  /** Where the pod name and the forwarded path sit in a proxy path. */
  lemma ProxyPathShape(podName: string, digits: string, rest: string)
    ensures var full := "/api/v1/namespaces/" + PodNamespace + "/pods/" + podName + ":" + digits + "/proxy/" + rest;
      var head := "/api/v1/namespaces/kubevirt/pods/";
      && full[..|head|] == head
      && full[|head|..|head| + |podName|] == podName
      && full[|head| + |podName|] == ':'
      && full[|full| - |rest|..] == rest
  {
    var head := "/api/v1/namespaces/kubevirt/pods/";
    assert "/api/v1/namespaces/" + PodNamespace + "/pods/" == head;
    Cut3(head, podName, ":" + digits + "/proxy/" + rest);
    Cut3(head + podName + ":" + digits + "/proxy/", rest, "");
  }

  /** A JSON body (and its Content-Type) goes with the proxied request only
      for a present payload on a method that carries one. */
  predicate SendsBody(hasPayload: bool, httpMethod: string)
  {
    hasPayload && httpMethod in {"POST", "PUT", "PATCH"}
  }

  /** The request sent to the API server's pod proxy. */
  datatype LocalRequest = LocalRequest(resourcePath: string, httpMethod: string, withBody: bool)

  /** The pod list of the `kubevirt` namespace, or the API error of the list. */
  datatype PodList = PodsListed(pods: seq<Pod>) | PodListFailed(status: int)

  /** The local branch of `_proxy_request_to_vm` up to the proxied call:
      503 without a cluster client, 404 for a missing resource, one that
      names no VM or one with no Running pod (the as-written search), 500
      for other API errors and a failed pod list, and otherwise a request
      to the first Running pod of the VM. */
  function LocalProxyRequest(k8sConfigured: bool, cr: CrLookup, podList: PodList, port: nat, path: string,
                             httpMethod: string, hasPayload: bool): (r: Result<LocalRequest, int>)
    ensures r.Err? ==> r.error in {503, 404, 500}
    ensures r.Ok? <==>
      && k8sConfigured && cr.CrFound? && Truthy(cr.vmRef) && podList.PodsListed?
      && FirstRunningMatch(podList.pods, cr.vmRef.value).Some?
    ensures r.Ok? ==>
      && r.value.resourcePath == LocalProxyPath(FirstRunningMatch(podList.pods, cr.vmRef.value).value, port, path)
      && r.value.httpMethod == httpMethod
      && r.value.withBody == SendsBody(hasPayload, httpMethod)
    ensures r == Err(503) <==> !k8sConfigured
    ensures r == Err(404) <==>
      && k8sConfigured
      && (|| cr == CrError(404)
          || (cr.CrFound? && !Truthy(cr.vmRef))
          || (cr.CrFound? && Truthy(cr.vmRef) && podList.PodsListed? && FirstRunningMatch(podList.pods, cr.vmRef.value).None?))
  {
    if !k8sConfigured then Err(503)
    else match cr
      case CrError(status) => Err(if status == 404 then 404 else 500)
      case CrFound(vmRef) =>
        if !Truthy(vmRef) then Err(404)
        else match podList
          case PodListFailed(_) => Err(500)
          case PodsListed(pods) =>
            match PodSearchOutcomeAsWritten(pods, vmRef.value)
            case Err(code) => Err(code)
            case Ok(podName) => Ok(LocalRequest(LocalProxyPath(podName, port, path), httpMethod, SendsBody(hasPayload, httpMethod)))
  }

  /** The in-cluster branch of `_proxy_request_to_vm` up to the request. */
  function InClusterRequest(k8sConfigured: bool, cr: CrLookup, vmi: VmiLookup, port: nat, path: string): (r: Result<string, int>)
    ensures r.Err? ==> r.error == 503 || r.error == 404
    ensures r.Err? && r.error == 503 <==> !k8sConfigured
    ensures k8sConfigured ==> r == InClusterTarget(cr, vmi, port, path)
  {
    if !k8sConfigured then Err(503) else InClusterTarget(cr, vmi, port, path)
  }

  /** The command endpoint POSTs its payload as a body; the health check's
      GET carries none. */
  lemma CommandCarriesBodyHealthDoesNot(k8sConfigured: bool, cr: CrLookup, podList: PodList)
    ensures var cmd := LocalProxyRequest(k8sConfigured, cr, podList, 8000, "execute-command", "POST", true);
      var health := LocalProxyRequest(k8sConfigured, cr, podList, 8000, "health", "GET", false);
      && (cmd.Ok? ==> cmd.value.withBody && cmd.value.httpMethod == "POST")
      && (health.Ok? ==> !health.value.withBody && health.value.httpMethod == "GET")
      && (cmd.Ok? <==> health.Ok?)
  {
  }
}
