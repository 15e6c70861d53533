# Cyberdesk provisioning and routing, modelled in Dafny

This project models the orchestration core of Cyberdesk, a service that hands
out ephemeral virtual desktops running as KubeVirt virtual machines. It has
two parts.

**The operator** (`services/cyberdesk-operator/handlers/controller.py`) is a
kopf operator. It reconciles each `Cyberdesk` custom resource against the
cluster:

- It claims a running VM from the warm pool, or announces and then tracks a
  `VirtualMachineClone` of a golden snapshot.
- It records progress in `status.cyberdesk_create`. The record holds
  `virtualMachineRef`, `cloneOperationName`, `lastPhase`, `startTime` and
  `expiryTime`.
- It syncs the instance's database row when the VM instance changes phase.
- It tells the gateway when cloud-init has finished, which is when the
  `Ready` condition becomes `True`.
- It deletes the VM, or the clone still in progress, when the resource goes
  away.
- It deletes the resource itself once its expiry time has passed.

**The gateway** (`services/gateway/main.py`) is a FastAPI service. It:

- creates and deletes the resources;
- records the stream URL when a desk reports ready;
- routes requests to a desk's VM. In the cluster it goes to the VM
  instance's IP. From outside it goes through the API server's pod proxy to
  the VM's virt-launcher pod.

Every read from the cluster, the database or the network becomes an input
of the model. Every write becomes an output: a patch, an effect or an
answer.

- One reconciliation pass of `cyberdesk_create`, as the source runs it, is
  the function `Provisioning.Reconcile`. It maps the stored record plus its
  observations to the patch written, the outcome (`Done`,
  `Temporary(delay)` or `Permanent`) and the cluster effects.
- The handler itself is the method `Provisioning.CyberdeskCreate`. It
  mutates kopf's patch object (`StatusPatch`) in place, and is proved equal
  to `Reconcile`.
- `Provisioning.ReconcileIntended` is the same pass with the re-entry check
  that the source's comments describe (see Findings).
  `Provisioning.PassesDifferOnlyOnReentry` states exactly where the two
  passes part.
- The gateway's local route, `Routing.LocalProxyRequest`, uses the pod
  search as written. The intended search is `Routing.SearchPods` and
  `Routing.PodSearchOutcome`, which appear only in the Findings rows.
- Kopf sends the status patch as a JSON merge patch (RFC 7386). A key set to
  `None` is deleted, and a key left out keeps its stored value. The model
  applies the patch with `Provisioning.Apply`, so that merge effects (keys
  a patch does not mention, for instance) are visible.
- The loops of the source stay loops:
  - `WarmPool.GetFreeVmFromPool` is the pool search;
  - `Readiness.VmiReadyWatcher` is the two searches of the ready watcher;
  - `Routing.SearchPodsAsWritten` and `Routing.SearchPods` are the pod
    search.

  Each is proved against a specification function, and the properties are
  proved about those functions.

Modules:

- `Wrappers`: `Option` and `Result`.
- `Kube`: label keys, Python truthiness, the VM instance lookup, the ready
  URL, and decimal rendering.
- `Phases`: the phase-to-status table and `vmi_phase_change`.
- `WarmPool`: `get_free_vm_from_pool` and the label merges.
- `Provisioning`: `cyberdesk_create`.
- `Teardown`: `cyberdesk_delete` and `cyberdesk_timeout_check`.
- `Readiness`: `vmi_ready_watcher`.
- `Routing`: target resolution, the pod search, and path and URL building
  in `proxy_vnc` and `_proxy_request_to_vm`.
- `Responses`: the gateway endpoints and their status codes.

Two places where the source's own comments and what the code does part:

- The comments at `controller.py:506-507` say that a missing VM forces a
  re-provision by clearing the status. That branch cannot run, because the
  patch helper has already turned the error into a retry. The model follows
  the code; see Findings.
- The docstring of `_proxy_request_to_vm` (`main.py:669-671`) says the
  helper raises on non-2xx VM responses. So the endpoints' own branch for a
  non-2xx answer, a 502 with an `X-VM-Status-Code` header, is never
  reached. `Responses.CommandEndpoint` and `Responses.HealthEndpoint` model
  that branch as written. The helper itself does not check the status;
  its two HTTP clients raise on every non-2xx answer before it returns:
  - `httpx`'s `raise_for_status` raises in the cluster;
  - the Kubernetes client's `ApiException` is raised for the pod proxy.

  So after a real proxied call the header is never sent
  (`Responses.VmStatusHeaderNeverSent`). This depends on library behaviour
  rather than on the code, so it is recorded here and not as a finding.
- The pod-proxy route answers 504 only for an `asyncio.TimeoutError`
  (`main.py:907-909`). The call itself runs the Kubernetes client in a
  thread with its own `_request_timeout` (855-872). That client reports a
  timeout as a urllib3 exception, and neither the `ApiException` clause
  nor the timeout clause catches it. So a real timeout on the local route
  reaches the catch-all at 910-912 and is answered 500; in the model that
  is `OtherFailure`. `TimedOut` on that route stands for an
  `asyncio.TimeoutError` alone, which the code as written maps to 504.
  This also rests on library behaviour, and is recorded here for the same
  reason.

## Model

| member | source | states |
|---|---|---|
| Kube.ReadyUrlRoundTrip | services/cyberdesk-operator/handlers/controller.py:574 | The URL the operator POSTs to is `{base}/cyberdesk/{id}/ready`. The `{vm_id}` segment of the gateway's `/cyberdesk/{vm_id}/ready` route gives back exactly the instance id, and the URL starts with the base. |
| Kube.DecimalString | services/gateway/main.py:733 | Python's `str(n)` of a port or status code is a non-empty string of decimal digits with no leading zero. |
| Kube.DecimalStringRoundTrip | services/gateway/main.py:575 | Reading back the decimal rendering of `n` gives `n`. This holds for the port in URLs and for the `X-VM-Status-Code` header. |
| Phases.DbValueInjective | services/cyberdesk-operator/handlers/controller.py:96-102 | The four database statuses are stored as four distinct strings. |
| Phases.StatusForPhase | services/cyberdesk-operator/handlers/controller.py:106-114 | The table is total. Pending, Scheduling, Scheduled and Running give `pending`. Succeeded gives `terminated`. Failed, Unknown and every unknown string give `error`. No phase ever gives `running`. |
| Phases.PhaseChange | services/cyberdesk-operator/handlers/controller.py:760-811 | There is a write exactly when these all hold: a new phase is reported, the VMI is labelled `app=cyberdesk` with a non-empty instance, and the stored row differs from the status for that phase. The write is to that instance with that status. |
| Phases.WarmPoolVmiIgnored | services/cyberdesk-operator/handlers/controller.py:774-788 | A VMI without an instance label (a warm-pool VM) never causes a database write. |
| Phases.PhaseChangeSettles | services/cyberdesk-operator/handlers/controller.py:803-807 | After a write, the same phase reported again writes nothing. |
| WarmPool.ClaimLabels | services/cyberdesk-operator/handlers/controller.py:271-281 | The claim keeps every existing label and sets `in-use=true` and `warm=claimed`. Its key set is the old keys plus those two. |
| WarmPool.FirstClaimable | services/cyberdesk-operator/handlers/controller.py:249-301 | The VM the search returns always has a non-empty name. |
| WarmPool.GetFreeVmFromPool | services/cyberdesk-operator/handlers/controller.py:249-301 | The loop returns the first claimable VM and sends exactly the claim patches the specification lists, in order. |
| WarmPool.FirstClaimableIsFirst | services/cyberdesk-operator/handlers/controller.py:249-301 | The chosen VM is the claimable VM with the least index, and every earlier VM is not claimable. The result is None exactly when no VM is claimable. |
| WarmPool.ClaimAttemptsEligible | services/cyberdesk-operator/handlers/controller.py:254-281 | Every patch sent is the claim patch of a listed VM that has a name, is not in use and is Running, with `ownerReferences` cleared. |
| WarmPool.ClaimAttemptsOutcome | services/cyberdesk-operator/handlers/controller.py:282-298 | Every claim patch but the last was refused. The last one succeeded exactly when a VM was chosen, and it names that VM. |
| WarmPool.MergeLabels | services/cyberdesk-operator/handlers/controller.py:538-539 | In `{**current, **operator}` the operator's labels win and every other current label is kept. |
| WarmPool.ClaimSurvivesOperatorMerge | services/cyberdesk-operator/handlers/controller.py:529-539 | After the claim and the operator's merge, the VM is still in use and claimed, and it is tied to the instance with `app=cyberdesk`. |
| Provisioning.Echo | services/cyberdesk-operator/handlers/controller.py:493 | Sending the stored record back as the patch leaves the record unchanged and deletes no key. |
| Provisioning.StaleCloneOpCounterexample | services/cyberdesk-operator/handlers/controller.py:499-500 | A provisioned record that still names a clone operation keeps it after the as-written re-entry, and loses it after the corrected one. |
| Provisioning.ReentryPatchCorrectionIsLocal | services/cyberdesk-operator/handlers/controller.py:482-500 | The corrected re-entry patch differs from the as-written one only in the clone-operation key. On a record without that key the two agree outright. |
| Provisioning.ReentryPatchAsWritten | services/cyberdesk-operator/handlers/controller.py:482-500 | The re-entry patch as written, once merged, keeps the VM, the phase and any stored clone operation. It keeps the record outright when both times are present, and otherwise sets both from `now`. |
| Provisioning.ReentryPatch | services/cyberdesk-operator/handlers/controller.py:482-500 | The intended re-entry patch, once merged, removes the clone operation and otherwise agrees with the as-written patch. |
| Provisioning.ReentryAsWritten | services/cyberdesk-operator/handlers/controller.py:474-513 | As written, the re-entry check ends the pass exactly when the record is provisioned. Any VM patch error, 404 included, is a retry after 10 s. |
| Provisioning.ReentryStep | services/cyberdesk-operator/handlers/controller.py:474-513 | The corrected re-entry check ends the pass only for a provisioned record. An unprovisioned record goes on untouched. |
| Provisioning.ClaimEffects | services/cyberdesk-operator/handlers/controller.py:282-290 | There is one claim effect per claim patch, in order. |
| Provisioning.FinalizePoolVm | services/cyberdesk-operator/handlers/controller.py:527-603 | Finishing a claimed VM never fails for good. It succeeds exactly when the VM is fetched and relabelled, its instance is Running with an IP, and the gateway notification (if configured) does not raise an uncaught exception. Only then is the VM recorded as AssignedFromPool. |
| Provisioning.PoolStep | services/cyberdesk-operator/handlers/controller.py:520-622 | The pool branch never fails for good. Success records the first claimable VM. The clone is announced exactly when the listed pool has no claimable VM, and nothing else is written. |
| Provisioning.CloneStep | services/cyberdesk-operator/handlers/controller.py:631-757 | Success means a Succeeded clone whose VM took the patch, and records it as Cloned. A permanent failure means a Failed clone, or one in another phase after 20 retries, and records the abandonment. A retry (after 5 or 10 s) writes nothing. |
| Provisioning.Reconcile | services/cyberdesk-operator/handlers/controller.py:456-757 | The pass as the source runs it. A Permanent outcome always writes a record with no VM, no clone operation and phase CloneFailed or CloneTimeout. A Done outcome always leaves a record with a VM, a provisioned phase and both times set. A newly provisioned record names no clone operation, while a confirmed one keeps the clone operation it stored. |
| Provisioning.ReconcileIntended | services/cyberdesk-operator/handlers/controller.py:474-513 | The pass with the intended re-entry check. It has the same Permanent guarantee, and a Done outcome never leaves a clone operation in the record. |
| Provisioning.ProvisionedReentry | services/cyberdesk-operator/handlers/controller.py:474-500 | As written, a provisioned record whose VM is still there means no pool or clone work and a Done outcome. The record is kept as stored, clone operation included, except that both times are set from `now` when either is missing. |
| Provisioning.ProvisionedReentryIntended | services/cyberdesk-operator/handlers/controller.py:499-500 | With the intended patch, the same re-entry also removes the clone operation from the record. |
| Provisioning.ReentryIsIdempotent | services/cyberdesk-operator/handlers/controller.py:474-513 | As written, a second pass over the record the first pass stored succeeds and changes nothing. |
| Provisioning.PassesDifferOnlyOnReentry | services/cyberdesk-operator/handlers/controller.py:474-513 | On a record that is not provisioned, the source's pass and the intended pass are the same. On a provisioned one, the source retries every failed VM patch after 10 s with nothing written, and the intended pass does the same for every error but a 404. A confirmed VM ends both passes alike, except that the intended pass drops the clone operation. |
| Provisioning.MissingVmForcesReprovision | services/cyberdesk-operator/handlers/controller.py:504-508 | With the intended check, a provisioned record whose VM is gone (404) is provisioned afresh in the same pass. It ends as the source's pass over an empty record does, and success means a VM assigned from the pool. |
| Provisioning.ReentryAsWrittenNeverReprovisions | services/cyberdesk-operator/handlers/controller.py:441-453 | As written, a provisioned record is never provisioned again. Every failed VM patch is retried with the record untouched. Away from a 404, the as-written and corrected checks agree. |
| Provisioning.MissingVmCounterexample | services/cyberdesk-operator/handlers/controller.py:504-508 | For a cloned desk whose VM was deleted, the as-written check retries every 10 s forever, while the corrected check goes on to re-provision. |
| Provisioning.NoWarmVmAnnouncesClone | services/cyberdesk-operator/handlers/controller.py:605-622 | With no record and no warm VM, the pass announces `clone-for-{id}` with phase CloningInitiated and no VM, and asks for a retry after 5 s. It creates no clone object. |
| Provisioning.MissingCloneIsCreated | services/cyberdesk-operator/handlers/controller.py:640-675 | An announced clone whose object does not exist is created, and the pass is retried after 5 s with the record untouched. |
| Provisioning.CloneEvaluation | services/cyberdesk-operator/handlers/controller.py:682-744 | Succeeded records the instance's VM as Cloned, with expiry `now + timeoutMs`. Failed gives CloneFailed and Permanent. Unknown is retried whatever the retry count. Any other phase gives CloneTimeout, Permanent and a clone delete exactly when `retry >= 20`, and otherwise a retry. |
| Provisioning.PoolAssignment | services/cyberdesk-operator/handlers/controller.py:525-603 | A claimed warm VM that is Running with an address, whose notification does not raise, is recorded as AssignedFromPool with expiry `now + timeoutMs`. This comes after the claim patches and the label merge, and the gateway is notified when it is configured. |
| Provisioning.EscapedNotifyLeavesClaimUnrecorded | services/cyberdesk-operator/handlers/controller.py:576-586 | If the notification raises an exception its `except` does not name, kopf retries the pass after 60 s. The record is as stored, while the VM has been claimed, relabelled and named in a claim patch. |
| Provisioning.ReconcileKeepsLifecycle | services/cyberdesk-operator/handlers/controller.py:456-757 | Every pass, as the source runs it, keeps the record coherent. Each phase implies what the record holds, and `lastPhase` moves only along the lifecycle. |
| Provisioning.CloneStepKeepsLifecycle | services/cyberdesk-operator/handlers/controller.py:631-744 | A record written by the clone branch is coherent, and its phase goes from CloningInitiated only to Cloned, CloneFailed or CloneTimeout. |
| Provisioning.PoolStepKeepsLifecycle | services/cyberdesk-operator/handlers/controller.py:520-622 | A record written by the pool branch is coherent, and its phase is CloningInitiated or AssignedFromPool, never after an announced clone. |
| Provisioning.StatusPatch.constructor | services/cyberdesk-operator/handlers/controller.py:457 | kopf's patch starts with no `cyberdesk_create` entry. |
| Provisioning.CyberdeskCreate | services/cyberdesk-operator/handlers/controller.py:456-757 | The handler, assigning keys of the patch in place and deleting them from it, ends with the outcome, effects and patch entry of `Reconcile`. |
| Provisioning.ClaimFromPool | services/cyberdesk-operator/handlers/controller.py:520-622 | The pool branch in place matches its specification. |
| Provisioning.FinalizeClaimed | services/cyberdesk-operator/handlers/controller.py:527-603 | The finalisation of a claimed VM in place matches its specification. |
| Provisioning.CheckClone | services/cyberdesk-operator/handlers/controller.py:631-757 | The clone branch in place matches its specification. |
| Teardown.DeleteTargetOf | services/cyberdesk-operator/handlers/controller.py:821-864 | The VM is deleted exactly when the record names one. Otherwise the clone operation is deleted exactly when the record names one. |
| Teardown.DeleteOutcome | services/cyberdesk-operator/handlers/controller.py:821-864 | Among the API answers modelled, only a VM delete error other than 404 or 410 gives a retry, after 15 s. A clone delete error never does, and deletion never fails for good. |
| Teardown.DeleteRetryConverges | services/cyberdesk-operator/handlers/controller.py:835-846 | Once the VM delete reports success or the VM gone, the handler finishes. |
| Teardown.ProvisionedDeskDeletesItsVm | services/cyberdesk-operator/handlers/controller.py:821-864 | A desk that a pass, as the source runs it, ends with Done (newly provisioned or confirmed) has its VM deleted on deletion. |
| Teardown.AnnouncedCloneIsDeleted | services/cyberdesk-operator/handlers/controller.py:848-860 | A desk deleted while its clone is announced has that clone operation deleted. |
| Teardown.FailedDeskLeavesNothing | services/cyberdesk-operator/handlers/controller.py:711-741 | A desk whose provisioning failed for good leaves nothing to delete. |
| Teardown.TimerDeletes | services/cyberdesk-operator/handlers/controller.py:874-889 | The timer deletes exactly when an expiry is recorded and `now` has reached it. |
| Teardown.TimerOutcome | services/cyberdesk-operator/handlers/controller.py:874-897 | A refused delete of an expired resource is retried after 30 s. Among the API answers modelled, nothing else is retried. |
| Teardown.ProvisionedDeskExpiresAfterTimeout | services/cyberdesk-operator/handlers/controller.py:588-595 | A coherent provisioned desk is deleted by the timer exactly when `now >= startTime + timeoutMs`. |
| Teardown.FreshDeskLifetime | services/cyberdesk-operator/handlers/controller.py:588-598 | A desk provisioned at `start` is deleted at `now` exactly when `now >= start + timeoutMs`, and that deletion removes its VM. |
| Readiness.FirstReady | services/cyberdesk-operator/handlers/controller.py:917-922 | Any condition found has type `Ready`. |
| Readiness.VmiReadyWatcher | services/cyberdesk-operator/handlers/controller.py:900-938 | The two loops compute exactly `ReadyNotification` of the old and new conditions, the labels and the gateway base. |
| Readiness.FirstReadyIsFirst | services/cyberdesk-operator/handlers/controller.py:917-922 | The condition found is the `Ready` condition of least index, and none is found exactly when there is none. |
| Readiness.NotifiesOnReadyEdge | services/cyberdesk-operator/handlers/controller.py:903-938 | A notification means: no `Ready=True` before, and now the first `Ready` condition is `True`, on a managed VMI with an instance, and the gateway configured. The URL carries that instance id back to the gateway. |
| Readiness.ReadyEdgeNotifies | services/cyberdesk-operator/handlers/controller.py:903-938 | Conversely, on that edge the gateway is notified. |
| Readiness.RedeliveryIsQuiet | services/cyberdesk-operator/handlers/controller.py:927-936 | The same conditions delivered again never notify. |
| Routing.LStripSlashes | services/gateway/main.py:674 | The result is the input with all its leading slashes removed: a suffix that does not start with `/`, where every removed character was `/`. |
| Routing.LStripSlashesProperties | services/gateway/main.py:674 | Stripping is idempotent, and an extra leading slash changes nothing. |
| Routing.InClusterTarget | services/gateway/main.py:688-739 | The target exists exactly when the resource names a VM whose instance is Running with a first-interface IP. Among the API answers modelled, every failure is 404. The target is `http://{ip}:{port}/{path}`. |
| Routing.InClusterUrlRoundTrip | services/gateway/main.py:733 | The URL splits back into the scheme, the IP, the port's decimal digits (which read back as the same number) and the stripped path. |
| Routing.VncTargetFor | services/gateway/main.py:260-322 | In the cluster the VNC socket connects to `ws://{ip}:5901`, which needs a Running instance with an IP. Locally it connects to `ws://host.docker.internal:5901`, which needs a Running instance but no IP. Every failure, including a missing cluster client, closes with 1011. |
| Routing.VncAndProxyAgreeInCluster | services/gateway/main.py:260-322 | In the cluster, the VNC proxy and the HTTP proxy accept the same instances. |
| Routing.FirstRunningMatchIsFirst | services/gateway/main.py:813-825 | The pod chosen is the first pod of the VM that is Running, and none is chosen exactly when no pod of the VM is Running. |
| Routing.LastMatchExists | services/gateway/main.py:813-830 | A last pod of the VM exists exactly when some pod of the VM does. |
| Routing.SearchPodsAsWritten | services/gateway/main.py:800-830 | The as-written loop ends with the first Running pod of the VM, or with no pod at all. |
| Routing.SearchPods | services/gateway/main.py:800-830 | The corrected loop finds the first Running pod of the VM. Failing that, it remembers the last pod of the VM it saw. |
| Routing.AsWrittenSearchNever503 | services/gateway/main.py:832-840 | As written, the 503 "found but not Running" answer cannot occur. Without a Running pod the answer is 404. |
| Routing.PendingPodCounterexample | services/gateway/main.py:826-840 | For a VM whose only pod is Pending, the as-written search answers 404, and so does the local route built on it; the corrected search answers 503. |
| Routing.PodSearchOutcomeAsWritten | services/gateway/main.py:832-840 | As written, the lookup succeeds exactly when the VM has a Running pod, and then names the first one. |
| Routing.PodSearchOutcome | services/gateway/main.py:832-840 | As intended, the lookup also names the first Running pod. Without one it answers 503 exactly when the VM has a pod, and 404 otherwise. |
| Routing.PodSearchOutcomeSpec | services/gateway/main.py:813-840 | The corrected search answers with the first Running pod of the VM. Otherwise it answers 503 exactly when the VM has a pod, and 404 when it has none. |
| Routing.LocalProxyPathParts | services/gateway/main.py:851 | The proxy path is `/api/v1/namespaces/kubevirt/pods/{pod}:{port}/proxy/{path}`. It names the pod and ends with the stripped path, whatever leading slashes the caller used. |
| Routing.LocalProxyRequest | services/gateway/main.py:769-868 | The outside-cluster route, with the pod search as written, gives 503 exactly when there is no cluster client. It gives 404 exactly for a missing resource, one without a VM, or a VM with no Running pod, and 500 otherwise. A request to the first Running pod is built exactly when there is one. Its body is attached only for a payload on POST, PUT or PATCH. |
| Routing.InClusterRequest | services/gateway/main.py:680-739 | In the cluster, the answer is 503 exactly when there is no client. With a client it is the target lookup's own answer: the target, or 404. |
| Routing.CommandCarriesBodyHealthDoesNot | services/gateway/main.py:546-553 | The command POST carries its JSON body; the health GET carries none. |
| Responses.InClusterCall | services/gateway/main.py:742-767 | Only a 2xx answer gets through. Any non-2xx answer is 500, a timeout is 504, and a refused connection is 503. |
| Responses.ProxyApiErrorStatus | services/gateway/main.py:891-906 | A pod-proxy 404 gives 502. 503 or 504 gives 503. Everything else, 401 and 403 included, gives 500. |
| Responses.LocalCall | services/gateway/main.py:870-912 | Only a 2xx answer gets through. Other answers go through the proxy mapping. An `asyncio.TimeoutError` is 504. Anything else is 500, the Kubernetes client's own timeouts included. |
| Responses.ProxyToVm | services/gateway/main.py:643-913 | The helper returns the VM's `(status, body)` exactly when the route of the current mode (in the cluster, or the local route as written) finds its target and the VM answers 2xx. A route error is passed on unchanged. For a found target, a timeout in the cluster is 504, and so is an `asyncio.TimeoutError` on the pod-proxy route. Any other failure, a client timeout on the pod-proxy route included, is 500. Every error is 404, 500, 502, 503 or 504, and it is always 503 without a cluster client. |
| Responses.Strings | services/gateway/main.py:157-163 | The string items of a JSON array, when every item is a string. |
| Responses.ParseCommandOutput | services/gateway/main.py:157-163 | A command result comes only from a JSON object with all five fields. |
| Responses.StringsRoundTrip | services/gateway/main.py:562 | An array of strings reads back as those strings. |
| Responses.ParseCommandOutputReadsFields | services/gateway/main.py:556-567 | For any body, extra keys included, a parsed command result holds exactly the VM's five fields: encoding it gives back each of those fields. |
| Responses.CommandOutputRoundTrip | services/gateway/main.py:556-567 | Whatever command result the VM sends is returned unchanged. |
| Responses.CommandEndpoint | services/gateway/main.py:545-585 | Success means a 2xx with a well-formed result, returned with the VM's status. A malformed result is 500. A non-2xx answer is 502 with the status in the header. A proxy error is passed on without a header. |
| Responses.HealthEndpoint | services/gateway/main.py:606-639 | Success (`ok`) means a 2xx. A non-2xx answer is 502 with the status in the header. A proxy error is passed on. |
| Responses.VmStatusHeaderNeverSent | services/gateway/main.py:556-629 | After a real proxied call, neither endpoint ever sends the `X-VM-Status-Code` header. A success always carries the VM's own 2xx status. |
| Responses.ReachableVmAnswers | services/gateway/main.py:545-622 | With the target found, in the cluster or through the pod proxy, and a 2xx answer, the command endpoint returns the VM's result and the health check returns `ok`. |
| Responses.RequestedTimeout | services/gateway/main.py:130-135 | `timeoutMs` defaults to 24 hours and must be at least 60 000, else 422. |
| Responses.CreateDesk | services/gateway/main.py:435-465 | A desk is created under the requested name, with the validated timeout, exactly when the request is valid, the client exists and the create succeeds. A create 409 gives 409, 503 means no client, and everything else is 500. |
| Responses.GatewayDeskLifetime | services/gateway/main.py:440-448 | A desk created by the gateway always carries its own timeout, so the operator's one-hour default never applies. Once provisioned at `start`, the timer deletes it exactly at `start + timeoutMs`, and never before a minute has passed. |
| Responses.StopDesk | services/gateway/main.py:468-493 | Deletion starts exactly when the client exists and the delete succeeds. A delete 404 gives 404, 503 means no client, and everything else is 500. |
| Responses.StreamUrlRoundTrip | services/gateway/main.py:508 | The stream URL is `https://gateway.cyberdesk.io/vnc/{id}` and gives back the id. |
| Responses.ReadyEndpoint | services/gateway/main.py:401-523 | Without a database client the answer is 503. Otherwise it succeeds with the stream URL exactly when the update returns a non-empty list with a truthy first row, and is 500 otherwise (a raised update included). |
| Responses.OnlyReadinessMarksRunning | services/gateway/main.py:407-412 | The ready signal writes `running`, which the phase watcher never writes. |
| Responses.ReadyNotificationMarksItsInstance | services/gateway/main.py:496-523 | End to end, the operator's ready notification makes the gateway mark exactly the notifying VMI's instance, with that instance's stream URL. |

## Left out

- Client start-up is left out: Kubernetes, Supabase and kopf configuration, environment loading, the CRD bootstrap handler and `configure_kopf`. Whether a client exists is a boolean input.
- Every API, database and HTTP call is an input (its answer) or an output (an effect). This includes the gateway notification. The model never performs one.
- The golden-snapshot check at start-up and the static CRD and clone manifests are left out. Only the names they use are modelled.
- ISO-8601 times are not modelled. Times are integer milliseconds, and an unparsable expiry is the `Unparsable` case, which does nothing.
- The VNC byte relay (`_relay` and the two relay tasks) is concurrency over a live socket, and is left out. So are the socket's connect and close-on-error paths after the target is chosen.
- The gateway's JSON decoding (with its quote replacement) is left out. The body is an input, as parsed JSON or as raw text.
- JSON numbers are integers. Floats, such as `duration_s`, and pydantic's lax coercions are not modelled.
- Static file serving, CORS, `/healthz` and the noVNC page are framework glue and are left out.
- A pod whose metadata has no annotations at all makes the source raise an `AttributeError`, which ends in a 500. The model only has pods whose annotations may lack the domain key.
- The result of creating the clone object is not modelled. It does not change the outcome: an error there is also a retry after 5 s.
- The catch-all clause that turns an unexpected exception in the clone branch into a retry after 30 s is left out. In that branch the model has no exceptions other than the API errors it names.
- The legacy top-level status keys (`virtualMachineRef`, `startTime`, `expiryTime` directly under `status`) that the handler deletes from its patch are left out. The model tracks only `status.cyberdesk_create`.
- Which exception a failed gateway notification after a pool assignment raises is an input (`NotifyResult`). `URLError`, `HTTPError` and `TimeoutError` are caught and only logged (`NotifyCaught`). Any other exception, such as `RemoteDisconnected` or a `ValueError` from a malformed base URL, escapes the handler (`NotifyRaised`). It is modelled as kopf's default retry after 60 s with nothing written.
- The delete handler and the timer log the API errors they catch (`controller.py:837-840`, `858-861`, `891-896`). Logging is not modelled. Neither handler has a catch-all clause.
- A Kubernetes client failure that is not an `ApiException` is not modelled. Examples are a urllib3 connection error or a read timeout. Each API answer is either `ApiOk` or `ApiError(status)`. No such failure is caught in the places below:
  - In the operator, it escapes to kopf, which retries the handler after its default 60 s with nothing written. This covers:
    - the re-entry patch (`controller.py:479`);
    - the pool list (237);
    - the claim patch (283);
    - the finalising get, patch and VMI get (534, 541, 546);
    - the delete handler's two deletes (826, 850);
    - the timer's delete (883).
  - In the clone branch (631-757), the same failure reaches the catch-all clause described above.
  - In the gateway, the helper's resource, VMI and pod lookups (`main.py:685-739`, 778-846) catch only `ApiException`. Any other failure reaches the command and health endpoints' own catch-all, which answers 500 (578-585, 631-639).
  - The create and stop endpoints (435-493) and the VNC lookups (260-322) catch only `ApiException`. Any other failure ends in the framework's default error handling.
- The create request's malformed shapes are not modelled. The body parameter is required and `timeoutMs` is a plain integer (`main.py:131-135`, 440). So FastAPI answers 422 for a missing body, for `timeoutMs: null` and for a `timeoutMs` that is not an integer. `Responses.RequestedTimeout` takes only an absent or an integer `timeoutMs`. Likewise the command request's `command` is a required string (`main.py:138-140`, 530), so a missing or non-string `command` is answered 422 before the handler runs. The model starts from the command string.
- A pod named with the empty string is not modelled apart from other pods. The source's `if pod_name` checks (`main.py:834`, 846) would treat it as absent, but the model reports it as found. Kubernetes never gives a pod an empty name.

## Findings

| source | as written | input that shows it | evidently intended | confidence | as-written member | corrected member |
|---|---|---|---|---|---|---|
| services/cyberdesk-operator/handlers/controller.py:441-453, 504-508 | `_ensure_vm_patched_and_running` turns every `ApiException` into `kopf.TemporaryError`, so the `except ApiException` with its 404 "forcing re-provision" branch never runs. A desk whose VM was deleted is retried every 10 s forever. | record `virtualMachineRef="desk-1"`, `lastPhase="Cloned"`, with the VM patch answering 404 | a 404 provisions the desk afresh in the same pass (the `{}` status at `controller.py:508` would clear nothing even if that branch ran: under merge-patch semantics an empty patch keeps the record) | not executed | Provisioning.ReentryAsWritten (with Provisioning.MissingVmCounterexample, used by Provisioning.Reconcile) | Provisioning.ReentryStep (with Provisioning.MissingVmForcesReprovision, used by Provisioning.ReconcileIntended) |
| services/cyberdesk-operator/handlers/controller.py:499-500 | `del patch.status["cyberdesk_create"]["cloneOperationName"]` only takes the key out of the merge patch, so a stored clone-operation name survives the merge. | record `virtualMachineRef="desk-1"`, `cloneOperationName="clone-for-desk-1"`, `lastPhase="Cloned"`, with the VM still there | the clone-operation name is removed from the record whenever a VM is recorded | not executed | Provisioning.ReentryPatchAsWritten (with Provisioning.StaleCloneOpCounterexample, Provisioning.ProvisionedReentry) | Provisioning.ReentryPatch (with Provisioning.ProvisionedReentryIntended) |
| services/gateway/main.py:826-840 | The search resets `pod_name` to `None` after every non-Running match, so the 503 "found but not in Running phase" answer is unreachable. A VM with only a Pending pod is reported as having no pod (404). | one pod `virt-launcher-desk-1-x7k2p` with domain `desk-1` in phase `Pending` | 503 when the VM's pod exists but is not Running | not executed | Routing.SearchPodsAsWritten (with Routing.AsWrittenSearchNever503, Routing.PendingPodCounterexample, used by Routing.LocalProxyRequest) | Routing.SearchPods (with Routing.PodSearchOutcomeSpec) |
