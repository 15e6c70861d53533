/**
 * One reconciliation pass of the `cyberdesk_create` handler.
 *
 * The handler is driven by the record it keeps under
 * `status.cyberdesk_create` of the Cyberdesk resource. A pass either confirms
 * an already provisioned VM, claims a VM from the warm pool, records that a
 * clone of the golden snapshot is to be made, creates that clone, or
 * evaluates its phase. It ends in success, in a retry after a fixed delay
 * (kopf's TemporaryError) or in a permanent failure (kopf's PermanentError),
 * and a status record it writes is applied whichever way it ends.
 *
 * `Reconcile` is the pass as the source runs it. `ReconcileIntended` is the
 * same pass with the re-entry check its comments describe, which the source
 * does not reach.
 *
 * Every cluster read of the pass is a field of `Observation`; every cluster
 * write it issues is an `Effect` in the order issued.
 */
module Provisioning {
  import opened Wrappers
  import opened Kube
  import opened WarmPool

  // Values of `lastPhase`. "Running" is only read, from older records.
  const AssignedFromPool := "AssignedFromPool"
  const Cloned := "Cloned"
  const LegacyRunning := "Running"
  const CloningInitiated := "CloningInitiated"
  const CloneFailed := "CloneFailed"
  const CloneTimeout := "CloneTimeout"

  const DefaultTimeoutMs := 3600000
  const MaxCloneWaitRetries := 20
  /** Retry delays, in seconds. */
  const CloneWaitDelay := 5
  const PatchRetryDelay := 10
  const PoolListRetryDelay := 15
  /** kopf's delay for a TemporaryError raised without one, and for any
      other exception a handler raises. */
  const KopfDefaultDelay := 60

  /** The record under `status.cyberdesk_create`; `None` is an absent key.
      Times are milliseconds. */
  datatype CreateStatus = CreateStatus(
    vmRef: Option<string>,
    cloneOp: Option<string>,
    lastPhase: Option<string>,
    startTime: Option<int>,
    expiryTime: Option<int>)

  const EmptyStatus := CreateStatus(None, None, None, None, None)

  /** How a handler invocation ends, as kopf sees it. */
  datatype Outcome = Done | Temporary(delay: nat) | Permanent

  /** A write the pass sends to the cluster or the gateway. */
  datatype Effect =
    | EnsureVmRunning(vm: string)          // label the VM and set runStrategy Always
    | ClaimVm(claim: ClaimPatch)           // a warm-pool claim patch
    | LabelVm(vm: string, labels: Labels, templateLabels: Labels)
    | NotifyGateway(url: string)
    | CreateClone(name: string, target: string)
    | DeleteClone(name: string)

  /** What one pass does: the patch it leaves in `patch.status` for the
      record (if it assigns one), how it ends, and the writes it issues. */
  datatype Step = Step(written: Option<RecordPatch>, outcome: Outcome, effects: seq<Effect>)

  datatype PoolList = PoolListFailed(status: int) | PoolListed(vms: seq<PoolVm>, rejected: set<string>)
  datatype VmFetch = VmFetched(labels: Labels, templateLabels: Labels) | VmFetchFailed(status: int)
  datatype CloneLookup = CloneFound(phase: Option<string>) | CloneGetFailed(status: int)

  /** How the POST to the gateway after a pool assignment ends: delivered;
      failed with an error the handler catches and logs (a URLError, an
      HTTPError or a TimeoutError); or failed with any other exception, which
      leaves the handler (a ValueError for a base URL without a scheme, an
      `http.client.RemoteDisconnected` from the response). */
  datatype NotifyResult = Delivered | NotifyCaught | NotifyRaised

  /** The cluster reads a pass may make; a pass consults only those on its path. */
  datatype Observation = Observation(
    vmPatch: ApiResult,        // patching the VM named by virtualMachineRef
    pool: PoolList,            // the warm-pool VM list and refused claim patches
    poolVm: VmFetch,           // the claimed VM, for its current labels
    poolVmPatch: ApiResult,    // the operator's label patch of the claimed VM
    poolVmi: VmiLookup,        // the claimed VM's instance
    notify: NotifyResult,      // the gateway notification for a pool VM
    cloneGet: CloneLookup,     // the VirtualMachineClone named in the record
    clonedVmPatch: ApiResult)  // patching the VM a finished clone produced

  /** The desk's own timeout, one hour when it gives none. */
  function TimeoutOf(specTimeoutMs: Option<int>): int
  {
    if specTimeoutMs.Some? then specTimeoutMs.value else DefaultTimeoutMs
  }

  /** One key of a JSON merge patch (RFC 7386): left out of the patch, set
      to `None` (which deletes it), or set to a value. */
  datatype Field<T> = Keep | Delete | Put(value: T)

  /** What the handler assigns to `patch.status["cyberdesk_create"]`, key by key. */
  datatype RecordPatch = RecordPatch(
    vmRef: Field<string>,
    cloneOp: Field<string>,
    lastPhase: Field<string>,
    startTime: Field<int>,
    expiryTime: Field<int>)

  /** `{}`: a patch that changes nothing. */
  const NoChange := RecordPatch(Keep, Keep, Keep, Keep, Keep)

  function ApplyField<T>(current: Option<T>, f: Field<T>): Option<T>
  {
    match f
    case Keep => current
    case Delete => None
    case Put(v) => Some(v)
  }

  /** The stored record once kopf has merged `p` into it. */
  function Apply(st: CreateStatus, p: RecordPatch): CreateStatus
  {
    CreateStatus(ApplyField(st.vmRef, p.vmRef), ApplyField(st.cloneOp, p.cloneOp),
                 ApplyField(st.lastPhase, p.lastPhase), ApplyField(st.startTime, p.startTime),
                 ApplyField(st.expiryTime, p.expiryTime))
  }

  function Resend<T>(v: Option<T>): Field<T>
  {
    if v.Some? then Put(v.value) else Keep
  }

  /** `{**current_status}`: every stored key sent back with its stored value.
      Merging it changes nothing and it deletes no key. */
  function Echo(st: CreateStatus): (p: RecordPatch)
    ensures Apply(st, p) == st
    ensures !p.vmRef.Delete? && !p.cloneOp.Delete? && !p.lastPhase.Delete? && !p.startTime.Delete? && !p.expiryTime.Delete?
  {
    RecordPatch(Resend(st.vmRef), Resend(st.cloneOp), Resend(st.lastPhase), Resend(st.startTime), Resend(st.expiryTime))
  }

  /** The stored record after a pass. */
  function NewStatus(st: CreateStatus, s: Step): CreateStatus
  {
    if s.written.Some? then Apply(st, s.written.value) else st
  }

  /** The record says a VM is already provisioned. */
  predicate Provisioned(st: CreateStatus)
  {
    Truthy(st.vmRef) && st.lastPhase.Some? && st.lastPhase.value in {AssignedFromPool, Cloned, LegacyRunning}
  }

  function CloneOpName(instanceId: string): string
  {
    "clone-for-" + instanceId
  }

  // ---------------------------------------------------------------------
  // Re-entry of a provisioned resource
  // ---------------------------------------------------------------------

  /** The stored keys sent back for a provisioned resource whose VM is
      still there, with start and expiry set from `now` when either is
      missing. */
  function RefreshedEcho(st: CreateStatus, now: int, timeoutMs: int): RecordPatch
  {
    if st.startTime.None? || st.expiryTime.None?
    then Echo(st).(startTime := Put(now), expiryTime := Put(now + timeoutMs))
    else Echo(st)
  }

  /** The re-entry patch as the source has it: `del` takes the clone
      operation key out of the patch, so the merge leaves a stored one in
      place. Merged, it keeps the VM, the phase and any clone operation, and
      sets start and expiry from `now` only when one of them is missing. */
  function ReentryPatchAsWritten(st: CreateStatus, now: int, timeoutMs: int): (p: RecordPatch)
    ensures var n := Apply(st, p);
      && n.vmRef == st.vmRef && n.cloneOp == st.cloneOp && n.lastPhase == st.lastPhase
      && (st.startTime.Some? && st.expiryTime.Some? ==> n == st)
      && (st.startTime.None? || st.expiryTime.None? ==> n.startTime == Some(now) && n.expiryTime == Some(now + timeoutMs))
  {
    RefreshedEcho(st, now, timeoutMs).(cloneOp := Keep)
  }

  /** The re-entry patch as intended: the clone operation key is sent as
      `None`, which removes it from the record. Merged, it keeps the VM and
      the phase, and start and expiry as the as-written patch does. */
  function ReentryPatch(st: CreateStatus, now: int, timeoutMs: int): (p: RecordPatch)
    ensures var n := Apply(st, p);
      && n.vmRef == st.vmRef && n.cloneOp.None? && n.lastPhase == st.lastPhase
      && (st.startTime.Some? && st.expiryTime.Some? ==> n == st.(cloneOp := None))
      && (st.startTime.None? || st.expiryTime.None? ==> n.startTime == Some(now) && n.expiryTime == Some(now + timeoutMs))
  {
    RefreshedEcho(st, now, timeoutMs).(cloneOp := Delete)
  }

  /** The input that shows it: a provisioned record that still names a
      clone operation keeps it after the as-written re-entry, and loses it
      after the intended one. */
  lemma StaleCloneOpCounterexample()
    ensures var st := CreateStatus(Some("desk-1"), Some("clone-for-desk-1"), Some(Cloned), Some(0), Some(3600000));
      && Apply(st, ReentryPatchAsWritten(st, 5000, 3600000)).cloneOp == Some("clone-for-desk-1")
      && Apply(st, ReentryPatch(st, 5000, 3600000)).cloneOp == None
  {
  }

  /** The two re-entry patches agree on every other key, and agree outright
      on a record that names no clone operation. */
  lemma ReentryPatchCorrectionIsLocal(st: CreateStatus, now: int, timeoutMs: int)
    ensures Apply(st, ReentryPatch(st, now, timeoutMs)) == Apply(st, ReentryPatchAsWritten(st, now, timeoutMs)).(cloneOp := None)
    ensures st.cloneOp.None? ==> Apply(st, ReentryPatch(st, now, timeoutMs)) == Apply(st, ReentryPatchAsWritten(st, now, timeoutMs))
  {
  }

  /** The re-entry check either ends the pass or lets it go on with the
      patch assigned so far. */
  datatype Reentry = Finished(written: Option<RecordPatch>, outcome: Outcome) | Proceed(written: Option<RecordPatch>)

  /** The re-entry check as the source has it: the VM patch helper turns
      every API error into a TemporaryError, so a missing VM is retried
      forever and the "force re-provision" branch never runs. */
  function ReentryAsWritten(st: CreateStatus, vmPatch: ApiResult, now: int, timeoutMs: int): (r: Reentry)
    ensures r.Finished? <==> Provisioned(st)
  {
    if !Provisioned(st) then Proceed(None)
    else if vmPatch.ApiError? then Finished(None, Temporary(PatchRetryDelay))
    else Finished(Some(ReentryPatchAsWritten(st, now, timeoutMs)), Done)
  }

  /** The re-entry check as intended: a VM that is gone (404) assigns `{}`
      and the pass goes on to provision a new one; a confirmed record loses
      its clone operation key. */
  function ReentryStep(st: CreateStatus, vmPatch: ApiResult, now: int, timeoutMs: int): (r: Reentry)
    ensures r.Finished? ==> Provisioned(st)
    ensures !Provisioned(st) ==> r == Proceed(None)
  {
    if !Provisioned(st) then Proceed(None)
    else match vmPatch
      case ApiOk => Finished(Some(ReentryPatch(st, now, timeoutMs)), Done)
      case ApiError(status) =>
        if status == 404 then Proceed(Some(NoChange)) else Finished(None, Temporary(PatchRetryDelay))
  }

  // ---------------------------------------------------------------------
  // Warm pool
  // ---------------------------------------------------------------------

  function ClaimEffects(attempts: seq<ClaimPatch>): (r: seq<Effect>)
    ensures |r| == |attempts|
    ensures forall i :: 0 <= i < |r| ==> r[i] == ClaimVm(attempts[i])
  {
    if attempts == [] then [] else [ClaimVm(attempts[0])] + ClaimEffects(attempts[1..])
  }

  /** The record of a VM assigned from the pool. */
  function PoolPatch(vm: string, now: int, timeoutMs: int): RecordPatch
  {
    RecordPatch(Put(vm), Delete, Put(AssignedFromPool), Put(now), Put(now + timeoutMs))
  }

  /** Finishing a claimed VM: merge the operator's labels into it, check its
      instance is Running with an address, tell the gateway, record it. The
      pass succeeds exactly when every step of that goes through, and only
      then records the VM; the notification may fail only with an error the
      handler catches. */
  function FinalizePoolVm(instanceId: string, vm: string, obs: Observation, gatewayBase: Option<string>, now: int, timeoutMs: int): (r: Step)
    ensures !r.outcome.Permanent?
    ensures r.outcome.Done? <==>
      && obs.poolVm.VmFetched? && obs.poolVmPatch.ApiOk?
      && obs.poolVmi.VmiFound? && obs.poolVmi.phase == Some("Running") && Truthy(FirstIp(obs.poolVmi.interfaces))
      && !(Truthy(gatewayBase) && obs.notify.NotifyRaised?)
    ensures r.outcome.Done? ==> r.written == Some(PoolPatch(vm, now, timeoutMs))
    ensures !r.outcome.Done? ==> r.written.None?
  {
    match obs.poolVm
    case VmFetchFailed(_) => Step(None, Temporary(PatchRetryDelay), [])
    case VmFetched(labels, templateLabels) =>
      var relabel := LabelVm(vm, MergeLabels(labels, OperatorVmLabels(instanceId)),
                                 MergeLabels(templateLabels, OperatorTemplateLabels(instanceId)));
      if obs.poolVmPatch.ApiError? then Step(None, Temporary(PatchRetryDelay), [relabel])
      else match obs.poolVmi
        case VmiError(status) =>
          Step(None, Temporary(if status == 404 then KopfDefaultDelay else PatchRetryDelay), [relabel])
        case VmiFound(phase, interfaces) =>
          if !Truthy(FirstIp(interfaces)) || phase != Some("Running") then
            Step(None, Temporary(KopfDefaultDelay), [relabel])
          else if !Truthy(gatewayBase) then
            Step(Some(PoolPatch(vm, now, timeoutMs)), Done, [relabel])
          else
            var notify := NotifyGateway(ReadyUrl(gatewayBase.value, instanceId));
            // An exception the notification's `except` does not name leaves
            // the handler before the record is assigned; kopf retries it.
            if obs.notify.NotifyRaised? then Step(None, Temporary(KopfDefaultDelay), [relabel, notify])
            else Step(Some(PoolPatch(vm, now, timeoutMs)), Done, [relabel, notify])
  }

  /** The record that announces a clone before the clone object exists;
      start and expiry are not part of it. */
  function CloneInitiatedPatch(instanceId: string): RecordPatch
  {
    RecordPatch(Delete, Put(CloneOpName(instanceId)), Put(CloningInitiated), Keep, Keep)
  }

  /** No clone operation yet: claim a warm VM, or announce a clone. Success
      records the first claimable VM; the clone is announced exactly when
      the pool has none; nothing else is written. */
  function PoolStep(instanceId: string, obs: Observation, gatewayBase: Option<string>, now: int, timeoutMs: int): (r: Step)
    ensures !r.outcome.Permanent?
    ensures r.outcome.Done? ==>
      && obs.pool.PoolListed? && FirstClaimable(obs.pool.vms, obs.pool.rejected).Some?
      && r.written == Some(PoolPatch(FirstClaimable(obs.pool.vms, obs.pool.rejected).value, now, timeoutMs))
    ensures r.written == Some(CloneInitiatedPatch(instanceId)) <==>
      obs.pool.PoolListed? && FirstClaimable(obs.pool.vms, obs.pool.rejected).None?
    ensures r.written.Some? && !r.outcome.Done? ==> r.written == Some(CloneInitiatedPatch(instanceId))
  {
    match obs.pool
    case PoolListFailed(_) => Step(None, Temporary(PoolListRetryDelay), [])
    case PoolListed(vms, rejected) =>
      var claims := ClaimEffects(ClaimAttempts(vms, rejected));
      match FirstClaimable(vms, rejected)
      case None => Step(Some(CloneInitiatedPatch(instanceId)), Temporary(CloneWaitDelay), claims)
      case Some(vm) =>
        var f := FinalizePoolVm(instanceId, vm, obs, gatewayBase, now, timeoutMs);
        Step(f.written, f.outcome, claims + f.effects)
  }

  // ---------------------------------------------------------------------
  // Clone
  // ---------------------------------------------------------------------

  /** `{**current_status, lastPhase, cloneOperationName: None, virtualMachineRef: None}` */
  function AbandonPatch(st: CreateStatus, phase: string): RecordPatch
  {
    Echo(st).(lastPhase := Put(phase), cloneOp := Delete, vmRef := Delete)
  }

  /** The record of a VM made by a finished clone; the VM is named after the instance. */
  function ClonedPatch(instanceId: string, now: int, timeoutMs: int): RecordPatch
  {
    RecordPatch(Put(instanceId), Delete, Put(Cloned), Put(now), Put(now + timeoutMs))
  }

  /** A clone operation `name` is recorded: create it if missing, else act
      on its phase. Success means a finished clone whose VM took the patch;
      a permanent failure means a failed clone or one still running after
      20 retries; a retry writes nothing. */
  function CloneStep(instanceId: string, st: CreateStatus, name: string, obs: Observation, retry: nat, now: int, timeoutMs: int): (r: Step)
    ensures r.outcome.Done? <==> obs.cloneGet == CloneFound(Some("Succeeded")) && obs.clonedVmPatch.ApiOk?
    ensures r.outcome.Done? ==> r.written == Some(ClonedPatch(instanceId, now, timeoutMs))
    ensures r.outcome.Permanent? <==>
      && obs.cloneGet.CloneFound?
      && (|| obs.cloneGet.phase == Some("Failed")
          || (obs.cloneGet.phase !in {Some("Succeeded"), Some("Failed"), Some("Unknown")} && retry >= MaxCloneWaitRetries))
    ensures r.outcome.Permanent? ==>
      r.written == Some(AbandonPatch(st, if obs.cloneGet.phase == Some("Failed") then CloneFailed else CloneTimeout))
    ensures r.outcome.Temporary? ==> r.written.None? && r.outcome.delay in {CloneWaitDelay, PatchRetryDelay}
  {
    match obs.cloneGet
    case CloneGetFailed(status) =>
      // Creating the clone, or failing to, ends the pass the same way.
      Step(None, Temporary(CloneWaitDelay), if status == 404 then [CreateClone(name, instanceId)] else [])
    case CloneFound(phase) =>
      if phase == Some("Succeeded") then
        if obs.clonedVmPatch.ApiError? then Step(None, Temporary(PatchRetryDelay), [EnsureVmRunning(instanceId)])
        else Step(Some(ClonedPatch(instanceId, now, timeoutMs)), Done, [EnsureVmRunning(instanceId)])
      else if phase == Some("Failed") then Step(Some(AbandonPatch(st, CloneFailed)), Permanent, [])
      else if phase == Some("Unknown") then Step(None, Temporary(CloneWaitDelay), [])
      else if retry >= MaxCloneWaitRetries then Step(Some(AbandonPatch(st, CloneTimeout)), Permanent, [DeleteClone(name)])
      else Step(None, Temporary(CloneWaitDelay), [])
  }

  // ---------------------------------------------------------------------
  // The pass
  // ---------------------------------------------------------------------

  /** The rest of a pass once the re-entry check has answered `re`. */
  function PassAfter(instanceId: string, st: CreateStatus, re: Reentry, obs: Observation, gatewayBase: Option<string>,
                     retry: nat, now: int, timeoutMs: int): Step
    requires re.Finished? ==> Provisioned(st)
  {
    match re
    case Finished(w, o) => Step(w, o, [EnsureVmRunning(st.vmRef.value)])
    case Proceed(w) =>
      var before := if Provisioned(st) then [EnsureVmRunning(st.vmRef.value)] else [];
      var next :=
        if Truthy(st.cloneOp) then CloneStep(instanceId, st, st.cloneOp.value, obs, retry, now, timeoutMs)
        else PoolStep(instanceId, obs, gatewayBase, now, timeoutMs);
      Step(if next.written.Some? then next.written else w, next.outcome, before + next.effects)
  }

  /** One pass of `cyberdesk_create`, as the source runs it, for the
      resource named `instanceId` whose record is `st`, on kopf retry number
      `retry`, at time `now`. A permanent failure always leaves a failed
      record with neither a VM nor a clone. Success always leaves a
      provisioned record with a VM and a start and expiry; a newly
      provisioned one names no clone operation, while a confirmed one keeps
      whatever clone operation it stored. */
  function Reconcile(instanceId: string, st: CreateStatus, obs: Observation, gatewayBase: Option<string>,
                     retry: nat, now: int, timeoutMs: int): (r: Step)
    ensures r.outcome.Permanent? ==>
      && r.written.Some?
      && var n := NewStatus(st, r);
         n.vmRef.None? && n.cloneOp.None? && n.lastPhase in {Some(CloneFailed), Some(CloneTimeout)}
    ensures r.outcome.Done? ==>
      && r.written.Some?
      && var n := NewStatus(st, r);
         && n.vmRef.Some?
         && n.lastPhase in {Some(AssignedFromPool), Some(Cloned), Some(LegacyRunning)}
         && n.startTime.Some? && n.expiryTime.Some?
         && n.cloneOp == (if Provisioned(st) then st.cloneOp else None)
  {
    PassAfter(instanceId, st, ReentryAsWritten(st, obs.vmPatch, now, timeoutMs), obs, gatewayBase, retry, now, timeoutMs)
  }

  /** The same pass with the intended re-entry check: a VM that is gone is
      provisioned afresh, and success never leaves a clone operation in the
      record. */
  function ReconcileIntended(instanceId: string, st: CreateStatus, obs: Observation, gatewayBase: Option<string>,
                             retry: nat, now: int, timeoutMs: int): (r: Step)
    ensures r.outcome.Permanent? ==>
      && r.written.Some?
      && var n := NewStatus(st, r);
         n.vmRef.None? && n.cloneOp.None? && n.lastPhase in {Some(CloneFailed), Some(CloneTimeout)}
    ensures r.outcome.Done? ==>
      && r.written.Some?
      && var n := NewStatus(st, r);
         && n.vmRef.Some? && n.cloneOp.None?
         && n.lastPhase in {Some(AssignedFromPool), Some(Cloned), Some(LegacyRunning)}
         && n.startTime.Some? && n.expiryTime.Some?
  {
    PassAfter(instanceId, st, ReentryStep(st, obs.vmPatch, now, timeoutMs), obs, gatewayBase, retry, now, timeoutMs)
  }

  /** A provisioned resource whose VM is still there: no pool or clone work,
      success, and the record kept as stored (clone operation included),
      except that start and expiry are both set from `now` when either is
      missing. */
  lemma ProvisionedReentry(instanceId: string, st: CreateStatus, obs: Observation, gatewayBase: Option<string>,
                           retry: nat, now: int, timeoutMs: int)
    requires Provisioned(st) && obs.vmPatch == ApiOk
    ensures var r := Reconcile(instanceId, st, obs, gatewayBase, retry, now, timeoutMs);
      && r.outcome == Done
      && r.effects == [EnsureVmRunning(st.vmRef.value)]
      && NewStatus(st, r) ==
           (if st.startTime.None? || st.expiryTime.None?
            then st.(startTime := Some(now), expiryTime := Some(now + timeoutMs))
            else st)
  {
  }

  /** (Intended behaviour.) The same re-entry with the clone operation
      removed from the record. */
  lemma ProvisionedReentryIntended(instanceId: string, st: CreateStatus, obs: Observation, gatewayBase: Option<string>,
                                   retry: nat, now: int, timeoutMs: int)
    requires Provisioned(st) && obs.vmPatch == ApiOk
    ensures var r := ReconcileIntended(instanceId, st, obs, gatewayBase, retry, now, timeoutMs);
      && r.outcome == Done
      && r.effects == [EnsureVmRunning(st.vmRef.value)]
      && NewStatus(st, r) ==
           (if st.startTime.None? || st.expiryTime.None?
            then st.(startTime := Some(now), expiryTime := Some(now + timeoutMs), cloneOp := None)
            else st.(cloneOp := None))
  {
  }

  /** Re-entry is idempotent: a second pass over the record the first one
      stored succeeds and leaves that record as it is, whatever the time. */
  lemma ReentryIsIdempotent(instanceId: string, st: CreateStatus, obs: Observation, gatewayBase: Option<string>,
                            retry1: nat, now1: int, retry2: nat, now2: int, timeoutMs: int)
    requires Provisioned(st) && obs.vmPatch == ApiOk
    ensures var s1 := NewStatus(st, Reconcile(instanceId, st, obs, gatewayBase, retry1, now1, timeoutMs));
      var r2 := Reconcile(instanceId, s1, obs, gatewayBase, retry2, now2, timeoutMs);
      r2.outcome == Done && NewStatus(s1, r2) == s1
  {
  }

  /** Where the source's pass and the intended one part: they are the same
      pass for a record that is not provisioned; for a provisioned one the
      source retries every failed VM patch after 10 s with nothing written,
      which the intended pass also does for every error but a 404; and a
      confirmed VM ends both passes alike, except that the intended one
      drops the clone operation. */
  lemma PassesDifferOnlyOnReentry(instanceId: string, st: CreateStatus, obs: Observation, gatewayBase: Option<string>,
                                  retry: nat, now: int, timeoutMs: int)
    ensures var r := Reconcile(instanceId, st, obs, gatewayBase, retry, now, timeoutMs);
      var ri := ReconcileIntended(instanceId, st, obs, gatewayBase, retry, now, timeoutMs);
      && (!Provisioned(st) ==> ri == r)
      && (Provisioned(st) && obs.vmPatch.ApiError? ==> r == Step(None, Temporary(PatchRetryDelay), [EnsureVmRunning(st.vmRef.value)]))
      && (Provisioned(st) && obs.vmPatch.ApiError? && obs.vmPatch.status != 404 ==> ri == r)
      && (Provisioned(st) && obs.vmPatch.ApiOk? ==>
            ri.outcome == r.outcome && ri.effects == r.effects
            && NewStatus(st, ri) == NewStatus(st, r).(cloneOp := None))
  {
    if Provisioned(st) && obs.vmPatch.ApiOk? {
      ReentryPatchCorrectionIsLocal(st, now, timeoutMs);
    }
  }

  /** (Intended behaviour.) A provisioned resource whose VM is gone is
      provisioned afresh in the same pass: it ends as the source's pass over
      an empty record does, with the same patch (or `{}` where that pass
      assigns none), and success means a VM assigned from the pool. */
  lemma MissingVmForcesReprovision(instanceId: string, st: CreateStatus, obs: Observation, gatewayBase: Option<string>,
                                   retry: nat, now: int, timeoutMs: int)
    requires Provisioned(st) && obs.vmPatch == ApiError(404) && !Truthy(st.cloneOp)
    ensures var r := ReconcileIntended(instanceId, st, obs, gatewayBase, retry, now, timeoutMs);
      var anew := Reconcile(instanceId, EmptyStatus, obs, gatewayBase, retry, now, timeoutMs);
      && r.outcome == anew.outcome
      && r.effects == [EnsureVmRunning(st.vmRef.value)] + anew.effects
      && r.written == (if anew.written.Some? then anew.written else Some(NoChange))
      && (r.outcome.Done? ==> NewStatus(st, r).lastPhase == Some(AssignedFromPool))
  {
  }

  /** The as-written re-entry never lets a provisioned resource go on to be
      provisioned again: any failed VM patch is retried with the record
      untouched. Away from a 404 it ends the pass as the intended check
      does. */
  lemma ReentryAsWrittenNeverReprovisions(st: CreateStatus, vmPatch: ApiResult, now: int, timeoutMs: int)
    requires Provisioned(st)
    ensures ReentryAsWritten(st, vmPatch, now, timeoutMs).Finished?
    ensures vmPatch.ApiError? ==> ReentryAsWritten(st, vmPatch, now, timeoutMs) == Finished(None, Temporary(PatchRetryDelay))
    ensures vmPatch != ApiError(404) ==>
      && ReentryStep(st, vmPatch, now, timeoutMs).Finished?
      && ReentryAsWritten(st, vmPatch, now, timeoutMs).outcome == ReentryStep(st, vmPatch, now, timeoutMs).outcome
  {
  }

  /** The input that shows it: a cloned desk whose VM was deleted behind the
      operator's back is retried every 10 s with its record untouched. */
  lemma MissingVmCounterexample()
    ensures var st := CreateStatus(Some("desk-1"), None, Some(Cloned), Some(0), Some(3600000));
      && ReentryAsWritten(st, ApiError(404), 5000, 3600000) == Finished(None, Temporary(PatchRetryDelay))
      && ReentryStep(st, ApiError(404), 5000, 3600000) == Proceed(Some(NoChange))
  {
  }

  /** Nothing recorded and no warm VM: the pass only announces the clone
      (named after the instance, no VM recorded), creates no clone object,
      and asks to be retried. Other stored keys are kept by the merge. */
  lemma NoWarmVmAnnouncesClone(instanceId: string, st: CreateStatus, obs: Observation, gatewayBase: Option<string>,
                               retry: nat, now: int, timeoutMs: int)
    requires !Provisioned(st) && !Truthy(st.cloneOp)
    requires obs.pool.PoolListed? && FirstClaimable(obs.pool.vms, obs.pool.rejected).None?
    ensures var r := Reconcile(instanceId, st, obs, gatewayBase, retry, now, timeoutMs);
      && NewStatus(st, r) == st.(vmRef := None, cloneOp := Some("clone-for-" + instanceId), lastPhase := Some(CloningInitiated))
      && r.outcome == Temporary(CloneWaitDelay)
      && forall e :: e in r.effects ==> e.ClaimVm?
  {
  }

  /** A recorded clone operation whose object does not exist yet is created
      and the pass is retried; the record is left as it is. */
  lemma MissingCloneIsCreated(instanceId: string, st: CreateStatus, obs: Observation, gatewayBase: Option<string>,
                              retry: nat, now: int, timeoutMs: int)
    requires !Provisioned(st) && Truthy(st.cloneOp) && obs.cloneGet == CloneGetFailed(404)
    ensures Reconcile(instanceId, st, obs, gatewayBase, retry, now, timeoutMs)
      == Step(None, Temporary(CloneWaitDelay), [CreateClone(st.cloneOp.value, instanceId)])
  {
  }

  /** What the clone's phase decides. */
  lemma CloneEvaluation(instanceId: string, st: CreateStatus, obs: Observation, gatewayBase: Option<string>,
                        retry: nat, now: int, timeoutMs: int)
    requires !Provisioned(st) && Truthy(st.cloneOp) && obs.cloneGet.CloneFound?
    ensures var r := Reconcile(instanceId, st, obs, gatewayBase, retry, now, timeoutMs);
      var phase := obs.cloneGet.phase;
      && (phase == Some("Succeeded") && obs.clonedVmPatch == ApiOk ==>
            r.outcome == Done
            && NewStatus(st, r) == CreateStatus(Some(instanceId), None, Some(Cloned), Some(now), Some(now + timeoutMs)))
      && (phase == Some("Failed") ==>
            r.outcome == Permanent
            && NewStatus(st, r) == st.(lastPhase := Some(CloneFailed), cloneOp := None, vmRef := None))
      && (phase == Some("Unknown") ==> r == Step(None, Temporary(CloneWaitDelay), []))
      && (phase !in {Some("Succeeded"), Some("Failed"), Some("Unknown")} ==>
            && (r.outcome == Permanent <==> retry >= 20)
            && (retry >= 20 ==>
                  NewStatus(st, r) == st.(lastPhase := Some(CloneTimeout), cloneOp := None, vmRef := None)
                  && r.effects == [DeleteClone(st.cloneOp.value)])
            && (retry < 20 ==> r == Step(None, Temporary(CloneWaitDelay), [])))
  {
  }

  /** A claimed warm VM that is labelled and Running with an address is
      recorded with expiry `now + timeoutMs`, after the claim patches and
      the label merge, and the gateway is told when it is configured. */
  lemma PoolAssignment(instanceId: string, st: CreateStatus, obs: Observation, gatewayBase: Option<string>,
                       retry: nat, now: int, timeoutMs: int)
    requires !Provisioned(st) && !Truthy(st.cloneOp)
    requires obs.pool.PoolListed? && FirstClaimable(obs.pool.vms, obs.pool.rejected).Some?
    requires obs.poolVm.VmFetched? && obs.poolVmPatch == ApiOk
    requires obs.poolVmi.VmiFound? && obs.poolVmi.phase == Some("Running") && Truthy(FirstIp(obs.poolVmi.interfaces))
    requires !(Truthy(gatewayBase) && obs.notify.NotifyRaised?)
    ensures var r := Reconcile(instanceId, st, obs, gatewayBase, retry, now, timeoutMs);
      var vm := FirstClaimable(obs.pool.vms, obs.pool.rejected).value;
      && r.outcome == Done
      && NewStatus(st, r) == CreateStatus(Some(vm), None, Some(AssignedFromPool), Some(now), Some(now + timeoutMs))
      && r.effects == ClaimEffects(ClaimAttempts(obs.pool.vms, obs.pool.rejected))
           + [LabelVm(vm, MergeLabels(obs.poolVm.labels, OperatorVmLabels(instanceId)),
                          MergeLabels(obs.poolVm.templateLabels, OperatorTemplateLabels(instanceId)))]
           + (if Truthy(gatewayBase) then [NotifyGateway(ReadyUrl(gatewayBase.value, instanceId))] else [])
  {
  }

  /** A notification that fails with an exception the handler does not
      catch ends the pass before the record is assigned: kopf retries after
      its default delay, the record is as stored, and the claimed VM keeps
      the claim and the labels already patched into it. */
  lemma EscapedNotifyLeavesClaimUnrecorded(instanceId: string, st: CreateStatus, obs: Observation, gatewayBase: Option<string>,
                                           retry: nat, now: int, timeoutMs: int)
    requires !Provisioned(st) && !Truthy(st.cloneOp)
    requires obs.pool.PoolListed? && FirstClaimable(obs.pool.vms, obs.pool.rejected).Some?
    requires obs.poolVm.VmFetched? && obs.poolVmPatch == ApiOk
    requires obs.poolVmi.VmiFound? && obs.poolVmi.phase == Some("Running") && Truthy(FirstIp(obs.poolVmi.interfaces))
    requires Truthy(gatewayBase) && obs.notify.NotifyRaised?
    ensures var r := Reconcile(instanceId, st, obs, gatewayBase, retry, now, timeoutMs);
      var vm := FirstClaimable(obs.pool.vms, obs.pool.rejected).value;
      && r.outcome == Temporary(KopfDefaultDelay)
      && NewStatus(st, r) == st
      && r.effects == ClaimEffects(ClaimAttempts(obs.pool.vms, obs.pool.rejected))
           + [LabelVm(vm, MergeLabels(obs.poolVm.labels, OperatorVmLabels(instanceId)),
                          MergeLabels(obs.poolVm.templateLabels, OperatorTemplateLabels(instanceId))),
              NotifyGateway(ReadyUrl(gatewayBase.value, instanceId))]
      && exists i :: 0 <= i < |r.effects| && r.effects[i].ClaimVm? && r.effects[i].claim.vmName == vm
  {
    ClaimAttemptsOutcome(obs.pool.vms, obs.pool.rejected);
    var r := Reconcile(instanceId, st, obs, gatewayBase, retry, now, timeoutMs);
    var a := ClaimAttempts(obs.pool.vms, obs.pool.rejected);
    var claims := ClaimEffects(a);
    assert r.effects[|a| - 1] == claims[|a| - 1] == ClaimVm(a[|a| - 1]);
  }

  // ---------------------------------------------------------------------
  // The record across passes
  // ---------------------------------------------------------------------

  /** What each `lastPhase` implies about the rest of the record. */
  predicate Coherent(st: CreateStatus, timeoutMs: int)
  {
    match st.lastPhase
    case None => st == EmptyStatus
    case Some(p) =>
      && (p == AssignedFromPool || p == Cloned ==>
            && Truthy(st.vmRef) && st.cloneOp.None?
            && st.startTime.Some? && st.expiryTime.Some?
            && st.expiryTime.value == st.startTime.value + timeoutMs)
      && (p == CloningInitiated ==> Truthy(st.cloneOp) && st.vmRef.None?)
      && (p == CloneFailed || p == CloneTimeout ==> st.vmRef.None? && st.cloneOp.None?)
  }

  /** The phases the operator itself writes, or none. */
  predicate KnownPhase(p: Option<string>)
  {
    p.None? || p.value in {CloningInitiated, AssignedFromPool, Cloned, CloneFailed, CloneTimeout}
  }

  /** The moves of `lastPhase` one pass may make. */
  predicate Successor(from: Option<string>, to: Option<string>)
  {
    || from == to
    || (from != Some(CloningInitiated) && to in {Some(CloningInitiated), Some(AssignedFromPool)})
    || (from == Some(CloningInitiated) && to in {Some(Cloned), Some(CloneFailed), Some(CloneTimeout)})
  }

  /** Passes keep the record coherent and move `lastPhase` only along the
      lifecycle: a clone is evaluated only after it was announced, and a
      provisioned record is left only for a new VM or a new clone. */
  lemma ReconcileKeepsLifecycle(instanceId: string, st: CreateStatus, obs: Observation, gatewayBase: Option<string>,
                                retry: nat, now: int, timeoutMs: int)
    requires instanceId != ""
    requires Coherent(st, timeoutMs) && KnownPhase(st.lastPhase)
    ensures var st' := NewStatus(st, Reconcile(instanceId, st, obs, gatewayBase, retry, now, timeoutMs));
      && Coherent(st', timeoutMs)
      && KnownPhase(st'.lastPhase)
      && Successor(st.lastPhase, st'.lastPhase)
  {
    var re := ReentryAsWritten(st, obs.vmPatch, now, timeoutMs);
    var r := Reconcile(instanceId, st, obs, gatewayBase, retry, now, timeoutMs);
    if re.Finished? {
      // A confirmed VM: the stored record, coherent already, comes back.
      assert NewStatus(st, r) == NewStatus(st, Step(re.written, re.outcome, []));
    } else {
      var next :=
        if Truthy(st.cloneOp) then CloneStep(instanceId, st, st.cloneOp.value, obs, retry, now, timeoutMs)
        else PoolStep(instanceId, obs, gatewayBase, now, timeoutMs);
      if next.written.None? {
        assert NewStatus(st, r) == st;
      } else if Truthy(st.cloneOp) {
        CloneStepKeepsLifecycle(instanceId, st, obs, retry, now, timeoutMs);
      } else {
        PoolStepKeepsLifecycle(instanceId, st, obs, gatewayBase, now, timeoutMs);
      }
    }
  }

  /** A record written by the clone branch is coherent and follows the
      lifecycle. */
  lemma CloneStepKeepsLifecycle(instanceId: string, st: CreateStatus, obs: Observation, retry: nat, now: int, timeoutMs: int)
    requires instanceId != "" && Truthy(st.cloneOp)
    requires Coherent(st, timeoutMs) && KnownPhase(st.lastPhase)
    requires CloneStep(instanceId, st, st.cloneOp.value, obs, retry, now, timeoutMs).written.Some?
    ensures var st' := Apply(st, CloneStep(instanceId, st, st.cloneOp.value, obs, retry, now, timeoutMs).written.value);
      && Coherent(st', timeoutMs)
      && KnownPhase(st'.lastPhase)
      && Successor(st.lastPhase, st'.lastPhase)
  {
    assert st.lastPhase in {Some(CloningInitiated), Some(AssignedFromPool), Some(Cloned)};
  }

  /** A record written by the pool branch is coherent and follows the
      lifecycle. */
  lemma PoolStepKeepsLifecycle(instanceId: string, st: CreateStatus, obs: Observation, gatewayBase: Option<string>, now: int, timeoutMs: int)
    requires instanceId != "" && !Truthy(st.cloneOp)
    requires Coherent(st, timeoutMs) && KnownPhase(st.lastPhase)
    requires PoolStep(instanceId, obs, gatewayBase, now, timeoutMs).written.Some?
    ensures var st' := Apply(st, PoolStep(instanceId, obs, gatewayBase, now, timeoutMs).written.value);
      && Coherent(st', timeoutMs)
      && KnownPhase(st'.lastPhase)
      && Successor(st.lastPhase, st'.lastPhase)
  {
    assert st.lastPhase != Some(CloningInitiated);
    assert PoolStep(instanceId, obs, gatewayBase, now, timeoutMs).written.value.lastPhase in {Put(CloningInitiated), Put(AssignedFromPool)};
  }

  // ---------------------------------------------------------------------
  // The handler, building kopf's status patch in place
  // ---------------------------------------------------------------------

  /** kopf's patch of the resource; `entry` is `patch.status["cyberdesk_create"]`. */
  class StatusPatch {
    var entry: Option<RecordPatch>

    constructor ()
      ensures entry == None
    {
      entry := None;
    }
  }

  /** `cyberdesk_create` step by step, writing into `patch` as the source
      does; it does exactly what `Reconcile` specifies. */
  method CyberdeskCreate(patch: StatusPatch, instanceId: string, st: CreateStatus, obs: Observation,
                         gatewayBase: Option<string>, retry: nat, now: int, timeoutMs: int)
    returns (outcome: Outcome, effects: seq<Effect>)
    modifies patch
    ensures var r := Reconcile(instanceId, st, obs, gatewayBase, retry, now, timeoutMs);
      && outcome == r.outcome
      && effects == r.effects
      && patch.entry == (if r.written.Some? then r.written else old(patch.entry))
  {
    effects := [];
    // Already provisioned?
    if Provisioned(st) {
      effects := [EnsureVmRunning(st.vmRef.value)];
      if obs.vmPatch.ApiError? {
        // The patch helper raises TemporaryError(delay=10) for every API
        // error, a missing VM included, and the handler re-raises it.
        return Temporary(PatchRetryDelay), effects;
      }
      if st.startTime.None? || st.expiryTime.None? {
        patch.entry := Some(Echo(st).(startTime := Put(now), expiryTime := Put(now + timeoutMs)));
      } else {
        patch.entry := Some(Echo(st));
      }
      // `del` takes the clone operation key out of the patch; the record
      // keeps its own.
      patch.entry := Some(patch.entry.value.(cloneOp := Keep));
      return Done, effects;
    }
    var rest: seq<Effect>;
    if Truthy(st.cloneOp) {
      outcome, rest := CheckClone(patch, instanceId, st, st.cloneOp.value, obs, retry, now, timeoutMs);
    } else {
      outcome, rest := ClaimFromPool(patch, instanceId, obs, gatewayBase, now, timeoutMs);
    }
    effects := effects + rest;
  }

  /** The warm-pool branch of the handler; it does what `PoolStep` specifies. */
  method ClaimFromPool(patch: StatusPatch, instanceId: string, obs: Observation,
                       gatewayBase: Option<string>, now: int, timeoutMs: int)
    returns (outcome: Outcome, effects: seq<Effect>)
    modifies patch
    ensures var s := PoolStep(instanceId, obs, gatewayBase, now, timeoutMs);
      && outcome == s.outcome
      && effects == s.effects
      && patch.entry == (if s.written.Some? then s.written else old(patch.entry))
  {
    if obs.pool.PoolListFailed? {
      return Temporary(PoolListRetryDelay), [];
    }
    var chosen, attempts := GetFreeVmFromPool(obs.pool.vms, obs.pool.rejected);
    effects := ClaimEffects(attempts);
    if chosen.None? {
      patch.entry := Some(CloneInitiatedPatch(instanceId));
      return Temporary(CloneWaitDelay), effects;
    }
    var rest: seq<Effect>;
    outcome, rest := FinalizeClaimed(patch, instanceId, chosen.value, obs, gatewayBase, now, timeoutMs);
    effects := effects + rest;
  }

  /** Labelling and checking a claimed VM; it does what `FinalizePoolVm` specifies. */
  method FinalizeClaimed(patch: StatusPatch, instanceId: string, vm: string, obs: Observation,
                         gatewayBase: Option<string>, now: int, timeoutMs: int)
    returns (outcome: Outcome, effects: seq<Effect>)
    modifies patch
    ensures var s := FinalizePoolVm(instanceId, vm, obs, gatewayBase, now, timeoutMs);
      && outcome == s.outcome
      && effects == s.effects
      && patch.entry == (if s.written.Some? then s.written else old(patch.entry))
  {
    if obs.poolVm.VmFetchFailed? {
      return Temporary(PatchRetryDelay), [];
    }
    effects := [LabelVm(vm, MergeLabels(obs.poolVm.labels, OperatorVmLabels(instanceId)),
                            MergeLabels(obs.poolVm.templateLabels, OperatorTemplateLabels(instanceId)))];
    if obs.poolVmPatch.ApiError? {
      return Temporary(PatchRetryDelay), effects;
    }
    if obs.poolVmi.VmiError? {
      return Temporary(if obs.poolVmi.status == 404 then KopfDefaultDelay else PatchRetryDelay), effects;
    }
    if !Truthy(FirstIp(obs.poolVmi.interfaces)) || obs.poolVmi.phase != Some("Running") {
      return Temporary(KopfDefaultDelay), effects;
    }
    if Truthy(gatewayBase) {
      effects := effects + [NotifyGateway(ReadyUrl(gatewayBase.value, instanceId))];
      if obs.notify.NotifyRaised? {
        // Not one of the errors the notification's `except` names.
        return Temporary(KopfDefaultDelay), effects;
      }
    }
    patch.entry := Some(PoolPatch(vm, now, timeoutMs));
    return Done, effects;
  }

  /** The clone branch of the handler; it does what `CloneStep` specifies. */
  method CheckClone(patch: StatusPatch, instanceId: string, st: CreateStatus, name: string, obs: Observation,
                    retry: nat, now: int, timeoutMs: int)
    returns (outcome: Outcome, effects: seq<Effect>)
    modifies patch
    ensures var s := CloneStep(instanceId, st, name, obs, retry, now, timeoutMs);
      && outcome == s.outcome
      && effects == s.effects
      && patch.entry == (if s.written.Some? then s.written else old(patch.entry))
  {
    effects := [];
    if obs.cloneGet.CloneGetFailed? {
      if obs.cloneGet.status == 404 {
        effects := [CreateClone(name, instanceId)];
      }
      return Temporary(CloneWaitDelay), effects;
    }
    var phase := obs.cloneGet.phase;
    if phase == Some("Succeeded") {
      effects := [EnsureVmRunning(instanceId)];
      if obs.clonedVmPatch.ApiError? {
        return Temporary(PatchRetryDelay), effects;
      }
      patch.entry := Some(ClonedPatch(instanceId, now, timeoutMs));
      return Done, effects;
    } else if phase == Some("Failed") {
      patch.entry := Some(AbandonPatch(st, CloneFailed));
      return Permanent, effects;
    } else if phase == Some("Unknown") {
      return Temporary(CloneWaitDelay), effects;
    } else if retry >= MaxCloneWaitRetries {
      patch.entry := Some(AbandonPatch(st, CloneTimeout));
      return Permanent, [DeleteClone(name)];
    }
    return Temporary(CloneWaitDelay), effects;
  }
}
