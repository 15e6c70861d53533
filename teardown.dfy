/**
 * Tearing a desk down: the deletion handler removes whatever the record
 * says exists (the VM, or failing that a clone still in progress), and the
 * per-resource timer deletes the Cyberdesk resource once its expiry time
 * has passed, which in turn runs the deletion handler.
 */
module Teardown {
  import opened Wrappers
  import opened Kube
  import opened WarmPool
  import opened Provisioning

  /** What `cyberdesk_delete` tries to remove. */
  datatype DeleteTarget = DeleteVm(name: string) | DeleteCloneOperation(name: string) | NothingToDelete

  /** The VM when the record names one; otherwise the clone operation when
      the record names one; otherwise nothing. */
  function DeleteTargetOf(st: CreateStatus): (t: DeleteTarget)
    ensures t.DeleteVm? <==> Truthy(st.vmRef)
    ensures t.DeleteCloneOperation? <==> !Truthy(st.vmRef) && Truthy(st.cloneOp)
    ensures t.DeleteVm? ==> t.name == st.vmRef.value
    ensures t.DeleteCloneOperation? ==> t.name == st.cloneOp.value
  {
    if Truthy(st.vmRef) then DeleteVm(st.vmRef.value)
    else if Truthy(st.cloneOp) then DeleteCloneOperation(st.cloneOp.value)
    else NothingToDelete
  }

  /** How the deletion handler ends, given the answer of its delete call: a
      VM that is already gone (404, 410) counts as deleted, any other VM
      delete error is retried after 15 s, and a clone delete error is only
      logged. */
  function DeleteOutcome(t: DeleteTarget, answer: ApiResult): (o: Outcome)
    ensures !o.Permanent?
    ensures o.Temporary? <==> t.DeleteVm? && answer.ApiError? && answer.status != 404 && answer.status != 410
    ensures o.Temporary? ==> o.delay == 15
  {
    match t
    case DeleteVm(_) =>
      if answer.ApiError? && answer.status != 404 && answer.status != 410 then Temporary(15) else Done
    case DeleteCloneOperation(_) => Done
    case NothingToDelete => Done
  }

  /** Retrying the deletion handler converges: once the VM delete call
      reports the VM gone, the handler finishes. */
  lemma DeleteRetryConverges(st: CreateStatus, answer: ApiResult)
    requires answer == ApiOk || answer == ApiError(404) || answer == ApiError(410)
    ensures DeleteOutcome(DeleteTargetOf(st), answer) == Done
  {
  }

  /** A desk that was provisioned has its VM deleted. */
  lemma ProvisionedDeskDeletesItsVm(instanceId: string, st: CreateStatus, obs: Observation, gatewayBase: Option<string>,
                                    retry: nat, now: int, timeoutMs: int)
    requires instanceId != ""
    requires Reconcile(instanceId, st, obs, gatewayBase, retry, now, timeoutMs).outcome == Done
    ensures var st' := NewStatus(st, Reconcile(instanceId, st, obs, gatewayBase, retry, now, timeoutMs));
      DeleteTargetOf(st') == DeleteVm(st'.vmRef.value)
  {
    var r := Reconcile(instanceId, st, obs, gatewayBase, retry, now, timeoutMs);
    if ReentryAsWritten(st, obs.vmPatch, now, timeoutMs).Finished? {
      // The stored VM is confirmed and sent back.
      assert NewStatus(st, r).vmRef == st.vmRef;
    } else if Truthy(st.cloneOp) {
      // A finished clone records the VM named after the instance.
      assert r.written == CloneStep(instanceId, st, st.cloneOp.value, obs, retry, now, timeoutMs).written;
      assert NewStatus(st, r).vmRef == Some(instanceId);
    } else {
      // A VM claimed from the pool has a non-empty name.
      var f := FirstClaimable(obs.pool.vms, obs.pool.rejected);
      assert f.Some? && NewStatus(st, r).vmRef == f;
    }
  }

  /** A desk deleted while its clone is still announced has that clone
      operation deleted. */
  lemma AnnouncedCloneIsDeleted(st: CreateStatus, timeoutMs: int)
    requires Coherent(st, timeoutMs) && st.lastPhase == Some(CloningInitiated)
    ensures DeleteTargetOf(st) == DeleteCloneOperation(st.cloneOp.value)
  {
  }

  /** A desk whose provisioning failed for good leaves nothing to delete. */
  lemma FailedDeskLeavesNothing(instanceId: string, st: CreateStatus, obs: Observation, gatewayBase: Option<string>,
                                retry: nat, now: int, timeoutMs: int)
    requires Reconcile(instanceId, st, obs, gatewayBase, retry, now, timeoutMs).outcome == Permanent
    ensures DeleteTargetOf(NewStatus(st, Reconcile(instanceId, st, obs, gatewayBase, retry, now, timeoutMs))) == NothingToDelete
  {
  }

  /** `status.cyberdesk_create.expiryTime` as the timer reads it: missing or
      empty, not an ISO time, or a point in time (milliseconds). */
  datatype ExpiryField = NoExpiry | Unparsable | ExpiresAt(ms: int)

  /** The operator itself only stores parsable times. */
  function ExpiryOf(st: CreateStatus): ExpiryField
  {
    if st.expiryTime.Some? then ExpiresAt(st.expiryTime.value) else NoExpiry
  }

  /** The timer deletes the resource exactly when an expiry is recorded and
      `now` has reached it. */
  function TimerDeletes(expiry: ExpiryField, now: int): (d: bool)
    ensures d <==> expiry.ExpiresAt? && now >= expiry.ms
  {
    match expiry
    case NoExpiry => false
    case Unparsable => false
    case ExpiresAt(ms) => now >= ms
  }

  /** How the timer ends: a refused delete of an expired resource is
      retried after 30 s; a missing or unparsable expiry is skipped. */
  function TimerOutcome(expiry: ExpiryField, now: int, deleteAnswer: ApiResult): (o: Outcome)
    ensures !o.Permanent?
    ensures o.Temporary? <==> TimerDeletes(expiry, now) && deleteAnswer.ApiError?
    ensures o.Temporary? ==> o.delay == 30
  {
    if TimerDeletes(expiry, now) && deleteAnswer.ApiError? then Temporary(30) else Done
  }

  /** A provisioned desk lives exactly `timeoutMs` from its start time. */
  lemma ProvisionedDeskExpiresAfterTimeout(st: CreateStatus, timeoutMs: int, now: int)
    requires Coherent(st, timeoutMs) && st.lastPhase in {Some(AssignedFromPool), Some(Cloned)}
    ensures TimerDeletes(ExpiryOf(st), now) <==> now >= st.startTime.value + timeoutMs
  {
  }

  /** A desk that has just been assigned or cloned at `start` is deleted
      by the timer at `now` exactly when `now >= start + timeoutMs`, and
      the deletion then removes its VM. */
  lemma FreshDeskLifetime(instanceId: string, st: CreateStatus, obs: Observation, gatewayBase: Option<string>,
                          retry: nat, start: int, timeoutMs: int, now: int)
    requires instanceId != ""
    requires !Provisioned(st)
    requires Reconcile(instanceId, st, obs, gatewayBase, retry, start, timeoutMs).outcome == Done
    ensures var st' := NewStatus(st, Reconcile(instanceId, st, obs, gatewayBase, retry, start, timeoutMs));
      && (TimerDeletes(ExpiryOf(st'), now) <==> now >= start + timeoutMs)
      && DeleteTargetOf(st') == DeleteVm(st'.vmRef.value)
  {
    ProvisionedDeskDeletesItsVm(instanceId, st, obs, gatewayBase, retry, start, timeoutMs);
  }
}
