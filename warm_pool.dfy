/**
 * The warm pool: VirtualMachines kept running ahead of demand, labelled
 * `pool.kubevirt.io/warm=ready`. `get_free_vm_from_pool` walks the listed
 * VMs, claims the first usable one by patching its labels, and moves on to
 * the next one when a claim patch is refused. The operator then merges its
 * own labels into the claimed VM.
 */
module WarmPool {
  import opened Wrappers
  import opened Kube

  /** One item of the VM list: `metadata.name`, `metadata.labels` and
      `status.printableStatus`. */
  datatype PoolVm = PoolVm(name: Option<string>, labels: Labels, printableStatus: Option<string>)

  /** The claim patch sent for a VM: its new label map, and whether its
      `ownerReferences` are nulled (detaching it from the pool controller). */
  datatype ClaimPatch = ClaimPatch(vmName: string, labels: Labels, clearOwnerReferences: bool)

  /** A VM the search would try to claim: it has a name, is not already
      marked in use, and is Running. */
  predicate Eligible(vm: PoolVm)
  {
    && Truthy(vm.name)
    && !HasLabel(vm.labels, InUseKey, "true")
    && vm.printableStatus == Some("Running")
  }

  /** An eligible VM whose claim patch the API server accepts; the patch
      for a VM named in `rejected` fails. */
  predicate Claimable(vm: PoolVm, rejected: set<string>)
  {
    Eligible(vm) && vm.name.value !in rejected
  }

  /** The labels of a claimed VM: every existing label, with the pool's two
      markers overwritten. */
  function ClaimLabels(labels: Labels): (r: Labels)
    ensures r.Keys == labels.Keys + {InUseKey, WarmKey}
    ensures r[InUseKey] == "true" && r[WarmKey] == "claimed"
    ensures forall k :: k in labels && k != InUseKey && k != WarmKey ==> r[k] == labels[k]
  {
    labels[InUseKey := "true"][WarmKey := "claimed"]
  }

  function ClaimPatchFor(vm: PoolVm): ClaimPatch
    requires Truthy(vm.name)
  {
    ClaimPatch(vm.name.value, ClaimLabels(vm.labels), true)
  }

  /** Specification of the search: the name of the first claimable VM. */
  function FirstClaimable(vms: seq<PoolVm>, rejected: set<string>): (r: Option<string>)
    ensures r.Some? ==> r.value != ""
  {
    if vms == [] then None
    else if Claimable(vms[0], rejected) then Some(vms[0].name.value)
    else FirstClaimable(vms[1..], rejected)
  }

  /** Specification of the patches the search sends, in order: one per
      eligible VM, up to and including the first one that succeeds. */
  function ClaimAttempts(vms: seq<PoolVm>, rejected: set<string>): seq<ClaimPatch>
  {
    if vms == [] then []
    else if !Eligible(vms[0]) then ClaimAttempts(vms[1..], rejected)
    else if Claimable(vms[0], rejected) then [ClaimPatchFor(vms[0])]
    else [ClaimPatchFor(vms[0])] + ClaimAttempts(vms[1..], rejected)
  }

  /** The search loop itself: skip unnamed, in-use and not-Running VMs, try
      to claim the rest, and stop at the first claim that succeeds. */
  method GetFreeVmFromPool(vms: seq<PoolVm>, rejected: set<string>) returns (chosen: Option<string>, attempts: seq<ClaimPatch>)
    ensures chosen == FirstClaimable(vms, rejected)
    ensures attempts == ClaimAttempts(vms, rejected)
  {
    attempts := [];
    var i := 0;
    while i < |vms|
      invariant 0 <= i <= |vms|
      invariant FirstClaimable(vms, rejected) == FirstClaimable(vms[i..], rejected)
      invariant ClaimAttempts(vms, rejected) == attempts + ClaimAttempts(vms[i..], rejected)
    {
      var vm := vms[i];
      assert vms[i..][1..] == vms[i + 1..];
      if !Truthy(vm.name) {
        i := i + 1;
        continue;
      }
      if HasLabel(vm.labels, InUseKey, "true") {
        i := i + 1;
        continue;
      }
      if vm.printableStatus != Some("Running") {
        i := i + 1;
        continue;
      }
      var patch := ClaimPatch(vm.name.value, ClaimLabels(vm.labels), true);
      attempts := attempts + [patch];
      if vm.name.value !in rejected {
        return Some(vm.name.value), attempts;
      }
      i := i + 1;
    }
    chosen := None;
  }

  /** The search returns the first VM in list order that is claimable, and
      every VM before it is not. */
  lemma {:induction false} FirstClaimableIsFirst(vms: seq<PoolVm>, rejected: set<string>)
    ensures FirstClaimable(vms, rejected).Some? ==>
      exists k :: 0 <= k < |vms| && Claimable(vms[k], rejected)
        && FirstClaimable(vms, rejected) == Some(vms[k].name.value)
        && forall j :: 0 <= j < k ==> !Claimable(vms[j], rejected)
    ensures FirstClaimable(vms, rejected).None? <==> forall k :: 0 <= k < |vms| ==> !Claimable(vms[k], rejected)
  {
    if vms != [] {
      FirstClaimableIsFirst(vms[1..], rejected);
      if !Claimable(vms[0], rejected) {
        if FirstClaimable(vms, rejected).Some? {
          var k :| 0 <= k < |vms[1..]| && Claimable(vms[1..][k], rejected)
            && FirstClaimable(vms[1..], rejected) == Some(vms[1..][k].name.value)
            && forall j :: 0 <= j < k ==> !Claimable(vms[1..][j], rejected);
          assert Claimable(vms[k + 1], rejected);
          assert forall j :: 0 <= j < k + 1 ==> !Claimable(vms[j], rejected) by {
            forall j | 0 <= j < k + 1 ensures !Claimable(vms[j], rejected) {
              if j > 0 { assert vms[j] == vms[1..][j - 1]; }
            }
          }
        }
        assert (forall k :: 0 <= k < |vms[1..]| ==> !Claimable(vms[1..][k], rejected))
          <==> (forall k :: 0 <= k < |vms| ==> !Claimable(vms[k], rejected)) by {
          if forall k :: 0 <= k < |vms[1..]| ==> !Claimable(vms[1..][k], rejected) {
            forall k | 0 <= k < |vms| ensures !Claimable(vms[k], rejected) {
              if k > 0 { assert vms[k] == vms[1..][k - 1]; }
            }
          }
        }
      }
    }
  }

  /** Every patch the search sends is the claim patch of an eligible listed
      VM, so it keeps that VM's labels and marks it in use. */
  lemma {:induction false} ClaimAttemptsEligible(vms: seq<PoolVm>, rejected: set<string>)
    ensures forall p :: p in ClaimAttempts(vms, rejected) ==>
      exists vm :: vm in vms && Eligible(vm) && p == ClaimPatchFor(vm)
  {
    if vms != [] {
      ClaimAttemptsEligible(vms[1..], rejected);
      forall vm | vm in vms[1..] ensures vm in vms { }
    }
  }

  /** A refused claim does not end the search: every patch but the last was
      refused, and the last one succeeded exactly when a VM was chosen, which
      is the VM it names. */
  lemma {:induction false} ClaimAttemptsOutcome(vms: seq<PoolVm>, rejected: set<string>)
    ensures var a := ClaimAttempts(vms, rejected);
      && (forall i :: 0 <= i < |a| - 1 ==> a[i].vmName in rejected)
      && (FirstClaimable(vms, rejected).Some? <==> a != [] && a[|a| - 1].vmName !in rejected)
      && (FirstClaimable(vms, rejected).Some? ==> a[|a| - 1].vmName == FirstClaimable(vms, rejected).value)
  {
    if vms != [] {
      ClaimAttemptsOutcome(vms[1..], rejected);
      var a, t := ClaimAttempts(vms, rejected), ClaimAttempts(vms[1..], rejected);
      if Eligible(vms[0]) && !Claimable(vms[0], rejected) {
        assert a == [ClaimPatchFor(vms[0])] + t;
        forall i | 0 <= i < |a| - 1 ensures a[i].vmName in rejected {
          if i > 0 { assert a[i] == t[i - 1]; }
        }
      }
    }
  }

  /** The labels the operator puts on a claimed VM. */
  function OperatorVmLabels(instanceId: string): Labels
  {
    map[AppKey := AppName, InstanceKey := instanceId, ManagedByKey := ManagedBy]
  }

  /** The labels the operator puts on the VM's instance template. */
  function OperatorTemplateLabels(instanceId: string): Labels
  {
    OperatorVmLabels(instanceId)[DomainKey := instanceId]
  }

  /** `{**current, **operator}`: the operator's labels override the VM's
      current ones and every other current label is kept. */
  function MergeLabels(current: Labels, operator: Labels): (r: Labels)
    ensures r.Keys == current.Keys + operator.Keys
    ensures forall k :: k in operator ==> r[k] == operator[k]
    ensures forall k :: k in current && k !in operator ==> r[k] == current[k]
  {
    current + operator
  }

  /** After the claim and the operator's merge, the VM is still marked in use
      and claimed, and is tied to the instance. */
  lemma ClaimSurvivesOperatorMerge(labels: Labels, instanceId: string)
    ensures var r := MergeLabels(ClaimLabels(labels), OperatorVmLabels(instanceId));
      && HasLabel(r, InUseKey, "true")
      && HasLabel(r, WarmKey, "claimed")
      && HasLabel(r, InstanceKey, instanceId)
      && HasLabel(r, AppKey, AppName)
  {
  }
}
