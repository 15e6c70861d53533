/**
 * The readiness watcher: when the `Ready` condition of a desk's
 * VirtualMachineInstance turns `True` (cloud-init has finished), the
 * operator POSTs to the gateway's ready endpoint once.
 */
module Readiness {
  import opened Wrappers
  import opened Kube

  /** One entry of `status.conditions`: its `type` and its `status`. */
  datatype Condition = Condition(kind: Option<string>, status: Option<string>)

  predicate IsReady(c: Condition)
  {
    c.kind == Some("Ready")
  }

  predicate IsReadyTrue(c: Condition)
  {
    IsReady(c) && c.status == Some("True")
  }

  /** The first condition of type `Ready`. */
  function FirstReady(conditions: seq<Condition>): (r: Option<Condition>)
    ensures r.Some? ==> IsReady(r.value)
  {
    if conditions == [] then None
    else if IsReady(conditions[0]) then Some(conditions[0])
    else FirstReady(conditions[1..])
  }

  /** Some condition is `Ready` with status `True`. */
  predicate AnyReadyTrue(conditions: seq<Condition>)
  {
    exists i :: 0 <= i < |conditions| && IsReadyTrue(conditions[i])
  }

  /** Specification of the watcher: the URL it POSTs to, or `None`. A list
      that is `None` in the event counts as empty, as Python's `not` does. */
  function ReadyNotification(before: seq<Condition>, after: seq<Condition>, labels: Labels, gatewayBase: Option<string>): Option<string>
  {
    if after == [] || !HasLabel(labels, AppKey, AppName) || !Truthy(Get(labels, InstanceKey)) then None
    else
      var ready := FirstReady(after);
      if ready.Some? && ready.value.status == Some("True") && !AnyReadyTrue(before) && Truthy(gatewayBase)
      then Some(ReadyUrl(gatewayBase.value, labels[InstanceKey]))
      else None
  }

  /** `vmi_ready_watcher`: find the first `Ready` condition of the new list,
      look for a `Ready=True` one in the old list, and notify on the edge. */
  method VmiReadyWatcher(before: seq<Condition>, after: seq<Condition>, labels: Labels, gatewayBase: Option<string>)
    returns (notify: Option<string>)
    ensures notify == ReadyNotification(before, after, labels, gatewayBase)
  {
    notify := None;
    if |after| == 0 {
      return;
    }
    if !HasLabel(labels, AppKey, AppName) || !Truthy(Get(labels, InstanceKey)) {
      return;
    }
    var instanceId := labels[InstanceKey];

    var readyCondition: Option<Condition> := None;
    var i := 0;
    while i < |after|
      invariant 0 <= i <= |after|
      invariant FirstReady(after) == FirstReady(after[i..])
      invariant readyCondition.None?
    {
      assert after[i..][1..] == after[i + 1..];
      if IsReady(after[i]) {
        readyCondition := Some(after[i]);
        break;
      }
      i := i + 1;
    }
    assert readyCondition == FirstReady(after);
    if readyCondition.None? {
      return;
    }
    var isReady := readyCondition.value.status == Some("True");

    var wasReady := false;
    var j := 0;
    while j < |before|
      invariant 0 <= j <= |before|
      invariant forall k :: 0 <= k < j ==> !IsReadyTrue(before[k])
      invariant !wasReady
    {
      if IsReady(before[j]) && before[j].status == Some("True") {
        wasReady := true;
        break;
      }
      j := j + 1;
    }
    assert wasReady == AnyReadyTrue(before);

    if isReady && !wasReady && Truthy(gatewayBase) {
      notify := Some(ReadyUrl(gatewayBase.value, instanceId));
    }
  }

  /** `FirstReady` picks the `Ready` condition of least index, and finds
      none exactly when there is none. */
  lemma {:induction false} FirstReadyIsFirst(conditions: seq<Condition>)
    ensures FirstReady(conditions).Some? ==>
      exists k :: 0 <= k < |conditions| && FirstReady(conditions) == Some(conditions[k])
        && forall j :: 0 <= j < k ==> !IsReady(conditions[j])
    ensures FirstReady(conditions).None? <==> forall k :: 0 <= k < |conditions| ==> !IsReady(conditions[k])
  {
    if conditions != [] {
      var rest := conditions[1..];
      FirstReadyIsFirst(rest);
      if !IsReady(conditions[0]) {
        if FirstReady(rest).Some? {
          var k :| 0 <= k < |rest| && FirstReady(rest) == Some(rest[k])
            && forall j :: 0 <= j < k ==> !IsReady(rest[j]);
          assert FirstReady(conditions) == Some(conditions[k + 1]);
          forall j | 0 <= j < k + 1 ensures !IsReady(conditions[j]) {
            if j > 0 { assert conditions[j] == rest[j - 1]; }
          }
        }
        forall k | 0 <= k < |conditions| && FirstReady(rest).None? ensures !IsReady(conditions[k]) {
          if k > 0 { assert conditions[k] == rest[k - 1]; }
        }
        if FirstReady(rest).Some? {
          var k :| 0 <= k < |rest| && FirstReady(rest) == Some(rest[k]);
          assert IsReady(conditions[k + 1]);
        }
      }
    }
  }

  /** A notification is sent only on the edge: the old conditions had no
      `Ready=True`, and the first `Ready` condition of the new ones is
      `True`; and it names the instance the VMI is labelled with, which the
      gateway reads back from the URL. */
  lemma NotifiesOnReadyEdge(before: seq<Condition>, after: seq<Condition>, labels: Labels, gatewayBase: Option<string>)
    ensures var n := ReadyNotification(before, after, labels, gatewayBase);
      n.Some? ==>
        && !AnyReadyTrue(before)
        && FirstReady(after).Some? && FirstReady(after).value.status == Some("True")
        && AnyReadyTrue(after)
        && Truthy(gatewayBase)
        && InstanceKey in labels
        && HasLabel(labels, AppKey, AppName)
        && n.value == ReadyUrl(gatewayBase.value, labels[InstanceKey])
        && |gatewayBase.value| + |ReadyPathPrefix| + |ReadyPathSuffix| <= |n.value|
        && InstanceOfReadyUrl(gatewayBase.value, n.value) == labels[InstanceKey]
  {
    FirstReadyIsFirst(after);
    var n := ReadyNotification(before, after, labels, gatewayBase);
    if n.Some? {
      var k :| 0 <= k < |after| && FirstReady(after) == Some(after[k]);
      assert IsReadyTrue(after[k]);
      ReadyUrlRoundTrip(gatewayBase.value, labels[InstanceKey]);
    }
  }

  /** The edge does cause a notification: a managed, labelled VMI whose
      first `Ready` condition turns `True`, with none before, is announced
      whenever the gateway is configured. */
  lemma ReadyEdgeNotifies(before: seq<Condition>, after: seq<Condition>, labels: Labels, gatewayBase: Option<string>)
    requires HasLabel(labels, AppKey, AppName) && Truthy(Get(labels, InstanceKey)) && Truthy(gatewayBase)
    requires FirstReady(after).Some? && FirstReady(after).value.status == Some("True")
    requires forall k :: 0 <= k < |before| ==> !IsReadyTrue(before[k])
    ensures ReadyNotification(before, after, labels, gatewayBase) == Some(ReadyUrl(gatewayBase.value, labels[InstanceKey]))
  {
  }

  /** The same conditions delivered again (old equal to new) never notify:
      the gateway is told once per transition. */
  lemma RedeliveryIsQuiet(conditions: seq<Condition>, labels: Labels, gatewayBase: Option<string>)
    ensures ReadyNotification(conditions, conditions, labels, gatewayBase) == None
  {
    NotifiesOnReadyEdge(conditions, conditions, labels, gatewayBase);
  }
}
