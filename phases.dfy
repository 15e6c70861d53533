/**
 * The operator keeps the instance row in the database in step with the
 * KubeVirt VirtualMachineInstance phase: a fixed table from VMI phases to
 * database statuses, with `error` for every phase it does not know, and the
 * `vmi_phase_change` field handler that writes the row only when it differs.
 */
module Phases {
  import opened Wrappers
  import opened Kube

  /** The statuses the database stores for an instance. */
  datatype DbStatus = Pending | Running | Terminated | Error

  /** The string stored in the database column. */
  function DbValue(s: DbStatus): string
  {
    match s
    case Pending => "pending"
    case Running => "running"
    case Terminated => "terminated"
    case Error => "error"
  }

  lemma DbValueInjective(a: DbStatus, b: DbStatus)
    ensures DbValue(a) == DbValue(b) <==> a == b
  {
  }

  /** The static table between the two state machines. `Running` maps to
      `pending`: only the readiness signal marks an instance running. */
  const VmiPhaseToDbStatus: map<string, DbStatus> := map[
    "Pending" := Pending,
    "Scheduling" := Pending,
    "Scheduled" := Pending,
    "Running" := Pending,
    "Succeeded" := Terminated,
    "Failed" := Error,
    "Unknown" := Error
  ]

  /** The status a VMI phase asks for; a string outside the KubeVirt phase
      enumeration is marked `error`. */
  function StatusForPhase(phase: string): (r: DbStatus)
    ensures r == Pending <==> phase in {"Pending", "Scheduling", "Scheduled", "Running"}
    ensures r == Terminated <==> phase == "Succeeded"
    ensures r == Error <==> phase !in {"Pending", "Scheduling", "Scheduled", "Running", "Succeeded"}
    ensures r != Running
  {
    if phase in VmiPhaseToDbStatus then VmiPhaseToDbStatus[phase] else Error
  }

  /** What one `status.phase` change of a VMI makes the operator write:
      the instance id and the new status, or nothing. `currentDb` is the
      stored status, `None` when the row is missing or the read failed. */
  function PhaseChange(newPhase: Option<string>, labels: Labels, currentDb: Option<string>): (r: Option<(string, DbStatus)>)
    ensures r.Some? <==>
      && newPhase.Some?
      && HasLabel(labels, AppKey, AppName)
      && Truthy(Get(labels, InstanceKey))
      && currentDb != Some(DbValue(StatusForPhase(newPhase.value)))
    ensures r.Some? ==> r.value.0 == labels[InstanceKey] && r.value.1 == StatusForPhase(newPhase.value)
  {
    if newPhase.None? then None
    else if !HasLabel(labels, AppKey, AppName) then None
    else
      var instanceId := Get(labels, InstanceKey);
      if !Truthy(instanceId) then None
      else
        var desired := StatusForPhase(newPhase.value);
        if currentDb != Some(DbValue(desired)) then Some((instanceId.value, desired)) else None
  }

  /** A warm-pool VMI, labelled `app=cyberdesk` but not yet tied to an
      instance, never causes a database write. */
  lemma WarmPoolVmiIgnored(newPhase: Option<string>, labels: Labels, currentDb: Option<string>)
    requires !Truthy(Get(labels, InstanceKey))
    ensures PhaseChange(newPhase, labels, currentDb) == None
  {
  }

  /** Once the row holds what a phase asks for, the same phase reported
      again writes nothing: the handler cannot loop on its own writes. */
  lemma PhaseChangeSettles(newPhase: Option<string>, labels: Labels, currentDb: Option<string>)
    requires PhaseChange(newPhase, labels, currentDb).Some?
    ensures PhaseChange(newPhase, labels, Some(DbValue(PhaseChange(newPhase, labels, currentDb).value.1))) == None
  {
  }
}
