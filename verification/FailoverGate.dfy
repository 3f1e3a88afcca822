/** The start gate of a failover-mode pod: the polling loop of its startup script
    (internal/controller/resources_failover.go). */
module FailoverGate {
  import opened Common

  datatype AssignedRole = AsMaster | AsReplica

  /** The operator's stamp. The three annotations are always written together. */
  datatype Assignment = Assignment(role: AssignedRole, masterIP: string, epoch: nat)

  /** A pod's annotations as the downward-API file shows them. The authorisation to start as
      master is a separate annotation that no later stamp removes. */
  datatype Annotations = Annotations(assignment: Option<Assignment>, startAuth: Option<nat>)

  datatype Verdict = Park | Start(role: AssignedRole, epoch: nat)

  /** One turn of the wait loop, for a process that found `marker` on disk. */
  function Gate(a: Annotations, marker: Option<nat>): Verdict {
    match a.assignment
    case None => Park
    case Some(Assignment(role, masterIP, epoch)) =>
      if role.AsReplica? && masterIP == "" then Park
      else if marker.Some? && !(epoch > marker.value) then Park
      else if role.AsMaster? && marker.Some? && (a.startAuth.None? || !(a.startAuth.value > marker.value)) then Park
      else Start(role, epoch)
  }

  /** A container's data directory: what survives a process and is lost with the pod. */
  class StartupScript {
    var marker: Option<nat>
    var bootstrapInProgress: bool

    constructor ()
      ensures marker == None && !bootstrapInProgress
    {
      marker, bootstrapInProgress := None, false;
    }

    /** Runs the script against the successive annotation snapshots it polls. It starts on the
        first one the gate accepts, having recorded that snapshot's epoch, or is still parked
        when the snapshots run out. */
    method Run(polls: seq<Annotations>) returns (verdict: Verdict, at: nat)
      modifies this
      ensures at <= |polls|
      ensures forall i :: 0 <= i < at ==> Gate(polls[i], old(marker)) == Park
      ensures verdict == Park ==> at == |polls| && marker == old(marker) && bootstrapInProgress
      ensures verdict != Park ==>
                && at < |polls| && verdict == Gate(polls[at], old(marker)) && polls[at].assignment.Some?
                && verdict == Start(polls[at].assignment.value.role, polls[at].assignment.value.epoch)
                && marker == Some(verdict.epoch) && !bootstrapInProgress
    {
      bootstrapInProgress := true;
      var startedUnder := marker;
      for i := 0 to |polls|
        invariant marker == old(marker) && bootstrapInProgress
        invariant forall k :: 0 <= k < i ==> Gate(polls[k], old(marker)) == Park
      {
        var a := polls[i];
        if a.assignment.None? {
          continue;
        }
        var asg := a.assignment.value;
        if asg.role.AsReplica? && asg.masterIP == "" {
          continue;
        }
        if startedUnder.Some? && !(asg.epoch > startedUnder.value) {
          continue;
        }
        if asg.role.AsMaster? && startedUnder.Some? {
          if a.startAuth.None? || !(a.startAuth.value > startedUnder.value) {
            continue;
          }
        }
        marker := Some(asg.epoch);
        bootstrapInProgress := false;
        return Start(asg.role, asg.epoch), i;
      }
      return Park, |polls|;
    }
  }
}
