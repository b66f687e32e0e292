/** The termination classifier: the decision the monitor takes for one container
    status of a modified pod. */
module Classifier {
  import opened Kube

  /** Exit code 128 + 9: the container's main process was killed with SIGKILL. */
  const SigKillExitCode := 137

  /** The two kinds of disruption the monitor reports. */
  datatype Disruption = OOMKilled | NonGracefulTermination

  /** One line the monitor prints, as a value: the container, its pod, and the kind. */
  datatype Report = Report(container: string, pod: string, kind: Disruption)

  /** The attribute lookups that fail because the client left an object as None.
      Each raises AttributeError, which nothing catches, so the monitor stops. */
  datatype Fault = MissingPodStatus | MissingContainerState

  /** What examining one container status leads to. */
  datatype Step = Emit(report: Report) | Quiet | Raise(fault: Fault)

  /** The deletion metadata taken as the sign of a forced deletion: a deletion
      timestamp is set and the grace period is exactly zero (an absent grace
      period is not zero). */
  predicate ForceDeleted(m: Metadata) {
    m.deletionTimestamp.Some? && m.deletionGracePeriodSeconds == Some(0)
  }

  /** When a termination counts as a disruption of kind `k`, stated per kind. */
  predicate Qualifies(m: Metadata, t: Terminated, k: Disruption) {
    t.exitCode == SigKillExitCode &&
    match k
    case OOMKilled => t.reason == Some("OOMKilled")
    case NonGracefulTermination => t.reason == Some("Error") && ForceDeleted(m)
  }

  /** The if/elif chain applied to one container status of a pod with metadata `m`. */
  function Classify(m: Metadata, cs: ContainerStatus): Step {
    match cs.state
    case None => Raise(MissingContainerState)
    case Some(state) =>
      if state.terminated.Some? && state.terminated.value.exitCode == SigKillExitCode then
        var reason := state.terminated.value.reason;
        if reason == Some("OOMKilled") then
          Emit(Report(cs.name, m.name, OOMKilled))
        else if reason == Some("Error") then
          if ForceDeleted(m) then
            Emit(Report(cs.name, m.name, NonGracefulTermination))
          else
            Quiet
        else
          Quiet
      else
        Quiet
  }

  /** The classifier fails exactly on a container status without a state, emits a
      report of kind `k` exactly when the termination qualifies as `k`, and every
      report it emits names the container and the pod it examined. */
  lemma ClassifySpec(m: Metadata, cs: ContainerStatus, k: Disruption)
    ensures Classify(m, cs).Raise? <==> cs.state.None?
    ensures Classify(m, cs).Raise? ==> Classify(m, cs).fault == MissingContainerState
    ensures Classify(m, cs) == Emit(Report(cs.name, m.name, k)) <==>
      cs.state.Some? && cs.state.value.terminated.Some? &&
      Qualifies(m, cs.state.value.terminated.value, k)
    ensures Classify(m, cs).Emit? ==>
      Classify(m, cs).report.container == cs.name && Classify(m, cs).report.pod == m.name
  {
  }

  /** A container that has not terminated, or terminated with an exit code other
      than 137, is not reported. */
  lemma NotKilledIsQuiet(m: Metadata, cs: ContainerStatus)
    requires cs.state.Some?
    requires cs.state.value.terminated.None? || cs.state.value.terminated.value.exitCode != SigKillExitCode
    ensures Classify(m, cs) == Quiet
  {
  }

  /** Exit code 137 with reason "OOMKilled" gives one OOMKilled report for that
      container and pod, whatever the pod's deletion metadata says. */
  lemma OOMKillIgnoresDeletion(m: Metadata, other: Metadata, cs: ContainerStatus)
    requires cs.state.Some? && cs.state.value.terminated.Some?
    requires cs.state.value.terminated.value.exitCode == SigKillExitCode
    requires cs.state.value.terminated.value.reason == Some("OOMKilled")
    requires other.name == m.name
    ensures Classify(m, cs) == Emit(Report(cs.name, m.name, OOMKilled))
    ensures Classify(other, cs) == Classify(m, cs)
  {
  }

  /** Exit code 137 with reason "Error" gives a NonGracefulTermination report if and
      only if the pod has a deletion timestamp and a grace period of exactly 0. */
  lemma ErrorNeedsForcedDeletion(m: Metadata, cs: ContainerStatus)
    requires cs.state.Some? && cs.state.value.terminated.Some?
    requires cs.state.value.terminated.value.exitCode == SigKillExitCode
    requires cs.state.value.terminated.value.reason == Some("Error")
    ensures Classify(m, cs) ==
      if ForceDeleted(m)
      then Emit(Report(cs.name, m.name, NonGracefulTermination))
      else Quiet
    ensures m.deletionGracePeriodSeconds.None? ==> Classify(m, cs) == Quiet
  {
  }

  /** Exit code 137 with no reason, or a reason other than "OOMKilled" and "Error",
      is not reported. */
  lemma OtherReasonIsQuiet(m: Metadata, cs: ContainerStatus)
    requires cs.state.Some? && cs.state.value.terminated.Some?
    requires cs.state.value.terminated.value.reason != Some("OOMKilled")
    requires cs.state.value.terminated.value.reason != Some("Error")
    ensures Classify(m, cs) == Quiet
  {
  }
}
