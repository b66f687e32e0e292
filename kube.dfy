/** The slice of the Kubernetes object model that the disruption monitor reads.
    Each field the monitor reads that the client may leave as None is an Option,
    except the pod metadata and its name, which the API server always sets for a
    pod. Fields the monitor never touches are not modelled. */
module Kube {

  datatype Option<+T> = None | Some(value: T)

  /** A deletion timestamp. In the client it is a datetime object, which is always
      truthy, so only its presence matters to the monitor. */
  datatype DateTime = DateTime(epochSeconds: int)

  /** The `terminated` part of a container state: the exit code and the optional
      reason string the kubelet sets ("OOMKilled", "Error", "Completed", ...). */
  datatype Terminated = Terminated(exitCode: int, reason: Option<string>)

  /** A container state; only its `terminated` part is read. */
  datatype ContainerState = ContainerState(terminated: Option<Terminated>)

  /** One entry of a pod's container-status list. */
  datatype ContainerStatus = ContainerStatus(name: string, state: Option<ContainerState>)

  /** The pod metadata the monitor reads: the name, and the deletion timestamp and
      grace period the API server sets once the pod is being deleted. */
  datatype Metadata = Metadata(
    name: string,
    deletionTimestamp: Option<DateTime>,
    deletionGracePeriodSeconds: Option<int>)

  /** The pod status; the container-status list is absent on pods not yet scheduled. */
  datatype PodStatus = PodStatus(containerStatuses: Option<seq<ContainerStatus>>)

  /** A pod snapshot as carried by a watch notification. */
  datatype Pod = Pod(metadata: Metadata, status: Option<PodStatus>)

  /** The `type` field of a watch notification. */
  datatype ChangeKind = Added | Modified | Deleted | Bookmark | WatchError

  /** One notification of the pod watch: its type and its `object`. */
  datatype Notification = Notification(kind: ChangeKind, pod: Pod)
}
