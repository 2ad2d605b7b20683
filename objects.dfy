/**
 * The Kubernetes object records the core reads, restricted to the fields it
 * uses. Timestamps are whole nanoseconds since the epoch.
 */
module Objects {
  import opened Common

  datatype ObjectMeta = ObjectMeta(
    name: string,
    creationTimestamp: Option<int>,
    deletionTimestamp: Option<int>)

  datatype ContainerStateWaiting = ContainerStateWaiting(reason: Option<string>)

  datatype ContainerStateRunning = ContainerStateRunning(startedAt: Option<int>)

  datatype ContainerStateTerminated = ContainerStateTerminated(
    reason: Option<string>,
    finishedAt: Option<int>)

  /** At most one of the three is meant to be present; nothing enforces it. */
  datatype ContainerState = ContainerState(
    running: Option<ContainerStateRunning>,
    terminated: Option<ContainerStateTerminated>,
    waiting: Option<ContainerStateWaiting>)

  datatype ContainerStatus = ContainerStatus(
    name: string,
    ready: bool,
    restartCount: int,
    state: Option<ContainerState>,
    lastState: Option<ContainerState>)

  datatype PodStatus = PodStatus(
    phase: Option<string>,
    initContainerStatuses: Option<seq<ContainerStatus>>,
    containerStatuses: Option<seq<ContainerStatus>>)

  datatype Pod = Pod(metadata: ObjectMeta, status: Option<PodStatus>)

  datatype DeploymentStatus = DeploymentStatus(
    replicas: Option<int>,
    readyReplicas: Option<int>,
    updatedReplicas: Option<int>,
    availableReplicas: Option<int>)

  datatype Deployment = Deployment(metadata: ObjectMeta, status: Option<DeploymentStatus>)
}
