/**
 * The value types the rollout planner consumes and produces: deployment groups, host
 * liveness snapshots and rollout tasks.
 */
module Descriptors {
  import opened Wrappers

  /** A host name, the key of the host-status snapshot. */
  type Host = string

  /** A job identifier, compared only for equality. */
  type JobId = string

  /** Liveness of a host as reported in its host status. */
  datatype Status = Up | Down

  /** No host name occurs twice: the snapshot is a map. */
  predicate KeysDistinct(s: seq<(Host, Status)>) {
    forall i, j | 0 <= i < j < |s| :: s[i].0 != s[j].0
  }

  /** The host -> status snapshot, as its entries in the map's iteration order. */
  type HostStatusMap = s: seq<(Host, Status)> | KeysDistinct(s) witness []

  datatype Action = UndeployOldJobs | DeployNewJob | AwaitRunning

  /** One planned step; only DEPLOY_NEW_JOB tasks name a job. */
  datatype RolloutTask = RolloutTask(action: Action, target: Host, jobId: Option<JobId>)

  /** How many hosts are rolled at once, and whether the new job starts before the old ones are removed. */
  datatype RolloutOptions = RolloutOptions(parallelism: int, overlap: bool)

  /** The fields of a deployment group the planner reads. */
  datatype DeploymentGroup = DeploymentGroup(
    jobId: JobId,
    canaryJobId: Option<JobId>,
    rolloutOptions: Option<RolloutOptions>)

  /** The exceptions planning can raise. */
  datatype PlanError =
    | CanaryWithoutUpHosts     // subList(0, 1) on an empty host list
    | NonPositiveParallelism   // Lists.partition with a size below 1
}
