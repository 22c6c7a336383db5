/**
 * The default rollout planner: from a deployment group and a host -> status snapshot, the
 * ordered list of tasks that rolls the group's job out across the hosts that are UP.
 */
module RolloutPlanner {
  import opened Wrappers
  import opened Descriptors
  import opened Partition

  /** The hosts whose status is UP, in snapshot order. */
  function UpHosts(s: seq<(Host, Status)>): (up: seq<Host>)
    ensures |up| <= |s|
    ensures forall h :: h in up <==> (h, Up) in s
  {
    if s == [] then []
    else
      assert s == [s[0]] + s[1..];
      (if s[0].1 == Up then [s[0].0] else []) + UpHosts(s[1..])
  }

  /** A canary host list can only be non-empty when the group names a canary job. */
  predicate CanaryHostsValid(g: DeploymentGroup, canaryHosts: seq<Host>) {
    canaryHosts == [] || g.canaryJobId.Some?
  }

  /**
   * The canary hosts: the first UP host when the group names a canary job, none otherwise.
   * Taking the first element of an empty list fails.
   */
  function CanaryHosts(g: DeploymentGroup, up: seq<Host>): (r: Result<seq<Host>, PlanError>)
    ensures r.Failure? <==> g.canaryJobId.Some? && up == []
    ensures r.Success? ==> CanaryHostsValid(g, r.value) && |r.value| <= 1
    ensures r.Success? ==> forall h :: h in r.value <==> g.canaryJobId.Some? && h == up[0]
  {
    if g.canaryJobId.Some? then
      if |up| == 0 then Failure(CanaryWithoutUpHosts) else Success(up[..1])
    else
      Success([])
  }

  /** The job a host is given: the canary job on a canary host, the group's job elsewhere. */
  function JobFor(g: DeploymentGroup, canaryHosts: seq<Host>, h: Host): JobId
    requires CanaryHostsValid(g, canaryHosts)
  {
    if h in canaryHosts then g.canaryJobId.value else g.jobId
  }

  /** The task `a` on every host, in host order, naming no job. */
  function EachHost(a: Action, hosts: seq<Host>): (ts: seq<RolloutTask>)
    ensures |ts| == |hosts|
    ensures forall k {:trigger ts[k]} | 0 <= k < |hosts| :: ts[k] == RolloutTask(a, hosts[k], None)
  {
    if hosts == [] then [] else [RolloutTask(a, hosts[0], None)] + EachHost(a, hosts[1..])
  }

  /** DEPLOY_NEW_JOB on every host, in host order, each with the job that host is given. */
  function DeployEach(g: DeploymentGroup, canaryHosts: seq<Host>, hosts: seq<Host>): (ts: seq<RolloutTask>)
    requires CanaryHostsValid(g, canaryHosts)
    ensures |ts| == |hosts|
    ensures forall k {:trigger ts[k]} | 0 <= k < |hosts| ::
      ts[k] == RolloutTask(DeployNewJob, hosts[k], Some(JobFor(g, canaryHosts, hosts[k])))
  {
    if hosts == [] then []
    else
      [RolloutTask(DeployNewJob, hosts[0], Some(JobFor(g, canaryHosts, hosts[0])))]
      + DeployEach(g, canaryHosts, hosts[1..])
  }

  /** For every host in turn, UNDEPLOY_OLD_JOBS immediately followed by its DEPLOY_NEW_JOB. */
  function UndeployThenDeployEach(g: DeploymentGroup, canaryHosts: seq<Host>, hosts: seq<Host>): (ts: seq<RolloutTask>)
    requires CanaryHostsValid(g, canaryHosts)
    ensures |ts| == 2 * |hosts|
    ensures forall k | 0 <= k < |hosts| ::
      && ts[2 * k] == RolloutTask(UndeployOldJobs, hosts[k], None)
      && ts[2 * k + 1] == RolloutTask(DeployNewJob, hosts[k], Some(JobFor(g, canaryHosts, hosts[k])))
  {
    if hosts == [] then []
    else
      var rest := UndeployThenDeployEach(g, canaryHosts, hosts[1..]);
      var ts := [RolloutTask(UndeployOldJobs, hosts[0], None),
                 RolloutTask(DeployNewJob, hosts[0], Some(JobFor(g, canaryHosts, hosts[0])))] + rest;
      assert forall k | 1 <= k < |hosts| ::
        && ts[2 * k] == RolloutTask(UndeployOldJobs, hosts[k], None)
        && ts[2 * k + 1] == RolloutTask(DeployNewJob, hosts[k], Some(JobFor(g, canaryHosts, hosts[k])))
      by {
        forall k | 1 <= k < |hosts|
          ensures ts[2 * k] == RolloutTask(UndeployOldJobs, hosts[k], None)
          ensures ts[2 * k + 1] == RolloutTask(DeployNewJob, hosts[k], Some(JobFor(g, canaryHosts, hosts[k])))
        {
          assert hosts[k] == hosts[1..][k - 1];
          assert ts[2 * k] == rest[2 * (k - 1)];
          assert ts[2 * k + 1] == rest[2 * (k - 1) + 1];
        }
      }
      ts
  }

  /**
   * The tasks for one partition without overlap: undeploy then deploy host by host, and only
   * then await every host. Host k's undeploy is at 2k, its deploy at 2k + 1, its await at 2m + k.
   */
  function RolloutTasks(g: DeploymentGroup, canaryHosts: seq<Host>, hosts: seq<Host>): (ts: seq<RolloutTask>)
    requires CanaryHostsValid(g, canaryHosts)
    ensures |ts| == 3 * |hosts|
    ensures forall k | 0 <= k < |hosts| ::
      && ts[2 * k] == RolloutTask(UndeployOldJobs, hosts[k], None)
      && ts[2 * k + 1] == RolloutTask(DeployNewJob, hosts[k], Some(JobFor(g, canaryHosts, hosts[k])))
      && ts[2 * |hosts| + k] == RolloutTask(AwaitRunning, hosts[k], None)
  {
    UndeployThenDeployEach(g, canaryHosts, hosts) + EachHost(AwaitRunning, hosts)
  }

  /**
   * The tasks for one partition with overlap: deploy every host, then await every host, then
   * undeploy every host. Host k's deploy is at k, its await at m + k, its undeploy at 2m + k.
   */
  function RolloutTasksWithOverlap(g: DeploymentGroup, canaryHosts: seq<Host>, hosts: seq<Host>): (ts: seq<RolloutTask>)
    requires CanaryHostsValid(g, canaryHosts)
    ensures |ts| == 3 * |hosts|
    ensures forall k | 0 <= k < |hosts| ::
      && ts[k] == RolloutTask(DeployNewJob, hosts[k], Some(JobFor(g, canaryHosts, hosts[k])))
      && ts[|hosts| + k] == RolloutTask(AwaitRunning, hosts[k], None)
      && ts[2 * |hosts| + k] == RolloutTask(UndeployOldJobs, hosts[k], None)
  {
    DeployEach(g, canaryHosts, hosts) + EachHost(AwaitRunning, hosts) + EachHost(UndeployOldJobs, hosts)
  }

  /** The tasks for one partition in the group's mode. */
  function PartitionTasks(g: DeploymentGroup, canaryHosts: seq<Host>, hosts: seq<Host>, overlap: bool): seq<RolloutTask>
    requires CanaryHostsValid(g, canaryHosts)
  {
    if overlap then RolloutTasksWithOverlap(g, canaryHosts, hosts) else RolloutTasks(g, canaryHosts, hosts)
  }

  /** The partitions' task lists concatenated in partition order. */
  function PartitionsTasks(g: DeploymentGroup, canaryHosts: seq<Host>, parts: seq<seq<Host>>, overlap: bool): seq<RolloutTask>
    requires CanaryHostsValid(g, canaryHosts)
  {
    if parts == [] then []
    else PartitionTasks(g, canaryHosts, parts[0], overlap) + PartitionsTasks(g, canaryHosts, parts[1..], overlap)
  }

  /** The group's parallelism; 1 when it has no rollout options. */
  function Parallelism(g: DeploymentGroup): int {
    if g.rolloutOptions.Some? then g.rolloutOptions.value.parallelism else 1
  }

  /** The group's overlap flag; false when it has no rollout options. */
  function Overlap(g: DeploymentGroup): bool {
    g.rolloutOptions.Some? && g.rolloutOptions.value.overlap
  }

  /** No entry of the snapshot is UP. */
  predicate NoHostUp(s: seq<(Host, Status)>) {
    forall i | 0 <= i < |s| :: s[i].1 != Up
  }

  /**
   * The rollout plan. It fails, before anything is planned, when a canary job is named but no
   * host is UP, and otherwise when the parallelism is below 1.
   */
  function Plan(g: DeploymentGroup, s: HostStatusMap): (r: Result<seq<RolloutTask>, PlanError>)
    ensures r == Failure(CanaryWithoutUpHosts) <==> g.canaryJobId.Some? && NoHostUp(s)
    ensures r == Failure(NonPositiveParallelism) <==> !(g.canaryJobId.Some? && NoHostUp(s)) && Parallelism(g) < 1
    ensures r.Success? <==> !(g.canaryJobId.Some? && NoHostUp(s)) && Parallelism(g) >= 1
  {
    var up := UpHosts(s);
    assert up == [] <==> NoHostUp(s) by {
      if up != [] {
        assert (up[0], Up) in s;
      }
    }
    match CanaryHosts(g, up)
    case Failure(e) => Failure(e)
    case Success(canaryHosts) =>
      var p := Parallelism(g);
      if p < 1 then Failure(NonPositiveParallelism)
      else Success(PartitionsTasks(g, canaryHosts, Chunk(up, p), Overlap(g)))
  }
}
