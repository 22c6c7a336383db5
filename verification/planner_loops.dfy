/**
 * The planner written the way the Java code runs it: a loop over the snapshot entries, a loop
 * over the partitions, and per partition the loops that append tasks host by host. Each method
 * is proved to compute what the functional model computes.
 */
module RolloutPlannerLoops {
  import opened Wrappers
  import opened Descriptors
  import opened Seqs
  import opened Partition
  import opened RolloutPlanner
  import PlanProperties

  lemma {:induction false} EachHostAppend(a: Action, xs: seq<Host>, ys: seq<Host>)
    ensures EachHost(a, xs + ys) == EachHost(a, xs) + EachHost(a, ys)
  {
    if xs == [] {
      assert xs + ys == ys;
    } else {
      assert (xs + ys)[1..] == xs[1..] + ys;
      EachHostAppend(a, xs[1..], ys);
    }
  }

  lemma {:induction false} DeployEachAppend(g: DeploymentGroup, canaryHosts: seq<Host>, xs: seq<Host>, ys: seq<Host>)
    requires CanaryHostsValid(g, canaryHosts)
    ensures DeployEach(g, canaryHosts, xs + ys) == DeployEach(g, canaryHosts, xs) + DeployEach(g, canaryHosts, ys)
  {
    if xs == [] {
      assert xs + ys == ys;
    } else {
      var h := xs[0];
      assert (xs + ys)[0] == h && (xs + ys)[1..] == xs[1..] + ys;
      var t := RolloutTask(DeployNewJob, h, Some(JobFor(g, canaryHosts, h)));
      assert DeployEach(g, canaryHosts, xs + ys) == [t] + DeployEach(g, canaryHosts, xs[1..] + ys);
      assert DeployEach(g, canaryHosts, xs) == [t] + DeployEach(g, canaryHosts, xs[1..]);
      DeployEachAppend(g, canaryHosts, xs[1..], ys);
    }
  }

  lemma {:induction false} UndeployThenDeployEachAppend(g: DeploymentGroup, canaryHosts: seq<Host>, xs: seq<Host>, ys: seq<Host>)
    requires CanaryHostsValid(g, canaryHosts)
    ensures UndeployThenDeployEach(g, canaryHosts, xs + ys)
         == UndeployThenDeployEach(g, canaryHosts, xs) + UndeployThenDeployEach(g, canaryHosts, ys)
  {
    if xs == [] {
      assert xs + ys == ys;
    } else {
      assert (xs + ys)[0] == xs[0] && (xs + ys)[1..] == xs[1..] + ys;
      UndeployThenDeployEachAppend(g, canaryHosts, xs[1..], ys);
    }
  }

  lemma {:induction false} PartitionsTasksAppend(g: DeploymentGroup, canaryHosts: seq<Host>, ps: seq<seq<Host>>, qs: seq<seq<Host>>, overlap: bool)
    requires CanaryHostsValid(g, canaryHosts)
    ensures PartitionsTasks(g, canaryHosts, ps + qs, overlap)
         == PartitionsTasks(g, canaryHosts, ps, overlap) + PartitionsTasks(g, canaryHosts, qs, overlap)
  {
    if ps == [] {
      assert ps + qs == qs;
    } else {
      assert (ps + qs)[0] == ps[0] && (ps + qs)[1..] == ps[1..] + qs;
      PartitionsTasksAppend(g, canaryHosts, ps[1..], qs, overlap);
    }
  }

  /** Appends UNDEPLOY_OLD_JOBS and DEPLOY_NEW_JOB for each host in turn (first loop of the non-overlap ordering). */
  method UndeployThenDeployLoop(g: DeploymentGroup, canaryHosts: seq<Host>, hosts: seq<Host>) returns (ts: seq<RolloutTask>)
    requires CanaryHostsValid(g, canaryHosts)
    ensures ts == UndeployThenDeployEach(g, canaryHosts, hosts)
  {
    ts := [];
    for i := 0 to |hosts|
      invariant ts == UndeployThenDeployEach(g, canaryHosts, hosts[..i])
    {
      var job := if hosts[i] in canaryHosts then g.canaryJobId.value else g.jobId;
      ts := ts + [RolloutTask(UndeployOldJobs, hosts[i], None), RolloutTask(DeployNewJob, hosts[i], Some(job))];
      assert hosts[..i + 1] == hosts[..i] + [hosts[i]];
      UndeployThenDeployEachAppend(g, canaryHosts, hosts[..i], [hosts[i]]);
    }
    assert hosts[..|hosts|] == hosts;
  }

  /** Appends DEPLOY_NEW_JOB for each host in turn (first loop of the overlap ordering). */
  method DeployLoop(g: DeploymentGroup, canaryHosts: seq<Host>, hosts: seq<Host>) returns (ts: seq<RolloutTask>)
    requires CanaryHostsValid(g, canaryHosts)
    ensures ts == DeployEach(g, canaryHosts, hosts)
  {
    ts := [];
    for i := 0 to |hosts|
      invariant ts == DeployEach(g, canaryHosts, hosts[..i])
    {
      var job := if hosts[i] in canaryHosts then g.canaryJobId.value else g.jobId;
      ts := ts + [RolloutTask(DeployNewJob, hosts[i], Some(job))];
      assert hosts[..i + 1] == hosts[..i] + [hosts[i]];
      DeployEachAppend(g, canaryHosts, hosts[..i], [hosts[i]]);
    }
    assert hosts[..|hosts|] == hosts;
  }

  /** Appends the job-less task `a` for each host in turn (the await and undeploy loops). */
  method EachHostLoop(a: Action, hosts: seq<Host>) returns (ts: seq<RolloutTask>)
    ensures ts == EachHost(a, hosts)
  {
    ts := [];
    for i := 0 to |hosts|
      invariant ts == EachHost(a, hosts[..i])
    {
      ts := ts + [RolloutTask(a, hosts[i], None)];
      assert hosts[..i + 1] == hosts[..i] + [hosts[i]];
      EachHostAppend(a, hosts[..i], [hosts[i]]);
    }
    assert hosts[..|hosts|] == hosts;
  }

  /** The hosts whose status is UP, collected by one pass over the snapshot entries. */
  method UpHostsLoop(s: seq<(Host, Status)>) returns (hosts: seq<Host>)
    ensures hosts == UpHosts(s)
  {
    hosts := [];
    for i := 0 to |s|
      invariant hosts == UpHosts(s[..i])
    {
      if s[i].1 == Up {
        hosts := hosts + [s[i].0];
      }
      assert s[..i + 1] == s[..i] + [s[i]];
      PlanProperties.UpHostsAppend(s[..i], [s[i]]);
      assert UpHosts([s[i]]) == (if s[i].1 == Up then [s[i].0] else []) + UpHosts([]);
    }
    assert s[..|s|] == s;
  }

  /** One partition's tasks in the group's mode, built by that mode's host loops. */
  method PartitionLoop(g: DeploymentGroup, canaryHosts: seq<Host>, hosts: seq<Host>, overlap: bool) returns (block: seq<RolloutTask>)
    requires CanaryHostsValid(g, canaryHosts)
    ensures block == PartitionTasks(g, canaryHosts, hosts, overlap)
  {
    if overlap {
      var deploys := DeployLoop(g, canaryHosts, hosts);
      var awaits := EachHostLoop(AwaitRunning, hosts);
      var undeploys := EachHostLoop(UndeployOldJobs, hosts);
      block := deploys + awaits + undeploys;
    } else {
      var pairs := UndeployThenDeployLoop(g, canaryHosts, hosts);
      var awaits := EachHostLoop(AwaitRunning, hosts);
      block := pairs + awaits;
    }
  }

  /** The tasks of all partitions, appended partition by partition. */
  method PartitionsLoop(g: DeploymentGroup, canaryHosts: seq<Host>, partitions: seq<seq<Host>>, overlap: bool) returns (tasks: seq<RolloutTask>)
    requires CanaryHostsValid(g, canaryHosts)
    ensures tasks == PartitionsTasks(g, canaryHosts, partitions, overlap)
  {
    tasks := [];
    for k := 0 to |partitions|
      invariant tasks == PartitionsTasks(g, canaryHosts, partitions[..k], overlap)
    {
      var hosts := partitions[k];
      var block := PartitionLoop(g, canaryHosts, hosts, overlap);
      tasks := tasks + block;
      assert partitions[..k + 1] == partitions[..k] + [hosts];
      PartitionsTasksAppend(g, canaryHosts, partitions[..k], [hosts], overlap);
    }
    assert partitions[..|partitions|] == partitions;
  }

  /** The plan, computed as the Java method does: filter, pick the canary, partition, append per partition. */
  method PlanLoop(g: DeploymentGroup, s: HostStatusMap) returns (r: Result<seq<RolloutTask>, PlanError>)
    ensures r == Plan(g, s)
  {
    var hosts := UpHostsLoop(s);
    var canaryHosts: seq<Host>;
    if g.canaryJobId.Some? {
      if |hosts| == 0 {
        return Failure(CanaryWithoutUpHosts);
      }
      canaryHosts := hosts[..1];
    } else {
      canaryHosts := [];
    }
    var parallelism := if g.rolloutOptions.Some? then g.rolloutOptions.value.parallelism else 1;
    var overlap := g.rolloutOptions.Some? && g.rolloutOptions.value.overlap;
    if parallelism < 1 {
      return Failure(NonPositiveParallelism);
    }
    var tasks := PartitionsLoop(g, canaryHosts, Chunk(hosts, parallelism), overlap);
    return Success(tasks);
  }
}
