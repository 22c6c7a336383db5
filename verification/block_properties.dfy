/**
 * Facts about the task list of one partition and about partitions' task lists concatenated:
 * which hosts and jobs appear, in what order, and which task precedes which.
 */
module BlockProperties {
  import opened Wrappers
  import opened Descriptors
  import opened Seqs
  import opened Partition
  import opened RolloutPlanner

  /** The targets of the tasks with action `a`, in task order. */
  function ActionTargets(ts: seq<RolloutTask>, a: Action): seq<Host> {
    if ts == [] then []
    else (if ts[0].action == a then [ts[0].target] else []) + ActionTargets(ts[1..], a)
  }

  /** A task names a job exactly when it deploys, and then the job its host is given. */
  predicate JobAsAssigned(g: DeploymentGroup, canaryHosts: seq<Host>, t: RolloutTask)
    requires CanaryHostsValid(g, canaryHosts)
  {
    t.jobId == if t.action == DeployNewJob then Some(JobFor(g, canaryHosts, t.target)) else None
  }

  /** Every `a` task precedes every `b` task. */
  predicate AllBefore(ts: seq<RolloutTask>, a: Action, b: Action) {
    forall i, j | 0 <= i < |ts| && 0 <= j < |ts| && ts[i].action == a && ts[j].action == b :: i < j
  }

  /** A host's `a` task precedes its `b` task. */
  predicate PerHostBefore(ts: seq<RolloutTask>, a: Action, b: Action) {
    forall i, j | 0 <= i < |ts| && 0 <= j < |ts| && ts[i].action == a && ts[j].action == b && ts[i].target == ts[j].target :: i < j
  }

  /** Within a partition, every `a` task precedes every `b` task. */
  predicate PartitionBefore(ts: seq<RolloutTask>, parts: seq<seq<Host>>, a: Action, b: Action) {
    forall i, j | 0 <= i < |ts| && 0 <= j < |ts| && ts[i].action == a && ts[j].action == b
      && PartitionOf(parts, ts[i].target) == PartitionOf(parts, ts[j].target) :: i < j
  }

  /** Tasks of an earlier partition never come after tasks of a later one. */
  predicate PartitionsInOrder(ts: seq<RolloutTask>, parts: seq<seq<Host>>) {
    forall i, j | 0 <= i <= j < |ts| :: PartitionOf(parts, ts[i].target) <= PartitionOf(parts, ts[j].target)
  }

  lemma {:induction false} ActionTargetsAppend(ts: seq<RolloutTask>, us: seq<RolloutTask>, a: Action)
    ensures ActionTargets(ts + us, a) == ActionTargets(ts, a) + ActionTargets(us, a)
  {
    if ts == [] {
      assert ts + us == us;
    } else {
      assert (ts + us)[1..] == ts[1..] + us;
      ActionTargetsAppend(ts[1..], us, a);
    }
  }

  lemma {:induction false} EachHostTargets(a: Action, hosts: seq<Host>, b: Action)
    ensures ActionTargets(EachHost(a, hosts), b) == if a == b then hosts else []
  {
    if hosts != [] {
      var ts := EachHost(a, hosts);
      assert ts[0].action == a && ts[1..] == EachHost(a, hosts[1..]);
      EachHostTargets(a, hosts[1..], b);
    }
  }

  lemma {:induction false} DeployEachTargets(g: DeploymentGroup, canaryHosts: seq<Host>, hosts: seq<Host>, b: Action)
    requires CanaryHostsValid(g, canaryHosts)
    ensures ActionTargets(DeployEach(g, canaryHosts, hosts), b) == if b == DeployNewJob then hosts else []
  {
    if hosts != [] {
      var ts := DeployEach(g, canaryHosts, hosts);
      assert ts[1..] == DeployEach(g, canaryHosts, hosts[1..]);
      DeployEachTargets(g, canaryHosts, hosts[1..], b);
    }
  }

  lemma {:induction false} UndeployThenDeployEachTargets(g: DeploymentGroup, canaryHosts: seq<Host>, hosts: seq<Host>, b: Action)
    requires CanaryHostsValid(g, canaryHosts)
    ensures ActionTargets(UndeployThenDeployEach(g, canaryHosts, hosts), b)
         == if b == UndeployOldJobs || b == DeployNewJob then hosts else []
  {
    if hosts != [] {
      var head := [RolloutTask(UndeployOldJobs, hosts[0], None),
                   RolloutTask(DeployNewJob, hosts[0], Some(JobFor(g, canaryHosts, hosts[0])))];
      var rest := UndeployThenDeployEach(g, canaryHosts, hosts[1..]);
      assert UndeployThenDeployEach(g, canaryHosts, hosts) == head + rest;
      ActionTargetsAppend(head, rest, b);
      assert head[1..][1..] == [];
      UndeployThenDeployEachTargets(g, canaryHosts, hosts[1..], b);
    }
  }

  /** One partition's tasks hold exactly one task of each action per host, in host order. */
  lemma PartitionTasksTargets(g: DeploymentGroup, canaryHosts: seq<Host>, hosts: seq<Host>, overlap: bool, a: Action)
    requires CanaryHostsValid(g, canaryHosts)
    ensures ActionTargets(PartitionTasks(g, canaryHosts, hosts, overlap), a) == hosts
  {
    EachHostTargets(AwaitRunning, hosts, a);
    if overlap {
      var d := DeployEach(g, canaryHosts, hosts);
      var w := EachHost(AwaitRunning, hosts);
      var u := EachHost(UndeployOldJobs, hosts);
      ActionTargetsAppend(d + w, u, a);
      ActionTargetsAppend(d, w, a);
      DeployEachTargets(g, canaryHosts, hosts, a);
      EachHostTargets(UndeployOldJobs, hosts, a);
    } else {
      ActionTargetsAppend(UndeployThenDeployEach(g, canaryHosts, hosts), EachHost(AwaitRunning, hosts), a);
      UndeployThenDeployEachTargets(g, canaryHosts, hosts, a);
    }
  }

  /** Every task of one partition targets a host of the partition and names the job as assigned. */
  lemma PartitionTasksShape(g: DeploymentGroup, canaryHosts: seq<Host>, hosts: seq<Host>, overlap: bool)
    requires CanaryHostsValid(g, canaryHosts)
    ensures forall t | t in PartitionTasks(g, canaryHosts, hosts, overlap) ::
      t.target in hosts && JobAsAssigned(g, canaryHosts, t)
  {
    var ts := PartitionTasks(g, canaryHosts, hosts, overlap);
    var m := |hosts|;
    forall i | 0 <= i < |ts| ensures ts[i].target in hosts && JobAsAssigned(g, canaryHosts, ts[i]) {
      if overlap {
        assert ts == RolloutTasksWithOverlap(g, canaryHosts, hosts);
        if i < m {
          assert ts[i] == RolloutTask(DeployNewJob, hosts[i], Some(JobFor(g, canaryHosts, hosts[i])));
        } else if i < 2 * m {
          assert ts[m + (i - m)] == RolloutTask(AwaitRunning, hosts[i - m], None);
        } else {
          assert ts[2 * m + (i - 2 * m)] == RolloutTask(UndeployOldJobs, hosts[i - 2 * m], None);
        }
      } else {
        assert ts == RolloutTasks(g, canaryHosts, hosts);
        if i < 2 * m {
          var k := i / 2;
          if i == 2 * k {
            assert ts[2 * k] == RolloutTask(UndeployOldJobs, hosts[k], None);
          } else {
            assert i == 2 * k + 1;
            assert ts[2 * k + 1] == RolloutTask(DeployNewJob, hosts[k], Some(JobFor(g, canaryHosts, hosts[k])));
          }
        } else {
          assert ts[2 * m + (i - 2 * m)] == RolloutTask(AwaitRunning, hosts[i - 2 * m], None);
        }
      }
    }
  }

  /** Where each task of a non-overlapping partition sits: undeploy/deploy pairs, then awaits. */
  lemma RolloutTasksAt(g: DeploymentGroup, canaryHosts: seq<Host>, hosts: seq<Host>, i: nat)
    requires CanaryHostsValid(g, canaryHosts) && i < 3 * |hosts|
    ensures var t := RolloutTasks(g, canaryHosts, hosts)[i];
      if i < 2 * |hosts| then
        && i / 2 < |hosts| && t.target == hosts[i / 2]
        && t.action == (if i % 2 == 0 then UndeployOldJobs else DeployNewJob)
      else
        t.action == AwaitRunning
  {
    var ts := RolloutTasks(g, canaryHosts, hosts);
    var m := |hosts|;
    if i < 2 * m {
      var k := i / 2;
      if i % 2 == 0 {
        assert i == 2 * k;
        assert ts[2 * k] == RolloutTask(UndeployOldJobs, hosts[k], None);
      } else {
        assert i == 2 * k + 1;
        assert ts[2 * k + 1] == RolloutTask(DeployNewJob, hosts[k], Some(JobFor(g, canaryHosts, hosts[k])));
      }
    } else {
      assert ts[2 * m + (i - 2 * m)] == RolloutTask(AwaitRunning, hosts[i - 2 * m], None);
    }
  }

  /** Without overlap, a host is undeployed before it is deployed, and every await follows every undeploy and deploy. */
  lemma RolloutTasksOrder(g: DeploymentGroup, canaryHosts: seq<Host>, hosts: seq<Host>)
    requires CanaryHostsValid(g, canaryHosts) && Distinct(hosts)
    ensures PerHostBefore(RolloutTasks(g, canaryHosts, hosts), UndeployOldJobs, DeployNewJob)
    ensures AllBefore(RolloutTasks(g, canaryHosts, hosts), DeployNewJob, AwaitRunning)
    ensures AllBefore(RolloutTasks(g, canaryHosts, hosts), UndeployOldJobs, AwaitRunning)
  {
    var ts := RolloutTasks(g, canaryHosts, hosts);
    forall i, j | 0 <= i < |ts| && 0 <= j < |ts| && ts[i].action != AwaitRunning && ts[j].action == AwaitRunning
      ensures i < j
    {
      AwaitsLast(g, canaryHosts, hosts, i, j);
    }
    forall i, j | 0 <= i < |ts| && 0 <= j < |ts| && ts[i].action == UndeployOldJobs && ts[j].action == DeployNewJob
      && ts[i].target == ts[j].target
      ensures i < j
    {
      UndeployJustBeforeDeploy(g, canaryHosts, hosts, i, j);
    }
  }

  lemma AwaitsLast(g: DeploymentGroup, canaryHosts: seq<Host>, hosts: seq<Host>, i: nat, j: nat)
    requires CanaryHostsValid(g, canaryHosts) && i < 3 * |hosts| && j < 3 * |hosts|
    requires RolloutTasks(g, canaryHosts, hosts)[i].action != AwaitRunning
    requires RolloutTasks(g, canaryHosts, hosts)[j].action == AwaitRunning
    ensures i < j
  {
    RolloutTasksAt(g, canaryHosts, hosts, i);
    RolloutTasksAt(g, canaryHosts, hosts, j);
  }

  lemma UndeployJustBeforeDeploy(g: DeploymentGroup, canaryHosts: seq<Host>, hosts: seq<Host>, i: nat, j: nat)
    requires CanaryHostsValid(g, canaryHosts) && Distinct(hosts) && i < 3 * |hosts| && j < 3 * |hosts|
    requires RolloutTasks(g, canaryHosts, hosts)[i].action == UndeployOldJobs
    requires RolloutTasks(g, canaryHosts, hosts)[j].action == DeployNewJob
    requires RolloutTasks(g, canaryHosts, hosts)[i].target == RolloutTasks(g, canaryHosts, hosts)[j].target
    ensures i == j - 1
  {
    RolloutTasksAt(g, canaryHosts, hosts, i);
    RolloutTasksAt(g, canaryHosts, hosts, j);
    assert hosts[i / 2] == hosts[j / 2];
    assert i / 2 == j / 2;
  }

  /** Where each task of an overlapping partition sits: deploys, then awaits, then undeploys. */
  lemma RolloutTasksWithOverlapAt(g: DeploymentGroup, canaryHosts: seq<Host>, hosts: seq<Host>, i: nat)
    requires CanaryHostsValid(g, canaryHosts) && i < 3 * |hosts|
    ensures var t := RolloutTasksWithOverlap(g, canaryHosts, hosts)[i];
      t.action == if i < |hosts| then DeployNewJob else if i < 2 * |hosts| then AwaitRunning else UndeployOldJobs
  {
    var ts := RolloutTasksWithOverlap(g, canaryHosts, hosts);
    var m := |hosts|;
    if i < m {
      assert ts[i] == RolloutTask(DeployNewJob, hosts[i], Some(JobFor(g, canaryHosts, hosts[i])));
    } else if i < 2 * m {
      assert ts[m + (i - m)] == RolloutTask(AwaitRunning, hosts[i - m], None);
    } else {
      assert ts[2 * m + (i - 2 * m)] == RolloutTask(UndeployOldJobs, hosts[i - 2 * m], None);
    }
  }

  /** With overlap, every deploy precedes every await, which precedes every undeploy. */
  lemma RolloutTasksWithOverlapOrder(g: DeploymentGroup, canaryHosts: seq<Host>, hosts: seq<Host>)
    requires CanaryHostsValid(g, canaryHosts)
    ensures AllBefore(RolloutTasksWithOverlap(g, canaryHosts, hosts), DeployNewJob, AwaitRunning)
    ensures AllBefore(RolloutTasksWithOverlap(g, canaryHosts, hosts), AwaitRunning, UndeployOldJobs)
    ensures AllBefore(RolloutTasksWithOverlap(g, canaryHosts, hosts), DeployNewJob, UndeployOldJobs)
  {
    var ts := RolloutTasksWithOverlap(g, canaryHosts, hosts);
    forall i, j | 0 <= i < |ts| && 0 <= j < |ts| ensures
      && (ts[i].action == DeployNewJob && ts[j].action != DeployNewJob ==> i < j)
      && (ts[i].action != UndeployOldJobs && ts[j].action == UndeployOldJobs ==> i < j)
    {
      RolloutTasksWithOverlapAt(g, canaryHosts, hosts, i);
      RolloutTasksWithOverlapAt(g, canaryHosts, hosts, j);
    }
  }

  /** The first partition and the rest of a distinct partitioning are distinct and share no element. */
  lemma DistinctPartitions(parts: seq<seq<Host>>)
    requires parts != [] && Distinct(Flatten(parts))
    ensures Distinct(parts[0]) && Distinct(Flatten(parts[1..]))
    ensures forall h | h in parts[0] :: h !in Flatten(parts[1..])
  {
    var all := Flatten(parts);
    assert all[..|parts[0]|] == parts[0] && all[|parts[0]|..] == Flatten(parts[1..]);
    DistinctSplit(all, |parts[0]|);
  }

  /** One block per partition, in partition order: block `k` is partition `k`'s tasks in the given mode. */
  function Blocks(g: DeploymentGroup, canaryHosts: seq<Host>, parts: seq<seq<Host>>, overlap: bool): seq<seq<RolloutTask>>
    requires CanaryHostsValid(g, canaryHosts)
  {
    seq(|parts|, k requires 0 <= k < |parts| => PartitionTasks(g, canaryHosts, parts[k], overlap))
  }

  /** The partitions' tasks are the partitions' blocks concatenated. */
  lemma {:induction false} PartitionsTasksFlatten(g: DeploymentGroup, canaryHosts: seq<Host>, parts: seq<seq<Host>>, overlap: bool)
    requires CanaryHostsValid(g, canaryHosts)
    ensures PartitionsTasks(g, canaryHosts, parts, overlap) == Flatten(Blocks(g, canaryHosts, parts, overlap))
  {
    if parts != [] {
      assert Blocks(g, canaryHosts, parts, overlap)[1..] == Blocks(g, canaryHosts, parts[1..], overlap);
      PartitionsTasksFlatten(g, canaryHosts, parts[1..], overlap);
    }
  }

  /** The partitions' tasks: three per host. */
  lemma {:induction false} PartitionsTasksLength(g: DeploymentGroup, canaryHosts: seq<Host>, parts: seq<seq<Host>>, overlap: bool)
    requires CanaryHostsValid(g, canaryHosts)
    ensures |PartitionsTasks(g, canaryHosts, parts, overlap)| == 3 * |Flatten(parts)|
  {
    if parts != [] {
      PartitionsTasksLength(g, canaryHosts, parts[1..], overlap);
    }
  }

  /** For every action, the partitions' tasks hold one task per host, in host order. */
  lemma {:induction false} PartitionsTasksTargets(g: DeploymentGroup, canaryHosts: seq<Host>, parts: seq<seq<Host>>, overlap: bool, a: Action)
    requires CanaryHostsValid(g, canaryHosts)
    ensures ActionTargets(PartitionsTasks(g, canaryHosts, parts, overlap), a) == Flatten(parts)
  {
    if parts != [] {
      PartitionsTasksTargets(g, canaryHosts, parts[1..], overlap, a);
      ActionTargetsAppend(PartitionTasks(g, canaryHosts, parts[0], overlap), PartitionsTasks(g, canaryHosts, parts[1..], overlap), a);
      PartitionTasksTargets(g, canaryHosts, parts[0], overlap, a);
    }
  }

  /** Every task of the partitions targets one of their hosts and names the job as assigned. */
  lemma {:induction false} PartitionsTasksShape(g: DeploymentGroup, canaryHosts: seq<Host>, parts: seq<seq<Host>>, overlap: bool)
    requires CanaryHostsValid(g, canaryHosts)
    ensures forall t | t in PartitionsTasks(g, canaryHosts, parts, overlap) ::
      t.target in Flatten(parts) && JobAsAssigned(g, canaryHosts, t)
  {
    if parts != [] {
      PartitionsTasksShape(g, canaryHosts, parts[1..], overlap);
      PartitionTasksShape(g, canaryHosts, parts[0], overlap);
    }
  }

  /** Where the i-th task of the partitions' tasks comes from: the first partition, or the rest, one partition further on. */
  lemma TaskOrigin(g: DeploymentGroup, canaryHosts: seq<Host>, parts: seq<seq<Host>>, overlap: bool, i: nat)
    requires CanaryHostsValid(g, canaryHosts) && parts != [] && Distinct(Flatten(parts))
    requires i < |PartitionsTasks(g, canaryHosts, parts, overlap)|
    ensures var ts := PartitionsTasks(g, canaryHosts, parts, overlap);
      var bs := PartitionTasks(g, canaryHosts, parts[0], overlap);
      var r := PartitionsTasks(g, canaryHosts, parts[1..], overlap);
      && (i < |bs| ==> ts[i] == bs[i] && PartitionOf(parts, ts[i].target) == 0)
      && (i >= |bs| ==> ts[i] == r[i - |bs|] && ts[i].target !in parts[0]
                        && PartitionOf(parts, ts[i].target) == 1 + PartitionOf(parts[1..], ts[i].target))
  {
    var bs := PartitionTasks(g, canaryHosts, parts[0], overlap);
    var r := PartitionsTasks(g, canaryHosts, parts[1..], overlap);
    if i < |bs| {
      PartitionTasksShape(g, canaryHosts, parts[0], overlap);
      assert bs[i] in bs;
    } else {
      DistinctPartitions(parts);
      PartitionsTasksShape(g, canaryHosts, parts[1..], overlap);
      assert r[i - |bs|] in r;
    }
  }

  /** Tasks of an earlier partition come before the tasks of a later one. */
  lemma {:induction false} PartitionsTasksInOrder(g: DeploymentGroup, canaryHosts: seq<Host>, parts: seq<seq<Host>>, overlap: bool)
    requires CanaryHostsValid(g, canaryHosts) && Distinct(Flatten(parts))
    ensures PartitionsInOrder(PartitionsTasks(g, canaryHosts, parts, overlap), parts)
  {
    if parts != [] {
      var ts := PartitionsTasks(g, canaryHosts, parts, overlap);
      DistinctPartitions(parts);
      PartitionsTasksInOrder(g, canaryHosts, parts[1..], overlap);
      forall i, j | 0 <= i <= j < |ts| ensures PartitionOf(parts, ts[i].target) <= PartitionOf(parts, ts[j].target) {
        TaskOrigin(g, canaryHosts, parts, overlap, i);
        TaskOrigin(g, canaryHosts, parts, overlap, j);
      }
    }
  }

  /** Every partition ordering `a` before `b` makes the plan order them so within each partition. */
  lemma {:induction false} PartitionsTasksPartitionBefore(g: DeploymentGroup, canaryHosts: seq<Host>, parts: seq<seq<Host>>, overlap: bool, a: Action, b: Action)
    requires CanaryHostsValid(g, canaryHosts) && Distinct(Flatten(parts))
    requires forall k | 0 <= k < |parts| :: AllBefore(PartitionTasks(g, canaryHosts, parts[k], overlap), a, b)
    ensures PartitionBefore(PartitionsTasks(g, canaryHosts, parts, overlap), parts, a, b)
  {
    if parts != [] {
      var ts := PartitionsTasks(g, canaryHosts, parts, overlap);
      DistinctPartitions(parts);
      assert forall k | 0 <= k < |parts[1..]| :: parts[1..][k] == parts[k + 1];
      PartitionsTasksPartitionBefore(g, canaryHosts, parts[1..], overlap, a, b);
      assert AllBefore(PartitionTasks(g, canaryHosts, parts[0], overlap), a, b);
      forall i, j | 0 <= i < |ts| && 0 <= j < |ts| && ts[i].action == a && ts[j].action == b
        && PartitionOf(parts, ts[i].target) == PartitionOf(parts, ts[j].target)
        ensures i < j
      {
        TaskOrigin(g, canaryHosts, parts, overlap, i);
        TaskOrigin(g, canaryHosts, parts, overlap, j);
      }
    }
  }

  /** Every partition ordering a host's `a` before its `b` makes the plan do so too. */
  lemma {:induction false} PartitionsTasksPerHostBefore(g: DeploymentGroup, canaryHosts: seq<Host>, parts: seq<seq<Host>>, overlap: bool, a: Action, b: Action)
    requires CanaryHostsValid(g, canaryHosts) && Distinct(Flatten(parts))
    requires forall k | 0 <= k < |parts| :: PerHostBefore(PartitionTasks(g, canaryHosts, parts[k], overlap), a, b)
    ensures PerHostBefore(PartitionsTasks(g, canaryHosts, parts, overlap), a, b)
  {
    if parts != [] {
      var ts := PartitionsTasks(g, canaryHosts, parts, overlap);
      DistinctPartitions(parts);
      assert forall k | 0 <= k < |parts[1..]| :: parts[1..][k] == parts[k + 1];
      PartitionsTasksPerHostBefore(g, canaryHosts, parts[1..], overlap, a, b);
      assert PerHostBefore(PartitionTasks(g, canaryHosts, parts[0], overlap), a, b);
      forall i, j | 0 <= i < |ts| && 0 <= j < |ts| && ts[i].action == a && ts[j].action == b
        && ts[i].target == ts[j].target
        ensures i < j
      {
        TaskOrigin(g, canaryHosts, parts, overlap, i);
        TaskOrigin(g, canaryHosts, parts, overlap, j);
      }
    }
  }

  /** The partitions' tasks read only the group's job and canary job. */
  lemma {:induction false} PartitionsTasksReadsOnlyJobs(g: DeploymentGroup, g': DeploymentGroup, canaryHosts: seq<Host>, parts: seq<seq<Host>>, overlap: bool)
    requires g.jobId == g'.jobId && g.canaryJobId == g'.canaryJobId && CanaryHostsValid(g, canaryHosts)
    ensures PartitionsTasks(g, canaryHosts, parts, overlap) == PartitionsTasks(g', canaryHosts, parts, overlap)
  {
    if parts != [] {
      PartitionsTasksReadsOnlyJobs(g, g', canaryHosts, parts[1..], overlap);
      DeployEachReadsOnlyJobs(g, g', canaryHosts, parts[0]);
      UndeployThenDeployEachReadsOnlyJobs(g, g', canaryHosts, parts[0]);
    }
  }

  lemma {:induction false} DeployEachReadsOnlyJobs(g: DeploymentGroup, g': DeploymentGroup, canaryHosts: seq<Host>, hosts: seq<Host>)
    requires g.jobId == g'.jobId && g.canaryJobId == g'.canaryJobId && CanaryHostsValid(g, canaryHosts)
    ensures DeployEach(g, canaryHosts, hosts) == DeployEach(g', canaryHosts, hosts)
  {
    if hosts != [] {
      DeployEachReadsOnlyJobs(g, g', canaryHosts, hosts[1..]);
    }
  }

  lemma {:induction false} UndeployThenDeployEachReadsOnlyJobs(g: DeploymentGroup, g': DeploymentGroup, canaryHosts: seq<Host>, hosts: seq<Host>)
    requires g.jobId == g'.jobId && g.canaryJobId == g'.canaryJobId && CanaryHostsValid(g, canaryHosts)
    ensures UndeployThenDeployEach(g, canaryHosts, hosts) == UndeployThenDeployEach(g', canaryHosts, hosts)
  {
    if hosts != [] {
      UndeployThenDeployEachReadsOnlyJobs(g, g', canaryHosts, hosts[1..]);
    }
  }
}
