/**
 * What a successful plan promises: only UP hosts, every UP host exactly once per action and in
 * snapshot order, the canary job on the first UP host only, and the two task orderings.
 */
module PlanProperties {
  import opened Wrappers
  import opened Descriptors
  import opened Seqs
  import opened Partition
  import opened RolloutPlanner
  import opened BlockProperties

  /** `h` is the host of the first UP entry of the snapshot. */
  predicate IsFirstUpHost(s: seq<(Host, Status)>, h: Host) {
    exists i | 0 <= i < |s| :: s[i] == (h, Up) && NoHostUp(s[..i])
  }

  /** The job ids the tasks name, in task order. */
  function JobsOf(ts: seq<RolloutTask>): seq<Option<JobId>> {
    if ts == [] then [] else [ts[0].jobId] + JobsOf(ts[1..])
  }

  /** The partitions the UP hosts are cut into. */
  function Partitions(g: DeploymentGroup, s: HostStatusMap): seq<seq<Host>>
    requires Parallelism(g) >= 1
  {
    Chunk(UpHosts(s), Parallelism(g))
  }

  /** Filtering UP hosts keeps snapshot order: it distributes over concatenation. */
  lemma {:induction false} UpHostsAppend(s1: seq<(Host, Status)>, s2: seq<(Host, Status)>)
    ensures UpHosts(s1 + s2) == UpHosts(s1) + UpHosts(s2)
  {
    if s1 == [] {
      assert s1 + s2 == s2;
    } else {
      assert (s1 + s2)[1..] == s1[1..] + s2;
      UpHostsAppend(s1[1..], s2);
    }
  }

  /** Distinct keys give distinct UP hosts. */
  lemma {:induction false} UpHostsDistinct(s: seq<(Host, Status)>)
    requires KeysDistinct(s)
    ensures Distinct(UpHosts(s))
  {
    if s != [] {
      var t := s[1..];
      assert KeysDistinct(t) by {
        forall i, j | 0 <= i < j < |t| ensures t[i].0 != t[j].0 {
          assert t[i] == s[i + 1] && t[j] == s[j + 1];
        }
      }
      UpHostsDistinct(t);
      if s[0].1 == Up {
        assert (s[0].0, Up) !in t by {
          forall k | 0 <= k < |t| ensures t[k].0 != s[0].0 {
            assert t[k] == s[k + 1];
          }
        }
        var up := UpHosts(s);
        assert up == [s[0].0] + UpHosts(t);
        forall i, j | 0 <= i < j < |up| ensures up[i] != up[j] {
          if i == 0 {
            assert up[j] == UpHosts(t)[j - 1];
            assert UpHosts(t)[j - 1] in UpHosts(t);
          } else {
            assert up[i] == UpHosts(t)[i - 1] && up[j] == UpHosts(t)[j - 1];
          }
        }
      }
    }
  }

  /** The first UP host, read off the snapshot, is the head of the UP-host list. */
  lemma {:induction false} FirstUpHostIsHead(s: seq<(Host, Status)>, h: Host)
    ensures IsFirstUpHost(s, h) <==> UpHosts(s) != [] && h == UpHosts(s)[0]
  {
    if s != [] {
      if s[0].1 == Up {
        FirstUpHostLeading(s, h);
      } else {
        FirstUpHostIsHead(s[1..], h);
        FirstUpHostBehindDown(s, h);
      }
    }
  }

  /** When the first entry is UP, its host is the first UP host. */
  lemma FirstUpHostLeading(s: seq<(Host, Status)>, h: Host)
    requires s != [] && s[0].1 == Up
    ensures IsFirstUpHost(s, h) <==> h == s[0].0
    ensures UpHosts(s) != [] && UpHosts(s)[0] == s[0].0
  {
    assert UpHosts(s) == [s[0].0] + UpHosts(s[1..]);
    forall i | 0 <= i < |s| && s[i] == (h, Up) && NoHostUp(s[..i]) ensures h == s[0].0 {
      NoHostUpPrefix(s, i);
    }
    assert h == s[0].0 ==> s[0] == (h, Up) && NoHostUp(s[..0]);
  }

  /** An entry that is not UP changes neither the UP-host list nor the first UP host. */
  lemma FirstUpHostBehindDown(s: seq<(Host, Status)>, h: Host)
    requires s != [] && s[0].1 != Up
    ensures UpHosts(s) == UpHosts(s[1..])
    ensures IsFirstUpHost(s, h) <==> IsFirstUpHost(s[1..], h)
  {
    var t := s[1..];
    assert UpHosts(s) == [] + UpHosts(t);
    forall i | 0 <= i < |s| && s[i] == (h, Up) && NoHostUp(s[..i]) ensures IsFirstUpHost(t, h) {
      var pre := t[..i - 1];
      forall k | 0 <= k < |pre| ensures pre[k].1 != Up {
        assert pre[k] == s[..i][k + 1];
      }
      assert t[i - 1] == (h, Up);
    }
    forall i | 0 <= i < |t| && t[i] == (h, Up) && NoHostUp(t[..i]) ensures IsFirstUpHost(s, h) {
      var pre := s[..i + 1];
      forall k | 0 <= k < |pre| ensures pre[k].1 != Up {
        if k > 0 {
          assert pre[k] == t[..i][k - 1];
        }
      }
      assert s[i + 1] == (h, Up);
    }
  }

  lemma NoHostUpPrefix(s: seq<(Host, Status)>, i: nat)
    ensures 0 < i <= |s| && NoHostUp(s[..i]) ==> s[0].1 != Up
  {
    if 0 < i <= |s| {
      assert s[..i][0] == s[0];
    }
  }

  /** No UP host in the list exactly when no entry of the snapshot is UP. */
  lemma UpHostsEmpty(s: seq<(Host, Status)>)
    ensures UpHosts(s) == [] <==> NoHostUp(s)
  {
    if UpHosts(s) != [] {
      assert (UpHosts(s)[0], Up) in s;
    }
  }

  /** A successful plan, unfolded: the partitions' tasks for the UP hosts and the canary host list. */
  lemma PlanValue(g: DeploymentGroup, s: HostStatusMap)
    requires Plan(g, s).Success?
    ensures Parallelism(g) >= 1 && CanaryHosts(g, UpHosts(s)).Success?
    ensures Plan(g, s).value
         == PartitionsTasks(g, CanaryHosts(g, UpHosts(s)).value, Partitions(g, s), Overlap(g))
  {
  }

  /**
   * A successful plan is one block per partition of the UP hosts, concatenated in partition order;
   * block `k` is partition `k`'s tasks in the group's mode, with the first UP host as the canary
   * host when a canary job is named.
   */
  lemma PlanIsPartitionBlocks(g: DeploymentGroup, s: HostStatusMap)
    requires Plan(g, s).Success?
    ensures Parallelism(g) >= 1
    ensures var parts := Chunk(UpHosts(s), Parallelism(g));
      var canaryHosts := if g.canaryJobId.Some? then [UpHosts(s)[0]] else [];
      && (g.canaryJobId.Some? ==> UpHosts(s) != [])
      && Plan(g, s).value == Flatten(Blocks(g, canaryHosts, parts, Overlap(g)))
  {
    PlanValue(g, s);
    var canaryHosts := CanaryHosts(g, UpHosts(s)).value;
    if g.canaryJobId.Some? {
      assert canaryHosts == [UpHosts(s)[0]];
    }
    PartitionsTasksFlatten(g, canaryHosts, Partitions(g, s), Overlap(g));
  }

  /** A plan has three tasks per UP host. */
  lemma PlanLength(g: DeploymentGroup, s: HostStatusMap)
    requires Plan(g, s).Success?
    ensures |Plan(g, s).value| == 3 * |UpHosts(s)|
  {
    PlanValue(g, s);
    var p := Parallelism(g);
    PartitionsTasksLength(g, CanaryHosts(g, UpHosts(s)).value, Chunk(UpHosts(s), p), Overlap(g));
    ChunkFlatten(UpHosts(s), p);
  }

  /** For every action, the plan holds one task per UP host, in snapshot order, and no other. */
  lemma PlanActionTargets(g: DeploymentGroup, s: HostStatusMap, a: Action)
    requires Plan(g, s).Success?
    ensures ActionTargets(Plan(g, s).value, a) == UpHosts(s)
  {
    PlanValue(g, s);
    var p := Parallelism(g);
    PartitionsTasksTargets(g, CanaryHosts(g, UpHosts(s)).value, Chunk(UpHosts(s), p), Overlap(g), a);
    ChunkFlatten(UpHosts(s), p);
  }

  /** Every task targets a host reported UP, and a host reported with any other status gets no task. */
  lemma PlanOnlyUpHosts(g: DeploymentGroup, s: HostStatusMap)
    requires Plan(g, s).Success?
    ensures forall t | t in Plan(g, s).value :: (t.target, Up) in s
    ensures forall t, st | t in Plan(g, s).value && (t.target, st) in s :: st == Up
  {
    PlanValue(g, s);
    var p := Parallelism(g);
    var ch := CanaryHosts(g, UpHosts(s)).value;
    PartitionsTasksShape(g, ch, Chunk(UpHosts(s), p), Overlap(g));
    ChunkFlatten(UpHosts(s), p);
    forall t, st | t in Plan(g, s).value && (t.target, st) in s ensures st == Up {
      assert (t.target, Up) in s;
      var i :| 0 <= i < |s| && s[i] == (t.target, Up);
      var j :| 0 <= j < |s| && s[j] == (t.target, st);
      assert i == j;
    }
  }

  /** Each host reported UP gets exactly one task of each action; every other host gets none. */
  lemma PlanEachUpHostOnce(g: DeploymentGroup, s: HostStatusMap, a: Action, h: Host)
    requires Plan(g, s).Success?
    ensures CountOf(ActionTargets(Plan(g, s).value, a), h) == if (h, Up) in s then 1 else 0
  {
    PlanActionTargets(g, s, a);
    UpHostsDistinct(s);
    DistinctCount(UpHosts(s), h);
  }

  /**
   * Only deploy tasks name a job. The deploy task of the first UP host names the canary job when
   * the group has one; every other deploy task names the group's job.
   */
  lemma PlanJobs(g: DeploymentGroup, s: HostStatusMap)
    requires Plan(g, s).Success?
    ensures forall t | t in Plan(g, s).value ::
      t.jobId == if t.action != DeployNewJob then None
                 else if g.canaryJobId.Some? && IsFirstUpHost(s, t.target) then g.canaryJobId
                 else Some(g.jobId)
  {
    PlanValue(g, s);
    var p := Parallelism(g);
    var ch := CanaryHosts(g, UpHosts(s)).value;
    PartitionsTasksShape(g, ch, Chunk(UpHosts(s), p), Overlap(g));
    forall t | t in Plan(g, s).value
      ensures t.jobId == if t.action != DeployNewJob then None
                         else if g.canaryJobId.Some? && IsFirstUpHost(s, t.target) then g.canaryJobId
                         else Some(g.jobId)
    {
      FirstUpHostIsHead(s, t.target);
    }
  }

  /** Counting named jobs: a canary job different from the group's job is named exactly as often as the first UP host is deployed. */
  lemma {:induction false} CanaryJobCount(ts: seq<RolloutTask>, c: JobId, j: JobId, first: Host)
    requires c != j
    requires forall t | t in ts ::
      t.jobId == if t.action != DeployNewJob then None else if t.target == first then Some(c) else Some(j)
    ensures CountOf(JobsOf(ts), Some(c)) == CountOf(ActionTargets(ts, DeployNewJob), first)
  {
    if ts != [] {
      assert ts[0] in ts;
      assert forall t | t in ts[1..] :: t in ts;
      CanaryJobCount(ts[1..], c, j, first);
      var jobs := JobsOf(ts);
      assert jobs[0] == ts[0].jobId && jobs[1..] == JobsOf(ts[1..]);
      var deployed := ActionTargets(ts, DeployNewJob);
      if ts[0].action == DeployNewJob {
        assert deployed[0] == ts[0].target && deployed[1..] == ActionTargets(ts[1..], DeployNewJob);
      } else {
        assert deployed == ActionTargets(ts[1..], DeployNewJob);
      }
    }
  }

  /** A canary job different from the group's job is named by exactly one task of the plan. */
  lemma PlanCanaryExclusive(g: DeploymentGroup, s: HostStatusMap)
    requires Plan(g, s).Success? && g.canaryJobId.Some? && g.canaryJobId.value != g.jobId
    ensures CountOf(JobsOf(Plan(g, s).value), g.canaryJobId) == 1
  {
    var plan := Plan(g, s).value;
    var up := UpHosts(s);
    assert up != [];
    PlanJobs(g, s);
    forall t | t in plan ensures IsFirstUpHost(s, t.target) <==> t.target == up[0] {
      FirstUpHostIsHead(s, t.target);
    }
    CanaryJobCount(plan, g.canaryJobId.value, g.jobId, up[0]);
    PlanActionTargets(g, s, DeployNewJob);
    UpHostsDistinct(s);
    DistinctCount(up, up[0]);
  }

  /** Without a canary job every deploy task names the group's job. */
  lemma PlanWithoutCanary(g: DeploymentGroup, s: HostStatusMap)
    requires Plan(g, s).Success? && g.canaryJobId.None?
    ensures forall t | t in Plan(g, s).value && t.action == DeployNewJob :: t.jobId == Some(g.jobId)
  {
    PlanJobs(g, s);
  }

  /**
   * Without overlap: a host's old jobs are undeployed before its new job is deployed, and within
   * a partition every await comes after every undeploy and every deploy.
   */
  lemma PlanOrderWithoutOverlap(g: DeploymentGroup, s: HostStatusMap)
    requires Plan(g, s).Success? && !Overlap(g)
    ensures PerHostBefore(Plan(g, s).value, UndeployOldJobs, DeployNewJob)
    ensures PartitionBefore(Plan(g, s).value, Partitions(g, s), DeployNewJob, AwaitRunning)
    ensures PartitionBefore(Plan(g, s).value, Partitions(g, s), UndeployOldJobs, AwaitRunning)
  {
    PlanValue(g, s);
    var parts := Partitions(g, s);
    var ch := CanaryHosts(g, UpHosts(s)).value;
    UpHostsDistinct(s);
    ChunkFlatten(UpHosts(s), Parallelism(g));
    forall k | 0 <= k < |parts|
      ensures PerHostBefore(PartitionTasks(g, ch, parts[k], false), UndeployOldJobs, DeployNewJob)
      ensures AllBefore(PartitionTasks(g, ch, parts[k], false), DeployNewJob, AwaitRunning)
      ensures AllBefore(PartitionTasks(g, ch, parts[k], false), UndeployOldJobs, AwaitRunning)
    {
      ChunkDistinct(UpHosts(s), Parallelism(g), k);
      RolloutTasksOrder(g, ch, parts[k]);
    }
    PartitionsTasksPerHostBefore(g, ch, parts, false, UndeployOldJobs, DeployNewJob);
    PartitionsTasksPartitionBefore(g, ch, parts, false, DeployNewJob, AwaitRunning);
    PartitionsTasksPartitionBefore(g, ch, parts, false, UndeployOldJobs, AwaitRunning);
  }

  /** With overlap: within a partition every deploy precedes every await, which precedes every undeploy. */
  lemma PlanOrderWithOverlap(g: DeploymentGroup, s: HostStatusMap)
    requires Plan(g, s).Success? && Overlap(g)
    ensures PartitionBefore(Plan(g, s).value, Partitions(g, s), DeployNewJob, AwaitRunning)
    ensures PartitionBefore(Plan(g, s).value, Partitions(g, s), AwaitRunning, UndeployOldJobs)
    ensures PartitionBefore(Plan(g, s).value, Partitions(g, s), DeployNewJob, UndeployOldJobs)
  {
    PlanValue(g, s);
    var parts := Partitions(g, s);
    var ch := CanaryHosts(g, UpHosts(s)).value;
    UpHostsDistinct(s);
    ChunkFlatten(UpHosts(s), Parallelism(g));
    forall k | 0 <= k < |parts|
      ensures AllBefore(PartitionTasks(g, ch, parts[k], true), DeployNewJob, AwaitRunning)
      ensures AllBefore(PartitionTasks(g, ch, parts[k], true), AwaitRunning, UndeployOldJobs)
      ensures AllBefore(PartitionTasks(g, ch, parts[k], true), DeployNewJob, UndeployOldJobs)
    {
      RolloutTasksWithOverlapOrder(g, ch, parts[k]);
    }
    PartitionsTasksPartitionBefore(g, ch, parts, true, DeployNewJob, AwaitRunning);
    PartitionsTasksPartitionBefore(g, ch, parts, true, AwaitRunning, UndeployOldJobs);
    PartitionsTasksPartitionBefore(g, ch, parts, true, DeployNewJob, UndeployOldJobs);
  }

  /** The plan works through the partitions one after another. */
  lemma PlanPartitionsInOrder(g: DeploymentGroup, s: HostStatusMap)
    requires Plan(g, s).Success?
    ensures PartitionsInOrder(Plan(g, s).value, Partitions(g, s))
  {
    PlanValue(g, s);
    UpHostsDistinct(s);
    ChunkFlatten(UpHosts(s), Parallelism(g));
    PartitionsTasksInOrder(g, CanaryHosts(g, UpHosts(s)).value, Partitions(g, s), Overlap(g));
  }

  /** No UP host and no canary job: the plan is empty. */
  lemma PlanEmptyWithoutUpHosts(g: DeploymentGroup, s: HostStatusMap)
    requires NoHostUp(s) && g.canaryJobId.None? && Parallelism(g) >= 1
    ensures Plan(g, s) == Success([])
  {
    assert Plan(g, s).Success?;
    PlanLength(g, s);
    UpHostsEmpty(s);
  }

  /** Missing rollout options plan like parallelism 1 without overlap. */
  lemma PlanDefaultOptions(g: DeploymentGroup, s: HostStatusMap)
    requires g.rolloutOptions.None?
    ensures Plan(g, s) == Plan(g.(rolloutOptions := Some(RolloutOptions(1, false))), s)
  {
    var g' := g.(rolloutOptions := Some(RolloutOptions(1, false)));
    var up := UpHosts(s);
    if CanaryHosts(g, up).Success? {
      PartitionsTasksReadsOnlyJobs(g, g', CanaryHosts(g, up).value, Chunk(up, 1), false);
    }
  }
}
