/** Worked examples of the planner on small snapshots. */
module Scenarios {
  import opened Wrappers
  import opened Descriptors
  import opened Partition
  import opened RolloutPlanner

  function Undeploy(h: Host): RolloutTask { RolloutTask(UndeployOldJobs, h, None) }
  function Deploy(h: Host, j: JobId): RolloutTask { RolloutTask(DeployNewJob, h, Some(j)) }
  function Await(h: Host): RolloutTask { RolloutTask(AwaitRunning, h, None) }

  function Group(canary: Option<JobId>, parallelism: int, overlap: bool): DeploymentGroup {
    DeploymentGroup("job", canary, Some(RolloutOptions(parallelism, overlap)))
  }

  // One-step unfoldings, so that each example below is a chain of small steps.

  lemma UpHostsCons(e: (Host, Status), rest: seq<(Host, Status)>)
    ensures UpHosts([e] + rest) == (if e.1 == Up then [e.0] else []) + UpHosts(rest)
  {
    assert ([e] + rest)[1..] == rest;
  }

  lemma EachHostCons(a: Action, h: Host, rest: seq<Host>)
    ensures EachHost(a, [h] + rest) == [RolloutTask(a, h, None)] + EachHost(a, rest)
  {
    assert ([h] + rest)[1..] == rest;
  }

  lemma DeployEachCons(g: DeploymentGroup, ch: seq<Host>, h: Host, rest: seq<Host>)
    requires CanaryHostsValid(g, ch)
    ensures DeployEach(g, ch, [h] + rest) == [Deploy(h, JobFor(g, ch, h))] + DeployEach(g, ch, rest)
  {
    assert ([h] + rest)[1..] == rest;
  }

  lemma UndeployThenDeployEachCons(g: DeploymentGroup, ch: seq<Host>, h: Host, rest: seq<Host>)
    requires CanaryHostsValid(g, ch)
    ensures UndeployThenDeployEach(g, ch, [h] + rest)
         == [Undeploy(h), Deploy(h, JobFor(g, ch, h))] + UndeployThenDeployEach(g, ch, rest)
  {
    assert ([h] + rest)[1..] == rest;
  }

  lemma PartitionsTasksCons(g: DeploymentGroup, ch: seq<Host>, p: seq<Host>, rest: seq<seq<Host>>, overlap: bool)
    requires CanaryHostsValid(g, ch)
    ensures PartitionsTasks(g, ch, [p] + rest, overlap)
         == PartitionTasks(g, ch, p, overlap) + PartitionsTasks(g, ch, rest, overlap)
  {
    assert ([p] + rest)[1..] == rest;
  }

  lemma ChunkCons(xs: seq<Host>, n: nat)
    requires n >= 1 && |xs| > n
    ensures Chunk(xs, n) == [xs[..n]] + Chunk(xs[n..], n)
  {
  }

  /** A plan that does not fail, unfolded once: the tasks of the chunks of the UP hosts. */
  lemma PlanUnfolds(g: DeploymentGroup, s: HostStatusMap, up: seq<Host>, ch: seq<Host>, parts: seq<seq<Host>>)
    requires Parallelism(g) >= 1 && UpHosts(s) == up
    requires CanaryHosts(g, up) == Success(ch) && Chunk(up, Parallelism(g)) == parts
    ensures Plan(g, s) == Success(PartitionsTasks(g, ch, parts, Overlap(g)))
  {
  }

  lemma ThreeHostsUp(a: Host, b: Host, c: Host)
    ensures UpHosts([(a, Up), (b, Up), (c, Up)]) == [a, b, c]
  {
    UpHostsCons((c, Up), []);
    UpHostsCons((b, Up), [(c, Up)]);
    UpHostsCons((a, Up), [(b, Up), (c, Up)]);
  }

  lemma FourHostsUp(a: Host, b: Host, c: Host, d: Host)
    ensures UpHosts([(a, Up), (b, Up), (c, Up), (d, Up)]) == [a, b, c, d]
  {
    ThreeHostsUp(b, c, d);
    UpHostsCons((a, Up), [(b, Up), (c, Up), (d, Up)]);
  }

  lemma ChunkWhole(xs: seq<Host>, n: nat)
    requires 0 < |xs| <= n
    ensures Chunk(xs, n) == [xs]
  {
  }

  lemma CanaryHostIsFirst(g: DeploymentGroup, a: Host, rest: seq<Host>)
    requires g.canaryJobId.Some?
    ensures CanaryHosts(g, [a] + rest) == Success([a])
  {
    assert ([a] + rest)[..1] == [a];
  }

  lemma ChunkByOne(a: Host, b: Host, c: Host)
    ensures Chunk([a, b, c], 1) == [[a], [b], [c]]
  {
    ChunkCons([a, b, c], 1);
    ChunkCons([b, c], 1);
    assert [a, b, c][..1] == [a] && [a, b, c][1..] == [b, c];
    assert [b, c][..1] == [b] && [b, c][1..] == [c];
  }

  lemma ChunkByTwo(a: Host, b: Host, c: Host)
    ensures Chunk([a, b, c], 2) == [[a, b], [c]]
  {
    ChunkCons([a, b, c], 2);
    assert [a, b, c][..2] == [a, b] && [a, b, c][2..] == [c];
  }

  lemma SecondHostDown(a: Host, b: Host, c: Host)
    ensures UpHosts([(a, Up), (b, Down), (c, Up)]) == [a, c]
  {
    UpHostsCons((c, Up), []);
    UpHostsCons((b, Down), [(c, Up)]);
    UpHostsCons((a, Up), [(b, Down), (c, Up)]);
  }

  /** Three UP hosts, one at a time, without overlap: each host's three tasks in turn. */
  lemma SequentialRollout()
    ensures Plan(Group(None, 1, false), [("A", Up), ("B", Up), ("C", Up)])
         == Success([Undeploy("A"), Deploy("A", "job"), Await("A"),
                     Undeploy("B"), Deploy("B", "job"), Await("B"),
                     Undeploy("C"), Deploy("C", "job"), Await("C")])
  {
    var g := Group(None, 1, false);
    var s: HostStatusMap := [("A", Up), ("B", Up), ("C", Up)];
    var hosts: seq<Host> := ["A", "B", "C"];
    var parts: seq<seq<Host>> := [["A"], ["B"], ["C"]];
    assert UpHosts(s) == hosts by {
      ThreeHostsUp("A", "B", "C");
    }
    assert Chunk(hosts, 1) == parts by {
      ChunkByOne("A", "B", "C");
    }
    PlanUnfolds(g, s, hosts, [], parts);
    SequentialPartitions(g);
  }

  lemma SequentialPartitions(g: DeploymentGroup)
    requires g == Group(None, 1, false)
    ensures PartitionsTasks(g, [], [["A"], ["B"], ["C"]], false)
         == [Undeploy("A"), Deploy("A", "job"), Await("A"),
             Undeploy("B"), Deploy("B", "job"), Await("B"),
             Undeploy("C"), Deploy("C", "job"), Await("C")]
  {
    SingleHostWithoutOverlap(g, "A");
    SingleHostWithoutOverlap(g, "B");
    SingleHostWithoutOverlap(g, "C");
    PartitionsTasksCons(g, [], ["C"], [], false);
    PartitionsTasksCons(g, [], ["B"], [["C"]], false);
    PartitionsTasksCons(g, [], ["A"], [["B"], ["C"]], false);
  }

  /** A partition of one host without overlap: undeploy, deploy, await. */
  lemma SingleHostWithoutOverlap(g: DeploymentGroup, h: Host)
    requires g.canaryJobId.None? && g.jobId == "job"
    ensures RolloutTasks(g, [], [h]) == [Undeploy(h), Deploy(h, "job"), Await(h)]
  {
    UndeployThenDeployEachCons(g, [], h, []);
    EachHostCons(AwaitRunning, h, []);
    assert [h] + [] == [h];
  }

  /** Three UP hosts, two at a time, with overlap: deploys, then awaits, then undeploys per pair. */
  lemma OverlapInPairs()
    ensures Plan(Group(None, 2, true), [("A", Up), ("B", Up), ("C", Up)])
         == Success([Deploy("A", "job"), Deploy("B", "job"), Await("A"), Await("B"), Undeploy("A"), Undeploy("B"),
                     Deploy("C", "job"), Await("C"), Undeploy("C")])
  {
    var g := Group(None, 2, true);
    var s: HostStatusMap := [("A", Up), ("B", Up), ("C", Up)];
    var hosts: seq<Host> := ["A", "B", "C"];
    var parts: seq<seq<Host>> := [["A", "B"], ["C"]];
    assert UpHosts(s) == hosts by {
      ThreeHostsUp("A", "B", "C");
    }
    assert Chunk(hosts, 2) == parts by {
      ChunkByTwo("A", "B", "C");
    }
    PlanUnfolds(g, s, hosts, [], parts);
    OverlapPartitions(g);
  }

  lemma OverlapPartitions(g: DeploymentGroup)
    requires g == Group(None, 2, true)
    ensures PartitionsTasks(g, [], [["A", "B"], ["C"]], true)
         == [Deploy("A", "job"), Deploy("B", "job"), Await("A"), Await("B"), Undeploy("A"), Undeploy("B"),
             Deploy("C", "job"), Await("C"), Undeploy("C")]
  {
    PairWithOverlap(g, "A", "B");
    SingleHostWithOverlap(g, "C");
    PartitionsTasksCons(g, [], ["C"], [], true);
    PartitionsTasksCons(g, [], ["A", "B"], [["C"]], true);
  }

  /** A partition of one host with overlap: deploy, await, undeploy. */
  lemma SingleHostWithOverlap(g: DeploymentGroup, h: Host)
    requires g.canaryJobId.None? && g.jobId == "job"
    ensures RolloutTasksWithOverlap(g, [], [h]) == [Deploy(h, "job"), Await(h), Undeploy(h)]
  {
    DeployEachCons(g, [], h, []);
    EachHostCons(AwaitRunning, h, []);
    EachHostCons(UndeployOldJobs, h, []);
    assert [h] + [] == [h];
  }

  /** A partition of two hosts with overlap: both deploys, both awaits, both undeploys. */
  lemma PairWithOverlap(g: DeploymentGroup, h1: Host, h2: Host)
    requires g.canaryJobId.None? && g.jobId == "job"
    ensures RolloutTasksWithOverlap(g, [], [h1, h2])
         == [Deploy(h1, "job"), Deploy(h2, "job"), Await(h1), Await(h2), Undeploy(h1), Undeploy(h2)]
  {
    assert [h1, h2] == [h1] + [h2] && [h2] + [] == [h2];
    DeployEachCons(g, [], h2, []);
    DeployEachCons(g, [], h1, [h2]);
    EachHostCons(AwaitRunning, h2, []);
    EachHostCons(AwaitRunning, h1, [h2]);
    EachHostCons(UndeployOldJobs, h2, []);
    EachHostCons(UndeployOldJobs, h1, [h2]);
  }

  /** Four UP hosts in one partition with a canary job: only the first host gets it. */
  lemma CanaryOnFirstHost()
    ensures Plan(Group(Some("canary"), 4, false), [("A", Up), ("B", Up), ("C", Up), ("D", Up)])
         == Success([Undeploy("A"), Deploy("A", "canary"), Undeploy("B"), Deploy("B", "job"),
                     Undeploy("C"), Deploy("C", "job"), Undeploy("D"), Deploy("D", "job"),
                     Await("A"), Await("B"), Await("C"), Await("D")])
  {
    var g := Group(Some("canary"), 4, false);
    var s: HostStatusMap := [("A", Up), ("B", Up), ("C", Up), ("D", Up)];
    var hosts: seq<Host> := ["A", "B", "C", "D"];
    var ch: seq<Host> := ["A"];
    assert UpHosts(s) == hosts by {
      FourHostsUp("A", "B", "C", "D");
    }
    assert CanaryHosts(g, hosts) == Success(ch) by {
      CanaryHostIsFirst(g, "A", ["B", "C", "D"]);
      assert ["A"] + ["B", "C", "D"] == hosts;
    }
    assert Chunk(hosts, 4) == [hosts] by {
      ChunkWhole(hosts, 4);
    }
    PlanUnfolds(g, s, hosts, ch, [hosts]);
    CanaryFirstPartition(g, ch);
  }

  lemma CanaryFirstPartition(g: DeploymentGroup, ch: seq<Host>)
    requires g == Group(Some("canary"), 4, false) && ch == ["A"]
    ensures PartitionsTasks(g, ch, [["A", "B", "C", "D"]], false)
         == [Undeploy("A"), Deploy("A", "canary"), Undeploy("B"), Deploy("B", "job"),
             Undeploy("C"), Deploy("C", "job"), Undeploy("D"), Deploy("D", "job"),
             Await("A"), Await("B"), Await("C"), Await("D")]
  {
    PartitionsTasksCons(g, ch, ["A", "B", "C", "D"], [], false);
    CanaryFirstTasks(g, ch);
  }

  lemma CanaryFirstTasks(g: DeploymentGroup, ch: seq<Host>)
    requires g == Group(Some("canary"), 4, false) && ch == ["A"]
    ensures RolloutTasks(g, ch, ["A", "B", "C", "D"])
         == [Undeploy("A"), Deploy("A", "canary"), Undeploy("B"), Deploy("B", "job"),
             Undeploy("C"), Deploy("C", "job"), Undeploy("D"), Deploy("D", "job"),
             Await("A"), Await("B"), Await("C"), Await("D")]
  {
    assert "B" !in ch && "C" !in ch && "D" !in ch;
    UndeployThenDeployEachCons(g, ch, "D", []);
    UndeployThenDeployEachCons(g, ch, "C", ["D"]);
    UndeployThenDeployEachCons(g, ch, "B", ["C", "D"]);
    UndeployThenDeployEachCons(g, ch, "A", ["B", "C", "D"]);
    EachHostCons(AwaitRunning, "D", []);
    EachHostCons(AwaitRunning, "C", ["D"]);
    EachHostCons(AwaitRunning, "B", ["C", "D"]);
    EachHostCons(AwaitRunning, "A", ["B", "C", "D"]);
  }

  /** A DOWN host is left out of the plan. */
  lemma DownHostLeftOut()
    ensures Plan(Group(None, 2, false), [("A", Up), ("B", Down), ("C", Up)])
         == Success([Undeploy("A"), Deploy("A", "job"), Undeploy("C"), Deploy("C", "job"), Await("A"), Await("C")])
  {
    var g := Group(None, 2, false);
    var s: HostStatusMap := [("A", Up), ("B", Down), ("C", Up)];
    var hosts: seq<Host> := ["A", "C"];
    assert UpHosts(s) == hosts by {
      SecondHostDown("A", "B", "C");
    }
    assert Chunk(hosts, 2) == [hosts] by {
      ChunkWhole(hosts, 2);
    }
    PlanUnfolds(g, s, hosts, [], [hosts]);
    DownHostPartition(g, hosts);
  }

  lemma DownHostPartition(g: DeploymentGroup, hosts: seq<Host>)
    requires g == Group(None, 2, false) && hosts == ["A", "C"]
    ensures PartitionsTasks(g, [], [hosts], false)
         == [Undeploy("A"), Deploy("A", "job"), Undeploy("C"), Deploy("C", "job"), Await("A"), Await("C")]
  {
    PartitionsTasksCons(g, [], hosts, [], false);
    UndeployThenDeployEachCons(g, [], "C", []);
    UndeployThenDeployEachCons(g, [], "A", ["C"]);
    EachHostCons(AwaitRunning, "C", []);
    EachHostCons(AwaitRunning, "A", ["C"]);
  }

  /** A canary job with every host DOWN fails instead of planning. */
  lemma CanaryWithAllHostsDown()
    ensures Plan(Group(Some("canary"), 1, false), [("A", Down)]) == Failure(CanaryWithoutUpHosts)
  {
  }

  /** A parallelism of zero fails even with nothing to plan. */
  lemma ZeroParallelism()
    ensures Plan(Group(None, 0, false), []) == Failure(NonPositiveParallelism)
  {
  }
}
