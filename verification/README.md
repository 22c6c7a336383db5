# Helios rolling-update planner in Dafny

This project models `DefaultRolloutPlanner`, the planner that Helios uses to roll a deployment
group onto its hosts. Given a deployment group (a job id, an optional canary job id and optional
rollout options holding a parallelism and an overlap flag) and a snapshot of host statuses, the
planner produces an ordered list of rollout tasks. Each task is UNDEPLOY_OLD_JOBS, DEPLOY_NEW_JOB or
AWAIT_RUNNING on one host, and only deploy tasks name a job.

The planner works in four steps, and the model follows them:

1. It keeps the UP hosts in the snapshot's iteration order (`RolloutPlanner.UpHosts`).
2. When a canary job is named, the first UP host becomes the canary host (`RolloutPlanner.CanaryHosts`).
3. It cuts the UP hosts into consecutive chunks of `parallelism` hosts, as Guava's `Lists.partition`
   does (`Partition.Chunk`).
4. For each chunk it emits one of two fixed task blocks (`RolloutPlanner.RolloutTasks` without overlap,
   `RolloutPlanner.RolloutTasksWithOverlap` with overlap), concatenated in chunk order.

Layout:

- `wrappers.dfy`: `Option` and `Result`. They stand for Java's `null` and for the exceptions the planner can raise.
- `seqs.dfy`: sequence helpers (`Distinct`, `Flatten`, `CountOf`) and their lemmas.
- `partition.dfy`: `Chunk`, the model of `Lists.partition`, proved equal to Guava's index arithmetic. Chunk `k` is `xs[k*n .. min(k*n+n, |xs|)]`, and the number of chunks is the ceiling of `|xs| / n`.
- `descriptors.dfy`: the data model (hosts, statuses, the snapshot, tasks, rollout options, the deployment group, the errors).
- `planner.dfy`: the planner as pure functions, including `Plan`.
- `block_properties.dfy`: facts about one chunk's task block and about concatenated blocks.
- `plan_properties.dfy`: the planner's promises, stated about `Plan`.
- `planner_loops.dfy`: the Java loops, written as methods. Each is proved to compute the functional definition.
- `scenarios.dfy`: worked examples on small snapshots.

The snapshot is a `Map<String, HostStatus>`. It is modelled as `HostStatusMap`, a sequence of
(host, status) pairs with distinct hosts in the map's iteration order. The planner depends on that
order: the canary is the first UP host, and chunks follow it. A host status is reduced to its
`Status` (`Up` or `Down`), and every status other than UP behaves as `Down`.

The Java method throws in two cases. The model returns a `Failure` for each, checked in the same
order as the code:

- `CanaryWithoutUpHosts`: a canary job id is set and no host is UP. Here `subList(0, 1)` on the empty list throws.
- `NonPositiveParallelism`: the parallelism is below 1, which `Lists.partition` rejects. The code checks this even when there are no hosts.

Three behaviours of the code that the contracts reflect:

- With no UP host, the plan is empty only when no canary job is named (`PlanProperties.PlanEmptyWithoutUpHosts`). With a canary job, `subList(0, 1)` throws (line 64), so `Plan` fails with `CanaryWithoutUpHosts`.
- The job is chosen per host, so when the canary job id equals the primary job id, every deploy names it. `PlanProperties.PlanCanaryExclusive` therefore assumes the two ids differ; `PlanProperties.PlanJobs` states the per-host rule without that assumption.
- The planner has no parallelism check of its own; only `Lists.partition` rejects a size below 1 (line 77). The model reports that as the error `NonPositiveParallelism`.

## Model

| member | source | states |
|---|---|---|
| RolloutPlanner.UpHosts | helios-services/src/main/java/com/spotify/helios/rollingupdate/DefaultRolloutPlanner.java:53-59 | a host is in the result exactly when the snapshot maps it to UP; the result is no longer than the snapshot |
| RolloutPlanner.CanaryHosts | helios-services/src/main/java/com/spotify/helios/rollingupdate/DefaultRolloutPlanner.java:61-67 | fails exactly when a canary job is named and no host is UP; otherwise holds at most one host, the first UP host, and only when a canary job is named |
| RolloutPlanner.EachHost | helios-services/src/main/java/com/spotify/helios/rollingupdate/DefaultRolloutPlanner.java:99-101 | one task per host, in host order: task k is the given action on host k with no job |
| RolloutPlanner.DeployEach | helios-services/src/main/java/com/spotify/helios/rollingupdate/DefaultRolloutPlanner.java:108-117 | one DEPLOY_NEW_JOB per host, in host order, with the canary job on a canary host and the primary job elsewhere |
| RolloutPlanner.UndeployThenDeployEach | helios-services/src/main/java/com/spotify/helios/rollingupdate/DefaultRolloutPlanner.java:88-98 | task 2k undeploys host k and task 2k+1 deploys host k with its job; two tasks per host |
| RolloutPlanner.RolloutTasks | helios-services/src/main/java/com/spotify/helios/rollingupdate/DefaultRolloutPlanner.java:85-103 | a chunk of m hosts gives 3m tasks: host k is undeployed at 2k, deployed at 2k+1, and awaited at 2m+k |
| RolloutPlanner.RolloutTasksWithOverlap | helios-services/src/main/java/com/spotify/helios/rollingupdate/DefaultRolloutPlanner.java:105-125 | a chunk of m hosts gives 3m tasks: host k is deployed at k, awaited at m+k, and undeployed at 2m+k |
| RolloutPlanner.Plan | helios-services/src/main/java/com/spotify/helios/rollingupdate/DefaultRolloutPlanner.java:52-83 | fails with CanaryWithoutUpHosts exactly when a canary job is named and no host is UP; fails with NonPositiveParallelism exactly when that does not hold and the parallelism is below 1; succeeds exactly otherwise |
| Partition.Chunk | helios-services/src/main/java/com/spotify/helios/rollingupdate/DefaultRolloutPlanner.java:77 | every chunk is non-empty and holds at most n elements; every chunk but the last holds exactly n |
| Partition.ChunkFlatten | helios-services/src/main/java/com/spotify/helios/rollingupdate/DefaultRolloutPlanner.java:77 | the chunks, concatenated in order, give back the list |
| Partition.ChunkCount | helios-services/src/main/java/com/spotify/helios/rollingupdate/DefaultRolloutPlanner.java:77 | the number of chunks is the ceiling of the list's length divided by n |
| Partition.ChunkAt | helios-services/src/main/java/com/spotify/helios/rollingupdate/DefaultRolloutPlanner.java:77 | chunk k starts at offset k·n and ends at k·n+n or at the end of the list, whichever comes first |
| Partition.ChunkMatchesIndexing | helios-services/src/main/java/com/spotify/helios/rollingupdate/DefaultRolloutPlanner.java:77 | each chunk k starts inside the list and is exactly the slice from k·n to min(k·n+n, length), as Guava's partition view computes it |
| Partition.PartitionOfIndex | helios-services/src/main/java/com/spotify/helios/rollingupdate/DefaultRolloutPlanner.java:77 | in a list without repeats, the element at index i lies in chunk k exactly when k·n <= i < k·n+n |
| Partition.ChunkDistinct | helios-services/src/main/java/com/spotify/helios/rollingupdate/DefaultRolloutPlanner.java:77 | a chunk of a list without repeats has no repeats |
| BlockProperties.EachHostTargets | helios-services/src/main/java/com/spotify/helios/rollingupdate/DefaultRolloutPlanner.java:99-101 | the hosts targeted by a one-action block's action are the block's hosts in order; no other action appears |
| BlockProperties.DeployEachTargets | helios-services/src/main/java/com/spotify/helios/rollingupdate/DefaultRolloutPlanner.java:108-117 | the deploy block targets its hosts in order with DEPLOY_NEW_JOB and nothing with another action |
| BlockProperties.UndeployThenDeployEachTargets | helios-services/src/main/java/com/spotify/helios/rollingupdate/DefaultRolloutPlanner.java:88-98 | the undeploy/deploy block targets its hosts in order with each of its two actions and nothing with AWAIT_RUNNING |
| BlockProperties.PartitionTasksTargets | helios-services/src/main/java/com/spotify/helios/rollingupdate/DefaultRolloutPlanner.java:85-125 | in either mode, for each action, a chunk's block targets exactly the chunk's hosts in order |
| BlockProperties.PartitionTasksShape | helios-services/src/main/java/com/spotify/helios/rollingupdate/DefaultRolloutPlanner.java:85-125 | every task of a chunk's block targets a host of the chunk and names a job exactly when it deploys, namely the job its host is given |
| BlockProperties.RolloutTasksAt | helios-services/src/main/java/com/spotify/helios/rollingupdate/DefaultRolloutPlanner.java:85-103 | without overlap, task i < 2m is on host i/2 and undeploys when i is even and deploys when i is odd; every later task awaits |
| BlockProperties.RolloutTasksOrder | helios-services/src/main/java/com/spotify/helios/rollingupdate/DefaultRolloutPlanner.java:85-103 | without overlap, a host is undeployed before it is deployed, and every await follows every undeploy and every deploy of the chunk |
| BlockProperties.AwaitsLast | helios-services/src/main/java/com/spotify/helios/rollingupdate/DefaultRolloutPlanner.java:88-101 | without overlap, a task that is not an await comes before any await |
| BlockProperties.UndeployJustBeforeDeploy | helios-services/src/main/java/com/spotify/helios/rollingupdate/DefaultRolloutPlanner.java:96-97 | without overlap and with distinct hosts, a host's deploy immediately follows its undeploy |
| BlockProperties.RolloutTasksWithOverlapAt | helios-services/src/main/java/com/spotify/helios/rollingupdate/DefaultRolloutPlanner.java:105-125 | with overlap, the first m tasks deploy, the next m await, and the last m undeploy |
| BlockProperties.RolloutTasksWithOverlapOrder | helios-services/src/main/java/com/spotify/helios/rollingupdate/DefaultRolloutPlanner.java:105-125 | with overlap, every deploy precedes every await, every await precedes every undeploy, and every deploy precedes every undeploy |
| BlockProperties.PartitionsTasksLength | helios-services/src/main/java/com/spotify/helios/rollingupdate/DefaultRolloutPlanner.java:77-80 | the concatenated blocks have three tasks per host of all chunks |
| BlockProperties.PartitionsTasksTargets | helios-services/src/main/java/com/spotify/helios/rollingupdate/DefaultRolloutPlanner.java:77-80 | for each action, the concatenated blocks target the chunks' hosts in chunk order |
| BlockProperties.PartitionsTasksShape | helios-services/src/main/java/com/spotify/helios/rollingupdate/DefaultRolloutPlanner.java:77-80 | every task of the concatenated blocks targets a host of some chunk and carries the job its action and host call for |
| BlockProperties.PartitionsTasksFlatten | helios-services/src/main/java/com/spotify/helios/rollingupdate/DefaultRolloutPlanner.java:77-80 | the partitions' tasks are the concatenation of one block per partition, block k being partition k's tasks in the given mode |
| BlockProperties.TaskOrigin | helios-services/src/main/java/com/spotify/helios/rollingupdate/DefaultRolloutPlanner.java:77-80 | with distinct hosts, a task of the concatenation lies in the first block exactly when its host is in the first chunk; otherwise it comes from the rest |
| BlockProperties.PartitionsTasksInOrder | helios-services/src/main/java/com/spotify/helios/rollingupdate/DefaultRolloutPlanner.java:77-80 | with distinct hosts, every task of an earlier chunk comes before every task of a later chunk |
| BlockProperties.PartitionsTasksPartitionBefore | helios-services/src/main/java/com/spotify/helios/rollingupdate/DefaultRolloutPlanner.java:77-80 | an order between two actions that holds inside every block holds between those actions on hosts of the same chunk in the concatenation |
| BlockProperties.PartitionsTasksPerHostBefore | helios-services/src/main/java/com/spotify/helios/rollingupdate/DefaultRolloutPlanner.java:77-80 | an order between two actions on the same host that holds inside every block holds in the concatenation |
| BlockProperties.PartitionsTasksReadsOnlyJobs | helios-services/src/main/java/com/spotify/helios/rollingupdate/DefaultRolloutPlanner.java:89-94 | the blocks depend on the group only through its job id and canary job id |
| PlanProperties.UpHostsAppend | helios-services/src/main/java/com/spotify/helios/rollingupdate/DefaultRolloutPlanner.java:54-59 | filtering a concatenated snapshot gives the concatenation of the filtered parts |
| PlanProperties.UpHostsDistinct | helios-services/src/main/java/com/spotify/helios/rollingupdate/DefaultRolloutPlanner.java:53-59 | a snapshot with distinct hosts has distinct UP hosts |
| PlanProperties.FirstUpHostIsHead | helios-services/src/main/java/com/spotify/helios/rollingupdate/DefaultRolloutPlanner.java:61-67 | a host is the first UP host in iteration order exactly when the UP list is non-empty and starts with that host |
| PlanProperties.UpHostsEmpty | helios-services/src/main/java/com/spotify/helios/rollingupdate/DefaultRolloutPlanner.java:53-59 | the UP list is empty exactly when no entry is UP |
| PlanProperties.PlanIsPartitionBlocks | helios-services/src/main/java/com/spotify/helios/rollingupdate/DefaultRolloutPlanner.java:72-80 | a successful plan is one block per chunk of the UP hosts, concatenated in chunk order; block k is chunk k's tasks in the group's mode, with the first UP host as the canary host when a canary job is named |
| PlanProperties.PlanLength | helios-services/src/main/java/com/spotify/helios/rollingupdate/DefaultRolloutPlanner.java:77-80 | a plan has three tasks per UP host |
| PlanProperties.PlanActionTargets | helios-services/src/main/java/com/spotify/helios/rollingupdate/DefaultRolloutPlanner.java:77-125 | for each action, the plan targets exactly the UP hosts, in iteration order |
| PlanProperties.PlanOnlyUpHosts | helios-services/src/main/java/com/spotify/helios/rollingupdate/DefaultRolloutPlanner.java:53-59 | every task targets a host the snapshot maps to UP, and no host with another status appears |
| PlanProperties.PlanEachUpHostOnce | helios-services/src/main/java/com/spotify/helios/rollingupdate/DefaultRolloutPlanner.java:53-125 | for each action, a host is targeted once if it is UP and never otherwise |
| PlanProperties.PlanJobs | helios-services/src/main/java/com/spotify/helios/rollingupdate/DefaultRolloutPlanner.java:61-122 | undeploys and awaits name no job; a deploy names the canary job when one is named and its host is the first UP host, and the primary job otherwise |
| PlanProperties.CanaryJobCount | helios-services/src/main/java/com/spotify/helios/rollingupdate/DefaultRolloutPlanner.java:89-94 | when deploys name the canary job exactly on one host, the canary job is named as often as that host is deployed |
| PlanProperties.PlanCanaryExclusive | helios-services/src/main/java/com/spotify/helios/rollingupdate/DefaultRolloutPlanner.java:61-114 | with a canary job distinct from the primary job, exactly one task names the canary job |
| PlanProperties.PlanWithoutCanary | helios-services/src/main/java/com/spotify/helios/rollingupdate/DefaultRolloutPlanner.java:61-94 | without a canary job, every deploy names the primary job |
| PlanProperties.PlanOrderWithoutOverlap | helios-services/src/main/java/com/spotify/helios/rollingupdate/DefaultRolloutPlanner.java:85-103 | without overlap, each host is undeployed before it is deployed, and within a chunk every undeploy and deploy precede every await |
| PlanProperties.PlanOrderWithOverlap | helios-services/src/main/java/com/spotify/helios/rollingupdate/DefaultRolloutPlanner.java:105-125 | with overlap, within a chunk every deploy precedes every await and every undeploy, and every await precedes every undeploy |
| PlanProperties.PlanPartitionsInOrder | helios-services/src/main/java/com/spotify/helios/rollingupdate/DefaultRolloutPlanner.java:77-80 | all tasks of an earlier chunk come before all tasks of a later chunk |
| PlanProperties.PlanEmptyWithoutUpHosts | helios-services/src/main/java/com/spotify/helios/rollingupdate/DefaultRolloutPlanner.java:52-83 | with no UP host, no canary job and a parallelism of at least 1, the plan is empty |
| PlanProperties.PlanDefaultOptions | helios-services/src/main/java/com/spotify/helios/rollingupdate/DefaultRolloutPlanner.java:72-75 | a group without rollout options plans as one with parallelism 1 and no overlap |
| RolloutPlannerLoops.PartitionsTasksAppend | helios-services/src/main/java/com/spotify/helios/rollingupdate/DefaultRolloutPlanner.java:77-80 | appending chunks appends their blocks, as the loop's addAll does |
| RolloutPlannerLoops.UpHostsLoop | helios-services/src/main/java/com/spotify/helios/rollingupdate/DefaultRolloutPlanner.java:53-59 | the filtering loop computes exactly the UP hosts |
| RolloutPlannerLoops.UndeployThenDeployLoop | helios-services/src/main/java/com/spotify/helios/rollingupdate/DefaultRolloutPlanner.java:88-98 | the first loop of the non-overlap block computes the undeploy/deploy pairs |
| RolloutPlannerLoops.EachHostLoop | helios-services/src/main/java/com/spotify/helios/rollingupdate/DefaultRolloutPlanner.java:99-101 | a one-action loop computes one task per host |
| RolloutPlannerLoops.DeployLoop | helios-services/src/main/java/com/spotify/helios/rollingupdate/DefaultRolloutPlanner.java:108-117 | the deploy loop of the overlap block computes the deploys with each host's job |
| RolloutPlannerLoops.PartitionLoop | helios-services/src/main/java/com/spotify/helios/rollingupdate/DefaultRolloutPlanner.java:78-79 | one chunk's block in the group's mode, built loop by loop |
| RolloutPlannerLoops.PartitionsLoop | helios-services/src/main/java/com/spotify/helios/rollingupdate/DefaultRolloutPlanner.java:77-80 | the chunk loop computes the concatenated blocks |
| RolloutPlannerLoops.PlanLoop | helios-services/src/main/java/com/spotify/helios/rollingupdate/DefaultRolloutPlanner.java:52-83 | the imperative planner returns exactly what the functional `Plan` returns, including both failures |
| Scenarios.SequentialRollout | helios-services/src/main/java/com/spotify/helios/rollingupdate/DefaultRolloutPlanner.java:85-103 | three UP hosts with parallelism 1 and no overlap give each host's undeploy, deploy and await in turn |
| Scenarios.OverlapInPairs | helios-services/src/main/java/com/spotify/helios/rollingupdate/DefaultRolloutPlanner.java:105-125 | three UP hosts with parallelism 2 and overlap give two blocks of deploys, awaits and undeploys |
| Scenarios.CanaryOnFirstHost | helios-services/src/main/java/com/spotify/helios/rollingupdate/DefaultRolloutPlanner.java:61-97 | with a canary job, only the first UP host's deploy names it |
| Scenarios.DownHostLeftOut | helios-services/src/main/java/com/spotify/helios/rollingupdate/DefaultRolloutPlanner.java:53-59 | a DOWN host gets no task |
| Scenarios.CanaryWithAllHostsDown | helios-services/src/main/java/com/spotify/helios/rollingupdate/DefaultRolloutPlanner.java:63-64 | a canary job with no UP host fails |
| Scenarios.ZeroParallelism | helios-services/src/main/java/com/spotify/helios/rollingupdate/DefaultRolloutPlanner.java:77 | a parallelism of 0 fails even with no host |

## Left out

- The rest of the repository: agent supervision wiring (`SupervisorFactory`), the supervision state machine, the system tests and the authentication plugin. They are I/O, Docker and process wiring, not planning logic.
- The Guava mechanics: the builders and `ImmutableList.copyOf`. Sequences are immutable values already.
- The null check on the deployment group (line 44): a Dafny value cannot be null.
- Null map values and a null status inside `HostStatus`: the model's inputs are non-null by type. HostStatus.java is not part of this model, so a status is reduced to UP or not UP.
- `JobId` is an opaque string. Its structure (name, version, hash) plays no part in planning.
- Determinism and statelessness are not stated as lemmas: every member here is a pure function of its inputs.
- Integer width: the parallelism is a Java `int` that is only compared and used as a chunk size, so an unbounded `int` loses nothing.
