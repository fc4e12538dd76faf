# Verification model of gapi's supervision kernel

gapi supervises agents on one node: it orders them by their dependencies, starts and stops them
through lifecycle controllers, signals processes whose pids the kernel may recycle at any moment,
reads what agents announce on a control channel, and carries all of it over an in-process event
bus. This project models that logic in Dafny and proves what it promises, or exactly when it
does not keep a promise.

`dafny verify dfyconfig.toml` checks the whole project.

| files | what they model |
|---|---|
| `Graphs`, `Toposort`, `TieBreak`, `ToposortAlgorithm` | Kahn's algorithm with hard and soft edges: what it computes as functions of the edge sets, the theorems about those functions, how ties break, and the loops over maps and queues, proved to compute them |
| `AgentGraph`, `AutoStart`, `Boot` | folding `wanted_by` and `required_by` into the edges, and the one-pass automatic start at boot, first with the answer of every start given and then over the controllers |
| `Lifecycle`, `LifecycleSafety`, `StartWalk`, `Wants`, `LifecycleManager` | the controllers: the transition table, the recursive start walk with the id stack and the in-flight marker, what every run keeps, which starts succeed, what they leave running and what becomes of wanted agents, and the same as a class that updates its fields |
| `StatusFeed`, `StartWait` | the bounded drop-oldest status channel of a controller and the waits of a start (two deadlines) and of a reload |
| `Procsig`, `StatLine` | the check-pin-recheck signal call against a process table that changes between any two calls, and the parsers of the status line |
| `Adopted`, `AdoptedReports`, `AdoptedKills`, `AdoptedStops` | the claim on an adopted process: adopt, Stop and Reset against the exit watchers and the kernel, every critical section, join and signal step on its own, with the stopping flag as processes spawned beside the claim leave it; whether the statuses published are true, and what a Stop delivers and reports |
| `ControlChannel` | one run of a spawned agent: the frame reader, the exit watcher and Stop racing over the agent's fields, and how often its exit is reported |
| `GoAgentObject` | the runner as a class whose methods are the critical sections of both protocols over the shared fields |
| `BusModel`, `BusRuns`, `BusKeys`, `EventBusObject` | the event bus as interleaved steps of publishers, subscribers and delivery goroutines, what every run keeps, what keys can tell apart, and the bus as a class with its loops |
| `Decimals`, `MemoryLimit` | numerals, and the memory limit strings |
| `Names`, `Common` | ordered ids, sorted sequences, small shared notions |

How the models are built:

- Loops over Go maps pick the next key with `:|`, which allows every iteration order. A method
  that picks that way and equals a function of its inputs is thereby shown to give the same
  result for every order.
- Concurrent code is a state and a list of labels, one label for each critical section, channel
  operation, system call or kernel event. A theorem over all label lists is a theorem over all
  interleavings.
- What the outside world answers is a parameter: whether a runner spawns and becomes ready is a
  tape indexed by the runner calls so far, kernel events are labels, timers are wake-ups.
- Fields such as `history`, `offers`, `exits`, `statuses` or `signalled` record what happened, so that
  properties of whole runs can be stated; no step reads them.

## Where the code and what is said about it part

- Restart, and reload of an agent that is not running, push the agent's own id on the stack before
  they recurse, so the cycle check always refuses them: `LifecycleSafety.RestartAlwaysFails`,
  `LifecycleSafety.ReloadStartsNothing`. Initialize has no transition to take:
  `LifecycleSafety.InitializeAlwaysFails`.
- Soft edges are documented as dropped only when they would form a cycle. The code drops every soft
  edge whose dependency cannot be emitted in the first merged pass, which includes edges that lie
  on no cycle. `Toposort.SoftEdgeKeptIff` gives the exact condition and
  `Toposort.SatisfiableSoftEdgeCanBeLost` an example.
- Ties are documented to break lexicographically. That holds among the nodes that one emission unlocks
  together; otherwise the queue is first in, first out, so a node with a smaller name can come later:
  `TieBreak.KahnOrderIsTheOne` determines the order, `TieBreak.SmallerNamesCanComeLater` is an example.
- A start does not look behind an agent that runs already, so after a Stop it can succeed and leave
  part of the hard closure stopped: `StartWalk.StopLeavesAGap`. When no agent of the closure wants
  anything, the closure runs exactly if each of its agents ran before or is reached through agents that
  did not: `StartWalk.ClosureRunsIff`. Whatever is wanted, it runs if no agent of the closure ran
  without what it requires: `StartWalk.ClosureRunsIfNoneRanAlone`; in runs of starts alone none does.
- When the sort fails, the boot pass runs in alphabetical order and can pass over an agent that could
  start and whose requirements are all started in the end. `AutoStart.OnePassCompleteIff` gives the
  exact condition, `AutoStart.FallbackCanMissAnAgent` a family of cases and
  `AutoStart.FallbackMissesA` four agents.
- A claim does not expire by itself in three cases: a Stop of it failed for an unforeseen reason, its
  adoption could not read the start epoch, or its process exited while the flag was set that the Stop
  of a process spawned beside the claim leaves set (core/agentmgr/go_agent.go:568-629 does not clear
  it): `Adopted.ClaimExpiresUnlessLost`, `AdoptedReports.OnlyFailuresLeaveClaimsUnwatched`, with a run
  of the second in `AdoptedReports.AClaimCanBeLeftUnwatched` and of the third in
  `AdoptedReports.TheFlagSilencesTheWatcher`. Teardown then forgets the claim, as it does any other,
  without a status: `AdoptedReports.TeardownIsSilent`.
- Stopping an adopted process whose start epoch could not be read reports it FAILED as recycled and
  forgets it while it goes on running: `AdoptedReports.StopGivesUpALiveProcess`, with a run in
  `AdoptedReports.ALiveProcessCanBeGivenUp`.
- Start looks at the slot alone, and the exit callback of an adopted process clears the slot with the
  claim. So a run spawned over a standing claim is forgotten when the adopted process exits, exactly
  if the claim is still the watched one and the stopping flag is not set:
  `GoAgentObject.GoAgent.Start`, `GoAgentObject.GoAgent.AdoptedExited`.
- If the drain of the control channel outlasts its grace, an orderly exit can be reported FAILED, or a
  failed one be taken for announced: `ControlChannel.ExpiredGraceCanMisreport`. The verdict is the one
  all frames would give exactly when no frame not yet recorded is accepted or the last one that is says
  the same as the last one recorded: `ControlChannel.ExpiredVerdictIsFinalIff`. And an exit can be taken
  for announced before the announcement is published: `ControlChannel.VerdictCanPrecedeThePublication`.
- Neither Stop nor the next Start waits for the control reader, so what it still reads of one run can
  become the announced state of the next: `ControlChannel.AnOldReaderCanWriteTheNextRun`.
- One exit can be reported several times. The agent object publishes at most one terminal status of
  its own for a run, but the agent's own announcement is published as well, and the controller adds a
  FAILED when readiness expires (core/lifecycle/controller.go:333-340) and a STOPPED after the runner's
  Stop (core/lifecycle/controller.go:366-368): `ControlChannel.AtMostOneOwnStatus`,
  `ControlChannel.OrderlyStopIsReportedThreeTimes`. When it is reported exactly once:
  `ControlChannel.ReportedOnceIff`.
- The wait of a reload accepts a running status of any run and any age, and the feed is not drained
  before it. The wait ends on a status from before the reload exactly if the feed held one with the
  wanted state: `StartWait.AwaitTarget`, `StartWait.LeftoverStatusEndsReloadIff`.
- Two different namespaces can have keys in common, exactly if one of them with a slash behind it begins
  the other with a slash behind it: `BusKeys.NamespacesCollideIff`, an example being
  `BusKeys.SlashInNamespaceCollides`.

## Model

| member | source | states |
|---|---|---|
| ToposortAlgorithm.Kahn | internal/toposort/toposort.go:140-178 | in-degrees, dependents lists and the ready queue, updated in place under any map order, emit exactly the sequence that depends on the node set and edge sets alone |
| ToposortAlgorithm.EdgeSet | internal/toposort/toposort.go:85-102 | the nested loops leave the set of known dependencies other than the node itself, and no entry for a node without any |
| ToposortAlgorithm.Merge | internal/toposort/toposort.go:104-117 | the merged map holds, for each node, the union of both maps' dependencies |
| ToposortAlgorithm.StuckNodes | internal/toposort/toposort.go:120-136 | each node not emitted, once |
| ToposortAlgorithm.DropSoft | internal/toposort/toposort.go:60-74 | what is left is the soft edges without those from a stuck node to a stuck node, and the flag says whether there was one |
| ToposortAlgorithm.Sort | internal/toposort/toposort.go:30-81 | the two-phase loop ends, and for every map order equals one hard pass followed by at most two merged passes |
| ToposortAlgorithm.RoundStalls | internal/toposort/toposort.go:48-79 | a pass that stalls is the first one, finds a soft edge to drop, and leads to the state from which the second pass finishes |
| Toposort.StuckIffReachesCycle | internal/toposort/toposort.go:119-178 | Kahn's algorithm leaves out exactly the nodes from which a cycle can be reached |
| Toposort.KahnFacts | internal/toposort/toposort.go:138-178 | the emitted sequence has no repeats, puts dependencies first, holds exactly the nodes whose dependencies it holds, and is as long as the node set exactly when nothing is stuck |
| Toposort.SomethingToDrop | internal/toposort/toposort.go:75-79 | with an acyclic hard graph a nonempty stuck set always holds a soft edge between stuck nodes, so the no-progress error is unreachable |
| Toposort.SecondPassCompletes | internal/toposort/toposort.go:43-52 | after one round of dropping nothing is stuck |
| Toposort.SortRejectsExactlyCycles | internal/toposort/toposort.go:36-41 | ErrCycle is returned exactly when the hard graph has a cycle and names, sorted and once each, exactly the nodes from which one can be reached; the no-progress result never occurs |
| Toposort.SortIsAStartOrder | internal/toposort/toposort.go:26-52 | on an acyclic hard graph with any soft edges the result lists every node once with every hard dependency before its dependent |
| Toposort.SoftEdgeKeptIff | internal/toposort/toposort.go:43-74 | a soft edge survives exactly when its dependency reaches no cycle of hard and soft edges together, and then the order respects it |
| Toposort.AllSoftEdgesRespected | internal/toposort/toposort.go:11-13 | if hard and soft edges together are acyclic the order respects every soft edge |
| Toposort.SatisfiableSoftEdgeCanBeLost | internal/toposort/toposort.go:60-70 | three nodes on which a soft edge that lies on no cycle is dropped and not respected |
| Toposort.EdgeSetIgnoresOrderAndRepeats | internal/toposort/toposort.go:83-102 | permuting or repeating dependency lists changes nothing the sort can see |
| TieBreak.KahnBreaksTies | internal/toposort/toposort.go:138-178 | of two emitted nodes the one whose last dependency was emitted first comes first, and of two unlocked by the same emission, or by none, the one with the smaller name |
| TieBreak.KahnOrderIsTheOne | internal/toposort/toposort.go:26-27 | an order is the emitted one exactly when it holds the nodes that reach no cycle, once each, dependencies first, by time of unlocking and then by name |
| TieBreak.SmallerNamesCanComeLater | internal/toposort/toposort.go:26-27 | of three nodes the smallest, which depends on the second, comes after the largest |
| AgentGraph.AppendReverse | core/agentmgr/graph.go:46-56 | the id joins the dependencies of exactly the known targets |
| AgentGraph.TopologicalSort | core/agentmgr/graph.go:37-66 | under any map order the folded lists give the order of the declared graph, ErrCycle for any failure |
| AgentGraph.OrderMeetsDeclarations | core/agentmgr/graph.go:21-31 | an order exists exactly when the folded hard graph is acyclic; it lists every agent once, after what it requires and after whatever declares itself required by it |
| AgentGraph.HardEdgeIff | core/agentmgr/graph.go:40-56 | the hard edges are exactly those between two known agents that one of them declares, by requiring the other or by being required by it |
| AgentGraph.SoftEdgeIff | core/agentmgr/graph.go:40-56 | the soft edges are exactly those between two known agents that one of them declares, by wanting the other or by being wanted by it |
| AgentGraph.WantKeptIff | core/agentmgr/graph.go:25-59 | a want declared at either end survives the ordering exactly when the wanted agent reaches no cycle of declarations, and then the wanted agent comes first |
| AgentGraph.WantsAreRespected | core/agentmgr/graph.go:25-59 | if hard and soft declarations together are acyclic an order exists in which every agent comes after all it wants and all that declare themselves wanted by it |
| AutoStart.StartInOrder | core/supervisor/supervisor.go:285-386 | the loop's started set is that of one pass over the given ids |
| AutoStart.FindMissing | core/supervisor/supervisor.go:305-311 | a requirement is reported missing exactly when one has not been started |
| AutoStart.SetupAgents | core/supervisor/supervisor.go:272-386 | when the sort succeeds the started set is the smallest one holding every startable agent whose requirements it holds; otherwise the pass is alphabetical and stays inside that set |
| AutoStart.OnePassIsSound | core/supervisor/supervisor.go:291-385 | whatever the order of ids, one pass stays inside every set closed under startability |
| AutoStart.LeastClosedIs | core/supervisor/supervisor.go:291-385 | the smallest closed set holds exactly the registered, enabled agents with all their requirements in it that can be armed if they listen, or started if they are a timer or a service or oneshot that does not listen |
| AutoStart.OnePassCompleteIff | core/supervisor/supervisor.go:291-385 | one pass over a list without repeats reaches the least closed set exactly when each of its members is listed after everything it requires |
| AutoStart.FallbackCanMissAnAgent | core/supervisor/supervisor.go:274-283 | with a requirement cycle anywhere the sort fails, and a first agent that could start and requires only the second, which can start, is not started although its requirement is |
| AutoStart.FallbackMissesA | core/supervisor/supervisor.go:274-283 | four agents that meet those premises |
| AutoStart.BootOrder | core/supervisor/supervisor.go:272-283 | the ids come sorted, or alphabetically when the sort fails |
| Boot.BootOne | core/supervisor/supervisor.go:291-385 | one turn of the loop drives the controllers and grows the started set as the specification says |
| Boot.BootAgents | core/supervisor/supervisor.go:272-386 | the whole pass over the controllers, mutating them turn by turn, is the specified pass over the boot order |
| Boot.PassStartsWhatItAttempts | core/supervisor/supervisor.go:303-380 | with succeeding runners no start the pass attempts fails, whatever the order of ids and even with requirement cycles: every started agent is startable with all it requires, and runs if it was asked to |
| Boot.BootSucceeds | core/supervisor/supervisor.go:272-386 | then, if the sort succeeds, the started set is the least closed one with every start taken to succeed, and every started agent that is a timer, or a service or oneshot that does not listen, runs |
| LifecycleManager.AgentManager.TransitionTo | core/state/base_machine.go:46-62 | the search of the table row succeeds exactly on an allowed transition and then, and only then, assigns that one state |
| LifecycleManager.AgentManager.BeginStart | core/lifecycle/controller.go:102-110 | the marker is claimed exactly if it was free and is held afterwards in either case |
| LifecycleManager.AgentManager.Spawn | core/lifecycle/controller.go:287-342 | the runner call, the transitions and the wait leave the world and the result that the start walk's last step prescribes |
| LifecycleManager.AgentManager.Stop | core/lifecycle/controller.go:344-369 | the stop action's effect on the state machines and its result |
| LifecycleManager.AgentManager.ReloadRunning | core/lifecycle/controller.go:371-398 | the effect and result of reloading a running agent |
| LifecycleManager.AgentManager.Apply | core/lifecycle/controller.go:227-408 | the whole action dispatch with its stack search, mutually recursive with the dependency loops, ends on every graph and changes the controllers as the specification says |
| LifecycleManager.AgentManager.ApplyStart | core/lifecycle/controller.go:242-342 | marker, hard loop, soft loop, spawn and release, on every path |
| LifecycleManager.AgentManager.StartHard | core/lifecycle/controller.go:254-261 | hard dependencies are started in order up to the first failure |
| LifecycleManager.AgentManager.EnsureStarted | core/agentmgr/discovery.go:604-611 | an unknown dependency is an error; a known one is started through its controller with the same stack |
| LifecycleSafety.StartFollows | core/lifecycle/controller.go:227-342 | a start with the markers held by exactly the stack releases every marker it took, leaves the agents on the stack alone, stops nothing that ran, and if it reports success the agent runs |
| LifecycleSafety.ApplyKeepsGood | core/lifecycle/controller.go:227-408 | every action ends with all agents stopped, running or in error and no marker held; a start succeeds exactly when the agent runs afterwards |
| LifecycleSafety.RunKeepsGood | core/lifecycle/controller.go:227-408 | in every run of actions with any runner behaviour each runner.Start call finds all hard dependencies running and the markers held by exactly the stack |
| LifecycleSafety.GoodSpawnsFollow | core/lifecycle/controller.go:242-318 | whatever led to a world that runs can reach, its spawn log has each hard dependency before its dependent and no agent that reaches a hard cycle |
| LifecycleSafety.SpawnsFollowTheHardGraph | core/lifecycle/controller.go:242-318 | in every run from the initial world the spawn log has each hard dependency before its dependent and no agent that reaches a hard cycle |
| LifecycleSafety.StopStops | core/lifecycle/controller.go:344-369 | stopping succeeds from every rest state, stops that agent and changes no other |
| LifecycleSafety.ReloadKeepsGood | core/lifecycle/controller.go:371-398 | reloading a running agent makes one runner call whose answer decides it: ready leaves it running and succeeds, a failed call or an agent that does not become ready leaves it in error with that reason; it spawns nothing and changes no other |
| LifecycleSafety.AfterSpawnCases | core/lifecycle/controller.go:311-342 | from rest, the agent runs exactly if the runner started and became ready, else it is in error, and the result names which of the two failed; exactly one runner call is made |
| LifecycleSafety.LosingTheMarker | core/lifecycle/controller.go:102-110 | whoever finds the start marker taken is told that all is well and changes nothing |
| LifecycleSafety.RestartAlwaysFails | core/lifecycle/controller.go:400-406 | restart fails on its own id and changes nothing |
| LifecycleSafety.ReloadStartsNothing | core/lifecycle/controller.go:371-374 | reload of an agent that is not running fails the same way |
| LifecycleSafety.InitializeAlwaysFails | core/lifecycle/controller.go:239-240 | initialize fails from every state |
| StartWalk.StartSucceedsExactly | core/lifecycle/controller.go:242-342 | with succeeding runners, and after any sequence of starts, stops and reloads, a start succeeds exactly when its hard closure is known and acyclic, whatever the soft edges |
| StartWalk.SuccessMeansStartable | core/lifecycle/controller.go:242-342 | whatever the runners do, a start that succeeds is of an agent whose hard closure is known and acyclic, and the agent runs |
| StartWalk.CoveredClosureRuns | core/lifecycle/controller.go:254-261 | after a successful start the hard closure runs if each of its agents ran before or is reached through agents that did not |
| StartWalk.ClosureRunsIff | core/lifecycle/controller.go:254-261 | and exactly then, if no agent of the closure wants anything |
| StartWalk.ClosureRunsIfNoneRanAlone | core/lifecycle/controller.go:254-261 | after a successful start the hard closure runs if no agent of it ran before without all it requires |
| StartWalk.StartKeepsClosed | core/lifecycle/controller.go:242-342 | in a world in which whatever runs has all it requires running a start keeps that, stops nothing, and if it succeeds the whole hard closure runs |
| StartWalk.StopLeavesAGap | core/lifecycle/controller.go:247-261 | with c requiring b and b requiring a: after starting b, stopping a and starting c, the last start has succeeded and a is stopped |
| StartWalk.InitialClosed | core/lifecycle/machine.go:43-53 | with every agent stopped, whatever runs has all it requires running |
| StartWalk.StartRunsStayClosed | core/lifecycle/controller.go:242-342 | start-only runs, whatever the runners do, stop nothing and leave all that runs with all it requires running |
| StartWalk.UnblockedStarts | core/lifecycle/controller.go:242-318 | with succeeding runners a start below any stack succeeds if the agent can be started at all and does not come back to the stack through agents that do not run |
| Wants.WantedRunsIff | core/lifecycle/controller.go:262-267 | after any actions and with succeeding runners, once the start of an agent that did not run has succeeded, an agent it wants runs exactly if it can be started and does not come back to the wanting one through agents that did not run, whatever became of the other wants; and it ran before the wanting agent's runner was called |
| Wants.WantsAreStarted | core/lifecycle/controller.go:262-267 | in particular every wanted agent runs that can be started and does not require the wanting one, directly or indirectly |
| StatusFeed.FeedIsASuffixOfThePushes | core/lifecycle/controller.go:184-201 | under every interleaving of the producer's three sends with consumers the channel holds a contiguous suffix of what was pushed, never more than its capacity, and the last-resort drop is never taken |
| StatusFeed.NewestIsNeverLost | core/lifecycle/controller.go:188-200 | the newest status is in the channel or was taken by a consumer, never evicted |
| StatusFeed.EvictionsNeedAFullChannel | core/lifecycle/controller.go:184-201 | the producer begins to evict only when a push finds 64 statuses in the channel, and evicts at no other time |
| StatusFeed.TheFirst64AreSafe | core/lifecycle/controller.go:184-201 | in every run in which at most 64 statuses have been pushed none has been evicted: each is in the channel or was taken |
| StatusFeed.TakingEmptiesTheFeed | core/lifecycle/startwait.go:26-31 | a consumer that goes on taking gets everything the channel holds, oldest first |
| StartWait.AwaitRunning | core/lifecycle/startwait.go:58-89 | the wait ends on the first of: a running status of this run not older than the cutover, the readiness deadline, the first firing of an armed silence timer for a child that has not spoken; it reports which, succeeds only on such a status, and goes on only while there was none |
| StartWait.AwaitTarget | core/lifecycle/startwait.go:22-36 | a reload's wait ends on the first wake-up that is a status with the wanted state or the deadline, says which wake-up that was, and succeeds exactly on a status |
| StartWait.LeftoverStatusEndsReloadIff | core/lifecycle/startwait.go:22-36 | the wake-up that ends a reload's wait is a status from before the reload exactly when the feed held one with the wanted state, whatever its run and age |
| StartWait.LeftoverStatusEndsReload | core/lifecycle/startwait.go:22-36 | and then the oldest such status ends the wait, with success |
| StartWait.BacklogCannotHideTheAnswer | core/lifecycle/controller.go:188-200 | once this run's running status is the newest and untaken, a wait that reads the feed succeeds |
| Procsig.SignalReachesOnlyTheTarget | core/procsig/procsig_linux.go:106-148 | under every interleaving with exits, reaps and pid reuse a signal reaches the incarnation it names or nobody, and does so exactly when the call reports success |
| Procsig.CallStarts | core/procsig/procsig_linux.go:113-116 | a call can begin over any process table and is then covered by the theorem above |
| Procsig.EndsLikeOneCall | core/procsig/procsig_linux.go:113-148 | the answer of the multi-step call is one that an indivisible call could give at its last step |
| Procsig.CallsEnd | core/procsig/procsig_linux.go:113-148 | whatever the kernel does and whatever fails, a call has ended after four steps of its own |
| Procsig.QuietCallAnswers | core/procsig/procsig_linux.go:106-148 | on a table nobody changes the call signals its target if it is there, and finds it gone or its pid recycled otherwise, signalling nobody |
| Procsig.PinCanHoldAStranger | core/procsig/procsig_linux.go:131-139 | for every target there is an interleaving in which the pinned process is a live stranger, so the recheck is needed |
| StatLine.StatRoundTrip | core/procsig/procsig_linux.go:68-86 | for every comm, with any spaces and parentheses, both parsers read back the twentieth field behind it as the start time, and procStat the first as the state |
| StatLine.ParsersAgree | core/agentmgr/adopted.go:165-184 | procStat and parseStartEpoch succeed on the same lines with the same epoch and fail on the same lines for the same reason |
| StatLine.ExitIsDecidedByEpochAndState | core/agentmgr/adopted.go:143-155 | a readable line counts as an exit exactly when the epoch differs or the state is zombie or dead |
| StatLine.OnlyAbsenceIsEvidence | core/agentmgr/adopted.go:143-150 | without a line that can be parsed, only the absence of the file counts as an exit |
| StatLine.ShortLineIsRefused | core/agentmgr/adopted.go:165-184 | a line with fewer than twenty fields behind the name is refused |
| Adopted.NextKeeps | core/agentmgr/adopted.go:216-369 | every step of watchers, operations and kernel keeps who owns the lock, the claim, the watchers and the ledger |
| Adopted.EveryRunSettlesClaimsOnce | core/agentmgr/adopted.go:286-369 | in every run no adoption gets two terminal statuses, every signal goes to the process its adoption recorded, a reported exit is the exit of that process, and between operations only the attached watcher is still about |
| Adopted.ClaimExpiresUnlessLost | core/agentmgr/adopted.go:286-360 | a standing claim is watched exactly unless its adoption failed to capture the epoch, a Stop of it ended unexpectedly, or its watcher returned because of the flag left set by the Stop of a spawned process |
| Adopted.FlagDecides | core/agentmgr/adopted.go:286-299 | between operations a watcher about to act drops and reports its claim exactly when the stopping flag is not set; either way no watcher is left |
| Adopted.LateWatcherSparesNewerClaims | core/agentmgr/adopted.go:276-299 | a watcher can only ever drop the claim of its own adoption, and never while Stop owns it |
| Adopted.JoinAdvances | core/agentmgr/adopted.go:241-256 | a join cannot deadlock: the joiner holds no lock and the step that is due is enabled and brings the end of the join closer |
| Adopted.JoinNeverRecedes | core/agentmgr/adopted.go:241-256 | no step of anybody undoes that progress |
| AdoptedReports.StatusesAreTrue | core/agentmgr/adopted.go:88-108 | in every run each published status is STOPPED or FAILED as its message implies, and says of a process whose epoch was captured what is so: it has stopped running for good, unless the status admits a kill on a deadline, of which AdoptedKills.KillsAreReal says what is so |
| AdoptedReports.NextKeepsTrue | core/agentmgr/adopted.go:66-108 | no step of anybody makes a published status untrue or leaves Stop with a verdict that what it saw does not back |
| AdoptedReports.OnlyFailuresLeaveClaimsUnwatched | core/agentmgr/adopted.go:354-368 | in every run in which no kernel call fails for an unrelated reason and no spawned process of the agent is stopped, a claim with a known epoch that stands between operations is watched: every Stop settles the claim it finds |
| AdoptedReports.StopGivesUpALiveProcess | core/agentmgr/checkpoint.go:76-85 | without a captured epoch Stop reports a running process FAILED as recycled, signals nobody and drops the claim |
| AdoptedReports.AClaimCanBeLeftUnwatched | core/agentmgr/checkpoint.go:96-108 | the run of an adoption whose reading of the start epoch fails leaves a claim that no watcher watches |
| AdoptedReports.ALiveProcessCanBeGivenUp | core/agentmgr/adopted.go:338-369 | a Stop after that reports FAILED and drops the claim while the process runs |
| AdoptedReports.TheFlagSilencesTheWatcher | core/agentmgr/adopted.go:286-299 | when a watched process exits, the flag that the last Start or Stop of a spawned process left decides: not set, the claim is dropped and FAILED published; set, the claim stands unreported with nobody watching it |
| AdoptedReports.TeardownIsSilent | core/agentmgr/go_agent.go:689-695 | Reset forgets any claim it finds and detaches its watcher, and publishes, signals and changes nothing else, whether the process runs or not |
| AdoptedReports.JoinCanComplete | core/agentmgr/adopted.go:241-256 | wherever a join stands, the steps that are due complete it, within a bound |
| AdoptedKills.KillsAreReal | core/agentmgr/adopted.go:66-88 | in every run a process reported as killed after a timeout had SIGKILL delivered to it or was gone for good when that was tried, and SIGKILL is delivered only where SIGTERM had been delivered before |
| AdoptedKills.NextKeepsBacked | core/agentmgr/adopted.go:66-88 | no step of anybody lets a Stop get further than what it has delivered backs |
| AdoptedStops.GoneBeforeAsked | core/agentmgr/adopted.go:66-72 | stopping a process that is gone signals nobody and reports STOPPED |
| AdoptedStops.RecycledBeforeAsked | core/agentmgr/adopted.go:95-104 | stopping a process whose pid has another occupant signals nobody and reports FAILED as recycled |
| AdoptedStops.ObedientProcess | core/agentmgr/adopted.go:74-77 | a process that exits after SIGTERM, whatever else the kernel does, is reported STOPPED with no further signal |
| AdoptedStops.DeafProcess | core/agentmgr/adopted.go:79-87 | a process that goes on running gets SIGTERM, and after the deadline SIGKILL, and is reported as killed after the timeout |
| AdoptedStops.RecycledBeforeKilled | core/agentmgr/adopted.go:79-82 | if the pid goes to another process before the kill the stranger is not signalled and the stop is reported as failed |
| ControlChannel.ReadControl | core/agentmgr/control_channel.go:116-207 | the reader's loop leaves announced the last accepted status before the first undecodable frame or the 33rd refused one |
| ControlChannel.ReaderMeansCutoff | core/agentmgr/control_channel.go:122-155 | after any number of frames the reader still reads exactly when they are readable within the budget |
| ControlChannel.AtMostOneOwnStatus | core/agentmgr/go_agent.go:526-629 | in every interleaving the agent object publishes at most one terminal status of its own for a run, FAILED by the watcher or STOPPED by Stop, and the supervisor with its controller at most three |
| ControlChannel.DrainedClassification | core/agentmgr/go_agent.go:526-563 | if the drain completes the watcher reports FAILED exactly when Stop does not own the exit, the slot still names the run, and the last status accepted before the cutoff is not a terminal one of this run |
| ControlChannel.DrainedVerdictFromFrames | core/agentmgr/control_channel.go:92-96 | on an exit that is the watcher's to judge a completed drain reports nothing exactly when the last status before the cutoff that names a state says STOPPED, FAILED or COMPLETED of this run, and FAILED once otherwise |
| ControlChannel.CutoffIs | core/agentmgr/control_channel.go:122-155 | the cutoff is the first undecodable frame or the 33rd frame that is of another schema, of an unknown kind or a status without a state |
| ControlChannel.ExitsAreJudged | core/agentmgr/go_agent.go:520-531 | wherever a run stands, once its process exits the reader returns and the watcher comes to a verdict with the drain complete, within a bounded number of their steps |
| ControlChannel.WatcherVerdict | core/agentmgr/go_agent.go:530-562 | drained or expired, the watcher reports FAILED exactly when Stop does not own the exit, the slot still names the run, and the last accepted status recorded so far is not a terminal one of this run |
| ControlChannel.ExpiredVerdictIsFinalIff | core/agentmgr/control_channel.go:209-232 | when the grace expires, the verdict on an exit that is the watcher's to judge is the one that all frames would give exactly when no frame not yet recorded is accepted or the last one that is says the same of the exit as the last one recorded |
| ControlChannel.ExpiredGraceCanMisreport | core/agentmgr/control_channel.go:222-232 | if the grace expires first, a run that announced STOPPED can be reported FAILED |
| ControlChannel.ExitIsAccountedFor | core/agentmgr/go_agent.go:516-563 | once the watcher is done and no Stop is under way the run has left the slot; the agent object has reported the exit exactly once unless the watcher found it announced, and then the agent's own terminal status for this run has been published if the drain has completed, and has been or is being published if its grace has expired |
| ControlChannel.VerdictCanPrecedeThePublication | core/agentmgr/control_channel.go:186-190 | a run in which the watcher finds the exit announced while the announcement is recorded but not published |
| ControlChannel.ReportedOnceIff | core/agentmgr/go_agent.go:516-563 | then, while no status is on its way, the exit has been reported exactly once if and only if the controller has added nothing and the agent has published one terminal status where the watcher found the exit announced, none where it did not |
| ControlChannel.AnOldReaderCanWriteTheNextRun | core/agentmgr/go_agent.go:459-466 | a run that is stopped with a frame unread, and whose reader then writes the announced state of the next run |
| ControlChannel.OrderlyStopIsReportedThreeTimes | core/agentmgr/go_agent.go:604-613 | an orderly stop that the agent announces is reported by the agent, by Stop and by the controller |
| GoAgentObject.GoAgent.constructor | core/agentmgr/go_agent.go:121-150 | a new runner has an empty slot and no claim, in both protocols |
| GoAgentObject.GoAgent.CleanupAfterExit | core/agentmgr/go_agent.go:645-660 | the slot is empty afterwards and nothing else of the run has changed |
| GoAgentObject.GoAgent.Start | core/agentmgr/go_agent.go:356-479 | a start spawns exactly into an empty slot if nothing fails, resets what the last run announced, and leaves a standing claim in place; failing during setup it changes nothing, without output pipes it has cleared the stopping flag, and when the process cannot be executed it has forgotten the announcement as well |
| GoAgentObject.GoAgent.NoteFrameSeen | core/agentmgr/control_channel.go:253-260 | only the first frame of a run is timed |
| GoAgentObject.GoAgent.TakeFrame | core/agentmgr/control_channel.go:122-164 | taking a frame, with the critical section that notes that the child has spoken, is the run's read step |
| GoAgentObject.GoAgent.NoteAnnouncedState | core/agentmgr/control_channel.go:243-247 | recording an accepted status is the run's record step |
| GoAgentObject.GoAgent.PublishAnnounced | core/agentmgr/control_channel.go:190 | publishing it is the run's relay step |
| GoAgentObject.GoAgent.HandleFrame | core/agentmgr/control_channel.go:157-206 | one turn of the reader's loop is those three steps for a frame that names a state, and the first alone for any other |
| GoAgentObject.GoAgent.AnnouncedOwnExit | core/agentmgr/control_channel.go:284-286 | whether the announced state is STOPPED, FAILED or COMPLETED and of this run |
| GoAgentObject.GoAgent.ClassifyExit | core/agentmgr/go_agent.go:532-562 | the exit watcher's critical section is the run's classification step |
| GoAgentObject.GoAgent.TakeAdoptedWatch | core/agentmgr/adopted.go:261-265 | hands over the watcher and detaches it |
| GoAgentObject.GoAgent.BeginStop | core/agentmgr/go_agent.go:568-602 | Stop claims a spawned process if the slot holds one, setting the flag that watchers of a standing claim look at, else takes the protocol's detach step on the adopted one, with or without a claim |
| GoAgentObject.GoAgent.EndStop | core/agentmgr/go_agent.go:604-628 | Stop publishes STOPPED and clears the slot |
| GoAgentObject.GoAgent.FinishStopAdopted | core/agentmgr/adopted.go:354-368 | the last critical section of stopping an adopted process maps each outcome to its status, and keeps the claim and the slot only on an unexpected failure |
| GoAgentObject.GoAgent.DropAdopted | core/agentmgr/adopted.go:270-274 | the claim is gone and its watcher handed over |
| GoAgentObject.GoAgent.Reset | core/agentmgr/go_agent.go:689-695 | teardown's critical section is the reset step of both protocols |
| GoAgentObject.GoAgent.AdoptedExited | core/agentmgr/adopted.go:286-299 | the exit callback is the protocol's: it does nothing unless the claim is still the watched one and the stopping flag is not set; then it drops the claim, reports FAILED once and clears the slot, whatever it holds |
| GoAgentObject.GoAgent.RecordRestored | core/agentmgr/checkpoint.go:96-108 | adopt clears the slot, records the pid with or without an epoch and starts a watcher exactly when it has one |
| BusModel.NextKeeps | core/eventbus/eventbus.go:126-348 | every step keeps: the tables list exactly the subscriptions not stopped, once each and under their own key; every publisher part-way through owes sends only to such subscriptions; and every subscription's account with every publisher balances |
| BusModel.TargetsAre | core/eventbus/eventbus.go:326-348 | dispatch finds exactly the registered subscriptions that match |
| BusRuns.DeliveriesKeepOrderAndAddUp | core/eventbus/delivery.go:61-84 | in every run what a subscription has handled, then queued, is a subsequence of each publisher's matching events in publication order; sends made and still owed are exactly those events; handled, queued and dropped add up; the queue never exceeds 256 |
| BusRuns.NothingLostWithoutDrops | core/eventbus/delivery.go:39-42 | with no drop counted a subscription gets a quiet publisher's matching events all, once each, in order |
| BusRuns.DropsNeedAFullQueue | core/eventbus/delivery.go:74-84 | any step drops at most one event, and only at a send to a queue that holds 256 |
| BusRuns.FewEventsAreAllThere | core/eventbus/delivery.go:74-84 | in every run a subscription that has been sent at most 256 events has lost none, and holds or has handled all matching events of a quiet publisher in order, whether its handler keeps up or not |
| BusRuns.QueueDrains | core/eventbus/delivery.go:50-59 | the goroutine of an ordinary subscription calls the handler with everything queued, one event a step and in order |
| BusRuns.RepliesArrive | core/eventbus/subscribe.go:106-144 | a reply that stands in the queue behind other events reaches the handler that waits for it, as its first and only call |
| BusRuns.SubscribingRegisters | core/eventbus/eventbus.go:179-185 | on an open bus on which nobody publishes a subscription with a valid scope is registered under its key with an empty queue |
| BusRuns.RemovingUnregisters | core/eventbus/eventbus.go:187-220 | while nobody publishes a removal unregisters the subscription, stops its queue and releases it from waiting |
| BusRuns.ClosingStopsAll | core/eventbus/eventbus.go:126-148 | while nobody publishes, closing stops every queue and leaves nobody registered |
| BusRuns.NoSendHitsAStoppedQueue | core/eventbus/delivery.go:86-95 | whatever a publisher still has to send goes to a matching subscription whose queue is open |
| BusRuns.StoppedExactlyWhenNotLive | core/eventbus/eventbus.go:126-148 | a queue is stopped exactly when its subscription was removed or the bus closed after it was made |
| BusRuns.RepliesAreNeverStolen | core/eventbus/subscribe.go:106-144 | each correlated handler is called at most once, only with an event of its own id, and has been called as soon as one came off its queue; after that it waits to remove itself or is removed |
| BusRuns.RemovalSparesTheOthers | core/eventbus/eventbus.go:187-203 | removing one subscription leaves every other as it was, registered or not |
| BusRuns.RemovalTakesOneEntry | core/eventbus/eventbus.go:192-199 | a removal takes one entry out of one list and keeps the others in order |
| BusRuns.SubscriptionIdsAreUnique | core/eventbus/eventbus.go:179-185 | no two subscriptions ever made share an id |
| BusKeys.KeysTellApart | core/eventbus/eventbus.go:163-168 | while namespaces hold no slash, a key names one scope, namespace and topic, and a prefix key covers exactly the longer topics of its own scope and namespace |
| BusKeys.NamespacesCollideIff | core/eventbus/eventbus.go:163-168 | two namespaces have a key in common for some topics exactly when the scopes agree and one namespace with a slash behind it begins the other with a slash behind it |
| BusKeys.DispatchFindsExactly | core/eventbus/eventbus.go:326-348 | then an event finds a subscription exactly when scope and namespace agree and the topics agree or extend |
| BusKeys.SlashInNamespaceCollides | core/eventbus/eventbus.go:163-168 | a slash in a namespace makes the keys of two namespaces equal |
| EventBusObject.DispatchIsARun | core/eventbus/eventbus.go:326-348 | one uninterrupted dispatch is a run of single sends |
| EventBusObject.EventBus.AddSub | core/eventbus/eventbus.go:179-185 | appends under the key with the next id and leaves all else alone |
| EventBusObject.EventBus.Subscribe | core/eventbus/subscribe.go:30-48 | refuses an unknown scope or a closed bus, else adds the subscription |
| EventBusObject.EventBus.Send | core/eventbus/delivery.go:74-84 | enqueues, or drops and counts, on that one subscription, as the bus's send step, which drops only from a full queue |
| EventBusObject.EventBus.Dispatch | core/eventbus/eventbus.go:326-348 | the loops over the exact list and, in any map order, over the matching prefixes send the event once to each matching subscription and to no other |
| EventBusObject.EventBus.Publish | core/eventbus/eventbus.go:270-313 | an invalid scope or a blank topic is refused without any send |
| EventBusObject.EventBus.RemoveByID | core/eventbus/eventbus.go:189-220 | the search takes out the entry with this id, stops its queue and deletes an emptied key |
| EventBusObject.EventBus.Close | core/eventbus/eventbus.go:126-148 | closing stops every queue, in any map order, empties both maps, and does nothing the second time |
| MemoryLimit.ParseMemory | core/cgroups/parse.go:148-187 | the loop over the units and the guarded arithmetic compute the limit or the reason for refusing it |
| MemoryLimit.DivisionGuardsTheProduct | core/cgroups/parse.go:179-186 | comparing with the divided maximum is comparing the exact product with the maximum |
| MemoryLimit.AcceptsExactly | core/cgroups/parse.go:146-187 | a limit is accepted exactly when its upper-cased text is a positive whole number and a unit whose product fits a signed 64-bit integer, and then it is that product |
| MemoryLimit.RefusalsAreExact | core/cgroups/parse.go:168-184 | each refusal is given for its own reason: no unit, a count that is not positive, a product out of range, and otherwise a count that is not a whole number |
| MemoryLimit.UnitsMean | core/cgroups/parse.go:37-54 | a positive whole number followed by B, K, KB, M, MB, G or GB in any case is that many bytes, 1024, 1024 squared or 1024 cubed bytes, or out of the signed 64-bit range |
| MemoryLimit.FirstIsLongest | core/cgroups/parse.go:37-54 | in the table's order the first unit that matches is a longest one |
| MemoryLimit.RoundTrip | core/cgroups/parse.go:146-187 | a count written with its unit, in any case, reads back as the same number of bytes |
| MemoryLimit.WrittenLimitsAreNeverDropped | core/cgroups/parse.go:67-92 | a memory field comes out as no limit exactly when it is blank |
| MemoryLimit.FieldIsTrimmed | core/cgroups/parse.go:84-90 | white space around a written limit is no part of it |

## Left out

- `core/agentmgr/python_agent.go` and `internal/agentreg`: they mirror what is modelled here.
- QUIC transport, TLS, protobuf encoding, configuration, logging, metrics, CLI, TUI: no part of the logic above; frames and events are values.
- exec, pipes, sockets, cgroup writes, CRIU and the reap loop: steps or answers of the outside world.
- `parseCPU` and cron schedules: they rest on floating point and library behaviour not in the source.
- Concurrent lifecycle actions: the start-walk theorems are about actions applied one after another; the state check of a start lies outside its marker, and a caller that loses the marker returns success without waiting.
- The controller's extra statuses for a run are counted, not ordered against its actions: gaveUp and confirmed may be set at any moment a run of the code could set them, and at some others.
- Start over a standing claim: the methods of GoAgentObject state its effect on both protocols and the claim's interleavings hold its effect on the stopping flag, but no interleaving holds the slot and the claim together.
- Overlapping Stop/Stop, Stop/adopt and Stop/Start on one agent: the code does not protect them; they are serialised against each other and interleaved with watchers, readers and the kernel.
- The verdict on a run whose announced state the reader of an earlier run has overwritten: the control channel is modelled for one run at a time, up to what its reader writes once the next run has the slot.
- Which error a failed Start returns, its listener and its arming: how far it got decides what it leaves behind.
- StartWalk.ClosureRunsIff: for agents whose closure wants nothing; soft starts can run agents of the closure that the hard walk passes over, and then the condition is only sufficient.
- Oneshot agents: Start waits for them itself and no exit watcher runs.
- Start epoch zero stands for an unknown epoch in the code; no process has it in the model.
- Select fairness and clock values: timers are wake-ups in any order, times are integers that are only compared.
- `StartTimeout`'s message and first-frame latency: the outcome carries the deadline waited for and whether the child was silent.
- `Unsubscribe` and `UnsubscribePrefix` by code pointer: subscriptions are removed by id, and any subscription can be.
- The bus's delivery queues as objects of their own: they are values in a map from ids, so aliasing of a queue is not modelled; the handler's own effects are not either.
- One-shot subscriptions to a prefix: the code offers none, the model's steps allow them, so its theorems cover them too.
- The `__MATCH:` marker of prefix keys: added on subscribing and trimmed on dispatch, it is left off throughout.
- White space is ASCII white space, upper-casing is ASCII; no other character could become a unit or a digit.
- Ids are compared by their characters; Go compares bytes, which orders ASCII ids the same way.
- Adopted.EveryRunSettlesClaimsOnce: counts terminal statuses per adoption, not per (pid, epoch), because the same process may be adopted again after a Stop of it settled.
- ControlChannel.ExitIsAccountedFor: speaks of runs without a teardown that clears the slot, because Reset ends a claim without reporting anything.
- LifecycleManager.AgentManager.Apply: the start behind a successful restart's stop is not written out, because that stop can never succeed.
- EventBusObject.EventBus.RemoveByID: one method for the exact and the prefix map; the code has two identical ones.
- GoAgentObject.GoAgent.FinishStopAdopted: expects the claim to be the one Stop began with, which holds because operations are serialised; the code clears the claim without comparing.
