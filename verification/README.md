# Hysteron: a verified model of its failover protocol

Hysteron keeps a PostgreSQL cluster available.  Sentinels, keepers, proxies and
operators share one document through compare-and-swap.  A sentinel merges the
keepers' reports into the document and reconciles it: it elects masters, manages
the synchronous standbys, fences the proxies, removes and creates databases and
numbers every change of a database's spec.  Keepers carry the specs out on
PostgreSQL and report back.  This project models that protocol in Dafny and
proves what it is for.

| file | what it models |
|---|---|
| `Cluster.dfy` | the document |
| `SyncStandbys.dfy` | the synchronous-standby section of a pass |
| `Selection.dfy`, `Leadership.dfy`, `Health.dfy` | classification of databases, candidates, the pause before a failover, health |
| `Reconcile.dfy` | one pass over the document, as a relation |
| `Outcomes.dfy` | what a pass leaves behind, field by field |
| `Sentinels.dfy`, `Tenures.dfy`, `Readings.dfy`, `Notes.dfy`, `Stretches.dfy` | the sentinel's code, proved to take only such passes, its checks from one leadership to the next, what they make of what they read, and what they remember |
| `Invariant.dfy`, `Runs.dfy`, `Electability.dfy` | what passes and operator commands keep, over all runs |
| `Durability.dfy`, `FailoverView.dfy`, `SyncStart.dfy`, `JointRuns.dfy` | no acknowledged commit is lost, why the passes fit that argument, how replication becomes synchronous, and the whole system together |
| `LosingRuns.dfy` | runs that lose a commit when a condition is dropped |
| `Fencing.dfy`, `FenceProtocol.dfy`, `FenceView.dfy` | proxies and sentinels at the fence |
| `Keepers.dfy`, `Convergence.dfy` | a keeper's pass with a crash at any point, and what a reported generation means |
| `Slots.dfy`, `SlotView.dfy`, `LogicalSlots.dfy`, `Matchers.dfy` | replication slots left behind, and logical slots advanced on standbys |
| `KubeStore.dfy` | compare-and-swap in a Kubernetes object |
| `Timeline.dfy`, `Wal.dfy`, `ConnStrings.dfy`, `TcpProxies.dfy` | self-contained algorithms |
| `Options.dfy`, `Strings.dfy`, `Arithmetic.dfy` | what the others need |

Maps are walked in any order, as Go does; time is an integer that every call
gets as a parameter; UIDs are fresh parameters; effects on PostgreSQL, files and
the network are reduced to whether they succeed.

Six findings are stated as lemmas next to the theorems they limit.  A
configuration reload that fails is logged and the generation recorded all the
same (`LosingRuns.FailedReloadCanLose`).  A standby that has just been
configured as synchronous may be listed as such while it lacks commits
acknowledged before, and be elected (`LosingRuns.LaggingReportCanLose`).  A
proxy that drops out of the active set with a slow check under way can come back
to the old master (`FenceProtocol.SlowCheckCanSplit`).  `ReinitializeReplica`
edits a spec without a new generation (`Runs.ReinitializationKeepsGeneration`).
Only the ASCII space is escaped in connection strings, and keys not at all
(`ConnStrings.RoundTripIff`).  The divergence check compares one history entry
only, so several kinds of divergence go unnoticed; `Timeline.ReportedIff` says
exactly which are reported.

Where names and comments in the code say otherwise, the model follows the code:
candidates are sorted by WAL position ascending, so the most advanced standby is
not preferred; `sameDestinationSet` compares lists, so a new order counts as a
change.

## Model

| member | source | states |
|---|---|---|
| `Durability.NoLostCommit` | internal/runtime/sentinel/cluster_update.go:404-431 | after any run of sentinel, keeper and PostgreSQL steps, under two named conditions, the current master holds every commit any master of the lineage ever acknowledged, also those acknowledged after its election was written; the conditions are `Careful` (a generation is recorded only once its names are in the configuration file) and `CaughtUp` (a standby is reported in sync only when it has everything acknowledged so far) |
| `Durability.NoLostCommitWhenReloadsSucceed` | internal/runtime/keeper/keeper.go:1020-1102 | the same without `Careful`, when no configuration reload fails; `CaughtUp` remains |
| `JointRuns.NoLostCommit` | internal/runtime/sentinel/sentinel.go:249-441 | over all runs of the whole system from its first document, in which sentinels' checks and operators' commands interleave with careful keepers and PostgreSQL, without reinitialization: from any check that makes replication synchronous, and as long as it stays so, nobody asks for a switch or failing back and `CaughtUp` holds, the master of every document holds every commit that any master since has acknowledged |
| `JointRuns.SwitchIsInit` | internal/runtime/sentinel/cluster_update.go:592-891 | however replication becomes synchronous, by the sync section or by an election, at any point of any run and whatever has been reported or was primary before, the world is a start the durability theorem applies to |
| `JointRuns.AlwaysSane` | internal/runtime/keeper/keeper.go:1040-1145 | over all runs, synchronous or not: keepers, their records and reports run behind the document, instances keep to their roles, and reported databases have instances |
| `SyncStart.StepBegins` | internal/runtime/sentinel/cluster_update.go:592-891 | the first synchronous document: its master has reported, no standby may be elected yet, required ones are replicas, and if there are any the generation has just risen |
| `SyncStart.StepDrifts` | internal/runtime/sentinel/cluster_update.go:375-478 | a pass turns no primary into a replica and no replica but the new master into a primary, and replicas learn of no standbys |
| `JointRuns.MoveStaysSafe` | internal/runtime/sentinel/sentinel.go:249-441 | while replication is synchronous, every check, command and action keeps the world safe, with the masters counted on |
| `FailoverView.AlwaysShaped` | internal/runtime/sentinel/cluster_update.go:592-899 | in every document of every run, synchronous or not, only databases that replicate synchronously require standbys |
| `LosingRuns.FailedReloadCanLose` | internal/runtime/keeper/keeper.go:1094-1145 | `Careful` is needed: from a newborn cluster, by steps of the code (`Genuine`) and with `CaughtUp`, a reload fails and is only logged, a later one is skipped, and the standby elected then misses an acknowledged commit |
| `LosingRuns.LaggingReportCanLose` | internal/postgresql/utils.go:595-630 | `CaughtUp` is needed: from a newborn cluster, by steps of the code and with careful keepers, a standby just configured is listed as sync before it has an earlier commit, and is elected without it |
| `LosingRuns.SectionPass` | internal/runtime/sentinel/cluster_update.go:592-891 | the passes of these runs are ones the sync section makes, on a report of the current generation and with converged standbys |
| `Durability.BirthIsInit` | internal/runtime/sentinel/cluster_update.go:61-79 | a newborn cluster is a start the theorem applies to |
| `Durability.AnchoredIsInit` | internal/runtime/sentinel/cluster_update.go:592-891 | what a world needs for a lineage of masters to be counted from it |
| `Durability.ReloadsMakeCareful` | internal/runtime/keeper/keeper.go:1041-1102 | while reloads succeed, a recorded generation always has its names in the configuration file |
| `Durability.StepKeepsInv` | internal/runtime/keeper/keeper.go:1040-1145 | each step keeps the safety invariant: electable standbys are configured and caught up, past masters wait for their successor, reports for the current generation are sound |
| `Durability.PassKeepsInv` | internal/runtime/sentinel/cluster_update.go:592-891 | a pass that keeps the master leaves only electable standbys that hold everything acknowledged and stay configured |
| `Durability.FailKeepsInv` | internal/runtime/sentinel/cluster_update.go:375-431 | an election makes the old master wait for the new one, whatever its keeper does next |
| `Durability.AckKeepsInv` | internal/runtime/keeper/pg_params.go:247-286 | a commit acknowledged because all configured names have it is on every electable standby; a replaced master acknowledges nothing once its successor is promoted |
| `Durability.PromoteKeepsInv` | internal/runtime/keeper/keeper.go:817-836 | promotion, with whatever names are configured then, keeps the invariant |
| `Durability.PublishKeepsInv` | internal/runtime/keeper/status.go:54-100 | a report of caught-up standbys whose generation was read before its in-sync standbys were measured keeps the invariant |
| `Durability.MasterHoldsAll` | internal/runtime/sentinel/cluster_update.go:404-431 | under the invariant the master holds the acknowledged part of every log in the lineage |
| `FailoverView.CheckIsAStep` | internal/runtime/sentinel/sentinel.go:368-399 | a whole check, from merging reports published in a durability run to the document it writes, is an enabled step of that run and leads to the view of that document; the hypotheses are that replication is synchronous and no switch or failing back is asked for (`Automatic`), that what the check believes of an instance was published by its keeper (`AllPublished`), and that new UIDs are new |
| `FailoverView.EveryPassIsAStep` | internal/runtime/sentinel/cluster_update.go:439-901 | the pass alone, given that the in-sync standbys it takes over were published for the document's generation (`ActsOnReport`, which `SyncReadIsPublished` derives) |
| `FailoverView.SyncReadIsPublished` | internal/runtime/sentinel/state.go:208-228 | the in-sync standbys a pass takes over were published by the master for the generation the document is at |
| `FailoverView.MergingKeepsView` | internal/runtime/sentinel/state.go:28-241 | merging reports changes nothing a failover depends on |
| `FailoverView.KeepingPassIsPass` | internal/runtime/sentinel/cluster_update.go:439-901 | a pass that keeps the master: electable standbys were required before, and were electable or just reported; names and generations move together; nobody else's known set changes |
| `FailoverView.ElectingPassIsFail` | internal/runtime/sentinel/cluster_update.go:320-431 | a pass that replaces the master elects a standby both known in sync and required, hands the required set over, and leaves the old master's names as they are |
| `FenceProtocol.OneDestination` | internal/runtime/sentinel/cluster_update.go:397-478 | for any number of sentinels and proxies and any interleaving, all routes lead to the database the fence was last opened for |
| `FenceProtocol.OpensOnlyWhenQuiet` | internal/runtime/sentinel/cluster_update.go:442-464 | the fence opens only when no proxy routes anywhere or has a check under way that would |
| `FenceProtocol.StepKeepsInv` | internal/runtime/proxy/checker_loop.go:89-160 | every action of a proxy, read of a sentinel and compare-and-swap keeps the fence invariant |
| `FenceProtocol.ReportKeepsInv` | internal/runtime/proxy/checker_loop.go:105-119 | a proxy that reports a closed fence has stopped routing |
| `FenceProtocol.ReadInfosKeepsInv` | internal/runtime/sentinel/state.go:245-278 | a sentinel that reads the current generation from every counted proxy finds all of them quiet |
| `FenceProtocol.SlowCheckCanSplit` | internal/runtime/sentinel/cluster_update.go:443-446 | in a run from the very start, an uncounted proxy with a slow check under way routes to the old master beside the new one, so closed connections alone are not enough |
| `FenceView.EveryPassIsAStep` | internal/runtime/sentinel/sentinel.go:249-441 | every pass moves the fence exactly as one of the protocol's writes |
| `FenceView.OthersLeaveFence` | internal/runtime/sentinel/cluster_update.go:220-226 | passes over a paused or uninitialized cluster and operator commands leave the fence alone |
| `Fencing.ClusterChecker.Check` | internal/runtime/proxy/checker_loop.go:31-163 | the effects of a check are, in order, those of its script; writes go nowhere unless the document has an open fence whose master is known and resolves, and then to that master if the fence enables this proxy; only a report that fails leaves the route as it was; the generation is published exactly when there is one to report, the address resolves and the report goes through; failures are reported exactly in the two cases the code does |
| `Sentinels.OpenFence` | internal/runtime/sentinel/cluster_update.go:439-478 | the fence after a pass that keeps the master, walking the proxies in any order |
| `Fencing.NextTable` | internal/runtime/sentinel/cluster_update.go:439-478 | a closed fence opens for the master exactly when every active proxy has seen its generation, an open one takes over the active proxies, and the generation rises exactly when something changes |
| `Fencing.ClosedTable` | internal/runtime/sentinel/cluster_update.go:397-402 | an election leaves a fence without a master, with a new generation if it had one |
| `Outcomes.FenceAfter` | internal/runtime/sentinel/cluster_update.go:397-478 | the fence after any pass over an initialized cluster, in terms of the fence before and the proxies' generations |
| `SyncStandbys.Reconcile` | internal/runtime/sentinel/cluster_update.go:592-891 | one pass over the required and known sets, for every order of the maps, is a reconciliation; the five rows below say what that decides |
| `SyncStandbys.WaitsIff` | internal/runtime/sentinel/cluster_update.go:604-682 | the section waits exactly while some required standby is neither known nor reported in sync and all of these are good |
| `SyncStandbys.WaitsForTheGood` | internal/runtime/sentinel/cluster_update.go:604-682 | while it waits the required standbys and the outside names stay as they are, and known are the required ones known or reported |
| `SyncStandbys.LetsTheFailedGo` | internal/runtime/sentinel/cluster_update.go:632-668 | a required standby neither known nor reported in sync that is not good is required no more |
| `SyncStandbys.KnownAreInSync` | internal/runtime/sentinel/cluster_update.go:608-625 | known afterwards are exactly the standbys still required that were required and known or reported before |
| `SyncStandbys.ChoosesAnew` | internal/runtime/sentinel/cluster_update.go:656-881 | unless it waits, a new set is chosen from those known or reported, and the blocking standby asked for exactly below the minimum |
| `SyncStandbys.Recompute` | internal/runtime/sentinel/cluster_update.go:684-841 | the recomputed set keeps healthy members up to the maximum, adds best ones, falls back on old ones up to the minimum, and merges the old set when something is new |
| `SyncStandbys.FillsUp` | internal/runtime/sentinel/cluster_update.go:747-778 | a best standby that is not barred is left out only when the maximum is reached |
| `SyncStandbys.GoodMembersStay` | internal/runtime/sentinel/cluster_update.go:696-745 | a present and good member goes only when the maximum is reached without it |
| `SyncStandbys.FailedMembersFillUp` | internal/runtime/sentinel/cluster_update.go:780-804 | a present member, good or not, goes only when the minimum is reached without it |
| `SyncStandbys.FailedMembersAreNeeded` | internal/runtime/sentinel/cluster_update.go:710-804 | in a set without new members, a failed one stays only to reach the minimum |
| `SyncStandbys.FirstComeFirst` | internal/runtime/sentinel/cluster_update.go:747-778 | a new member is required only together with every usable best standby before it |
| `SyncStandbys.RemoveAbsent` | internal/runtime/sentinel/cluster_update.go:696-724 | members outside the given set are removed, no others |
| `SyncStandbys.RemoveExcess` | internal/runtime/sentinel/cluster_update.go:726-745 | a subset of exactly the smaller of the size and the limit remains |
| `SyncStandbys.AddBest` | internal/runtime/sentinel/cluster_update.go:747-778 | the first addable best standbys are added, as many as there is room for |
| `SyncStandbys.FallBack` | internal/runtime/sentinel/cluster_update.go:780-804 | old members are taken back, exactly as many as the minimum lacks and as there are |
| `SyncStandbys.MergePrevious` | internal/runtime/sentinel/cluster_update.go:806-841 | the old members still present are added exactly when something new came in |
| `SyncStandbys.HandoverKeepsCount` | internal/runtime/sentinel/cluster_update.go:404-417 | a handover keeps the number of required standbys, and the new master does not wait for itself |
| `SyncStandbys.ElectableWasRequired` | internal/runtime/sentinel/cluster_update.go:600-668 | whatever is electable after a pass was required before it, and electable or reported |
| `SyncStandbys.RequiredComesFrom` | internal/runtime/sentinel/cluster_update.go:684-841 | whatever is required after a pass was required before it, or is one of the best standbys |
| `SyncStandbys.RecomputedShape` | internal/runtime/sentinel/cluster_update.go:684-841 | a recomputed set shrinks the previous one within the maximum, or contains all of it that is present; new members are best and not barred |
| `SyncStandbys.ReconciledShape` | internal/runtime/sentinel/cluster_update.go:670-881 | the blocking standby is asked for exactly when fewer than the minimum are required |
| `SyncStandbys.OverlapKept` | internal/runtime/sentinel/cluster_update.go:780-841 | with a positive minimum, a recomputed set keeps a present member of the previous one |
| `SyncStandbys.ElectableNeverEmptied` | internal/runtime/sentinel/cluster_update.go:600-891 | with a positive minimum the sync section never empties the electable set of a document that has a member of it |
| `SyncStandbys.SettledIsFixpoint` | internal/runtime/sentinel/cluster_update.go:684-841 | a settled set is not changed by any recomputation |
| `SyncStandbys.SettlesInTwoChanges` | internal/runtime/sentinel/cluster_update.go:684-841 | with the same good and best standbys a fixpoint is reached after at most two changes, for every map order and every order of the best standbys |
| `Electability.PassKeepsElectable` | internal/runtime/sentinel/cluster_update.go:486-966 | a whole pass that keeps the master leaves an electable standby in the document, if one survives clean-up |
| `Electability.RequiredStay` | internal/runtime/sentinel/cluster_update.go:905-966 | neither failing standbys nor standbys in excess are removed while required |
| `Outcomes.StandbyLetGo` | internal/runtime/sentinel/cluster_update.go:632-668 | in the document: a required standby that is not in sync is let go by the next pass that maintains the master as soon as it is no good standby |
| `Outcomes.StandbysAwaited` | internal/runtime/sentinel/cluster_update.go:604-682 | in the document: while those outstanding are all good the master's required standbys do not change |
| `Outcomes.StandbysChosen` | internal/runtime/sentinel/cluster_update.go:684-881 | in the document: otherwise new ones are good, on the timeline and willing; such a one is left out, or a good one dropped, only at the maximum, a fit one only at the minimum; and the blocking standby is asked for exactly below the minimum |
| `Sentinels.Sentinel.UpdateCluster` | internal/runtime/sentinel/cluster_update.go:36-1107 | a pass takes a step of the specification, or fails exactly because no keeper can host the first database; a failed master that could be replaced is replaced, unless the succession is put off within the fail interval of its first deferral |
| `Sentinels.Sentinel.NormalPass` | internal/runtime/sentinel/cluster_update.go:220-1055 | a pass over an initialized, unpaused cluster is a normal step |
| `Sentinels.Sentinel.Decide` | internal/runtime/sentinel/cluster_update.go:254-373 | why the master is kept or replaced; a request is applied exactly when it is applicable; a healthy master is kept exactly when nothing is asked for and there is nobody to fail back to or that is not allowed yet, and the time of failing back is recorded exactly then; if a failed master is kept without a deferral, no candidate was allowed; a deferral needs an advancing candidate, keeps the start recorded before, or records the present, and lies within the fail interval of it; a successor chosen clears the record |
| `Sentinels.Sentinel.ChooseBestNewMaster` | internal/runtime/sentinel/leadership.go:100-168 | the first allowed candidate is chosen; none is only when there is none or the election is put off, which takes an advancing candidate and a master that was not declared failed, within the window of a start that carries over from earlier deferrals |
| `Sentinels.Sentinel.ShouldDelayLeaderRace` | internal/runtime/sentinel/leadership.go:49-96 | the deferral and its timer, as a function of whether some candidate advances |
| `Leadership.RaceTable` | internal/runtime/sentinel/leadership.go:49-96 | an election is put off exactly while a candidate advances and it has not been put off for a whole window; the start is on record exactly then |
| `Sentinels.Sentinel.ChooseAutoFailbackTarget` | internal/runtime/sentinel/selection.go:73-125 | there is a target exactly when failing back is switched on, some candidate has a higher priority than the master, and uptime and cooldown allow the first of those with the highest |
| `Sentinels.ApplyManualSwitch` | internal/runtime/sentinel/cluster_update.go:268-317 | a request is applied exactly when its keeper's database is the master or a candidate |
| `Sentinels.FirstAllowedCandidate` | internal/runtime/sentinel/leadership.go:121-167 | the least candidate that synchronous replication allows |
| `Sentinels.KeepMaster` | internal/runtime/sentinel/cluster_update.go:439-1023 | a pass that keeps the master, stage by stage |
| `Sentinels.Maintain` | internal/runtime/sentinel/cluster_update.go:486-1023 | maintenance under a healthy converged master |
| `Sentinels.PrepareStandbys` | internal/runtime/sentinel/cluster_update.go:492-590 | clean-up and classification of the standbys |
| `Sentinels.Clean` | internal/runtime/sentinel/cluster_update.go:492-573 | old masters, invalid databases and databases that miss WAL go, no others; `Outcomes.Survivors` says it of the pass, field by field |
| `Sentinels.DbCanSync` | internal/runtime/sentinel/selection.go:169-255 | a database cannot catch up exactly when it has stalled and needs WAL the master has recycled |
| `Sentinels.SynchronousStandbys` | internal/runtime/sentinel/cluster_update.go:592-899 | the master's sync sets after the section, with the inputs it had |
| `Sentinels.Trim` | internal/runtime/sentinel/cluster_update.go:911-966 | which standbys are removed when there are enough good ones |
| `Sentinels.Extend` | internal/runtime/sentinel/cluster_update.go:967-994 | new standbys are created on free keepers, one each, while some are missing |
| `Sentinels.FreeKeepers` | internal/runtime/sentinel/cluster_init.go:105-123 | exactly the healthy keepers without a database, each once |
| `Sentinels.ReconfigureStandbys` | internal/runtime/sentinel/cluster_update.go:997-1023 | all replica-line databases follow the master |
| `Sentinels.Elect` | internal/runtime/sentinel/cluster_update.go:375-437 | role, follow, fence and required standbys after an election; `Outcomes.ElectedMaster` says it of the pass, field by field |
| `Sentinels.HandOver` | internal/runtime/sentinel/cluster_update.go:404-417 | the new master's place among the required standbys goes to the old one |
| `Outcomes.ElectedMaster` | internal/runtime/sentinel/cluster_update.go:375-431 | whatever the reason for a switch: the new master takes the cluster's role and, with synchronous replication, the required standbys of the old one with the old one in its own place; as long as a minimum is asked for there is a name to wait for, the one that never answers exactly when there is no other |
| `Outcomes.ElectionSpares` | internal/runtime/sentinel/cluster_update.go:375-437 | an election removes and creates nothing, and touches no other spec but the old master's followers |
| `Outcomes.SwitchHasReason` | internal/runtime/sentinel/cluster_update.go:268-373 | whoever becomes master may replace the old one, and was asked for, or succeeds a failed master under the rules of synchronous replication, or has a higher priority and failing back is switched on |
| `Outcomes.FirstSucceeds` | internal/runtime/sentinel/leadership.go:121-167 | the successor of a failed master precedes everyone else that may succeed it: less WAL, or as much and a higher priority, or the smaller UID |
| `Outcomes.PreferredTakesOver` | internal/runtime/sentinel/selection.go:73-125 | the cluster fails back to the first of those with the highest priority |
| `Outcomes.RequestCarriedOut` | internal/runtime/sentinel/cluster_update.go:268-317 | an operator's request is carried out and cleared by the first pass that finds its target master already or fit to replace it |
| `Outcomes.RequestStands` | internal/runtime/sentinel/cluster_update.go:268-317 | until then the request stands |
| `Outcomes.KeepersForgotten` | internal/runtime/sentinel/cluster_update.go:228-249 | a keeper is forgotten exactly when it owns no database and was last healthy too long ago |
| `Outcomes.Survivors` | internal/runtime/sentinel/cluster_update.go:492-590 | under a healthy converged master: another primary, a foreign database or a standby left behind does not survive a pass; whoever does keeps its status and is configured to follow the master |
| `Outcomes.EnoughStandbys` | internal/runtime/sentinel/cluster_update.go:911-966 | with enough good standbys nobody is created; left are the master, the required standbys and good ones, of which as many go as are too many and not required |
| `Outcomes.FewStandbys` | internal/runtime/sentinel/cluster_update.go:967-994 | with too few nobody fit is removed, and as many are created as are missing when the converging ones are counted on, or as keepers are free |
| `Outcomes.Created` | internal/runtime/sentinel/cluster_update.go:967-994 | a database that appears is a standby to be resynchronized from the master, under an unused UID, on a healthy keeper that has no other |
| `Outcomes.KeptMaster` | internal/runtime/sentinel/cluster_update.go:480-899 | a kept master keeps everything but its role, its followers and what the sync section decides from the good standbys of the document |
| `Outcomes.NotMaintained` | internal/runtime/sentinel/cluster_update.go:480-490 | while a kept master is not healthy or converged nobody is removed, created or reconfigured |
| `Outcomes.MasterNotMaintained` | internal/runtime/sentinel/cluster_update.go:480-490 | it takes its role and lists its followers all the same |
| `Outcomes.SlotsTracked` | internal/runtime/sentinel/cluster_update.go:1060-1081 | on a kept master, a slot is tracked exactly when there is a time to live and its member does not follow but did or was tracked already, with the time it left |
| `Outcomes.SlotsForgotten` | internal/runtime/sentinel/cluster_update.go:1060-1081 | a new master starts with none tracked |
| `Outcomes.FirstDatabase` | internal/runtime/sentinel/cluster_update.go:42-218 | the one database a new cluster starts with |
| `Outcomes.InitializedWhenHealthy` | internal/runtime/sentinel/cluster_update.go:42-218 | initialization is over exactly when the master is healthy and has reached its generation, and starts anew when that takes too long |
| `Outcomes.PausedIsLeftAlone` | internal/runtime/sentinel/cluster_update.go:220-226 | a paused cluster is left alone |
| `Sentinels.UpdateFollowers` | internal/runtime/sentinel/cluster_update.go:1027-1049 | the followers are those who follow the wanted master |
| `Sentinels.Finish` | internal/runtime/sentinel/cluster_update.go:1057-1097 | settings, slots left behind and generations |
| `Sentinels.BumpGenerations` | internal/runtime/sentinel/cluster_update.go:1083-1097 | the next generation goes to exactly the databases whose spec changed |
| `Sentinels.SetDbSpecFromClusterSpec` | internal/runtime/sentinel/cluster_init.go:43-102 | settings by database type |
| `Sentinels.TrackOrphanSlots` | internal/runtime/sentinel/cluster_update.go:1060-1081 | slots left behind are recorded on the master under a positive time to live |
| `Sentinels.RemoveDeadKeepers` | internal/runtime/sentinel/cluster_update.go:228-249 | keepers without a database go when they have been unhealthy too long |
| `Sentinels.FindDb` | internal/cluster/types_cluster_data.go:61-68 | a database of the keeper, if there is one |
| `Sentinels.Initialize` | internal/runtime/sentinel/cluster_update.go:42-218 | the first master is chosen and followed up; it fails exactly when no keeper will do |
| `Sentinels.Sentinel.ClusterSentinelCheck` | internal/runtime/sentinel/sentinel.go:249-465 | a check is a merge of the reports it believes, which changes nothing but statuses and new keepers, followed by a pass; its timers carry over or, on the first check of a tenure, start empty |
| `Sentinels.Sentinel.Lead` | internal/runtime/sentinel/sentinel.go:343-373 | the consecutive checks of a leading sentinel are a tenure: the first forgets everything, each later one goes on from the timers, sightings and notes of the one before |
| `Readings.BelievedIffHeard` | internal/runtime/sentinel/state.go:49-92 | over the readings of a tenure: a report is believed exactly when it is not the one the first check found, nor one that written checks have found unchanged for longer than the sleep interval |
| `Readings.StaleIsNotBelieved` | internal/runtime/sentinel/state.go:66-73 | a report unchanged since a written check is not believed when the sleep interval has passed since that |
| `Readings.NewIsBelieved` | internal/runtime/sentinel/state.go:76-86 | a report that no written check of the tenure has read before is believed |
| `Readings.HealthyUnlessMissed` | internal/runtime/sentinel/state.go:110-140 | over the readings of a tenure, at every check but the first: a keeper counts as healthy if and only if no operator declared it failed and it has not been missed for longer than the fail interval |
| `Readings.DbHealthyUnlessFailing` | internal/runtime/sentinel/state.go:172-241 | and a database if and only if its keeper does and it has not been without a healthy report of its own for longer than that |
| `Readings.ReportTakenOver` | internal/runtime/sentinel/state.go:172-241 | what a check takes over about a database, field by field: only from a heard keeper that reports about that very database, in full only if healthy, and the in-sync standbys just for itself |
| `Readings.KeeperTakenOver` | internal/runtime/sentinel/state.go:88-140 | what it takes over about a keeper, field by field |
| `Notes.TimerIsStartOfGeneration` | internal/runtime/sentinel/health.go:114-133 | at every check of a tenure: the convergence timer of a database shows since when the document read first and those written since have given it the generation it has to reach, and there is none exactly if it has none to reach |
| `Notes.StalledIffUnmoved` | internal/runtime/sentinel/state.go:198-206 | at every check of a tenure: a database counts as stalled exactly when more than ten checks have been told an unmoved WAL position since one was told another |
| `Notes.MovedLastAt` | internal/runtime/sentinel/state.go:198-206 | the time a WAL position last moved is that of the last check that was told another one |
| `Notes.HealthySinceIff` | internal/runtime/sentinel/state.go:148-158 | a keeper has been healthy since the check that found it so, or found it healthy again, and since which none has found it unhealthy |
| `Stretches.MemoIff` | internal/runtime/sentinel/health.go:114-133 | of timers in general: a value is remembered with a time exactly when it has held since then without a break |
| `Tenures.ReplacedInTime` | internal/runtime/sentinel/leadership.go:49-168 | over consecutive checks of a tenure that find the master failed and an allowed successor (with asynchronous replication, any candidate) and lose no write of a successor: one of them replaces it, in the document as written, at the latest when the fail interval has passed since the first deferral |
| `Tenures.LostWriteRestarts` | internal/runtime/sentinel/leadership.go:49-168 | a lost write of a successor starts the deferral anew, since choosing has made the sentinel forget when it began |
| `Tenures.ReplacedAfterLostWrite` | internal/runtime/sentinel/leadership.go:49-168 | after a lost write the master is replaced at the latest one fail interval after the next check, unless a write is lost again |
| `Tenures.DeferralsCountFromTheStart` | internal/runtime/sentinel/leadership.go:79-90 | checks that leave a failed master in place all count from the same start and lie within the fail interval of it |
| `Tenures.UnhealthyIffSilentTooLong` | internal/runtime/sentinel/state.go:110-140 | at every check of a tenure but the first, a keeper counts as healthy if and only if no operator declared it failed and it has not been missed, without being heard since, for longer than the fail interval |
| `Tenures.DbUnhealthyIffFailingTooLong` | internal/runtime/sentinel/state.go:208-241 | the same of databases: healthy if and only if its keeper is and it has not been failing for longer than the fail interval |
| `Tenures.TimersCarryOver` | internal/runtime/sentinel/health.go:38-59 | the error timers after each check are those of all its rounds together |
| `Sentinels.CheckMoves` | internal/runtime/sentinel/sentinel.go:249-441 | a check is a step of the document's runs |
| `Invariant.NormalIsSound` | internal/runtime/sentinel/cluster_update.go:220-1055 | a pass keeps documents sound and creates databases only under fresh UIDs, each on a keeper of its own |
| `Invariant.ExtendedIsSound` | internal/runtime/sentinel/cluster_update.go:967-994 | new standbys never share a keeper |
| `Runs.StepKeepsInv` | internal/runtime/sentinel/cluster_update.go:36-1107 | a pass keeps the document invariant; a surviving generation rises by one exactly when the spec changed |
| `Runs.InvAlwaysHolds` | internal/runtime/sentinel/cluster_update.go:36-1107 | over all runs of passes and operator commands: consistent entries, one database per keeper, and an initialized cluster's master is one of its primary-line databases |
| `Runs.HealthyPassLeavesOnePrimary` | internal/runtime/sentinel/cluster_update.go:486-1049 | a pass that keeps a healthy converged master leaves it the only primary-line database, with all others as its followers |
| `Runs.OneSpecPerGeneration` | internal/runtime/sentinel/cluster_update.go:1083-1097 | over runs without reinitialization, a UID and a generation determine the spec, and a removed UID does not come back |
| `Convergence.ConvergedMeansCurrentSpec` | internal/runtime/sentinel/health.go:135-138 | over all runs without reinitialization: when the reported generation of a database is its generation, a keeper has finished a pass for exactly the spec in the document |
| `Convergence.StatusWasReported` | internal/runtime/sentinel/state.go:208-228 | a generation shown as reported was in a report that an earlier check read |
| `Convergence.RecordsAreHonest` | internal/runtime/keeper/status.go:54-100 | a keeper that works from documents and reports its record reports only generations it finished |
| `Runs.ReinitializationKeepsGeneration` | internal/operations/cluster_control.go:114-119 | reinitialization breaks the generation rule exactly when the target was not waiting for a resync already |
| `Runs.CommandKeepsInv` | internal/operations/cluster_control.go:43-120 | operator commands keep the document invariant |
| `Runs.RemovalKeepsInv` | internal/app/app_mutation.go:92-104 | removing a keeper with its database keeps the document invariant |
| `Runs.SwitchTargetIsFit` | internal/runtime/sentinel/cluster_update.go:268-373 | every switch, for whatever reason, goes to another database that is valid, good, on the timeline and near enough |
| `Selection.FindBestNewMasters` | internal/runtime/sentinel/selection.go:434-498 | the list holds exactly the candidates; each precedes those after it: less WAL, or as much and a higher priority, or the same and the smaller UID |
| `Selection.ListedInOrder` | internal/runtime/sentinel/selection.go:385-395 | the same of every candidate list |
| `Selection.CandidatesMayReplace` | internal/runtime/sentinel/selection.go:434-498 | who is a candidate, field by field |
| `Selection.StatusTable` | internal/runtime/sentinel/selection.go:258-302 | when a database counts as good, failed or converging, field by field |
| `Selection.ValidityTable` | internal/runtime/sentinel/selection.go:128-167 | when a database counts as valid or invalid |
| `Selection.FindBestStandbys` | internal/runtime/sentinel/selection.go:399-431 | exactly the good standbys near the master, by WAL position ascending |
| `Selection.ValidDbsByStatus` | internal/runtime/sentinel/selection.go:304-357 | the three classes of valid databases |
| `Selection.CandidateListUnique` | internal/runtime/sentinel/selection.go:385-498 | there is only one candidate list, however maps are walked and ties are broken |
| `Selection.CandidatesAreFit` | internal/runtime/sentinel/selection.go:434-498 | what every listed candidate satisfies |
| `Selection.CandidateOrder` | internal/runtime/sentinel/selection.go:385-395 | the candidate comparison is a strict weak order, total on distinct UIDs |
| `Health.DistrustedIffSilentTooLong` | internal/runtime/sentinel/health.go:38-86 | over any rounds of the timers: a keeper is distrusted if and only if it was missed, and not heard since, longer than the interval ago (`Tenures.UnhealthyIffSilentTooLong` says it of whole checks) |
| `Health.TimerIsStartOfSilence` | internal/runtime/sentinel/state.go:110-122 | the error timer of a keeper is the time of the round in which its current silence began, and there is none if it is not silent |
| `Health.SyncComesWithGeneration` | internal/runtime/sentinel/state.go:208-228 | in-sync standbys are only taken over with the generation of the same report |
| `Health.StatusTable` | internal/runtime/sentinel/state.go:198-241 | what a report changes in the status of its database, field by field |
| `Health.KeeperTable` | internal/runtime/sentinel/state.go:88-140 | what a report changes in the record of its keeper |
| `Sentinels.Sentinel.UpdateKeepersStatus` | internal/runtime/sentinel/state.go:28-241 | reports change only statuses and add keepers; on the first check of a tenure nothing is believed and only the in-sync standbys of the last report are dropped; later, health follows the timers and the operator's flag, and statuses follow fresh reports about the very database; `Readings` says what that comes to over the checks of a tenure |
| `Sentinels.Sentinel.MergeCurrent` | internal/runtime/sentinel/state.go:94-241 | the reports believed give every keeper its report and health, every database its status and health, and all timers, counters and the record of forced failures their next values |
| `Sentinels.KeepFresh` | internal/runtime/sentinel/state.go:63-92 | which reports count as renewed, and what is remembered of them; `Readings.BelievedIffHeard` says it of the checks of a tenure |
| `Sentinels.UpdateTimers` | internal/runtime/sentinel/health.go:38-59 | timers start at the first failure and stop without one |
| `Sentinels.Sentinel.UpdateDbConvergenceInfos` | internal/runtime/sentinel/health.go:114-133 | a timer runs for exactly the databases that have a generation to reach, from when it was set |
| `Sentinels.TrackProgress` | internal/runtime/sentinel/state.go:198-206 | stalled checks are counted and progress is timed |
| `Keepers.PostgresKeeper.Pass` | internal/runtime/keeper/keeper.go:170-1151 | wherever a pass stops, the record stays true; it finishes only with the assignment's generation, role and data, and only then counts as finished; with nothing to stop it, it finishes exactly when the assignment is attainable, a standby that is to be master being promoted; a failed reload does not stop it, and leaves the parameters as they were |
| `Keepers.PostgresKeeper.Run` | internal/runtime/keeper/keeper.go:170-1151 | over any number of passes for any assignments, cut short anywhere and restarted: a record that says it is not initializing is true to its word, and a recorded generation means that one of the passes finished for it |
| `Keepers.PostgresKeeper.Initialize` | internal/runtime/keeper/keeper.go:210-711 | the record names the database and says initializing before the directory is touched |
| `Keepers.PostgresKeeper.CleanUp` | internal/runtime/keeper/keeper.go:171-208 | unfinished data is removed before the record is reset |
| `Keepers.PostgresKeeper.SaveDbLocalState` | internal/runtime/keeper/local_state.go:85-99 | file first, then memory, or neither |
| `Keepers.PostgresKeeper.Resync` | internal/runtime/keeper/keeper.go:485-630 | a resync that succeeds leaves a complete standby, by rewind only if it came up on the right branch |
| `Keepers.PostgresKeeper.ApplyRole` | internal/runtime/keeper/keeper.go:762-1018 | a primary is never turned into a standby; what can be played is, given two actions |
| `Slots.ComputeOrphanMemberSlots` | internal/runtime/sentinel/cluster_update.go:1111-1147 | slots left behind keep their time until followed again; just left ones get the present |
| `Slots.LeavingTimeStands` | internal/runtime/sentinel/cluster_update.go:1060-1081 | within a tenure every document records the time a departed follower left, unmoved until it is followed again |
| `Slots.DroppedOnlyAfterTtl` | internal/runtime/keeper/replication.go:207-248 | the keeper drops such a slot only when the time to live has passed since, it is inactive and holds back no xmin |
| `Slots.UpdateReplSlots` | internal/runtime/keeper/replication.go:34-113 | exactly the unmanaged member slots that are ignored neither by name nor by matcher, and that the decision lets go, are dropped unless PostgreSQL refuses; it succeeds exactly when PostgreSQL refuses to create none that is missing, and then all managed ones exist |
| `Slots.DroppableIff` | internal/runtime/keeper/replication.go:34-113 | when a member's slot may go, in terms of its member, the followers, the operator's lists, the tracked times and the slot's state |
| `Slots.ManagedIff` | internal/runtime/keeper/replication.go:118-158 | which members' slots are wanted |
| `Slots.OrphansIff` | internal/runtime/sentinel/cluster_update.go:1111-1147 | which members' slots are tracked, and since when |
| `Matchers.MatcherLaws` | internal/runtime/keeper/replication.go:162-204 | what empty, named and foreign matchers take, and that more matchers never take less |
| `Slots.ManagedReplicationSlots` | internal/runtime/keeper/replication.go:118-158 | followers and additional slots, without itself and without those ignored by name or matcher |
| `Matchers.IsIgnoredPhysicalSlot` | internal/runtime/keeper/replication.go:162-179 | some matcher applies; one that names a database or plugin never does |
| `Matchers.IsIgnoredLogicalSlot` | internal/runtime/keeper/replication.go:183-204 | some matcher applies, an empty field matching anything |
| `SlotView.PassTurnsPage` | internal/runtime/sentinel/cluster_update.go:1060-1081 | a pass that keeps the master updates the record as the tenure assumes |
| `SlotView.ElectionStartsTenure` | internal/runtime/sentinel/cluster_update.go:1069-1072 | an election starts with no slots on record |
| `SlotView.ReignIsTenure` | internal/runtime/sentinel/cluster_update.go:1060-1081 | over any run of checks and commands, the documents of one master under a positive time to live are the pages of a tenure |
| `SlotView.DroppedOnlyAfterTtl` | internal/runtime/keeper/replication.go:207-248 | over any run: the keeper of a reigning master drops the slot of a standby that left only when the time to live has passed since the check that first saw it gone, the slot is inactive and holds back no xmin |
| `SlotView.AlwaysTidy` | internal/runtime/sentinel/cluster_update.go:1111-1147 | in every document of a run, no follower's slot is on record as left behind |
| `LogicalSlots.Plan` | internal/runtime/keeper/replication.go:700-753 | an operation is planned if and only if it takes a wanted slot that no matcher ignores and that is behind, as found in its database with its plugin, as far as the master's slot and the replayed position allow |
| `LogicalSlots.AdvanceQueue.Enqueue` | internal/runtime/keeper/replication.go:501-541 | a queued target is only replaced by a further one; what may be tried is queued |
| `LogicalSlots.Merge` | internal/runtime/keeper/replication.go:515-533 | the queue after a plan: never less far, and nothing that did not come from the plan |
| `LogicalSlots.AdvanceQueue.Select` | internal/runtime/keeper/replication.go:571-599 | an operation is picked only when every failure on its key since the last reset is at least the delay ago |
| `LogicalSlots.AdvanceQueue.Finish` | internal/runtime/keeper/replication.go:605-643 | a failure is stamped with the time its operation was picked |
| `LogicalSlots.AdvanceQueue.Reset` | internal/runtime/keeper/replication.go:544-552 | a reset empties the queue and the delays |
| `LogicalSlots.KeyInjective` | internal/runtime/keeper/replication.go:404-406 | the key tells slots and databases apart |
| `KubeStore.ApiServer.AtomicPut` | internal/store/k8s_clusterdata.go:58-183 | a put succeeds only at an instant when the document was the expected one, and replaces exactly that; otherwise it writes nothing; it fails as modified at once when the document is another one, and goes through if nobody writes the document and one of its attempts is left alone |
| `KubeStore.ApiServer.MutateClusterData` | internal/operations/cluster_control.go:125-172 | on success the new document is the mutation of the very document it replaced; it does succeed if there is a document the mutation accepts and the first try is at most touched and once left alone |
| `KubeStore.NoLostUpdate` | internal/operations/cluster_control.go:143-171 | for every interleaving of writers the document is what the successful mutations give one after the other |
| `Timeline.OnBranchNeverReported` | internal/cluster/timeline.go:44-94 | an instance whose history and position are on the followed branch is never reported, however few entries either side publishes |
| `Timeline.ReportedIff` | internal/cluster/timeline.go:44-94 | for all pairs of instances and any numbers of published entries: a divergence is reported if and only if the followed instance is on an older timeline, or both publish different points for the timeline before a common one, or the followed one publishes that it left the local timeline before the local position |
| `Timeline.ForkReportedIffKept` | internal/cluster/timeline.go:81-94 | for a timeline in the followed history: the fork is reported exactly when it lies before the local position and its entry is still published |
| `Timeline.OldForkGoesUnnoticed` | internal/runtime/keeper/pg_state.go:46-48 | an old fork whose entry has been dropped goes unnoticed |
| `Timeline.SiblingGoesUnnoticed` | internal/cluster/timeline.go:81-94 | a timeline the followed instance never went through goes unnoticed, whatever is published |
| `Timeline.SkippedTimelineGoesUnnoticed` | internal/cluster/timeline.go:59-79 | one timeline reached from different points goes unnoticed when the identifier before it was skipped |
| `Timeline.EarlierForkGoesUnnoticed` | internal/cluster/timeline.go:59-79 | one timeline with the same last switch after an earlier fork goes unnoticed |
| `Timeline.AheadGoesUnnoticed` | internal/cluster/timeline.go:59-79 | a local instance ahead of the followed one on the same timeline goes unnoticed |
| `Wal.IsRequiredWalAvailable` | internal/postgresql/utils.go:1118-1128 | string comparison decides exactly whether the position's segment is not before the oldest file's |
| `Wal.IsWalFileName` | internal/postgresql/utils.go:1079-1097 | exactly the 24-digit upper-case hexadecimal names |
| `Wal.NameNoTimeline` | internal/postgresql/utils.go:1109-1115 | the name without its timeline, or an error |
| `Wal.NameOrderIsExact` | internal/postgresql/utils.go:1100-1128 | order of names is order of (high word, segment) pairs |
| `Wal.NotBeforeIsSegmentOrder` | internal/postgresql/utils.go:1100-1106 | for a segment size that divides 2^32 it is the order of segment numbers |
| `ConnStrings.ParseConnString` | internal/postgresql/connstring.go:104-179 | the scanner computes the meaning of a connection string |
| `ConnStrings.Scanner.SkipSpaces` | internal/postgresql/connstring.go:93-99 | the next character that is not white space, or the end |
| `ConnStrings.ConnString` | internal/postgresql/connstring.go:222-232 | the parameters with a value, each once, sorted by their text; the string is the same in whatever order the map is walked |
| `ConnStrings.Reproducible` | internal/postgresql/connstring.go:222-232 | any two sorted listings of the same parameters print the same string |
| `ConnStrings.RoundTrip` | internal/postgresql/connstring.go:104-232 | parsing the printed string gives back the parameters that have a value |
| `ConnStrings.RoundTripIff` | internal/postgresql/connstring.go:104-232 | for all parameters and every order of printing: they come back exactly when the keys with a value have no white space or equals sign, and the values no white space but the ASCII space |
| `TcpProxies.Proxy.SetDestinations` | internal/tcpproxy/proxy.go:99-140 | the order is the request without gaps and repetitions; retained destinations keep their open channel, removed ones are closed once |
| `TcpProxies.Proxy.Stop` | internal/tcpproxy/proxy.go:167-181 | all channels are closed, once |
| `TcpProxies.Proxy.Destination` | internal/tcpproxy/proxy.go:271-281 | the next destination in turn, with an open channel |
| `TcpProxies.Proxy.Serve` | internal/tcpproxy/proxy.go:271-281 | every destination gets its integral share of the picks, or one more |
| `TcpProxies.FairShare` | internal/tcpproxy/proxy.go:278-279 | how often each position comes up in k turns |

## Left out

- Durability.NoLostCommit: beside its two named conditions it assumes that a configured name is matched by the standby of that UID only, and automatic failovers with synchronous replication on; manual switches and failing back are not restricted to electable standbys.
- JointRuns.NoLostCommit: assumes `Careful` and `CaughtUp` and one standby for each configured name; it ends when replication stops being synchronous or a switch is asked for, and leaves out `Reinitialize`, which can turn a past master into a standby under an unchanged generation.
- FenceProtocol.OneDestination: takes the code's own assumption that a proxy no longer counted as active has closed its connections, and that it has no check under way.
- Keepers.PostgresKeeper.Pass: initialization from existing data is modelled, but nothing is claimed about the data it adopts; hooks, slots and pg_hba are one action, and whether a reload is needed is left to `Durability`.
- Convergence.ConvergedMeansCurrentSpec: like `Runs.OneSpecPerGeneration`, leaves `Reinitialize` out.
- Runs.OneSpecPerGeneration: leaves `Reinitialize` out, which edits specs under an unchanged generation.
- Sentinels.Sentinel.Lead: the document each check reads is a parameter, since others write in between; that a leader's checks follow one another is taken from the election.
- Sentinels.Sentinel.UpdateCluster: lists the code sorts are sets, so duplicates and nil versus empty are not told apart; merging of reported PostgreSQL parameters into the spec (MergePgParameters is taken as on), invalid role strings and the start of a convergence timer in the middle of a pass are not modelled; one time stamp serves the whole pass.
- Sentinels.Sentinel.UpdateKeepersStatus: reports of other clusters are taken as filtered out already, and boot identifiers, addresses and binary versions are not modelled.
- ConnStrings.RoundTrip: URL parsing is not modelled.
- Raw edits of the document (write, patch, initialize): arbitrary input.
- Which proxies count as active (the timers of `activeProxiesInfos`): the fence theorem holds for any choice that accounts for the proxies that could route.
- Read-only routing, Kubernetes services, web interface, metrics, logging, command line and configuration.
- etcd: its compare-and-swap on a modification index is taken as given.
- pg_basebackup, pg_rewind, recovery, SQL and file formats of PostgreSQL: only success or failure.
- LSN text conversion and the expansion of placeholders in commands: easy members.
