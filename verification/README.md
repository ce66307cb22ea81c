# Verified model of zaza-openstack-tests' upgrade orchestration

zaza-openstack-tests drives a whole OpenStack cloud through upgrades: it moves every machine to a new Ubuntu
series, and every application to a new OpenStack release.  This project models that core in Dafny and proves
what it keeps, over every run and every interleaving of its coroutines.

| files | models |
|---|---|
| `SeriesSteps`, `Gather`, `MachineVisits` | the cloud as a fold over single steps; `asyncio.gather` as all interleavings of its coroutines; a driver's visits to machines with one `completed_machines` list |
| `SeriesUpgrade` | the serial driver of `parallel_series_upgrade.py`, and the two blocking drivers of `series_upgrade.py` with their two coroutines, as sets of runs (`JobRun`); campaigns of them over many applications |
| `ParallelSeriesUpgrade` | the parallel driver as its set of runs (`ParallelRun`), and when it ends where the serial one ends |
| `SeriesEffects` | what any run of the drivers comes to, spelled out: the commands of each unit, configuration, series, pauses and hooks afterwards |
| `GatheredJobs` | coroutines that upgrade several applications at once over one `completed_machines` list, as `charm_tests/series_upgrade/tests.py` gathers them; when each machine is still upgraded once; the event loop as a class |
| `GatheredParallel`, `Overtaking` | the coroutine of the parallel driver gathered by a caller: it reads the list twice; when that goes well, and the runs in which it does not |
| `SeriesOrchestrator` | the drivers as a class with mutable state, each method proved to produce one of those runs |
| `ActionUpgrade` | the `while True` scheduler of action-managed upgrades |
| `UpgradePlanner`, `ServiceGroups`, `CharmUrl` | the phased upgrade of a whole model: candidates, groups, configuration, actions |
| `UpgradeEffects` | what such a run comes to, spelled out: who is planned and where, what is written and in which order, who is upgraded |
| `Retrier` | the retry engine with its two budgets |
| `Releases` | release tables, the next release, the next source |
| `CephPools`, `Masakari`, `ProcessIds` | the pool-list parser, round-robin assignment, process-id validation |
| `Text`, `Sequences`, `Wrappers` | Python's `split`, `join`, `sort`, `str` order and `int`; lists without duplicates; `Option` and `Result` |

Every external command is one step.  Code between two awaits runs alone, so a run is a sequence of steps, and
the steps of gathered coroutines interleave freely.  In `GatheredJobs` this includes the few steps that block the
loop, the pauses of series_upgrade.py and the hooks: its statements about all runs cover more runs than there are, and
the failing runs it gives do not need them to mix.  Loops of the source are methods with loops here; each is
proved equal to a specification function or member of a specification predicate, and the theorems are about
those.  `Broken`, the phase of a machine that got a series-upgrade command out of the order prepare, release
upgrade, reboot, complete, is the model's way to say that Juju refuses such a command.

Where the code and its documentation differ, the model follows the code:

- `async_parallel_series_upgrade` prepares the leader's machine without asking whether it is completed
  (`parallel_series_upgrade.py:210`), and does not drop repeated machines.  `ParallelSeriesUpgrade.ParallelEndsAsSerialIff`
  says exactly when this matters, `ParallelSeriesUpgrade.CampaignEndsAsSerialIff` for whole sequences of applications,
  and `ParallelSeriesUpgrade.CompletedLeaderFails` gives the shortest failing input.
- `charm_tests/series_upgrade/tests.py:199-222` gathers the coroutines of `series_upgrade.py`, which ask whether a
  machine is completed long before they append it, so a machine that two applications of a group share can be upgraded
  twice: `GatheredJobs.GatheredFinishIff` says exactly when.  `charm_tests/series_upgrade/parallel_tests.py:119-127`
  gathers nothing: the functions it calls are blocking wrappers, so its applications run one after the other and
  `SeriesUpgrade.CampaignUpgradesOnce` and `ParallelSeriesUpgrade.CampaignEndsAsSerialIff` apply to them.
- In `async_series_upgrade_application` a skipped leader waits for whichever unit its loop variable still holds
  (`series_upgrade.py:494`), and `async_series_upgrade_non_leaders_first` pauses units without asking whether their charm
  can pause (`series_upgrade.py:261-263`).
- `set_upgrade_application_config` asks for the key 'openstack-origin', `is_already_upgraded` for its value.  They
  differ for an option that is declared and unset: `UpgradePlanner.ReadButNotWritten` says exactly when an application
  is passed over as upgraded although the option to write is not on the source, `UpgradePlanner.RaisesIff` exactly when
  reading raises a KeyError.
- The retrier's documentation promises intervals that never exceed `max_interval`
  (`__init__.py:91-93`); the first one is not capped: `Retrier.WaitCapped` has the exact condition.
- `determine_new_source` and `determine_next_openstack_release` announce a KeyError for unknown names; most of
  them are a ValueError, and the last release is an IndexError of the latter: `Releases.SourceErrors`, `Releases.NextRelease`.
- `get_lowest_openstack_version` compares alphabetically: `Releases.LowestIsOldestIff` says where that is the order of releases.
- The followers-first driver runs the post-upgrade functions of a follower twice, and the leader-first driver
  writes an origin even where it is None, for a machine that is already completed.

## Model

| member | source | states |
|---|---|---|
| SeriesSteps.MachineAfter | zaza/openstack/utilities/parallel_series_upgrade.py:386-421 | the state a machine ends in depends on its own steps only, whatever runs between them |
| SeriesSteps.BrokenStays | zaza/openstack/utilities/parallel_series_upgrade.py:386-421 | no later step repairs a machine whose protocol was violated |
| SeriesSteps.DoneIff | zaza/openstack/utilities/parallel_series_upgrade.py:411-418 | from ready, a machine ends done on a series if and only if a run sends it exactly one prepare, to that series, one release upgrade and one complete, in this order, with a reboot between the last two |
| SeriesSteps.SameEnd | zaza/openstack/utilities/parallel_series_upgrade.py:411-421 | two runs with the same steps on every machine and the same bag of shared steps end in the same cloud: machines, series, options, pauses, hooks |
| Gather.SequentialInterleaves | zaza/openstack/utilities/parallel_series_upgrade.py:525-526 | gathered coroutines may run one after the other |
| Gather.SameSteps | zaza/openstack/utilities/parallel_series_upgrade.py:217-224 | an interleaving has exactly the steps of its coroutines |
| Gather.OwnMachine | zaza/openstack/utilities/parallel_series_upgrade.py:217-224 | on a machine only one coroutine works on, every interleaving does what that coroutine does, in its order |
| Gather.SameShared | zaza/openstack/utilities/parallel_series_upgrade.py:217-224 | every interleaving has the same shared steps, with multiplicity, as the coroutines in a row |
| Gather.SameLoad | zaza/openstack/utilities/parallel_series_upgrade.py:217-224 | the number of steps on a machine adds up over the coroutines, whatever the interleaving |
| MachineVisits.DriveRecords | zaza/openstack/utilities/series_upgrade.py:362-398 | completed_machines gains exactly the visited machines not in it yet, none twice |
| MachineVisits.DriveProj | zaza/openstack/utilities/series_upgrade.py:362-398 | each machine gets exactly the upgrade of its first visit, and nothing when it was completed before |
| SeriesUpgrade.VisitUpgrades | zaza/openstack/utilities/series_upgrade.py:563-692 | whichever of the five drivers visits a unit, the visit works on the unit's machine only and is one full upgrade of it: a ready machine ends done on the target series, after one prepare, one release upgrade and one complete |
| SeriesUpgrade.PreparedCoreUpgrades | zaza/openstack/utilities/parallel_series_upgrade.py:411-418 | preparing a machine and running series_upgrade_machine on it is one full upgrade, with or without the extra reboot dist-upgrade asks for |
| SeriesUpgrade.UnitCoreUpgrades | zaza/openstack/utilities/series_upgrade.py:590-611 | the blocking per-unit sequence is one full upgrade of the machine |
| SeriesUpgrade.AsyncProgramProj | zaza/openstack/utilities/series_upgrade.py:655-692 | the coroutine's per-unit sequence, with the origin set before the upgrade is completed, does to the machine what the blocking sequence does, in the same order |
| SeriesUpgrade.JobOutcome | zaza/openstack/utilities/parallel_series_upgrade.py:315-380 | one application under any serial driver: every machine of it not completed is upgraded once, in the protocol's order, and recorded once; every other machine is left alone |
| SeriesUpgrade.CampaignUpgradesOnce | zaza/openstack/charm_tests/series_upgrade/parallel_tests.py:83-127 | over any sequence of applications, co-located or not, and any mix of serial drivers, each machine not completed at the start is upgraded exactly once, to the series of its first application; no other machine is touched |
| SeriesUpgrade.CampaignCompletes | zaza/openstack/utilities/series_upgrade.py:169-199 | completed_machines only grows, stays free of duplicates, and ends as the starting machines plus all machines of the applications |
| SeriesUpgrade.CampaignFinishes | zaza/openstack/utilities/series_upgrade.py:362-398 | read on the cloud: a ready machine of the campaign ends done on the series of its first application |
| SeriesUpgrade.PausesComeFirst | zaza/openstack/utilities/series_upgrade.py:353-366 | for every driver: each requested non-leader pause is issued, no other is, and all of them before any machine is touched |
| SeriesUpgrade.MachineOrder | zaza/openstack/utilities/parallel_series_upgrade.py:332-378 | for any driver and any shared machines: the steps on one machine come before all those on another if and only if it is visited first |
| SeriesUpgrade.LeaderOrder | zaza/openstack/utilities/parallel_series_upgrade.py:332-378 | leader-first drivers are through with the leader's machine before any other is started, whatever machines are shared; followers-first drivers start it after every other is finished, unless a follower is on it too |
| ParallelSeriesUpgrade.ParallelRefinesSerial | zaza/openstack/utilities/parallel_series_upgrade.py:192-229 | on separate machines every interleaving of the parallel driver ends in the same cloud, with the same machines completed, as every run of the serial driver, for either follower_first |
| ParallelSeriesUpgrade.ParallelEndsAsSerialIff | zaza/openstack/utilities/parallel_series_upgrade.py:198-216 | the two drivers end in the same cloud if and only if the leader's machine is not completed and the machines still to do are pairwise distinct |
| ParallelSeriesUpgrade.ParallelBreaks | zaza/openstack/utilities/parallel_series_upgrade.py:210-216 | whenever that guard fails, every interleaving violates the protocol on some machine of the application |
| ParallelSeriesUpgrade.CompletedLeaderFails | zaza/openstack/utilities/parallel_series_upgrade.py:210-215 | one unit on a machine already completed is enough |
| ParallelSeriesUpgrade.SomeRuns | zaza/openstack/utilities/parallel_series_upgrade.py:201-229 | both drivers have runs for every application with a leader, so the statements about all runs are not empty |
| ParallelSeriesUpgrade.UpgradeBarrier | zaza/openstack/utilities/parallel_series_upgrade.py:201-224 | when any machine is in series_upgrade_machine, all requested pauses are issued, all units have been waited for, all machines to upgrade are prepared, and none of that happens later |
| ParallelSeriesUpgrade.CompletionBarrier | zaza/openstack/utilities/parallel_series_upgrade.py:217-227 | when completed_machines has grown or the series is set, every machine is through its whole upgrade, and no command goes to a machine any more |
| ParallelSeriesUpgrade.LastSteps | zaza/openstack/utilities/parallel_series_upgrade.py:225-229 | a run ends by extending completed_machines once, setting the series once, and then running the application's functions in order |
| ParallelSeriesUpgrade.NeverBroken | zaza/openstack/utilities/parallel_series_upgrade.py:207-224 | on separate machines no reachable state of any interleaving violates a machine's protocol, and every machine ends done |
| ParallelSeriesUpgrade.CompletedAreDone | zaza/openstack/utilities/parallel_series_upgrade.py:217-225 | in every reachable state a machine the run put into completed_machines is done |
| ParallelSeriesUpgrade.CampaignRefinesSerial | zaza/openstack/utilities/parallel_series_upgrade.py:192-229 | where the guard holds at every application, on what is completed by then, a campaign of parallel runs over one completed_machines list ends in the same cloud and with the same machines completed as the campaign of serial runs |
| ParallelSeriesUpgrade.CampaignEndsAsSerialIff | zaza/openstack/utilities/parallel_series_upgrade.py:198-216 | for any sequence of applications, co-located or not: the two campaigns end in the same cloud if and only if that guard holds at every application |
| ParallelSeriesUpgrade.CampaignBreaks | zaza/openstack/utilities/parallel_series_upgrade.py:210-216 | where the guard fails at some application, every campaign of parallel runs ends with the protocol violated on some machine of it |
| SeriesEffects.WholeRunScript | zaza/openstack/utilities/series_upgrade.py:353-398 | any run of any of the five drivers that has a leader, from its first step to its last: the pauses, then unit by unit either the script of the driver and the machine appended, or what it does for a unit it skips, then the application's functions where the driver runs them |
| SeriesEffects.UnitScript | zaza/openstack/utilities/series_upgrade.py:588-692 | in any run of any driver a unit that is upgraded gets its script in one block, from the dist-upgrade to the hooks, with the workarounds only where the driver hands them on; nothing else in the run names its machine |
| SeriesEffects.ParallelCommands | zaza/openstack/utilities/parallel_series_upgrade.py:207-224 | whatever the interleaving, on separate machines each machine the parallel driver upgrades gets exactly the listed commands, in this order |
| SeriesEffects.ConfigAfterJob | zaza/openstack/utilities/generic.py:254-265 | after any run of any driver that upgrades a machine: origin "auto" leaves 'openstack-origin' at "distro" where the charm has it, else 'source' where it has that, else nothing; a named origin sets that option; None and "" set nothing, unless a leader-first driver of series_upgrade.py skips a unit; no other option of any application changes |
| SeriesEffects.ConfigAfterParallel | zaza/openstack/utilities/parallel_series_upgrade.py:419-420 | the same after any run of the parallel driver, which sets the origin exactly if there is one and a machine is not completed |
| SeriesEffects.SeriesAfterJob | zaza/openstack/utilities/series_upgrade.py:625-627 | after any run of any driver that upgrades a machine the application is at the new series, after the serial coroutine in any case; the series of every other application is as it was, and of this one where no machine is upgraded |
| SeriesEffects.SeriesAfterParallel | zaza/openstack/utilities/parallel_series_upgrade.py:226-227 | every run of the parallel driver leaves the application at the new series, and no other changed |
| SeriesEffects.CampaignSeries | zaza/openstack/utilities/series_upgrade.py:625-627 | over any sequence of distinct applications and any mix of drivers: the series of each is its own target if its job is serial or still has a machine to upgrade by then, and as it was otherwise |
| SeriesEffects.PausedAfterJob | zaza/openstack/utilities/series_upgrade.py:252-263 | after a run exactly these units are paused besides those that were: the followers and their subordinates that can pause, as far as the two settings ask for it, and followers that cannot only for the coroutine that does not ask |
| SeriesEffects.PausedAfterParallel | zaza/openstack/utilities/parallel_series_upgrade.py:516-526 | the same for the parallel driver, whatever machines are shared |
| SeriesEffects.HooksAfterJob | zaza/openstack/utilities/series_upgrade.py:95-104 | how often each function has run after a run: once per unit upgraded and listing, twice for a follower of a followers-first driver, the serial coroutine stopping at the first callable; the application's own once, where the driver runs them |
| SeriesEffects.HooksAfterParallel | zaza/openstack/utilities/parallel_series_upgrade.py:470-496 | the same for the parallel driver: once per machine it upgrades and listing up to the first callable, the application's own once |
| SeriesEffects.LeaderIsLastFlagged | zaza/openstack/utilities/parallel_series_upgrade.py:548-555 | the leader is the last unit of the status flagged as one, and there is none exactly where no unit is |
| SeriesEffects.FollowersInOrder | zaza/openstack/utilities/parallel_series_upgrade.py:548-555 | the followers are the units that are not flagged, in the order of the status, none left out |
| SeriesEffects.SeparateMeans | zaza/openstack/utilities/parallel_series_upgrade.py:196-216 | the guard of the parallel driver in terms of the status: with one leader, its machine is not completed and no two units share a machine that is not |
| GatheredJobs.Untangle | zaza/openstack/utilities/series_upgrade.py:478-517 | a run of threads that read the growing list, no one coming to a machine another may still record, is an interleaving of what each does alone |
| GatheredJobs.GatheredIsInterleaved | zaza/openstack/charm_tests/series_upgrade/tests.py:199-222 | where no uncompleted machine is shared, every run of the gathered applications is an interleaving of runs of each one alone |
| GatheredJobs.GatheredUpgradesOnce | zaza/openstack/charm_tests/series_upgrade/tests.py:199-222 | then, whatever the interleaving, every machine not completed is upgraded exactly once, by its application, and appended exactly once; every other is left alone |
| GatheredJobs.SharedIsUpgradedTwice | zaza/openstack/utilities/series_upgrade.py:475-517 | two applications that share an uncompleted machine have a run that issues its release upgrade twice: both ask before either has appended it |
| GatheredJobs.GatheredFinishIff | zaza/openstack/charm_tests/series_upgrade/tests.py:199-222 | all runs of the gathered applications, for any mix of the coroutines, finish every machine if and only if no uncompleted machine belongs to two of them |
| GatheredJobs.TwiceBreaks | zaza/openstack/utilities/series_upgrade.py:630-692 | a machine that gets a second release upgrade has its protocol violated |
| GatheredJobs.RunToEnd | zaza/openstack/charm_tests/series_upgrade/tests.py:221-222 | gathered applications can always be run to their end, so the statements about all runs are not empty |
| GatheredJobs.EventLoop.Gather | zaza/openstack/charm_tests/series_upgrade/tests.py:221-222 | a loop that resumes any thread that is not finished ends, and what was issued and appended is one of the runs |
| GatheredParallel.ParallelIsInterleaved | zaza/openstack/utilities/parallel_series_upgrade.py:192-229 | where no uncompleted machine is shared, every run of parallel coroutines gathered by a caller is an interleaving of parallel runs of each application alone, though each reads the list twice while others extend it |
| GatheredParallel.ParallelUpgradesOnce | zaza/openstack/utilities/parallel_series_upgrade.py:192-229 | if moreover each application meets the guard it has alone, every machine not completed is upgraded exactly once, by its application, and no other is touched |
| GatheredParallel.WhatReadsDecide | zaza/openstack/utilities/parallel_series_upgrade.py:198-225 | what the two reads of the list decide in any gathered run: followers' machines missing at the first are prepared, upgraded and appended whatever happens since; the leader's machine is always prepared, but upgraded and appended only if it is still missing at the second |
| Overtaking.PreparesOfJob | zaza/openstack/utilities/parallel_series_upgrade.py:198-216 | a run prepares a machine at least once per follower to do on it, by the list it read first, and once more when it is the leader's |
| Overtaking.PreparedTooOften | zaza/openstack/utilities/parallel_series_upgrade.py:558-573 | a machine prepared twice, or prepared when it is not ready, has its protocol violated |
| Overtaking.SharedFails | zaza/openstack/utilities/parallel_series_upgrade.py:198-216 | two applications that share an uncompleted machine fail when one overtakes the other between its two reads |
| Overtaking.NotSeparateFails | zaza/openstack/utilities/parallel_series_upgrade.py:198-216 | an application that does not meet the guard fails when it runs first |
| Overtaking.ParallelFinishIff | zaza/openstack/utilities/parallel_series_upgrade.py:192-229 | all runs of the gathered parallel coroutines finish every machine if and only if no uncompleted machine is shared and every application meets its own guard |
| Overtaking.RunTheRest | zaza/openstack/utilities/parallel_series_upgrade.py:192-229 | whatever has run, the coroutines that have not can still run to their end |
| SeriesOrchestrator.Orchestrator.RunGathered | zaza/openstack/utilities/parallel_series_upgrade.py:217-224 | a scheduler that lets any unfinished coroutine go next terminates, and what it issued is an interleaving |
| SeriesOrchestrator.Orchestrator.LeaderAndNonLeaders | zaza/openstack/utilities/parallel_series_upgrade.py:548-555 | the loop gives the last unit flagged as leader, and the others in order |
| SeriesOrchestrator.Orchestrator.MaybePauseThings | zaza/openstack/utilities/parallel_series_upgrade.py:516-526 | it issues an interleaving of exactly the requested pauses |
| SeriesOrchestrator.Orchestrator.PauseOneByOne | zaza/openstack/utilities/series_upgrade.py:354-360 | the drivers of series_upgrade.py issue the requested pauses one unit after the other |
| SeriesOrchestrator.Orchestrator.VisitMachine | zaza/openstack/utilities/series_upgrade.py:383-398 | a unit's machine is upgraded and appended when it is not in completed_machines, and skipped otherwise |
| SeriesOrchestrator.Orchestrator.VisitAll | zaza/openstack/utilities/parallel_series_upgrade.py:348-363 | the loop over units issues the drive over their visits on the list as it grows |
| SeriesOrchestrator.Orchestrator.SerialSeriesUpgrade | zaza/openstack/utilities/parallel_series_upgrade.py:315-380 | the serial driver produces one of the runs of its job, which `SeriesEffects.WholeRunScript` spells out, and fails exactly when there is no leader |
| SeriesOrchestrator.Orchestrator.SeriesUpgradeApplication | zaza/openstack/utilities/series_upgrade.py:340-398 | the leader-first and followers-first drivers, and their coroutines where they run alone, produce one of the runs of their job, which `SeriesEffects.WholeRunScript` spells out, and fail exactly when there is no leader |
| SeriesOrchestrator.Orchestrator.UncompletedMachines | zaza/openstack/utilities/parallel_series_upgrade.py:198-199 | the list comprehension over the followers, repeated machines included |
| SeriesOrchestrator.Orchestrator.PrepareMachines | zaza/openstack/utilities/parallel_series_upgrade.py:201-214 | pauses, idle waits, the leader's prepare and the gathered prepares, in this order |
| SeriesOrchestrator.Orchestrator.ParallelUpgrade | zaza/openstack/utilities/parallel_series_upgrade.py:192-229 | the parallel driver produces one of the runs of its application, whose effects `SeriesEffects` spells out, and fails exactly when there is no leader |
| ActionUpgrade.Scheduler.PickTarget | zaza/openstack/utilities/openstack_upgrade.py:119-126 | the nested loops with their break take the first unit not done of each application |
| ActionUpgrade.Scheduler.ActionUpgradeApps | zaza/openstack/utilities/openstack_upgrade.py:117-163 | the `while True` loop ends, its log is the schedule, which `ActionUpgrade.ScheduleWaits`, `PausedAtUpgrade` and `UpgradedOnce` characterize, and done is all targets in order |
| ActionUpgrade.RemainingShrinks | zaza/openstack/utilities/openstack_upgrade.py:127-154 | the measure: each working round takes at least one unit out of those not done |
| ActionUpgrade.DoneAtEnd | zaza/openstack/utilities/openstack_upgrade.py:117-154 | done stays free of duplicates and ends as what it started with plus all units |
| ActionUpgrade.UpgradedOnce | zaza/openstack/utilities/openstack_upgrade.py:118-154 | for distinct applications that share no unit, whatever their hacluster units: every unit of every listed application gets openstack-upgrade exactly once, no other unit does |
| ActionUpgrade.RoundsExactly | zaza/openstack/utilities/openstack_upgrade.py:118-154 | whatever the hacluster units: there are exactly as many rounds as the largest application has units, and round r takes unit r of each |
| ActionUpgrade.RoundSafe | zaza/openstack/utilities/openstack_upgrade.py:129-152 | one round is safe in every state, and leaves nothing paused |
| ActionUpgrade.ScheduleSafe | zaza/openstack/utilities/openstack_upgrade.py:117-163 | in every reachable state, with any action part-way over its units, at most one unit per application is paused, only while its hacluster units are, and openstack-upgrade reaches only units so paused |
| ActionUpgrade.NothingPausedBetween | zaza/openstack/utilities/openstack_upgrade.py:139-154 | nothing is paused between two rounds |
| ActionUpgrade.PausedAtUpgrade | zaza/openstack/utilities/openstack_upgrade.py:139-146 | whenever openstack-upgrade starts on some units, exactly these units and their hacluster units are paused |
| ActionUpgrade.ScheduleWaits | zaza/openstack/utilities/openstack_upgrade.py:139-163 | the model is waited for directly before every action and at the very end; a R/W unit is waited for if and only if mysql-innodb-cluster is among the applications, once, and after the last action |
| UpgradePlanner.SetAllOnly | zaza/openstack/utilities/openstack_upgrade.py:211-227 | after the writes exactly the listed applications have the new source in the option to write; no option appears, and no other option or application changes |
| UpgradePlanner.ReadBack | zaza/openstack/utilities/openstack_upgrade.py:211-269 | from any configuration, with options unset or not: the source that was written is the source that is read back |
| UpgradePlanner.ReadButNotWritten | zaza/openstack/utilities/openstack_upgrade.py:261-269 | an application reads as upgraded although the option that would be written is not on the source if and only if 'openstack-origin' is there without a value and 'source' has the new source |
| UpgradePlanner.ShadowedExample | zaza/openstack/utilities/openstack_upgrade.py:212-219 | an application with both options, the first unset, is one |
| UpgradePlanner.UnreadableExample | zaza/openstack/utilities/upgrade_utils.py:151-159 | an application whose only source option is unset passes the filter and cannot be read |
| UpgradePlanner.RaisesIff | zaza/openstack/utilities/openstack_upgrade.py:319-327 | a run raises if and only if some planned application has a value in neither option, and does so at the first group with one, all groups before being readable |
| UpgradePlanner.GroupOnly | zaza/openstack/utilities/openstack_upgrade.py:317-337 | after a group that can be read all its applications read as on the source; those already on it, and all outside the group, are untouched, and nothing becomes readable or unreadable |
| UpgradePlanner.AllUpgraded | zaza/openstack/utilities/openstack_upgrade.py:351-354 | every application of the groups worked on ends on the new source as it is read, and in the option to write unless it was shadowed; the others end as they were |
| UpgradePlanner.NothingToDo | zaza/openstack/utilities/openstack_upgrade.py:319-337 | where every planned application reads as on the source, a run sends nothing and changes nothing |
| UpgradePlanner.SecondRunIsIdle | zaza/openstack/utilities/openstack_upgrade.py:340-354 | idempotence, whether or not the first run raised: a second run with the same source plans the same groups, sends no config change and no action, and raises at the same group or not at all |
| UpgradePlanner.Phased | zaza/openstack/utilities/openstack_upgrade.py:351-354 | when a group begins, all applications of the groups before it are on the source, no event has concerned a later one, and no event concerns an earlier one any more |
| UpgradePlanner.UpgradedExactly | zaza/openstack/utilities/openstack_upgrade.py:317-337 | over all phases a unit gets openstack-upgrade exactly once if its application is planned, not on the source and action-managed, and not at all otherwise |
| UpgradePlanner.RunUpgradesExactly | zaza/openstack/utilities/openstack_upgrade.py:340-354 | from the status of the model on: a run gets to all groups if and only if every application the filters leave in can be read; on the groups it gets to, which units are upgraded is decided by the source and action-managed-upgrade alone; and it is safe throughout |
| UpgradePlanner.WholeRunSafe | zaza/openstack/utilities/openstack_upgrade.py:340-354 | the scheduler's safety holds in every reachable state of the whole run, for all applications at once, and the run leaves nothing paused |
| UpgradePlanner.PartitionOnce | zaza/openstack/utilities/upgrade_utils.py:273-290 | phases that share no charm plan no application twice |
| UpgradePlanner.CandidatesDistinct | zaza/openstack/utilities/upgrade_utils.py:87-111 | the candidates are exactly the applications no filter drops, each once; `UpgradeEffects.PlannedExactly` says which these are |
| UpgradePlanner.GroupsAreSourced | zaza/openstack/utilities/upgrade_utils.py:151-159 | every application in a group has one of the two source options, with or without a value, so a write sets an option that is there |
| UpgradePlanner.Planner.SetUpgradeApplicationConfig | zaza/openstack/utilities/openstack_upgrade.py:211-227 | the loop leaves the configuration and the events of the writes in order, each on the option the application has |
| UpgradePlanner.Planner.SortApplications | zaza/openstack/utilities/openstack_upgrade.py:317-327 | the loop raises if and only if an application has a value in neither option; otherwise the two lists are the applications not on the source, by whether they have action-managed-upgrade |
| UpgradePlanner.Planner.RunUpgradeOnApps | zaza/openstack/utilities/openstack_upgrade.py:304-337 | a group's configuration and events, all-in-one upgrades first; where it raises it has changed nothing |
| UpgradePlanner.Planner.GetUpgradeCandidates | zaza/openstack/utilities/upgrade_utils.py:99-104 | the loop keeps the candidates in the order of the model; `UpgradeEffects.PlannedExactly` says which applications these are |
| UpgradePlanner.Planner.RunUpgradeTests | zaza/openstack/utilities/openstack_upgrade.py:340-354 | the run is the configuration and the events of the groups before the first that cannot be read, in order, and raises if and only if there is one |
| UpgradeEffects.PlannedExactly | zaza/openstack/utilities/upgrade_utils.py:114-159 | a run plans exactly the applications of the status that are no subordinates, that are excluded neither by name nor by charm name, and that have 'openstack-origin' or 'source', whatever the phases |
| UpgradeEffects.PlacedExactly | zaza/openstack/utilities/upgrade_utils.py:273-290 | each of them is in the groups of the phases that list its charm, and in the last, 'sweep_up', if and only if none does; nothing else is in any group, and groups are sorted |
| UpgradeEffects.ReadsMean | zaza/openstack/utilities/openstack_upgrade.py:261-269 | an application counts as upgraded by the value of 'openstack-origin', and where that has none of 'source'; it can be read exactly where one of them has a value |
| UpgradeEffects.RunConfig | zaza/openstack/utilities/openstack_upgrade.py:211-227 | after a run every planned application that did not read as being on the source has it in 'openstack-origin', or in 'source' where it lacks that option, and 'action-managed-upgrade' is "True" where it has that; no other option of any application has changed |
| UpgradeEffects.GroupScript | zaza/openstack/utilities/openstack_upgrade.py:317-337 | a group from its first step to its last: the all-in-one writes, in the order of the group, and a wait for the model; then the writes of the action-managed, and only then their upgrade by actions; neither where there is nothing to do |
| UpgradeEffects.WritesExactly | zaza/openstack/utilities/openstack_upgrade.py:211-227 | over a whole run each planned application that did not read as being on the source is written to once, the source to the option it has, together with 'action-managed-upgrade' exactly where it has that; nothing else is written |
| UpgradeEffects.WrittenBeforeActions | zaza/openstack/utilities/openstack_upgrade.py:278-293 | whatever unit an action of a run reaches, the write that gave its application the source and 'action-managed-upgrade' came before |
| UpgradeEffects.UpgradedByRun | zaza/openstack/utilities/openstack_upgrade.py:340-354 | a run that does not raise gives openstack-upgrade exactly once to the units of the applications no filter takes out that did not read as being on the source and have 'action-managed-upgrade', and to no other unit |
| ServiceGroups.BuildServiceGroups | zaza/openstack/utilities/upgrade_utils.py:273-290 | the loops, the lookup and the sort at the end build the specified groups |
| ServiceGroups.GroupsCount | zaza/openstack/utilities/upgrade_utils.py:273-290 | for any phases: an application is in as many groups as phases list its charm, and in sweep_up alone when none does |
| ServiceGroups.GroupsPartition | zaza/openstack/utilities/upgrade_utils.py:273-290 | with disjoint phases the groups are a partition: the multiset of applications is conserved |
| ServiceGroups.GroupContents | zaza/openstack/utilities/upgrade_utils.py:275-290 | every group is sorted; group i holds exactly the applications whose charm phase i lists, sweep_up exactly those no phase lists |
| ServiceGroups.OrderIndependent | zaza/openstack/utilities/upgrade_utils.py:273-290 | the result is the same for any order of the input mapping |
| CharmUrl.TailIsMaximal | zaza/openstack/utilities/upgrade_utils.py:303-303 | what the pattern's digits match is the whole run of digits at the end of the segment |
| CharmUrl.HasRevisionIff | zaza/openstack/utilities/upgrade_utils.py:303-303 | a segment ends in a revision if and only if it is some text, a dash, at least one digit, and at most a final newline |
| CharmUrl.ExtractInvertsBuild | zaza/openstack/utilities/upgrade_utils.py:303-304 | for any scheme and path and any optional revision, the charm name comes back |
| CharmUrl.ExtractIff | zaza/openstack/utilities/upgrade_utils.py:303-304 | a name is recovered from behind a prefix if and only if it has no '/' or ':' and does not end in a dash and digits |
| CharmUrl.NoSlashNoColon | zaza/openstack/utilities/upgrade_utils.py:303-304 | what is extracted never contains a separator |
| Text.SortedUnique | zaza/openstack/utilities/upgrade_utils.py:288-289 | there is one sorted list with given elements, so list.sort() is determined by its result |
| Text.LexIff | zaza/openstack/utilities/upgrade_utils.py:288-289 | the order strings are sorted in: a prefix comes first, and otherwise the first difference decides |
| Retrier.Call | zaza/openstack/utilities/__init__.py:136-173 | for any infinite sequence of outcomes the loop ends; the calls it makes are exactly those it reaches by retryable failures within both budgets, and the last one's outcome is the result: a value, an error never tried again or not listed, or a failure that spends a budget; the pauses are the specified ones, with one more only before a failure for lack of total wait |
| Retrier.ReachesIff | zaza/openstack/utilities/__init__.py:145-170 | a call is reached if and only if there are retries for it, all calls before it failed with errors that are not excluded and that are listed if there is a list, and all pauses up to it add up to less than total_wait; and that is if and only if no call before it is decisive |
| Retrier.ReachedAndFinal | zaza/openstack/utilities/__init__.py:146-159 | a call that is reached and succeeds, or fails with an error that is never tried again or not in the list, is the one the loop ends at |
| Retrier.FirstDecisiveExists | zaza/openstack/utilities/__init__.py:145-170 | there is exactly one first decisive call, at most num_retries after the first |
| Retrier.CallsWithinRetries | zaza/openstack/utilities/__init__.py:160-164 | at most num_retries + 1 calls, one when num_retries is negative |
| Retrier.MoreBudgetKeepsSuccess | zaza/openstack/utilities/__init__.py:160-170 | raising either budget never loses a success |
| Retrier.SumOfWaits | zaza/openstack/utilities/__init__.py:167-168 | the accumulated wait is the sum of the pauses |
| Retrier.WaitClosedForm | zaza/openstack/utilities/__init__.py:137-173 | for backoff of at least 1 the first pause is initial_interval and the k-th later one min(initial * backoff^k, max_interval) |
| Retrier.WaitCapped | zaza/openstack/utilities/__init__.py:171-173 | no pause exceeds the larger interval; all respect max_interval if and only if initial_interval does |
| Retrier.SleptBound | zaza/openstack/utilities/__init__.py:167-170 | before the last call less than total_wait was slept; a failure that spends it overshoots by less than one pause |
| Retrier.NoPatience | zaza/openstack/utilities/__init__.py:168-170 | with no total wait the first failure is final |
| Retrier.CallsWithinWait | zaza/openstack/utilities/__init__.py:167-173 | c calls are only made if (c - 1) * initial_interval < total_wait |
| Retrier.ConstantCalls | zaza/openstack/utilities/__init__.py:160-173 | with backoff 1 a call that always fails is made exactly until the retries or the pauses that fit in total_wait run out, whichever is first |
| Releases.ComparesByPosition | zaza/openstack/utilities/os_versions.py:355-390 | all six operators, with a name or with another comparator on the right, agree with the positions in the table; an unknown name is a KeyError on the left and a ValueError on the right |
| Releases.ComparesWithComparators | zaza/openstack/utilities/os_versions.py:365-390 | comparing with a comparator is comparing with its name, even in a table that lists a name twice |
| Releases.ComparatorTotalOrder | zaza/openstack/utilities/os_versions.py:365-390 | the operators form a total order on the names of the table |
| Releases.GetLowestOpenstackVersion | zaza/openstack/utilities/upgrade_utils.py:328-332 | the loop returns the alphabetically least of the versions and 'zebra' |
| Releases.LowestIsOldestIff | zaza/openstack/utilities/upgrade_utils.py:328-332 | the lowest version is the oldest release, for all versions from a part of the table, if and only if that part is in alphabetical order and not above 'zebra' |
| Releases.LowestMissesTheWrap | zaza/openstack/utilities/upgrade_utils.py:328-332 | 'zed' alone gives the sentinel, and with 'antelope' the newer of the two |
| Releases.NextRelease | zaza/openstack/utilities/upgrade_utils.py:346-353 | a version and its codename give the same next release, the one just after them; IndexError at the end, ValueError for an unknown name |
| Releases.LooksLikeIff | zaza/openstack/utilities/upgrade_utils.py:346-347 | a text is looked up among the versions if and only if it starts with four digits, a dot and a digit from 0 to 2 |
| Releases.StepsFollowTheTable | zaza/openstack/utilities/upgrade_utils.py:346-353 | stepping from any release visits the rest of the table in order, and then fails |
| Releases.ParsePrinted | zaza/openstack/utilities/upgrade_utils.py:388-391 | parsing a source undoes printing it |
| Releases.NewSourceIsNext | zaza/openstack/utilities/upgrade_utils.py:383-416 | a source is returned if and only if the next release is listed for this Ubuntu and is the requested one where single steps are asked for; it then parses back to the same Ubuntu, one release later |
| Releases.NewSourceSpelled | zaza/openstack/utilities/upgrade_utils.py:383-416 | from 'distro', from a codename alone and from 'cloud:<ubuntu>-<codename>' alike: the answer is 'cloud:<ubuntu>-<next>' if the pair '<ubuntu>_<next>' is listed and, where single steps are asked for, <next> is the release asked for; otherwise None |
| Releases.OtherUbuntu | zaza/openstack/utilities/upgrade_utils.py:392-395 | a source spelled out for another Ubuntu gives None |
| Releases.SourceErrors | zaza/openstack/utilities/upgrade_utils.py:383-398 | exactly when a KeyError is raised, and exactly when a ValueError: the text between the first two colons does not have exactly one dash, or is this Ubuntu, a dash and an unknown name; never an IndexError |
| Releases.ChainNeverSkips | zaza/openstack/utilities/upgrade_utils.py:396-416 | whatever is requested, a chain of sources takes the releases one by one, all listed for the Ubuntu, and ends within the table |
| Releases.ChainsReachTheGap | zaza/openstack/utilities/upgrade_utils.py:410-416 | there is a chain of n moves if and only if the next n releases are listed without a gap |
| CephPools.GetCephPools | zaza/openstack/utilities/ceph.py:83-104 | the loop returns the specified map, a ValueError of an id, or the failure of the command |
| CephPools.EntryMade | zaza/openstack/utilities/ceph.py:97-101 | two texts without a space, put around one, are an entry: the second is the name, the first, stripped and read as an integer, the id |
| CephPools.EntryIs | zaza/openstack/utilities/ceph.py:97-98 | nothing else is |
| CephPools.PaddedEntry | zaza/openstack/utilities/ceph.py:97-101 | an id is read with any other whitespace around it |
| CephPools.LastEntryWins | zaza/openstack/utilities/ceph.py:96-101 | for any text: it fails exactly when a two-field entry has no number, and otherwise has exactly the pools named, each with the id of its last entry |
| CephPools.NamesRead | zaza/openstack/utilities/ceph.py:92-101 | a name that is read has no space and no newline, and no comma where the text is one line |
| CephPools.LinesRoundTrip | zaza/openstack/utilities/ceph.py:83-101 | pools printed one a line, with any whitespace around, come back exactly if and only if no name has a space or a newline, the last is not empty and does not end in whitespace, and a single one has no comma |
| CephPools.PlainLines | zaza/openstack/utilities/ceph.py:83-101 | two or more pools, or none, with names of visible ASCII characters, each on a line that ends in a newline, always come back |
| CephPools.CommasRoundTrip | zaza/openstack/utilities/ceph.py:83-101 | pools printed between commas come back exactly if and only if no name has a space, a newline or a comma, and the last is not empty and does not end in whitespace unless a comma follows it |
| Text.SplitJoin | zaza/openstack/utilities/ceph.py:92-97 | splitting undoes joining parts free of the separator |
| Text.JoinSplit | zaza/openstack/utilities/ceph.py:92-97 | joining undoes splitting, for every text |
| Text.SplitCount | zaza/openstack/utilities/upgrade_utils.py:391-391 | there is one part more than there are separators |
| Text.ParsePrint | zaza/openstack/utilities/ceph.py:101-101 | int undoes str, for every integer |
| Text.ParseIff | zaza/openstack/utilities/ceph.py:101-101 | int reads exactly the texts of digits behind an optional sign |
| Text.ParsePadded | zaza/openstack/utilities/ceph.py:101-101 | zeros in front and a plus sign change nothing |
| Masakari.Assign | zaza/openstack/configure/masakari.py:40-53 | host i gets the segment S - 1 - (i mod S), each host once and in order; the pop fails if and only if there are hosts and no segment |
| Masakari.RepeatedFromEnd | zaza/openstack/configure/masakari.py:42-44 | popping i times from the repeated list comes to that segment |
| Masakari.Balanced | zaza/openstack/configure/masakari.py:40-53 | every segment gets floor(H / S) hosts, the last H mod S of the list one more |
| Masakari.Even | zaza/openstack/configure/masakari.py:40-53 | no two segments differ by more than one host |
| ProcessIds.GetUnitProcessIds | zaza/openstack/utilities/generic.py:476-483 | the map has every unit, in order, with each of its processes once and the ids found; it fails if and only if a lookup does |
| ProcessIds.UnitProcessIds | zaza/openstack/utilities/generic.py:478-482 | the inner loop, for one unit |
| ProcessIds.ValidateUnitProcessIds | zaza/openstack/utilities/generic.py:501-554 | success, or the error of the first fault in the order of the expected map, each of five kinds |
| ProcessIds.ValidateProcesses | zaza/openstack/utilities/generic.py:519-549 | the zipped loop finds the first wrong name or count of a unit |
| ProcessIds.OneResult | zaza/openstack/utilities/generic.py:501-554 | the specification allows one result only |
| ProcessIds.SuccessIff | zaza/openstack/utilities/generic.py:501-554 | True if and only if the unit sets coincide and every unit has the expected processes in order and number, though the code compares lengths and one inclusion only |
| ProcessIds.OnlyCountsCanFail | zaza/openstack/utilities/generic.py:476-554 | on a map collected for the expectation itself the only possible failure is PIDCountMismatch, exactly when some count is wrong |

## Left out

- Juju, SSH, apt and reboot themselves: a command is one step with a stated effect, a wait is a step without one; no command fails and no wait times out.
- Exceptions inside gathered coroutines: a run is complete, or stops where no leader was found.
- The membership of applications, the subordinates and which unit leads: read once and stable during a run, except that campaigns allow any sequence of applications.
- What the charm tests do between the groups they upgrade, and the semaphore of `parallel_tests.py`, which has nothing left to limit.
- Gathers that mix parallel coroutines with the others: each kind is modelled with its own kind.
- The mutable default of `completed_machines`: it is always passed.
- Pre-upgrade functions, `files` and `workaround_script` of the parallel module: `series_upgrade_machine` is never given the first and ignores the others.
- What a post-upgrade function does: calling it is a step that is counted.  The drivers of `series_upgrade.py` look each one up by its name, so a function passed as such fails there; in the model hooks given to them are names.
- A source value of None: an option without a value has no value key, as Juju reports it.
- `get_series_upgrade_groups`, `get_charm_upgrade_groups` and `_apply_extra_filters`: the same grouping under other filters.
- Log output, the model name, command-line parsing, YAML and environment variables.
- Retrier.Call: pauses are exact reals and not floats, and a negative pause, which `time.sleep` refuses, is not an error.
- `ObjectRetrierWraps.__getattr__`, and the list that `retry_on_connect_failure` extends in place for its caller.
- CephPools.GetCephPools: `int` is modelled for an optional sign and ASCII digits, without underscores or other scripts' digits; the exit code is already an integer.
- ProcessIds.GetUnitProcessIds: a lookup repeated for a process listed twice gives the same ids again.
- The release tables themselves: parameters here; in the source the key 'noble' is repeated, and its last entry is the one in force.
- OpenStack clients, certificates, image handling and all charm tests: thin calls to libraries that are not part of this model.
