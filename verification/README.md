# Parsl Ephemeral AWS Provider: a verified model

A Dafny model of the parts of the provider in which something can go wrong over many calls rather
than in one: bookkeeping that three dictionaries share, a client and a bastion that talk through
parameters either may overwrite, a reclaim that must reach Parsl as a failure, deadlines, and
rollbacks. It can be verified with `dafny verify dfyconfig.toml`.

| File | Models |
|---|---|
| `Collections.dfy` | options, duplicate-free lists, list removal |
| `ProviderModel.dfy` | `provider.py` as functions from one state to the next |
| `Provider.dfy` | the same operations as methods that update dictionaries loop by loop, proved equal to those functions |
| `ProviderInvariants.dfy`, `ProviderRuns.dfy` | what every step keeps, and what holds of the warm list over whole runs |
| `Reaping.dfy` | what one clean-up pass leaves of each record, status by status |
| `ProviderOwnership.dfy` | which job a resource belongs to over any run, saves lost and documents disagreeing |
| `ProviderWitnesses.dfy` | two runs, step by step, on which the documents and the warm list go wrong |
| `WarmPool.dfy`, `Capacity.dfy` | what one clean-up pass keeps and lists, how far overlapping submits overshoot |
| `Persistence.dfy` | the two state documents and what a successor recovers |
| `DetachedProtocol.dfy`, `Relaunch.dfy`, `BastionLoop.dfy`, `CancelRequests.dfy` | the client and the embedded bastion program of detached mode |
| `InterruptionMonitor.dfy`, `Interruption.dfy`, `SpotReclaim.dfy` | the monitor's queue, the marks of an interrupted resource, and both together: a spot warning from SQS to the state Parsl is told |
| `SecurityMonitor.dfy` | sliding-window detection of event patterns |
| `Retry.dfy` | delays, `retry_with_backoff`, `poll_until` |
| `SpotFleet.dfy`, `ServerlessFleet.dfy` | fleets and launch templates, created and rolled back |
| `YamlQuoting.dfy` | quoting strings for YAML, against a reader of double-quoted scalars |

AWS, the clock and random draws are parameters. A method takes what each call answered (a
`ModeAnswer`, a `Launch`, a `Deletions`, a `CleanupRun` with one clock reading for each position)
and its contract holds for every such answer. A run is a list of steps, each possible where it is
taken; the theorems about runs quantify over all of them. Concurrency is modelled by steps as small
as one access to shared state, interleaved freely.

Dictionaries whose order matters (the provider's `resources`, the monitor's fleets) are a map and a
list of its keys in insertion order. Times are real numbers.

## What turned out false, and when it holds

- A restart can mix up jobs after a lost save. Provider and mode keep one document each, the warm
  list a successor ends up with is the mode's, and either save may fail alone. In
  `ProviderWitnesses.LostSavesCrossJobs` the provider's document misses that a job is done while the
  mode's lists its instance: after the restart the instance goes to a second job, and a poll for the
  first writes its answer onto the second one's resource. Over any run, whatever saves are lost and
  wherever it restarts, jobs stay apart if and only if every submission that reuses the head of the
  warm list finds it untracked or left by a job that is over (`ProviderOwnership.RunsStayLinkedIff`).
  The warm list is another matter: a restart keeps what holds of it if and only if the mode's list is
  duplicate-free and names only resources that are WARM in the provider's document
  (`ProviderRuns.RestartKeepsIff`). The program checks neither; runs whose saves go through meet both.
- The warm list can outgrow `warm_pool_size` after one termination that raised: the evicted instance
  stays WARM but unlisted, and the next pass evicts it once more instead of a listed one
  (`ProviderWitnesses.OneRaisedTerminationOverfills`). In standard mode only the creation of the EC2
  client raises there (`modes/standard.py:2174`); a refused `TerminateInstances` is logged and counts
  as gone through (2190-2222). `WarmPool.ListLength` gives the length of the list after any pass, and
  `WarmPool.OverfillsIff` says from the state before when it exceeds the pool. With terminations that
  go through, and documents that agree at restarts, it never does, failed submissions included
  (`ProviderRuns.WarmListFits`).
- A cancel request can miss instances: `DeleteFleets` may answer with a fleet among its failures
  instead of raising, and then the fall-back never runs (`CancelRequests.RefusedFleetIsMissed`).
  `CancelRequests.CancelIsExactIff` gives the exact condition.
- A job can be launched twice without anybody interfering: EC2 calls a new instance `pending`, the
  bastion writes PENDING back, and the next scan launches the job again
  (`DetachedProtocol.RelaunchHappens`). `LaunchesAreSeparated` says what has to come between two
  launches, `Relaunch.ResetAllowsRelaunch` that any of it is enough, and
  `Relaunch.PendingUpdateRelaunches` that nothing has to fail for it.
- `create_blocks` leaks a launch template when `CreateFleet` dies of anything but a `ClientError`:
  `SpotFleet.AllOrNothingIff`.
- A failed serverless submission keeps its record when its clean-up cannot even get an EC2 client,
  although the clean-up is meant to drop it either way: `ServerlessFleet.ServerlessMode.SubmitJob` and
  `ServerlessFleet.FailedSubmitLeavesNothingIff`.
- A comment in `poll_until` says that clipping the last sleep leaves time for a final attempt. The
  code checks the deadline right after that sleep, so a clipped sleep is never followed by another
  call: in `Retry.PollUntil` every sleep that is followed by a call is a full one.
- The sliding window needs a clock that does not step back the wrong way, and `time.time()` may:
  `SecurityMonitoring.SteppingBackBreaksTheWindow`. Dropping from the front of the deque is filtering
  exactly when no stale entry stands behind a fresh one (`PruningFiltersIff`), and on a log with any
  clock the deque is the naive list throughout if and only if that holds at each matching event and
  nothing already dropped is inside the window again (`DetectorsAgreeIff`).
- The branch of `_yaml_str` that only adds quotes loses strings that hold a quote or a backslash:
  `YamlQuoting.QuotesRoundTripIff`. What it writes bare is a plain scalar (section 7.3.3 of YAML 1.2.2)
  if and only if the string avoids what the guard leaves unchecked, such as a space at either end, a
  dash with a space behind it or a hash behind a space: `YamlQuoting.BareIsPlainIff`.

## Model

| member | source | states |
|---|---|---|
| Provider.EphemeralProvider.Submit | parsl_ephemeral_provider/provider.py:1257-1303 | the state and result of one submit for every way the launch can go: capacity refusal, a fresh id, the head of the warm list, a failure |
| ProviderModel.SubmittedIff | parsl_ephemeral_provider/provider.py:1257-1303 | a submission is reported as one if and only if its job is in `job_map` afterwards, PENDING on the new instance or the head of the warm list; that is when there was room and the mode dispatched it, and otherwise no record changes |
| ProviderModel.SubmitTakesHead | parsl_ephemeral_provider/provider.py:1257-1303 | an attempted reuse takes the head off the warm list even when it fails, and nothing else touches the list; what each exit saves |
| Provider.EphemeralProvider.Status | parsl_ephemeral_provider/provider.py:1331-1398 | the state after a status call, and one answer for each position of the request: for a cached terminal job that status, for a polled one exactly the status this call writes into its record, COMPLETED for a resource the mode no longer names, UNKNOWN for an unknown job and, after a poll that raised, for every job without a cached terminal answer |
| Provider.EphemeralProvider.CachedTerminals | parsl_ephemeral_provider/provider.py:1336-1351 | exactly the cached terminal answers are settled, and the mode is asked about exactly the other known jobs |
| Provider.EphemeralProvider.ApplyPoll | parsl_ephemeral_provider/provider.py:1358-1374 | the loop over positions writes each polled job's own answer into both maps and nothing else, duplicates in the request included, and answers each position by it |
| ProviderModel.PollWrites | parsl_ephemeral_provider/provider.py:1358-1374 | an answered poll leaves a job it asked about with the status the mode named for its resource, or as it was |
| Provider.EphemeralProvider.RestUnknown | parsl_ephemeral_provider/provider.py:1379-1382 | after a poll that raised, every position the cache did not settle is UNKNOWN and no other answer changes |
| Provider.EphemeralProvider.Cancel | parsl_ephemeral_provider/provider.py:1416-1457 | the state after a cancellation, the clean-up pass included, and one flag for each position: true exactly for a known job whose resource the mode named and whose record is written with another status than UNKNOWN |
| Provider.EphemeralProvider.ScaleIn | parsl_ephemeral_provider/provider.py:1758-1784 | the first RUNNING resources in dictionary order are cancelled, and their jobs returned |
| Provider.EphemeralProvider.SelectVictims | parsl_ephemeral_provider/provider.py:1762-1779 | the jobs of the first `blocks` RUNNING resources, in order |
| Provider.EphemeralProvider.CleanupResources | parsl_ephemeral_provider/provider.py:1568-1743 | one whole pass: scan, promotions with evictions, unlisting, termination, dropping of records, save |
| Provider.EphemeralProvider.ScanResources | parsl_ephemeral_provider/provider.py:1571-1612 | the two lists the scan builds, each position judged by its own clock reading |
| Provider.EphemeralProvider.PromoteCompleted | parsl_ephemeral_provider/provider.py:1640-1689 | COMPLETED to WARM one by one, each evicting the oldest WARM resource when the pool is full |
| Provider.EphemeralProvider.UnlistReaped | parsl_ephemeral_provider/provider.py:1693-1704 | pooled resources about to be terminated leave the warm list |
| Provider.EphemeralProvider.ForgetReaped | parsl_ephemeral_provider/provider.py:1712-1718 | terminated resources and the jobs that own them leave both dictionaries |
| Provider.EphemeralProvider.constructor | parsl_ephemeral_provider/provider.py:857-864 | a provider on a store starts from its own document, but with the warm list of the mode's document if there is one; otherwise the mode saves the provider's list |
| ProviderModel.Oldest | parsl_ephemeral_provider/provider.py:1665-1670 | the eviction victim is in the pool and nothing in it has an earlier `warm_since` |
| ProviderInvariants.SubmitKeeps | parsl_ephemeral_provider/provider.py:1257-1293 | a submit, warm reuse included, keeps all six parts of the provider's invariant |
| ProviderInvariants.PolledOwn | parsl_ephemeral_provider/provider.py:1344-1350 | every job a poll asks about owns the resource it points at, and that resource is not WARM |
| ProviderInvariants.VictimsOwn | parsl_ephemeral_provider/provider.py:1762-1779 | every job a scale-in cancels owns its resource and is RUNNING |
| ProviderInvariants.VictimsAreFirst | parsl_ephemeral_provider/provider.py:1762-1779 | the victims are the jobs of the first RUNNING resources in dictionary order, as many as asked for or all there are |
| ProviderInvariants.WriteBackPointwise | parsl_ephemeral_provider/provider.py:1359-1374 | what an answer round does to each record, seen from its own key: only its own answer ever reaches it |
| ProviderInvariants.WriteBackKeeps | parsl_ephemeral_provider/provider.py:1359-1374 | an answer round keeps the invariant and the exactness of the warm list |
| Reaping.ScanReaps | parsl_ephemeral_provider/provider.py:1572-1612 | the scan takes a resource out if and only if it is over and outside the pool, or in the pool and FAILED, CANCELED or INTERRUPTED, or WARM and expired by the reading of its own position |
| Reaping.PassDropsIff | parsl_ephemeral_provider/provider.py:1572-1718 | when its termination goes through, a pass drops a resource, and its job with it, if and only if one of those verdicts holds or it was pushed out of a full pool |
| Reaping.PassLeavesTheRest | parsl_ephemeral_provider/provider.py:1572-1723 | a pass leaves every PENDING, RUNNING and UNKNOWN resource and its job exactly as they are, whatever fails |
| Reaping.FinishedJobsLeave | parsl_ephemeral_provider/provider.py:1358-1398 | a job outside the pool that a poll finds over is forgotten by that same status call, and its resource with it, whenever the provider cleans up at all |
| Reaping.ScaledInAreGone | parsl_ephemeral_provider/provider.py:1758-1784 | every victim of a scale-in whose cancellation the mode confirms is dropped by that same call together with its resource, pooled or not |
| ProviderInvariants.PromotedIff | parsl_ephemeral_provider/provider.py:1593-1595 | exactly the COMPLETED pool resources are promoted, whatever the clock says |
| ProviderInvariants.ReapedOnly | parsl_ephemeral_provider/provider.py:1582-1612 | only finished or WARM resources are reaped, and none that is promoted |
| ProviderInvariants.PromoteAllSound | parsl_ephemeral_provider/provider.py:1642-1689 | after any number of promotions the counted pool, the evicted and the WARM resources add up, and only promoted records changed |
| ProviderInvariants.CleanupKeeps | parsl_ephemeral_provider/provider.py:1561-1743 | a pass keeps the invariant whatever fails; with a successful termination the warm list stays exactly the WARM resources and fits |
| ProviderInvariants.CleanupCaps | parsl_ephemeral_provider/provider.py:1640-1723 | with at most `warm_pool_size` WARM before a pass, the list fits after it whatever the pass meets, and the WARM resources do if its termination goes through |
| ProviderRuns.RestartKeepsIff | parsl_ephemeral_provider/modes/standard.py:726-740 | for each of three promises about the warm list (it names WARM resources only; they fit; it is all of them): from documents that keep it, a restart keeps it if and only if the mode's list is duplicate-free and names only resources that are WARM in the provider's document, and for the third all of them |
| ProviderOwnership.RunsStayLinkedIff | parsl_ephemeral_provider/provider.py:1277-1293 | over every run of submit, status, scale_in and restart, whatever fails and whatever saves are lost: the dictionaries point at each other throughout, and no two unfinished jobs ever share a resource, if and only if every submission that reuses an instance finds it untracked or left by a job that is over |
| ProviderOwnership.ReuseKeepsLinksIff | parsl_ephemeral_provider/provider.py:1277-1293 | one submission that reuses the head of the warm list keeps the links, and keeps jobs apart, if and only if the head is free in that sense |
| ProviderOwnership.SharedPollsCross | parsl_ephemeral_provider/provider.py:1359-1374 | otherwise a poll for the old owner writes its answer onto the resource of the new job, whatever the answer |
| ProviderOwnership.CleanupLinks | parsl_ephemeral_provider/provider.py:1640-1743 | a pass keeps the links whatever fails and whatever the warm list says |
| ProviderOwnership.RunsKeepOwnership | parsl_ephemeral_provider/provider.py:1277-1293 | after every run whose reuses are free in that sense, each tracked resource's job maps back to it, every non-terminal job owns its resource, and no two share one |
| ProviderOwnership.PollsNeverCross | parsl_ephemeral_provider/provider.py:1336-1374 | after any such run a poll changes only records of jobs it asked about, each by the answer for its own resource |
| ProviderOwnership.AgreeingRunsReuseFreely | parsl_ephemeral_provider/provider.py:1724-1743 | documents that agree at every restart are enough for that, and so are saves that go through |
| ProviderRuns.WarmListIsWarm | parsl_ephemeral_provider/provider.py:1682-1704 | after any run whose restarts meet agreeing documents the warm list is duplicate-free and names only WARM resources |
| ProviderRuns.WarmListFits | parsl_ephemeral_provider/provider.py:1640-1689 | when terminations go through, at most `warm_pool_size` resources are WARM and no more are listed, failed warm submissions included |
| ProviderRuns.WarmListIsThePool | parsl_ephemeral_provider/provider.py:1640-1723 | when warm submissions go through as well, the list is exactly the WARM resources |
| ProviderRuns.PersistedRunsRestartSafely | parsl_ephemeral_provider/provider.py:1724-1743 | in a run whose saves go through the two documents agree at every restart, for each of the three promises |
| ProviderWitnesses.LostSavesCrossJobs | parsl_ephemeral_provider/provider.py:1727-1735 | a run in which one lost provider save and a restart make a poll for one job write onto the resource of another |
| ProviderWitnesses.OneRaisedTerminationOverfills | parsl_ephemeral_provider/provider.py:1707-1723 | a run in which everything is granted and saved but one termination, and the list ends with two instances in a pool of one |
| ProviderRuns.TerminalAnswersStick | parsl_ephemeral_provider/provider.py:1331-1398 | a cached terminal answer is repeated by every later status call, raising polls included, until the record is dropped, and UNKNOWN is answered ever after |
| WarmPool.CleanupKeepsNewest | parsl_ephemeral_provider/provider.py:1572-1723 | a pass leaves exactly min(pool size, unexpired WARM + newly COMPLETED) WARM, and nothing it drops among those is newer than anything it keeps |
| WarmPool.PromoteNewest | parsl_ephemeral_provider/provider.py:1664-1689 | at every point of the promotions all evicted resources are at least as old as all kept ones |
| WarmPool.UnexpiredFill | parsl_ephemeral_provider/provider.py:1583-1591 | expired instances that still count in the pool never displace an unexpired one |
| WarmPool.ListLength | parsl_ephemeral_provider/provider.py:1640-1704 | the length of the list after any pass, whatever fails: what the pool counts, less the unlisted or expired WARM resources it did not evict; evictions are one for one in a full pool and otherwise only what does not fit |
| WarmPool.OverfillsIff | parsl_ephemeral_provider/provider.py:1664-1689 | when the clock does not step back, a pass lists more than the pool holds if and only if more were WARM before it than fit, by more than the unlisted or expired ones among those left once the oldest are taken out, one for each newly COMPLETED resource |
| WarmPool.KeepsNewestWarm | parsl_ephemeral_provider/provider.py:1664-1670 | of the WARM resources a pass over a full pool keeps exactly those |
| WarmPool.WithoutOldestKeepsNewest | parsl_ephemeral_provider/provider.py:1665-1670 | as many are left as should be, and none that was taken out is newer than one that is left |
| Capacity.OverlapBound | parsl_ephemeral_provider/provider.py:1257-1293 | with at most k submits between check and recording, at most `max_blocks` + k - 1 resources are ever tracked, and at most `max_blocks` when submits are serial |
| Capacity.OverlapBoundReached | parsl_ephemeral_provider/provider.py:1257-1293 | that bound is reached by some interleaving, for every `max_blocks` and k |
| Capacity.SerialSubmit | parsl_ephemeral_provider/provider.py:1257-1293 | a submit nobody overlaps is its check followed by its recording step |
| Persistence.AdoptPersistedProviderId | parsl_ephemeral_provider/provider.py:1509-1522 | the first of the two documents that carries another id decides, the provider's before the mode's |
| Persistence.OperatingMode.LoadState | parsl_ephemeral_provider/modes/standard.py:717-740 | the fields are restored exactly from a document of the same id, the warm list included, a missing network id keeping the configured one |
| Persistence.SiteHolds | parsl_ephemeral_provider/provider.py:1459-1541 | after any interleaving of saves and successors one id names every document, and each key holds the last document saved under it |
| Persistence.SuccessorRecovers | parsl_ephemeral_provider/provider.py:1485-1541 | the next successor adopts the id of whoever saved and recovers exactly the last saved provider state but for the warm list, which is that of the last saved mode document if there is one |
| Persistence.SuccessorIsRestart | parsl_ephemeral_provider/modes/standard.py:893-929 | that state is the one the restart step of the provider's runs starts from |
| DetachedProtocol.LaunchesAreSeparated | parsl_ephemeral_provider/modes/detached.py:1203-1597 | in every interleaving of client and bastion steps, between two launches of one job its document was set back to PENDING, was deleted, or the write after a launch was lost |
| DetachedProtocol.AtMostOneLaunch | parsl_ephemeral_provider/modes/detached.py:1836-1865 | so a run in which no such step follows a job's launch launches it at most once |
| DetachedProtocol.RelaunchHappens | parsl_ephemeral_provider/modes/detached.py:1732-1740 | a run with two launches of one job, no client step and no lost write between them |
| DetachedProtocol.ResetLeavesPending | parsl_ephemeral_provider/modes/detached.py:1217-1231 | in any run such a step leaves the job without a document or with one the scan takes for pending |
| DetachedProtocol.ReportSays | parsl_ephemeral_provider/modes/detached.py:1239-1597 | a report that is written says RUNNING on the instance or the fleet EC2 named, with the first of its instances as primary, and FAILED when nothing was launched |
| DetachedProtocol.FailureSays | parsl_ephemeral_provider/modes/detached.py:1593-1597 | an error behind the report overwrites it with FAILED, and the instance of the launch is no longer named |
| Relaunch.ResetAllowsRelaunch | parsl_ephemeral_provider/modes/detached.py:1836-1865 | in any run, after such a step for a job still listed, steps of the bastion alone reach another launch of it |
| Relaunch.PendingUpdateRelaunches | parsl_ephemeral_provider/modes/detached.py:1732-1740 | in any run, after an update that writes PENDING for a listed job with no later write queued and no standing request for it, the bastion finishes its iteration without a failure and reaches another launch |
| DetachedProtocol.RunKeepsShape | parsl_ephemeral_provider/modes/detached.py:1213-1231 | in every reachable state the bastion's lists name each job at most once |
| DetachedProtocol.UpdateQueueNeverSubmits | parsl_ephemeral_provider/modes/detached.py:1696-1740 | a status update never writes SUBMITTING or RUNNING |
| DetachedProtocol.StepKeepsSettled | parsl_ephemeral_provider/modes/detached.py:1599-1865 | once a launch is reported, no step but a reset makes the job launchable again |
| DetachedProtocol.OverIsOver | parsl_ephemeral_provider/modes/detached.py:1217-1231 | a job whose document is COMPLETED, FAILED or CANCELED between iterations never leaves those and is never launched again, taking scans as snapshots and the client's PENDING write as past |
| DetachedProtocol.FinishedForGood | parsl_ephemeral_provider/modes/detached.py:1612-1800 | the invariant behind it: nothing the bastion holds locally concerns the job any more, and that stays so |
| BastionLoop.GetPendingJobs | parsl_ephemeral_provider/modes/detached.py:1203-1237 | the listed jobs without a document or with a PENDING or SUBMITTING one, all of them and in listing order, or nothing after a read error |
| BastionLoop.ScanIsGetPendingJobs | parsl_ephemeral_provider/modes/detached.py:1203-1237 | the protocol's scan steps, undisturbed, hand on exactly what the loop returns |
| BastionLoop.UpdateRunningJobs | parsl_ephemeral_provider/modes/detached.py:1695-1740 | what the loop leaves of each document: a fleet that reads RUNNING keeps its job as it is, whatever its primary instance reads; otherwise an instance that does not read RUNNING decides, else a fleet that does not, else nothing changes; instance, fleet and members stay as recorded. The writes are those of the queue in order, twice for a fleet job whose fleet and primary instance both changed |
| BastionLoop.UpdatesAreTheLoop | parsl_ephemeral_provider/modes/detached.py:1695-1740 | the protocol's update steps, undisturbed, leave the documents the loop leaves |
| BastionLoop.AnswersUpdate | parsl_ephemeral_provider/modes/detached.py:1695-1740 | in the protocol: after any answers of EC2 undisturbed update steps leave every document so updated |
| CancelRequests.RunKeepsTruth | parsl_ephemeral_provider/modes/detached.py:1239-1597 | in every reachable state every document records exactly the launch it describes, and no instance belongs to two launches |
| CancelRequests.ReachableDocsAreGenuine | parsl_ephemeral_provider/modes/detached.py:1457-1465 | so the premise of the exactness theorem holds of every run |
| CancelRequests.CollectNamed | parsl_ephemeral_provider/modes/detached.py:1770-1803 | the loop collects exactly the primaries, fleets and members of the named jobs and marks exactly their documents, a name given twice included |
| CancelRequests.CancelsAreTheLoop | parsl_ephemeral_provider/modes/detached.py:1770-1803 | the protocol's cancel steps, undisturbed, leave the documents the loop leaves |
| CancelRequests.DeleteFleets | parsl_ephemeral_provider/modes/detached.py:1809-1818 | deleted fleets terminate their instances, one answer for each position of the list, and one deletion that raises adds every member to the direct terminations |
| CancelRequests.HandleCancelRequests | parsl_ephemeral_provider/modes/detached.py:1745-1834 | what one call terminates, marks and deletes at every exit: nothing to do, a read, termination or deletion of the request that raises, done |
| CancelRequests.NeverBeyondRecorded | parsl_ephemeral_provider/modes/detached.py:1764-1828 | no instance outside the named jobs' documents is terminated |
| CancelRequests.CancelIsExactIff | parsl_ephemeral_provider/modes/detached.py:1764-1828 | exactly the recorded instances are terminated if and only if some deletion raised or every fleet refused inline each time it is listed held a single instance; hence for any subset of raising deletions |
| CancelRequests.RefusedFleetIsMissed | parsl_ephemeral_provider/modes/detached.py:1809-1818 | a run reaches a job on a fleet of two; when its deletion is refused inline, an instance the request names runs on |
| InterruptionMonitor.SpotInterruptionMonitor.QueueWarning | parsl_ephemeral_provider/compute/spot_interruption.py:369-400 | a warning is queued for its instance, else for the first registered fleet that lists it, else nowhere |
| InterruptionMonitor.SpotInterruptionMonitor.PollWarningQueue | parsl_ephemeral_provider/compute/spot_interruption.py:336-367 | each usable message is routed once, in order, to its own instance if registered, else to the first registered fleet that lists it; the others leave no entry |
| InterruptionMonitor.SpotInterruptionMonitor.ProcessInterruptionEvents | parsl_ephemeral_provider/compute/spot_interruption.py:500-533 | the queue is drained: the new calls are, in queue order, one for each event whose instance or fleet is registered and none for any other, each with the handler registered for that instance or fleet |
| InterruptionMonitor.DispatchIsFifo | parsl_ephemeral_provider/compute/spot_interruption.py:500-533 | under any interleaving with register and deregister the dequeued events are a prefix of the queued ones, and all of them once the queue is empty |
| InterruptionMonitor.AtMostOneCall | parsl_ephemeral_provider/compute/spot_interruption.py:336-400 | a received message leads to at most one handler call |
| InterruptionMonitor.ExactlyOneCallIfRegistered | parsl_ephemeral_provider/compute/spot_interruption.py:500-533 | a queued message that is dispatched calls exactly the handler registered at that moment for its instance or its fleet, once, and none if there is none |
| InterruptionMonitor.RoutingIsByRegistration | parsl_ephemeral_provider/compute/spot_interruption.py:369-400 | under any interleaving the registry at the receipt of a warning decides whether it is queued, and for whom |
| InterruptionMonitor.RegisteredWarningIsCalledOnce | parsl_ephemeral_provider/compute/spot_interruption.py:336-533 | if the owner is registered when the warning is received, it is queued, and once the queue is drained it was dispatched exactly once, to the handler registered at that moment for that instance or fleet, or to none if it was taken back |
| Interruption.OperatingMode.ResourceIdsForFleet | parsl_ephemeral_provider/modes/base.py:419-434 | exactly the records keyed by the fleet or carrying it |
| Interruption.OperatingMode.HandleFleetInterruption | parsl_ephemeral_provider/modes/base.py:412-417 | every record backed by the fleet and every tracked warned instance is marked, and nothing else changes |
| Interruption.OperatingMode.GetJobStatus | parsl_ephemeral_provider/modes/detached.py:2041-2093 | every id is answered, a marked record by its mark without being read again |
| Interruption.WarnedStaysInterrupted | parsl_ephemeral_provider/modes/detached.py:2047-2053 | through any sequence of polls and further warnings every resource a handled warning hit stays INTERRUPTED |
| Interruption.InterruptionIsSticky | parsl_ephemeral_provider/provider.py:97-103 | through any run that does not cancel its job, a reclaimed resource is never WARM nor listed for reuse, and every answered status call reports FAILED while it is tracked |
| Interruption.MoveKeepsDoomed | parsl_ephemeral_provider/provider.py:1597-1612 | one submit, poll, scale-in or warning keeps a reclaimed resource reclaimed: by its mark until the provider has cached it, by the cache from then on |
| SpotReclaim.WarningReachesParsl | parsl_ephemeral_provider/modes/base.py:373-417 | in any interleaving of monitor and provider steps, a message received and dispatched while its owner is registered causes that one call, about the instance it names, and from then on every resource it targets is out of the pool and reported FAILED to Parsl |
| SpotReclaim.RegisteredWarningReachesParsl | parsl_ephemeral_provider/compute/spot_interruption.py:336-533 | the two together: from the receipt of a warning whose owner is registered, and still is when the warning is dispatched, to the one call it causes and to FAILED for every job at work on what it targets |
| SecurityMonitoring.SecurityMonitor.Prune | parsl_ephemeral_provider/security/audit.py:213-217 | the `popleft` loop drops exactly the leading entries older than the cutoff, in one counter only |
| SecurityMonitoring.SecurityMonitor.AnalyzeEvent | parsl_ephemeral_provider/security/audit.py:197-252 | the counters keep up with the log for every pattern; for each pattern that fires, and on an ordered log that is by the naive count, exactly one alert is returned, with the pattern's name, severity, threshold and window, the number of matches in the window and the event's origin and id, and nothing else is returned |
| SecurityMonitoring.ReturnedAlertsCount | parsl_ephemeral_provider/security/audit.py:219-250 | over a whole ordered log, the alerts returned for a pattern are as many as the naive count asks for |
| SecurityMonitoring.AlertsAreTheNaiveOnes | parsl_ephemeral_provider/security/audit.py:205-224 | the deque is the naive list of matching timestamps since the last alert within the window, an alert fires exactly when that list reaches the threshold, its count is the threshold, and the cap never cuts |
| SecurityMonitoring.AlertsAreEarned | parsl_ephemeral_provider/security/audit.py:220-250 | alerts times threshold, plus what is still counted, never exceed the matching events, whatever the clock does |
| SecurityMonitoring.BurstsAlertOnTime | parsl_ephemeral_provider/security/audit.py:205-250 | within one window nothing is dropped: every threshold-th match alerts and the counter holds the remainder |
| SecurityMonitoring.PruningFiltersIff | parsl_ephemeral_provider/security/audit.py:211-217 | dropping leading stale entries keeps exactly the entries inside the window if and only if no stale entry stands behind a fresh one |
| SecurityMonitoring.DequeIsNaiveIff | parsl_ephemeral_provider/security/audit.py:205-217 | at a matching event, on any clock, the deque is the naive list of everything since its last alert if and only if that holds and nothing it let go is inside the window again |
| SecurityMonitoring.DetectorsAgreeIff | parsl_ephemeral_provider/security/audit.py:205-250 | on a log with any clock the two lists agree at every matching event, and both detectors alert at the same events, if and only if that condition holds at each of them |
| SecurityMonitoring.OrderedIsSteady | parsl_ephemeral_provider/security/audit.py:211-217 | a clock that never steps back meets the condition |
| SecurityMonitoring.SteppingBackBreaksTheWindow | parsl_ephemeral_provider/security/audit.py:211-217 | three events on a clock that steps back, where the deque fires and the naive count does not |
| Retry.RetryWithBackoff | parsl_ephemeral_provider/error_handling.py:595-637 | every attempt but the last failed and went on; the last returned its value, or its error is re-raised because it was the last allowed or hopeless: of none of the retryable types, or a client error with a code that stays what it is or a status that is not listed; the sleeps are those of the unresolved failures |
| Retry.RetrySleepsWithinBudget | parsl_ephemeral_provider/error_handling.py:128-155 | the total sleep is at most the sum of capped nominal delays with full jitter over all attempts but the last |
| Retry.BudgetReached | parsl_ephemeral_provider/error_handling.py:139-155 | that bound is reached when every draw is the highest |
| Retry.BudgetCapped | parsl_ephemeral_provider/error_handling.py:145-146 | in closed form: n sleeps are at most n times the cap with full jitter |
| Retry.BudgetDoubles | parsl_ephemeral_provider/error_handling.py:139-140 | in closed form: n doubling sleeps are at most (2^n - 1) base delays with full jitter |
| Retry.DelayAtLeast | parsl_ephemeral_provider/error_handling.py:128-155 | no delay is under min(base, max) times one minus the jitter factor |
| Retry.DelayAtMost | parsl_ephemeral_provider/error_handling.py:128-155 | no delay is over the nominal one with full jitter |
| Retry.PlainDelaysAre | parsl_ephemeral_provider/error_handling.py:139-146 | without jitter the first delay, and every one that does not grow, is the least of base and cap, and each growing one is twice the one before until the cap |
| Retry.JitterMoves | parsl_ephemeral_provider/error_handling.py:148-155 | jitter moves a delay by its factor at the two ends of the draw and leaves it in the middle |
| Retry.PollUntil | parsl_ephemeral_provider/error_handling.py:703-731 | the first truthy value is returned; otherwise the deadline has passed; total sleep is at most `timeout`, the calls at most max(1, ceil(timeout / least round)), and only a sleep with no call after it is ever clipped |
| Retry.ErrorsAt | parsl_ephemeral_provider/error_handling.py:703-731 | the errors handed to `on_error` are those of the attempts that raised, all of them and in order |
| SpotFleet.SpotFleetManager.CreateFleet | parsl_ephemeral_provider/compute/spot_fleet.py:680-770 | records and EC2 after one launch, for every point at which it can fail |
| SpotFleet.SpotFleetManager.DeleteLaunchTemplateForBlock | parsl_ephemeral_provider/compute/spot_fleet.py:555-570 | the record goes first, and a failed deletion leaves the template in EC2 |
| SpotFleet.SpotFleetManager.TerminateBlock | parsl_ephemeral_provider/compute/spot_fleet.py:896-928 | fleet, records, instances and template after a termination: the block is CANCELLED and its fleet gone, its template too unless EC2 refuses, and every other block is as it was; a refusal changes nothing and is reported |
| SpotFleet.SpotFleetManager.CreateBlocks | parsl_ephemeral_provider/compute/spot_fleet.py:439-481 | on success all blocks are built; on failure those built are rolled back in order after the failed launch's own clean-up |
| SpotFleet.AllOrNothingIff | parsl_ephemeral_provider/compute/spot_fleet.py:471-481 | after a failed call the live fleets and templates are those from before if and only if every deletion went through and the launch did not die of something other than a `ClientError` |
| SpotFleet.LeftoversAreTracked | parsl_ephemeral_provider/compute/spot_fleet.py:909-928 | whatever deletions fail, a block is CANCELLED exactly when its fleet is gone, and a fleet left behind is still tracked with its template |
| SpotFleet.InstancesFollowTheirFleet | parsl_ephemeral_provider/compute/spot_fleet.py:921-923 | after a failed call every instance of a block that was made is recorded under it, as terminated exactly when its fleet is gone |
| SpotFleet.SuccessCounts | parsl_ephemeral_provider/compute/spot_fleet.py:449-469 | success adds as many blocks, fleets and templates as asked for and nothing else in EC2 |
| SpotFleet.SuccessRecords | parsl_ephemeral_provider/compute/spot_fleet.py:458-467 | every new block records its own live fleet, its own live template and its instances, RUNNING exactly when it has any, and shares none with another block |
| ServerlessFleet.ServerlessMode.ReclaimFleet | parsl_ephemeral_provider/modes/serverless.py:1141-1158 | both deletions are tried and neither failure is raised |
| ServerlessFleet.ServerlessMode.CleanupResources | parsl_ephemeral_provider/modes/serverless.py:1526-1545 | up to the first record of a fleet for which no EC2 client can be had, the named records are dropped and exactly what they name and EC2 grants is deleted, a name given twice included |
| ServerlessFleet.ServerlessMode.CreateJobFleet | parsl_ephemeral_provider/modes/serverless.py:1027-1119 | record, fleet, template and registration at every exit, an unfilled fleet included |
| ServerlessFleet.ServerlessMode.SubmitJob | parsl_ephemeral_provider/modes/serverless.py:467-518 | a submission succeeds exactly when the fleet is filled, registered and saved; a filled fleet whose registration goes through is the one the monitor watches from then on; a failed one leaves no record, and in EC2 exactly what would not be deleted, unless its clean-up cannot start: then its record stays, with the ids; nothing live is ever untracked unless EC2 refused to delete it |
| ServerlessFleet.ReclaimTracked | parsl_ephemeral_provider/modes/serverless.py:1538-1545 | dropping records after a reclaim loses sight only of what EC2 refused to delete |
| ServerlessFleet.FailedSubmitLeavesNothingIff | parsl_ephemeral_provider/modes/serverless.py:1060-1104 | a failed submission leaves EC2 as it was if and only if its clean-up could start and the deletions it needed went through |
| YamlQuoting.ReplacementsArePerChar | parsl_ephemeral_provider/globus_compute.py:269-274 | the four replacements in a row are one escape per character, for every string |
| YamlQuoting.EscapesRoundTripIff | parsl_ephemeral_provider/globus_compute.py:268-275 | reading back what the escape branch writes returns the string if and only if it holds no character below U+0020 but newlines and tabs |
| YamlQuoting.WrittenOnOneLine | parsl_ephemeral_provider/globus_compute.py:268-275 | what the escape branch writes holds no newline and no tab |
| YamlQuoting.QuotesRoundTripIff | parsl_ephemeral_provider/globus_compute.py:276-283 | reading back what the other quoting branch writes returns the string if and only if it holds no quote, no backslash and no character below U+0020 |
| YamlQuoting.BareIsPlainIff | parsl_ephemeral_provider/globus_compute.py:268-284 | a string that is written bare is a plain scalar if and only if it avoids what the guard leaves unchecked |

## Left out

- Each public method of the provider is one atomic step in runs; its lock is dropped during network calls. Only `Capacity.dfy` splits `submit` in two.
- `cancel` is modelled as a method but is not a step of the runs: called for a superseded or a WARM job it writes through a resource another job owns, and leaves a CANCELED id in the warm list. `scale_in` cancels RUNNING owners only.
- `shutdown`, `scale_out`, the listing calls and constructor option guards: each is settled by reading one branch.
- A restart with other settings: `warm_pool_size` shrunk to 0 between runs meets pool records the constructor would not create, and `min()` of an empty pool raises. The model's configuration is fixed for a run.
- `modes/standard.py` appears through its warm list, the document it saves it in, and what it answers: an id that is new or the head of the warm list, and statuses that are never WARM. A document from before it recorded the list, which it then rebuilds from its own records, is not modelled.
- A restart happens between operations: a process that dies between the mode's save and the provider's save of one operation shows as a run in which the second save fails.
- A store that cannot be read at start-up, and an initialisation that raises.
- SUBMITTING, which only detached mode reports, is UNKNOWN in the provider's model: both are reported as `JobState.UNKNOWN` and left alone by the clean-up.
- The mode's interruption marks live in memory between its saves; a restart in `Interruption.dfy` is not a step, so a mark lost with the process is not modelled.
- A mode `cleanup_resources` that raises half-way may have dropped some of its records; `Interruption.dfy` drops a record exactly when the provider drops the resource.
- ProviderOwnership.RunsStayLinkedIff: a run starts on an empty store, because a hand-written document need not satisfy any invariant.
- DetachedProtocol.OverIsOver: takes each scan as a snapshot, because a client deletion between the listing and the status read of the same scan lets a finished job look new.
- The client half of detached mode (`submit_job`, `cancel_jobs`, `cleanup_resources`) appears as the parameter writes and deletions it makes, which is all the bastion sees of it; its own records are modelled in `Interruption.dfy`.
- EC2 answers are arbitrary within their types. One batch of `describe_instances` that fails with `InvalidInstanceID.NotFound` marks the whole batch COMPLETED in the code; here that is one of the answers EC2 may give.
- A message received twice from SQS counts as two messages, because its deletion may fail and is then only logged.
- The post-facto EC2 polls of the interruption monitor only add events to the queue (`PollFinds`); which instances they report is not modelled.
- Handlers and `on_error` callbacks that raise: the monitor logs a raising handler after calling it, and `poll_until` would let a raising `on_error` escape.
- Retry.PollUntil: requires that a round takes some time, that is a positive least delay or a predicate that takes at least `tick`, because otherwise the loop only ends when the clock moves by itself.
- Retry.RetryWithBackoff: the error handler is its verdict on each attempt, because its bookkeeping does not influence the loop otherwise.
- `create_ec2_fleet` that raises after EC2 has created the fleet: the idempotency token is meant for that case, and what EC2 does with it is not modelled.
- `create_blocks` is decorated with `retry_with_backoff`, but what it raises is not in the default list of retryable errors, so one call is one attempt and the model has no retry around it.
- An audit logger that raises between the creation of a fleet and the recording of its block.
- The contents of launch templates, user data, tags, prices, subnet and image choices, the Lambda and CloudFormation paths of serverless mode.
- The event history of `SecurityMonitor` is modelled with its bound of 10000 entries; the metrics computed from it are not.
- What a reader makes of a plain scalar that looks like a number, a boolean or null. YAML 1.1 readers, which also break lines at U+0085, U+2028 and U+2029.
