# A verified model of the incident platform's protocols and algorithms

This Dafny project models the parts of the platform whose correctness is hardest to see by reading,
and proves what they promise.  `dafny verify dfyconfig.toml` checks all of it.

**Artifact leases.**  Any number of processes take shared or exclusive leases on artifact
directories: a writer turnstile ("gate") and a reader/writer domain lock over `flock`, an identity
file that forces a drain when the parent directory or the lease file has changed, an
exclusive-to-shared downgrade that drops one lock before it takes the other, and a data lock.
`LeaseProtocol` is a transition system whose steps are single system calls and checks, crashes that
drop a process's locks, and replacements of the parent directory or the lease file at any time.
`LeaseSafety` holds the invariant, `LeaseTheorems` what follows for every reachable state and every
run, and `LeaseProgress` that leases get on: a release always completes and lets others through, and a
lease that nobody keeps out becomes active.  `LeaseSnapshots` proves what readers see, as far as directories and lease files may move;
`LeaseMoves` builds the runs in which that fails and proves the exact conditions.  `LeaseRegistry` and
`LeaseNesting` model reentrancy inside one thread or task.  `LockOrder` models how readers of several
artifacts and publishers wait for each other, through every lock that a lease takes, and proves when no
circular wait is possible; `LockCircles` builds a run for each way in which one is.

**Atomic publication.**  `PayloadTree`, `DurableVolume` and `Publication` model the staged publisher
over a directory whose changes of names are volatile until it is flushed: a crash may keep or lose
each of them, and unsynced files may come back with any content.  The publisher is a class with the
source's fields; its methods are proved safe at every crash point and at every failing call, and to
publish whenever no call fails.

**Algorithms.**  `Lineage` (cycle test and reachability), `FalseDiscovery` (Benjamini-Hochberg),
`Cusum` (change detection and the sequential test), `Detection` (scoring series, correction per
period, alerts), `AnomalyEvents`, `Matching`, `Survival` (Kaplan-Meier), `Calibration` and
`Contribution` (rate and mix effects) prove each loop equal to a definition without loops, and
prove what that definition gives.  `DetectionTheorems` shows that detection does not look ahead,
`DetectionMeaning` when a row is an anomaly, read off the rows themselves.

**Investigations.**  `Routing` (model fallback), `Investigation` (the bounded loop of provider
answers, governed tool calls and submissions; `InvestigationTheorems` and `InvestigationRounds` prove
what holds of whole runs and how each round ends), `Scoring`, `Ranking` and `ScoringDecisions`
(posteriors and the decision) and `Transcript` (the independent validator and the replay) share the records of
`InvestigationModels`.  Provider and gateway may behave in any way; hashes, name-based identifiers,
the tool policy, parsing, logarithm and exponential are function parameters with stated laws.

`Wrappers`, `Texts`, `Reals`, `Sums` and `Frames` hold options and results, string order, facts about
products and quotients, sums, and selecting and sorting rows.

## Findings

Four promises do not hold of the code on every input.  All are kept as the code has them, with
concrete inputs that fail and the exact condition under which they hold.

- A directory below one stable domain can be moved below another one while a reader is active in it, or
  be found in another domain because permission bits above it have changed, and its lease file can be
  replaced.  A writer of the other domain then meets none of the reader's locks, and the reader reads the
  tree that the writer prunes.  `LeaseMoves.TwoGenerations` builds that run.
  `LeaseMoves.OneGenerationIff`: all reads of all runs are of one generation exactly if a directory that
  may appear in two domains keeps its lease files.  Under the same condition readers read from the tree
  they have validated (`LeaseMoves.AnchorsAreSeenIff`, `LeaseMoves.StaleAnchor`); and the data lock is
  free for whoever gets to it exactly if no lease file is found in two domains
  (`LeaseMoves.DataLocksFreeIff`).  Mutual exclusion within a domain, the sealed downgrade and the
  agreement on one identity need no such condition.
- Sorting roots by path does not by itself keep processes out of circular waits, for five reasons.
  A domain's turnstile is its parent directory, so two sibling domains share one, and a reader of both
  and a writer of the first can wait for each other (`LockCircles.SharedGateDeadlocks`).  That parent can
  itself be a domain, which a reader then waits for although it holds it
  (`LockCircles.OwnLockDeadlocks`).  Below a directory that is not writable a domain can lie inside
  another one, whose roots are then sorted partly before and partly after its own; two readers and two
  writers close a circle although all turnstiles differ (`LockCircles.NestedDomainsDeadlock`).  A directory
  moved to another domain takes its lease file along: a writer there keeps the turnstile while it waits
  for the data lock of a reader that wants that turnstile next (`LockCircles.MovedWorldDeadlocks`; in
  the transition system of the leases, `LeaseMoves.DataLockCloses`).  And observations are published while
  two other artifacts are read under the publisher's lease, in no common order with it: two publishers
  that read from each other's domain wait for each other (`LockCircles.NestedReadsDeadlock`).
  `LockCircles.DeadlockFreeIff`: no circular wait is reachable exactly if no turnstile is another domain
  or its turnstile, the roots of no two domains mix, no lease file is found in two domains, and leases
  are taken inside others only where there is a single domain.
- A reader that downgrades is granted its shared lock at once within its own domain, but a lease of
  another domain may hold the directory as its turnstile (`LeaseMoves.DowngradeWaits`).
  `LeaseMoves.DowngradesFreeIff`: no downgrade of any run waits exactly if no domain is the turnstile of
  another.
- The effects of a decomposition do not always sum to the overall change: a numerator over a
  denominator that is zero counts in the overall rate but in no effect, and the runtime guard then
  raises.  `Contribution.ExactReconstruction` gives the exact difference and the condition for it to be
  zero, `Contribution.StrandedNumeratorFails` a failing input.

Beside these, `Lineage.LineageHasCycle` also answers yes when an edge leaves a node that is neither
listed nor the end of any edge; with endpoints known it answers yes exactly on a cycle.  A tool whose
name has an underscore before an underscore or a dot would not be recognized again after it has been
offered to a provider (`TranscriptTheorems.OfferedNamesComeBack`); no such name is registered.  The
rollback in `commit` cannot be reached, because the fields that it needs are never set together
(`Publication.AtomicDirectoryPublisher.Commit`).

## Model

| member | source | states |
|---|---|---|
| LeaseSafety.EveryStepKeepsInv | src/paic/artifacts/lease.py:717-851 | every system call of any lease, crash, or replacement of any directory or lease file by any other keeps the invariant: lock modes by stage, compatible claims per domain and per lease file, records that holders rely on, staged and retired trees with one owner |
| LeaseSafety.RunKeepsInv | src/paic/artifacts/lease.py:717-909 | the invariant holds throughout every run of any number of processes, wherever directories and lease files are moved |
| LeaseSafety.StepStaysApart | src/paic/artifacts/lease.py:459-483 | a lock that the kernel grants is compatible with what every other lease of the domain claims, the claim of a reader between unlock and relock included |
| LeaseSafety.StepUnnoticed | src/paic/artifacts/lease.py:746-851 | a step of one lease leaves all that any other lease relies on as it was |
| LeaseSafety.RewritesOwnRecord | src/paic/artifacts/lease.py:446-456 | an identity file is changed only by a lease of that artifact that holds gate and domain exclusively |
| LeaseTheorems.WriterExcludesEverybody | src/paic/artifacts/lease.py:717-851 | while a writer is active nobody else of its domain is active, holds the domain in any mode, or stands inside the turnstile |
| LeaseTheorems.GapIsSealed | src/paic/artifacts/lease.py:814-823 | while a downgrading reader holds nothing, nobody else of the domain holds gate or domain, and none of the lock steps of another lease is possible |
| LeaseTheorems.DowngradeNeverWaits | src/paic/artifacts/lease.py:814-823 | where domains are different directories and none is a turnstile the shared lock of the downgrade is granted at once |
| LeaseTheorems.ActiveLeasesAgree | src/paic/artifacts/lease.py:777-840 | all active leases of an artifact in one domain agree on parent and lease inode, and the record names exactly these |
| LeaseTheorems.RecordChangesUnderExclusion | src/paic/artifacts/lease.py:446-456 | a record changes only while the changer holds gate and domain exclusively and no other lease of the domain is active |
| LeaseTheorems.ChangedIdentityDrains | src/paic/artifacts/lease.py:784-800 | a reader that finds the record empty, or naming other inodes, takes the domain exclusively, when no other lease holds it |
| LeaseTheorems.DrainsExactlyWhenChanged | src/paic/artifacts/lease.py:784-800 | the domain lock that a reader is granted is exclusive exactly if the record does not name the two inodes it has opened, and else shared |
| LeaseTheorems.ReaderGrantedExactly | src/paic/artifacts/lease.py:784-800 | a reader is granted the domain exactly if all other holders share it and it need not drain, or there are none |
| LeaseTheorems.SeenWasCurrent | src/paic/artifacts/lease.py:831-839 | every validated lease has seen the tree its path led to at an instant of its own acquisition, domain and data locks taken; no lease was created under its name since |
| LeaseTheorems.HoldersNeverGrow | src/paic/artifacts/lease.py:727-745 | from taking the turnstile until giving it up, the set of other holders of the domain never grows, in any run |
| LeaseTheorems.GrantedExactlyWhenDrained | src/paic/artifacts/lease.py:761-767 | an admitted writer is granted the domain exactly if no other holder is left, under the same proviso |
| LeaseProgress.EveryLeaseCanLeave | src/paic/artifacts/lease.py:868-909 | from every state and at every point of its life a lease can be released: after at most four steps of its own it is gone, and nothing else has changed |
| LeaseProgress.LeavingLetsOthersGo | src/paic/artifacts/lease.py:889-909 | and every step of another lease that it alone had kept back is possible then |
| LeaseProgress.UndisturbedLeaseBecomesActive | src/paic/artifacts/lease.py:717-851 | from every reachable state a lease on its way whose names stay in place and that no lock of another one keeps out becomes active by at most twenty steps of its own: anchored at the tree its path leads to, all locks in its mode, recorded with its inodes |
| LeaseProgress.PublisherReplaces | src/paic/artifacts/publication.py:359-390 | an active publisher can put a new tree under the path of its artifact; no other entry changes |
| LeaseSnapshots.PublisherWorksElsewhere | src/paic/artifacts/lease.py:824-829 | a publisher never works on the entry of a validated lease: the domain lock keeps it out within a domain, the data lock on the common lease file across domains |
| LeaseSnapshots.RunKeepsSnapshots | src/paic/artifacts/lease.py:717-909 | throughout every run the anchor of each active reader is what its entry holds, with one content, if directories that may appear in two domains keep their lease files |
| LeaseSnapshots.ReadsAreOneGeneration | src/paic/artifacts/lease.py:550-590 | then everything read through an active reader's anchor is the one content the tree had on activation and still has, and the tree is still in place |
| LeaseSnapshots.NothingOverlapsARead | src/paic/artifacts/publication.py:359-390 | and no step of anybody publishes over, rewrites or deletes the tree of an active reader |
| LeaseSnapshots.AnchorIsFresh | src/paic/artifacts/lease.py:824-840 | and the anchored tree is the one the path led to at an instant of the reader's own acquisition, all locks taken, however old the anchor prepared before |
| LeaseSnapshots.DataLockNeverWaits | src/paic/artifacts/lease.py:824-829 | where no lease file is found in two domains the data lock is never contended |
| LeaseMoves.DowngradeWaits | src/paic/artifacts/lease.py:544-548 | a domain that is the turnstile of another: a run in which a downgrading reader waits |
| LeaseMoves.DowngradesFreeIff | src/paic/artifacts/lease.py:814-823 | no downgrade of any run waits exactly if no domain is the turnstile of another |
| LeaseMoves.TwoGenerations | src/paic/artifacts/lease.py:281-291 | a directory moved to another domain, its lease file replaced: a run in which one reader reads two generations |
| LeaseMoves.OneGenerationIff | src/paic/artifacts/lease.py:281-291 | all reads of all runs are of one generation exactly if a directory that may appear in two domains keeps its lease files (domains being different directories, no two of them the turnstiles of each other) |
| LeaseMoves.StaleAnchor | src/paic/artifacts/lease.py:663-679 | the same move between validation and activation: a run in which a reader anchors a tree it has not validated |
| LeaseMoves.AnchorsAreSeenIff | src/paic/artifacts/lease.py:663-679 | with distinct turnstiles every reader of every run anchors the tree it validated exactly under the same condition |
| LeaseMoves.DataLockWaits | src/paic/artifacts/lease.py:824-829 | a lease file found in two domains: a run in which a writer waits for the data lock |
| LeaseMoves.DataLockCloses | src/paic/artifacts/lease.py:824-829 | in the same run a further lease stands before the turnstile that the waiting writer keeps |
| LeaseMoves.DataLocksFreeIff | src/paic/artifacts/lease.py:824-829 | the data lock of no run waits exactly if no lease file is found in two domains |
| LeaseRegistry.Context.PushActiveRoot | src/paic/artifacts/lease.py:105-122 | an entry that popping the same root and descriptor undoes, for a descriptor that was not registered |
| LeaseRegistry.Context.PopActiveRoot | src/paic/artifacts/lease.py:125-137 | the root registries after an exit: the last matching entry is gone, an empty list of entries disappears |
| LeaseRegistry.RemoveLast | src/paic/artifacts/lease.py:128-132 | the backwards search removes the last occurrence and nothing else |
| LeaseRegistry.Context.RecordActiveParent | src/paic/artifacts/lease.py:613-628 | counts a parent, or refuses another owner or inode and changes nothing |
| LeaseRegistry.Context.ReleaseActiveParent | src/paic/artifacts/lease.py:613-637 | gives back every registry from which recording the parent has led here |
| LeaseRegistry.ArtifactLease.UnmarkActive | src/paic/artifacts/lease.py:681-697 | registries and fields after unmarking |
| LeaseRegistry.ArtifactLease.Release | src/paic/artifacts/lease.py:868-909 | registries and fields after a release, nested or outermost |
| LeaseRegistry.ArtifactLease.EnterReentrantIfSafe | src/paic/artifacts/lease.py:639-661 | joins or fails exactly if this owner has the domain; takes no lock; counts only this domain, once, and only when it joins; never exclusive inside shared |
| LeaseRegistry.ArtifactLease.MarkActive | src/paic/artifacts/lease.py:663-679 | counts only this domain, once; a refusal leaves the lease, parents and roots alone, though the domain may have been counted |
| LeaseNesting.MarkNeverRefuses | src/paic/artifacts/lease.py:663-679 | but where the registries describe the leases entered marking never refuses |
| LeaseNesting.InnermostAnchor | src/paic/artifacts/lease.py:105-122 | the last entry of a root is the anchor of the lease entered last for it |
| LeaseRegistry.Context.ArtifactPath | src/paic/artifacts/lease.py:147-168 | a path is resolved through the longest root above it that has an anchor of this owner, and otherwise as it stands |
| LeaseNesting.DeepestAnchor | src/paic/artifacts/lease.py:147-168 | after any nesting that is the deepest entered root above the path, at the anchor of the lease entered last for it |
| LeaseRegistry.ArtifactLease.Acquire | src/paic/artifacts/lease.py:859-866 | a whole entry with every way in which it may fail; when it succeeds is LeaseNesting.EntersExactly |
| LeaseNesting.UnmarkUndoesPush | src/paic/artifacts/lease.py:663-697 | leaving the lease entered last restores every registry |
| LeaseNesting.EnterCases | src/paic/artifacts/lease.py:639-661 | an entry either fails and changes no registry, or adds exactly one lease |
| LeaseNesting.RefusalChangesNothing | src/paic/artifacts/lease.py:853-866 | a failed entry leaves all registries as they were |
| LeaseNesting.SuccessExtendsStack | src/paic/artifacts/lease.py:639-679 | a successful entry is nested exactly if the domain was entered already |
| LeaseNesting.EntersExactly | src/paic/artifacts/lease.py:639-679 | where the registries describe the leases entered, an entry succeeds exactly if it may: as the first of its domain if the parent is known, the locks are granted, the root is not unreachable and a reader gives the turnstile back; as a further one if the parent is where all leases below it found it and still current, the root is not unreachable, and nobody who writes is nested below readers; and the lease and registries after it |
| LeaseNesting.RunDescribes | src/paic/artifacts/lease.py:597-697 | after any nesting of entries, failures and exits the registries are those of the leases still entered |
| LeaseNesting.NestedRun | src/paic/artifacts/lease.py:597-697 | the count of a domain is the nesting depth and the sum of its parents' counts; the last exit empties all registries |
| LeaseNesting.LocksHeldThroughout | src/paic/artifacts/lease.py:639-661 | below every nested lease the one that took the locks still holds them, exclusively if a nested one is exclusive |
| LeaseNesting.NestedExclusiveRefused | src/paic/artifacts/lease.py:647-648 | an exclusive entry nested in a shared one is refused and changes nothing |
| LockOrder.PrefixesDecide | src/paic/artifacts/lease.py:1008 | texts that begin with two unrelated prefixes are ordered like the prefixes |
| LockOrder.FamiliesAreContiguous | src/paic/artifacts/lease.py:1008 | every sorted list holds the roots of each domain together exactly if the roots of no two domains mix |
| LockOrder.SortedRootsAscend | src/paic/artifacts/lease.py:1008-1021 | sorted roots touch their domains first in an order in which each has a root sorted before one of every later domain, nested domains included |
| LockOrder.UnnestedFamiliesApart | src/paic/artifacts/lease.py:994-1021 | where no domain is above another the roots of no two domains mix |
| LockOrder.WaitsAscend | src/paic/artifacts/lease.py:717-851 | whoever blocks a process and waits itself waits further on: in a later domain, or in the same one for domain after turnstile and lease file after domain |
| LockOrder.NoCircle | src/paic/artifacts/lease.py:717-851 | no state of any run, turnstiles, domains, downgrades and data locks included, has a circular wait if turnstiles are apart, roots do not mix, lease files stay in their domains and leases are not nested across domains |
| LockCircles.SharedGateDeadlocks | src/paic/artifacts/lease.py:281-291 | two domains below one turnstile: a run of a reader of both and a writer of the first ends in a circular wait |
| LockCircles.OwnLockDeadlocks | src/paic/artifacts/lease.py:544-548 | a domain that is the turnstile of another: a reader of both waits for the lock it holds |
| LockCircles.GateIsDomainDeadlocks | src/paic/artifacts/lease.py:544-548 | the same two domains sorted the other way: a reader and a writer wait for each other |
| LockCircles.MixedFamiliesDeadlock | src/paic/artifacts/lease.py:1008-1021 | two domains whose roots mix: two readers and two writers wait in a circle although all turnstiles differ |
| LockCircles.NestedDomainsDeadlock | src/paic/artifacts/lease.py:261-291 | three paths with a domain inside another one for which that happens |
| LockCircles.MovedFileDeadlocks | src/paic/artifacts/lease.py:824-829 | a lease file that may be moved between two domains: a run of a reader of both and a writer of the second ends in a circular wait |
| LockCircles.MovedWorldDeadlocks | src/paic/artifacts/lease.py:262-291 | two paths in unrelated domains, with turnstiles of their own, for which that happens |
| LockCircles.NestedReadsDeadlock | src/paic/recovery/observations.py:167-197 | publishers that read artifacts of each other's domain before they commit wait for each other, whatever the two domains |
| LockCircles.DeadlockFreeIff | src/paic/artifacts/lease.py:717-851 | no circular wait is reachable exactly if no turnstile is another domain or its turnstile, the roots of no two domains mix, no lease file is found in two domains, and leases are taken inside others only where there is a single domain |
| PayloadTree.DurableSurvives | src/paic/artifacts/publication.py:84-96 | a flushed tree has one crash image, its content |
| PayloadTree.OnlyDurableSurvives | src/paic/artifacts/publication.py:84-96 | a tree with an unflushed part has a crash image that is not its content |
| PayloadTree.FsyncPayloadTree | src/paic/artifacts/publication.py:84-96 | flushing keeps the content; on success the tree is durable and without links or special files; without a failing call every such tree succeeds |
| DurableVolume.CrashTargetIsCandidate | src/paic/artifacts/publication.py:359-390 | what a crash may leave under the target name, with unsynced changes kept or lost arbitrarily, is exactly the computed set |
| Publication.StagingIsInvisible | src/paic/artifacts/publication.py:253-261 | work on the staged tree cannot be seen through the target at any crash |
| Publication.InstalledIsSafe | src/paic/artifacts/publication.py:366-380 | after the exchange or rename every crash leaves what a crash before could leave, or exactly the new tree |
| Publication.SafeLeavesWholeTrees | src/paic/artifacts/publication.py:366-380 | so with a flushed old tree every crash leaves the complete old tree (nothing if there was none) or the complete new one |
| Publication.UnflushedIsUnsafe | src/paic/artifacts/publication.py:359-366 | without flushing the payload first the same exchange can leave a broken tree |
| Publication.SecuredIsNew | src/paic/artifacts/publication.py:381-383 | once the directory is flushed every crash leaves the complete new tree |
| Publication.AtomicDirectoryPublisher.Enter | src/paic/artifacts/publication.py:299-357 | entering leaves the target alone; without a failing call it succeeds exactly if no target must be kept, nobody else writes and one of the random names is free, and otherwise leaves all names as they were |
| Publication.AtomicDirectoryPublisher.Install | src/paic/artifacts/publication.py:366-380 | the committed flag is set exactly if the names were exchanged, and the backup names the old tree |
| Publication.AtomicDirectoryPublisher.Settle | src/paic/artifacts/publication.py:381-389 | the old tree is deleted only after the exchange is durable; without a failing call it is |
| Publication.AtomicDirectoryPublisher.Commit | src/paic/artifacts/publication.py:359-415 | safe at every crash point; without a failing call every payload without links and special files is published: the target leads to the staged tree, old tree and staging name are gone, no other name changes; committed exactly if the target leads to the new tree; otherwise the staged tree is still there, unpublished; a backup implies committed; each error reported matches the file system, and with uncertain durability the old tree is intact |
| Publication.AtomicDirectoryPublisher.Exit | src/paic/artifacts/publication.py:417-487 | leaving, from any state that entering or commit ends in, does not touch the target; if clean, exactly the staging name and the own writer lock are gone, and without a failing call it is clean |
| Publication.Publish | src/paic/investigation/artifact.py:60-77 | enter, fill the staging directory, commit and leave: every state of the whole trail is safe against the state before entering, whatever fails; published means that every crash leaves the new tree, not committed that the target is as before; without a failing call it publishes exactly if entering is possible and the payload has no links or special files, and then the only name that has changed is the target, which leads to the payload |
| Publication.SameTargetSameCrashes | src/paic/artifacts/publication.py:299-357 | what entering and leaving keep is what a crash may leave under the target name |
| Lineage.LineageHasCycle | src/paic/evidence/engine.py:564-579 | for any nodes and edges, repeated and looping ones included: yes exactly on a directed cycle, or an edge out of an unknown node |
| Lineage.Relax | src/paic/evidence/engine.py:574-578 | settling the edges of one node queues exactly the nodes that become free |
| Lineage.OrderedIsAcyclic | src/paic/evidence/engine.py:570-579 | an order in which every edge leads forward excludes cycles |
| Lineage.BackwardsCloses | src/paic/evidence/engine.py:579 | nodes left over, each with a predecessor left over, contain a cycle |
| Lineage.ReachableFrom | src/paic/evidence/validation.py:122-129 | the expansion terminates with exactly the nodes that a walk from a source reaches |
| FalseDiscovery.BenjaminiHochberg | src/paic/detection/statistics.py:207-223 | every adjusted value is the least of 1 and the bounds of all values not below it, whatever the input, non-finite values included |
| FalseDiscovery.StepUp | src/paic/detection/statistics.py:207-223 | an adjusted value is at most alpha exactly if the value is among those that the step-up procedure rejects |
| FalseDiscovery.RejectsExactly | src/paic/detection/statistics.py:207-223 | the same without ranks and for any alpha: exactly if some value not below it is at most the share of alpha that belongs to the number of values not exceeding that one |
| FalseDiscovery.AdjustedIsMonotone | src/paic/detection/statistics.py:207-223 | larger values get larger adjusted values, equal ones equal |
| FalseDiscovery.AdjustedFollowsPermutation | src/paic/detection/statistics.py:207-223 | permuting the values permutes the adjusted values |
| FalseDiscovery.ClampIsIdle | src/paic/detection/statistics.py:222 | the clamp by the cleaned value never changes the running minimum |
| FalseDiscovery.RunningMinimumAdjusts | src/paic/detection/statistics.py:218-222 | the reverse running minimum over the sorted list is the adjusted value |
| Cusum.SideIsGreatestTail | src/paic/detection/engine.py:316-317 | a side is the greatest sum of a suffix, the empty one included; while positive its start is the latest suffix start that attains it |
| Cusum.CusumState.Update | src/paic/detection/engine.py:309-323 | after any history: both sides, detection exactly on a crossing from below, and the start of the greater side as estimate |
| Cusum.EstimateExplainsScore | src/paic/detection/engine.py:322-323 | the estimated start is the latest from which the observations exceed the drift by the whole score |
| Cusum.SequentialState.Update | src/paic/detection/engine.py:326-335 | after any history: the sequential score, alerts exactly on a crossing from below |
| Cusum.EvidenceIsGreatest | src/paic/detection/engine.py:329-331 | the sequential score is the greatest sum of log likelihood ratios over all recent starts, in either direction |
| Cusum.GainIsLogRatio | src/paic/detection/engine.py:329-330 | the increment is the log likelihood ratio of a shifted against an unshifted standard normal observation |
| Detection.ScoreSeries | src/paic/detection/engine.py:347-526 | the loop over the rows of a series, detector objects included, gives each row the observation its own past determines |
| Detection.Group | src/paic/detection/engine.py:535-540 | a group for every family of tested rows, with the indices of all its members |
| Detection.CorrectAll | src/paic/detection/engine.py:533-547 | rewriting the rows group by group gives every tested row the adjusted p-value of its family and changes nothing else |
| Detection.DetectAlerts | src/paic/detection/engine.py:550-614 | alerts of a frame: scores, correction, then the decision row by row; what the decision is, DetectionMeaning.RowHasAlert states |
| DetectionTheorems.ScoresCut | src/paic/detection/engine.py:338-530 | scores up to a period are the scores of the rows up to it |
| DetectionTheorems.FdrCut | src/paic/detection/engine.py:533-547 | correction up to a period is the correction of the rows up to it |
| DetectionTheorems.NothingIsAnticipated | src/paic/detection/engine.py:338-614 | whatever is changed, added or removed after a period, in any series, every score, adjusted p-value and alert up to it stays the same |
| DetectionTheorems.AlertsForgetOrder | src/paic/detection/engine.py:341-547 | the order in which series and their rows are listed does not show in the alerts |
| DetectionTheorems.NothingIsAnticipatedInAnyOrder | src/paic/detection/engine.py:338-614 | nothing is anticipated either where later rows change the order in which series appear |
| DetectionTheorems.BaselineLiesInThePast | src/paic/detection/engine.py:487 | where periods increase, the last period of a baseline lies strictly before the scored period |
| DetectionMeaning.RowHasAlert | src/paic/detection/engine.py:550-614 | every row of every series has an alert, which is an anomaly exactly if the row is eligible, the step-up procedure rejects its p-value within its grain and period, it is far enough from the expected value, in proportion or as such, and enough of four conditions hold: distance in scales, significance, a suffix of the drifts fed so far, or of the log likelihood ratios, whose sum reaches the threshold |
| DetectionMeaning.AlertHasRow | src/paic/detection/engine.py:550-614 | and every alert is that of a row |
| DetectionMeaning.AlertCount | src/paic/detection/engine.py:550-614 | there are as many alerts as rows |
| DetectionMeaning.BaselineIs | src/paic/detection/engine.py:357-373 | a baseline is the aligned points of the lookback window, in order, if there are enough of them, and else the whole window |
| DetectionMeaning.DetectionsAre | src/paic/detection/engine.py:309-335 | a change is detected, and a shift alerted, in the row in which it has first added up |
| DetectionMeaning.FamilyOfFrame | src/paic/detection/engine.py:535-547 | the p-values corrected together are those of all eligible rows of one grain and period, in whatever order they come |
| AnomalyEvents.GroupAnomalies | src/paic/detection/engine.py:621-631 | events are gapless runs, separated by gaps, that hold all periods in order |
| AnomalyEvents.SplitIsUnique | src/paic/detection/engine.py:621-631 | there is only one such grouping |
| Matching.NearestNeighborMatches | src/paic/impact/statistics.py:74-93 | the greedy matching: each unit takes the preferred control still unused at its turn if that is within the caliper |
| Matching.GreedyIsMaximalMatching | src/paic/impact/statistics.py:74-93 | the result pairs disjointly within the caliper, and no pair could be added |
| Matching.GreedyIsDetermined | src/paic/impact/statistics.py:74-93 | turns and preference determine the result |
| Matching.AtLeastHalfOfBest | src/paic/impact/statistics.py:74-93 | any other matching within the caliper is at most twice as large |
| Matching.HalfCanBeAllThereIs | src/paic/impact/statistics.py:74-93 | and four scores with their logits show that it can be twice as large |
| Survival.KaplanMeier | src/paic/impact/statistics.py:141-172 | one row per distinct time: counts at risk, with event and censored; the product estimate; bounds by the survivors and by the events so far; bands from Greenwood's sum |
| Survival.EstimateBounds | src/paic/impact/statistics.py:141-172 | the estimate is at least the fraction that went beyond the time and at most one minus the fraction of events so far |
| Survival.RiskDrops | src/paic/impact/statistics.py:153-156 | from row to row exactly those leave who had their event or were censored |
| Survival.UncensoredIsFraction | src/paic/impact/statistics.py:157-158 | with nothing censored the estimate is the fraction of all whose time lies beyond |
| Calibration.CalibrationReport | src/paic/evaluation/scoring.py:106-149 | the error cases, and otherwise bins and error as defined over the included cases |
| Calibration.BinContains | src/paic/evaluation/scoring.py:126-133 | the bounds of a case's bin contain its confidence; only the last bin contains its upper bound |
| Calibration.SizesSum | src/paic/evaluation/scoring.py:128 | the bins hold every included case exactly once |
| Calibration.CaseAt | src/paic/evaluation/scoring.py:106-128 | the case of a prediction that counts has the probability of its first hypothesis and is correct exactly if that is acceptable |
| Calibration.BinMeans | src/paic/evaluation/scoring.py:128-147 | the mean confidence of a bin is the mean over its cases and lies within its bounds; its accuracy is the fraction of correct ones |
| Calibration.ErrorTimesCases | src/paic/evaluation/scoring.py:128-149 | the error times the number of cases is the sum over the bins of the distance between summed confidence and correct cases |
| Calibration.ErrorBounds | src/paic/evaluation/scoring.py:128-149 | the calibration error is at most one and at least the distance between mean confidence and accuracy |
| Calibration.NoCasesNoError | src/paic/evaluation/scoring.py:148-149 | without included cases the error is zero |
| Contribution.DecomposePair | src/paic/analytics/contribution.py:50-146 | rows, skipped pairs and the guard for one pair of periods |
| Contribution.TotalIsWeightChange | src/paic/analytics/contribution.py:89-91 | rate and mix effect together are the change of the weighted rate of the cohort |
| Contribution.ExactReconstruction | src/paic/analytics/contribution.py:50-146 | the effects miss the overall change by exactly the change of the stranded share, so they sum to it exactly if that share is the same in both periods |
| Contribution.GuardIsSilent | src/paic/analytics/contribution.py:131-144 | where every cohort with a numerator has a positive denominator the effects sum exactly to the overall change |
| Contribution.StrandedNumeratorFails | src/paic/analytics/contribution.py:140-144 | two periods for which the guard fires |
| Contribution.SharesSumToOne | src/paic/analytics/contribution.py:79-87 | the shares of a period sum to one |
| Contribution.SwapNegates | src/paic/analytics/contribution.py:88-90 | swapping the periods negates every effect |
| Contribution.EachEffectIsOfItsKind | src/paic/analytics/contribution.py:77-91 | equal shares make the mix effect zero and the rate effect the share times the change of the rate; equal rates make the rate effect zero and the mix effect the rate times the change of the share |
| Contribution.RatesAndShares | src/paic/analytics/contribution.py:77-87 | rates are quotients of a cell, shares quotients of its denominator and the volume of the period |
| Scoring.ScoreProposal | src/paic/investigation/probability.py:28-113 | the scorer's loops compute the score function, refusals included |
| ScoringTheorems.PosteriorsAreBayes | src/paic/investigation/probability.py:61-64 | posteriors from shifted exponentials are Bayes' rule: prior times likelihood ratios over their total |
| ScoringTheorems.PosteriorsSumToOne | src/paic/investigation/probability.py:63-64 | posteriors sum to one and lie strictly between 0 and 1 |
| ScoringTheorems.RaisingOneRatio | src/paic/investigation/probability.py:49-64 | raising one likelihood ratio raises its hypothesis and lowers all others |
| ScoringTheorems.EntropyInUnit | src/paic/investigation/probability.py:94-101 | the normalized entropy lies between 0 and 1 (Gibbs' inequality) |
| ScoringTheorems.NumbersInUnit | src/paic/investigation/probability.py:93-113 | entropy, margin and confidence lie between 0 and 1, and the clamp of the confidence never acts |
| ScoringTheorems.ConcludedLeads | src/paic/investigation/probability.py:103-121 | a concluded report names the hypothesis that leads every other by the minimum margin, is probable enough and cites enough distinct evidence |
| ScoringDecisions.VerdictSays | src/paic/investigation/probability.py:90-121 | over posteriors given by Bayes' rule: a report concludes exactly if the foremost hypothesis is probable enough, leads every other by the minimum margin and cites enough distinct evidence, and the entropy is low enough; it names that hypothesis, and margin, entropy and confidence are those of the posteriors |
| ScoringDecisions.AcceptedExactly | src/paic/investigation/probability.py:28-112 | a proposal is accepted exactly if it cites only what was observed, keeps its ratios in bounds, and either concludes or gives an unknown and a next step; each refusal names what is missing |
| ScoringDecisions.HypothesesAreListed | src/paic/investigation/probability.py:65-90 | every hypothesis is listed with prior, posterior and log score, and with the evidence that supports it and that which contradicts it |
| ScoringTheorems.OrderDoesNotMatter | src/paic/investigation/probability.py:49-113 | proposals with the same hypotheses in any order get the same verdict |
| Ranking.RankRanks | src/paic/investigation/probability.py:90 | ranking permutes the hypotheses into order |
| Ranking.RankingIsUnique | src/paic/investigation/probability.py:90 | there is only one such order |
| Routing.RotationVisitsEachOnce | src/paic/investigation/router.py:41-42 | the rotation starts at the preferred route and visits every route once |
| Routing.DecidingTurnDecides | src/paic/investigation/router.py:43-81 | the first turn that answers, fails for good, spends the budget or asks the last route decides the result, the failure count and the preferred route |
| Routing.EveryTurnIsLogged | src/paic/investigation/router.py:48-71 | every turn up to the deciding one is logged in order, and nothing else: model, success, retryable or fatal failure, error code and token counts |
| Routing.FailuresCounted | src/paic/investigation/router.py:48-60 | the failure count is the number of failures in the log |
| Routing.ModelRouter.Complete | src/paic/investigation/router.py:34-81 | one call changes the router as the fallback function says |
| Investigation.Invoke | src/paic/tools/gateway.py:280-359 | the gateway echoes the call identifier, normalizes arguments by the policy, succeeds exactly if the call is allowed and can be executed, passes on what was produced, and reports the error codes the validator expects |
| Investigation.Investigator.AppendEvent | src/paic/investigation/orchestrator.py:50-63 | one event more, and a valid hash chain stays valid |
| Investigation.Investigator.SubmitProposal | src/paic/investigation/orchestrator.py:184-229 | one event in any case and never a stop; an accepted report is one that the validator's rescoring reconstructs, on the evidence, trace and tokens of the run so far; when it is accepted is InvestigationRounds.RoundReturnsExactly |
| Investigation.Investigator.InvokeTool | src/paic/investigation/orchestrator.py:230-292 | observed evidence stays that of the successful trace entries; a counted call that goes on has exactly one entry and one event; a stop records nothing; the budget is exceeded only by the call that stops for it |
| Investigation.Investigator.Run | src/paic/investigation/orchestrator.py:127-293 | the loop over rounds runs as the run function says |
| InvestigationTheorems.ReturnedRunsAreAccepted | src/paic/investigation/artifact.py:276-400 | for every behaviour of providers and gateway, a run that returns has written an artifact in which the validator finds no issue |
| InvestigationTheorems.ReturnedRunsReplay | src/paic/investigation/artifact.py:403-490 | where the gateway depends on the request alone, the replay of a returned run succeeds |
| InvestigationTheorems.ReturnedRunsKeepBudgets | src/paic/investigation/orchestrator.py:127-239 | rounds, tool calls and tokens of a returned run stay within their budgets |
| InvestigationTheorems.ReportsAccountForEverything | src/paic/investigation/orchestrator.py:127-139 | the report counts the tokens of all provider events, lists one attempt for each of them and each failure, and was reached within the failure budget |
| InvestigationTheorems.RunAccounts | src/paic/investigation/orchestrator.py:127-293 | a run that stops short of a report has exceeded the budget it names, or used up its rounds with everything kept; failures exceed their budget by at most one |
| InvestigationTheorems.CitedEvidenceWasObserved | src/paic/investigation/orchestrator.py:259-262 | every cited record was returned by an earlier successful governed call |
| InvestigationRounds.RoundReturnsExactly | src/paic/investigation/orchestrator.py:184-229 | a round returns a report exactly if its answer is within the token budget, makes one call, of the submission tool, and proposes what parses and is acceptable on the evidence of the trace |
| InvestigationRounds.ReturnedReportSays | src/paic/investigation/orchestrator.py:187-229 | the report is about this request, trace, attempts and tokens, and its verdict is the score of the proposal |
| InvestigationRounds.RepliedCallAddsEntry | src/paic/investigation/orchestrator.py:230-292 | an allowed call within the budgets that is answered from the run's own sources adds exactly the gateway's reply to the trace, and its evidence if it succeeded |
| InvestigationRounds.RoundStopsExactly | src/paic/investigation/orchestrator.py:134-258 | a round stops the run exactly for too many tokens, one tool call too many, a gateway that raises, or a successful reply from other sources |
| InvestigationRounds.RoundGoesOn | src/paic/investigation/orchestrator.py:134-292 | in every other round the run goes on with the tokens counted, and trace, evidence and events as the answer has it |
| InvestigationRounds.RunIsItsRounds | src/paic/investigation/orchestrator.py:127-293 | a run is its rounds: each takes its log from the one before, none but the last returns or stops, and the last ends the run as its answer says, when all routes fail, or because rounds are used up |
| InvestigationRounds.RunReturnsExactly | src/paic/investigation/orchestrator.py:127-293 | a run returns a report exactly if one of the rounds it plays proposes an acceptable one |
| Transcript.ChainIsValid | src/paic/investigation/artifact.py:352-368 | the validator's loop accepts exactly valid hash chains |
| Transcript.EntryIssues | src/paic/investigation/artifact.py:229-263 | no issue exactly if the trace entry matches the provider's call |
| Transcript.TranscriptSemanticIssues | src/paic/investigation/artifact.py:196-270 | no issue exactly if every tool result and verdict answers the provider event before it and results and trace match one to one |
| Transcript.VerifyReport | src/paic/investigation/probability.py:139-153 | accepts exactly the reports that scoring again reconstructs |
| Transcript.ValidateInvestigation | src/paic/investigation/artifact.py:276-400 | no issue exactly in accepted artifacts |
| Transcript.ReplayGovernedToolTrace | src/paic/investigation/artifact.py:403-490 | succeeds exactly if every entry is what the gateway says now and the observed evidence is that of the successful entries |
| TranscriptTheorems.LastHashPinsTranscript | src/paic/investigation/artifact.py:352-368 | with a collision-free hash, valid chains that end in the same hash are identical, whatever their lengths |
| TranscriptTheorems.CallIdsAreDistinct | src/paic/investigation/artifact.py:236-243 | no two governed calls of a paired transcript share an identifier |
| TranscriptTheorems.TraceIsGoverned | src/paic/investigation/artifact.py:196-263 | in a paired transcript every trace entry answers the single call of the provider event before it, has its arguments as the policy normalizes them, succeeded only with the policy's leave, and else has the error code of the policy |
| TranscriptTheorems.OfferedNamesComeBack | src/paic/investigation/prompts.py:13-18 | a tool name survives the way to the provider and back exactly if no underscore stands before an underscore or a dot |
| TranscriptTheorems.ReplayedCitationsAreReal | src/paic/investigation/artifact.py:484-490 | in an accepted artifact that replays, every cited record comes back from the gateway |

## Left out

- System calls, descriptors, permission bits, symbolic links of parents, `/proc` paths and the format of
  the identity file: locks, inode identity, exchange, flush and removal are abstract steps that may fail.
- Waiting and timeouts: a lock that is not granted is a step that is not enabled, and giving up is a
  release at any point.
- LeaseRegistry.ArtifactLease.Acquire: the locks taken by an outermost acquisition are one outcome,
  granted or not; their order and the revalidations between them are in LeaseProtocol.
- LeaseSnapshots.AnchorIsFresh: states freshness for the lease that takes the locks itself; a nested lease
  keeps an anchor prepared before.
- LeaseNesting.NestedRun: one owner; registries are per thread or task in the source too.
- Publication.AtomicDirectoryPublisher.Enter: the lease around a publication is not part of the publisher
  here, and the 128 random names are given.
- Publication.AtomicDirectoryPublisher.Commit: the rollback branch is not written out, since it is proved
  unreachable; notes on errors and the result record are not modelled.
- LockCircles.DeadlockFreeIff: each root has one domain and each directory one path; permission bits that
  change a domain while leases are held are in LeaseProtocol, not here.
- LeaseNesting.RunDescribes: each parent path has one domain for the time in which leases are entered.
- Floating point: numbers are exact reals, so rounding (for example an entropy slightly above one for
  equal posteriors) is not modelled.
- Survival.KaplanMeier: the normal quantile and the square root are parameters.
- Detection.ScoreSeries: robust location and scale, p-value mass functions, seasonal alignment, intervals,
  directions, labels and the severity scale are parameters or not modelled; the division of the table into
  series is given.
- Contribution.DecomposePair: the sorted list of cohorts is given; pairing of periods, labels, contribution
  shares and quality flags are not modelled.
- Scoring.ScoreProposal: titles, rationales, falsifiers and summaries are carried unchanged and not
  modelled; sorted lists without duplicates are sets.
- Investigation.Investigator.Run: the object stands for one run, its fields for the run's local
  variables; chat messages, request validation and binding of sources are not modelled; error texts in
  events are constants; a provider or gateway may answer in any way, numbered by the requests made so far.
- Transcript.ValidateInvestigation: file layout, file hashes, the success marker and the request receipt are
  not modelled.
- SHA-256, name-based UUIDs and canonical JSON are functions; injectivity is assumed only where stated.
- Logistic and Cox fits, bootstrap, concordance, Brier score, single-case scoring and aggregates,
  recovery, remediation, configuration, manifests, storage, command line and web: plumbing, or expressions
  whose meaning is their text.
