# Verified models of the orchestrator control plane and its neighbours

This project models the parts of the repository whose promises are hardest to see from any one
function, and proves those promises for every input and every run.

* **Federation protocol** (`Federation.dfy`, `FederationLocal.dfy`, `FederationSafety.dfy`,
  `FederationOutcomes.dfy`, `FederationPending.dfy`, `FederationStranding.dfy`,
  `FederationLiveness.dfy`, `FederationWitness.dfy`, `FederationStore.dfy`). Standalone authorities
  hand their leadership to a successor by exchanging receipts only: prepare, stage, finalize,
  activate, enable, abort. The world is a map of authorities and the log of issued receipts;
  receipts may be delayed, repeated or lost. Every receipt a request shows is assumed to have been
  issued, because its digest is not a signature, and digests are taken as injective, so a receipt
  stands for its digest.
* **One authority** (`PlaneModel.dfy` and the other `Plane*.dfy` files). Tasks, claims, fencing
  tokens, leases, capacity, the blocked queue and idempotent replay. `PlaneModel.Apply` is one
  transaction on values; `PlaneStore.Plane` is the same as an object whose tables are rewritten in
  place, with loops, savepoints and rollback, and is proved equal to it. `PlaneInvariants`,
  `PlaneSteps`, `PlaneAudits` and `PlaneRuns` carry the invariant from rows to steps to runs and
  say exactly which requests break it; `PlaneReplay`, `PlaneLedger`, `PlaneTokens` and
  `PlaneLimits` hold the results about retransmission, stored rules and samples, tokens and leases,
  and the places where the code keeps less than one expects.
* **Algorithms of the control plane**: `Policy.dfy` (rule resolution), `Durations.dfy` (lanes and
  learned priors), `Scheduler.dfy` (resource scheduling), `Targets.dfy` (ownership overlap).
* **Receipt feed**: `ReceiptFeed.dfy` (deduplication, cycle check, runnability) and
  `FeedPointers.dfy` (publish and rollback, one atomic write at a time).
* **Migration guard** (`SqlScanner.dfy`), **manifest merge** (`ConvergentManifest.dfy`) and
  **envelope codec** (`Envelope.dfy`).

`Basics.dfy`, `Sorting.dfy`, `Histories.dfy` and `Identifiers.dfy` hold shared shapes, the laws of
stable sorting, filtering and mapping, what repeated deliveries do to a run, and the names requests
may carry. `dafny verify dfyconfig.toml` checks the project.

Four facts about the code that a reader may not expect, each proved here:

* Resuming a blocked task never looks at capacity, so occupancy can pass it. A committed request
  keeps occupancy within capacity exactly when there was room before it or it makes no resume that
  a slot freed in the same transaction does not pay for (`PlaneRuns.StepFitsExactly`,
  `PlaneRuns.RunFitsExactly`); such resumes bound how far a run can go
  (`PlaneRuns.EveryRunIsSafe`), and from every valid ledger a run of five valid requests meets the
  bound (`PlaneLimits.QueueCanOverfill`; `PlaneLimits.SomeScene` gives one).
* The audits of one request are not checked for repeated tasks. If the one task that ranks first
  for resuming is also archived, it runs on without a claim, unless the request is the handback of
  that very task, which ends it anyway. In every other case claims and states agree. The condition
  is exact for every request and over runs (`PlaneAudits.Intact`, `PlaneRuns.StepConsistentExactly`,
  `PlaneRuns.RunConsistentExactly`); requests without a task that is both resumed and archived
  always meet it (`PlaneRuns.CleanRunsAreIntact`).
* A finalized source can be stranded in three ways: its target aborts, another source that the
  target staged aborts, or a receipt the transfer still needs is beyond the limits of validation.
  These are the only ways (`FederationLiveness.EnabledSomedayExactly`), and each has runs from
  every valid ledger (`FederationWitness.TargetStrandsSource`, `FederationWitness.PeerStrandsSource`,
  `FederationWitness.LimitsStrandSource`). "Aborted as a source" is meant literally: an authority
  that aborted a transfer as its target may later be a source of it.
* The manifest merge gives ties to the local side and keeps entries of one stamp in the order it
  came upon them, although its own documentation says the result is the same whichever session
  deploys last. Id by id it commutes exactly when entries that agree on id and stamp are equal
  (`ConvergentManifest.CommutesExactlyWhenCoherent`); the list it returns is the same exactly when,
  besides, the ids of each stamp come in the same order from both sides
  (`ConvergentManifest.ListsCommuteExactly`). Two new entries of one stamp already break that
  (`ConvergentManifest.NewIdsOfOneStampDiffer`, `ConvergentManifest.PairSwaps`); stamps that tell
  ids apart are enough for it (`ConvergentManifest.DeploysConvergeToOneList`).

## Model

| member | source | states |
|---|---|---|
| FederationSafety.RunOk | addons/orchestrator_session/common/orchestrator-control/orchestrator_control.py:1661-2256 | Every world reached by any run of creations, transfer steps and local work satisfies the protocol invariant: each issued receipt is on its subject's record and shows only receipts issued before it, each authority's step table explains its standing, and nobody stages after preparing itself away. |
| FederationSafety.MembersFollowTheirRoot | addons/orchestrator_session/common/orchestrator-control/orchestrator_control.py:1963-2075 | Each member an active federation root lists is pending or subordinate with that root as parent under the same transfer, and never gave that transfer up as a source. |
| FederationSafety.SubordinatesAreListed | addons/orchestrator_session/common/orchestrator-control/orchestrator_control.py:2077-2162 | Each enabled subordinate's parent is an active federation root that lists it. |
| FederationSafety.Demotion | addons/orchestrator_session/common/orchestrator-control/orchestrator_control.py:1876-1961 | A demoted source prepared for its parent first and the parent staged later; both receipts exist and are issued in that order. |
| FederationSafety.ParentIsPreparedTarget | addons/orchestrator_session/common/orchestrator-control/orchestrator_control.py:1887-1900 | A demoted source's parent is the target its own prepare request named, although finalizing never compares the two. |
| FederationSafety.ParentsPrepareLater | addons/orchestrator_session/common/orchestrator-control/orchestrator_control.py:1661-1801 | A parent that was itself given away prepared later than its child did. |
| FederationSafety.NoCycles | addons/orchestrator_session/common/orchestrator-control/orchestrator_control.py:1876-1961 | No authority is its own ancestor at any distance, pending sources included. |
| FederationLocal.CommitOk | addons/orchestrator_session/common/orchestrator-control/orchestrator_control.py:1591-1637 | A committed transfer step keeps the local invariant: records match receipts, the standing is explained, demotion and activation are for good, an aborted source never finalizes and an aborted target never activates. |
| FederationLocal.OperateOk | addons/orchestrator_session/common/orchestrator-control/orchestrator_control.py:1522-1560 | Local work behind the operational gate keeps the same invariant and touches only the authority's own store. |
| FederationLocal.GatedKeepsSlots | addons/orchestrator_session/common/orchestrator-control/orchestrator_control.py:1535-1545 | What a federation root may still do locally never occupies a worker slot. |
| FederationLocal.CapacityStaysLegal | addons/orchestrator_session/common/orchestrator-control/orchestrator_control.py:1358-1366 | The configured capacity stays between 1 and 64 under every operation. |
| FederationLocal.AbortUndoes | addons/orchestrator_session/common/orchestrator-control/orchestrator_control.py:2164-2226 | Aborting undoes a preparation or a staging: standing, parent, transfer and member rows are those from before, and only the epoch, the revision and the two recorded steps remain of it. |
| FederationOutcomes.FrozenIsDrained | addons/orchestrator_session/common/orchestrator-control/orchestrator_control.py:1689-1696 | In every reachable world a prepared, staged or pending authority and a federation root have no active or reserved worker. |
| FederationOutcomes.FrozenStandsStill | addons/orchestrator_session/common/orchestrator-control/orchestrator_control.py:1522-1533 | For as long as an authority stays frozen, tasks, claims, rules, samples and capacity are what they were; only the revision counter moves. |
| FederationOutcomes.StagedMemberIsPending | addons/orchestrator_session/common/orchestrator-control/orchestrator_control.py:1980-1999 | When activation goes ahead every staged member is pending and still has the capacity of its prepare receipt. |
| FederationOutcomes.ActivatedCapacityIsReal | addons/orchestrator_session/common/orchestrator-control/orchestrator_control.py:2047-2061 | The capacity on an activation receipt is the sum of its distinct members' real capacities at that moment and lies in 1 to 1024. |
| FederationOutcomes.RepetitionIsQuiet | addons/orchestrator_session/common/orchestrator-control/orchestrator_control.py:1591-1615 | After an accepted step or remembered request, any repetition of its id at any later world changes nothing. |
| FederationOutcomes.RetransmissionsVanish | addons/orchestrator_session/common/orchestrator-control/orchestrator_control.py:1591-1637 | A run with any number of retransmissions of accepted steps and requests, changed bodies included, reaches the same world as the run without them. |
| FederationOutcomes.StoresStayConsistent | addons/orchestrator_session/common/orchestrator-control/orchestrator_control.py:1640-1659 | Transfers never disturb the claim and token invariant of any authority's store: the stores satisfy it in every world a run passes through if and only if all committed local work has intact audits. |
| FederationStranding.StrandedForever | addons/orchestrator_session/common/orchestrator-control/orchestrator_control.py:2077-2226 | A finalized source stays pending for ever once the target or any source it staged has given the transfer up, or a receipt the transfer still needs is beyond the validator's limits. |
| FederationLiveness.EnabledSomedayExactly | addons/orchestrator_session/common/orchestrator-control/orchestrator_control.py:1876-2162 | In every reachable world some continuation lets a pending source work for its parent if and only if it is not stranded in that sense. |
| FederationPending.NobodyGaveUpOnActivated | addons/orchestrator_session/common/orchestrator-control/orchestrator_control.py:1980-2046 | A target activates only when neither it nor any source it staged has given the transfer up. |
| FederationWitness.TransferCompletes | addons/orchestrator_session/common/orchestrator-control/orchestrator_control.py:1661-2162 | For any three distinct authorities, any ledger, capacity, names and evidence that pass validation and any number of decisions the third had noted before, short of its last two revisions, the eight transfer requests sent in order are all answered and leave the third a federation root listing the other two, both subordinate to it; so the safety statements speak about worlds that exist. |
| FederationWitness.TargetStrandsSource | addons/orchestrator_session/common/orchestrator-control/orchestrator_control.py:2164-2226 | From all such inputs there is a run in which the target aborts after a source has finalized, which strands that source. |
| FederationWitness.PeerStrandsSource | addons/orchestrator_session/common/orchestrator-control/orchestrator_control.py:2164-2226 | And one in which the other staged source aborts instead, which strands it although the target never gives up. |
| FederationWitness.LimitsStrandSource | addons/orchestrator_session/common/orchestrator-control/orchestrator_control.py:8262-8267 | And when the target stages with its last revision, a run in which nobody aborts strands it too, because no receipt of the activation could be shown. |
| FederationStore.AuthorityStore.InsertMembers | addons/orchestrator_session/common/orchestrator-control/orchestrator_control.py:1810-1826 | Inserting the member rows one by one succeeds exactly when no id is known, and appends one row a receipt. |
| FederationStore.AuthorityStore.FinalizeMembers | addons/orchestrator_session/common/orchestrator-control/orchestrator_control.py:2001-2025 | Checking and marking receipt by receipt succeeds exactly when every receipt is a finalization for this target, and marks exactly their rows. |
| FederationStore.AuthorityStore.StageFederation | addons/orchestrator_session/common/orchestrator-control/orchestrator_control.py:1754-1850 | Staging refuses for the first failing check and otherwise moves the authority as specified. |
| FederationStore.AuthorityStore.ActivateFederation | addons/orchestrator_session/common/orchestrator-control/orchestrator_control.py:1963-2046 | Activation refuses for the first failing check and otherwise moves the authority as specified. |
| FederationStore.AuthorityStore.Perform | addons/orchestrator_session/common/orchestrator-control/orchestrator_control.py:1661-2256 | One transfer request in place, with replay check, step, record and rollback, equals the specified answer and new state. |
| PlaneSteps.FenceHolds | addons/orchestrator_session/common/orchestrator-control/orchestrator_control.py:4161-4183 | A fence that passes names a task that holds its target, with its current token and epoch, and that task's one claim is live. |
| PlaneSteps.AuditsGood | addons/orchestrator_session/common/orchestrator-control/orchestrator_control.py:7531-7634 | Auditing the blocked queue keeps the invariant and adds at most the one resumed task to the occupants. |
| PlaneSteps.HandbackGood | addons/orchestrator_session/common/orchestrator-control/orchestrator_control.py:4312-4491 | A committed handback keeps the invariant, and occupancy changes by exactly the freed slot, the resume and the successor. |
| PlaneSteps.InterruptGood | addons/orchestrator_session/common/orchestrator-control/orchestrator_control.py:7200-7297 | A committed interruption keeps the invariant and never raises occupancy above its old value or the capacity. |
| PlaneSteps.SetupFailureGood | addons/orchestrator_session/common/orchestrator-control/orchestrator_control.py:5144-5204 | A committed setup failure, with its candidate loop and rolled-back attempts, keeps the invariant and owes no slot. |
| PlaneSteps.TakeoverGood | addons/orchestrator_session/common/orchestrator-control/orchestrator_control.py:4689-4722 | A takeover keeps the invariant: one fresh token, carried by task and claim alike. |
| PlaneSteps.ExpireGood | addons/orchestrator_session/common/orchestrator-control/orchestrator_control.py:4826-4887 | An expiry keeps the invariant: the claim lapses with the task and a tombstone token is spent. |
| PlaneSteps.WatchdogGood | addons/orchestrator_session/common/orchestrator-control/orchestrator_control.py:7406-7529 | A capacity watchdog run keeps the invariant and takes at most the resumed slot beyond capacity. |
| PlaneSteps.ProgressGood | addons/orchestrator_session/common/orchestrator-control/orchestrator_control.py:3530-3627 | A progress report keeps the invariant, with or without a reclassification and its successor. |
| PlaneInvariants.ReserveKeeps | addons/orchestrator_session/common/orchestrator-control/orchestrator_control.py:2592-2890 | A reservation takes one fresh token and one slot under capacity, contests no live claim and leaves every other task as it was. |
| PlaneInvariants.FirstReservableKeeps | addons/orchestrator_session/common/orchestrator-control/orchestrator_control.py:5175-5204 | So does the candidate that survives the savepoint loop. |
| PlaneInvariants.AuditsTrackExactly | addons/orchestrator_session/common/orchestrator-control/orchestrator_control.py:7558-7622 | In the middle of any transaction, the audits keep claims and states in step if and only if the resumed task was not archived by them too, unless its claim had been released before. |
| PlaneInvariants.AuditsOccupy | addons/orchestrator_session/common/orchestrator-control/orchestrator_control.py:7597-7611 | The occupants after the audits are the old ones and the resumed task, which was not among them. |
| PlaneAudits.AttemptBreaks | addons/orchestrator_session/common/orchestrator-control/orchestrator_control.py:7558-7622 | A committed request that both resumes and archives one task it does not end itself, in whichever of the five operations that carry audits, breaks the invariant. |
| PlaneRuns.StepGood | addons/orchestrator_session/common/orchestrator-control/orchestrator_control.py:2592-7654 | One transaction of any kind, committed or refused, keeps the invariant, moves no token backwards and accounts for its slots, whenever its audits are intact. |
| PlaneRuns.StepConsistentExactly | addons/orchestrator_session/common/orchestrator-control/orchestrator_control.py:7558-7622 | For every request: claims and states agree after it if and only if it was refused or its audits are intact. |
| PlaneRuns.StepFitsExactly | addons/orchestrator_session/common/orchestrator-control/orchestrator_control.py:7607-7611 | For every request within capacity: occupancy stays within capacity if and only if the request commits no unpaid resume while the authority is full, which for a committed request means room before it or no unpaid resume. |
| PlaneRuns.RunConsistentExactly | addons/orchestrator_session/common/orchestrator-control/orchestrator_control.py:7558-7622 | Over a run, claims and states agree at every boundary if and only if every request that commits is intact when it does. |
| PlaneRuns.RunFitsExactly | addons/orchestrator_session/common/orchestrator-control/orchestrator_control.py:7607-7611 | Over a run, occupancy is within capacity at every boundary if and only if the run makes no overdraft. |
| PlaneRuns.EveryRunIsSafe | addons/orchestrator_session/common/orchestrator-control/orchestrator_control.py:3339-3345 | Over every intact run the invariant holds, no token moves backwards and occupancy is at most the configured capacity plus the unpaid resumes made while already full. |
| PlaneRuns.ReachableStates | addons/orchestrator_session/common/orchestrator-control/orchestrator_control.py:2654-2695 | In every state that intact requests reach from an empty authority a task is pending, running or blocked exactly when its claim is live, and no two live claims cover a common place. |
| PlaneRuns.RecycleIgnoresCapacity | addons/orchestrator_session/common/orchestrator-control/orchestrator_control.py:7597-7611 | Recycling commits whenever the audits cover the queue, and takes one more slot whatever the capacity. |
| PlaneRuns.HandbackRefillsTheSlot | addons/orchestrator_session/common/orchestrator-control/orchestrator_control.py:4471-4491 | A handback from RUNNING with runnable work and a requested capacity of at least the prior occupancy keeps the occupancy, by exactly one of a resume and a successor. |
| PlaneRuns.SelectedIsBest | addons/orchestrator_session/common/orchestrator-control/orchestrator_control.py:7588-7611 | The resumed task ranks before every other task the audits would let resume. |
| PlaneRuns.BestCandidateIsPicked | addons/orchestrator_session/common/orchestrator-control/orchestrator_control.py:5176-5204 | The successor of a failed setup ranks before every other candidate there is room for. |
| PlaneRuns.NoneMeansNone | addons/orchestrator_session/common/orchestrator-control/orchestrator_control.py:5181-5204 | No candidate is picked exactly when each of them is refused. |
| PlaneLimits.DuplicateAuditLosesTheClaim | addons/orchestrator_session/common/orchestrator-control/orchestrator_control.py:9997-10049 | Auditing the one blocked task twice, to resume and to archive, leaves it running without a live claim, from every consistent state. |
| PlaneLimits.QueueCanOverfill | addons/orchestrator_session/common/orchestrator-control/orchestrator_control.py:7607-7611 | For every valid ledger and any two valid launches it lets through that share no identity and no place, the second more urgent: five clean requests from an empty authority of capacity one end with both tasks running. |
| PlaneReplay.AttemptLeaves | addons/orchestrator_session/common/orchestrator-control/orchestrator_control.py:2280-7654 | No operation forgets a handled request, rewrites rules or samples it does not record, moves a finished task or lowers a lane. |
| PlaneReplay.RetransmissionIsQuiet | addons/orchestrator_session/common/orchestrator-control/orchestrator_control.py:4268-4297 | A request accepted anywhere in a run is answered from memory when sent again, a changed body under its id is refused, and the state stays. |
| PlaneReplay.RetransmissionsVanish | addons/orchestrator_session/common/orchestrator-control/orchestrator_control.py:4268-4297 | A run with retransmissions at any later point reaches the same state as the run without them. |
| PlaneLedger.RunLedger | addons/orchestrator_session/common/orchestrator-control/orchestrator_control.py:2258-2272 | In every reachable state no rule revision is stored twice, every sample sits in the bucket of its seconds and expired tasks stay expired. |
| PlaneLedger.CurrentRulesAreUnique | addons/orchestrator_session/common/orchestrator-control/orchestrator_control.py:2258-2272 | The rules a launch is resolved against carry each id once, so the laws of policy resolution hold there without a condition. |
| PlaneLedger.LanesNeverFall | addons/orchestrator_session/common/orchestrator-control/orchestrator_control.py:3579-3627 | Under any run of any operations no task's lane falls, and its estimate version rises by at most seven. |
| PlaneLedger.ReachablePriorsCarry | addons/orchestrator_session/common/orchestrator-control/orchestrator_control.py:3885-3945 | In every reachable state a learned prior's bucket, computed from the median, is the one bucket that carries three fifths of the rows the query returned. |
| PlaneTokens.RetiredForever | addons/orchestrator_session/common/orchestrator-control/orchestrator_control.py:4161-4183 | A token that was replaced stays replaced over any run, and no request presenting it commits or changes anything. |
| PlaneTokens.OldWorkerIsLockedOut | addons/orchestrator_session/common/orchestrator-control/orchestrator_control.py:4689-4722 | After a committed takeover or expiry the old worker's token is refused in every later state of every run. |
| PlaneTokens.TokenNamesOneTask | addons/orchestrator_session/common/orchestrator-control/orchestrator_control.py:2585-2590 | A token never passes from one task to another, at any distance in time. |
| PlaneTokens.LeaseDecides | addons/orchestrator_session/common/orchestrator-control/orchestrator_control.py:5364-5388 | For a running or blocked task the lease alone decides: ahead of now it can be extended and neither taken over nor expired, from then on the other way round. |
| PlaneTokens.HeartbeatMovesOneLease | addons/orchestrator_session/common/orchestrator-control/orchestrator_control.py:5377-5398 | A heartbeat moves the end of its own task's lease to the time asked for and nothing else. |
| PlaneTokens.TakeoverMovesOneLease | addons/orchestrator_session/common/orchestrator-control/orchestrator_control.py:4700-4722 | A takeover hands the one claim to the next token and epoch with the lease asked for; everything else stays. |
| PlaneTokens.ExpiryEndsTheTask | addons/orchestrator_session/common/orchestrator-control/orchestrator_control.py:4880-4896 | An expiry makes the task final and its one claim lapsed; everything else stays. |
| PlaneTokens.ProgressKeepsTheHold | addons/orchestrator_session/common/orchestrator-control/orchestrator_control.py:3530-3627 | A progress report moves nothing but its own task's timing, which only grows; token, epoch, state, claims and all other rows stay, and a successor that is let in finds room of its own. |
| PlaneStore.PassesAreAudits | addons/orchestrator_session/common/orchestrator-control/orchestrator_control.py:7558-7622 | Writing the audits one by one and then the ranked tasks one by one equals the audits taken at once. |
| PlaneStore.Plane.FindOverlap | addons/orchestrator_session/common/orchestrator-control/orchestrator_control.py:2683-2695 | The loop over live claims finds an overlap exactly when one exists, in any row order. |
| PlaneStore.Plane.CheckLaunch | addons/orchestrator_session/common/orchestrator-control/orchestrator_control.py:2592-2700 | The launch checks in order give the first refusal, or the ids of the rules the launch carries. |
| PlaneStore.Plane.ReserveLaunch | addons/orchestrator_session/common/orchestrator-control/orchestrator_control.py:2592-2988 | Reserving in place equals the specified reservation; a refused duplicate leaves only its event. |
| PlaneStore.Plane.RecycleBlocked | addons/orchestrator_session/common/orchestrator-control/orchestrator_control.py:7531-7634 | The two loops over audits and ranked tasks leave exactly the audited state, or refuse an incomplete set. |
| PlaneStore.Plane.ReserveFirst | addons/orchestrator_session/common/orchestrator-control/orchestrator_control.py:5181-5204 | The candidate loop with its savepoints ends in the first reservable candidate, or in the state it began with. |
| PlaneStore.Plane.RecordHandback | addons/orchestrator_session/common/orchestrator-control/orchestrator_control.py:4298-4507 | The terminal handback in place equals its specification. |
| PlaneStore.Plane.RecordSetupFailure | addons/orchestrator_session/common/orchestrator-control/orchestrator_control.py:5085-5260 | The setup failure in place equals its specification. |
| PlaneStore.Plane.InterruptTask | addons/orchestrator_session/common/orchestrator-control/orchestrator_control.py:7200-7297 | The interruption in place equals its specification. |
| PlaneStore.Plane.Perform | addons/orchestrator_session/common/orchestrator-control/orchestrator_control.py:2592-7654 | One request from BEGIN to COMMIT or ROLLBACK, replay and savepoints included, equals the specified step. |
| Targets.OverlapIsSharedPlace | addons/orchestrator_session/common/orchestrator-control/orchestrator_control.py:689-697 | Two targets overlap exactly when some place of some repository lies under both. |
| Policy.FivePassesAreOne | addons/orchestrator_session/common/orchestrator-control/orchestrator_control.py:892-896 | The five stable sorts are one lexicographic order on tier, specificity, priority, effective time and id. |
| Policy.ResolveRules | addons/orchestrator_session/common/orchestrator-control/orchestrator_control.py:877-971 | The loops that split, drop superseded rules, group and settle conflicts compute the specified resolution. |
| Policy.EachRuleOnce | addons/orchestrator_session/common/orchestrator-control/orchestrator_control.py:877-971 | With unique ids every rule is in exactly one of the included and the excluded list. |
| Policy.EachIdOnce | addons/orchestrator_session/common/orchestrator-control/orchestrator_control.py:877-971 | Included and excluded ids together are exactly the ids of the ledger. |
| Policy.IncludedIsSound | addons/orchestrator_session/common/orchestrator-control/orchestrator_control.py:898-971 | An included rule is active, in force and in scope, superseded by no candidate, and agrees in effect and gate with every included rule of its group. |
| Policy.OverriddenHasWinner | addons/orchestrator_session/common/orchestrator-control/orchestrator_control.py:918-971 | A rule that lost its group lost it to an included rule that precedes it with another rank. |
| Policy.ConflictsExactly | addons/orchestrator_session/common/orchestrator-control/orchestrator_control.py:933-947 | Resolution fails if and only if two rules that are applicable, superseded by no applicable rule and outranked by none of their group order different effects or gates. |
| Policy.OrderIndependent | addons/orchestrator_session/common/orchestrator-control/orchestrator_control.py:877-971 | The resolution does not depend on the order of the rules. |
| Durations.LaneMonotone | addons/orchestrator_session/common/orchestrator-control/orchestrator_control.py:386-390 | Longer work never lands in an earlier bucket. |
| Durations.RepeatedReadingIsQuiet | addons/orchestrator_session/common/orchestrator-control/orchestrator_control.py:3579-3627 | Presenting the reading just recorded again never reclassifies. |
| Durations.LaneChangesAreCounted | addons/orchestrator_session/common/orchestrator-control/orchestrator_control.py:3579-3627 | Over any run of reports the lane never falls, the version rises by exactly the number of lane changes, and there are at most seven. |
| Durations.LaneCoversLastReport | addons/orchestrator_session/common/orchestrator-control/orchestrator_control.py:3588-3606 | After an accepted active report the lane covers the measured seconds. |
| Durations.MajorityHoldsMiddle | addons/orchestrator_session/common/orchestrator-control/orchestrator_control.py:3921-3923 | A bucket with more than half of a sorted list holds its middle element. |
| Durations.LearnedBucketCarries | addons/orchestrator_session/common/orchestrator-control/orchestrator_control.py:3889-3945 | Whenever a prior is learned, the bucket of the median is the one bucket with three fifths of the samples. |
| Durations.LearnedExactlyWhenCarried | addons/orchestrator_session/common/orchestrator-control/orchestrator_control.py:3906-3912 | With enough samples a prior is learned exactly when some bucket carries three fifths; the separate check for a single leader never decides. |
| Scheduler.TabulatePools | addons/orchestrator_session/common/orchestrator-control/orchestrator_control.py:3980-3993 | One loop over the holds leaves, for every pool in use, its total weight and the least cap of its holders. |
| Scheduler.DurationSchedule | addons/orchestrator_session/common/orchestrator-control/orchestrator_control.py:3950-4159 | The loops over holds and candidates compute the specified schedule. |
| Scheduler.EveryCandidateOnce | addons/orchestrator_session/common/orchestrator-control/orchestrator_control.py:3994-4159 | Ranked and deferred candidates together are exactly the candidates. |
| Scheduler.RankedInOrder | addons/orchestrator_session/common/orchestrator-control/orchestrator_control.py:4064-4070 | Ranked candidates come by score, then queue time, then id. |
| Scheduler.AgedOutranksFresh | addons/orchestrator_session/common/orchestrator-control/orchestrator_control.py:4060-4070 | A candidate queued 6,000,000 seconds ranks before every one queued under a minute, at any priority. |
| Scheduler.AgingBoundIsExact | addons/orchestrator_session/common/orchestrator-control/orchestrator_control.py:4060-4070 | At priority zero it takes exactly 6,000,000 seconds to outrank a fresh candidate of the highest priority. |
| Scheduler.OrderIndependent | addons/orchestrator_session/common/orchestrator-control/orchestrator_control.py:3950-4159 | The whole answer does not depend on the order of holds and candidates. |
| Scheduler.AdmissionKeepsCaps | addons/orchestrator_session/common/orchestrator-control/orchestrator_control.py:4017-4059 | An eligible candidate added as a holder keeps every pool within the least cap of its holders, heavy holders within the heavyweight cap and groups free of a second heavy holder. |
| Scheduler.RoundsFit | addons/orchestrator_session/common/orchestrator-control/orchestrator_control.py:3950-4159 | However often the answer is admitted as a holder, the same bounds hold after every round. |
| ReceiptFeed.SurvivorIsNewest | addons/orchestrator_session/common/orchestrator-control/receipt_feed_exporter.py:683-721 | Each surviving fingerprint has one receipt, a canonical item newer than every other canonical item of that fingerprint. |
| ReceiptFeed.DroppedExactlyWhenConflicted | addons/orchestrator_session/common/orchestrator-control/receipt_feed_exporter.py:685-718 | A fingerprint drops out exactly when all its items are mirrors or a revision was claimed twice. |
| ReceiptFeed.Deduplicate | addons/orchestrator_session/common/orchestrator-control/receipt_feed_exporter.py:680-721 | The grouping loops leave exactly the survivors, and quarantine exactly the mirrors and the items of repeated revisions. |
| ReceiptFeed.CycleCheck.Visit | addons/orchestrator_session/common/orchestrator-control/receipt_feed_exporter.py:729-739 | The recursive visit terminates, keeps what it visited in dependency order, and fails only on a cycle. |
| ReceiptFeed.CycleCheck.Check | addons/orchestrator_session/common/orchestrator-control/receipt_feed_exporter.py:726-742 | Visiting every receipt succeeds if and only if no dependency cycle runs through the canonical receipts. |
| ReceiptFeed.ExportFeed | addons/orchestrator_session/common/orchestrator-control/receipt_feed_exporter.py:680-773 | The export is refused exactly for a cycle; otherwise it holds the survivors and the quarantine, and a receipt is runnable only when all its dependencies are terminal, it is not, and a slot is free. |
| ReceiptFeed.SomethingIsUnblocked | addons/orchestrator_session/common/orchestrator-control/receipt_feed_exporter.py:726-773 | A feed without a cycle is never stuck: while some receipt is unfinished, some unfinished one waits for nothing in the feed. |
| FeedPointers.FeedDirectory.PublishFeed | addons/orchestrator_session/common/orchestrator-control/receipt_feed_exporter.py:2070-2104 | Publishing performs its atomic writes in the specified order, each state in between included. |
| FeedPointers.FeedDirectory.RollBack | addons/orchestrator_session/common/orchestrator-control/receipt_feed_exporter.py:2185-2203 | Rolling back performs its atomic writes in the specified order. |
| FeedPointers.EveryWriteIsSound | addons/orchestrator_session/common/orchestrator-control/receipt_feed_exporter.py:2070-2203 | After any run of publishes and rollbacks, each cut off after any of its writes, every pointer names a stored snapshot with its digest. |
| FeedPointers.PublishDoes | addons/orchestrator_session/common/orchestrator-control/receipt_feed_exporter.py:2070-2094 | A completed publish succeeds, makes the feed current and keeps another old current as last known good. |
| FeedPointers.RollbackDoes | addons/orchestrator_session/common/orchestrator-control/receipt_feed_exporter.py:2185-2196 | A rollback is refused exactly when there is no distinct last known good, and otherwise swaps it with current. |
| FeedPointers.PublishThenRollback | addons/orchestrator_session/common/orchestrator-control/receipt_feed_exporter.py:2070-2203 | Publishing another feed and rolling back restores the old current. |
| FeedPointers.RollbackTwice | addons/orchestrator_session/common/orchestrator-control/receipt_feed_exporter.py:2185-2203 | Rolling back twice changes neither current nor last known good. |
| FeedPointers.StaysRecoverable | addons/orchestrator_session/common/orchestrator-control/receipt_feed_exporter.py:2070-2203 | Once current and last known good differ, completed operations keep them different. |
| FeedPointers.CutRollbackExactly | addons/orchestrator_session/common/orchestrator-control/receipt_feed_exporter.py:2185-2203 | A rollback cut off after k writes can still be rolled back from if and only if k is 0 or all three writes were made. |
| FeedPointers.CutPublishExactly | addons/orchestrator_session/common/orchestrator-control/receipt_feed_exporter.py:2070-2104 | A publish cut off after k writes loses the way back if and only if the feed is another one and the cut lies between its last two writes. |
| SqlScanner.BlankQuoted | stacks/supabase-flutter/scripts/check-cloud-migration-sql.py:37-166 | The scanning loop computes the specified text or the specified refusal. |
| SqlScanner.LayoutIsKept | stacks/supabase-flutter/scripts/check-cloud-migration-sql.py:37-166 | The blanked text has the same length and line breaks, and every character is kept or blank. |
| SqlScanner.NormalSqlComposes | stacks/supabase-flutter/scripts/check-cloud-migration-sql.py:37-166 | After a text that ends outside quotes and comments a semicolon starts a fresh scan: the blanked texts join. |
| SqlScanner.CheckTransactionControl | stacks/supabase-flutter/scripts/check-cloud-migration-sql.py:169-192 | The loop over statements reports the first bad one. |
| SqlScanner.AcceptedTogether | stacks/supabase-flutter/scripts/check-cloud-migration-sql.py:169-192 | Such a text joined with any other is accepted exactly when both are. |
| SqlScanner.LineCommentHides | stacks/supabase-flutter/scripts/check-cloud-migration-sql.py:97-102 | A text that ends in a line comment is accepted and blanks whatever follows on that line. |
| SqlScanner.ComposesExactly | stacks/supabase-flutter/scripts/check-cloud-migration-sql.py:32-192 | An accepted text composes with every other across a semicolon if and only if it ends outside quotes and comments. |
| SqlScanner.AcceptedTogetherExactly | stacks/supabase-flutter/scripts/check-cloud-migration-sql.py:169-192 | And an accepted migration can be joined with every other without changing what is accepted if and only if it ends there. |
| ConvergentManifest.MergeManifests | addons/convergent_deploy/common/scripts/converge.py:179-193 | The merge loops compute the merged entries and the adopted ids. |
| ConvergentManifest.MergeHoldsNewest | addons/convergent_deploy/common/scripts/converge.py:179-193 | A merge holds the newest entry of every id of either manifest and drops no id. |
| ConvergentManifest.MergedLooksUp | addons/convergent_deploy/common/scripts/converge.py:185-191 | For each id the merge answers with the local entry unless the remote one is newer. |
| ConvergentManifest.DeploysConverge | addons/convergent_deploy/common/scripts/converge.py:179-193 | Deploys that have seen the same entries agree on every id in any order, grouping and repetition, when equal id and stamp mean the same entry. |
| ConvergentManifest.DeploysConvergeToOneList | addons/convergent_deploy/common/scripts/converge.py:179-193 | When moreover no two ids share a stamp, they leave one and the same list. |
| ConvergentManifest.CommutesExactlyWhenCoherent | addons/convergent_deploy/common/scripts/converge.py:189 | Id by id, two merges commute if and only if entries that tie in id and stamp are equal. |
| ConvergentManifest.ListsCommuteExactly | addons/convergent_deploy/common/scripts/converge.py:179-193 | The two merged lists are equal if and only if, besides, the ids whose later stamp is the same come in one order whichever manifest is read first. |
| ConvergentManifest.NewIdsOfOneStampDiffer | addons/convergent_deploy/common/scripts/converge.py:192 | Two sessions that each bring a new id under one stamp never leave the same list. |
| Envelope.FromBytes | prototypes/notebook-crypto/notebook_crypto/envelope.py:87-108 | The four-turn loop reads exactly what the format says, with its three refusals. |
| Envelope.EncodesExactlyWhenShort | prototypes/notebook-crypto/notebook_crypto/envelope.py:42-45 | Encoding succeeds exactly when every part is shorter than 2^32 bytes. |
| Envelope.RecordsRoundTrip | prototypes/notebook-crypto/notebook_crypto/envelope.py:84-108 | Writing and reading are exact inverses: every record comes back, and every accepted blob is the writing of what it was read as. |
| Envelope.AssociatedDataIsInjective | prototypes/notebook-crypto/notebook_crypto/envelope.py:70-71 | Two identities, layers included, never share associated data. |

## Left out

- Storage: SQLite, files, locks, symlink and permission checks, JSON reading and the command line; each method is one atomic step that commits or changes nothing.
- Validation: transfer requests and receipts are checked as the source does (names, evidence, limits), and stores start from valid ledgers; requests to a control plane are taken as already validated, and the search for secrets in request texts is left out everywhere.
- Cryptography: SHA-256, HMAC, AES-GCM and HKDF; digests are injective, ciphers are not modelled.
- Evidence: artifact contents, cleanup ownership, control-schema holds, capacity sagas, handback deadlines of the lifecycle watchdog and archive proofs reach the model as one boolean input of a request; a control-schema hold is not followed over a run.
- Notes: the other event-only operations (decision classification and migration, dispatcher adoption, work notes) only bump the revision.
- Legacy paths: stale-present and archive ticket scans, migration of old boards, status reporting, prompt and envelope texts.
- PlaneStore.Plane.Perform: the result payloads, event bodies and error details of a request are not modelled, only outcome, error code and new state.
- PlaneRuns.EveryRunIsSafe: runs with a committed request that is not intact are outside the statement, because they do break the invariant; the condition is exact (PlaneRuns.RunConsistentExactly).
- Progress: for transfers the possibility of progress is decided exactly, for tasks no liveness claim is made; interrupted tasks carry no clean handback and archive refuses them.
- FederationSafety.RunOk: the membership digest of a receipt is left out, because it is a function of receipts that the model compares in full.
- FederationStore.AuthorityStore.Perform: a request is taken after validation, with its receipts sorted by subject; the sorting itself is not modelled.
- PlaneLimits.QueueCanOverfill: the two launches name paths that are their own case folding; titles, prompts and contract texts are not modelled.
- Time: instants are integers; a few guards of the source compare timestamp texts, which agrees with instants at equal fractional precision.
- Targets.OverlapIsSharedPlace: paths are component lists after normalization and case folding, which are not modelled.
- Policy.ResolveRules: the provenance, directive and privacy fields of a rule are not modelled; resolution only hands them on.
- ReceiptFeed.Deduplicate: fingerprints are visited in any order; the order of the exported list is not modelled.
- ReceiptFeed.CycleCheck.Visit: Python's recursion limit is not modelled; the stack is unbounded.
- ReceiptFeed.ExportFeed: projection of facts, gates, metadata, evidence age, counts and discrepancies are not modelled.
- FeedPointers.FeedDirectory.PublishFeed: size limits, the lock and temporary files are not modelled; a crash leaves a first part of the writes.
- SqlScanner.CheckTransactionControl: upper-casing is any character-by-character table; only SqlScanner.AcceptedTogetherExactly asks that a blank stays a blank.
- ConvergentManifest.DeploysConverge: agreement is stated per id; what it takes for equal lists is ConvergentManifest.ListsCommuteExactly and, over histories, ConvergentManifest.DeploysConvergeToOneList. Token races, healing and the network are not modelled.
- Envelope.FromBytes: sealing, opening and key derivation are not modelled.
- Other components: adaptive capacity policy, ledger validator, notifier API, worker, identity, browser and Swift interfaces, dashboards, template generator, changelog tool, runtime verifier and root-role guard are I/O, interfaces or single-branch tables.
