# acl-api: verified model

acl-api stores network rules and has engines sync them. Several processes share
one document store. This project models the parts that are hard to get right and
proves what they keep, in Dafny 4.11 (`dafny verify dfyconfig.toml`).

**The sync lease.** There is one record for each rule and engine. A start is a
guarded compare-and-set on it, each process pings the records of its own syncs,
and an end releases the record, whoever holds it.

- `SyncStorage.dfy`, `LockUpdater.dfy` and `Engine.dfy` hold the code: the record
  store, the updater's loop, and the client that brackets a sync between them.
- `SyncRuns.dfy` proves what holds over every series of record operations.
- `Lease.dfy` composes any number of processes, their updater loops, a clock,
  crashes, lost replies and failed pings into a timed transition system.
  `LeaseSafety.dfy` proves exclusivity with one joint invariant; `LeaseExact.dfy`
  proves the timing condition exact, by building for every configuration beyond
  it a run with two holders; `LeaseRefinement.dfy` ties the protocol to the loop of
  the code; `LeaseForced.dfy` proves that a run with forced starts is exclusive exactly
  as long as each of them meets a rule and engine that is free, and how the record shows it.

The condition: with `Age(0) = delay` and
`Age(f + 1) = Age(f) + interval + slack + delay`, no two syncs of a rule and engine
are ever in flight together if and only if
`Age(maxFails + 1) <= max(lockExpire, after)`, that is
`delay + (maxFails + 1) * (interval + slack + delay) <= max(lockExpire, after)`.
`interval` is the updater's period, `slack` how late its timer fires, `delay` bounds
each of start-to-enqueue, ping and dequeue-to-end, and `maxFails` is the number of
pings in a row that may fail. An operation works with a clock reading taken before
it is applied, so even a ping that succeeds may be a delay old.

**The materialised view.** The rule store should hold exactly the product of an
instance's base rules with its applications and jobs. Each call is several
single-document writes, and may stop after any of them.

- `ServiceModel.dfy` has the two stores and the writes, `ServiceCalls.dfy` the calls
  as series of writes, and `ServiceAPI.dfy` the code on stores that fail at any access.
- `ServiceSound.dfy` and `ServiceRuns.dfy` prove crash soundness, healing, isolation
  and the absence of resurrection; `ServiceCoherent.dfy` what each complete call makes of
  the view; `ServiceAnswers.dfy` when exactly an add succeeds; `ServiceDistinct.dfy` that
  no destination is held twice, and `ServiceDuplicates.dfy` when concurrent adds break
  that; `ServiceConcurrent.dfy` that concurrent adds converge;
  `ServiceRace.dfy` when a removal in between spoils the view; `ServiceIDs.dfy` that
  expanded ids are unique.

**Smaller pieces.** `RuleTypes.dfy` (validation, port lists, when destinations are
equal), `RuleFilter.dfy` (finding rules by example), `LogicCache.dfy` (the cache of
source objects), `Debounce.dfy` (how often the operator is triggered). `Basics.dfy` has
the clock: instants are nanoseconds, and the store keeps whole milliseconds, as the
UTC datetime of the BSON specification does.

## What turned out false

- A refused start announces `next`, and a retry at `now + next` is still refused:
  the store compares whole milliseconds, so the first instant that is granted is one
  millisecond later (`SyncRuns.AnnouncedWait`). For a running record `next` is the
  whole interval and says nothing about the takeover window.
- A lease bound of interval plus one delay is not enough, even when no ping fails: a
  ping is as old as the clock reading it carries, so the next one may find the record
  interval, slack and two delays old. The exact bound is in
  `LeaseExact.LeaseIsSafeExactlyWithinTheBound`.
- The comparison of destinations never looks at jobs, so a job destination equals
  everything (`RuleTypes.EqualsMeansSameDestination`), the comparison is not symmetric
  between a job and anything else (`RuleTypes.EqualsIsSymmetricIff`), and an instance
  with a job destination refuses every further base rule
  (`ServiceDistinct.JobDestinationShutsTheInstance`).
- A filter asks in vain for an rpaas instance, for a whole network or for a cluster name
  of a Kubernetes service: the comparison never looks at them, so a filter for the rules to
  one rpaas instance finds every rule (`RuleFilter.RpaasFilterFindsEverything`). Away from
  these three, matching is inclusion (`RuleFilter.MatchIsInclusionIff`).
- The duplicate check does not hold against concurrent adds
  (`ServiceDuplicates.TwoAddsOfOneDestination`); it does exactly when no add is overtaken
  between its look and its push (`ServiceDuplicates.ConcurrentAddsStayDistinctIff`).
- Starts can be closer than their interval by the lag between reading the clock and
  applying an operation (`SyncRuns.LagShortensTheSpacing`); the exact spacing is in
  `SyncRuns.SpacingUnderLagIff`.
- A sync that panics is recorded as successful, because the deferred end finds no error
  (`Engine.EntryIsTrueIff`); a removal lost so is never synced again
  (`Engine.PanickedRemovalIsSkipped`).
- A rule saved by the public handler with the service's owner metadata is live and backed
  by nothing, unless it is marked removed (`ServiceSound.OutsideSaveKeepsSoundIff`).
- A removal that runs while an add is saving leaves a live rule that nothing backs
  (`ServiceRace.RemovalDuringAddLeavesAnOrphan`); a late save keeps the view sound
  exactly when its base rule and target are still there (`ServiceRace.LateSaveIsSoundIff`).
- Binding a target whose name is invalid (the handler lets an empty application name
  through, api/service.go:96-100) answers an error, but the target stays bound and then
  every later add on an instance with base rules fails (`ServiceAnswers.RefusedBindStays`,
  `ServiceAnswers.BadTargetBlocksAdds`). The view is then exact exactly when the target was
  bound before or no base rule is in force (`ServiceAnswers.RefusedAddKeepsCoherentIff`,
  `ServiceAnswers.RefusedBindSpoilsTheView`).
- Deleting a live rule of an instance past the service leaves the product incomplete
  (`ServiceCoherent.DeleteRuleKeepsCoherentIff`), until the next add that succeeds.
- Two writes of the operator annotation can be little more than 59 seconds apart, not 60
  (`Debounce.GapBelowAMinute`); they are a minute apart exactly when the first was written
  at the start of a second (`Debounce.MinuteApartIff`).

## Model

A call of the service *runs its plan* when the state and the log of writes it leaves are
those of a prefix of the plan's writes, and, unless it answers that a store is
unavailable, it has done all of them and gives the plan's answer. It answers so only when
the store did fail an access.

| member | source | states |
|---|---|---|
| Clock.StoredBefore | storage/mongodb/syncstorage.go:79-88 | the guard's comparison of stored instants holds exactly when the clock has reached the next whole millisecond |
| SyncStore.SyncStorage.StartSync | storage/mongodb/syncstorage.go:65-128 | granted exactly when the record is missing, forced, or silent for its wait; the whole new collection; the record returned; the wait announced on refusal |
| SyncStore.SyncStorage.PingSyncs | storage/mongodb/syncstorage.go:130-136 | a record whose id is listed changes in its ping only, to the reading; every other record, idle or running, is unchanged |
| SyncStore.SyncStorage.EndSync | storage/mongodb/syncstorage.go:138-158 | the record of the rule and engine becomes idle, stamped, and gains the entry, keeping the last ten; every other record is unchanged |
| SyncStore.SyncStorage.SetLockExpireTime | storage/mongodb/syncstorage.go:48-52 | exchanges the global expiry |
| SyncRuns.LogIsHistoryWindow | storage/mongodb/syncstorage.go:150-155 | after any operations the stored log is the last ten entries of the unbounded history |
| SyncRuns.HistoryIsTheEnds | storage/mongodb/syncstorage.go:150-155 | the history is one entry, as reported, for each end that found the record, in order |
| SyncRuns.LatestSyncIsLatestOfHistory | api/types/rule.go:45-50 | the latest entry is the latest of the whole history, or none if there is none |
| SyncRuns.RecordTellsItsHistory | storage/mongodb/syncstorage.go:91-101 | a record exists since its first granted start, carries its id, runs exactly when the last change was a start, and has the instants of its last start and last end |
| SyncRuns.SyncIDNeverChanges | storage/mongodb/syncstorage.go:91-101 | every later holder of a record shares its id |
| SyncRuns.RunInOrder | storage/mongodb/syncstorage.go:65-158 | every operation of a run is carried out on what those before it left |
| SyncRuns.StartsAreSpaced | storage/mongodb/syncstorage.go:65-102 | unforced grants of one key are more than the interval, less the lag of clock readings, apart, with any forced starts, stale ends and pings in between |
| SyncRuns.EveryGrantIsCounted | storage/mongodb/syncstorage.go:65-102 | the grants that are counted include every unforced one of the interval or more |
| SyncRuns.AnyTwoStartsAreApart | storage/mongodb/syncstorage.go:65-102 | an unforced start is past any earlier start, forced or not, by more than its interval less the lag |
| SyncRuns.LagShortensTheSpacing | storage/mongodb/syncstorage.go:65-158 | a late end of a sync that was taken over, read before the takeover, lets the next start come the interval less the lag, and a nanosecond, after it |
| SyncRuns.SpacingUnderLagIff | storage/mongodb/syncstorage.go:65-102 | in every run within the lag unforced grants are more than a gap apart if and only if the gap is at most the interval less the lag |
| SyncRuns.StartRateBound | storage/mongodb/syncstorage.go:65-102 | any k unforced grants span more than k-1 intervals, each less the lag |
| SyncRuns.StaleEndsAreTolerated | storage/mongodb/syncstorage.go:73-158 | while an id is pinged with gaps of at most `gap`, no unforced start whose interval is at least `gap` and the lag is granted, whatever stale ends arrive |
| SyncRuns.ExactWait | storage/mongodb/syncstorage.go:66-89 | a record left alone admits a start from exactly one instant on; no lock is stuck |
| SyncRuns.AnnouncedWait | storage/mongodb/syncstorage.go:104-118 | after a refusal on an idle record, a retry is granted exactly from one millisecond past the announced wait on |
| SyncRuns.EndRestartsTheWait | storage/mongodb/syncstorage.go:138-149 | after an end the next start is granted exactly one interval later |
| SyncRuns.OthersKeepTheWait | storage/mongodb/syncstorage.go:65-158 | and exactly then, whatever other rules and engines do and whichever other ids are pinged in between |
| SyncRuns.StartLocks | storage/mongodb/syncstorage.go:91-102 | a granted start keeps others out for exactly the takeover window |
| Updating.LockUpdater.ListIDs | rule/service.go:256-259 | the list holds every id of the set once |
| Updating.LockUpdater.Receive | rule/service.go:244-267 | one turn: the event adds or removes its id, and then every record of the set is pinged and no other, whatever the event was; on an empty set nothing is pinged |
| Updating.LockUpdater.Run | rule/service.go:242-269 | every turn up to the first stop is taken on what the one before left, and nothing but a stop ends the loop |
| Updating.IDsAfterTurns | rule/service.go:244-251 | an id is in the set exactly when it was added and not removed since, or was there at first and never removed |
| LeaseRefinement.WakeThenPingIsATurn | rule/service.go:244-267 | a turn of the loop is the wake-up step of the protocol followed by its ping step, whenever in between the ping reads its clock |
| LeaseRefinement.StepIsAStoreOperation | storage/mongodb/syncstorage.go:65-158 | each step of the protocol does one operation of the record store, or none |
| LeaseRefinement.StepOnClients | rule/service.go:278-298 | what each step does to the calls in flight |
| LeaseRefinement.StepOnProcesses | rule/service.go:236-269 | what each step does to the updaters and the clock |
| LeaseRefinement.ProtocolRunIsAStoreRun | storage/mongodb/syncstorage.go:65-158 | the records of a run of the protocol are those of a run of store operations |
| LeaseRefinement.ProtocolLogsAreWindows | storage/mongodb/syncstorage.go:150-155 | so in reachable states every log is the last ten of all entries reported |
| LeaseSafety.HolderIsFresh | rule/service.go:236-298 | under the invariant the ping of a held record is never older than the worst age |
| LeaseSafety.StartMeansFree | storage/mongodb/syncstorage.go:78-89 | within the bound the guard grants only a rule and engine that nobody has in flight |
| LeaseSafety.ListedIsEnqueued | rule/service.go:253-259 | an id that a process pings belongs to one enqueued client, and it is of that process |
| LeaseSafety.PingDoneKeepsInv | rule/service.go:253-267 | a ping with an old clock reading still leaves every held record young enough |
| LeaseSafety.DequeueKeepsInv | rule/service.go:291-298 | dequeuing a client keeps the invariant: exclusivity means nobody else loses the id |
| LeaseSafety.EndKeepsInv | storage/mongodb/syncstorage.go:138-158 | an end without a holder token keeps the invariant: the record is nobody else's |
| LeaseSafety.StepKeepsInv | rule/service.go:236-298 | every step of every process keeps the joint invariant of holders, id sets and ping ages |
| LeaseSafety.IDSetIsHolders | rule/service.go:217-234 | in reachable states the id set of a process is exactly the ids of its enqueued syncs |
| LeaseSafety.LeaseIsSafe | rule/service.go:278-298 | within the bound, at most one sync per rule and engine is in flight in every reachable state |
| LeaseExact.LeaseBeyondTheBound | rule/service.go:236-298 | beyond the bound some run has two syncs in flight |
| LeaseExact.LeaseIsSafeExactlyWithinTheBound | storage/mongodb/syncstorage.go:65-102 | the lease is safe if and only if the worst ping age is within the takeover window |
| LeaseExact.SafeInClosedForm | storage/mongodb/syncstorage.go:65-102 | safe if and only if one delay, and a turn of the loop for each ping that may fail and one more, fit into the takeover window |
| LeaseExact.ShippedLeaseSurvivesEightFailures | rule/service.go:215 | with 20 seconds and 5 minutes, and turns of at most 30 seconds, eight failed pings in a row are harmless, whatever the sync interval |
| LeaseForced.ForcedStartKeepsExclusivityIffFree | storage/mongodb/syncstorage.go:78-89 | an answered forced start keeps exclusivity at once if and only if no sync of its key is in flight |
| LeaseForced.ForcedStartKeepsInv | storage/mongodb/syncstorage.go:78-102 | on a free key a forced start keeps the whole joint invariant, so everything after it is as safe as before |
| LeaseForced.ForcedRunsAreSafeOnFreeKeys | rule/service.go:278-298 | a run with forced starts stays exclusive as long as each answered one meets a free key, and each lost one does or reads a clock no older than the wait of the loop |
| LeaseForced.ForcedRunIsExclusiveIff | storage/mongodb/syncstorage.go:78-102 | a run is exclusive throughout if and only if each answered forced start meets a free key, when the delay is no longer than the wait of the loop or no lost one does harm |
| LeaseForced.LooksFreeIsFree | rule/service.go:236-298 | a record that is missing, idle, or silent for longer than a holder ever is has no sync in flight |
| LeaseForced.RunOnLookingFreeIsExclusive | storage/mongodb/syncstorage.go:78-102 | a run whose forced starts all meet such records stays exclusive |
| LeaseForced.UndisturbedRunIsExclusiveIff | storage/mongodb/syncstorage.go:78-102 | without crashes and lost replies or ends, a run is exclusive throughout if and only if every forced start meets such a record |
| LeaseForced.FirstDequeueStopsThePings | rule/service.go:247-248 | with a shared id in one process the first dequeue ends the pings of the second sync |
| Engine.CallIsBracketed | engine/engine.go:81-119 | a granted call gives back the id it enqueued, leaves the record idle and appends exactly one entry that tells its instants, outcome, error and result; any other changes nothing, but for a start whose answer is lost |
| Engine.StartsIff | engine/engine.go:69-88 | a call starts exactly when the engine allows the rule and the store answers and grants; what every other call answers |
| Engine.AnswerIsPassedOn | engine/engine.go:103-118 | when the engine is asked, and that its error is the error of the call |
| Engine.EntryInFull | engine/engine.go:89-118 | the entry appended tells the engine's error, its success and its result, and the instants of the work |
| Engine.RecordInFull | engine/engine.go:81-102 | the instants, the idle flag and the id of the record after the call |
| Engine.OtherPingsInFull | rule/service.go:244-267 | which other records a call pings, and when |
| Engine.EntryIsTrueIff | engine/engine.go:89-118 | the entry claims success unless the engine returned an error, which is true exactly when it did not panic |
| Engine.BracketIsOfTheRecord | engine/engine.go:82-102 | the id sent to the updater, once in and once out, is that of the record |
| Engine.CallTouchesNoOtherRecord | engine/engine.go:69-119 | records of other rules and engines change in their pings only |
| Engine.RemovalSyncsOnce | engine/engine.go:103-114 | while a rule stays removed, the engine is not asked again after the first removal it was asked for and answered without error, or panicked on, and that was reported |
| Engine.SkippedIffReported | engine/engine.go:103-110 | while a rule stays removed, a granted call is skipped exactly when an earlier one reported the removal synced |
| Engine.PanickedRemovalIsSkipped | engine/engine.go:89-114 | a removal whose sync panicked is skipped ever after, unsynced |
| Engine.Worker.SyncStart | rule/service.go:278-289 | a granted start is enqueued once; a refused, failed or lost one not at all |
| Engine.Worker.SyncEnd | rule/service.go:291-298 | one dequeue, then the end |
| Engine.Worker.SyncGranted | engine/engine.go:103-118 | the error of the engine and the entry with its text and result, on success, failure, panic and skip; asked unless the removal is already synced |
| Engine.Worker.SyncAndEnd | engine/engine.go:90-118 | the work and the deferred end on the granted record, with one dequeue |
| Engine.Worker.SyncRule | engine/engine.go:69-119 | every exit path, also that of a panic: the outcome of the specification, and one enqueue and one dequeue of the record's id for each grant |
| Engine.Worker.EngineSync | engine/engine.go:132-143 | a round is its calls one after the other; an error stops none of them, a panic all that follow |
| RuleTypes.ValidatePorts | api/types/rule.go:221-239 | no error exactly when every port is non-zero and its protocol is TCP or UDP in any case; an error names a port at fault |
| RuleTypes.ProtocolsFold | api/types/rule.go:221-239 | the spellings of TCP and UDP that count |
| RuleTypes.Validate | api/types/rule.go:70-178 | no error exactly when one kind is set, it is no Kubernetes service, and it is well formed; each error names its fault |
| RuleTypes.OneKindIsSet | api/types/rule.go:70-178 | a valid type sets one kind and no other |
| RuleTypes.NameInFull | api/types/rule.go:241-250 | the names of applications and jobs |
| RuleTypes.KindsInFull | api/types/rule.go:72-111 | when an application, a job or an rpaas instance is valid |
| RuleTypes.DNSInFull | api/types/rule.go:113-131 | when an external name is valid |
| RuleTypes.IPInFull | api/types/rule.go:133-160 | when an external address is valid, with the mask that is added to it |
| RuleTypes.ProtoPortsEquals | api/types/rule.go:395-435 | the four maps decide equal length and equal ports for each protocol |
| RuleTypes.PortsEqualIsSamePairs | api/types/rule.go:395-435 | on validated ports: equal exactly when equally long with the same set of pairs |
| RuleTypes.PortsEqualUpToOrder | api/types/rule.go:395-435 | the order of the entries does not matter |
| RuleTypes.EqualsMeansSameDestination | api/types/rule.go:180-219 | on validated destinations read from the store: equal exactly when the receiver is a job or both denote the same destination |
| RuleTypes.EqualsInFull | api/types/rule.go:180-219 | the comparison kind by kind, with names, flags and ports; a missing side equals anything |
| RuleTypes.EqualsIsAnEquivalence | api/types/rule.go:180-219 | away from jobs it is reflexive, symmetric and transitive |
| RuleTypes.EqualsIsSymmetricIff | api/types/rule.go:188-216 | it is symmetric exactly when both or neither are jobs |
| RuleTypes.OpenNeverEqualsRestricted | api/types/rule.go:357-393 | a destination open to all ports never equals a restricted one, unless it is a job |
| RuleFilter.FindByRule | rule/service.go:156-175 | the rules, in order, whose source and destination say all that the filter heeds, whose metadata has all of the filter's, and whose creator is the filter's if it names one |
| RuleFilter.MatchIsInclusion | rule/service.go:90-143 | a rule type that says everything the filter says matches it; the converse holds for filters without rpaas instance, whole-network flag and cluster name |
| RuleFilter.MatchIsInclusionIff | rule/service.go:90-143 | matching means saying everything the filter says exactly when the filter sets none of these three |
| RuleFilter.MatchHeeds | rule/service.go:90-143 | for any filter, matching means saying everything in the rest of it |
| RuleFilter.OneKindInFull | rule/service.go:90-143 | what a filter that sets one kind asks for |
| RuleFilter.MatchIsOfEachKind | rule/service.go:90-143 | a filter asks for all of its kinds, each on its own |
| RuleFilter.RpaasFilterFindsEverything | rule/service.go:90-143 | a filter whose destination names only an rpaas instance finds every rule |
| RuleFilter.RefinesIffFound | rule/service.go:156-175 | a filter finds no more than another on any rules exactly when the other finds it |
| RuleFilter.FoundIsTransitive | rule/service.go:90-154 | what a filter finds is found by every filter that finds the filter |
| RuleFilter.RefinedFilterFindsASubsequence | rule/service.go:156-175 | the finer result is what the finer filter finds in the coarser result |
| LogicCaching.LogicCache.LogicFromRule | rule/logic.go:47-65 | the answer reaches the rule's source, is cached under its key, and no earlier answer changes |
| LogicCaching.LogicCache.LogicFromRuleType | rule/logic.go:25-35 | an object for the application, or else for the job, none otherwise |
| LogicCaching.LogicCache.LogicsOfRound | rule/logic.go:47-65 | over a round, every answer reaches its source and equal sources get one object |
| Debounce.Cluster.Sync | engine/operator/engine.go:108-153 | writes the annotation, in whole seconds, exactly when it is missing, less than a minute past the rule's creation, or more than a minute old; fails on an unreadable one |
| Debounce.SyncCoversTheRule | engine/operator/engine.go:108-153 | a sync triggers exactly when the annotation does not cover the rule; after it, it was written by this sync or covers the rule, is not before the creation to the second, and at most a minute old |
| Debounce.WritesAreApart | engine/operator/engine.go:112-133 | once past every rule, writes are more than 59 seconds and a nanosecond apart over any run |
| Debounce.TriggerRateBound | engine/operator/engine.go:112-133 | k writes span more than k-1 times 59 seconds and a nanosecond |
| Debounce.GapBelowAMinute | engine/operator/engine.go:124-133 | a run with two writes as close as that bound allows |
| Debounce.MinuteApartIff | engine/operator/engine.go:124-133 | triggers after a write come at least a minute later exactly when the truncation took at most a nanosecond off it |
| ServiceIDs.ExpandedIDIsInjective | service/service.go:226-239 | base rule, kind and name can be read off an expanded id though names contain dashes |
| ServiceIDs.ExpandedIDIsNotGenerated | service/service.go:226-239 | no expanded id has the form of a generated one |
| ServiceIDs.DashesWouldCollide | service/service.go:226 | without the fixed form of base ids two rules would share an id |
| ServiceModel.ExpandMembers | service/service.go:207-246 | the expansion is exactly every base rule for every application and job |
| ServiceModel.ExpansionInFull | service/service.go:207-246 | each expanded rule is its base rule with its own id, source and metadata, and the same destination, creator and removed flag |
| ServiceModel.ExpandAt | service/service.go:217-244 | base rule by base rule, the applications and then the jobs |
| ServiceCalls.NewBaseInFull | storage/mongodb/servicestorage.go:77-84 | a base rule as it enters an instance |
| ServiceCalls.FiltersInFull | service/service.go:67-70 | the metadata that each removal selects by |
| ServiceCalls.LastUpsertIsThere | storage/mongodb/rulestorage.go:93-129 | the last save of an id is what is stored, with its time and without its name |
| ServiceCalls.UpsertsLeaveOthers | storage/mongodb/rulestorage.go:119-127 | a save touches no rule but its own |
| ServiceCalls.AnswersInFull | service/service.go:37-201 | what each call answers |
| ServiceCalls.AddRuleInFull | service/service.go:77-107 | when an add of a base rule is refused before it writes anything, with which error, and what it writes first |
| ServiceCalls.AddInFull | service/service.go:77-167 | the writes of an add that succeeds are its first write and the save, and its answer is that of the save |
| ServiceCalls.SaveInFull | service/service.go:248-266 | the save writes each rule of the expansion in order at the time of the call, and gives them back with it |
| ServiceSound.SoundMeansSubset | service/service.go:61-201 | under the invariant the live rules are within the product |
| ServiceSound.UpsertReplacesItsOwn | storage/mongodb/rulestorage.go:119-127 | an upsert only ever replaces an earlier save of the same expansion |
| ServiceSound.PullRuleKeepsInv | service/service.go:128-143 | a base rule is pulled soundly because its rules were marked first |
| ServiceSound.UnbindKeepsInv | service/service.go:169-201 | a target is unbound soundly because its rules were marked first |
| ServiceSound.OutsideSaveKeepsSoundIff | api/rule.go:51-69 | a rule saved outside the service keeps the view sound exactly when it does not carry the owner metadata or is marked removed |
| ServiceCalls.UpsertsKeep | storage/mongodb/rulestorage.go:93-129 | wherever the save loop stops, the invariant holds and rules of other instances are untouched |
| ServiceCalls.FullSyncIsExact | service/service.go:248-266 | a complete save makes the live rules exactly the product |
| ServiceRuns.StoppedKeepsInv | service/service.go:61-201 | any call stopped at any write keeps the invariant and touches only rules of its instance |
| ServiceRuns.LiveWithinProduct | service/service.go:61-201 | in every state of every run with crashes the live rules are within the product |
| ServiceRuns.LiveRulesInFull | service/service.go:207-246 | in every state of a run a live rule has the destination and creator of a base rule in force, and the id, source and metadata of a bound application or job |
| ServiceRuns.ExactInFull | service/service.go:207-266 | where the view is exact, every base rule in force leads from every bound application and job to its destination |
| ServiceRuns.SuccessfulAddHeals | service/service.go:77-167 | every add that succeeds restores equality, whatever failed before |
| ServiceRuns.OtherInstancesUntouched | service/service.go:61-201 | a call changes no live rule of another instance |
| ServiceRuns.UnbindingIsByKind | service/service.go:169-201 | unbinding an application never affects a job of that name, nor the reverse |
| ServiceRuns.SourceAgreesWithMetadata | service/service.go:219-241 | the source of a live rule and its metadata name the same application or job |
| ServiceRuns.RevivedOnlyByAdd | service/service.go:207-246 | a rule becomes live only by an add on its instance while its base rule and target are there |
| ServiceRuns.NoResurrection | service/service.go:61-75 | after a complete deletion of the instance, or removal of the base rule, none of its expansions is ever live again, also under a new instance of the same name |
| ServiceRuns.TakingOutRetires | service/service.go:61-143 | after such a call no instance has a base rule of that id |
| ServiceRuns.BaseRulesAreImmutable | storage/mongodb/servicestorage.go:77-90 | whatever bears the id of a base rule later in a run is that base rule, unaltered |
| ServiceCoherent.RemovalTakesTheSelected | service/service.go:128-201 | a complete removal takes out of the live rules exactly what its metadata filter selects |
| ServiceCoherent.ProductAfterUnbind | storage/mongodb/servicestorage.go:125-145 | unbinding takes out of the product exactly what the removal's filter selects |
| ServiceCoherent.ProductAfterPull | storage/mongodb/servicestorage.go:114-123 | pulling a base rule takes out of the product exactly what the removal's filter selects |
| ServiceCoherent.CompleteCallKeepsCoherent | service/service.go:37-266 | every complete call keeps each instance's live rules equal to its product, but for a refused save and a deletion past the service |
| ServiceCoherent.DeleteRuleKeepsCoherentIff | storage/mongodb/rulestorage.go:165-189 | deleting one rule past the service keeps the view exact exactly when it is no live rule of the service |
| ServiceCoherent.UndisturbedRunsAreCoherent | service/service.go:37-266 | in runs of such calls the view is exact at every moment |
| ServiceAnswers.ValidExpansionIff | rule/service.go:38-50 | the save accepts an expansion exactly when it is empty or every target and every base rule in it is valid |
| ServiceAnswers.AddSucceedsIff | service/service.go:145-167 | binding succeeds exactly when the instance is there and has no base rule, or this and all its targets have valid names |
| ServiceAnswers.AddRuleSucceedsIff | service/service.go:77-107 | adding a base rule succeeds exactly when it is valid, the instance is there, no base rule in force is a job or leads to its destination, and all targets have valid names |
| ServiceAnswers.BadTargetBlocksAdds | service/service.go:248-266 | a bound target with an invalid name stays through every add and fails them while there are base rules |
| ServiceAnswers.RefusedBindStays | service/service.go:145-155 | the call refused for such a target has bound it nevertheless |
| ServiceAnswers.RefusedAddKeepsCoherentIff | service/service.go:248-266 | a refused add keeps the view exact exactly when, before it, the target was bound or no base rule in force, or the base rule invalid, taken or marked removed |
| ServiceAnswers.RefusedBindSpoilsTheView | api/service.go:94-103 | binding the empty name to an instance with one base rule is refused and leaves the product unsaved |
| ServiceDistinct.PushKeepsDistinct | service/service.go:92-106 | the duplicate check is enough to keep destinations distinct |
| ServiceDistinct.AlreadyThereIffTaken | service/service.go:92-100 | the duplicate check finds exactly a base rule in force that is a job or leads to the same destination |
| ServiceDistinct.NoDuplicateDestinations | service/service.go:77-107 | in every state of every run two base rules in force have different destinations |
| ServiceDuplicates.TwoAddsOfOneDestination | service/service.go:77-107 | two adds of one destination that both look before either pushes both push it |
| ServiceDuplicates.ConcurrentAddsStayDistinctIff | service/service.go:77-107 | when every add looks before it pushes, destinations stay distinct throughout if and only if none is overtaken between its look and its push by another push of its destination |
| ServiceConcurrent.StepKeepsInv | service/service.go:77-167 | at every interleaved write each rule of a product is live or some add has yet to save it |
| ServiceConcurrent.AloneItIsTheCall | service/service.go:77-167 | an add that runs alone makes exactly the writes of the serial call |
| ServiceConcurrent.ConcurrentAddsConverge | service/service.go:77-266 | when any number of interleaved adds have finished, every instance has exactly its product live |
| ServiceConcurrent.ConcurrentAddsStayWithinProduct | service/service.go:77-266 | at every moment, whatever fails, nothing is live beyond the products |
| ServiceRace.LateSaveIsSoundIff | service/service.go:248-257 | a save of what was read earlier in a run is sound exactly when the base rule is one marked removed, or it and the target are still there |
| ServiceRace.RemovalDuringAddLeavesAnOrphan | service/service.go:169-184 | a removal between the read and the save of an add leaves a live rule that nothing backs |
| ServiceAPI.Stores.SaveAll | storage/mongodb/rulestorage.go:119-127 | the loop saves a prefix of the rules, all of them when it reports success; what is stored, and that nothing else changed |
| ServiceAPI.Stores.MarkAll | storage/mongodb/rulestorage.go:165-189 | marks selected rules one by one, exactly those selected when it reports success, and nothing else |
| ServiceAPI.Service.ExpandRules | service/service.go:207-246 | the nested loops produce the expansion in order, each rule with the destination, creator and removed flag of its base rule |
| ServiceAPI.Service.SyncRules | service/service.go:248-266 | reads the instance back, validates all, saves all, or stops |
| ServiceAPI.Service.Create | service/service.go:37-43 | inserts the empty instance or answers that it exists; or the store failed and nothing changed |
| ServiceAPI.Service.Delete | service/service.go:61-75 | marks exactly the rules of the instance and drops it last; runs its plan |
| ServiceAPI.Service.AddRule | service/service.go:77-107 | validates and looks for a duplicate before any write, then pushes and saves; runs its plan |
| ServiceAPI.Service.RemoveRule | service/service.go:128-143 | marks exactly the rules of the base rule and pulls it last; runs its plan |
| ServiceAPI.Service.Add | service/service.go:145-167 | for applications and jobs: binds, reads back and saves, and fails after the bind on a missing instance; runs its plan |
| ServiceAPI.Service.Remove | service/service.go:169-201 | for applications and jobs: marks exactly the rules of the target and unbinds it last; runs its plan |
| ServiceAPI.RanIsSound | service/service.go:61-201 | so whatever a call did is a serial step, and an add that answers with rules has made the view exact |

## Left out

- Exclusivity is not claimed for forced starts of a sync in flight, because they drop the guard. For delays longer than the wait of the loop, `LeaseForced.dfy` says nothing of such a start whose reply is lost and whose clock reading is older than that wait.
- The clock is one for all processes: skew between their clocks is not modelled. `SyncRuns.dfy` bounds by a lag how much older than an earlier reading one may be; the lease protocol bounds delays instead.
- The `stop` of the updater is modelled in its loop but not in the lease protocol, since the service never calls it; a process that ends crashes there.
- A failure to obtain the sync storage in the updater's loop leads to a call on a nil storage; in the protocol it is the crash of the process.
- Debounce.Cluster.Sync: stands for both SyncApp and SyncJob from the annotation on; fetching and patching the resource, and the sources that are skipped before it, are foreign calls.
- RuleTypes.Validate: the DNS and CIDR library functions are parameters, so nothing is said of what they accept; letters are folded in ASCII only.
- LogicCaching.LogicCache.LogicFromRule: takes the cache key to be injective on sources, as the JSON of valid strings is; the lock is not modelled.
- ServiceAPI.Stores.MarkAll: does not model the answer that no rule was modified, because the removals of the service ignore it; the deletion of one rule past the service does answer it in `ServiceCalls.Plan`.
- ServiceAPI.Service.AddRule: takes the base rule as the handler passes it, with its id cleared (api/service.go:223), where serial runs are concerned.
- RuleFilter.FindByRule: takes the collection as a sequence in the order of ids; reading it from the store is not modelled.
- Removals that run while adds do are not claimed to be sound; `ServiceRace.dfy` shows why.
- Runs take rules saved outside the service not to carry its owner metadata, which the public handler does not check; `ServiceSound.OutsideSaveKeepsSoundIff` says what such a save does.
- The unique index on rule names can refuse an insertion outside the service; here such an insertion takes place or not.
- HTTP handlers, authentication, metrics, command line, Kubernetes and tsuru clients, the storage of synced ACL ids and printing of rules would only add easy members.
