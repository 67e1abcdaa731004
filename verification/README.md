# SkyFeed: a verified model of its core

SkyFeed is a live ADS-B pipeline. Feeders publish snapshots of aircraft, a manager merges them into a
community view, a rule engine and a movement monitor raise alerts, and bounded queues deliver and
store what results. This project models the parts of that pipeline that are hard to get right and
proves what they promise, for all inputs and all runs.

`dafny verify dfyconfig.toml` checks everything. One module stands for one component:

| module | component |
|---|---|
| `Text`, `Domain` | strings and their order, aircraft, feeder IDs, the admission check |
| `Aggregate` | the feeder manager and its two-pass `Rebuild` |
| `Normalise` | in-place sorting and compaction of one feeder's aircraft |
| `Signing`, `AgentProtocol` | the signed agent protocol: envelope bytes, agent, ingress, feeder rows |
| `RuleIndex`, `WatchRules`, `RuleCalls`, `RuleTrials`, `RuleEngine` | the rule index, the life of one alert record, runs of calls, the engine |
| `Traces`, `Emergencies`, `Movement` | event traces and runs of calls, emergency alerts, movement inference |
| `Line` | line drawing |
| `Outbound`, `DropOldest`, `TokenBucket` | the outbound scheduler, the drop-oldest queues, the rate limiter |
| `Failover`, `RecencyList`, `RouteCache`, `TrackStore`, `TrackRuns` | provider failover and the bounded stores |
| `Rollups`, `Subsequence`, `Writer` | the batch writer and its coalesced rollups |

How the model is built:

- Code that changes state is a class or a method with loops; its contract ties the new state to a
  function of the old one, and the theorems are about that function. Concurrent code is a state
  machine in which one critical section, one channel operation or one counter update is one step.
- Times are integers in nanoseconds (reals in the rate limiter) and Go's zero time is `None`. Map
  iteration order, select choices, clocks, the network, the disk and the sink are free inputs.
- Ghost traces connect the alert engines to their theorems: each map of records is at all times the
  replay of one event sequence per key. Every call says exactly which events each sequence gains, so
  the theorems about sequences become theorems about the alerts that any two calls return.
- Theorems come in both directions: what an alert, a publication or a stored row needs, and what is
  enough for it, stated on the inputs with the thresholds written out.

Where a property holds only under a condition, the condition is part of the model:

- Two alerts of a watch rule are always a cooldown apart, across age pruning, exactly when the
  cooldown is at most seven days and one nanosecond (`WatchRules.CooldownHoldsExactly`).
- Enrolling a feeder again starts over at sequence number 1, so published sequence numbers may
  decrease. Enrolling keeps them in order if and only if nothing above sequence number 1 has been
  published for the feeder (`AgentProtocol.EnrolmentIsSafeExactly`, `AgentProtocol.FeederNeverGoesBack`).
- A pending envelope gets through in every reachable state when it is delivered within two minutes of
  its signing (`AgentProtocol.PendingGetsThrough`). It keeps its timestamp, so an agent that was cut off
  for longer sends nothing else and stays shut out until it restarts (`AgentProtocol.StaleStaysPending`).
- Two samples of one aircraft in one snapshot share a timestamp. Track timestamps stay strictly
  increasing if and only if no report names an aircraft that the same snapshot has already sampled
  (`TrackRuns.StrictExactly`). Published views name every aircraft once, so the tracks they feed are
  always strict (`TrackRuns.FedTracksAreStrict`). Binary-search pruning needs only the weaker order,
  which always holds.
- The batch writer loses something if and only if a flush of something nonempty fails for good, or a
  last flush of something nonempty does not succeed (`Writer.LostExactly`, `Writer.LostInLife`). A flush
  under way when its context is cancelled counts as such a failure, so a shutdown at that moment gives
  up the batch (`Writer.CancelledFlushLosesBatch`).
- `signingBytes` is injective for feeder IDs of any length, not only for the validated ones: the
  fixed-width fields after the ID determine where it ends (`Signing.SignedBytesInjective`).

## Model

| member | source | states |
|---|---|---|
| `Domain.ValidSnapshotAircraft` | internal/state/manager.go:395-405 | the loop accepts exactly the lists that are strictly increasing by ICAO with every ICAO nonempty, trimmed and upper case |
| `Aggregate.MergeUnique` | internal/state/manager.go:281-356 | the set of reports of the enabled feeders determines the aggregate: two merges of the same reports are equal, entry by entry and index by index |
| `Aggregate.MergedItemUnique` | internal/state/manager.go:297-352 | two entries for one ICAO that both satisfy the merge specification are equal, including ties between feeders and the borrowed emergency |
| `Aggregate.EmergencyShownIffReported` | internal/state/manager.go:345-349 | an entry shows an emergency if and only if some enabled feeder reports that aircraft in emergency |
| `Aggregate.ReportsExactly` | internal/state/manager.go:220-300 | the reports merged are exactly those in the snapshots of enabled feeders, each seen its own age before the fetch, a negative age counting as none |
| `Aggregate.MergeShowsFreshest` | internal/state/manager.go:382-393 | every entry of a merge shows, apart from SeenBy and a borrowed emergency, a report such that no other of its ICAO was seen later, has a position where it has none at the same time, or has more messages at equal time and position; in all else equal it is of the smallest feeder |
| `Aggregate.BestOfIsBest` | internal/state/manager.go:382-393 | processing feeders in ID order and replacing only by a better report leaves the report that the merge specification asks for, ties to the smallest feeder ID |
| `Aggregate.EmergencyOfIsLatest` | internal/state/manager.go:306-311 | the fallback kept by the first pass is the latest emergency report, ties to the smallest feeder ID |
| `Aggregate.SeenByIsSorted` | internal/state/manager.go:329-352 | the names written for one ICAO are strictly increasing and are exactly the feeders that report it |
| `Aggregate.SelectBest` | internal/state/manager.go:281-319 | pass one ends with one map entry per reported ICAO holding its best report, its emergency fallback and its exact number of reports, and the key list has each once |
| `Aggregate.AssignOffsets` | internal/state/manager.go:321-328 | the slices lie next to each other in key order from 0 to the total, and nothing else of the entries changes |
| `Aggregate.SlicesDisjoint` | internal/state/manager.go:322-337 | slices of two different aircraft share no arena cell and lie inside the arena |
| `Aggregate.ArenaExact` | internal/state/manager.go:322-337 | the arena has exactly as many cells as there are reports, so the slices tile it |
| `Aggregate.FillArena` | internal/state/manager.go:329-337 | pass two ends every cursor at its count and every slice holds the feeders of its aircraft in order |
| `Aggregate.PassesMerge` | internal/state/manager.go:281-356 | exact summaries and an exactly filled arena make the published view the declarative merge |
| `Aggregate.FeederManager.Register` | internal/state/manager.go:69-96 | malformed, reserved and badly named feeders are refused without effect; otherwise the descriptor is replaced and a stored snapshot stays |
| `Aggregate.FeederManager.Remove` | internal/state/manager.go:104-109 | the feeder disappears and no other changes |
| `Aggregate.FeederManager.Publish` | internal/state/manager.go:111-130 | a snapshot is stored if and only if it is admissible and its feeder is registered and enabled |
| `Aggregate.FeederManager.CollectInputs` | internal/state/manager.go:220-249 | the inputs come in strictly increasing feeder order and hold exactly the reports of the enabled feeders |
| `Aggregate.FeederManager.Rebuild` | internal/state/manager.go:215-380 | the published aggregate is the declarative merge of the stored snapshots: one entry per ICAO, strictly sorted, inverse to the index, emergency fallback and sorted SeenBy; every entry shows the freshest report of its aircraft, by time seen, then position, then messages |
| `Normalise.NormalizeIcao` | internal/state/engine.go:314-322 | the scan that skips clean values returns the same as trimming and upper-casing always |
| `Normalise.CanonicalIsStable` | internal/state/engine.go:314-322 | a normalised ICAO needs neither trimming nor upper-casing again |
| `Normalise.SortByIcao` | internal/state/engine.go:288-291 | the array ends in nondecreasing ICAO order with the same elements |
| `Normalise.Compact` | internal/state/engine.go:292-306 | compacting a sorted array in place keeps, for every nonempty ICAO, one report that no other beats, strictly sorted |
| `Normalise.Prepare` | internal/state/engine.go:276-287 | every ICAO is normalised in place, and the flag is only set when the result is strictly sorted without empty ICAOs |
| `Normalise.FastPathAgrees` | internal/state/engine.go:276-307 | on a batch that is already strictly sorted, every compaction equals the batch, so skipping the slow path changes nothing |
| `Normalise.CompactionIsAdmissible` | internal/state/manager.go:395-405 | whatever compaction produces passes the manager's admission check |
| `Normalise.CompactionKeepsFreshest` | internal/state/engine.go:292-306 | for every report with an ICAO the compacted list holds one of the same ICAO that is no older, has a position if that one has at equal age, and has no fewer messages at equal age and position |
| `Normalise.BuildNewAircraft` | internal/state/engine.go:273-312 | the whole operation yields a compaction of the normalised batch and an admissible list, on both paths, and keeps the freshest report of every aircraft |
| `Signing.BigEndianRoundTrip` | internal/source/agent/protocol.go:244-254 | decoding the fixed-width big-endian bytes of a number gives the number back |
| `Signing.SigningBytes` | internal/source/agent/protocol.go:244-254 | the buffer built by appending is the specified layout of prefix, length, ID, sequence, time and hash |
| `Signing.SignedBytesInjective` | internal/source/agent/protocol.go:244-254 | equal signed bytes if and only if equal version, feeder ID, sequence, millisecond timestamp and payload hash |
| `AgentProtocol.FeederStore.AcceptFeederSequence` | internal/storage/sqlite/store_feeders.go:197-238 | a sequence is accepted if and only if the row exists, is enabled, has a key and its mark is lower, however large the gap; it is a duplicate if and only if it equals the mark with the same payload; everything else is rejected and changes nothing |
| `AgentProtocol.FeederStore.ConsumeFeederEnrollment` | internal/storage/sqlite/store_feeders.go:137-174 | it succeeds if and only if the token is known, unconsumed, unrevoked and unexpired and its feeder exists; then the row is enabled under the new key with the sequence restarted, the token is consumed, and no other token changes |
| `AgentProtocol.FeederStore.RevokeFeeder` | internal/storage/sqlite/store_feeders.go:176-195 | a revoked agent row is disabled and has no key, and none of its outstanding tokens can be redeemed any more |
| `AgentProtocol.AgentClient.Send` | internal/source/agent/client.go:153-193 | a pending envelope is posted again unchanged; a new one is posted only after its sequence number is on disk; only an acknowledgement clears it |
| `AgentProtocol.AgentClient.Restart` | internal/source/agent/client.go:132-151 | after a crash the agent has what the credential file holds and nothing pending |
| `AgentProtocol.RetryLeavesSequenceAlone` | internal/source/agent/server.go:224-256 | processing an accepted envelope again, whether the manager published or refused it, leaves the row unchanged, and within the clock skew it is published exactly when it decodes and the manager admits it |
| `AgentProtocol.DeliveryAdvances` | internal/source/agent/server.go:224-256 | a delivery never lowers the row's sequence, and whatever it publishes or acknowledges is the row's new mark under the enrolled key |
| `AgentProtocol.StepKeepsInv` | internal/source/agent/server.go:224-256 | every step of agents, server, administrator and network keeps the protocol invariant |
| `AgentProtocol.RunKeepsInv` | internal/source/agent/client.go:153-193 | the protocol invariant holds in every run with loss, duplication, reordering, alteration and crashes |
| `AgentProtocol.NoSequenceReuse` | internal/source/agent/client.go:153-193 | in every run two posted envelopes with the same key and sequence number are the same envelope |
| `AgentProtocol.PublishedNeverGoesBack` | internal/source/agent/server.go:224-256 | in every run later publications of one enrolment never have a smaller sequence, and equal sequences mean equal payloads |
| `AgentProtocol.PublishedIsGenuine` | internal/source/agent/protocol.go:221-242 | whatever is published was posted, with that feeder, sequence and payload, under the enrolled key |
| `AgentProtocol.AcknowledgedWasPublished` | internal/source/agent/server.go:170-202 | an agent gives up its pending envelope only in a crash or after the server published it |
| `AgentProtocol.PublishedExactly` | internal/source/agent/server.go:224-256 | one call publishes if and only if the row is an enabled agent row with a key, the envelope is well formed, within two minutes, signed under that key over its own fields, decodes and is admitted, and its sequence is above the mark or repeats it with the same payload |
| `AgentProtocol.RunKeepsFlowing` | internal/source/agent/client.go:153-193 | in every run a pending envelope is the newest of its key, and the mark of every enrolled row was set by an envelope posted under its key |
| `AgentProtocol.GenuineGetsThrough` | internal/source/agent/server.go:224-256 | in every reachable state an envelope posted under the row's key, not below the row's mark and delivered within two minutes, is published exactly when it decodes and is admitted |
| `AgentProtocol.PendingGetsThrough` | internal/source/agent/client.go:153-193 | in every reachable state the pending envelope of an agent whose key the row has, posted and delivered within two minutes, is published exactly when it decodes and is admitted, whatever crashes, losses and replays came before |
| `AgentProtocol.NextSendGetsThrough` | internal/source/agent/client.go:162-177 | in every reachable state an enrolled agent with nothing pending signs the next number over its payload, and post and delivery in time publish it: numbers saved and never posted do not shut it out |
| `AgentProtocol.StaleStaysPending` | internal/source/agent/client.go:162-192 | once deliveries come more than two minutes after a pending envelope was signed, it stays pending and unacknowledged in every continuation in which the agent does not restart |
| `AgentProtocol.FeederNeverGoesBack` | internal/storage/sqlite/store_feeders.go:197-238 | per feeder, published sequences never decrease in every run that enrols the feeder only while nothing above sequence 1 has been published for it |
| `AgentProtocol.EnrolmentIsSafeExactly` | internal/storage/sqlite/store_feeders.go:137-174 | in any state, enrolling a feeder now keeps its published sequences in order in all continuations if and only if nothing above sequence 1 has been published for it |
| `AgentProtocol.ReenrolmentStartsOver` | internal/storage/sqlite/store_feeders.go:137-174 | from any state of the system, six steps that enrol a feeder again publish sequence number 1 |
| `RuleIndex.BuildIndex` | internal/rules/index.go:49-112 | for every scope, kind and value the index holds exactly the enabled rules of the list in order, the fingerprint map is that of the last indexed rule of each ID, and prefix lengths are strictly ascending |
| `RuleIndex.BucketsAreTheScan` | internal/rules/index.go:66-105 | counting a rule over the exact buckets and the prefix buckets gives its count in the scan of all rules |
| `RuleIndex.LookupsAreTheScan` | internal/rules/engine.go:186-195 | the buckets an aircraft's identity leads to hold the same rules, the same number of times, as the scan of all rules |
| `RuleIndex.NoHitsLonger` | internal/rules/engine.go:190-195 | past the first prefix length longer than the callsign no bucket is looked up, so the early exit loses nothing |
| `RuleIndex.MatchIdentity` | internal/rules/engine.go:186-195 | the loop with its early exit returns exactly the buckets in order, and as a multiset the scan of all rules |
| `RuleIndex.ScanMember` | internal/rules/engine.go:186-195 | the scan contains a rule if and only if it is enabled, in scope (local if it names none), and its value, trimmed and upper-cased, equals the identity it asks for or begins the callsign |
| `RuleIndex.EachMatchOnce` | internal/rules/engine.go:186-195 | with distinct rule IDs every matching rule is found exactly once |
| `RuleIndex.MaxSeenRetention` | internal/rules/index.go:121-134 | the retention of sightings is half an hour or the longest quiet time of a first-seen rule, whichever is more |
| `WatchRules.PruningKeepsActive` | internal/rules/engine.go:463-517 | neither age nor capacity pruning changes an active record |
| `WatchRules.StaysActive` | internal/rules/engine.go:318-359 | a fired record stays active until some event clears it |
| `WatchRules.AlertsAlternateWithClears` | internal/rules/engine.go:318-359 | between two alerts under one condition there is a clear, in every sequence of evaluations, sweeps and prunings |
| `WatchRules.AlertNeedsMinimum` | internal/rules/engine.go:338-353 | an alert has at least the required number of matches of its own condition since every event that cleared, dropped or took over its record |
| `WatchRules.EveryMatchCounts` | internal/rules/engine.go:338-346 | with no clear, drop, take-over or effective pruning in between, every match counts until the record is active or the minimum is reached |
| `WatchRules.EnoughMatchesFire` | internal/rules/engine.go:338-353 | the match that brings the uninterrupted matches to the rule's minimum leaves the record active, or its last firing is less than the cooldown back |
| `WatchRules.LastFiringHappened` | internal/rules/engine.go:347-353 | the last firing that a record remembers is a firing of its trace at that time, or was restored |
| `WatchRules.FiringIsRemembered` | internal/rules/engine.go:472-478 | a firing stays remembered until a pruning that comes more than the retention later |
| `WatchRules.CooldownSurvivesAgePruning` | internal/rules/engine.go:338-353 | two alerts are at least the cooldown apart across clears and age pruning when the cooldown fits the retention |
| `WatchRules.CooldownHoldsExactly` | internal/rules/engine.go:472-478 | alerts of all runs keep the cooldown if and only if it is at most the seven-day retention plus one nanosecond |
| `RuleEngine.Decide` | internal/rules/engine.go:318-359 | the branches of `matchRecord` compute the specified record, and it fires if and only if the rule matches, the record of this condition is not active, counts with this match the rule's minimum (two if it states none) and last fired at least the cooldown ago |
| `RuleCalls.GainsAreExplained` | internal/rules/engine.go:130-294 | every event that a call adds to a trace carries the call's time and number and a rule of its index, or is the sweep, pruning or drop of that call |
| `RuleCalls.ScanIsObserved` | internal/rules/engine.go:173-214 | whatever rule the scan of all rules finds for an aircraft of the snapshot is observed as a match by the evaluation |
| `RuleCalls.SweepClearsExactly` | internal/rules/engine.go:215-232 | after its sweep a record is active if and only if it was and this evaluation saw it, or it is best effort and the snapshot still names its aircraft |
| `RuleCalls.CallsAlternateWithClears` | internal/rules/engine.go:130-238 | between two calls that return an alert for one rule and aircraft, some call swept the record or observed that the rule no longer matches; it is one of the two calls only if that tried the rule twice |
| `RuleCalls.CallsKeepCooldown` | internal/rules/engine.go:130-238 | two calls that return an alert for one rule and aircraft are at least the cooldown apart by their own times, across clears and age pruning |
| `RuleCalls.AlertTakesCallsSinceClear` | internal/rules/engine.go:318-359 | since the last clear an alert takes at least as many calls with a match as its rule demands, when calls try the rule on the aircraft at most once |
| `RuleCalls.EnoughCallsAlert` | internal/rules/engine.go:318-359 | calls that observe as many matches as the rule demands, with no interruption, include one that alerts, or the record was active before them, or an earlier alert is less than the cooldown back by the times of the calls |
| `RuleTrials.OneTrial` | internal/rules/engine.go:173-214 | an evaluation tries a rule at most once on an aircraft that its snapshot names once, when rule IDs are distinct |
| `RuleTrials.OneMetadataTrial` | internal/rules/engine.go:243-294 | an enrichment tries a rule at most once, when rule IDs are distinct |
| `RuleTrials.AlertTakesEvaluations` | internal/rules/engine.go:318-359 | with snapshots that name the aircraft once and distinct rule IDs, an alert takes at least the rule's minimum of different evaluations with a match since the last clear |
| `RuleTrials.FirstSeenMeansQuiet` | internal/rules/engine.go:174-213 | whenever a call alerts for a first-seen rule, every earlier call that showed the aircraft lies at least the quiet time back, unless a call in between had no room for the sighting |
| `RuleTrials.PlainRulesOnly` | internal/rules/index.go:82-88 | an ID that only radius, only altitude or only first-seen rules have is tried in no other way |
| `RuleTrials.RadiusAlertIsInside` | internal/rules/engine.go:196-204 | a call that alerts for a radius rule is an evaluation whose snapshot shows the aircraft at a distance within the enter threshold |
| `RuleTrials.RadiusClearIsOutside` | internal/rules/engine.go:196-204 | an observation clears the record of a radius rule only when the aircraft has no distance or is outside the exit threshold, or outside the enter threshold where there is no exit threshold |
| `RuleTrials.AltitudeAlertIsInBand` | internal/rules/engine.go:205-208 | a call that alerts for an altitude rule is an evaluation whose snapshot shows the aircraft in the rule's band |
| `RuleTrials.MetadataMatchesExactly` | internal/rules/engine.go:243-294 | an enrichment observes a match of a metadata rule if and only if the value reported for its kind is the rule's value, trimmed and upper-cased, and not empty |
| `RuleTrials.ScanFinds` | internal/rules/engine.go:186-195 | an evaluation finds every identity rule that the scan of all rules matches on an aircraft of its snapshot, whatever the record says |
| `RuleTrials.RadiusFinds` | internal/rules/engine.go:196-204 | an evaluation finds a radius rule on an aircraft inside both of its thresholds, whatever the record says |
| `RuleTrials.AltitudeFinds` | internal/rules/engine.go:205-208 | an evaluation finds an altitude rule on an aircraft in its band |
| `RuleTrials.FirstSeenFinds` | internal/rules/engine.go:209-213 | an evaluation finds a first-seen rule on an aircraft that is not on record or was last seen its quiet time ago |
| `RuleTrials.FoundIsAlerted` | internal/rules/engine.go:318-359 | a rule that as many consecutive evaluations find as it demands (two if it states none) is alerted by one of them, unless its record was active before or an earlier alert is less than the cooldown back |
| `RuleEngine.ScopeRuntime.MatchRecord` | internal/rules/engine.go:303-359 | only the record of this rule and aircraft changes, its trace gains exactly this observation, and an alert is appended exactly when it fires |
| `RuleEngine.ScopeRuntime.MatchRules` | internal/rules/engine.go:296-301 | every rule of a list is tried once, in order, with the verdict its mode gives on the record as it then is; no other trace changes |
| `RuleEngine.ScopeRuntime.EvaluateAircraft` | internal/rules/engine.go:173-214 | the rules its identity leads to, then the radius, altitude and first-seen rules are tried on the aircraft, each with the verdict of its kind on the record as it then is, and its sighting is recorded |
| `RuleEngine.ScopeRuntime.EvaluateAll` | internal/rules/engine.go:173-214 | the traces gain exactly the trials of the snapshot and the sightings are exactly those before with every aircraft seen now |
| `RuleEngine.ScopeRuntime.SweepUnseen` | internal/rules/engine.go:215-232 | exactly the active records that this evaluation did not see are cleared, apart from best-effort ones whose aircraft is still visible |
| `RuleEngine.ScopeRuntime.PruneByAge` | internal/rules/engine.go:472-478 | exactly the inactive records last seen more than seven days ago go, and exactly their traces say so |
| `RuleEngine.ScopeRuntime.PruneByCapacity` | internal/rules/engine.go:496-515 | only inactive records go, longest unseen first, and no more of them than the bound needs |
| `RuleEngine.ScopeRuntime.PruneSeenByCapacity` | internal/rules/engine.go:479-495 | the bound holds, only the oldest sightings go to meet it, and no more of them than it needs |
| `RuleEngine.ScopeRuntime.Prune` | internal/rules/engine.go:463-517 | exactly the sightings that age and bound allow stay, likewise the records apart from active ones, none of which is removed, and every trace gains exactly the pruning of its record |
| `RuleEngine.ScopeRuntime.Evaluate` | internal/rules/engine.go:130-238 | every key's trace gains exactly the trials of this snapshot at this time under this number, then its sweep; the sightings are those before with every aircraft seen now; both are pruned exactly every 300th time or when a map is too large; the alerts are exactly the firings gained |
| `RuleEngine.ScopeRuntime.ReplaceRules` | internal/rules/engine.go:85-107 | records survive exactly without a rule ID, or under an enabled rule with the same fingerprint, and exactly the others' traces gain a drop |
| `RuleEngine.ScopeRuntime.EvaluateEnrichment` | internal/rules/engine.go:243-294 | every metadata rule is tried once, at this time under this number, and matches exactly when it is for the reported value; the alerts are exactly the firings gained |
| `Emergencies.AlertsAreSeparatedByAllClear` | internal/rules/engine.go:361-425 | between two emergency alerts for one aircraft lies a non-emergency observation of the local or community view, under any interleaving of scopes and pruning |
| `Emergencies.ActiveUntilAllClear` | internal/rules/engine.go:361-393 | after an alert the emergency stays active until such an observation |
| `Emergencies.CallsAreSeparatedByAllClear` | internal/rules/engine.go:130-165 | between two calls that alert for one aircraft, the local or community view was given a snapshot showing it without emergency, which is one of the two calls only if that names the aircraft twice |
| `Emergencies.NoEmergencyIsMissed` | internal/rules/engine.go:361-393 | when a call shows an emergency, this or an earlier call has alerted, or the alert was restored as active, and no call in between has seen an all-clear |
| `Emergencies.EmergencyMonitor.EvaluateEmergency` | internal/rules/engine.go:361-393 | the trace gains exactly this observation, the record takes its step, and the alert list grows exactly when it fires |
| `Emergencies.EmergencyMonitor.Evaluate` | internal/rules/engine.go:145-165 | every aircraft's trace gains exactly the observations of this snapshot by this scope at this time, the alerts are exactly the firings gained, and the records are pruned exactly every 300th time or when they are too many, only by the local and community views |
| `Emergencies.EmergencyMonitor.Prune` | internal/rules/engine.go:395-425 | no active emergency goes, no expired record stays, the longest unseen go first and no more than the limit needs, and the traces gain exactly these prunings |
| `Movement.DepartureNeedsGround` | internal/rules/movement.go:252-285 | a departure alert has an on-ground sample within 3 NM behind it, newer than any earlier departure alert |
| `Movement.LandingNeedsFlight` | internal/rules/movement.go:287-309 | a landing alert has an approach alert or a low airborne sample within 5 NM behind it, newer than any earlier landing alert |
| `Movement.ThreeInARow` | internal/rules/movement.go:196-309 | every alert comes with three samples in a row of that aircraft that show its trend: climbing away within 8 NM and 5000 ft, on the ground within 3 NM, or descending towards the airport within 10 NM at 100 to 5000 ft |
| `Movement.DerivedFromSamples` | internal/rules/movement.go:146-159 | a closing speed is derived exactly from a previous sample at most thirty seconds old, is positive exactly when the distance shrank, and times the hours passed gives the distance lost; a reported vertical rate is used as it is, a derived one is within half a foot per minute of the climb |
| `Movement.CompatibleExactly` | internal/rules/movement.go:196-309 | the conditions of the three machines on a track and a derived trend are exactly the stated trends of the last two samples, with their distances, rates, headings and speeds |
| `Movement.ThreeRaise` | internal/rules/movement.go:196-309 | three samples in a row that show a trend, with the ground or air evidence before them (for an approach, every earlier one ended) and ten minutes since the last such alert, raise the alert at the third or earlier |
| `Movement.AlertsKeepTheirDistance` | internal/rules/movement.go:102-194 | two alerts of one kind for one aircraft are at least ten minutes apart, even when the track was deleted as stale in between |
| `Movement.DepartureHasGroundCall` | internal/rules/movement.go:102-285 | a call that announces a departure follows a call that was shown the aircraft on the ground within 3 NM since the previous such call |
| `Movement.LandingHasFlightCall` | internal/rules/movement.go:102-309 | a call that announces a landing follows a call that was shown the aircraft low within 5 NM, or announced its approach, since the previous such call |
| `Movement.CallsKeepTheirDistance` | internal/rules/movement.go:102-194 | two calls that announce the same kind of movement of one aircraft are ten minutes apart by their own times |
| `Movement.ThreeCallsInARow` | internal/rules/movement.go:102-309 | a call that announces a movement is the third in a row that was shown the aircraft with that trend, when calls name it at most once; between the three nothing happened to it |
| `Movement.ThreeCallsRaise` | internal/rules/movement.go:102-309 | of three calls that are shown the trend with nothing happening to the aircraft in between, the evidence before them and the cooldown over, one announces the movement |
| `Movement.MovementMonitor.EvaluateSighting` | internal/rules/movement.go:115-184 | a sighting without readsb report, ICAO or room changes nothing; otherwise exactly its own track takes the step of the sample, its trace gains it, and its alerts are appended |
| `Movement.MovementMonitor.Evaluate` | internal/rules/movement.go:102-194 | every sighted aircraft's trace gains exactly its samples at this time, unless it is new and the table is full; any other track goes exactly when stale; the alerts are exactly those of the events gained |
| `Movement.MovementMonitor.DropStale` | internal/rules/movement.go:185-192 | exactly the tracks outside the snapshot that are unseen for longer than half an hour go, and exactly their traces say so |
| `Line.Canvas.DrawLine` | internal/track/plot.go:159-186 | for all endpoints the loop ends after exactly max(\|dx\|, \|dy\|) steps, from start to end, each pixel adjacent to the last and within half a pixel of the ideal line, and paints exactly those pixels inside the image |
| `Line.StepsNext` | internal/track/plot.go:176-184 | one iteration always moves the major axis and keeps the error term equal to its closed form within its bounds |
| `Line.NotYetThere` | internal/track/plot.go:169-175 | while the end is not reached the major axis has steps left, so the loop cannot pass the end |
| `Line.StepsNearIdeal` | internal/track/plot.go:159-186 | the error bound means at most half a pixel of distance along the minor axis |
| `Outbound.StepKeepsInv` | internal/discord/outbound.go:78-150 | every single step of callers and workers keeps conservation, queue typing and bounds, and one job per key |
| `Outbound.RunKeepsInv` | internal/discord/outbound.go:130-150 | these hold in every interleaving of any number of calls with the four workers |
| `Outbound.OneJobPerKey` | internal/discord/outbound.go:180-212 | at most one alert or report job per nonempty key is queued or held by a worker, and the key is reserved exactly while there is one |
| `Outbound.AttemptsAreBounded` | internal/discord/outbound.go:257-283 | in every run a worker starts no fourth attempt, a job that may not be retried gets one attempt, and only a job that may be retried waits for another |
| `Outbound.FailureIsRetried` | internal/discord/outbound.go:257-283 | in every run a failed, uncancelled attempt of a job that may be retried is counted as retried and followed by another until three have failed; otherwise the job has failed |
| `Outbound.FirstInFirstOut` | internal/discord/outbound.go:78-128 | in every interleaving the jobs taken from a lane are the first ones put into it, in that order, and the rest is queued |
| `Outbound.SubmissionsAreConserved` | internal/discord/outbound.go:78-128 | submissions = succeeded + failed + queued + running + dropped + coalesced whenever no call still owes a counter |
| `Outbound.Scheduler.EnqueueDeduplicated` | internal/discord/outbound.go:180-203 | an uninterrupted call is a run of the state machine; it coalesces exactly when the key is reserved, is refused exactly when it does not coalesce and the queue is full, and then undoes the reservation |
| `Outbound.Scheduler.EnqueueDashboard` | internal/discord/outbound.go:103-122 | uninterrupted, the slot ends holding exactly the new job, and a replaced job is counted as coalesced |
| `Outbound.Scheduler.EnqueueBlocking` | internal/discord/outbound.go:83-100 | the call ends accepted, or dropped when its context is cancelled, as the state machine says |
| `Outbound.Scheduler.Execute` | internal/discord/outbound.go:257-283 | a job that may not be retried gets one attempt; a retryable one succeeds if and only if one of three tries succeeds with no earlier one cancelled, and fails only after three tries or a cancellation; the counters change by exactly the outcome and the retries, and the loop is a run of the state machine |
| `DropOldest.StepKeepsInv` | internal/rules/queue.go:27-83 | every step of a producer or a consumer keeps the pending set exact and the counters balanced |
| `DropOldest.PendingIsExact` | internal/enrichment/service.go:79-120 | in every interleaving the pending set is the keys queued plus in flight, none twice |
| `DropOldest.NothingIsLost` | internal/rules/queue.go:27-83 | normal submissions = coalesced + popped + dropped + depth |
| `DropOldest.NewKeyIsAdmitted` | internal/enrichment/routes.go:231-272 | with capacity at least one the send after an eviction always succeeds, whatever consumers do in between |
| `DropOldest.NoCapacityDrops` | internal/rules/queue.go:45-63 | without capacity a submission is counted as dropped and leaves no pending key |
| `DropOldest.FirstInFirstOut` | internal/rules/queue.go:27-83 | entries leave, popped or evicted, in the order of admission |
| `DropOldest.Queue.Enqueue` | internal/rules/queue.go:27-64 | a call that no consumer interrupts is one or three steps of the machine and admits its key when there is any capacity |
| `DropOldest.Queue.Receive` | internal/enrichment/service.go:165-177 | the oldest entry is taken and becomes in flight |
| `DropOldest.Queue.Clear` | internal/enrichment/routes.go:663-669 | finishing an entry frees exactly its key |
| `TokenBucket.Limiter.TryTake` | internal/enrichment/service.go:272-293 | one pass through the loop grants exactly when the tokens plus rate times elapsed time reach one, and otherwise sleeps until the first instant that would grant |
| `TokenBucket.SleepIsEnough` | internal/enrichment/service.go:278-290 | after the computed sleep an undisturbed waiter is granted, and not a moment sooner |
| `TokenBucket.StaysSound` | internal/enrichment/service.go:272-293 | tokens stay between zero and the burst over every sequence of attempts |
| `TokenBucket.Budget` | internal/enrichment/service.go:272-293 | grants plus remaining tokens never exceed the burst plus what time has added |
| `TokenBucket.RateBound` | internal/enrichment/service.go:256-293 | in any window of length T at most burst + rate * T grants are made, by any number of waiters |
| `Failover.AircraftFailover.FetchLower` | internal/source/failover.go:143-156 | the first answering provider from the given index on becomes active; a failed round changes nothing |
| `Failover.AircraftFailover.ProbeHigher` | internal/source/failover.go:100-122 | probes count or reset per provider, the first with enough successes takes over at once, and otherwise the first that answered is remembered |
| `Failover.AircraftFailover.TakeOver` | internal/source/failover.go:124-136 | after the active provider failed the first one above it that answered takes over, or else the first one below it that answers |
| `Failover.AircraftFailover.FetchAircraft` | internal/source/failover.go:82-156 | without cancellation a call succeeds if and only if some provider answers, the frame is the active provider's own, and the state moves exactly as the switching discipline says: to the first recovered provider, or after a failure to the first that answers |
| `Failover.CountersAreStreaks` | internal/source/failover.go:104-122 | over every run each counter is the number of successful probes in a row since the last activation |
| `Failover.ReturnsOnlyWhenRecovered` | internal/source/failover.go:82-137 | over every run the failover goes up only after the required probes in a row or when the active provider failed in that call |
| `RouteCache.RunIsSound` | internal/enrichment/route_cache.go:40-95 | after any operations the list and the map hold the same keys, none twice, within the bound |
| `RouteCache.HitsAreCurrent` | internal/enrichment/route_cache.go:40-56 | whatever the cache holds for a key is the last thing set for it |
| `RouteCache.SurvivesEviction` | internal/enrichment/route_cache.go:58-80 | a key stays cached, unchanged, while fewer than `max` distinct other keys have been touched since it was |
| `RouteCache.AgreesWithTimedMap` | internal/enrichment/route_cache.go:40-95 | over whole runs the cache answers for a key like an unbounded timed map, value, staleness and miss alike and also after a lookup removed the entry, while never `max` other keys were touched since the key was and its lookups do not run backwards |
| `RouteCache.TtlLru.Get` | internal/enrichment/route_cache.go:40-56 | a hit returns the stored result, stale once past expiry, never from the stale deadline on, and moves the key to the front |
| `RouteCache.TtlLru.Set` | internal/enrichment/route_cache.go:58-80 | the key is stored at the front and at most the least recent other key is evicted |
| `TrackStore.FirstKept` | internal/track/store.go:175-188 | the binary search splits a time-ordered track exactly at the expiry |
| `TrackStore.SampledIsStrict` | internal/track/store.go:97-145 | a sample of an aircraft not yet sampled in this snapshot keeps every track strictly increasing in time |
| `TrackStore.AllFromThisSnapshot` | internal/track/store.go:110-121 | if the list's last record is from this snapshot then all are, so refusing is right |
| `TrackStore.TrackStore.Prune` | internal/track/store.go:175-195 | exactly the expired points go, and exactly the records without others; map and list stay in step and in order |
| `TrackStore.TrackStore.MakeRoom` | internal/track/store.go:108-124 | room is refused only when every place is taken by an aircraft of this snapshot; otherwise only the record sampled longest ago gives up its place, if one must |
| `TrackStore.TrackStore.Observe` | internal/track/store.go:87-146 | the new store is the specified one: the gate ignores early snapshots, expired points go, and the reports are sampled one by one; soundness, bounds and order hold, and every eligible aircraft is sampled or the store is full of this snapshot |
| `TrackRuns.ExactlyFirstNames` | internal/track/store.go:103-129 | exactly the first `maxAircraft` different eligible names of a snapshot are sampled |
| `TrackRuns.ObservedPoints` | internal/track/store.go:87-146 | after a call a track holds the last points, up to the limit, of the unexpired ones followed by this snapshot's samples, and tracks come and go only so; only a full store makes a track start over or go |
| `TrackRuns.StrictExactly` | internal/track/store.go:97-145 | timestamps stay strictly increasing if and only if no report names an aircraft already sampled in the same snapshot, or tracks hold one point |
| `TrackRuns.PublishedNamesOnce` | internal/state/manager.go:339-356 | the published view of admissible snapshots names every aircraft once, in its normal form |
| `TrackRuns.FedTracksAreStrict` | internal/app/app.go:329-330 | tracks fed by published views, at any times, stay sound and strictly increasing in time |
| `Rollups.SameKeySameHour` | internal/storage/writer.go:156-169 | two rollups share a key if and only if they share guild, scope and hour, before the epoch too |
| `Rollups.TotalIgnoresOrder` | internal/storage/writer.go:162-182 | sums and maxima per key do not depend on the order of the rollups |
| `Rollups.TotalIsSums` | internal/storage/writer.go:162-182 | a key has a total if and only if it has a rollup; each of the four counters is then the integer sum over its rollups, and range and peak are upper bounds that one of them reaches |
| `Rollups.AddIsMerge` | internal/storage/writer.go:162-182 | adding one rollup leaves the other hours alone; in its own hour every counter becomes the sum and range and peak the larger of the two |
| `Rollups.EnumerationTotal` | internal/storage/writer.go:184-190 | whatever order the map is walked in, the rollups written add up to what was pending |
| `Writer.StepKeepsInv` | internal/storage/writer.go:86-137 | every step keeps the order, the bounds and the rollup balance |
| `Writer.OrderIsKept` | internal/storage/writer.go:86-137 | in every run applied ++ batch ++ queue is a subsequence of the accepted events with exact counts, and equal to it until a flush fails for good |
| `Writer.RollupsAddUp` | internal/storage/writer.go:162-182 | in every run the totals applied, given up, pending and queued for an hour merge to those accepted |
| `Writer.CountersAreConserved` | internal/storage/writer.go:162-190 | in every run each counter of an hour, summed over what is applied, given up, pending and queued, equals its sum over what was accepted |
| `Writer.StoredRowsAreSums` | internal/storage/writer.go:162-190 | when everything accepted has been applied, the row of an hour has the sums of the accepted counters and the largest accepted range and peak |
| `Writer.StopsClean` | internal/storage/writer.go:110-117 | a writer that stops without a failed flush has applied everything it drained, in order and in full |
| `Writer.LostExactly` | internal/storage/writer.go:86-137 | something is lost in a run if and only if a flush of something nonempty fails for good, or a last flush of something nonempty does not succeed |
| `Writer.LostInLife` | internal/storage/writer.go:86-137 | in the life of a writer something is lost if and only if one of its flushes fails |
| `Writer.GoodSinkNeverFails` | internal/storage/writer.go:192-221 | in the life of a writer whose sink fails only transiently and answers the last flushes, no flush fails for good |
| `Writer.CancelledFlushLosesBatch` | internal/storage/writer.go:223-236 | a flush whose call is cancelled concludes as a permanent failure and gives up its batch, although the final flush would succeed |
| `Writer.AtMostSixAttempts` | internal/storage/writer.go:192-221 | the doubling delays leave time for six calls of the sink within the retry budget and for no more |
| `Writer.ConcludesExactly` | internal/storage/writer.go:192-236 | a batch is applied if and only if some call succeeds after calls that all failed busy or temporarily with time left; it fails for good if and only if after such calls one is cancelled or fails in another way |
| `Writer.BatchWriter.Enqueue` | internal/storage/writer.go:71-84 | an event is accepted if and only if the writer is not disabled and the queue has room |
| `Writer.BatchWriter.AddToBatch` | internal/storage/writer.go:162-182 | an event joins the end of the batch, or its counters are added to the rollup of its hour, whose range and peak become the larger ones; nothing else changes |
| `Writer.BatchWriter.DrainInto` | internal/storage/writer.go:145-154 | the queue is emptied into the batch in order and into the map with sums and maxima kept, one drain step for each event |
| `Writer.BatchWriter.RollupEvents` | internal/storage/writer.go:184-190 | every pending rollup is listed exactly once |
| `Writer.BatchWriter.ApplyUntil` | internal/storage/writer.go:192-221 | the sink gets the batch once if the last call succeeds and never otherwise, every earlier call failed transiently with time left, giving up means no time or no context, and only a permanent failure disables the writer |
| `Writer.BatchWriter.FlushBatch` | internal/storage/writer.go:124-128 | a flush is one step of the machine with the result the sink decided |
| `Writer.BatchWriter.FlushRollups` | internal/storage/writer.go:129-134 | a rollup flush is one step of the machine with the result the sink decided |
| `Writer.BatchWriter.Pass` | internal/storage/writer.go:93-136 | one pass through the loop flushes first when the batch or the map is full and otherwise does what it woke up for, with the result that the sink's answers lead to |
| `Writer.BatchWriter.Shutdown` | internal/storage/writer.go:111-117 | the shutdown is stop, drain and one last flush of each kind with the results that the sink's answers lead to; if nothing was given up everything accepted has been applied |
| `Writer.BatchWriter.RunLoop` | internal/storage/writer.go:86-137 | the writer's whole life is a run of the machine in which every turn and every flush does what it must; something is lost if and only if a flush fails; otherwise, and so whenever the sink fails only transiently and answers the last flushes, everything accepted has been applied |

## Left out

- Discord commands, rendering, moderation, HTTP, JSON, compression, SQL text, configuration, metrics and health: user interface and plumbing around the modelled core.
- Unicode: trimming and case mapping act on ASCII characters only and leave others alone.
- Integer widths: counters are unbounded; only the agent's 64-bit sequence number and the 64-bit fields of the signed bytes are bounded.
- Floating point: distances, speeds, thresholds and tokens are real numbers.
- Pointers: records, tracks and list elements are values; the LRU and track lists are sequences of keys.
- Aggregate.FeederManager.Rebuild: search index, statistics, health and feeder summaries of the published snapshot are not modelled, because they are folds without interaction.
- Normalise.BuildNewAircraft: the provider field and the derived distances are not modelled, because they do not affect order or choice.
- Snapshot encoding and decoding, and the publication of a public centre in place of positions: whether a payload decodes is an input.
- Enrolment or revocation in the middle of one `process` call: each happens between two deliveries.
- Each enrolment presents a key nobody used before, and a credential save that reports success is durable.
- Fairness: nothing says that the network delivers or that an agent restarts; what is proved is what a delivery does.
- The engine's table of scopes: each scope is independent, and emergencies have their own monitor; the text of alerts is not modelled.
- WatchRules.CooldownSurvivesAgePruning: excludes capacity pruning in between, because that may forget an inactive record's last firing; the same holds for RuleCalls.CallsKeepCooldown.
- Movement.AlertsKeepTheirDistance: excludes deletion by the monitor's global bound, which may forget a track early; phases and the activity display are not modelled.
- Distance, bearing and heading difference: inputs of a sample.
- `renderPlot` apart from `drawLine`, the plot cache, and the bearing and coordinates of a track point.
- Outbound.StepKeepsInv: a channel of capacity 0 that hands over directly to a waiting worker is not modelled; such a queue never has room.
- DropOldest.StepKeepsInv: the emergency lane of the alert queue is a plain blocking channel and is not modelled, nor is a hand-over through a channel of capacity 0.
- TokenBucket.Limiter.TryTake: the rounding of the sleep to whole nanoseconds is not modelled.
- The circuit breakers of the enrichment and route services, and the batching window of route requests.
- Writer.RollupsAddUp: the store's own replacement of an empty scope by the community scope is not modelled.
- Writer statistics other than the event logs, and the observer of the degraded state.
