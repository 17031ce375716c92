# Z.ai provider: verified model

This project models the stateful core of the Z.ai provider plugin and proves what it promises:
the two-phase commit of the settings over a directory whose syncs may fail, the persistence and
shutdown protocol of the runtime, the rolling-window credit estimator, the health machine of an
account, and the scheduler's pick.

| file | content |
|---|---|
| `Common`, `Machine` | times, options, constants; runs of a step function and what they keep |
| `Store` | the secure store's directory under the ordered crash model |
| `Settings`, `SettingsRuns`, `SettingsPending`, `SettingsStore` | save and recovery, all runs with crashes, when a crash can still change the outcome, the code's file updates |
| `Windows`, `Resets`, `Ledger`, `Estimator` | windows, exact resets, the ledger's loops, the unbounded estimator |
| `Consumption`, `History`, `Capacity`, `Reports` | an account's book and views; what its consumption stands for over whole runs; what its capacity reset means; how long an upstream report decides |
| `Health`, `Ladder`, `Failures`, `Unblocking` | deadlines, throttles, persistence; runs of the backoff ladder; what a failure sets and an unblock clears |
| `Quota`, `State`, `Unsavable` | parsing of the limits; the persisted-state validator; a report that blocks every save |
| `Runtime`, `WaitGroups`, `Protocol`, `Durability`, `Guarantees`, `Shutdown`, `Plans` | the snapshot's operations, the goroutines, the step machine, what survives, the promises |
| `LiveRuntime` | the runtime's regions under its locks, as they update fields |
| `Routing`, `Scheduler`, `StalePick`, `Refresh` | stickiness and round robin, the pick, a pick with a stale clock reading, single-flight refreshes |

## How to read it

Time is an integer number of nanoseconds with a distinguished zero. Operations that the source
runs in place are methods of classes (`SecureStore`, `Directory`, `AccountLedger`, `AccountHealth`,
`RoutingState`, `Router`, `PluginRuntime`) or methods with loops, each proved against a function;
the theorems are about those functions. Concurrency is a step machine: a step is a region under the
locks, and a theorem about runs quantifies over every sequence of steps. A step that is not enabled
changes nothing.

Hypotheses, stated as `requires` clauses or built into the types:

- Renames and unlinks persist in order; the settings digest is injective; the directory is not replaced.
- In runs of the settings protocol every attempted value passes `validateSettingsFile`.
  `SavedReadableIffValid` and `AcceptedReadableIff` say exactly what happens otherwise.
- The clock never runs backwards and shows a year from 2000 to 9700, so that no deadline the code
  can compute leaves the range its JSON encoding has.
- A handler, a poll or a pick may act on a time that it read before it took the runtime lock.
- Account identities are distinct.
- Usage records arrive decoded: a reset hint lies ahead by at most eight days and has a reason, a
  price is a non-negative int64 with a model name, a hash is a digest. Limits arrive decoded too.
- A polled snapshot meets the validator; `ParsedSnapshotValidIff` says exactly when it does.

## Where the code falls short

- An update is checked against the live configuration but read back against the default one, so an
  accepted update can make the settings store unreadable (`AcceptedUpdateCanWedgeStore`);
  `AcceptedReadableIff` gives the exact condition.
- An update whose preparation is pending can be returned by a recovery and still be lost in a crash
  (`PendingUpdateCanVanish`); `StableIffNotPending` gives the exact condition.
- The five-hour diagnostic is joined without a bound, so a report with eight unreadable limits makes
  every save of the state fail until the account's next report (`ReportBlocksSaves`);
  `ParsedSnapshotValidIff` gives the exact condition.
- Duplicate limits alternate between cleared and trusted (`ThirdDuplicateTrusted`);
  `DuplicatesAlternate` gives the exact condition.
- A pick that reads the clock before it gets the lock can announce more than sixty seconds
  (`StalePickAnnounces61`); `ResponseMeaning` gives the exact condition.
- A saturated window can announce its reset early (`SaturatedResetIsEarly`); `ResetExactIff` gives the
  exact condition.
- A record redelivered after 4096 newer hashes is counted twice (`LateRepeatCountedTwice`);
  `RepeatCountedOnceIff` gives the exact condition.
- A cursor that wraps at 2^64 breaks the round-robin order unless the number of candidates divides
  2^64 (`WrapRepeatsCandidate`, `RoundRobinFairIff`).

## Model

| member | source | states |
|---|---|---|
| `Store.Directory.WriteJSON` | internal/securestore/securestore_linux.go:34-78 | The three outcomes of a write: a failure before the rename leaves every content a crash can leave as it was; only the directory sync makes the rename durable; `NeedsRecovery` is reported exactly when the sync alone failed. |
| `Store.Directory.RemoveJSON` | internal/securestore/securestore_linux.go:80-97 | A removal has the same outcomes; removing an absent file succeeds and changes nothing, durable or not. |
| `Settings.CommitOutcomes` | internal/providers/zai/settings.go:169-185 | Once the intent is durable, whatever fails from there on, every crash recovers to the new settings and to nothing else. |
| `Settings.PrepareOutcomes` | internal/providers/zai/settings.go:155-168 | From a durable marker without intent only the old and the new settings can be recovered; a failed preparation changes nothing; after a pending one exactly those two are possible. |
| `Settings.SaveOutcomes` | internal/providers/zai/settings.go:140-186 | At no step of a save can a crash lead to anything but an outcome possible before or the new settings; a save rejected while staging or preparing adds no outcome at all; a committed one leaves only the new settings. |
| `Settings.SaveReturns` | internal/providers/zai/settings.go:140-186 | From the faults alone, exactly when a save returns nil, pending or a plain error: an intent in doubt is pending unless settings.json held the new settings already, a durable intent is pending exactly while settings.json may not survive a crash, and an error afterwards means that only the marker could not be unlinked. |
| `Settings.RecoverOutcomes` | internal/providers/zai/settings.go:188-229 | A recovery from any directory reports what the directory stands for unless its roll-forward write never took effect, leaves the directory settled, and at no step lets a crash lead to an outcome that was not possible already. |
| `Settings.RollForwardOutcomes` | internal/providers/zai/settings.go:215-222 | Rolling the intent forward puts the recovered settings into settings.json and adds no outcome, synced or not. |
| `Settings.RemoveOutcomes` | internal/providers/zai/settings.go:204-209 | Unlinking the marker of a settled directory changes neither what is loaded nor, at any crash, what is recovered. |
| `SettingsRuns.FirstUseSafe` | internal/providers/zai/settings.go:111-120 | A store with readable settings or none, and no marker, is where every run may begin. |
| `SettingsRuns.PerformOutcomes` | internal/providers/zai/management.go:351-470 | Recover-then-save as one operation: crashes before its save begins lead only to outcomes possible before, a rejected update adds none, a committed one leaves only its settings. |
| `SettingsRuns.StepSafe` | internal/providers/zai/settings.go:140-229 | Every completed or crashed operation keeps: whatever a crash leaves stands for the last committed save or a later attempt. |
| `SettingsRuns.RunSafe` | internal/providers/zai/settings.go:140-229 | The same over every run of updates, recoveries, directory syncs and crashes. |
| `SettingsRuns.RecoveryAfterAnyRun` | internal/providers/zai/settings.go:188-229 | After any run and one more crash, recovery returns the settings of the last committed save or of a later attempted one, never older, never a mixture; both "marker does not match" errors are unreachable. |
| `SettingsRuns.RecoveryIdempotent` | internal/providers/zai/settings.go:188-229 | A second recovery returns what the first did; after a crash anywhere inside the first it returns something that was possible before, so it is idempotent whenever one outcome was possible. |
| `SettingsPending.StepTracked` | internal/providers/zai/settings.go:140-229 | After every completed or crashed operation, more than one outcome is recoverable exactly while a save has ended with its preparation pending and no directory sync has succeeded since. |
| `SettingsPending.StableIffNotPending` | internal/providers/zai/settings.go:188-229 | Over every run from the first use, recoveries crashed anywhere and repeated always return the live settings if and only if no preparation is pending. |
| `SettingsPending.PendingUpdateCanVanish` | internal/providers/zai/settings.go:155-168 | A concrete run in which recovery returns an update whose preparation was pending and, after a crash, the old settings. |
| `SettingsRuns.SavedReadableIffValid` | internal/providers/zai/settings.go:111-138 | What a nil-returning save wrote can be read back after every crash if and only if it passes `validateSettingsFile`. |
| `SettingsRuns.AcceptedOverrides` | internal/providers/zai/management.go:397-429 | What an accepted update names is stored, what it does not name stays as stored, and accepting it again changes nothing. |
| `SettingsRuns.AcceptedReadableIff` | internal/providers/zai/management.go:397-429 | An accepted configuration update leaves readable settings if and only if its age limit also exceeds the polling jitter of the default configuration. |
| `SettingsRuns.AcceptedUpdateCanWedgeStore` | internal/providers/zai/settings.go:122-138 | With a one-minute refresh interval in the host configuration a two-minute age limit is accepted and saved, and no recovery reads the store again. |
| `SettingsStore.SecureStore.SaveSettings` | internal/providers/zai/settings.go:140-186 | The save as it updates the files step by step is the specified save, on every combination of faults. |
| `SettingsStore.SecureStore.RecoverSettings` | internal/providers/zai/settings.go:188-229 | The recovery as it updates the files step by step is the specified recovery. |
| `Windows.InsertKeepsSorted` | internal/providers/zai/windows.go:53-64 | Sorted insertion keeps the list sorted and adds exactly the one event. |
| `Resets.CompactionKeepsWindow` | internal/providers/zai/windows.go:66-77 | Compaction up to the start of a window leaves its whole report as it was: consumption and reset. |
| `Consumption.CompactionKeepsViews` | internal/providers/zai/windows.go:66-136 | Compaction with a retention above one week changes neither view of the account, at that time or any later one. |
| `Windows.ThresholdExact` | internal/providers/zai/windows.go:163-170 | For every int64 bucket and percent 1..100 the split threshold is floor(bucket * percent / 100), and no intermediate overflows. |
| `Windows.ResetExact` | internal/providers/zai/windows.go:138-161 | An at-threshold window announces a reset unless the threshold is zero; with an unsaturated sum the window stays at or above it at every earlier time, and is below it at that time exactly when events dated in between do not refill it. |
| `Windows.ResetTimeIsReset` | internal/providers/zai/windows.go:147-159 | The subtracting loop finds the earliest expiry, ties included, that takes even a saturated total below the threshold, and finds none only when there is none. |
| `Resets.ResetExactIff` | internal/providers/zai/windows.go:138-161 | Saturated sums included, with no later events: the window stays at its threshold until the announced time and is below it then, if and only if no active event's expiry takes the saturated total below the threshold and the true one not. |
| `Resets.SaturatedResetIsEarly` | internal/providers/zai/windows.go:138-161 | A failing input the code can receive: two events of the largest price in a five-hour window of the largest bucket. |
| `Consumption.ViewsAnnounced` | internal/providers/zai/windows.go:94-136 | For every valid account and configuration an estimated window at its threshold announces a reset, ahead by at most the window's length. |
| `Capacity.CapacityResetExact` | internal/providers/zai/health.go:119-135 | With no fresh observation and no later events, an account out of capacity stays so until its capacity reset, for either window or both, saturated or not; with unsaturated sums it has capacity again at that time and ever after. |
| `Reports.RefreshGoverned` | internal/providers/zai/windows.go:94-136 | With an observation of at most the maximal age and not from the future, capacity is exhausted exactly when the observed weekly window, or the observed five-hour window (the estimated one in place of a diagnostic), has consumed floor(bucket * percent / 100), until the later reset of those that have; otherwise the two estimates decide in the same way. |
| `Reports.RefreshStepGoverned` | internal/providers/zai/runtime.go:388-398 | Every refresh of the protocol, by a record, poll, unblock, pick or start, leaves the account with what its last report, or else the estimate, says for the time it read. |
| `Reports.ReportGoverns` | internal/providers/zai/windows.go:94-136 | From a report to the next one or a restart, whatever usage, failed polls, writes, unblocks and commits intervene, every refresh follows that report until it is older than the maximal age, and the estimate from then on. |
| `Reports.PollReports` | internal/providers/zai/runtime.go:564-583 | A poll that is not cancelled makes its report the account's last one, in force at once. |
| `Reports.PollCounts` | internal/providers/zai/runtime.go:559-572 | A poll dates its attempt, counts failures in a row or starts again from zero, keeps the ledger and every warning, and moves no deadline. |
| `Reports.PollSparesOthers` | internal/providers/zai/runtime.go:554-583 | A poll changes no other account. |
| `Reports.PolledLimitsDecide` | internal/providers/zai/health.go:119-135 | Right after a poll, the account is out of capacity exactly when currentValue of the trusted weekly limit, or of the trusted five-hour limit, in microcredits, reaches the floor of the percentage of its usage; the estimate stands in for a missing five-hour limit. |
| `Reports.StartReports` | internal/providers/zai/runtime.go:153-187 | A start takes over the report, the warnings and the start of the ledger that state.json holds for an account, dates a new ledger, and refreshes the capacity at once. |
| `Reports.PickFollowsReport` | internal/providers/zai/scheduler.go:73-131 | Until the next report or restart, a pick that read a time while the report was in force finds capacity exactly when neither window of the report has reached its threshold, and otherwise does not reach the account. |
| `Reports.FailedWriteWarns` | internal/providers/zai/runtime.go:675-690 | A failed write warns exactly the captured accounts, if the snapshot is still of that generation, and changes nothing else of it; any other write changes nothing of it. |
| `Reports.WarningStays` | internal/providers/zai/runtime.go:675-690 | Once given, the warning stays in every later state of the process while the account is configured. |
| `Windows.WindowOrderIndependent` | internal/providers/zai/windows.go:138-161 | Consumed and reset depend only on the multiset of events, with equal timestamps and saturated sums. |
| `Windows.ArrivalOrderIrrelevant` | internal/providers/zai/windows.go:53-64 | Delivering the same events in any two orders yields the same report. |
| `Ledger.AccountLedger.AddEvent` | internal/providers/zai/windows.go:53-64 | The in-place insertion is the sorted insertion of priced events. |
| `Ledger.AccountLedger.Compact` | internal/providers/zai/windows.go:66-77 | The binary search keeps exactly the events after the cutoff, and the newest 4096 hashes. |
| `Ledger.AccountLedger.SeenDedup` | internal/providers/zai/windows.go:79-92 | A seen hash only raises the warning; a new one is appended and the oldest dropped beyond 4096. |
| `Ledger.EstimatedWindow` | internal/providers/zai/windows.go:138-161 | The accumulating and subtracting loops compute the specified window with no overflow or underflow, from a saturated total too. |
| `Estimator.HashesAreNewest` | internal/providers/zai/windows.go:79-92 | Over every run without late redelivery the bounded list is the newest 4096 of all delivered hashes. |
| `Estimator.BookMatchesIdeal` | internal/providers/zai/runtime.go:340-360 | Over every such run, every window inside the retention sums to the prices of the distinct records in it. |
| `Estimator.BoundedRefinesUnbounded` | internal/providers/zai/windows.go:53-92 | The consumption reported for either window at any later time is the saturated sum over distinct accepted records in (now - window, now]. |
| `Estimator.RepeatCountedOnceIff` | internal/providers/zai/windows.go:79-92 | A redelivered record is counted once if and only if its hash is among the newest 4096. |
| `Estimator.LateRepeatCountedTwice` | internal/providers/zai/windows.go:79-92 | A failing input: 4097 distinct digests and the first one again, whose price is then counted twice. |
| `Consumption.UsageBook` | internal/providers/zai/runtime.go:340-360 | A usage record changes an account's events and hashes as the bounded ledger enters it, or not at all. |
| `History.NextBooks` | internal/providers/zai/runtime.go:275-926 | Every step of the protocol, commits, failed writes, crashes and restarts included, keeps the live state and every capture equal to the book of its own history of deliveries. |
| `History.FirstBooks` | internal/providers/zai/runtime.go:153-187 | A first start, with nothing delivered, is where every run may begin. |
| `History.ReportedConsumption` | internal/providers/zai/windows.go:94-136 | Over every run that keeps the account configured, whenever the estimator stands in for a window (no fresh observation, or one with a five-hour diagnostic), the reported consumption is the saturated sum over the distinct records of the history dated inside it. |
| `Health.RestartKeepsDeadlines` | internal/providers/zai/health.go:95-117 | Persist and restore: at every later time suspension and exhaustion are exactly what they would have been without the restart, and a reason survives; no throttle does. |
| `Health.RequestRateBackoff` | internal/providers/zai/failures.go:71-81 | The doubling loop yields min(5s * 2^(streak-1), 60s, fallback). |
| `Health.ParseRetryAfter` | internal/providers/zai/failures.go:182-197 | A Retry-After hint (section 10.2.3 of RFC 9110) is believed exactly when it lies ahead by at most eight days. |
| `Health.AccountHealth.SuspendUntil` | internal/providers/zai/health.go:44-48 | In place: a suspension only moves forward and touches nothing else. |
| `Health.AccountHealth.ExhaustUntil` | internal/providers/zai/health.go:50-55 | In place: an exhaustion only moves forward, with its bounded reason. |
| `Health.AccountHealth.Throttle` | internal/providers/zai/health.go:62-87 | In place: the specified burst, decay, escalation or next step. |
| `Health.AccountHealth.ClearThrottle` | internal/providers/zai/health.go:89-93 | In place: deadline and streak are gone, all else stays. |
| `Ladder.StreakCountsRungs` | internal/providers/zai/health.go:62-93 | Over every run of 429s, served requests, gaps and unblocks, an unblock between a handler's reading of the clock and its region included, the streak equals the number of non-burst 429s since the last reset and stays in 0..5, and the deadline is at most 60s past the last 429. |
| `Ladder.RateLimitMoves` | internal/providers/zai/health.go:62-87 | A burst never shortens the deadline or climbs; an unhinted step k lasts exactly min(5s * 2^(k-1), 60s, fallback); escalation happens exactly on the sixth consecutive step. |
| `Ladder.UsageClimbs` | internal/providers/zai/runtime.go:302-335 | A usage record moves the account on the ladder exactly as its signal does and not at all otherwise; an escalation exhausts it to the authoritative reset or the fallback. |
| `Failures.UsageOutcome` | internal/providers/zai/runtime.go:302-335 | Every deadline after a record, from the record and the account: a failed 401 or 403 suspends to the later of the old end and now plus the duration; a failed 429 that is not transient, finds no capacity, hints at more than a minute, or comes after five rungs, exhausts to the later of the old end and the hint, else the quota reset ahead, else the fallback cooldown; no other record moves either, and no other failure changes anything. |
| `Quota.ParsedIffReadable` | internal/providers/zai/quota.go:230-268 | Exactly the limits that parse: a usage of 1 to the largest bucket, a current value within it, a remaining value absent or non-negative, and a reset of the years 2000 to 2200 ahead of the observation, or none on an unused window; they parse into current value, usage and reset in microcredits and nanoseconds. |
| `Quota.ReportedReadBack` | internal/providers/zai/quota.go:230-268 | Every valid window of whole credits with a whole-millisecond reset in range, sent as a limit, parses back to itself; an unused one without a reset does so with the field missing. |
| `Quota.ReadIsReportable` | internal/providers/zai/quota.go:230-268 | And only such windows are ever parsed. |
| `Quota.SnapshotReadBack` | internal/providers/zai/quota.go:159-228 | A whole snapshot sent as its two limits parses back to itself. |
| `Quota.ParseQuotaResponse` | internal/providers/zai/quota.go:159-228 | The loop over the limits fails exactly when no weekly limit is trusted; otherwise plan and time are the given ones, the weekly window says what the trusted weekly limit says, and the five-hour window what the trusted five-hour limit says, with a diagnostic in its place exactly when there is none. |
| `Quota.ParsedTells` | internal/providers/zai/quota.go:159-228 | The same of the specified snapshot. |
| `Quota.ParsedSnapshotValidIff` | internal/providers/zai/quota.go:214-227 | A parsed snapshot can be persisted if and only if the report has a five-hour limit or fewer than eight credit limits of unreadable unit or number. |
| `Quota.UnboundedDiagnostic` | internal/providers/zai/quota.go:214-227 | A failing input: one good weekly limit and eight unreadable ones parse into a snapshot that the validator refuses. |
| `Unsavable.ReportBlocksSaves` | internal/providers/zai/settings.go:252-257 | After that report no capture passes the validator, whatever usage, failed polls, polls of other accounts, unblocks and commits follow, until a poll of the account brings another report. |
| `Quota.DuplicatesAlternate` | internal/providers/zai/quota.go:181-193 | Over every report and for either window: the slot is filled if and only if the number of that window's readable limits after its last unreadable one is odd, and then it holds what the last limit given for the window says. |
| `Quota.ThirdDuplicateTrusted` | internal/providers/zai/quota.go:181-193 | Failing inputs: of three readable limits for the weekly window, with a five-hour limit among them, the third is trusted. |
| `State.ValidateEvents` | internal/providers/zai/settings.go:352-357 | Comparing neighbours decides that the whole list is sorted, positive, named and within the clock skew. |
| `State.ValidateQuota` | internal/providers/zai/settings.go:319-368 | The loops accept exactly the valid quota states. |
| `State.ValidQuotaLater` | internal/providers/zai/settings.go:319-368 | A state accepted once is accepted at every later time. |
| `Runtime.UsageKeeps` | internal/providers/zai/runtime.go:275-367 | A usage record keeps the index, the coverage and the validity of every quota and health state. |
| `Runtime.PollKeeps` | internal/providers/zai/runtime.go:536-592 | So does a poll, successful or not. |
| `Runtime.UnblockKeeps` | internal/providers/zai/management.go:297-308 | So does an unblock. |
| `Runtime.CommitKeeps` | internal/providers/zai/runtime.go:463-487 | So does a same-store commit, and its generation is strictly later. |
| `Runtime.RewriteKeeps` | internal/providers/zai/runtime.go:597-651 | Polls, commits and starts rewrite plans in list and index alike, and change no plan or bucket of an account with an explicit one. |
| `Runtime.AccountUpdateKeeps` | internal/providers/zai/management.go:431-450 | A settings update of one account keeps list and index in agreement and every account valid. |
| `Runtime.CapturedValid` | internal/providers/zai/runtime.go:696-717 | Whatever is captured from a valid snapshot passes the persisted-state validator. |
| `Runtime.StageKeeps` | internal/providers/zai/runtime.go:153-187 | A start from a valid state.json builds a snapshot with all these properties. |
| `Protocol.FirstStartGood` | internal/providers/zai/runtime.go:114-192 | The invariant holds at a first start from any valid configuration. |
| `Protocol.StepGood` | internal/providers/zai/runtime.go:275-926 | Every step of every goroutine, every failing write, crash and restart keeps the invariant: ticket order of state.json, index, validity of all that is or may be saved, and wait groups that count exactly the handler and the goroutines that hold captures. |
| `Protocol.RunGood` | internal/providers/zai/runtime.go:275-926 | So does every interleaving. |
| `Durability.StepKeepsFact` | internal/providers/zai/runtime.go:450-717 | No step of a process loses an event, a suspension or an exhaustion (an unblock of that account apart) from the live state or from any capture since it was recorded. |
| `Durability.RestartKeepsFact` | internal/providers/zai/runtime.go:114-192 | A durable fact survives a crash and a start from any content the crash can leave. |
| `Durability.PersistedGrows` | internal/providers/zai/runtime.go:663-694 | The highest successful ticket never decreases within a process. |
| `Durability.UsageRecords` | internal/providers/zai/runtime.go:345-360 | A record adds exactly one event, dated at the request or at now if the record does not say, with its price and model, if it has usage, is dated at most five minutes ahead, is new and costs something; and otherwise none. |
| `Durability.UncountedWarns` | internal/providers/zai/runtime.go:345-360 | A record without usage, from the future, seen before or unpriced leaves the events alone and exactly its own warning behind. |
| `Durability.DeadlineIsLive` | internal/providers/zai/runtime.go:302-329 | The suspension or exhaustion a failure calls for is in the live snapshot at once. |
| `Guarantees.StateFileNeverStale` | internal/providers/zai/runtime.go:657-717 | Under every interleaving state.json, after any crash, holds no capture older than the highest ticket whose write reported success; and no save is ever refused by the validator. |
| `Guarantees.IndexAgreesAfterRun` | internal/providers/zai/runtime.go:578-651 | After every run the identity index agrees with the account list, and quota and health exist for exactly the indexed accounts. |
| `Guarantees.ReportedFactSurvives` | internal/providers/zai/runtime.go:275-367 | What a handler captured stays durable from its nil return on, through every interleaving, failed write, crash and restart that keeps the account configured. |
| `Guarantees.AcceptedEventSurvives` | internal/providers/zai/runtime.go:340-367 | Once `handleUsage` returned nil after accepting a priced event, the event is in the live state and in state.json, as often as it has been recorded, while its account is configured and it is within retention. |
| `Guarantees.DeadlineHolds` | internal/providers/zai/runtime.go:302-329 | After a 401 or 403 the account's suspension reaches at least the time the handler read plus the configured duration, and after a 429 that exhausts it its exhaustion reaches at least the hint, the quota reset or the fallback cooldown it called for; neither is shortened or removed by usage, polls, writes, commits, its own passing, or unblocks, those of the account apart for an exhaustion. |
| `Guarantees.DeadlineSurvivesRestart` | internal/providers/zai/health.go:95-117 | Once the handler's write reported success, suspension and exhaustion are also there after every restart before their end, and from then on in that process. |
| `Guarantees.DeadlinesOnlyGrow` | internal/providers/zai/health.go:44-55 | Within a process exhaustion deadlines shrink only through an unblock of that very account, suspensions never, and neither is dropped when it has passed. |
| `Plans.ConfigurationKept` | internal/providers/zai/runtime.go:463-487 | Over every run, polls, commits and restarts included, settings and credentials are those of the configuration last committed or started with, every account is disabled exactly when it is there, and one that is explicit there has exactly the plan and buckets chosen there. |
| `Plans.NoPickWhileDisabled` | internal/providers/zai/scheduler.go:73-131 | No pick of any run reaches an account that the configuration last committed or started with disables. |
| `Plans.ReportChangesPlanIff` | internal/providers/zai/runtime.go:597-623 | A report changes an account exactly when it names another plan and the account is neither custom nor explicit, and then to that plan and its credits (Lite 2000/10000, Pro 12000/60000, Max 28000/140000). |
| `Plans.PollSetsPlan` | internal/providers/zai/runtime.go:578-581 | A poll puts an account that may follow its report on the reported plan with that plan's credits. |
| `Plans.StartSetsPlan` | internal/providers/zai/runtime.go:153-187 | A start does so with the report that state.json holds. |
| `Plans.CommitCarriesPlanIff` | internal/providers/zai/runtime.go:629-651 | A commit keeps a named live plan, with its credits, exactly when neither side chose explicitly; otherwise the account is the staged one. |
| `Plans.ReportedPlanKept` | internal/providers/zai/runtime.go:597-651 | From a report to the next one of another plan or a restart, commits that stage the account without explicit choices included, the account has the reported plan and that plan's credits. |
| `Plans.FirstHonours` | internal/providers/zai/runtime.go:153-187 | A first start is where every such run may begin. |
| `Shutdown.NoneLeft` | internal/providers/zai/runtime.go:880-884 | Wait groups at zero imply that no admitted handler and no captured poll is left to write. |
| `Shutdown.RunCountsDown` | internal/providers/zai/runtime.go:845-884 | Once admission is closed no counter rises, whatever the goroutines do: admission, refreshes and pollers all start under a lock that shutdown has passed. |
| `Shutdown.StoppedRunFrozen` | internal/providers/zai/runtime.go:845-884 | From the closing of admission on, over every run, no poll, record, unblock or commit changes configuration, ledger, reports or deadlines: only warnings of failed writes and the derived capacity fields can still change. |
| `Shutdown.ShutdownSavesLive` | internal/providers/zai/runtime.go:845-926 | Over every run from the closing of admission to a nil return and beyond, with the last save guarded by the counters alone: every handler and poll had written, state.json durably holds the final quota and exactly the unexpired suspensions and exhaustions, and nothing changes either afterwards. |
| `Shutdown.ShutdownSavesFact` | internal/providers/zai/runtime.go:845-926 | Every event, suspension and exhaustion live when admission closed, those of a handler still writing included, is in the file that a nil return leaves, unless it had expired by then. |
| `Shutdown.NothingAfterShutdown` | internal/providers/zai/runtime.go:845-926 | No later call changes quota, deadlines or state.json. |
| `Guarantees.StalePollInert` | internal/providers/zai/runtime.go:546-553 | Generations strictly increase with commits, so a poll launched for a replaced generation changes nothing at all. |
| `LiveRuntime.SyncPlanFromUpstream` | internal/providers/zai/runtime.go:597-623 | The search loop rewrites the one account of that identity and reports no change only if there was none. |
| `LiveRuntime.CarryForwardNamedPlans` | internal/providers/zai/runtime.go:629-651 | The loop that edits list and index rewrites both alike. |
| `LiveRuntime.MergeLive` | internal/providers/zai/runtime.go:466-475 | The loop over the live map, in any order, lets live entries win for exactly the staged accounts. |
| `LiveRuntime.PersistHealth` | internal/providers/zai/runtime.go:710-715 | The loop saves exactly the unexpired deadlines. |
| `LiveRuntime.UsageHealth` | internal/providers/zai/runtime.go:302-335 | The branches of `handleUsage` on deadlines compute the specified health, and set suspension and exhaustion as `Failures.UsageOutcome` says. |
| `LiveRuntime.UsageQuota` | internal/providers/zai/runtime.go:340-360 | The branches of `handleUsage` on the ledger compute the specified quota state. |
| `LiveRuntime.PluginRuntime.AdmitUsage` | internal/providers/zai/runtime.go:275-366 | The region of `handleUsage` under the runtime lock: admission to the wait group, the new snapshot, and its capture under the next ticket, or nothing at all. |
| `LiveRuntime.PluginRuntime.ApplyPoll` | internal/providers/zai/runtime.go:545-585 | The region of `pollOnce`: the new snapshot and its capture, or nothing for a stale generation, a stopped runtime or an unknown account. |
| `LiveRuntime.PluginRuntime.PersistState` | internal/providers/zai/runtime.go:663-694 | A capture not newer than the last success is dropped; a success is recorded; a failure warns exactly the captured accounts of the same generation; nil means that this or a newer capture was written. |
| `LiveRuntime.PluginRuntime.FinishUsage` | internal/providers/zai/runtime.go:361-367 | The write that ends a handler is one step of the protocol. |
| `LiveRuntime.PluginRuntime.FinishPoll` | internal/providers/zai/runtime.go:583-592 | The delayed write of a poll is one step of the protocol. |
| `LiveRuntime.PluginRuntime.Unblock` | internal/providers/zai/management.go:297-308 | The loop over the selected accounts is a sequence of single unblocks: it clears exhaustion, reason, throttle and streak of exactly those accounts, leaves their suspensions and reports, and touches nothing else; a stopped runtime refuses. |
| `Unblocking.UnblockClears` | internal/providers/zai/management.go:297-308 | An unblock of one account clears exhaustion, reason, throttle and streak, which is the ladder's reaction to it, and leaves its suspension and every other account as they were. |
| `Unblocking.UnblockedOpenIff` | internal/providers/zai/management.go:297-308 | To a pick at that time the unblocked account is open exactly when it is neither disabled nor suspended and had capacity before. |
| `LiveRuntime.PluginRuntime.CommitSnapshot` | internal/providers/zai/runtime.go:450-500 | The in-place merge and publication is exactly the protocol's step; a stopped runtime refuses. |
| `LiveRuntime.PluginRuntime.StartPollers` | internal/providers/zai/runtime.go:432-441 | The loop adds one poller to the wait group for every account that is not disabled, and only then the commit ends. |
| `LiveRuntime.StartRun` | internal/providers/zai/runtime.go:432-441 | Starting pollers is a run of the protocol's steps. |
| `LiveRuntime.PluginRuntime.BeginRefresh` | internal/providers/zai/management.go:213-233 | A new leader joins the wait group under the runtime lock; a stopped runtime refuses. |
| `LiveRuntime.PluginRuntime.FinishShutdown` | internal/providers/zai/runtime.go:880-926 | Reached with all counters at zero, the last save, the flush and the close are exactly the protocol's step, and nil means that save and flush succeeded. |
| `LiveRuntime.UsageNext` | internal/providers/zai/runtime.go:275-366 | In every reachable state that region is exactly the usage step. |
| `LiveRuntime.PollNext` | internal/providers/zai/runtime.go:545-585 | And that of a poll the poll step. |
| `LiveRuntime.UnblockRun` | internal/providers/zai/management.go:297-308 | And an unblock of several accounts a run of single unblock steps. |
| `LiveRuntime.UnblockedRunClears` | internal/providers/zai/management.go:297-308 | Such a run clears the selected accounts, however often one is named, and touches no other. |
| `Routing.ChooseSticky` | internal/providers/zai/scheduler.go:40-51 | The loop with a running maximum picks the first candidate of the highest score. |
| `Routing.StickyAfterLoss` | internal/providers/zai/scheduler.go:40-51 | For any score function, dropping candidates other than the winner never moves the session. |
| `Routing.StickyAfterGain` | internal/providers/zai/scheduler.go:40-51 | A newcomer, wherever it is inserted, keeps the session where it was or takes it over. |
| `Routing.RoutingState.Next` | internal/providers/zai/scheduler.go:29-38 | The in-place cursor update and the position it picks. |
| `Routing.TurnBounded` | internal/providers/zai/scheduler.go:29-38 | The table never exceeds 1024 scopes. |
| `Routing.VisitsAdvance` | internal/providers/zai/scheduler.go:29-38 | Unless the table is cleared, a scope's cursor counts its own picks in 64 bits, whatever other scopes do in between. |
| `Routing.RoundRobinFairIff` | internal/providers/zai/scheduler.go:29-38 | n picks of a scope over n candidates, interleaved with other scopes and with no clearing, choose every position exactly once if and only if the 64-bit cursor does not wrap before the last of them or n divides 2^64. |
| `Routing.WrapRepeatsCandidate` | internal/providers/zai/scheduler.go:29-38 | A failing input: three candidates and the cursor at 2^64 - 1 yield the positions 0, 0, 1. |
| `Scheduler.RetrySeconds` | internal/providers/zai/plugin.go:57-65 | For every wait: at least one second, the least number that covers it, and at most sixty exactly when the wait is at most a minute. |
| `Scheduler.RefreshStep` | internal/providers/zai/runtime.go:388-398 | Refreshing one more candidate, repeated accounts included, keeps every earlier verdict: the two passes agree. |
| `Scheduler.VerdictMeaning` | internal/providers/zai/health.go:137-163 | The five verdicts from the stored deadlines and the views: healthy exactly when the account is not disabled, suspension, exhaustion and throttle are all over and neither view is at its threshold; throttled, to the throttle's end, exactly when the throttle alone lies ahead; and when it is disabled, suspended or exhausted. |
| `Scheduler.Router.Survey` | internal/providers/zai/scheduler.go:81-95 | The first pass refreshes and counts managed and impaired candidates and finds an unmanaged recognised one; impaired is said of deadlines and views, not of the verdict. |
| `Scheduler.Router.Collect` | internal/providers/zai/scheduler.go:102-118 | The second pass collects exactly the open candidates and the earliest end of a throttle that alone stands in the way. |
| `Scheduler.Router.Pick` | internal/providers/zai/scheduler.go:73-131 | For a time read before the lock was taken: the response that deadlines and views of the candidates deserve, the sticky or the round-robin choice among the open ones; only capacity fields and, for a round-robin pick, one cursor change. |
| `Scheduler.EarliestIsLeast` | internal/providers/zai/scheduler.go:102-118 | The running minimum is the least deadline of a throttled candidate and zero exactly when none is throttled. |
| `Scheduler.ResponseMeaning` | internal/providers/zai/scheduler.go:73-131 | Delegated exactly when every managed candidate is open (not disabled, no deadline ahead, neither view at its threshold), rate-limited exactly when none is open and some is kept back by its throttle alone; then the announced seconds are the least that let the first such throttle expire, and at most sixty exactly when one expires within a minute of the time read. |
| `Scheduler.ImpairedUnreachable` | internal/providers/zai/scheduler.go:73-131 | No pick selects a credential of an account that is disabled, suspended, exhausted, out of capacity or throttled at the time read, or delegates a request containing one. |
| `Scheduler.ReadyToPick` | internal/providers/zai/scheduler.go:73-76 | Every state the protocol reaches meets what a pick relies on, whenever it read the clock; its seconds exceed sixty by no more than the time since then, and not at all without delay. |
| `StalePick.StalePickAnnounces61` | internal/providers/zai/scheduler.go:73-76 | A run from a first start, for every valid configuration with a fallback of at least a minute: a pick that read the clock one nanosecond before the fifth 429 and got the lock after it announces 61 seconds. |
| `Scheduler.NoPickBeforeDeadline` | internal/providers/zai/scheduler.go:73-131 | After a 401 or 403, or a 429 that exhausts the account, no pick that read a time before the end of the suspension or exhaustion selects a credential of the account or delegates a request containing one, however late it gets the lock and whatever intervenes. |
| `Scheduler.NoPickBeforeDeadlineAfterRestart` | internal/providers/zai/scheduler.go:73-131 | The same in every later process after a nil-returning persist, for every time its picks can have read. |
| `Refresh.IdleSound` | internal/providers/zai/management.go:213-233 | A runtime without any refresh is where every run begins. |
| `Refresh.SingleFlight` | internal/providers/zai/management.go:177-275 | Over every interleaving at most one refresh leader exists per generation, every refresh is in one phase, and every follower that waited got its own leader's error. |
| `Refresh.BeginJoins` | internal/providers/zai/management.go:213-233 | A caller joins the flight of the live generation if there is one and otherwise leads a new one; a flight of a replaced generation is never joined. |
| `Refresh.LeadersErrorReturned` | internal/providers/zai/management.go:204-275 | Over every run, whoever joined a flight returns the very error its leader ended with. |
| `Refresh.ClosedOnce` | internal/providers/zai/management.go:267-275 | A done channel, once closed, is never closed again and the error its followers read never changes. |

## Left out

- HTTP, endpoint checks, JSON and YAML decoding, CGo glue, management routes, HTML, redaction and status texts: input and output, or formatting.
- `credits.go` pricing (`estimateUsageCredits`, `isOffpeak`): the price of a record is an input; only easy members would be added.
- SHA-256, HMAC and FNV: the digest is injective by construction and the score of a sticky session is an arbitrary function.
- Directory replacement, symbolic links, permissions and temporary-file names of the secure store: file-system facts.
- Crashes that persist directory operations out of order: recovery unlinks the marker even after a failed sync, so only ordered persistence is claimed.
- Reconfigurations onto a different store: commits are same-store ones; a closed store refuses every write.
- The staging loop of `reconfigureWithAccounts` is modelled as a map over the accounts (`Runtime.Stage`), not as a loop that fills four containers.
- The wait groups of reconfigurations and management operations: what they wait for is refused by a stopped runtime before it changes anything that shutdown saves.
- Preemption inside a region under a lock, and the order in which goroutines obtain a lock: the locks make regions atomic, and every order of regions is a run.
- Cancellation and timeouts of refreshes and polls: a follower that gives up returns its own context's error and touches nothing.
- Account discovery, and the selectors of `unblock` and `updateAccountConfig`: the accounts selected are inputs, and the account part of stored settings is arbitrary.
- Reset hints in bodies and headers other than Retry-After, and the wording of reasons beyond not being blank: a hint is an input bounded as `validResetAt` bounds it.
- The cadence of polls (`jitteredPollInterval`, `pollBackoff`): a poll may come at any time.
- White space beyond ASCII, and the letter case of names.
- `LastPollError`, `LastDivergence` and `LastSourceTransition` of a quota state: status texts that no decision reads.
- `internal/providers/opencodego`, `internal/coordinator` and `deploy`: other components, whose pick-safety and dispatch claims would be weaker than the ones here.
