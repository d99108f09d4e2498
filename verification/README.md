# Verified model of the Stonemite core

This project models, in Dafny, the parts of Stonemite whose correctness is hardest to see
from the code, and proves what they promise over every input, every run and every
interleaving. `dafny verify dfyconfig.toml` checks everything.

* **Combat engine** (`CombatModel`, `CombatSteps`): several log streams that lag, are
  truncated or are re-registered are merged into encounters that go Active, Ending, Held and
  away. `CombatSteps` has one function per operation on the whole engine state; a run is any
  list of inputs and ticks. The theorems are in `CombatBarrier`, `CombatPartition`,
  `CombatHeld`, `CombatHits`, `CombatLost`, `CombatDeadlines` and `CombatDedup`; `CombatCases`
  has runs from the start of the engine that meet the failing conditions. `Election`, `Standings` and
  `RowMarks` elect one log per participant and compute the published rows; `Metrics` and
  `ActiveTime` are their exact arithmetic.
* **Mouse Clutch** (`MouseClutch`, `MouseClutchSafety`, `MouseClutchKeys`): local and remote
  owners with leases, closed sessions, the bounded release drain and the hidden key.
* **Targeted input** (`KeySequencer`, `InputDelivery`, `InputDeliverySafety`,
  `InputProgress`, `SingleInputs`, `InputTiming`): timed press/release sequences, batches,
  their replies and when these come.
* **Identity reader** (`IdentityReader`): the seqlock read against an arbitrary writer history.
* **Trigger timers** (`TriggerTimers`, `TriggerTimersSafety`).
* **Condition parser** (`Conditions`) and **calendar versions** (`CalVer`).

The code that works in place is kept in place: `CombatEngine.dfy`, `MouseClutchState`,
`InputState`, `TriggerBoard` and `ConditionParser` hold classes with the fields and loops of
the source, and every method of theirs is proved to do to the whole state what the function
named in its `ensures` says. The table lists those whose loops need a proof and the outer
operations; the others are straight-line code against the same functions.

What comes from outside is a parameter: the clock, foreground process, target readiness,
button samples and hook results (constant within one call), open reply channels, the order in
which a hash map yields its entries, which early enders match a line, and the moment of each
shared-memory access.

Where code and documentation disagree the model follows the code.
`docs/design/dps-overlay.md:393` says that finalized snapshots never mutate. A fact whose
minted id is that of a held encounter joins it (`crates/eqcombat/src/engine.rs:814-911`,
`CombatCases.HeldChangesInARun`); its frozen snapshot survives that, but the source now
follows the held encounter, and its next hit that correlates with another encounter merges
the two and drops the snapshot (`crates/eqcombat/src/engine.rs:1120-1121`,
`CombatCases.SnapshotIsLostInARun`). `CombatHeld.DamageTouchesHeldIff` and
`CombatHeld.DamageLosesSnapshotIff` give the exact conditions. `CombatPartition.DamageKeeps`
with `CombatCases.AssignmentGoesStaleInARun` and `CombatHits.HitIsListedIff` with
`CombatCases.HitIsLostInARun` do the same for stale assignments and lost hits;
`CombatLost.LostForGood` says that these stay lost.

## Model

| member | source | states |
|---|---|---|
| Metrics.WideMul | crates/eqcombat/src/metrics.rs:70-84 | the (high, low) pair is the exact 256-bit product of any two u128 values, with every intermediate inside u128 |
| Metrics.ProductAtMost | crates/eqcombat/src/metrics.rs:55-68 | the tuple comparison of limbs decides exactly whether one product is at most another |
| Metrics.MulDivBounded | crates/eqcombat/src/metrics.rs:55-68 | the binary search returns the exact floor of a * multiplier / denominator |
| Metrics.RatioMillionths | crates/eqcombat/src/metrics.rs:44-50 | the share of the total in millionths, rounded down, at most 1,000,000, and 0 for a zero total |
| Metrics.SharesNearlyWhole | crates/eqcombat/src/metrics.rs:44-68 | for any non-zero list of n damages the n shares of their sum add up to more than 1,000,000 - n and at most 1,000,000 |
| Metrics.RoundRate | crates/eqcombat/src/metrics.rs:37-42 | never fails; the nearest integer rate with halves rounded up |
| Metrics.InclusiveSeconds | crates/eqcombat/src/metrics.rs:3-9 | the inclusive length of an ordered span whose length fits a signed 64-bit number, and exactly one second for every other span |
| Metrics.UnionRangeSeconds | crates/eqcombat/src/metrics.rs:11-35 | the sweeping loop computes the union function for every list of ranges and bridge |
| Metrics.UnionSecondsOrderFree | crates/eqcombat/src/metrics.rs:11-35 | the union does not depend on the order of the ranges |
| ActiveTime.ActiveTimeIff | crates/eqcombat/src/metrics.rs:11-35 | for every list of well-formed ranges, the empty one included, and every bridge from 0 to below the largest: the result of a non-empty list never exceeds the number of seconds that are covered or lie between two covered seconds at most the bridge apart, and it is that number if and only if there is a range, no single run of joined ranges has 2^63 seconds or more and some second of the 64-bit line does not count |
| ActiveTime.ActiveTimePositiveBridge | crates/eqcombat/src/metrics.rs:11-35 | for every positive bridge below the largest, equality holds if and only if there is a range and no 2^63 consecutive seconds are all counted |
| ActiveTime.WholeLineExample | crates/eqcombat/src/metrics.rs:3-9 | the whole 64-bit line as one range counts as one second instead of 2^64 |
| ActiveTime.TouchingRangesExample | crates/eqcombat/src/metrics.rs:11-35 | with bridge 0 touching ranges stay separate runs, so 2^63 consecutive counted seconds can still be counted right |
| ActiveTime.ActiveTimeLargestBridge | crates/eqcombat/src/metrics.rs:20-31 | with the largest bridge the overflow sentinel joins everything, and the result is right if and only if there is a range and the span from the earliest begin to the latest end has a signed 64-bit length |
| CombatBarrier.AdmittedIsPast | crates/eqcombat/src/engine.rs:449-536 | a record that reaches the event loop is later than its source's history floor and closed second, before and after its own progress |
| CombatBarrier.EventsAppend | crates/eqcombat/src/engine.rs:560-637 | the event loop only appends facts of the record's own source and second |
| CombatBarrier.StepKeepsBarrier | crates/eqcombat/src/engine.rs:177-244 | one step from any state: no barrier decreases, and every fact that enters the ledger is past its source's barrier |
| CombatBarrier.BarriersGrowOverRuns | crates/eqcombat/src/engine.rs:323-430 | over every run of records, gaps, removals, re-registrations, end-of-file notes and ticks, max(history floor, closed-through) never decreases for any source |
| CombatBarrier.FactsPassEveryEarlierBarrier | crates/eqcombat/src/engine.rs:449-536 | a fact that enters the ledger at some step is strictly later than every barrier its source has had up to and including that step |
| CombatPartition.PartitionIsDisjoint | crates/eqcombat/src/engine.rs:907-908 | a fact listed by two encounters means they are the same encounter, and the fact is in the ledger |
| CombatPartition.MergeKeeps | crates/eqcombat/src/engine.rs:1078-1135 | a merge keeps the partition and the agreement with the assignments |
| CombatPartition.MergeIsUnion | crates/eqcombat/src/engine.rs:1078-1135 | the merged list is exactly the two lists together, as multisets: no fact lost or doubled |
| CombatPartition.MergeSymmetric | crates/eqcombat/src/engine.rs:1078-1090 | either argument order of a merge gives the same engine and the same surviving id |
| CombatPartition.PromoteKeeps | crates/eqcombat/src/engine.rs:1043-1076 | promotion of earlier facts keeps the partition and every earlier assignment |
| CombatPartition.DamageKeeps | crates/eqcombat/src/engine.rs:708-915 | a damage fact keeps the partition; the converse agreement survives exactly when the step does not mint an id that old assignments still name |
| CombatPartition.AttemptKeeps | crates/eqcombat/src/engine.rs:917-951 | an attempt keeps the partition and the exact agreement |
| CombatPartition.SlainKeeps | crates/eqcombat/src/engine.rs:953-1003 | a death keeps the partition and the exact agreement |
| CombatPartition.TimeKeeps | crates/eqcombat/src/engine.rs:1137-1235 | expiry, with or without the final clear of ledger and assignments, keeps both |
| CombatPartition.StepKeeps | crates/eqcombat/src/engine.rs:177-244 | every step keeps the partition, and the exact agreement under the stated guard |
| CombatPartition.PartitionOverRuns | crates/eqcombat/src/engine.rs:177-244 | in every reachable state the live encounters' lists are duplicate-free, disjoint, inside the ledger and named by the assignments |
| CombatPartition.ExactOverRuns | crates/eqcombat/src/engine.rs:816-862 | in every run that never re-mints an id still named by old assignments, every assignment to a live encounter is in its list |
| CombatHeld.DamageTouchesHeldIff | crates/eqcombat/src/engine.rs:708-915 | from any state, a damage fact leaves every held encounter as it was if and only if it neither goes to the source's own held encounter and contributes there, nor merges it, nor mints the id of a held one; where source_active names live encounters it keeps doing so if and only if no held id is minted |
| CombatHeld.DamageLosesSnapshotIff | crates/eqcombat/src/engine.rs:745-766 | from any state, a damage fact keeps the phase and frozen snapshot of every held encounter if and only if it is not the case that the source's current encounter is held and a different correlated encounter exists |
| CombatHeld.AttemptTouchesHeldIff | crates/eqcombat/src/engine.rs:917-951 | from any state, an attempt changes a held encounter if and only if the source's own is held and knows one of the two; snapshots are kept always |
| CombatHeld.SlainTouchesHeldIff | crates/eqcombat/src/engine.rs:953-1003 | from any state, a death changes a held encounter if and only if the source's own is held and knows the target; snapshots are kept always |
| CombatHeld.HeldImmutable | crates/eqcombat/src/engine.rs:177-244 | one guarded step that withdraws nothing: every held encounter, with its frozen snapshot, is unchanged until its hold time and gone from then on |
| CombatHeld.LiveOverRuns | crates/eqcombat/src/engine.rs:909-911 | in every run that never mints the id of a held encounter source_active only names live encounters that are not held |
| CombatHeld.HeldImmutableOverRuns | crates/eqcombat/src/engine.rs:1237-1258 | over every such run a held encounter is unchanged as long as its time has not come and no record withdraws the book |
| CombatHeld.SnapshotsOverRuns | crates/eqcombat/src/engine.rs:1237-1258 | over every run in which no hit merges a held encounter, minting of held ids included, a held encounter keeps its phase and its frozen snapshot until its time comes or a record withdraws the book |
| CombatHits.HitIsListedIff | crates/eqcombat/src/engine.rs:708-915 | a start-qualified hit is listed by an encounter of the book after its step if and only if its source does not follow a gone encounter without a correlated one, it is not excluded from an ending encounter's closure, and it does not start anew late for a held encounter or into a full book, each condition written on the state before the hit; in the first of these cases it stays assigned to the gone encounter, in the others it stays unassigned |
| CombatHits.LiveHitIsListed | crates/eqcombat/src/engine.rs:708-915 | where source_active names live encounters only the closure, lateness and the encounter bound can leave a qualified hit out |
| CombatLost.StepStaysLost | crates/eqcombat/src/engine.rs:177-244 | one step that neither withdraws the book nor empties the ledger: a fact that is assigned and listed nowhere stays so |
| CombatLost.LostForGood | crates/eqcombat/src/engine.rs:864-911 | over every run an assigned fact that no encounter lists is never listed again as long as the ledger keeps it |
| CombatCases.HeldChangesInARun | crates/eqcombat/src/engine.rs:814-911 | a run from the start of the engine in which an encounter held until 40000 is changed at 33000 by another log's report of the hit that opened it |
| CombatCases.SnapshotIsLostInARun | crates/eqcombat/src/engine.rs:1120-1121 | a run from the start of the engine, with the snapshots it really publishes, in which a frozen snapshot held until 40000 is gone at 35000 |
| CombatCases.AssignmentGoesStaleInARun | crates/eqcombat/src/engine.rs:814-862 | a run from the start of the engine after which an assignment names a live encounter that does not list the fact |
| CombatCases.HitIsLostInARun | crates/eqcombat/src/engine.rs:745-766 | a run from the start of the engine in which a start-qualified hit is accepted into the ledger, assigned to a gone encounter and listed nowhere |
| CombatDeadlines.NoMissedWakeup | crates/eqcombat/src/engine.rs:231-275 | after any step, a tick before next_deadline changes nothing at all but the clock |
| CombatDeadlines.PastDeadlineMovesOn | crates/eqcombat/src/engine.rs:1137-1235 | time never moves an encounter back a stage, and past its own deadline it always moves on |
| CombatDeadlines.ThreeTicksDrain | crates/eqcombat/src/engine.rs:1137-1258 | three ticks spaced by the inactivity, grace and hold times empty a non-empty book with its ledger and assignments |
| CombatDeadlines.TimelyOverRuns | crates/eqcombat/src/engine.rs:177-244 | in every reachable state receipts and entry times lie in the past and hold times at most one hold ahead |
| CombatDeadlines.ReachableBooksDrain | crates/eqcombat/src/engine.rs:1137-1258 | the three-tick drain from every reachable non-empty book |
| CombatDedup.RememberWindow | crates/eqcombat/src/engine.rs:491-497 | pushing an id and evicting the oldest keeps set and queue in agreement and within the bound |
| CombatDedup.WindowOverRuns | crates/eqcombat/src/engine.rs:436-497 | the accepted set and queue agree, without duplicates and within the bound, in every reachable state |
| CombatDedup.AcceptedRecordsIncrease | crates/eqcombat/src/engine.rs:455-490 | between registrations and explicit gaps of a source its accepted (generation, sequence) pairs strictly increase, however small the window |
| Election.TotalOrderFree | crates/eqcombat/src/engine.rs:1418-1520 | every total over eligible facts is independent of their order |
| Election.TallyMatches | crates/eqcombat/src/engine.rs:1418-1520 | the candidate table holds one entry per (participant, source) with exactly its damage, direct, pet, event and per-target totals and its first and last strike per target |
| Standings.TallyFits | crates/eqcombat/src/engine.rs:1499-1520 | gathering fails if and only if some candidate's own damage or event total overflows its counter |
| Standings.FewFactsFit | crates/eqcombat/src/engine.rs:1499-1520 | with fewer than 2^64 facts no counter overflows |
| Standings.DamageAddsUp | crates/eqcombat/src/engine.rs:1499-1520 | a candidate's damage is its direct plus its pet damage and also the sum over its targets in any order |
| Standings.ActiveOrderFree | crates/eqcombat/src/engine.rs:1522-1527 | active seconds do not depend on the order of the targets |
| Standings.OutranksTransitive | crates/eqcombat/src/engine.rs:1839-1847 | candidate_cmp is transitive |
| Standings.OutranksTotal | crates/eqcombat/src/engine.rs:1839-1847 | candidate_cmp decides between any two different sources, one way only |
| Standings.ElectedExists | crates/eqcombat/src/engine.rs:1538-1553 | every participant with a candidate has an elected source |
| Standings.ElectedUnique | crates/eqcombat/src/engine.rs:1538-1553 | and only one |
| Standings.NoDoubleCounting | crates/eqcombat/src/engine.rs:1311-1385 | raid damage is the total over exactly the eligible facts whose log is the elected one of their participant; each participant has one row with its elected log's total; rows sum to the raid damage and shares to the bound above, in any order |
| Standings.PublishesIffEligible | crates/eqcombat/src/engine.rs:1316-1325 | a snapshot is published if and only if some fact is eligible |
| Standings.ElectionOrderFree | crates/eqcombat/src/engine.rs:1418-1582 | reordering the fact list changes no elected source, no managed mark and no published number: the snapshots differ at most in the pet marks and the quality of rows, provided the credits of one candidate agree on whether the log is the participant's own |
| RowMarks.MarksOfRow | crates/eqcombat/src/engine.rs:1482-1505 | a row is provisional exactly when the first credit of its elected log is an unclaimed pet's, and has a pet exactly when the last pet credit is an owned one's |
| RowMarks.MarksOrderFreeIff | crates/eqcombat/src/engine.rs:1482-1573 | every order of the fact list publishes the same snapshot if and only if no row's elected log mixes credits of an unclaimed pet with others, under the same proviso |
| Standings.Gather | crates/eqcombat/src/engine.rs:1418-1520 | the fact loop computes the candidate table, with its early returns |
| Standings.ActiveTime | crates/eqcombat/src/engine.rs:1522-1527 | one candidate's active seconds |
| Standings.FillActive | crates/eqcombat/src/engine.rs:1522-1527 | active seconds for the whole table |
| Standings.PickWinner | crates/eqcombat/src/engine.rs:1538-1553 | the two loops over sorted options find the elected source: first authoritative personal log, else the top-ranked |
| Standings.ElectAll | crates/eqcombat/src/engine.rs:1528-1582 | every participant gets its elected source |
| Standings.RaidDamage | crates/eqcombat/src/engine.rs:1320-1322 | the checked fold over winners equals the total over credits of elected sources, failing exactly on overflow |
| Standings.BuildRow | crates/eqcombat/src/engine.rs:1358-1385 | one published row, with its marks and quality |
| Standings.ComputeSnapshot | crates/eqcombat/src/engine.rs:1311-1416 | the whole computation publishes exactly SnapshotOf |
| CombatEngines.CombatEngine.TakeRecord | crates/eqcombat/src/engine.rs:431-637 | apply_record as a whole |
| CombatEngines.CombatEngine.SeenBefore | crates/eqcombat/src/engine.rs:639-673 | counts the occurrence and answers whether an earlier generation showed it at least as often |
| CombatEngines.CombatEngine.JoinTargetMaps | crates/eqcombat/src/engine.rs:1099-1110 | the loop over the other encounter's targets joins the two target maps |
| CombatEngines.CombatEngine.PromotePriorFacts | crates/eqcombat/src/engine.rs:1043-1076 | the promotion loop over the ledger |
| CombatEngines.CombatEngine.CloseEofs | crates/eqcombat/src/engine.rs:1138-1152 | stable end-of-file closes the observed second |
| CombatEngines.CombatEngine.EndInactive | crates/eqcombat/src/engine.rs:1154-1168 | silent encounters enter their ending |
| CombatEngines.CombatEngine.FinalizeDue | crates/eqcombat/src/engine.rs:1170-1216 | all due endings, with late sources marked partial |
| CombatEngines.CombatEngine.DropExpired | crates/eqcombat/src/engine.rs:1218-1234 | expired encounters leave; the last takes ledger and assignments along |
| CombatEngines.CombatEngine.Advance | crates/eqcombat/src/engine.rs:1137-1235 | advance_time as a whole, publishing real snapshots |
| CombatEngines.CombatEngine.NextDeadline | crates/eqcombat/src/engine.rs:250-275 | the least of all encounter and end-of-file deadlines, or none if there is none |
| CombatEngines.CombatEngine.Apply | crates/eqcombat/src/engine.rs:177-229 | one input: the step of the model, and the next deadline of the new state |
| CombatEngines.CombatEngine.Tick | crates/eqcombat/src/engine.rs:231-244 | one tick: the step of the model, and the next deadline of the new state |
| MouseClutchSafety.StepKeeps | crates/stonemite/src/broadcast.rs:155-238 | every key, button, remote, session, lifecycle, settings and tick step keeps the whole invariant |
| MouseClutchSafety.InvOverRuns | crates/stonemite/src/broadcast.rs:556-690 | in every reachable state: Active exactly when the key owns the clutch or a remote hold exists; every hold has the clutch's source; closed sessions agree, at most 256, without holds; flagged targets only while not Inactive and never the source |
| MouseClutchSafety.EndSessionKeeps | crates/stonemite/src/broadcast.rs:667-690 | after a session ends it is remembered as closed and none of its holds is left |
| MouseClutchSafety.RenewKeeps | crates/stonemite/src/broadcast.rs:638-655 | in a reachable state a renewal succeeds exactly for an existing hold |
| MouseClutchSafety.IdleTick | crates/stonemite/src/broadcast.rs:866-903 | a tick ends a drain exactly when its deadline has come |
| MouseClutchSafety.IdleStep | crates/stonemite/src/broadcast.rs:190-237 | no step that does not leave the clutch Active (any key, button, refused begin, cancel, settings change, session end or early tick) moves a drain deadline, restarts an idle clutch or ends a drain early |
| MouseClutchSafety.DrainIsBounded | crates/stonemite/src/broadcast.rs:858-903 | over any run in which no step leaves the clutch Active: still draining to the same deadline, or Inactive with every mouse flag cleared from the first tick at or after it |
| MouseClutchSafety.TickExpires | crates/stonemite/src/broadcast.rs:866-873 | after a tick only unexpired holds are left and the swallowed key is unchanged |
| MouseClutchSafety.LeasesOverRuns | crates/stonemite/src/broadcast.rs:581-664 | over any run every hold's deadline is within a lease of the last renewal |
| MouseClutchSafety.UnrenewedClutchReleases | crates/stonemite/src/broadcast.rs:858-903 | with the clutch key up, a tick 2000 ms after the last renewal is never Active, in every run |
| MouseClutchSafety.StaleMessageIgnored | crates/stonemite/src/broadcast.rs:567-577 | a message changes nothing if and only if its session is remembered as closed or its sequence is not above the last one, counting 0 for none |
| MouseClutchKeys.StepKeepsPaired | crates/stonemite/src/broadcast.rs:1118-1160 | every step keeps: the swallowed key is the bound key, held down, and a bound key is hooked |
| MouseClutchKeys.PairedOverRuns | crates/stonemite/src/broadcast.rs:838-846 | in every reachable state the swallowed key is the bound key, held down, and the keyboard hook is installed whenever a key is bound or swallowed |
| MouseClutchKeys.StrokesAreWhole | crates/stonemite/src/broadcast.rs:1118-1160 | in every run, whatever focus, settings, session, target, tick or other key events come between, a repeat or the release of a key is hidden from the focused window if its press was, and only then when the sampled keyboard shows the key down while it is down |
| MouseClutchState.BroadcastState.Deactivate | crates/stonemite/src/broadcast.rs:438-447 | clears every selected target |
| MouseClutchState.BroadcastState.ActivateMouse | crates/stonemite/src/broadcast.rs:464-492 | selects exactly the ready eligible targets other than the source, or nothing changes |
| MouseClutchState.BroadcastState.CloseSession | crates/stonemite/src/broadcast.rs:667-690 | session end |
| MouseClutchState.BroadcastState.HookKeyDown | crates/stonemite/src/broadcast.rs:1120-1157 | the clutch part of the keyboard hook, key down: the new state and whether the event is hidden |
| MouseClutchState.BroadcastState.HookKeyUp | crates/stonemite/src/broadcast.rs:1125-1145 | the clutch part of the keyboard hook, key up: the new state and whether the event is hidden |
| KeySequencer.SettingKeepsCombined | crates/stonemite/src/broadcast.rs:1011-1060 | the shared key stays the OR of broadcast and targeted |
| KeySequencer.FinishLeavesKeysUp | crates/stonemite/src/broadcast.rs:1031-1046 | finishing leaves every targeted key up and the broadcast keys as they were |
| KeySequencer.ClearKeepsCombined | crates/stonemite/src/broadcast.rs:740-750 | releasing the broadcast keys keeps the OR and the targeted keys |
| KeySequencer.PhaseKeys | crates/stonemite/src/control.rs:1498-1531 | the keys each phase acts on: modifiers, primaries or all |
| KeySequencer.SetAllKeys | crates/stonemite/src/control.rs:1613-1626 | the phase loop gets through exactly if all scan codes are valid, and then adds or removes exactly its keys |
| KeySequencer.StepHoldsExactly | crates/stonemite/src/control.rs:1610-1650 | a due step takes the held keys exactly from one phase's set to the next one's |
| KeySequencer.ModifiersBracketPrimary | crates/stonemite/src/control.rs:1628-1647 | a primary key of a chord is only down while all its modifiers are |
| KeySequencer.StepCounts | crates/stonemite/src/control.rs:1533-1545 | every due step brings Finish nearer by exactly one |
| KeySequencer.FinishInTime | crates/stonemite/src/control.rs:1533-1650 | Finish is reached after exactly the counted number of due steps, not earlier |
| KeySequencer.FourStepsPerStroke | crates/stonemite/src/control.rs:1533-1650 | for every non-empty stroke list at most four due steps per stroke |
| InputDeliverySafety.AllOrNone | crates/stonemite/src/control.rs:931-956 | a batch that cannot get every target leaves all keys exactly as they were |
| InputDeliverySafety.StartBatchKeeps | crates/stonemite/src/control.rs:907-989 | starting a batch keeps the whole invariant |
| InputDeliverySafety.MemberLeaves | crates/stonemite/src/control.rs:1663-1704 | the reply goes out when the last member is released, not before, only to a listening requester, Ok exactly when no member failed |
| InputDeliverySafety.FinishKeeps | crates/stonemite/src/control.rs:1663-1712 | finishing any input in any way keeps the whole invariant |
| InputDeliverySafety.AdvanceKeeps | crates/stonemite/src/control.rs:1568-1650 | advancing one input keeps the whole invariant |
| InputDeliverySafety.StopKeeps | crates/stonemite/src/control.rs:447-460 | stopping puts every targeted key up |
| InputDeliverySafety.InvOverRuns | crates/stonemite/src/control.rs:1548-1704 | in every reachable state: held keys are exactly those of the input's phase and none without an input, a batch waits for exactly its active members, its error flag is its members' failures, nobody is replied to twice |
| InputDeliverySafety.IdleTargetsAreUp | crates/stonemite/src/broadcast.rs:1031-1046 | a target without an input of its own has no targeted key down |
| InputDeliverySafety.BatchGetsOneReply | crates/stonemite/src/control.rs:1663-1704 | over every run, as long as the requester listens and the dispatcher runs: the batch is pending without any reply, or it is over with exactly one reply, Ok exactly when no member failed |
| InputProgress.CallbackProgress | crates/stonemite/src/control.rs:1548-1566 | one timer callback: every listed input that is due moves on or ends, its next step no further off than its longest delay; inputs that are not listed or not due stay or, if abandoned or failed, end |
| InputProgress.RipeCallbacksCount | crates/stonemite/src/control.rs:1548-1650 | over any run, each callback that lists an input when it is due takes at least one of its counted steps off |
| InputProgress.BatchIsAnswered | crates/stonemite/src/control.rs:1663-1704 | a pending batch is over once each of its members has had more callbacks at its own due times than it had steps to go: no member active, exactly one reply, Ok exactly when no member failed, released keys up |
| InputProgress.StartedBatchIsAnswered | crates/stonemite/src/control.rs:907-989 | every started batch whose requester listens is answered exactly once when each member has had five callbacks at its own due times, plain and chord members mixed |
| SingleInputs.StepOk | crates/stonemite/src/control.rs:1594-1612 | a step tells the requester Ok if and only if it is a callback that comes to their input with all its steps done, the last wait over and the target present |
| SingleInputs.SingleIsAnswered | crates/stonemite/src/control.rs:1663-1712 | a pending single input is answered exactly once when it has had more callbacks at its due times than it had steps to go, Ok exactly when a callback found it delivered |
| SingleInputs.StartedSingleIsAnswered | crates/stonemite/src/control.rs:1184-1243 | a single input of n strokes is answered exactly once after 4n + 1 such callbacks, Ok exactly when a callback found it delivered |
| InputTiming.SpacedAreRipe | crates/stonemite/src/control.rs:1589-1593 | on a clock that does not go back, of callbacks over every active input that are spaced by the longest delay each comes with a callback of its own at which any given input is due or gone, whatever other callbacks come between |
| InputTiming.SpacedCallbacksAnswerBatch | crates/stonemite/src/control.rs:907-989 | every started batch whose requester listens is answered exactly once after five callbacks over every active input that are at least the longest delay apart, with anything in between |
| InputTiming.SpacedCallbacksAnswerSingle | crates/stonemite/src/control.rs:1184-1243 | every started single input of n strokes is answered exactly once after 4n + 1 of them, Ok exactly when a callback found it delivered |
| InputState.KeyBuffer.FinishInput | crates/stonemite/src/broadcast.rs:1031-1046 | the in-place release loop |
| InputState.KeyBuffer.ReleaseBroadcastKeys | crates/stonemite/src/broadcast.rs:740-747 | the in-place broadcast release loop |
| InputState.InputHub.AcquireTargets | crates/stonemite/src/control.rs:931-941 | the acquiring loop |
| InputState.InputHub.StartAll | crates/stonemite/src/control.rs:907-989 | starting a batch |
| InputState.InputHub.PressKeys | crates/stonemite/src/control.rs:1613-1626 | the key loop of a phase |
| InputState.InputHub.Leave | crates/stonemite/src/control.rs:1675-1704 | a member leaves its batch |
| InputState.InputHub.AdvanceInputs | crates/stonemite/src/control.rs:1548-1566 | the callback: the map is emptied and refilled, which is the same as advancing each input in place |
| IdentityReader.StableWindow | crates/stonemite/src/trusik_shm.rs:77-91 | between two equal even generations without a full wrap no field changes |
| IdentityReader.ReadField | crates/stonemite/src/trusik_shm.rs:110-120 | if the field looked the same at every byte access the result is its text |
| IdentityReader.Attempt | crates/stonemite/src/trusik_shm.rs:77-91 | one attempt: a returned pair is from one publication; a failed one saw an odd or moving generation |
| IdentityReader.ReadIdentity | crates/stonemite/src/trusik_shm.rs:67-93 | under every interleaving a returned pair comes from one single publication; a quiet even memory is always read; a wrong header never is |
| TriggerTimersSafety.StepKeeps | crates/eqtrigger/src/engine.rs:775-1270 | every firing, clock advance and early end keeps the whole invariant |
| TriggerTimersSafety.RestartModesHold | crates/eqtrigger/src/engine.rs:1039-1067 | at most one live timer per trigger, or per trigger and folded name, under the matching restart modes, in every run |
| TriggerTimersSafety.WarnsAndEndsOnce | crates/eqtrigger/src/engine.rs:1133-1210 | no timer warns twice or ends twice, and none that has ended is running |
| TriggerTimersSafety.LoopingIsBounded | crates/eqtrigger/src/engine.rs:1180-1205 | one firing causes at most times_to_loop restarts |
| TriggerTimersSafety.FiringsAreSpaced | crates/eqtrigger/src/engine.rs:792-806 | accepted firings of a locked-out trigger are pairwise more than the lockout apart, even on a clock that goes back |
| TriggerBoard.CharacterTimers.Warn | crates/eqtrigger/src/engine.rs:1139-1156 | the warning loop |
| TriggerBoard.CharacterTimers.TakeEnded | crates/eqtrigger/src/engine.rs:1158-1167 | the ended timers, in order, taken out |
| TriggerBoard.CharacterTimers.AdvanceClock | crates/eqtrigger/src/engine.rs:1133-1210 | advance as a whole |
| TriggerBoard.CharacterTimers.CheckEnders | crates/eqtrigger/src/engine.rs:1212-1270 | early ends |
| Conditions.OrSound | crates/eqtrigger/src/conditions.rs:213-296 | what the parser accepts is an expression of the grammar within the depth, and its tree |
| Conditions.OrComplete | crates/eqtrigger/src/conditions.rs:213-296 | every expression of the grammar within the depth is accepted with its tree |
| Conditions.ParsesExactlyTheGrammar | crates/eqtrigger/src/conditions.rs:5-11 | parse returns a tree if and only if the tokens are an expression with nesting at most 10 and no parenthesised comparison operand, and that tree is its left-associated one |
| Conditions.GrammarIsUnambiguous | crates/eqtrigger/src/conditions.rs:5-11 | the grammar is unambiguous at every depth: the same tokens are the same expression |
| Conditions.OrIsAny | crates/eqtrigger/src/conditions.rs:304-309 | an OR chain holds exactly when one of its operands does |
| Conditions.AndIsAll | crates/eqtrigger/src/conditions.rs:304-309 | an AND chain holds exactly when all of its operands do |
| ConditionParser.Parser.ParseOrExpr | crates/eqtrigger/src/conditions.rs:213-221 | the OR loop |
| ConditionParser.Parser.ParseAndExpr | crates/eqtrigger/src/conditions.rs:223-231 | the AND loop |
| ConditionParser.ParseTokens | crates/eqtrigger/src/conditions.rs:69-81 | parse over tokens, total and terminating |
| CalVers.ParsePrint | crates/stonemite/calver.rs:51-107 | parsing a printed valid version returns it, with or without one leading v |
| CalVers.PrintParse | crates/stonemite/calver.rs:51-107 | every accepted string is a valid version and, minus one leading v, is reprinted unchanged |
| CalVers.CargoParses | crates/stonemite/calver.rs:42-45 | cargo_version is a Semantic Versioning core version with the packed numbers |
| CalVers.CargoVersionOrder | crates/stonemite/calver.rs:42-45 | cargo_version preserves and reflects the strict order under item 11 of Semantic Versioning 2.0.0 |

## Left out

- Display names, ranks and the title of a snapshot with the per-target totals behind it; the title's checked sums are at most the raid damage and cannot fail once that fits.
- Standings.ComputeSnapshot: does not state title, primary target, display names and ranks.
- Standings.ElectionOrderFree: takes the credits of one candidate to agree on whether the log is the participant's own, because the personal flag is read from the first of them; a client process that changes its character keeps its source id and can break this. The pet marks and the quality are the subject of RowMarks.MarksOrderFreeIff.
- RowMarks.MarksOrderFreeIff: has the same proviso as Standings.ElectionOrderFree.
- CombatEngines.CombatEngine.Apply: does not state the returned book snapshot and urgency.
- CombatEngines.CombatEngine.Tick: does not state the returned book snapshot and urgency.
- The rebuilt encounter book, revision hashes, urgency, lifecycle signature and diagnostics text.
- Attack modifiers and provenance of a fact: carried as one opaque value, compared as a whole when replays are counted.
- The sorting of pet ownership claims: the model keeps arrival order and selects the same claim, ties included.
- CombatHeld.HeldImmutableOverRuns: excludes runs that mint the id of a held encounter, after which the code does not keep the promise, and records that withdraw the whole book on purpose.
- CombatHeld.SnapshotsOverRuns: excludes exactly the hits that merge a held encounter, which lose its snapshot, and records that withdraw the whole book on purpose.
- CombatPartition.ExactOverRuns: excludes runs that mint an id still named by the assignments of an encounter that has gone, the exact case in which the converse agreement fails.
- InputDeliverySafety.BatchGetsOneReply: assumes fewer than 2^64 batches, because the batch counter saturates and would then reuse an id that is still pending; each reply channel is used for one command. That the reply comes is InputTiming.SpacedCallbacksAnswerBatch.
- KeySequencer.FinishInTime: counts steps of one input; the timer callbacks that take them are in InputProgress and InputTiming.
- KeySequencer.FourStepsPerStroke: counts steps of one input; the timer callbacks that take them are in InputProgress and InputTiming.
- The suppress flags, heartbeat, refresh flag and keyboard-source part of the Mouse Clutch operations.
- TriggerBoard.CharacterTimers.CheckEnders: which enders match, and the repeat-count threshold, come in as a given set.
- The target keys inside InputState.InputHub are values, so the model does not capture aliasing between two mappings of one target; InputState.KeyBuffer shows the same operations in place on the arrays.
- IdentityReader.ReadIdentity: memory accesses are sequentially consistent and the 32-bit generation does not wrap within one attempt; decoding bytes to text is left as bytes; the legacy layout without a generation has no consistency to prove.
- Trigger times are whole milliseconds without an upper bound: floating-point durations and 64-bit wrap-around are not modelled; regex matching, variables, repeat counters and spoken or displayed text are parameters or absent.
- The condition tokenizer and the comparison of operand values (numbers, case folding, unset variables).
- The keyboard-broadcast filter, Win32 hooks and shared-memory mapping beyond their results, tray, overlay, audio, configuration, trigger packages, the updater and the remote-control server: foreign calls, plumbing or one-branch checks.
