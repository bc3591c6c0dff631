# Accelerator health store: model and proofs

A coordinator keeps the health of a fleet of accelerators. Workers report observations, faults
and validation results; the store turns them into a health state, a readiness verdict and an
assessment per device, keeps secondary indexes and append-only logs, and is saved to a sealed
binary file from which a restarted coordinator continues. This project models that store, the
codec it is saved and sent with, and proves what the two promise.

The model has three layers.

* **Values and steps.** `Enums`, `Records`, `StateMachine`, `Readiness`, `FaultHistory`,
  `Assessment` and `Devices` give the records and everything an operation does to one device.
  `StoreMachine.Step` is the store as a state machine: one event per lock acquisition, so a
  policy change is two events; a restart (save, then load into a new process) is one. A `Trace`
  is any sequence of events with any clock readings, and `Run` takes it from a new store.
* **Theorems over runs.** `ChangeLogs`, `DeviceInvariant` and `Runs` establish what every
  reachable store satisfies. `Histories`, `Ledgers` and `CareRecords` say what each field of a
  device and of the store is as a function of the events; `Causes`, `Outcomes` and
  `Explanations` which state, verdict, action and reasons follow from them; `Recovery`,
  `Guarantees`, `Trust`, `Hysteresis`, `Indexes`, `GlobalLogs`, `FaultIndexes`, `StaleIndex`,
  `Fencing` and `Accounting` draw the consequences. `Wire`, `RecordCodecs`, `DeviceCodec`,
  `RecordBytes`, `Crc`, `Protocol`, `Persistence`, `Restarts`, `Limits`, `SaveableRuns`,
  `ImageSize` and `CompactRuns` do the same for the bytes. `Witnesses` and `OwnSaves` hold runs
  that reach the exceptional cases.
* **The running code.** `Runtime.HealthStore` is the store with its mutable fields and index
  maps, `WireIO` the writer and reader, `Storage` and `Files` saving and loading, with the loops
  of the program. Each operation is proved to take exactly one step of the machine (`StepShapes`,
  `EventShapes`, `Sweeps` and `Buckets` supply the connection). The class keeps a ghost record of
  the steps it has taken, and its invariant says that its contents are those of that run.

The run theorems assume one thing of the outside: registrations do not collide
(`Runs.Admissible`). Non-zero uuids, which is what workers report, never do, and with uuid zero
the promise is shown to fail. Clock readings are arbitrary, and may go backwards.

Where the code and its comments differ the model follows the code: a loss changes the state
without reassessment, so verdict and state bucket are stale until the next one; the transition
table has UNKNOWN to HEALTHY, which the header comment denies; a failed revalidation inside a
recovery quarantines the device, as the comment says, but the reassessment that closes the call
takes it back (`Recovery.FailureKeepsRecovery`); a quarantine record placed on a lost device
stays although the call throws; the trust boundary of a load holds for HEALTHY verdicts only, so
a degraded device can be ready before a live worker has refreshed it (`Trust.TrustBoundary`,
`Witnesses.ReadyOutOfLoad`); a change of policy marks every tracked device for good
(`Trust.NewPolicyEndsFullReadiness`); the observation fence does not survive a restart, while the
epoch does; a load that fails behind the header leaves a store whose indexes no longer match its
devices.

## Model

| member | source | states |
|---|---|---|
| `StateMachine.TableShape` | src/StateMachine.cpp:17-105 | which states lead to HEALTHY, to RECOVERING and to LOST: every state but LOST itself has an edge to LOST, so the fallback of a loss is dead code |
| `StateMachine.TableByTarget` | src/StateMachine.cpp:17-105 | the table read the other way: from where each of the other states can be entered |
| `Readiness.FreshnessOnlyDecays` | include/accelerator-health/Freshness.hpp:32-39 | evidence fresh at one reading was fresh at every earlier one, for all thresholds |
| `Readiness.BandsExactly` | include/accelerator-health/Freshness.hpp:21-39 | where each freshness band begins and ends, for all thresholds in any order |
| `Readiness.FreshExactly` | src/Store.cpp:316-318 | evidence is fresh exactly when there is some, and it is from the future or no older than the greater of the first two thresholds |
| `Readiness.EvaluateExactly` | src/Readiness.cpp:15-108 | the readiness table gives leave to execute exactly under the stated conditions |
| `Readiness.VerdictsExactly` | src/Readiness.cpp:15-108 | for each of the seven verdicts, exactly when it is given |
| `FaultHistory.TrailingRunIsLongestSuffix` | src/History.cpp:66-74 | the count of latest failures is the length of the longest suffix of one type |
| `FaultHistory.ConsecutiveOfType` | src/History.cpp:66-74 | the backward loop returns the length of that suffix |
| `FaultHistory.StatsAfterRecord` | src/History.cpp:90-107 | how each statistic changes when one fault is appended |
| `FaultHistory.ComputeStats` | src/History.cpp:90-107 | one pass computes the statistics defined by the whole list |
| `FaultHistory.AsInt32Exactly` | src/Assessment.cpp:83 | the cast keeps the count modulo 2^32 and lands in the signed range |
| `Assessment.ScanDimensions` | src/Assessment.cpp:54-79 | the loop finds exactly whether a dimension failed, failed fatally or is degraded, and the reason of the worst |
| `Assessment.ChooseTarget` | src/Assessment.cpp:81-107 | the branch cascade over the scan results yields the specified target state |
| `Assessment.CollectReasons` | src/Assessment.cpp:111-128 | the pushed reasons are the specified list |
| `Assessment.ChooseAction` | src/Assessment.cpp:150-157 | the action chain over the chosen target yields the specified action |
| `Assessment.WriteDigest` | src/Assessment.cpp:173-192 | the fields written one after the other and turned to text are the specified digest |
| `Assessment.RunAssessment` | src/Assessment.cpp:42-197 | scan, cascade, reasons, action, readiness and digest together are the specified assessment |
| `Assessment.DigestInjective` | src/Assessment.cpp:173-192 | two digests are equal exactly when the digested tuples agree |
| `Assessment.DigestIgnoresClock` | src/Assessment.cpp:173-192 | changing the clock changes the digest exactly when it changes the freshness band |
| `Causes.TargetByCause` | src/Assessment.cpp:85-107 | outside quarantine and recovery, exactly which faults, readings, counts and ages aim at FAILED, UNHEALTHY, HEALTHY; old evidence alone keeps the state, so FAILED and UNHEALTHY are also aimed at without a cause of their own |
| `Causes.ReassessIsWorst` | src/Store.cpp:285-314 | outside recovery a reassessment leaves a device in the worst of its state and the states called for, each call told from the readings, the faults, the quarantine and the age of the evidence |
| `Causes.ReassessKeepsRecovery` | src/Assessment.cpp:86-91 | under recovery the state is kept, and a quarantined device is taken back |
| `Causes.VerdictByCause` | src/Store.cpp:316-348 | outside recovery, exactly when each of the seven verdicts is recorded, a state that only the past holds included |
| `Causes.VerdictInRecovery` | src/Store.cpp:316-348 | under recovery the verdict is to revalidate, or quarantine while one is active |
| `Causes.ActionByCause` | src/Assessment.cpp:150-157 | for each of the six actions, the causes it is recorded for |
| `Explanations.CausesAreNamed` | src/Assessment.cpp:111-120 | recovery, quarantine, fatal fault, failed or degraded reading and repeated failures each have their reason |
| `Explanations.DoubtsAreNamed` | src/Assessment.cpp:121-126 | so have stale and expired evidence, shallow validation and the two generation marks |
| `Explanations.NothingElseIsNamed` | src/Assessment.cpp:111-128 | there are as many reasons as causes, and without a cause one of the two fallbacks |
| `Explanations.QuotesTheWorst` | src/Assessment.cpp:60-76 | the reading quoted is the most severe adverse one, of equals the one of the smallest kind, and INFO is never quoted |
| `Explanations.DecimalReadsBack` | src/Assessment.cpp:120 | the count quoted reads back as the number |
| `Explanations.ConfidenceFollows` | src/Assessment.cpp:130-148 | the six facts that the confidence is a function of, whatever the arithmetic makes of them |
| `Explanations.DigestTells` | src/Assessment.cpp:173-192 | two digests are equal exactly when device, generation, target, verdict, band, depths, fault statistics and thresholds agree |
| `Outcomes.AssessedAtOnce` | src/Store.cpp:71-355 | after every event that concerns a device its recorded assessment says what the device is, with the clock of the step and the policy generation in force |
| `Outcomes.SilentOtherwise` | src/Store.cpp:29-129 | every other event leaves the assessment and, but for the silent changes, the device alone |
| `Outcomes.StateIsWorst` | src/Store.cpp:132-355 | in every run, after every event that concerns a device out of recovery, its state is the worst of the one it came from and those called for |
| `Outcomes.VerdictAndActionFollow` | src/Store.cpp:285-355 | and verdict and action are those of its causes |
| `Outcomes.FailedReadingDrains` | src/Assessment.cpp:95-96 | an accepted report that leaves a failed reading and nothing fatal makes a device in service UNHEALTHY, not ready, to be drained |
| `Outcomes.FatalCauseFails` | src/Assessment.cpp:93-94 | a fatal reading or open fatal fault makes it FAILED, at the report or fault that brings it |
| `Outcomes.OldEvidenceWithdraws` | src/Assessment.cpp:103-104 | reassessed with evidence older than both fresh bands a HEALTHY device is not ready, and DEGRADED when nothing else is against it |
| `Histories.PolicyIsCurrent` | src/Store.cpp:30-38 | after every run the policy is the one installed last, and the policy generation counts the installations |
| `Outcomes.PolicyTakesEffect` | src/Store.cpp:29-40 | setting a policy leaves every device out of recovery in the state, verdict and action that the new policy calls for |
| `Histories.ObservationLands` | src/Store.cpp:147-157 | an accepted observation: each reported kind has its last entry, every other kind the reading it had; reporter, time, generation and marks are on record |
| `Histories.ReadingIsLast` | src/Store.cpp:154 | in every run the reading of a kind is the last one accepted for the device |
| `Histories.ReportIsLast` | src/Store.cpp:29-157 | in every run reporter, observation time, generation and the three marks are what accepted observations, policies, lost processes and restarts make of them |
| `Histories.IdentityIsRegistered` | src/Store.cpp:89-129 | every device has the uuid, node and time of its registration, and is present until marked lost |
| `Histories.SnapshotTells` | src/Store.cpp:418-440 | a snapshot after a run shows the last report and readings, the open ones of all faults recorded, every validation, and the state its log ends in |
| `Ledgers.RecordsAreTold` | src/Store.cpp:161-249 | in every run a device holds every fault reported for it, the first under each id, and every validation, in order |
| `Ledgers.EveryEntryWasWritten` | src/Store.cpp:358-382 | every change entry of a run was written by one step, with its clock, policy generation, readiness and label |
| `CareRecords.QuarantineOnRecord` | src/Store.cpp:185-219 | the quarantine on record is the one begun last, as recorded then, active exactly until it is cleared |
| `CareRecords.RecoveryOnRecord` | src/Store.cpp:221-262 | the recovery on record is the one begun last, with its id, time and profile, numbered by how many have begun, completed exactly when the device is out of recovery |
| `CareRecords.IdsAreDrawn` | src/Store.cpp:92-237 | between restarts every quarantine, recovery and device without a uuid draws the next id of its kind, modulo 2^64 |
| `CareRecords.IdsAfterRestart` | src/Persistence.cpp:250-260 | after a restart all three counters continue behind the largest device id |
| `DeviceInvariant.ReassessSettles` | src/Store.cpp:285-355 | a reassessment of any state the operations can reach re-establishes the device invariant |
| `DeviceInvariant.StepSettles` | src/Store.cpp:114-355 | every step keeps it: recovery states match the recovery flag, quarantine and fatal faults hold the device out of service, a ready verdict is backed |
| `ChangeLogs.StepContinues` | src/Store.cpp:358-382 | every step extends the change log of a device along legal edges and keeps its counters in line |
| `Runs.DeepestPassIsMaximum` | src/Store.cpp:177-180 | the cached validation depth is the maximum over all passing records |
| `Runs.StepKeepsInvariant` | src/Store.cpp:29-282 | every operation, registration included, keeps the store invariant |
| `Runs.ReachableInvariant` | src/Store.cpp:29-382 | after every run: legal change logs with exact counters, unique fault ids, cached depth equal to its fold, dimensions under their kinds, uuids and ids in bijection, and the device invariant |
| `Runs.NonZeroUuidsAreAdmissible` | src/Store.cpp:89-107 | with non-zero uuids no registration ever collides, and a device id is its uuid |
| `Runs.ZeroUuidOverwrites` | src/Store.cpp:92-105 | a run in which registering uuid zero replaces a tracked device and loses its fault history |
| `Runs.RegistrationOverwrites` | src/Store.cpp:89-107 | a registration replaces a tracked device exactly when the id it draws is taken, and touches no other |
| `Recovery.HealthyEntry` | src/Store.cpp:221-355 | one step enters HEALTHY only from INITIALIZING or inside a passing revalidation that fills the quota |
| `Recovery.SuccessesAreCounted` | src/Store.cpp:221-262 | the success count of an open recovery is the number of passing revalidations since it began |
| `Recovery.RecoveryGate` | src/Store.cpp:221-270 | in every run a device that has changed state re-enters HEALTHY only in a passing revalidation, after at least one and at least the required number since its recovery began |
| `Recovery.RecoveryEnds` | src/Store.cpp:250-262 | a passing revalidation ends the recovery exactly when as many have passed since it began as policy requires: the log has REVALIDATING to HEALTHY, the record is completed at that time; otherwise the device is REVALIDATING |
| `Recovery.TransitionsBounded` | src/Store.cpp:285-366 | state changes are at most 6 plus 1, 2 and 6 per recovery, quarantine and revalidation call, whatever else happens |
| `Recovery.NoFlapping` | src/Store.cpp:285-366 | without a recovery call the severity order is never descended, so there are at most six changes |
| `Recovery.FailureKeepsRecovery` | src/Store.cpp:261-269 | a failed revalidation inside recovery moves the device to QUARANTINED and straight back to RECOVERING: two more changes, the recovery still open, its successes kept |
| `Recovery.FailureQuarantines` | src/Store.cpp:242-270 | a failed revalidation ends in QUARANTINED exactly outside recovery, when the device is there already or its faults alone send it there |
| `Witnesses.FailureIsRetried` | src/Store.cpp:185-270 | a run that shows it: quarantined, in recovery, failed, and under recovery again after four changes |
| `Guarantees.HistoryOnlyGrows` | src/Store.cpp:132-182 | faults, validations and changes are never removed or reordered, device generations never decrease, a tracked device stays tracked |
| `Guarantees.FatalFaultStays` | src/Store.cpp:161-270 | after an open fatal fault, after every later step, the device is not ready and is failed, quarantined, under recovery or lost |
| `Guarantees.QuarantineTakesHold` | src/Store.cpp:185-207 | beginning a quarantine leaves a device ready exactly when it was lost and still marked ready |
| `Witnesses.ReadyUnderQuarantine` | src/Store.cpp:114-207 | a run that gets there: observed and ready, lost, quarantined, and still marked ready under an active quarantine |
| `Guarantees.QuarantineSticks` | src/Store.cpp:185-270 | until it is cleared a quarantine that took hold keeps the device not ready and quarantined, under recovery or lost, after every step |
| `Guarantees.HealthyNeedsRevalidation` | src/Store.cpp:209-270 | clearing a quarantine or waiting does not make a device healthy: that takes a passing revalidation |
| `Guarantees.WorkerLossRemovesReadiness` | src/Store.cpp:71-87 | after its worker process is invalidated a device is not ready at any later step, until an observation of it is accepted |
| `Guarantees.ReadyIffDeserved` | src/Store.cpp:285-355 | a reassessment gives the ready verdict exactly when every listed condition holds |
| `Guarantees.ReadyIsSound` | src/Store.cpp:285-355 | whenever a device is ready in a run, a step reassessed it and found all conditions true, and only the silent operations have touched it since |
| `Guarantees.LostForever` | src/Store.cpp:114-129 | no operation brings a lost device back |
| `Trust.TrustBoundary` | src/Persistence.cpp:285-288 | from a restart on, until an observation of it is accepted, a device keeps its revalidation mark and is ready only on a DEGRADED verdict |
| `Trust.ReadyAfterRestart` | src/Persistence.cpp:285-288 | a device is ready out of a load exactly when the saved evidence aims at DEGRADED and is fresh, and policy lets degraded devices execute |
| `Restarts.LoadDistrusts` | src/Persistence.cpp:280-289 | whatever file is accepted, every loaded device carries the mark and none is ready but on a DEGRADED verdict |
| `Witnesses.ReadyOutOfLoad` | src/Readiness.cpp:15-108 | a run in which the boundary has its gap: degraded by one minor fault, restarted, unobserved, and ready |
| `Trust.NewPolicyEndsFullReadiness` | src/Store.cpp:30-40 | once a policy has been installed a tracked device keeps the mark through every later step, and after its next reassessment is never ready again but on a DEGRADED verdict |
| `Trust.ActionOfVerdict` | src/Assessment.cpp:150-157 | a reassessment that finds a device ready never asks to drain, quarantine or recover it, and asks for nothing when it found it HEALTHY |
| `Trust.NothingAsked` | src/Assessment.cpp:150-157 | with fresh evidence and nothing asked the engine aims at HEALTHY, and the device is ready exactly when no mark is set and a transition leads there |
| `Trust.ReadyIsAskedLittle` | src/Store.cpp:285-348 | in every run a ready device is asked for monitoring or revalidation at most |
| `Hysteresis.ReassessIdempotent` | src/Store.cpp:285-355 | a second reassessment at the same clock changes nothing, digest and log included |
| `Hysteresis.ReassessAllIdempotent` | src/Store.cpp:279-355 | the same for the whole store with its indexes and logs |
| `Hysteresis.ReadinessOnlyDecays` | src/Store.cpp:285-355 | with time alone a verdict is kept exactly while the evidence is fresh and never regained |
| `Hysteresis.MinorFaultTarget` | src/Assessment.cpp:81-107 | where one more minor fault aims a device, the cast of the count included |
| `Hysteresis.OneMoreFault` | src/Assessment.cpp:97-107 | the state after one more minor fault follows the thresholds for every count: past 2^31 the count reads negative, but no transition leads back |
| `Hysteresis.ReportsAreRecorded` | src/Store.cpp:161-170 | reports under new ids are appended in order and touch neither evidence nor care of the device |
| `Hysteresis.ExactHysteresis` | src/Store.cpp:161-170 | for every n, n minor faults of one new type give HEALTHY below the first threshold, DEGRADED from it, UNHEALTHY from the second |
| `Hysteresis.CriticalFaultTarget` | src/Assessment.cpp:92-104 | where one more open critical fault aims a device, the cast of the count included |
| `Hysteresis.OneMoreCritical` | src/Assessment.cpp:97-104 | the state after one more open critical fault follows the three thresholds for every count |
| `Hysteresis.ExactQuarantine` | src/Store.cpp:161-170 | for every n and every order of the thresholds, n open critical faults of one new type quarantine a HEALTHY device from the third threshold on, and below it do what n minor faults do |
| `Hysteresis.ThresholdsMustFit` | src/Assessment.cpp:83-103 | a device without faults is aimed at HEALTHY exactly when both thresholds lie from 1 to 2^31 - 1 |
| `Indexes.IndexesAlwaysAgree` | src/Store.cpp:384-406 | after every run each device is in exactly one state and one readiness bucket, the latter and, unless it is lost, the former of its current value; the quarantine index is the set of active records; the fault index holds every type with an open fault and only types that occurred (FaultIndexExact says which) |
| `Indexes.BucketFollows` | src/Store.cpp:114-129 | after every run a device is in the bucket of its state, or, while no reassessment has seen its loss, in that of a state before |
| `Indexes.StateBucketExact` | src/Store.cpp:384-389 | after every run the state bucket is right exactly when no loss has gone without a reassessment |
| `Indexes.LossLeavesBucket` | src/Store.cpp:114-129 | a run in which it is wrong: registered, then lost |
| `GlobalLogs.GlobalLogsAlwaysAgree` | src/Store.cpp:161-170 | the global logs filtered by device are the device's own logs, whole without a restart and a suffix with one |
| `FaultIndexes.FaultIndexExact` | src/Store.cpp:161-170 | after every run the fault index lists a type for a device exactly when a fault of it is open there or one was recorded since the last restart |
| `StaleIndex.StaleIndexExact` | src/Store.cpp:350-353 | after every run the stale index holds exactly the devices whose evidence was not fresh when last assessed |
| `GlobalLogs.FaultTotalIsAll` | src/Store.cpp:520-540 | counting the log device by device counts every entry once |
| `Fencing.RefusedChangesNothing` | src/Store.cpp:132-145 | a refused observation, duplicate fault, second quarantine, impossible recovery, loss of a process not current, known uuid or unknown device leaves the whole store as it was |
| `Fencing.AcceptedGenerationsIncrease` | src/Store.cpp:140-156 | of two observations accepted from one worker process the later has the greater generation, or the coordinator restarted in between |
| `Fencing.RegistryIsCurrent` | src/Store.cpp:62-87 | the registry holds exactly the latest registration not invalidated since |
| `Fencing.FenceIsLastAccepted` | src/Store.cpp:140-156 | the fence holds exactly the generations last accepted since the last restart |
| `Fencing.EpochIsCurrent` | src/Store.cpp:49-60 | the epoch is a function of the events, and survives a restart |
| `Fencing.AcceptedExactly` | src/Store.cpp:132-146 | an observation is accepted exactly when its device is tracked, epoch and worker process are current, and it is newer than the last accepted since the last restart and of no older device generation |
| `Fencing.RefusedBecause` | src/Store.cpp:132-145 | when an observation is refused, which refusal, each told from the events |
| `Fencing.ReplayAfterRestart` | src/Persistence.cpp:74-150 | the fence is not saved: for every store and accepted observation, a restart and the same process registering again let the same envelope in a second time |
| `Fencing.AcceptedTwice` | src/Persistence.cpp:74-150 | the same as a run of a new store |
| `Accounting.ScanDevices` | src/Store.cpp:521-548 | the two passes compute the figures as cardinalities and sums over the devices |
| `Accounting.FiguresCount` | src/Store.cpp:521-548 | the figures no index mirrors: all devices, those under recovery, the faults shown as open, the devices with old evidence |
| `Accounting.OpenFaultsAreShown` | src/Store.cpp:535-539 | a fault counts as unresolved exactly when it is shown as open |
| `Accounting.BucketsAreExact` | src/Store.cpp:521-548 | in every run the bucket of a state holds the devices in it and, apart from them, those whose loss from it no reassessment has seen |
| `Accounting.FiguresAndBuckets` | src/Store.cpp:521-548 | in every run each figure falls short of its bucket by exactly those devices |
| `Accounting.NoFaultIsMissed` | src/Store.cpp:535-539 | open and resolved faults together are all faults ever recorded, in every run without a restart |
| `Wire.LittleEndianRoundTrip` | include/accelerator-health/Util.hpp:48-73 | reading a fixed-width integer undoes writing it |
| `Wire.RoundTrip` | include/accelerator-health/Wire.hpp:28-165 | for every layout and value, reading what was written, whatever follows, gives the value and what followed |
| `Wire.RowRoundTrip` | include/accelerator-health/Wire.hpp:28-165 | the same for whole records |
| `Wire.PutRowInjective` | include/accelerator-health/Wire.hpp:28-93 | two records of one layout with equal bytes are equal |
| `Wire.HexInjective` | include/accelerator-health/Util.hpp:76-84 | equal hexadecimal texts come from equal bytes |
| `Wire.ToHex` | include/accelerator-health/Util.hpp:76-84 | the loop computes that text |
| `Wire.HexAt` | include/accelerator-health/Util.hpp:76-84 | each byte is two lower-case digits, the high one first |
| `WireIO.StoreLE` | include/accelerator-health/Util.hpp:48-60 | the byte loop writes the little-endian form |
| `WireIO.LoadLE` | include/accelerator-health/Util.hpp:61-72 | the byte loop reads it |
| `WireIO.Writer.Text` | include/accelerator-health/Wire.hpp:72-77 | a text beyond the bound is refused with nothing written, any other is appended with its length |
| `WireIO.Writer.Fields` | include/accelerator-health/Wire.hpp:28-93 | writing a record appends exactly its specified bytes |
| `WireIO.Reader.Word` | include/accelerator-health/Wire.hpp:101-116 | an integer is read and the cursor moved, or the failure flag is set and nothing consumed |
| `WireIO.Reader.Text` | include/accelerator-health/Wire.hpp:149-155 | text is read within its bounds; every other case sets the failure, which sticks |
| `WireIO.Reader.Fields` | include/accelerator-health/Wire.hpp:90-170 | a record is read exactly when the specification parses one, and the cursor stands after it |
| `RecordCodecs.PolicyRoundTrip` | include/accelerator-health/Policy.hpp:40-71 | the policy record survives its codec |
| `RecordCodecs.DimensionRoundTrip` | include/accelerator-health/Dimension.hpp:48-74 | so does a dimension |
| `RecordCodecs.EvidenceRoundTrip` | include/accelerator-health/Evidence.hpp:41-76 | so does an evidence record |
| `RecordCodecs.FaultRoundTrip` | include/accelerator-health/Fault.hpp:58-94 | so does a fault |
| `RecordCodecs.ValidationRoundTrip` | include/accelerator-health/Store.hpp:97-110 | so does a validation record |
| `RecordCodecs.ChangeRoundTrip` | include/accelerator-health/ChangeLog.hpp:37-61 | so does a change entry |
| `RecordCodecs.QuarantineRoundTrip` | include/accelerator-health/Store.hpp:43-57 | so does a quarantine record |
| `RecordCodecs.RecoveryRoundTrip` | include/accelerator-health/Store.hpp:70-79 | so does a recovery record |
| `RecordCodecs.AssessmentRoundTrip` | src/Persistence.cpp:27-71 | so does an assessment with its list of reasons |
| `DeviceCodec.DimensionListRoundTrip` | src/Persistence.cpp:92-93 | writing the dimensions in kind order and merging them back rebuilds the map |
| `DeviceCodec.DeviceRoundTrip` | src/Persistence.cpp:80-113 | a device is read back with every field but the revalidation mark |
| `RecordBytes.PutIsLittleEndian` | include/accelerator-health/Util.hpp:48-60 | byte i of an integer has weight 256^i |
| `RecordBytes.PolicyBytes` | include/accelerator-health/Policy.hpp:40-56 | the bytes of a policy, field by field in the order they are written |
| `RecordBytes.DimensionBytes` | include/accelerator-health/Dimension.hpp:48-60 | the same for a dimension |
| `RecordBytes.EvidenceBytes` | include/accelerator-health/Evidence.hpp:41-57 | for an evidence record |
| `RecordBytes.FaultBytes` | include/accelerator-health/Fault.hpp:58-75 | for a fault |
| `RecordBytes.ValidationBytes` | include/accelerator-health/Store.hpp:97-101 | for a validation |
| `RecordBytes.ChangeBytes` | include/accelerator-health/ChangeLog.hpp:37-48 | for a change entry |
| `RecordBytes.QuarantineBytes` | include/accelerator-health/Store.hpp:43-48 | for a quarantine record |
| `RecordBytes.RecoveryBytes` | include/accelerator-health/Store.hpp:70-73 | for a recovery record |
| `RecordBytes.AssessmentBytes` | src/Persistence.cpp:27-47 | for an assessment |
| `RecordBytes.DeviceRecordBytes` | src/Persistence.cpp:80-113 | for a device with its five lists and optional records |
| `RecordBytes.FileBytes` | src/Persistence.cpp:74-127 | for a file: magic, version, length, body, checksum |
| `RecordBytes.FrameBytes` | src/Protocol.cpp:19-36 | for a frame: magic, version, type, length, reserved zeros, payload, checksum |
| `Crc.RegisterDivides` | include/accelerator-health/Util.hpp:28-41 | the byte-wise register equals bit-by-bit polynomial division, for every input |
| `Crc.BuildTable` | include/accelerator-health/Util.hpp:29-37 | every table entry is eight division steps of its index |
| `Crc.Crc32` | include/accelerator-health/Util.hpp:28-41 | the table-driven loop computes the checksum defined by division |
| `Crc.CheckValue` | include/accelerator-health/Util.hpp:28-41 | the checksum of "123456789" is the published check value 0xCBF43926 |
| `Crc.StepsLinear` | include/accelerator-health/Util.hpp:33 | division steps are linear over exclusive or |
| `Crc.RegisterInjective` | include/accelerator-health/Util.hpp:39 | for fixed input the final register determines the starting one |
| `Crc.SealedIffResidue` | src/Persistence.cpp:137-139 | a byte string carries its own checksum exactly when it drives the register to one constant |
| `Crc.BurstIsDetected` | src/Persistence.cpp:137-139 | two sealed strings that differ only within four consecutive bytes, checksum included, are equal |
| `Protocol.EncodeFrame` | src/Protocol.cpp:19-36 | the appends build the specified frame; an oversized payload is refused |
| `Protocol.DecodeFrame` | src/Protocol.cpp:38-59 | the sequence of checks is the specified decoder |
| `Protocol.OutcomesExactly` | src/Protocol.cpp:38-59 | for each outcome of decoding, exactly the buffers that have it, byte by byte |
| `Protocol.FrameRoundTrip` | src/Protocol.cpp:19-59 | a frame followed by any bytes decodes to itself and consumes exactly its length |
| `Protocol.ProperPrefixNeedsMore` | src/Protocol.cpp:41-50 | every proper prefix of a frame asks for more |
| `Protocol.StreamRoundTrip` | src/Protocol.cpp:38-59 | a stream of frames cut anywhere yields the complete ones and leaves the begun one |
| `Protocol.FrameCorruptionDetected` | src/Protocol.cpp:51-53 | two decodable frames of one length that differ within four consecutive bytes are the same frame |
| `Persistence.EncodeRoundTrip` | src/Persistence.cpp:74-262 | an encoded image is read back unchanged exactly when it is plausible and its length fits the length field |
| `Persistence.AcceptsExactly` | src/Persistence.cpp:129-248 | exactly which files are accepted, and as which image |
| `Persistence.NoPrefixAccepted` | src/Persistence.cpp:130-136 | no accepted file is a proper prefix of another: truncation and extension are refused |
| `Persistence.BurstRefused` | src/Persistence.cpp:130-139 | a change within four consecutive bytes of an accepted file is refused |
| `Persistence.ByteChangeRefused` | src/Persistence.cpp:130-139 | so is a change of any one byte |
| `Persistence.PlausibleIffDistinctRuns` | src/Persistence.cpp:146-243 | for stores satisfying the run invariant, of all the decoder's rejections only a repeated validation id can fire |
| `Persistence.SaveRoundTrip` | src/Persistence.cpp:74-262 | a reachable store within the format's limits is read back with every persisted field exactly when no device repeats a validation id |
| `Restarts.LoadOfSave` | src/Persistence.cpp:280-290 | saving a reachable store and loading the file into a new process is exactly the Restart step, indexes, counters and logs included |
| `Restarts.ReachableSavesLoad` | src/Persistence.cpp:74-290 | the same stated for every run |
| `Restarts.ModestRunsLoad` | src/Persistence.cpp:74-290 | for every run whose events stay within the format's limits: the save loads exactly when no device repeats a validation id and the image fits its length field |
| `ImageSize.PutLength` | include/accelerator-health/Wire.hpp:28-93 | in every layout a value takes at most eight bytes more per field than its longest text |
| `CompactRuns.ImageBounded` | src/Persistence.cpp:74-127 | the image of the store a run ends in is bounded by what its events add and the longest text they bring |
| `CompactRuns.CompactRunsLoad` | src/Persistence.cpp:74-290 | when that bound is below 2^32 the save loads exactly when no device repeats a validation id, with no condition on the store itself |
| `CompactRuns.NewIdsLoad` | src/Persistence.cpp:74-290 | such a run whose validations come under new ids is always continued, by exactly one Restart step |
| `Restarts.EarlierSaveLoads` | src/Persistence.cpp:264-290 | a save made after k steps loads as the run cut at k and restarted: later devices are gone, and each history is the beginning of what it had become |
| `Restarts.RepeatedRunCannotLoad` | src/Store.cpp:177 | a run that records one validation twice, whose file can be written and is refused |
| `Limits.ReasonsWithinExactly` | src/Assessment.cpp:111-128 | for every bound from 512 on, the writer's among them, the reasons of an assessment keep it exactly when the one that quotes a dimension does |
| `SaveableRuns.ModestRunsAreSaveable` | src/Persistence.cpp:74-127 | bounds on the events of a run under which everything the store holds, texts it writes itself included, can be saved |
| `Witnesses.LongReasonCannotBeSaved` | src/Assessment.cpp:114-118 | an accepted dimension reason that can be written but not quoted leaves a store that cannot be saved |
| `Storage.FitFormat` | include/accelerator-health/Wire.hpp:72-77 | true exactly when every device can be written |
| `Storage.EncodeState` | src/Persistence.cpp:74-127 | the writer loop produces the specified file, and none when the store does not fit the format |
| `Storage.DecodeState` | src/Persistence.cpp:129-262 | the checks and reading loops end as specified: refused with nothing written, stopped part way with the devices kept so far, or with an image |
| `Storage.OutcomeIsDecode` | src/Persistence.cpp:129-262 | checking device by device ends with an image exactly when the whole file is acceptable, and with the same image |
| `Storage.CheckDevice` | src/Persistence.cpp:177-242 | the per-device checks reject exactly the impossible states |
| `Storage.ReadDevices` | src/Persistence.cpp:161-248 | checking each device as it is read accepts exactly the lists that are acceptable as a whole |
| `Files.RecomputeIndexes` | src/Store.cpp:391-406 | the scan rebuilds every index from the devices and empties the stale index |
| `Files.Install` | src/Persistence.cpp:148-260 | what an accepted image writes, and that the rest of the store is kept |
| `Files.Abandon` | src/Persistence.cpp:148-250 | what a decode that fails behind the header leaves in the store |
| `Files.DamageShows` | src/Persistence.cpp:148-250 | after such a failure the indexes agree with the devices exactly when no device had been kept |
| `OwnSaves.ImageStops` | src/Persistence.cpp:161-248 | an image with an impossible device stops the decoder there: the header and the devices before it are kept |
| `OwnSaves.OwnSaveDamage` | src/Persistence.cpp:148-250 | loading a reachable store's own save, within its length field, when a device repeats a validation id keeps exactly the devices with smaller ids, and the indexes then agree exactly when there are none |
| `OwnSaves.CompactRunDamage` | src/Persistence.cpp:148-250 | the same for every compact run, with no condition on the size of the image |
| `OwnSaves.OwnSaveRun` | src/Persistence.cpp:148-250 | a run of two devices, one validation recorded twice, whose save is refused: the first device is kept and the indexes do not agree |
| `OwnSaves.OwnSaveLoads` | src/Persistence.cpp:74-290 | the same run with the validation recorded once: its save loads and continues it |
| `OwnSaves.FatalFaultForgotten` | src/Persistence.cpp:264-290 | a run whose fatal fault, recorded after the save, is gone from the loaded store |
| `Files.LoadFile` | src/Persistence.cpp:280-290 | an accepted file is installed, every device marked for revalidation and reassessed; any other leaves what the decoder had written when it stopped |
| `Files.RestartStore` | src/Persistence.cpp:264-290 | save and load of a running store, end to end, take the Restart step, and the new process continues its run |
| `Buckets.Evict` | src/Store.cpp:385-387 | leaving the first bucket found, with the loop stopped there, leaves every bucket |
| `Buckets.Rebucket` | src/Store.cpp:384-389 | the update moves one id to one bucket and keeps buckets disjoint |
| `Buckets.InOrder` | src/Store.cpp:281 | enumeration lists every key once, in increasing order |
| `StepShapes.StepJudges` | src/Store.cpp:132-270 | a step about one device writes that device, then reassesses it, and nothing else |
| `Sweeps.SweepCloses` | src/Store.cpp:71-87 | visiting the devices one by one in key order ends in the closed form of the step |
| `Snapshots.OpenOnlyExactly` | src/History.cpp:43-47 | what is shown of the faults is exactly what is open |
| `Snapshots.OpenOnlyInOrder` | src/History.cpp:43-47 | it is shown in the order of the history |
| `Snapshots.TakeSnapshot` | src/Store.cpp:418-440 | the copied fields and the filtered faults are the specified snapshot |
| `Runtime.HealthStore.constructor` | src/Store.cpp:26-27 | a new store is the initial one, with no steps taken |
| `Runtime.HealthStore.Reachable` | src/Store.cpp:26-282 | between operations the contents of the running store are those of the run it has made, so they satisfy the run invariant |
| `Runtime.HealthStore.ApplyTransition` | src/Store.cpp:358-382 | a legal transition writes state, counters and both logs; an illegal one throws and writes nothing |
| `Runtime.HealthStore.UpdateIndexes` | src/Store.cpp:384-389 | the device moves to the buckets of its current state and readiness |
| `Runtime.HealthStore.FollowAssessment` | src/Store.cpp:285-348 | assessment, legal transition and recorded verdict together are the specified reassessment |
| `Runtime.HealthStore.ReassessLocked` | src/Store.cpp:285-355 | the whole internal reassessment, indexes included |
| `Runtime.HealthStore.AcceptObservation` | src/Store.cpp:132-159 | the verdict is that of the fence and the store takes one Observe step |
| `Runtime.HealthStore.RecordFault` | src/Store.cpp:161-170 | one RecordFault step; a duplicate id throws |
| `Runtime.HealthStore.RecordValidation` | src/Store.cpp:172-182 | one RecordValidation step |
| `Runtime.HealthStore.MarkLost` | src/Store.cpp:114-129 | one MarkLost step |
| `Runtime.HealthStore.BeginQuarantine` | src/Store.cpp:185-207 | one BeginQuarantine step, and exactly when which exception is thrown |
| `Runtime.HealthStore.ClearQuarantine` | src/Store.cpp:209-219 | one ClearQuarantine step |
| `Runtime.HealthStore.BeginRecovery` | src/Store.cpp:221-240 | one BeginRecovery step, and exactly when which exception is thrown |
| `Runtime.HealthStore.Revalidate` | src/Store.cpp:242-270 | one Revalidate step, and the snapshot of the device as it then stands |
| `Runtime.HealthStore.Reassess` | src/Store.cpp:273-278 | one Reassess step |
| `Runtime.HealthStore.ReassessAll` | src/Store.cpp:279-282 | the loop over all devices is one ReassessAll step |
| `Runtime.HealthStore.InstallPolicy` | src/Store.cpp:30-38 | the locked half of a policy change is one InstallPolicy step |
| `Runtime.HealthStore.SetPolicy` | src/Store.cpp:29-40 | a policy change is that step and then one ReassessAll step |
| `Runtime.HealthStore.InvalidateWorker` | src/Store.cpp:71-87 | one InvalidateWorker step |
| `Runtime.HealthStore.RegisterDevice` | src/Store.cpp:89-107 | one RegisterDevice step and the id it returns |
| `Runtime.HealthStore.RegisterWorker` | src/Store.cpp:62-65 | one RegisterWorker step |
| `Runtime.HealthStore.IsWorkerCurrent` | src/Store.cpp:66-70 | true exactly for the registered boot of the worker |
| `Runtime.HealthStore.RollCoordinatorEpoch` | src/Store.cpp:49-52 | one RollEpoch step, wrapping at 2^64 |
| `Runtime.HealthStore.SetCoordinatorEpoch` | src/Store.cpp:57-60 | one SetEpoch step |
| `Runtime.HealthStore.Account` | src/Store.cpp:521-548 | the figures reported are those defined for the store contents |

## Left out

- Sockets, the coordinator and worker programs, the command line, the CUDA and fake backends: I/O around the store; each handler's store call is one step here.
- Opening, writing and renaming the file: only the bytes are modelled.
- `explain` and text and JSON output: formatting.
- The query methods that list ids by state, readiness or fault type: they read the indexes whose contents are proved.
- Assessment.RunAssessment: the confidence is not computed; it is a single-precision product no decision rests on, and its bit pattern is looked up in a table given from outside. Float fields are opaque bit patterns in the codec.
- The error texts of the decoder and of refused observations beyond their kind.
- Generations, the transition count and the success count of a recovery are unbounded naturals: the program throws when a generation would pass 2^64 - 1, and the success count wraps at 2^32.
- Persistence.Encode: defined for images within the format's limits (texts and lists of at most 2^20, counters below 2^64).
- Storage.EncodeState: yields no file for a list or device table of more than 2^20 entries, where the program writes one that its decoder refuses, nor for a counter of 2^64 or a dimension under a foreign kind, which the program cannot hold.
- One clock reading per step: the program reads the clock again for each log entry and each device of one call.
- Freshness of evidence uses exact subtraction; the program's 64-bit difference of two timestamps more than 2^63 apart is undefined.
- The locks, the C++ memory model and the unlocked reads while encoding: operations are atomic steps, and encoding runs alone.
- Fencing of faults and validations: the program does not check their envelopes.
- The stale index as time passes: it tells of the last reassessment, not of now.
- `FaultHistory::resolve` and the other per-type queries of the fault history, which the store never calls, and policy fields the store never reads, which pass through the codec only.
- When the coordinator saves: it does so only on a snapshot request (apps/ah-coordinator.cpp:146) and loads that file at the next start (apps/ah-coordinator.cpp:50). A Restart step stands for a save and a load with nothing between; what an earlier save forgets is said by Restarts.EarlierSaveLoads.
- The id counters of faults, observations, validations, assessments and incidents: the store draws ids only for devices, quarantines and recoveries.
- Message bodies of the protocol: only the frames around them.
