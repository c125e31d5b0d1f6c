# Verification of the startup-performance tooling

This project models the parts of the repository in which many small steps have to add up to one reliable statement, and
proves what they add up to. It checks with `dafny verify dfyconfig.toml`.

**Resource accounting.** The aggregation of process snapshots is modelled as the loop it is: dictionaries of last-seen
readings and last valid I/O values, four gap sets, buckets, running totals and the time series are updated reading by
reading, field by field. Its meaning is stated in `ResourceSpec` without the loop, over the *sightings* of each process
(the samples it occurred in), and `ResourceReadings` says what those are of the readings as the snapshots list them.
The theorems then say what the reported figures are: totals are sums of rises along the available values, they
telescope exactly when nothing is unresolved, they are conserved over buckets and over the time series, every
unresolved gap has exactly one cause, and the two gap figures count absences. The verdict is connected to them: a
profile judged complete is exact. Around the loop stand the descriptor cache, the discovery worklist with its parent
closure (and the second copy of that closure), and the audit after shutdown.

**Evidence.** The construction manifest is written in three phases, each naming the digest of the one before. The audit
of the final reference is modelled reason by reason, and `EvidenceMeaning` says without reasons exactly when it finds
nothing; two stores that pass for one reference hold the same three files unless they exhibit a digest collision, and a
chain written in order raises no chain reason. The summary's "pass" is shown, by counting, to leave no orphaned attempt
when run ordinals are distinct. The fault-injection rounds have two independent log checkers, shown to agree, and a
machine of launching processes, for which each checkpoint's check is shown to accept exactly the runs that stand there.
The first difference of two identities, the plan of paired runs and the percentiles complete this part.

**Smaller protocols.** The phase of a job and what it means for a whole store of records; the npm install lock as
interleaved steps; the observer of event streams as a resumable fold, with each of its reads of an event defined apart
from how it goes about it (`NativeSearch`); the helper's capability cache.

Where the source updates state in place the model is imperative: `HandleTracker.ProcIoHandleTracker`,
`EvidenceChain.ScenarioRun` and `HelperCache.HelperCaller` are classes, and the loops of the aggregation, the
discovery, the closure, the observer, the plan and the shutdown audit are loops proved against specification functions.
The rest is functions and lemmas, as the source is expressions.

## Where a property fails, and exactly when

- A recovery that is counted need not resolve its key: it does exactly when the key's baseline reading was there and no
  available value had fallen before (`ResourceTheorems.RecoveryResolvesWhen`). Neither cause ever goes away. Each is
  shown at work: a baseline process whose first two readings are missing and whose next two succeed, and a later process
  whose value falls, fails to be read and is read again.
- A summary that says pass leaves no orphaned attempt exactly when its runs point into as many directories as were
  attempted (`ConstructionSummary.PassHidesOrphanWhen`); distinct ordinals are enough. Without them a recorded run listed
  twice hides another attempt from the verdict, though not from the reason codes
  (`ConstructionSummary.RepeatedRunHidesOrphan`).
- The install lock's invariant is kept by every step but one, and that one breaks it: an installer that judged a lock
  stale earlier removes the lock that is there by then, while a live process has it (`InstallLock.InvStep`). So it holds
  throughout a run exactly when no step is of that kind (`InstallLock.ThroughoutWhen`), which is always so if reclaim is
  one step. In the source it is a read and a removal, and two live holders are possible
  (`InstallLock.SplitReclaimBreaksExclusion`).
- The helper's cache stays true exactly when every call that fills it stores a probe that speaks for the file found at
  storing (`HelperCache.TrueThroughoutWhen`); a file replaced while it is being probed breaks that
  (`HelperCache.ReplacedDuringProbe`).
- Two observations combine field by field into that of the joined stream exactly unless the second stream finishes
  without a reason after a first one that has a reason other than "completed" (`NativeOutput.CombinesWhen`); and no other
  function of the two observations is right on all streams (`NativeOutput.NothingCombines`).
- The harness writes the token that releases a held latch on three counts of the probe. The states in which it does are
  given exactly, and so are those among them that pass the probe (`FaultRun.TokenWrittenWhen`); in every round the token
  can be written although the probe does not pass (`FaultRun.TokenDespiteOverlap`).

## Assumptions

- A scan sees `/proc` as one fixed table; the answers of the kernel to each open and read are parameters of the
  operation. Files opened relative to a directory descriptor belong to the process instance that descriptor was opened
  for; a close always frees its number.
- Counters, ticks, bytes and nanoseconds are integers, percentiles are over the reals.
- SHA-256 and the JSON encoding are parameters. The digest is 64 hexadecimal digits and parsing undoes rendering; that
  the files at hand hold no two contents with one digest is a premise of the one theorem that needs it.
- JSON numbers are integers. Text is stripped and lowered as ASCII.
- Each installer has its own pid and random token, and a live one writes its record within the grace period.
- Each update of the shared launch-probe state is one step, as it holds an exclusive file lock.

## Model

| member | source | states |
|---|---|---|
| ResourceSpec.RecordTotals | dev_tools/perf_process_resources.py:820-872 | a further sighting adds its own contribution to every total whose selector accepts it, and changes no other |
| ResourceMarks.AbsorbField | dev_tools/perf_process_resources.py:838-867 | one field of one reading: the delta, the regression and recovery flags and the new marks of exactly that key, every other key unchanged |
| ResourceMarks.AbsorbIo | dev_tools/perf_process_resources.py:838-867 | the loop over the six fields marks each key once and adds each gain to the bucket and to the sample |
| ResourceMarks.AppendMarks | dev_tools/perf_process_resources.py:841-867 | the updated marks are those that the extended sightings call for, by a definition without updates |
| ResourceMarks.AppendOpen | dev_tools/perf_process_resources.py:841-867 | when a key is marked open after one more sighting, from the sightings alone |
| ResourceMarks.AppendFell | dev_tools/perf_process_resources.py:853-860 | a key counts as regressed exactly when an available value fell below the one before it (or below 0 for a later process) |
| ResourceAggregate.AbsorbCpu | dev_tools/perf_process_resources.py:806-826 | gap events and CPU delta of one reading are what its identity's sightings define |
| ResourceAggregate.AbsorbFields | dev_tools/perf_process_resources.py:838-867 | the I/O part of one reading in terms of the sightings: deltas, regressions, recoveries, marks |
| ResourceAggregate.ReadStep | dev_tools/perf_process_resources.py:806-869 | one reading's whole effect on bucket, sample sums, counts and gap sets |
| ResourceAggregate.Absorbed | dev_tools/perf_process_resources.py:806-869 | one reading keeps every loop invariant: sums, counts, buckets, series, marks and last-seen tables all describe the log extended by it |
| ResourceAggregate.AbsorbReadings | dev_tools/perf_process_resources.py:806-869 | the loop over one snapshot extends the log by exactly that snapshot's readings |
| ResourceAggregate.AbsorbSample | dev_tools/perf_process_resources.py:792-886 | one sample: the state describes the history with that sample added, and its time-series point is appended |
| ResourceAggregate.AbsorbAll | dev_tools/perf_process_resources.py:792-886 | the loop over the samples: the final state describes the whole history |
| ResourceReadings.CurrentIs | dev_tools/perf_process_resources.py:793 | the dictionary of a snapshot holds each listed identity once, with the last reading listed for it, and holds nothing else |
| ResourceReadings.CurrentLoad | dev_tools/perf_process_resources.py:796-804 | the processes and resident bytes of a dictionary, in one bucket or in all, are the number and the sum over the readings that are the last of their identity |
| ResourceReadings.PeakIs | dev_tools/perf_process_resources.py:800-802 | a peak is at least the load of every snapshot and is that of one of them |
| ResourceReadings.SightingsAre | dev_tools/perf_process_resources.py:792-806 | an identity is sighted in exactly the samples that list it, in order, each time with its last reading there |
| ResourceReadings.SeenIs | dev_tools/perf_process_resources.py:799 | the identities seen are those of all listed readings |
| ResourceReadings.MembersAre | dev_tools/perf_process_resources.py:827-837 | the identities of a bucket are those with a last reading in it in some snapshot |
| ResourceProfile.MarksDecide | dev_tools/perf_process_resources.py:838-867 | a key is unresolved exactly when its baseline reading was missing, a value fell, or its last observation is missing; the marks decide which |
| ResourceProfile.CausesPartition | dev_tools/perf_process_resources.py:906-927 | every unresolved key has exactly one of the four causes, and the four counts add up |
| ResourceProfile.GapSets | dev_tools/perf_process_resources.py:906-927 | the set expressions over the loop's gap sets give exactly the unresolved keys and each cause's keys |
| ResourceProfile.Diagnose | dev_tools/perf_process_resources.py:906-927 | the reported gap counts are the sizes of those sets, as the sightings define them |
| ResourceProfile.Aggregate | dev_tools/perf_process_resources.py:704-1061 | the returned figures: totals, gap figures, buckets and series in terms of the sightings; counts, loads, peaks, bucket members and each point of the series in terms of the readings that the snapshots list |
| ResourceTheorems.FlowIsRises | dev_tools/perf_process_resources.py:838-867 | an identity's accumulated delta is the sum of the rises along its available values, from the first one for a baseline process and from 0 otherwise |
| ResourceTheorems.RegressionsAreFalls | dev_tools/perf_process_resources.py:853-860 | an identity's counted regressions are the falls along the available values of its six fields |
| ResourceTheorems.Telescope | dev_tools/perf_process_resources.py:853-864 | rises sum to last minus first exactly when no value falls, and to more otherwise |
| ResourceTheorems.TotalIsNet | dev_tools/perf_process_resources.py:792-886 | with no unresolved key of a field, its total is the sum over identities of last minus start, whichever middle readings were missing |
| ResourceTheorems.NothingUnresolved | dev_tools/perf_process_resources.py:906-907 | a profile that reports no unresolved gap reports exactly that sum for every field |
| ResourceTheorems.TotalsAreRises | dev_tools/perf_process_resources.py:820-872 | reported I/O and CPU totals are the sums of rises over all identities |
| ResourceTheorems.TotalOverBuckets | dev_tools/perf_process_resources.py:827-828 | any metric summed over the buckets is its total, even when a process changes bucket |
| ResourceTheorems.TotalOverSamples | dev_tools/perf_process_resources.py:870-872 | any metric summed over the samples is its total |
| ResourceTheorems.BucketsConserve | dev_tools/perf_process_resources.py:827-863 | summed over the reported buckets, CPU ticks and each I/O counter give the reported totals |
| ResourceTheorems.SeriesConserves | dev_tools/perf_process_resources.py:870-886 | summed over the reported time series, CPU ticks and bytes read and written give the reported totals |
| ResourceTheorems.CausesAddUp | dev_tools/perf_process_resources.py:906-927 | the four reported cause counts add up to the reported number of unresolved gaps |
| ResourceTheorems.MissedSamples | dev_tools/perf_process_resources.py:809-815 | one identity's missing samples are last index minus first index plus 1 minus sightings |
| ResourceTheorems.GapEventsAreAbsences | dev_tools/perf_process_resources.py:809-815 | one identity's gap events count its maximal absences between two sightings |
| ResourceTheorems.GapFigures | dev_tools/perf_process_resources.py:789-815 | the two reported gap figures are those counts summed over all identities |
| ResourceTheorems.PeaksBound | dev_tools/perf_process_resources.py:800-836 | the run's peak lies between each bucket's peak and the sum of the bucket peaks |
| ResourceTheorems.PeaksOfProfile | dev_tools/perf_process_resources.py:829-836 | the same for the reported peak RSS and peak process count |
| ResourceTheorems.RecoveryResolvesWhen | dev_tools/perf_process_resources.py:838-867 | at any sighting where a recovery is counted, the key stays unresolved exactly when its baseline reading was missing or a value had fallen |
| ResourceTheorems.CausesLast | dev_tools/perf_process_resources.py:838-867 | whatever is seen later, neither cause goes away |
| ResourceTheorems.RecoveredYetUnresolved | dev_tools/perf_process_resources.py:841-867 | the first cause at work, on a baseline process |
| ResourceTheorems.RecoveredAfterFall | dev_tools/perf_process_resources.py:848-867 | the second cause at work, on a later process |
| ResourceVerdict.JudgeTaking | dev_tools/perf_process_resources.py:718-766 | the status before the readings are looked at: unavailable exactly when the run is unusable, degraded exactly when usable with errors; each of the eight reasons exactly when its condition holds |
| ResourceVerdict.MissesAreLate | dev_tools/perf_process_resources.py:890-900 | the missed deadlines are the snapshots, from the third on, that came more than twice the target after the one before |
| ResourceVerdict.NoErrors | dev_tools/perf_process_resources.py:755-766 | a count of errors is zero exactly when no snapshot has any |
| ResourceVerdict.Judge | dev_tools/perf_process_resources.py:901-934 | the final status: complete exactly when there is no reason, that is when the run is usable and has no flaw; a missed deadline is reported only for a run with no other flaw |
| ResourceVerdict.CompleteIsExact | dev_tools/perf_process_resources.py:901-934 | a profile with no gap event and nothing unresolved reports exact I/O totals, and every process was seen in each sample between its first and last |
| ResourceVerdict.AggregateAndJudge | dev_tools/perf_process_resources.py:704-1061 | profile, status and reasons of one run of snapshots together: the status is complete exactly when the run is usable, has no flaw and no snapshot came late, and then the profile is exact |
| HandleTracker.ProcIoHandleTracker.constructor | dev_tools/perf_process_resources.py:163-173 | a fresh tracker holds nothing and has counted nothing |
| HandleTracker.ProcIoHandleTracker.OpenValidated | dev_tools/perf_process_resources.py:228-292 | when an open succeeds, what it adds, which counter each failure moves; at most 256 handles, each of its own process, no stray descriptor |
| HandleTracker.ProcIoHandleTracker.OpenFresh | dev_tools/perf_process_resources.py:246-292 | the open proper: three files acquired, at most the I/O file of the validated process kept, the rest closed on every path |
| HandleTracker.ProcIoHandleTracker.Prime | dev_tools/perf_process_resources.py:175-184 | the identity returned is the one the kernel led to; one of the two prime counters moves |
| HandleTracker.ProcIoHandleTracker.Ensure | dev_tools/perf_process_resources.py:203-207 | succeeds exactly when the handle is held, or there is room and the path still leads to that process |
| HandleTracker.ProcIoHandleTracker.Read | dev_tools/perf_process_resources.py:186-201 | what is returned is what the kernel shows for that very process, even if its pid was reused; the counters it moves |
| HandleTracker.ProcIoHandleTracker.Close | dev_tools/perf_process_resources.py:222-226 | afterwards nothing is held and nothing is open |
| HandleTracker.Apply | dev_tools/perf_process_resources.py:153-292 | one operation keeps the tracker valid and its figures balanced |
| HandleTracker.Run | dev_tools/perf_process_resources.py:153-292 | over every sequence of operations with arbitrary failures: valid throughout, `open_count` equals the handles held until a close, and the prime and read counters add up |
| ProcessDiscovery.PushChildren | dev_tools/perf_process_resources.py:604-608 | a record's untried children are pending and noted as descendants |
| ProcessDiscovery.Discover | dev_tools/perf_process_resources.py:559-608 | the worklist ends having attempted exactly the least set closed under child lists of readable records, own and non-positive pids excepted, each pid once, with every outcome counted |
| ProcessDiscovery.CloseOverParents | dev_tools/perf_process_resources.py:625-631 | the repeated passes give the least set with the seeds that is closed under "parent is related", whatever the order |
| ProcessDiscovery.LeastClosedUnique | dev_tools/perf_process_resources.py:625-631 | there is only one such set |
| ProcessDiscovery.RelatedIsDescent | dev_tools/perf_process_resources.py:625-631 | it is exactly the processes that a chain of parents links to a seed |
| ProcessDiscovery.RelatedPids | dev_tools/perf_process_resources.py:610-631 | the project's processes are that closure of the seeds; the authority branch adds none |
| ProcessDiscovery.ProjectRelatedPids | dev_tools/perf_runtime_lifecycle_profile.py:257-281 | the second copy computes the same closure of its own seeds, and nothing without a project root |
| ProcessDiscovery.RowsByPidAre | dev_tools/perf_runtime_lifecycle_profile.py:264 | the table of rows holds each listed pid with its last row |
| ProcessDiscovery.CopiesAgree | dev_tools/perf_runtime_lifecycle_profile.py:264-281 | fed the same processes the two copies relate the same pids |
| CleanupAudit.Watch | dev_tools/perf_process_resources.py:1076-1111 | clean exactly when some stretch of the required length within the bound is clean, stopping at the first; else residue exactly when every snapshot was readable and the last shows a process |
| EvidenceChain.ScenarioRun.PersistPhase | dev_tools/perf_ccb_startup.py:2389-2414 | the files, the manifest and the reference after a phase: the current manifest is on file, no other file but that of an earlier phase is written, and only the mark and the chain of the manifest change; an unknown phase changes nothing |
| EvidenceChain.PathReadsBack | dev_tools/perf_ccb_startup.py:2348 | the path written into a reference splits back into the run directory and the file name |
| EvidenceChain.PartsOfJoin | dev_tools/perf_ccb_startup.py:5129-5137 | the components of a joined path are those of its two sides, whatever these are |
| EvidenceTheorems.PhaseAuditBinds | dev_tools/perf_ccb_startup.py:5239-5330 | a phase audited without reason is there with the digest its reference names and marked with its predecessor's |
| EvidenceTheorems.PassingIsBound | dev_tools/perf_ccb_startup.py:5086-5339 | what a passing audit establishes about the bytes of all three files: present, with the digests that name them, marked in order; what they say is the next row |
| EvidenceMeaning.PassesWhen | dev_tools/perf_ccb_startup.py:5086-5339 | the audit finds nothing exactly when the reference is about this run, its scenario and its outcome, and the three manifests of its directory are about the run, have the statuses of their phases, are chained by their digests, and the last one tells of that outcome; said of the documents themselves, without reason codes |
| EvidenceMeaning.MismatchesAreTold | dev_tools/perf_ccb_startup.py:5108-5121 | a reference that differs from its run in status, benchmark, ordinal, scenario, variant or instrumentation is told by the reason for that difference |
| EvidenceMeaning.RoundFaultsAreTold | dev_tools/perf_ccb_startup.py:5167-5174 | so is a manifest of another type, schema, benchmark or ordinal |
| EvidenceMeaning.ScenarioFaultsAreTold | dev_tools/perf_ccb_startup.py:5175-5183 | and one of another scenario or variant |
| EvidenceTheorems.ReferenceBindsChain | dev_tools/perf_ccb_startup.py:5086-5339 | two stores that pass for the same final reference hold identical before, ready and final manifests, unless they exhibit a digest collision |
| EvidenceTheorems.ChainAsWritten | dev_tools/perf_ccb_startup.py:2389-2414 | the chain that three phases in order leave in the final manifest |
| EvidenceTheorems.FilesAsWritten | dev_tools/perf_ccb_startup.py:2389-2414 | the three files that they leave |
| EvidenceTheorems.WrittenChainAudits | dev_tools/perf_ccb_startup.py:5234-5339 | auditing a chain written in order gives no reason about the chain: only those about the reference, the final manifest and what each phase says of itself |
| EvidenceTheorems.HonestRunPasses | dev_tools/perf_ccb_startup.py:5086-5339 | if the manifests describe the run and conclude as it did, there is no reason at all |
| ConstructionSummary.PassMeans | dev_tools/perf_ccb_startup.py:5382-5404 | the summary says pass exactly when there are runs, each holds a valid passing reference, and no more directories were attempted |
| ConstructionSummary.PassVouches | dev_tools/perf_ccb_startup.py:5382-5404 | the same said of the documents: every run ended ok, and its reference and manifests vouch for it |
| ConstructionSummary.FailedOrMissing | dev_tools/perf_ccb_startup.py:5391 | short of a pass, the summary says missing exactly when no run holds a reference, and failed otherwise |
| ConstructionSummary.SummaryTells | dev_tools/perf_ccb_startup.py:5342-5410 | the figures count the runs that hold a reference, a valid one, and a valid one with each status; a reason is listed exactly when some audit gives it or the figures differ as it says |
| ConstructionSummary.ValidRunDir | dev_tools/perf_ccb_startup.py:5129-5174 | a valid reference points into an attempted directory whose final manifest carries the run's ordinal |
| ConstructionSummary.PassHasNoOrphan | dev_tools/perf_ccb_startup.py:5342-5402 | with distinct ordinals a pass means the referenced directories are exactly the attempted ones |
| ConstructionSummary.PassHidesOrphanWhen | dev_tools/perf_ccb_startup.py:5352-5404 | a summary that says pass has no orphan exactly when the runs point into as many directories as were attempted |
| ConstructionSummary.AuditIgnores | dev_tools/perf_ccb_startup.py:5129-5339 | the audit of a reference reads no file outside the directory it names |
| HonestRun.RecordedRunPasses | dev_tools/perf_ccb_startup.py:2389-2414 | a run recorded through the three phases passes its audit with status pass, for every codec and directory |
| ConstructionSummary.RepeatedRunHidesOrphan | dev_tools/perf_ccb_startup.py:5352-5404 | in the store of that run and one further attempt, the summary over the run listed twice says pass with that attempt an orphan |
| FaultRounds.ProbeMeans | dev_tools/perf_ccb_startup.py:1375-1475 | everything a passing probe check establishes about header, matches and injections, and nothing less |
| FaultRounds.SnapshotMeans | dev_tools/perf_ccb_startup.py:4975-5012 | the same for the snapshot check of the manifest audit |
| FaultRounds.SnapshotSays | dev_tools/perf_ccb_startup.py:4975-5012 | over every log, however many agents it selects: a probe that does not fit has one reason, a log without exactly one named selected agent another, and nothing is found exactly when that agent's events are as they should be |
| FaultRounds.PickKeeps | dev_tools/perf_ccb_startup.py:1435-1470 | the events picked are all of the agent's of that kind, in their order |
| FaultRounds.MatchFaultsAreTold | dev_tools/perf_ccb_startup.py:1435-1470 | a wrong sequence of matches is told by its own reason |
| FaultRounds.CheckersAgree | dev_tools/perf_ccb_startup.py:4975-5012 | where only the target has selected matches, the final probe check passes exactly when the snapshot check is silent and the probe's own extras hold |
| FaultRounds.CheckersAgreeWhen | dev_tools/perf_ccb_startup.py:4975-5012 | over every log: the probe check passing and no other agent being selected is the same as the snapshot check being silent, the target selected and the probe's own extras |
| FaultRun.LogStep | test/stubs/provider_stub.py:352-448 | every update keeps the log numbered, of one run, with as many armed latches as launches that came so far, and with the target's matches 1, 2, 3, .. selected at 2, 4, .., up to twice the number of rounds |
| FaultRun.SerialStep | test/stubs/provider_stub.py:461-564 | while launches never overlap, every update keeps the armed, released and failed lists equal to what the launches reached |
| FaultRun.RecordedIsEvens | dev_tools/perf_ccb_startup.py:1435-1470 | a list reads 2, 4, .., 2j exactly when those selected launches and no others got that far |
| FaultRun.CheckpointPassed | dev_tools/perf_ccb_startup.py:3901-4009 | of every run with any interleaving, a checkpoint of any configured round k passes exactly when launches never overlapped, none timed out or was killed, and the target stands there with every earlier selected launch armed, released and failed |
| FaultRun.TokenWrittenWhen | dev_tools/perf_ccb_startup.py:3958-3977 | in which states of any run the release token is written, and in which of those the latch checkpoint passes |
| FaultRun.TokenDespiteOverlap | dev_tools/perf_ccb_startup.py:3969-3988 | in every round the token can be written although the probe does not pass |
| FaultRun.LossIsFinal | dev_tools/perf_ccb_startup.py:1425-1475 | after an overlap, a timeout or a lost process no checkpoint of any round passes again |
| FaultRun.PlannedRunPasses | dev_tools/perf_ccb_startup.py:1329-1366 | the planned run passes every checkpoint of every configured round |
| IdentityDiff.FirstDifferenceIs | dev_tools/perf_ccb_startup.py:4502-4528 | no difference exactly for equal identities; otherwise the path and the change reported, with the types, lengths or values at that path, are the first ones, and no others are |
| AbPlan.BuildPlan | dev_tools/perf_ccb_startup.py:757-780 | pairs numbered 1 to total, measured ones 0 to iterations-1 in order, each pair's order from its block's draw; in the plan returned the two orders differ by at most 1 in every prefix, and among the measured pairs by at most one for each end that splits a block |
| AbPlan.LeadOfWindow | dev_tools/perf_ccb_startup.py:757-780 | the exact lead of one order over the other in any window |
| AbPlan.Balanced | dev_tools/perf_ccb_startup.py:757-780 | the same bounds for every outcome of the draws |
| AbPlan.LeadOfStretch | dev_tools/perf_ccb_startup.py:757-780 | the lead of any stretch of the plan is that of its draws |
| AbPlan.TwoIsReached | dev_tools/perf_ccb_startup.py:757-780 | the bound of two is attained |
| Percentiles.SortedAscends | dev_tools/perf_ccb_startup.py:4839 | the ordered sample is an ascending rearrangement |
| Percentiles.Sandwich | dev_tools/perf_ccb_startup.py:7711-7720 | a percentile lies between the order statistics around its position |
| Percentiles.PercentileIsPoint | dev_tools/perf_ccb_startup.py:7711-7720 | for every part of a whole the percentile is the value that far through the ordered sample, between its two neighbours there |
| Percentiles.MonotoneInFraction | dev_tools/perf_ccb_startup.py:7711-7720 | a larger fraction never gives a smaller percentile |
| Percentiles.MonotoneInSample | dev_tools/perf_ccb_startup.py:7711-7720 | a sample nowhere smaller has no smaller percentile |
| Percentiles.ImplementationsAgree | dev_tools/perf_phase0_baseline.py:443-453 | the two implementations agree on every sample and every whole percentage |
| Percentiles.MedianIsHalf | dev_tools/perf_ccb_startup.py:4852 | the median of the distances is the percentile for one half |
| Percentiles.MeanOf | dev_tools/perf_ccb_startup.py:4840-4841 | the mean lies in the range and the squared deviation is at most the product of its distances from the two ends |
| Percentiles.SummaryInOrder | dev_tools/perf_ccb_startup.py:4823-4855 | min, p50, p90, p95 and max are in order and bound the finite values, the mean lies in the range, and iqr, squared deviation and mad are not negative and bounded by the range |
| Percentiles.SummaryMeans | dev_tools/perf_ccb_startup.py:4823-4855 | each figure is what it is called: p50, p90, p95 and the quartiles lie that far through the ascending finite values, mean and squared deviation are averages, mad is the middle distance |
| Percentiles.CleanKeeps | dev_tools/perf_ccb_startup.py:4824 | each finite value is kept as often as it occurs, and nothing else |
| ExecutionPhase.NormalisedTwice | lib/execution_phase.py:254-263 | normalising when gathering and again when judging is normalising once |
| ExecutionPhase.CommonMeans | lib/execution_phase.py:224-247 | no common identity error exactly when job, attempt, inbound event and mailbox belong together |
| ExecutionPhase.ActiveMeans | lib/execution_phase.py:198-221 | no active-lineage error exactly when the full active lineage holds |
| ExecutionPhase.QueuedMeans | lib/execution_phase.py:178-195 | no queued-lineage error exactly when the full queued lineage holds |
| ExecutionPhase.ActivePhases | lib/execution_phase.py:66-101 | each of the four active phases exactly when its lineage and observations hold |
| ExecutionPhase.QueuedPhase | lib/execution_phase.py:76-80 | queued exactly when pending, not finished, and in full queued lineage |
| ExecutionPhase.ReplyPhases | lib/execution_phase.py:158-175 | the phases of a reply delivery, each exactly when |
| ExecutionPhase.PhaseReasons | lib/execution_phase.py:66-175 | the reason given with each phase but unknown |
| ExecutionPhase.FirstBrokenIsTold | lib/execution_phase.py:178-247 | an unfinished job whose records do not link up is unknown, for the first broken link in the source's order |
| ExecutionPhase.UnknownReasons | lib/execution_phase.py:66-175 | what else makes a phase unknown, and the reason then given |
| ExecutionPhase.SameInboundSameJob | lib/execution_phase.py:224-247 | linked records that agree on the inbound event are records of one job |
| ExecutionPhase.OnePerAgent | lib/execution_phase.py:66-247 | among the jobs of one agent at most one is active, at most one queued, and never both |
| InstallLock.InvStep | bin/ccb-npm-install.js:205-323 | whether reclaim is one step or a read and a removal, a step of any installer or of the clock keeps the invariant exactly when it does not remove a live lock |
| InstallLock.ThroughoutWhen | bin/ccb-npm-install.js:205-323 | the runs that keep it throughout are exactly those in which no live lock is removed |
| InstallLock.OneStepReclaimIsOrderly | bin/ccb-npm-install.js:205-220 | with reclaim as one step every run is of that kind |
| InstallLock.MutualExclusion | bin/ccb-npm-install.js:222-264 | in every interleaving in which no live lock is removed, at most one live process is in the critical section, and its own record is in the lock |
| InstallLock.OnlyOwnRelease | bin/ccb-npm-install.js:257-262 | there a live holder's lock changes only by its own release, or by the one step that removes live locks |
| InstallLock.NoNeedlessDownload | bin/ccb-npm-install.js:299-323 | there no download starts once the release is installed |
| InstallLock.ReleaseChangesUnderLock | bin/ccb-npm-install.js:287-323 | there the installed release changes only by steps of the one live holder |
| InstallLock.StaleLockIsTaken | bin/ccb-npm-install.js:205-220 | a stale lock is taken over by a waiting installer that is not disturbed, in either mode of reclaim |
| InstallLock.InstallsFromNothing | bin/ccb-npm-install.js:299-323 | an undisturbed installer that finds the lock free and nothing installed ends with the release and a usable runtime, and the lock free, if the download completes and the runtime can be made usable |
| InstallLock.RepairsRuntime | bin/ccb-npm-install.js:317-319 | one that finds a release with an unusable runtime makes it usable without a download |
| InstallLock.SkipsDownload | bin/ccb-npm-install.js:310-315 | one told to skip the download that finds nothing released ends with nothing changed and the lock free |
| InstallLock.SkipNeverDownloads | bin/ccb-npm-install.js:310-315 | in no interleaving does an installer told to skip come near a download or change the release |
| InstallLock.FailureFrees | bin/ccb-npm-install.js:306-323 | one whose download fails, or whose runtime does not become usable, frees the lock and ends |
| InstallLock.LeavesInstalled | bin/ccb-npm-install.js:301-309 | one that finds everything installed ends without touching it, and frees the lock if it has it |
| InstallLock.NothingLeftBehind | bin/ccb-npm-install.js:299-323 | there, when every installer has ended alive, the lock is gone |
| InstallLock.SplitReclaimBreaksExclusion | bin/ccb-npm-install.js:205-220 | with reclaim split into reading and removing, two live holders are possible |
| NativeOutput.Observe | lib/rust_helpers_native_output.py:113-166 | the loop's observation is the closed form, field by field, of the lines' signals; what is read of each line is in the rows of NativeSearch |
| NativeOutput.ResumeOne | lib/rust_helpers_native_output.py:135-157 | one line's effect |
| NativeOutput.ResumeTwice | lib/rust_helpers_native_output.py:121-166 | observing a then b from where a ended is observing a + b: text concatenates, flags are disjunctions, error and reason are the last, reference and time the first |
| NativeOutput.FirstIs | lib/rust_helpers_native_output.py:150-157 | the kept reference or time is that of the first line that has one |
| NativeOutput.LastIs | lib/rust_helpers_native_output.py:138-155 | the kept reason or error is that of the last line that has one |
| NativeOutput.ErrorIsLast | lib/rust_helpers_native_output.py:138-140 | the error is the last error line's message, and empty exactly when there is none |
| NativeOutput.WhoSpeaks | lib/rust_helpers_native_output.py:181-186 | a line adds text exactly when it is an assistant or final event, neither error, tool nor user, with a text to be reached |
| NativeSearch.TextIsSaid | lib/rust_helpers_native_output.py:248-276 | the text of an event is what it says: a string itself, a list its items' texts one after the other, an object that of the first text key with anything to say |
| NativeSearch.SearchFinds | lib/rust_helpers_native_output.py:279-340 | a search returns the value at the first place that has one, in the order in which keys and items are tried, and none exactly when no place has one |
| NativeSearch.OneFirst | lib/rust_helpers_native_output.py:279-340 | there is only one first place |
| NativeSearch.ReasonFound | lib/rust_helpers_native_output.py:279-290 | the reason of an event is that at the first place; a reason of blanks only ends the search below its object |
| NativeSearch.RefFound | lib/rust_helpers_native_output.py:293-304 | the same of its reference |
| NativeSearch.TimeFound | lib/rust_helpers_native_output.py:307-318 | the same of its time |
| NativeSearch.ValueFound | lib/rust_helpers_native_output.py:321-340 | the same of a string under any wanted keys, through lists as well |
| NativeSearch.OwnStringIs | lib/rust_helpers_native_output.py:280-283 | an object answers with the first of the keys that has a non-empty string |
| NativeSearch.KindsMean | lib/rust_helpers_native_output.py:201-241 | an event is of a kind exactly when its type, its reason or its status mentions a word for it, and no final event is a tool event |
| NativeSearch.WhatIsSpoken | lib/rust_helpers_native_output.py:135-157 | the text a line adds is what its event says, when an assistant or final event of no user speaks, and empty otherwise |
| NativeOutput.CombinesWhen | lib/rust_helpers_native_output.py:121-166 | for all lines, the observations of two streams combine into that of the joined stream exactly unless the second finishes without a reason after a first with a reason other than "completed" |
| NativeOutput.NothingCombines | lib/rust_helpers_native_output.py:153-155 | no function of two observations gives the observation of the joined stream for all lines |
| HelperCache.HelperCaller.Store | lib/rust_helpers.py:277-281 | only the entry of that path and stamp changes; every entry stays a valid envelope |
| HelperCache.HelperCaller.Ask | lib/rust_helpers.py:82-173 | one call: its answer (that of HelperCache.Answer), the cache it leaves, and that every entry stays a valid envelope |
| HelperCache.Answer | lib/rust_helpers.py:82-173 | the helper's payload without a diagnostic, or the fallback with exactly one, and exactly when it is the helper's |
| HelperCache.FirstFailureIsTold | lib/rust_helpers.py:82-173 | the one diagnostic of a fallback is that of the first check that fails, in the source's order: disabled, missing, probe, envelope, capability, request, response |
| HelperCache.FillIsTrueWhen | lib/rust_helpers.py:105-134 | a fill keeps the cache true exactly when the probe speaks for the file found afterwards; if it speaks for the file found before, exactly when the two say the same |
| HelperCache.TrueThroughoutWhen | lib/rust_helpers.py:105-134 | over every call sequence the cache is true at every point exactly when every fill stores its probe truly |
| HelperCache.CacheIsInvisible | lib/rust_helpers.py:105-134 | over every call sequence with true fills, a call whose own probe would succeed answers as it would without the cache |
| HelperCache.CacheOnlyHelps | lib/rust_helpers.py:105-134 | with probes that may also fail, the cache never turns a helper's answer into a fallback |
| HelperCache.ReplacedDuringProbe | lib/rust_helpers.py:105-134 | a fill that is not true, and the later call that is refused by it |

## Left out

- ResourceProfile.Aggregate: groups the loop's local variables into records passed along, instead of one mutable object; the rounded seconds and milliseconds, the command rusage, the privacy and capability blocks and the handle statistics are not part of its profile.
- ResourceVerdict.Judge: takes the sampling target in nanoseconds and does not compute the sampler block (maximum gap, scan times).
- ProcessDiscovery.RelatedPids: takes "cwd under project" and "command mentions project" as given, and the reading of I/O values for the related processes, with its error branches, is not modelled.
- ProcessDiscovery.Discover: the descriptor cache is not called from the worklist; the two are modelled apart.
- HandleTracker.Run: an operating-system error while closing a descriptor is taken to have closed it.
- EvidenceTheorems.HonestRunPasses: the checks special to two scenarios (mixed recovery, command line only) are a parameter; of the former only the snapshot check is modelled, in FaultRounds.
- EvidenceTheorems.ReferenceBindsChain: reason codes are sets, and a JSON value of an unexpected type where text is expected reads as text that matches nothing, so their messages are not modelled.
- ConstructionSummary.PassMeans: the per-scenario counts of the summary are not modelled.
- FaultRounds.CheckersAgree: a log field of an unexpected type counts as absent; file permissions, the snapshot's digest and the supervision and identity checks around the rounds are not modelled.
- FaultRun.CheckpointPassed: the release token is an enabled step rather than a file, and the harness process itself (its command, waiting and polling) is not part of the machine.
- IdentityDiff.FirstDifferenceIs: gives the path as steps and the types, lengths or values that differ, not the sentence built from them.
- Percentiles.SummaryInOrder: the standard deviation is given by its square; its root, the coefficient of variation, floating-point rounding and the bootstrap interval are not modelled.
- AbPlan.BuildPlan: the seed and the generator are an arbitrary function of draws; the provenance fields of the plan are not modelled.
- InstallLock.MutualExclusion: needs that owners write their record within the grace period; retry timing, download contents and checksums are not modelled.
- NativeOutput.Observe: splitting the file into lines and parsing each is given; the Rust observer and the validation of its result are not modelled.
- HelperCache.HelperCaller.Ask: resolving the helper's path, timing and the text of diagnostics are not modelled; a diagnostic is its failure kind.
- ExecutionPhase.OnePerAgent: non-ASCII whitespace and case are not modelled.
- Command classification, path resolution, argument parsing, report rendering, the other performance scripts, provider shortcuts, role aliases and payload validators are lookups and single-branch checks and are not modelled.
- The daemon, mailbox and Rust helper internals are not part of this model.
