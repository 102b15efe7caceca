# KronoKube retention: a verified model

KronoKube records snapshots of a Kubernetes cluster into a `.kk` file and replays them. Most of
what it records about healthy pods is never looked at again, so it strips it: `kk shrink` strips a
finished file, and `--incidents-only` strips while recording. Both keep a pod's JSON and log around
its unhealthy moments and drop the rest, and the program relies on nothing a user can still ask
being lost. This project models that retention pipeline, the store under it and the views on top of
it in Dafny, and proves that reliance right, or states exactly where it is not.

## The modules

- `Model`, `Health`, `History`: rows, captures, pod health from the STATUS and READY cells, and the
  two things derived from a pod's history: which observations retention keeps, and where an incident
  marker sits.
- `FileView`: what a file says, with blob ids out of sight. `Blobs` and `Store` keep that view in
  content-addressed tables; the class `Store` has one atomic method for each committed transaction.
- `Snapshotter`: the recording loop as objects (a captured snapshot stripped in its own arrays, and
  the recorder that holds one back), and whole runs. `Runs` says what the two modes leave in a file.
- `Observations`, `ShrinkTargets`, `ShrinkCommand`: the grouped scan of `kk shrink` and the command.
- `Reader`, `ResourceTimeline`: queries. `Drilldown`: which pods belong to a parent.
- `Incidents`, `Navigation`, `TimelineBar`: the incident index, moving through it, drawing it.
- `Retention`, `Survival`: the main results, relating the two modes and what survives stripping.
  `StandIns`: which content answers for a stripped row. `ChangeTimeline`: what the timeline makes of it.
  `Lifetime`: the same over a file's whole life, recorded into and shrunk again and again.
- `LogRing`, `LiveLog`: the live log buffer and its notification protocol as a step system.
- `Columns`, `DetailView`, `Pieces`, `Division`: column widths, wrapping and paging, and the text and
  division lemmas they share.

`dafny verify dfyconfig.toml` checks everything.

## Main results

1. An incidents-only recording is its full recording with exactly the online pairs stripped
   (`Runs.IncidentsOnlyIsStrippedFull`), and the rule behind those pairs is spelled out row by row.
2. The two modes shrink to the same file if and only if names and UIDs are reused harmlessly, a
   condition on the captures alone (`Retention.RecordingAndShrinkingCommute`). The recorder tracks pods
   by UID and the scan by name, so the comment that both give the same window is not true of every
   run; `Retention.ReplacementBreaksAgreement` is a run of three captures, with no UID shared, after
   which they differ for good.
3. Incident markers survive both kinds of stripping without exception, and the raw JSON and log around
   every marker survive shrinking. Recording incidents-only keeps that evidence if and only if no pod that
   takes over a name starts an incident beside a row of the old one that the recorder drops
   (`Survival.EvidenceInEveryMode`); `Survival.ReplacementLosesEvidence` is a run that loses it.
4. Drill-downs do not always survive, not even shrinking. A stripped row is represented by the first row of
   its name that is kept, and the drills from a parent kind survive if and only if that row belongs under
   the same parents (`StandIns.DrillsByMode`); for nodes, if and only if it is on the same node
   (`StandIns.NodeDrillsByMode`). The program takes owners and node for constant over a pod's life, which
   is enough (`StandIns.StableAreRepresented`) but not always so: a pod first captured while it waited for
   a node drops out of its node's drill (`StandIns.WaitingPodIsMissed`), and one that takes over a name is
   shown on its predecessor's node (`StandIns.MovedPodIsMisplaced`). For drills on which the copies agree,
   what matters is that every pod keeps a copy: shrinking always leaves one, and recording incidents-only
   and shrinking on top does if and only if shared UIDs do no harm (`Survival.DrillsInEveryMode`). Unique
   UIDs never do any (`Retention.UniqueUidsAreHarmless`); `Survival.SharedUidLosesPod` is a capture where
   they do. `Survival.DrillAgreesInEveryMode` and `Lifetime.DrillsOutlivePhases` are corollaries for
   single drills.
5. The same over any life of a file, with recordings in either mode and shrinks in any order. Markers stay
   (`Lifetime.LifeKeepsHistories`), drills stay if and only if each dropped row is represented
   (`Lifetime.LifeKeepsDrillsFrom`), and a shrink in the end makes the file that of a full recording
   exactly when no row was dropped that is missed later (`Lifetime.LifeAndShrinkingCommute`). When names
   and UIDs go together that can only happen at a seam: a recorder that was stopped, or a shrink, could not
   know that the pod is bad in the very next capture (`Lifetime.SeamsDecide`), and the same seams decide
   whether the evidence is complete (`Lifetime.SeamsDecideEvidence`).
6. A pod's change timeline is that of the full file only when emptied rows happen to stand for changes
   (`ChangeTimeline.TimelineAfterStripping`).
7. Writes and shrinks, in any order, keep the store free of dangling, duplicate and orphan blobs, and
   readers see exactly what the operations say (`Store.Replay`). What they say is spelled out field by
   field: the full recording of a run is its captures (`Runs.FullFileHoldsCaptures`).
8. A dropped live-log notification never loses an update, over all interleavings
   (`LiveLog.ReachableStates`), and a log that has come to rest shows all that was read, up to the capacity
   of the ring (`LiveLog.QuiescentRunsShowEverything`, `LogRing.RingTextMeans`).

## Assumptions

- SHA-256 is injective on stored contents, so a blob's content stands for its hash.
- Each transaction is atomic; the whole-run comparisons take captures that the store accepts.
- A query's result set in its ORDER BY order is an input of the method that reads it, described by a
  predicate (`IsSnapshotListing`, `IsPodCursor`, `IsResourceCursor`). Snapshot ids and timestamps
  increase together (`ClockAgrees`).
- For the comparison of the modes: unique primary keys, no row stripped beforehand, and every log
  belongs to a captured pod (`GoodCapture`). Results that need more about names and UIDs say so.
- Namespaces hold no slash, so the namespace/name text used as a key is unambiguous
  (`Model.JoinKeyInjective`).
- For the drill-down: what JSON decodes to is a parameter (`Decoder`). Results about stable drills assume
  that all unstripped copies of a pod are non-empty and, for a node, name the same node, for any other
  parent the same owners (`StableFor`); the results for any decoder do not.
- For the equivalences about drills, evidence and timelines: captured pod rows have content (`RowsHaveContent`).
- A file's phases follow one another; it is not shrunk while a recorder writes to it.
- The rendered width of a text is a parameter of `ComputeColWidths`.

Where comments and code disagree the model follows the code: internal/config/config.go:18-21 says
incidents-only mode persists only some snapshots, while every snapshot is written and only pod rows
are stripped (internal/capture/snapshotter.go:153-157); and the recorder keeps the first sighting of
every pod, not only of pods that stay healthy (internal/capture/snapshotter.go:233-238).

## Model

| member | source | states |
|---|---|---|
| `Retention.RecordingAndShrinkingCommute` | internal/capture/snapshotter.go:150-163 | for every run, shrinking the incidents-only file gives the very file that shrinking the full recording gives (all rows, flags, contents and logs), if and only if names and UIDs are reused, if at all, harmlessly: among the rows the recorder has no reason of its own to keep, none sits one capture away from an unhealthy pod that reuses its name, and each name was shown before or is unhealthy in some capture |
| `Retention.OnlineWithinOffline` | internal/capture/snapshotter.go:236-240 | the pairs stripped while recording lie within the pairs the shrink command strips of the full recording, if and only if the same condition holds |
| `Retention.UniqueUidsAreHarmless` | internal/capture/snapshotter.go:257-262 | when no two pods share a UID the second half of that condition always holds |
| `Retention.UniqueNamesCommute` | internal/capture/snapshotter.go:150-163 | when names and UIDs go together over the run, online stripping is within the offline targets and both modes shrink to the same file |
| `Retention.ReplacementBreaksAgreement` | internal/capture/snapshotter.go:257-262 | a concrete run of three captures, with a healthy pod replaced by a crashing one of the same name, whose two recordings shrink to different files |
| `Retention.ExtraRowsAreFirstSightings` | internal/capture/snapshotter.go:233-238 | the rows that only the recorder keeps are exactly first observations, outside every window, of pods that do have an incident |
| `Retention.HarmedVerdict` | internal/capture/snapshotter.go:227-241 | whenever the condition fails there is a row that is stripped online and kept offline |
| `Retention.OnlineVerdict` | internal/capture/snapshotter.go:219-252 | a pod row is among the stripped pairs of the run exactly when the recorder has no reason of its own to keep it |
| `Retention.OfflineRule` | cmd/kk/shrink.go:283-323 | the same spelled out over the captures: a pod row is a shrink target exactly when its name is not unhealthy one capture before, now, or one capture after, and it was shown before or is unhealthy at some time |
| `Retention.OfflineVerdict` | cmd/kk/shrink.go:286-323 | a captured pod row is a shrink target exactly when its place in the pod's history is neither in the window nor the kept first sighting |
| `Retention.RunHistoryTells` | internal/store/reader.go:221-258 | the history read back from a full recording holds, at each capture showing the pod, the health of that row, and nothing else |
| `Retention.RunListingIsListing` | internal/store/reader.go:22-39 | with a clock that runs forward, both recordings list snapshot i with id i + 1 and its capture's timestamp, and ids increase with time |
| `Runs.IncidentsOnlyIsStrippedFull` | internal/capture/snapshotter.go:150-163 | the file an incidents-only run leaves is the full recording of the same captures with exactly the online pairs stripped, over every run |
| `Runs.ResumedIsStripped` | internal/capture/snapshotter.go:159-191 | recording incidents-only onto a file that was already stripped leaves the longer full file, stripped of the earlier pairs and of the pairs the new run's own captures determine |
| `Runs.ResumedInFull` | internal/capture/snapshotter.go:132-148 | recording in full onto a stripped file strips nothing more and restores nothing |
| `Runs.KeptOnlineMeans` | internal/capture/snapshotter.go:232-240 | a pod row of capture i keeps its blob exactly when the pod is unhealthy in capture i - 1, i or i + 1, or no earlier row shows it |
| `Runs.SubmissionMeans` | internal/capture/snapshotter.go:219-252 | what is submitted for capture i: rows outside the rule are flagged and nothing else changes, a log stays exactly when a pod row of its name keeps its blob, and the returned count is the number of flagged rows |
| `Runs.WriteThenStrip` | internal/store/store.go:144-187 | writing a capture with flagged rows onto a stripped file gives what stripping gives after writing the unflagged capture |
| `Runs.RowsAreStored` | internal/store/store.go:144-167 | every captured row is in the full file under its capture's id, with its UID, its cells and its JSON and unstripped, however many captures follow |
| `Runs.StoredAreRows` | internal/store/store.go:144-167 | and every stored row is one of the captured ones |
| `Runs.FullFileHoldsCaptures` | internal/store/store.go:112-190 | the full recording of a run is its captures, field by field: snapshot i + 1 has the timestamp of capture i, each of its rows, logs (tail, length, text, error), events and kind statuses with error texts, and nothing else; no other id is used |
| `Runs.LogsAreStored` | internal/store/reader.go:287-303 | a captured log reads back from the full file with its tail, its length, its text and its error |
| `Runs.StoredAreLogs` | internal/store/store.go:175-185 | and every log the file stores was captured in that snapshot, with that content |
| `Snapshotter.RunIncidentsOnly` | internal/capture/snapshotter.go:164-207 | over a whole run ending in cancellation every capture is submitted exactly once, in order, in the form its two neighbours and all earlier captures determine, and the store ends with these forms written in that order |
| `Snapshotter.RunTick` | internal/capture/snapshotter.go:187-191 | the i-th tick submits and writes capture i - 1 and nothing else, so each capture is one tick late |
| `Snapshotter.SubmittedLate` | internal/capture/snapshotter.go:187-191 | what is submitted one tick later, knowing one more capture, is already what the whole run makes of the capture |
| `Snapshotter.Recorder.Tick` | internal/capture/snapshotter.go:169-191 | from the state two ticks back (pending object, previous unhealthy set, pods with a blob) a tick yields the verdicts the captures so far determine, and the state stays in step with them |
| `Snapshotter.Recorder.Cancel` | internal/capture/snapshotter.go:199-203 | on cancellation the last capture is submitted with an empty look-ahead |
| `Snapshotter.CapturedSnap.ShrinkInPlace` | internal/capture/snapshotter.go:219-252 | flagging rows and filtering logs in their own backing arrays leaves the capture that the retention rule prescribes, returns the count, and adds every pod shown to the pods with a blob |
| `Snapshotter.CapturedSnap.FilterLogs` | internal/capture/snapshotter.go:243-250 | the in-place compaction leaves exactly the logs of the kept names, in order |
| `Snapshotter.PerPodUnhealthy` | internal/capture/snapshotter.go:377-391 | the set of identities of unhealthy pod rows |
| `Snapshotter.RunFull` | internal/capture/snapshotter.go:132-148 | a full-mode run writes the captures in order |
| `ShrinkCommand.RunShrink` | cmd/kk/shrink.go:57-105 | listing, scanning and stripping together replace the file by the one in which exactly the pairs outside their pod's window (or all but the first sighting of a pod never unhealthy) are stripped; nothing is done exactly when there is no such pair; the counts are those of newly marked rows and deleted logs |
| `ShrinkCommand.RecordAndShrink` | cmd/kk/shrink.go:38-111 | recording a run in either mode into a new file and shrinking it leaves the shrunk form of that mode's file |
| `ShrinkCommand.Live` | cmd/kk/main.go:168-183 | a file that goes through any phases (recordings in either mode, each with a fresh recorder, and shrinks) ends up as the phases say, run through the recorder, the store, the scan and the shrink command |
| `ShrinkCommand.CursorsExist` | internal/store/reader.go:216-222 | every life has the query results that running it asks for |
| `Lifetime.LivedIsStripped` | cmd/kk/main.go:168-183 | whatever its phases, a file is the never-stripped recording of all its captures with exactly the pairs stripped that the phases dropped |
| `Lifetime.CutMeans` | cmd/kk/main.go:168-183 | which rows those are, over the captures: a row of an incidents-only phase for which that phase's captures alone give no reason to keep it, or a row that a shrink found outside the window of the captures up to then |
| `Lifetime.LifeAndShrinkingCommute` | cmd/kk/shrink.go:57-105 | over every life, shrinking the file in the end gives the very file that shrinking the never-stripped recording gives, if and only if no phase dropped a row that the shrink rule keeps once all captures are there |
| `Lifetime.SeamsDecide` | internal/capture/snapshotter.go:196-207 | when names and UIDs go together the condition comes down to the seams: agreement holds if and only if no row dropped in the last capture before the end of a phase is of a pod that is unhealthy in the next capture |
| `Lifetime.OnlySeamsHarm` | internal/capture/snapshotter.go:196-207 | why: within a phase a dropped row is never missed; it can only be missed when the next phase's first capture shows the pod unhealthy, which a flush with an empty look-ahead, or a shrink in between, could not know |
| `Lifetime.InterruptionBreaksAgreement` | internal/capture/snapshotter.go:196-207 | a concrete life: a healthy pod recorded twice, the recorder restarted, the pod crashing; names and UIDs go together, and the two modes differ for good |
| `Lifetime.CopiesAlwaysStay` | cmd/kk/shrink.go:300-308 | after every phase, and even if the file is shrunk next, every pod has an unstripped copy, if and only if no incidents-only phase drops the first sighting of a name that is never unhealthy, over all captures so far |
| `Lifetime.HarmlessPhases` | internal/capture/snapshotter.go:257-262 | that condition holds as soon as each incidents-only phase's shared UIDs do no harm, and always for full recordings and shrinks |
| `Lifetime.LifeKeepsDrillsFrom` | internal/tui/drilldown.go:118-126 | over every life, for any decoder and parent kind: the file keeps the drills of the never-stripped recording if and only if each dropped row belongs under just the parents that the first row of its name no phase dropped belongs under |
| `Lifetime.LifeKeepsNodeDrills` | internal/tui/drilldown.go:118-126 | node drills over every life: if and only if each dropped row's name has a row no phase dropped and the first of those is on the same node |
| `Lifetime.LifeKeepsOwnerDrills` | internal/tui/drilldown.go:118-126 | owner drills over every life: if and only if that row names the same owners |
| `Lifetime.DrillsAlwaysStay` | internal/tui/drilldown.go:118-126 | over every life whose captured pod rows have content, for the stable drills: after each phase the file, shrunk once more, keeps every one of them, if and only if the same condition holds |
| `Lifetime.LivesKeepEssential` | internal/store/shrink.go:44-45 | every file with such a life meets the precondition of the per-file results below: its snapshots are listed and none of its essential rows is stripped |
| `Lifetime.LifeKeepsHistories` | internal/tui/incidents.go:54-74 | over every life the histories read from the file are those of its captures, so the incident index is that of the never-stripped recording |
| `Lifetime.LifeKeepsEvidence` | internal/capture/snapshotter.go:150-163 | over every life whose captured pod rows have content, the captured JSON and log (tail, length, text and error) read back at every marker and one snapshot to either side, if and only if no phase dropped a row at or beside the start of an incident |
| `Lifetime.SeamsDecideEvidence` | internal/capture/snapshotter.go:196-207 | when names and UIDs go together, that comes down to the very same seams: the evidence is complete if and only if shrinking in the end makes up for everything |
| `ShrinkCommand.TargetListIsDistinct` | cmd/kk/shrink.go:309-323 | no (pod, snapshot) pair is listed twice |
| `ShrinkTargets.ComputeShrinkTargets` | cmd/kk/shrink.go:263-341 | one grouped scan lists, in row order, exactly the observations that the histories of all observations do not keep; rows of unknown snapshots count for nothing |
| `ShrinkTargets.StrippedMembers` | cmd/kk/shrink.go:309-323 | a pair is in the list exactly when some observation of it is not kept |
| `ShrinkTargets.ImportantInGroup` | cmd/kk/shrink.go:283-308 | keeping an observation means: an unhealthy observation of the pod at most one index away, or the first one of a pod that is healthy throughout |
| `ShrinkTargets.CollectImportant` | cmd/kk/shrink.go:284-299 | the set holds exactly the indices inside the file with an unhealthy observation at most one away |
| `ShrinkTargets.StrippedGroups` | cmd/kk/shrink.go:325-338 | closing one pod's group adds its targets and disturbs no other pod's |
| `History.KeepsOne` | cmd/kk/shrink.go:300-308 | every observed pod keeps at least one observation |
| `Reader.ScannedTargets` | cmd/kk/shrink.go:263-341 | the pairs listed from the rows of a file are exactly the file's pod rows whose history does not keep them |
| `Reader.ShrinkIsIdempotent` | internal/store/shrink.go:38-45 | a shrunk file has the same targets as before, shrinking it again changes nothing, and the second run marks and deletes nothing |
| `Reader.ListingSurvivesStripping` | internal/store/shrink.go:38-45 | the rows scanned after any stripping are the very rows scanned before, so recomputing gives the same target list |
| `Observations.OrderedIsGrouped` | internal/store/reader.go:216-222 | the query's order makes each pod's rows contiguous and chronological |
| `Reader.IteratePodHealthRows` | internal/store/reader.go:221-258 | the rows read off the cursor list every pod row once in (namespace, name, snapshot) order, with missing READY and STATUS cells read as empty |
| `Reader.PodCursorExists` | internal/store/reader.go:216-222 | every file has a result set for the query over pod rows, since its order is total on them |
| `Reader.ListingIncreases` | internal/store/reader.go:22-39 | when ids and timestamps increase together, a listing in timestamp order has increasing ids |
| `Reader.ScannedHistories` | internal/store/reader.go:221-258 | the scanned rows spell out exactly the histories stored in the file |
| `Store.Replay` | internal/store/store.go:105-190 | after any interleaving of writes and shrinks from an empty file the tables say what the operations say, every reference resolves, no content is stored twice, nothing is unreferenced, and there is exactly one blob for each distinct content in use |
| `Store.Store.WriteSnapshot` | internal/store/store.go:112-190 | a write is accepted exactly when no two rows share kind, namespace and name, no two events and no two logs share namespace and name; then the next id holds the capture field by field and nothing more, and every other snapshot is as it was; a refused write changes nothing |
| `Store.Store.Shrink` | internal/store/shrink.go:51-156 | target pod rows keep UID and cells and read back empty and flagged, target logs are gone, every other row, log, event and status reads back unchanged despite the garbage collection; the counts are the rows that changed, the logs that went, and the distinct contents before and after |
| `FileView.WellKeyedMeans` | internal/store/schema.go:9-103 | the primary keys of a capture, spelled out: when the tables accept it |
| `FileView.WrittenMeans` | internal/store/store.go:112-190 | what one write adds, field by field: exactly the capture under the new id, and no change under any other |
| `FileView.StripMeans` | internal/store/shrink.go:82-137 | what stripping does to each row and each log, spelled out: emptied and flagged, gone, or untouched |
| `FileView.MarkedAreTheChanged` | internal/store/shrink.go:82-127 | the rows counted as marked are the rows that change, the logs counted as deleted those that disappear |
| `Store.Store.constructor` | internal/store/schema.go:9-103 | a new file is empty and consistent, and its first snapshot id is 1 |
| `Store.StripAll` | internal/store/shrink.go:82-137 | the loop over the targets and the garbage collection together, with both counters |
| `Store.InsertRows` | internal/store/store.go:136-167 | the row loop gets through exactly when no primary key repeats, adds exactly the given rows, and leaves a cache that agrees with the blob table although the empty placeholder bypasses it |
| `Blobs.BlobsAreTheDistinctContents` | internal/store/schema.go:34-56 | no dangling reference, no duplicate and no orphan mean: as many blobs as distinct contents shown |
| `Blobs.UpsertBlob` | internal/store/store.go:192-217 | the content is found or added under a fresh id, nothing else changes, and the cache still agrees with the table |
| `Blobs.BlobForRow` | internal/store/store.go:144-161 | the blob a row is pointed at holds its JSON, or nothing for a flagged row, whichever of cache, placeholder and table answered |
| `Blobs.CollectedIsSound` | internal/store/shrink.go:128-137 | garbage collection leaves no orphan and no reader can tell it happened |
| `FileView.StripTwice` | internal/store/shrink.go:44-45 | stripping some pairs first and all of them later is stripping all at once, in either order, and the later pass over fewer pairs marks and deletes nothing |
| `ResourceTimeline.ResourceTimeline` | internal/store/reader.go:179-203 | the loop over the result set reports, in row order and once each, exactly the rows whose blob differs from the row before |
| `ResourceTimeline.ReportsInOrder` | internal/store/reader.go:179-203 | the reports are those of a strictly increasing list of row positions, which are the positions where the blob changes |
| `ChangeTimeline.ReportsIncrease` | internal/store/reader.go:175-203 | on a whole timeline of a file whose ids and timestamps increase together the reported ids strictly increase, so no report comes twice |
| `ResourceTimeline.ReportedAreChanges` | internal/store/reader.go:175-178 | a snapshot is reported exactly when it is the first or its stored content differs from the previous observation's; comparing blob ids is enough because contents are never duplicated |
| `ChangeTimeline.TimelineAfterStripping` | internal/store/reader.go:175-203 | the change timeline of a pod on a stripped file of a run reports the snapshots that it reports on the full file, if and only if between any sighting and the one before either both are kept or the content changes exactly when just one of them is |
| `ChangeTimeline.SteadyPodSeemsToChange` | internal/store/reader.go:175-178 | a concrete run: a healthy pod that never changes has a change in its timeline after shrinking |
| `ResourceTimeline.LatestReport` | internal/store/reader.go:175-178 | each observation shows what the latest reported snapshot at or before it shows |
| `StandIns.DrillsByMode` | internal/tui/drilldown.go:118-137 | for any decoder, any run whose captured pod rows have content, and each parent kind: the drills from it survive shrinking, recording incidents-only, or both, if and only if every stripped row belongs under just the parents that the first row of its name kept in that mode belongs under; without a kept row it must belong under none |
| `StandIns.NodeDrillsByMode` | cmd/kk/shrink.go:300-308 | node drills: if and only if, for every stripped row, some row of its name is kept and the first of those names the same node |
| `StandIns.OwnerDrillsByMode` | cmd/kk/shrink.go:300-308 | drills from a StatefulSet, DaemonSet, ReplicaSet or Job: if and only if the first kept row names exactly the owners of that kind that each stripped row names |
| `StandIns.StrippedResolves` | internal/store/reader.go:98-115 | in a run's file a stripped row resolves to the captured content of the first kept row of its name, whichever rows are stripped |
| `StandIns.WaitingPodIsMissed` | cmd/kk/shrink.go:305-307 | a concrete run without any reuse: a pod is captured waiting for a node and then runs on one; after shrinking, the drill from that node at the last snapshot has lost it |
| `StandIns.MovedPodIsMisplaced` | internal/tui/drilldown.go:118-121 | a concrete run: a healthy pod on one node is replaced by a healthy one of the same name on another; after shrinking, the new one is shown under the old node and not under its own |
| `StandIns.StableAreRepresented` | internal/tui/drilldown.go:118-121 | where all copies of each pod agree on what a parent kind asks for, and each has a copy left, every stripped row is represented: the assumption in the program's comments suffices, it is only not always met |
| `Drilldown.DrillsAreRowByRow` | internal/tui/drilldown.go:72-116 | on any file and for any decoder, stripping keeps the drills from a parent kind if and only if every pod row goes on being shown under the same parents, although drills go by the joined namespace and name and two of them take two hops |
| `Survival.DrillsInEveryMode` | internal/capture/snapshotter.go:159-163 | over every run whose captured pod rows have content, for the stable drills, those whose question all copies of each pod answer alike: they survive shrinking; they survive recording incidents-only if and only if the recorder has a reason to keep some row of every name, and recording incidents-only with a shrink on top if and only if shared UIDs do no harm |
| `Survival.SharedUidLosesPod` | internal/capture/snapshotter.go:257-262 | a concrete capture for the negative case: of two healthy pods with one UID the second is stripped, and no drill of its owner shows it in either file |
| `Drilldown.DrillsNeedCopies` | internal/tui/drilldown.go:118-137 | on any file whose pods have an unstripped copy with content: stripping a set of pairs keeps every stable drill, whatever the JSON decodes to, if and only if it leaves every pod a copy |
| `Drilldown.TargetsLeaveCopies` | cmd/kk/shrink.go:300-308 | on a file, stripped before or not, whose essential rows (unhealthy ones, and the first of a pod never unhealthy) are there, shrinking leaves every pod an unstripped copy |
| `Drilldown.ShrinkingKeepsEssential` | internal/store/shrink.go:44-45 | and it leaves the essential rows, so it can be repeated at any time |
| `Drilldown.ShrinkKeepsDrills` | cmd/kk/shrink.go:57-105 | shrinking such a stored file leaves every pod row content to answer with, and keeps the drills from a parent kind if and only if that content puts each row under the same parents as before, in particular when all copies agree |
| `Survival.EveryModeLeavesCopies` | internal/capture/snapshotter.go:159-163 | recording incidents-only and shrinking on top leaves every pod an unstripped copy, if and only if shared UIDs do no harm |
| `Survival.CopiesLeft` | cmd/kk/shrink.go:300-308 | for any set of stripped pairs that spares unhealthy rows: with a shrink on top every pod has a copy if and only if the set spares the first row of every name that is never unhealthy |
| `Drilldown.ComputePodFilter` | internal/tui/drilldown.go:72-116 | the loops over rows, with the two-hop kinds and the early exit when no child is owned, compute the set of pods whose resolved content names the parent |
| `Drilldown.DrillMeans` | internal/tui/drilldown.go:65-116 | what that set is, for each of the seven parent kinds and the owner kinds on the way: the namespace/name of exactly those pod rows of the snapshot (and namespace, except for nodes) that are owned by the parent, by a row it owns, or run on it |
| `Drilldown.TwoHopMeans` | internal/tui/drilldown.go:75-92 | a pod belongs to a Deployment or CronJob exactly when one of its owner references names a ReplicaSet or Job row of the same snapshot (and namespace, when one is given) that the parent owns |
| `Drilldown.ResolvedMeans` | internal/tui/drilldown.go:127-136 | on any file: a row with content resolves to that content, flagged or not; any other to what the oldest unstripped row of the resource holds, or to nothing when there is none |
| `Drilldown.ResolvesToRealCopy` | internal/tui/drilldown.go:127-136 | when the unstripped rows of a resource have content: an unstripped row resolves to its own, a stripped one to that of the oldest unstripped row of the resource |
| `Drilldown.ResolvesToNothing` | internal/tui/drilldown.go:127-136 | a row resolves to nothing when no unstripped row of the resource is left |
| `Drilldown.FetchAnyReal` | internal/store/reader.go:105-115 | the unstripped copy of the lowest snapshot id, or none when there is no unstripped copy |
| `Incidents.BuildIncidentIndex` | internal/tui/incidents.go:54-155 | the scan yields the index of the observed histories: global is the pointwise maximum over all pods, and the stored pod vectors are exactly those with some marker, each equal to the pod's marker vector |
| `Incidents.MarkerInGroup` | internal/tui/incidents.go:89-123 | the scan's verdict at each observation is the declarative marker: healthy before and unhealthy now; red exactly when hard-bad and hard-bad again at the adjacent index or at the end of the file |
| `Incidents.IndexIsDetermined` | internal/tui/incidents.go:49-50 | the histories leave the index no freedom |
| `Incidents.GlobalIsMaxOfStored` | internal/tui/incidents.go:124-136 | dropping vectors without markers loses nothing: global is the maximum of the stored ones |
| `Incidents.StoredHaveIncidents` | internal/tui/incidents.go:124-136 | a vector is stored under namespace/name exactly when a pod of that name has an incident, and without slashes in namespaces it is that pod's own |
| `Incidents.RedIsWorst` | internal/tui/incidents.go:124-136 | the file is red at a snapshot exactly when some pod is, and unmarked exactly when all pods are |
| `Survival.IncidentsAgreeInEveryMode` | internal/tui/incidents.go:54-155 | the incident index is one and the same for the full, shrunk, incidents-only and shrunk incidents-only file of a run |
| `Survival.MarkedSnapshotsSurvive` | cmd/kk/shrink.go:286-299 | at every incident marker and one snapshot to either side, the pod's raw JSON and log read the same after stripping any part of the targets |
| `Survival.MarkersMean` | internal/tui/incidents.go:89-123 | a marker sits exactly where, over the captures, the name is unhealthy and was healthy when last shown |
| `Survival.RedMeans` | internal/tui/incidents.go:89-123 | and it is red exactly when the name is hard-bad there and again in the very next capture, or there is no next one |
| `Survival.EvidenceInEveryMode` | internal/capture/snapshotter.go:150-163 | around every marker of a run whose pod rows have content, the pod's raw JSON and log read back as captured after shrinking; they read back as captured after recording incidents-only, shrunk or not, if and only if every row one capture away from an unhealthy pod that reuses its name and starts an incident is kept for a reason of its own |
| `Survival.EvidenceKept` | cmd/kk/shrink.go:286-299 | for any set of stripped pod rows: the captured JSON and logs around the markers read back if and only if the set spares every row at or beside the start of an incident of its name |
| `Survival.ReplacementLosesEvidence` | internal/capture/snapshotter.go:257-262 | the concrete run again: the crash of the replaced pod is marked red, and the incidents-only file has lost the state one snapshot before it |
| `ShrinkCommand.LoadIncidents` | internal/tui/incidents.go:54-74 | opening a file builds the index of the histories it stores |
| `LogRing.WriteAll` | internal/tui/logs_live.go:157-194 | however the stream is cut into chunks, the ring shows what one write of the whole stream would show |
| `LogRing.LogRing.Write` | internal/tui/logs_live.go:157-182 | after a write the lines are the last complete lines of the stream so far, at most the capacity, and the partial text is what follows its last newline; the in-place shift and truncation keep this |
| `LogRing.LogRing.DropOldest` | internal/tui/logs_live.go:173-181 | the shift within the buffer leaves exactly the newest lines, in order, and nothing when there is no excess |
| `LogRing.LogRing.Snapshot` | internal/tui/logs_live.go:184-194 | the text of the ring is the view of the stream |
| `LogRing.RingTextIsSuffix` | internal/tui/logs_live.go:184-194 | the text shown is always a suffix of the stream, and all of it exactly while the newline count is at most the capacity |
| `LogRing.RingTextMeans` | internal/tui/logs_live.go:157-194 | counted in newline bytes: the text shown is the end of the stream with all its newlines, or with as many as the capacity when there are more, and then it starts right behind a newline |
| `LogRing.LogRing.constructor` | internal/tui/logs_live.go:150-155 | a capacity below one becomes one |
| `LiveLog.ReachableStates` | internal/tui/logs_live.go:65-96 | over all interleavings: a display that differs from the ring has a notification still to be tried, queued or in hand; the final message is delivered at most once and last, and after it the display is the final ring; a reader blocked on its final send leaves the consumer a step; the consumer never finds the channel closed without the final message |
| `LiveLog.FinishedRunsShowEverything` | internal/tui/logs_live.go:65-96 | over all interleavings: once the consumer has finished, the stream had ended, nothing is read any more, and the display is the ring text of every byte the reads delivered, in order |
| `LiveLog.RunFollowsReads` | internal/tui/logs_live.go:65-96 | at every point of every run the ring has been given the concatenation of the chunks read so far, and the reader is past its loop exactly when the stream has ended |
| `LiveLog.StepKeepsInvariant` | internal/tui/logs_live.go:74-93 | every step of reader and consumer, including the dropped notification, keeps the invariant |
| `LiveLog.QuiescentStatesAreUpToDate` | internal/tui/logs_live.go:74-80 | when only further reads can happen the display equals the ring, and a stream that ended has been seen to end |
| `LiveLog.QuiescentRunsShowEverything` | internal/tui/logs_live.go:65-96 | when a run has come to rest the display is the ring text of every byte read; if the stream has ended the reader is gone and the consumer finished, otherwise the reader waits for the next read |
| `LiveLog.StreamCanBeShown` | internal/tui/logs_live.go:65-96 | whatever chunks the cluster sends, some run reads them all and ends with the consumer finished and the display showing them |
| `LiveLog.StepSent` | internal/tui/logs_live.go:74-93 | a notification is queued unless 16 messages wait, the final message always, and no other step adds or loses a message |
| `LiveLog.InternalRunsAreShort` | internal/tui/logs_live.go:130-138 | between reads the program takes at most a bounded number of steps, so such a state is always reached |
| `Navigation.ForwardJumpsEnumerate` | internal/tui/app.go:1570-1608 | k forward jumps from any snapshot stand on the k-th later incident, and on the last one from then on; without a later incident nothing moves |
| `Navigation.StopsAreAllStops` | internal/tui/app.go:1581-1587 | the list those jumps follow holds every later incident snapshot, once, in increasing order |
| `Navigation.BackUndoesForward` | internal/tui/app.go:1588-1597 | from one incident forward and back again is where one started |
| `Navigation.JumpToNearestIncident` | internal/tui/app.go:1570-1608 | the jump goes to the closest incident in its direction within both the vector and the snapshots, or nowhere when there is none |
| `Navigation.EffectiveIncidents` | internal/tui/app.go:1663-1688 | the loop over the drill's pods yields the pointwise maximum of their vectors; without a drill, without stored vectors or with an empty set it is the global vector |
| `Navigation.DrillIsBelowGlobal` | internal/tui/app.go:1658-1662 | a drill never shows a marker worse than the whole file's |
| `Navigation.UnionIsMonotone` | internal/tui/app.go:1658-1662 | more pods never show less |
| `Navigation.CoveringDrillIsGlobal` | internal/tui/app.go:1658-1662 | a drill that covers every stored pod shows the global vector |
| `Navigation.DrillNarrowsUnlessEmpty` | internal/tui/app.go:1664-1666 | the markers are those of the drill's pods if and only if the drill has pods or the file has no marker; the empty drill shows the whole file instead |
| `Navigation.SessionsStayWellPlaced` | internal/tui/app.go:461-473 | over any session of reloads (snapshots only appended), steps, page and incident jumps, Home, End, change-point jumps, drills and index loads the cursor is on a snapshot, and following implies live and at the head |
| `Navigation.ReloadMeans` | internal/tui/app.go:461-473 | a reload changes the count and at most the cursor: to the newest snapshot when the view follows or was empty, and not at all otherwise |
| `Navigation.ReloadsFollow` | internal/tui/app.go:461-473 | over any session of reloads alone, a live view follows and stands on the newest snapshot after each |
| `Navigation.ReloadsLeaveThePaused` | internal/tui/app.go:461-473 | over any stretch of reloads in any session, a view that does not follow keeps its cursor and everything else but the count |
| `Navigation.StepMeans` | internal/tui/app.go:1537-1563 | a step lands exactly where it says, or on the end it would pass |
| `Navigation.PageMeans` | internal/tui/app.go:1610-1618 | a page is 25 snapshots, or a hundredth of the timeline from 2500 on, cut short at the ends |
| `Navigation.MovesGoTheirWay` | internal/tui/app.go:899-922 | no step, page or incident jump goes against its direction; Home lands on the first snapshot, End on the last, a change point on its index, and which of them follow |
| `Navigation.CursorMovesFrame` | internal/tui/app.go:899-922 | moves of the cursor touch the cursor and the following, and nothing else |
| `Navigation.OtherMovesFrame` | internal/tui/app.go:475-490 | loading the incidents and drilling leave the cursor alone |
| `Navigation.JumpGoesNearest` | internal/tui/app.go:1537-1563 | a jump lands on the snapshot nearest its target, changes nothing when it cannot move, and otherwise follows exactly when it lands on the head of a live file |
| `Navigation.MoveKeepsPlace` | internal/tui/app.go:1537-1563 | each single move keeps this |
| `Columns.ComputeColWidths` | internal/tui/table.go:61-102 | widths lie between min(natural, 4) and natural; a cut column is within 1 of every other and not below an earlier one; nothing is cut when everything fits or the width is not positive; the total equals the width whenever that is possible, and otherwise every column is at its floor |
| `Columns.WidthsAreDetermined` | internal/tui/table.go:83-101 | these promises leave exactly one layout |
| `Columns.NaturalFits` | internal/tui/table.go:65-82 | the widest text bounds header and cells of a column, and one of them attains it |
| `Columns.NaturalMeans` | internal/tui/table.go:65-82 | a column's natural width leaves exactly one blank behind its widest text |
| `Columns.LayoutMeans` | internal/tui/table.go:83-101 | no column is cut below 4, a layout still too wide has no column above 4, and of columns that want the same width the earlier one gives up first, by at most 1 |
| `Columns.ShrinkToFit` | internal/tui/table.go:87-101 | the greedy loop over the array terminates in the fair layout |
| `TimelineBar.PlaceInBounds` | internal/tui/timeline.go:38-47 | the clamps are unreachable |
| `TimelineBar.PlaceIsWhere` | internal/tui/timeline.go:38-41 | a snapshot sits in a cell exactly when its exact proportional position is at or right of that cell and left of the next |
| `TimelineBar.PlaceMonotone` | internal/tui/timeline.go:38-41 | later snapshots never sit further left |
| `TimelineBar.PlaceEnds` | internal/tui/timeline.go:38-41 | the first snapshot sits in the first cell and the last in the last |
| `TimelineBar.PlaceInjective` | internal/tui/timeline.go:38-41 | with at most as many snapshots as cells no two share one |
| `TimelineBar.PlaceOnto` | internal/tui/timeline.go:38-41 | with at least as many snapshots as cells none is empty |
| `TimelineBar.Buckets` | internal/tui/timeline.go:62-88 | each cell's severity is the worst of exactly the snapshots mapped to it, also when the vector is shorter than the listing or there is a single snapshot |
| `TimelineBar.RenderBar` | internal/tui/timeline.go:24-115 | the bar fills the width left by the counter, or 10 cells; in every cell the cursor wins, a marker beats one of the five ticks, and the colour is the cell's own severity |
| `TimelineBar.BarMeans` | internal/tui/timeline.go:38-115 | cell by cell: the cursor is drawn once, where its snapshot lies; any other cell has a marker exactly when it stands for an incident; and a tick exactly when it has neither and one of the five quarter points lies in it |
| `TimelineBar.BarIsDetermined` | internal/tui/timeline.go:24-115 | these promises leave exactly one bar of each width |
| `TimelineBar.CursorShowsItsSnapshot` | internal/tui/timeline.go:38-41 | the cursor's cell is coloured at least as badly as its own snapshot |
| `TimelineBar.BarShowsEveryIncident` | internal/tui/timeline.go:59-61 | the bar shows an incident exactly when the vector has one |
| `TimelineBar.TicksSpanTheBar` | internal/tui/timeline.go:128-137 | ticks are in bounds, strictly increasing, evenly spread, and hit both ends |
| `DetailView.HardWrap` | internal/tui/app.go:1265-1283 | the loops emit the chunks of every line, in order; a width below 1 changes nothing |
| `DetailView.WrappedTextLines` | internal/tui/app.go:1260-1264 | the lines of the wrapped text are exactly the chunks of the lines, none longer than the width |
| `DetailView.WrappedAppend` | internal/tui/app.go:1265-1283 | each line is wrapped on its own and stays in its place among the others |
| `DetailView.ChunksMakeTheLine` | internal/tui/app.go:1273-1279 | chunks are at most the width, all but the last are exactly the width, and joined they give the line back |
| `DetailView.WrapIsIdempotent` | internal/tui/app.go:1265-1283 | wrapping wrapped text changes nothing |
| `DetailView.WrappedCount` | internal/tui/app.go:1273-1279 | the number of lines is the sum of max(1, ceil(length / width)) |
| `DetailView.RenderPage` | internal/tui/app.go:1207-1224 | the lines on screen are consecutive lines of the text, wrapped only for a wrapped log, as many as the height less 4 (at least 5) allows, from the scroll offset on, or from an earlier line when the text ends on the page |
| `DetailView.PagesStopAtTheLast` | internal/tui/app.go:1212-1224 | no page is empty, and it starts at the scroll offset or at the last page's start, whichever is less |
| `DetailView.LastPageEndsAtLastLine` | internal/tui/app.go:1432-1449 | the offset of the G key ends at the last line, and exactly the offsets from there on do |
| `Health.ReadyRoundTrip` | internal/model/health.go:143-154 | the decimal text a/b reads back as complete exactly when a = b > 0, for all naturals |
| `Health.RunningHealthIsFullReadiness` | internal/model/health.go:73-101 | a Running pod with the printed READY cell is healthy exactly when its ready count equals a non-zero total, and hard-bad otherwise |
| `Health.PodReady` | internal/model/extract.go:115-129 | read as decimal numbers, the text before the slash is the number of ready statuses and the text behind it the number of containers, or of statuses when the spec lists no containers |
| `Health.DecimalIsNumeral` | internal/model/extract.go:128 | a count prints as digits without a needless leading zero that read back, from the left in base ten, as the count |
| `Health.TrimMeans` | internal/model/health.go:77-79 | trimming takes all white space off both ends and nothing else |
| `Health.ReadyCompleteMeans` | internal/model/health.go:143-154 | a cell is complete exactly when both sides of its first slash read the same, and neither nothing nor 0 |
| `Health.HealthyIffAllReady` | internal/model/health.go:73-101 | a Running pod that reports on all its containers is healthy exactly when there are some and all are ready |
| `Health.HealthyMeans` | internal/model/health.go:81-109 | the healthy verdict, over all branches: no status, Succeeded, Completed, or Running with no READY cell or a complete one |
| `Health.HardBadMeans` | internal/model/health.go:81-109 | the hard-bad verdict, over all branches; starting pods never get it, whatever follows Init: |
| `Health.DecimalInjective` | internal/model/extract.go:128 | different counts print differently |
| `Model.JoinKeyInjective` | internal/capture/snapshotter.go:257-262 | the namespace/name text identifies the pod as long as namespaces hold no slash |
| `Model.JoinKeySplits` | internal/capture/snapshotter.go:257-262 | cut at its first slash the text gives namespace and name back |
| `Snapshotter.PodKeyMeans` | internal/capture/snapshotter.go:257-262 | rows with UIDs are the same pod exactly when the UIDs are, rows without exactly when namespace and name are, and one with is never one without |
| `Snapshotter.LogsOfAppend` | internal/capture/snapshotter.go:243-250 | the logs that stay keep their order |
| `Observations.RowLessMeans` | internal/store/reader.go:216-222 | rows of pods come by namespace, then by name, then by snapshot |
| `Observations.TextLessMeans` | internal/store/reader.go:216-222 | the text order of the query: after a common start the first text ends or has the smaller character |

## Left out

- The SQL text, write-ahead logging, VACUUM, file sizes, progress callbacks and schema migration: a committed transaction is one atomic method.
- Failed writes: the recorder marks a pod as having a blob before the write (internal/capture/snapshotter.go:173-174), so its promise of a real blob on disk fails with the write; the store's refusal itself is modelled.
- Captures: running kubectl, its argument checks and its fan-out. A capture is a given list of rows, events and logs.
- Decoding of JSON, YAML and timestamps, and all extractors except the READY cell.
- Snapshot metadata (server version, context name), the meta table, and which kinds are captured.
- Publishing ticks to the progress channel; only the stripped-row count of a tick is modelled.
- Filtering and the table cursor, asynchronous drill and row messages arriving out of order, and log messages arriving after the view was stopped.
- Text that is not valid UTF-8, which the wrapping code changes when it converts to runes; text is a sequence of runes here.
- Styling, labels under the timeline, key bindings, describe and events rendering, and launching the external log viewer.
- Survival.DrillsInEveryMode: speaks of stable drills only; StandIns.DrillsByMode is exact for every decoder and parent kind.
- Drilldown.DrillsNeedCopies: speaks of stable drills only; Drilldown.DrillsAreRowByRow and StandIns.DrillsNeedStandIns are about all.
- Lifetime.DrillsAlwaysStay: speaks of stable drills only; Lifetime.LifeKeepsDrillsFrom is exact for every decoder and parent kind.
- Snapshotter.RunFull: writes captures only; the wait between ticks and the published tick are not part of it.
- TimelineBar.RenderBar: glyphs and severities only; the label row and the counter text are not part of it, the counter's length is a parameter.
- Drilldown.ComputePodFilter: a read that fails with a database error is not modelled; a missing or empty blob is.
