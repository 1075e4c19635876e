# Attendance reliability: a verified model

This project models the part of the repository that turns what a camera sees at a
door into attendance, and a few independent services whose central promise is one
hard theorem each. Everything is stated for all inputs and all runs.

**The attendance chain.** `DoorEngine.dfy` is the state machine of one track: zone
debouncing, cooldown, the memory of line crossings, and the events it emits;
`DoorEngineRuns.dfy` says what whole runs of it add up to, `DoorEngineStrict.dfy`
what changes when no two observations share an instant, and `DoorEngineHistory.dfy`
what the state remembers and which event comes next, told from the observations alone. `PipelineSpec.dfy` is the
pipeline as a state and its steps: key allocation, the two-phase commit of events, the
exit grace window, late identities filled back through an unflushed database session,
and the end of tracks. `PipelineViews.dfy` looks at a state one track key at a time,
`PipelineKeyInvariant.dfy` proves what every step keeps for each key,
`PipelineCounts.dfy` does the same for the counters of the report, `PipelineRuns.dfy`
puts both together over all runs, and `PipelineTheorems.dfy` draws the conclusions.
`PipelineGrace.dfy` is about the rows that the ends of tracks write, over whole runs.
Three files tell every step of every run from what can be seen before and after it:
`PipelineIdentity.dfy` whom a detection names and which held track it ends,
`PipelineSightings.dfy` what else it does with its track, its event rows and the counters,
and `PipelineFates.dfy` what becomes of each track at the end of a frame and of the video;
`PipelineSummaries.dfy` concludes what the summary rows tell.
`PipelineSpacing.dfy` says what a ticking clock adds, `PipelineReport.dfy` which
configurations let an event wait or be given up, and `PipelineLosses.dfy` builds the
runs in which one is.
`PipelineJob.dfy` is the program itself, an object whose methods change its
dictionaries, session and counters in place; it is proved to make exactly the steps of
`PipelineSpec.dfy`. `Stitching.dfy` joins the tracks of one employee into sessions,
`SessionPairing.dfy` pairs entries with exits, `AttendanceDay.dfy` computes the row of a
day from both, and `BrokenVisits.dfy` says what becomes of a visit that was recorded in
several tracks.

**Independent services.** `SqlLexer.dfy` and `SqlRoundTrip.dfy`: the statement splitter
and its round trip; `SqlTokens.dfy`: what a script means, as tokens, without a machine.
`Screening.dfy`: truncated retrieval that is exact at the top.
`TrimmedMean.dfy`: a robustness bound. `Leaderboard.dfy`: ranks and boards.
`TaskAssigner.dfy`: automatic assignment. `Outbox.dfy`: concurrent delivery with
retries, `OutboxTries.dfy`: how often each row is tried, and `OutboxClaims.dfy`: which
rows a worker claims and what it makes of them. `Wrappers.dfy`, `StableSort.dfy` and
`TextOrder.dfy` hold what they share.

A run of the pipeline is a sequence of detector frames, each a timestamp and a list of
detections. A detection carries what other code decides about it: its tracker id, its
zone, its side of the door line, whether it is in the gate and near the door, and the
identity that a probe would lock. Times are whole microseconds, confidences and scores
are real numbers. The database is a table and a session buffer, because the session
does not flush by itself. Three fields of the state, the observations, the given-up
events and the merged keys, exist only in the model, so that statements can speak of them.

Frames come in time order. Where it matters whether two of them, or two boxes of one
frame with the same tracker id, may share an instant, the theorems take a flag:
`ticking` says that they may not, and each theorem holds with the flag and without it.

What the proofs found where the code and its intention part:

- Events of a track can be dated out of order. `TimestampOrderExact` says for which
  configurations, exactly, and `StrictOrderExact` the same when no two observations
  share an instant; the defaults are safe. No configuration dates one outside its track
  or after its inferred exit (`EveryEventIsWithin`).
- The report's pending counters need not add up. `EveryReportAddsUpExactly` says for
  which configurations they do in every run: a discarded exit and an event that goes
  with a merged track are given up and not counted. With the shipped settings they add
  up, because then nothing ever waits (`ShippedHoldsNothingBack`): the two-phase commit
  is idle exactly for the configurations of `NothingWaitsExactly`.
- The branches that commit pending events at the end of a track never do so
  (`FrameEndsCommitNothing`, `VideoEndCommitsNothing`).
- Track keys are unique for one job, and a day can have several. Then two visits can end
  up in one session (`SharedKeysJoinVisits`); sessions are the chains of parents exactly
  when tracklets that share a key are in one chain (`SessionsAreRootsExactly`).
- Stitching a visit that broke more than once does not join it: `StitchedVisit`. The
  exit of a middle track is kept, since the test for entries decides first.
  `BrokenTwice` is a visit of three minutes that counts as two.
- The full splitter's round trip fails exactly for statements that start with a backslash.
- The outbox bounds attempts that raise before a statement of theirs reaches the
  database. One that breaks its transaction is rolled back with its batch and tried
  without end (`TriedWithoutEnd`). The tries of a row are at most five and those that
  were rolled back, exactly counted by `TriesOfARow`.
- Three branches are dead: the punch-to-punch total without stitching
  (`SpanOnlyWhenSuppressed`), the repair of the trim count (`TrimCountIsFloor`), the
  cap on retry waits (`WaitsDouble`).

`dafny verify dfyconfig.toml` checks the whole project.

## Model

| member | source | states |
|---|---|---|
| DoorEngine.TrackDoorState.constructor | backend/app/worker/event_engine.py:46-67 | a new track has seen nothing |
| DoorEngine.TrackDoorState.ObserveTrackPoint | backend/app/worker/event_engine.py:110-281 | one observation keeps the object equal to the fold of its whole history, and returns the event that the history emits last |
| DoorEngine.TrackDoorState.RecordTimes | backend/app/worker/event_engine.py:129-144 | the life-cycle, gate and inside times after an observation; no other field moves |
| DoorEngine.TrackDoorState.RecordLine | backend/app/worker/event_engine.py:149-168 | a change of side near the door, at this point or the one before, is remembered as a crossing of the right direction |
| DoorEngine.TrackDoorState.Settle | backend/app/worker/event_engine.py:173-281 | debounce, and the event of a change of the stable zone |
| DoorEngine.TrackDoorState.Transition | backend/app/worker/event_engine.py:195-281 | which event a change of the stable zone means, with its date, confidence and reason, and when it is suppressed |
| DoorEngineRuns.DebounceRefinesHistory | backend/app/worker/event_engine.py:170-190 | the streak is the longest constant suffix of the history without UNKNOWN, and the stable zone that of the latest run that reached the minimum |
| DoorEngineRuns.SettledForever | backend/app/worker/event_engine.py:182-190 | a zone once known never becomes unknown again |
| DoorEngineRuns.FlipsAlternate | backend/app/worker/event_engine.py:185-190 | changes of the stable zone alternate from an entry, and their number is odd exactly while inside |
| DoorEngineRuns.EmittedIsSubsequenceOfFlips | backend/app/worker/event_engine.py:182-281 | under every configuration the emitted events are the alternating changes with some left out |
| DoorEngineRuns.TimesAreKept | backend/app/worker/event_engine.py:129-144 | how the remembered times, the latest event and the present moment are ordered, over every run |
| DoorEngineRuns.NothingSuppressed | backend/app/worker/event_engine.py:258-311 | no line, no cooldown, both inferences on: a run closed by the track end alternates from an entry and has as many exits as entries |
| DoorEngineRuns.NothingSuppressedExactly | backend/app/worker/event_engine.py:195-281 | every change of the stable zone is reported in every run if and only if there is no line, the cooldown is not positive and the first entry is inferred |
| DoorEngineStrict.NothingSuppressedStrictly | backend/app/worker/event_engine.py:78-83 | when no two observations share an instant: if and only if there is no line, the cooldown is no longer than one settling, and the first entry is inferred |
| DoorEngineRuns.EveryEventIsWithin | backend/app/worker/event_engine.py:85-99 | under every configuration every event is dated between the first and the last observation, and none later than the final inferred exit |
| DoorEngineRuns.EmittedInOrder | backend/app/worker/event_engine.py:78-99 | event times are non-decreasing, although crossings and first-inside entries are back-dated |
| DoorEngineRuns.BackDatedRunBreaksOrder | backend/app/worker/event_engine.py:85-99 | for every other configuration a concrete run whose events go back in time |
| DoorEngineRuns.TimestampOrderExact | backend/app/worker/event_engine.py:195-311 | events of every run, the final inferred exit included, are in time order if and only if the cooldown is at least the crossing window, or the window is not positive, or there is no line, or both inferences are off |
| DoorEngineStrict.StrictOrderExact | backend/app/worker/event_engine.py:195-311 | when no two observations share an instant: in time order if and only if there is no line, or the crossing window does not exceed the pause after an event (with inferred transitions) and is shorter than the pause and one settling together (with inferred first entries) |
| DoorEngineStrict.SomeRunBreaksOrder | backend/app/worker/event_engine.py:85-99 | for every other configuration a run of distinct instants whose events go back in time |
| DoorEngineHistory.CrossingIsLatest | backend/app/worker/event_engine.py:149-168 | the remembered crossing is the latest observation of the history whose side differs from the last side known before it, with it or the observation just before it in the gate; an entry exactly from outside to inside; none if there is no such observation |
| DoorEngineHistory.TimesAreFacts | backend/app/worker/event_engine.py:129-144 | the remembered times are those of the first and last observation, the first and last one inside and the last one in the gate |
| DoorEngineHistory.LastEventIsLast | backend/app/worker/event_engine.py:78-83 | the cooldown runs from the last observation that emitted an event |
| DoorEngineHistory.EventsFollowHistory | backend/app/worker/event_engine.py:170-281 | which event one more observation leads to, for every history, with kind, date, confidence, inference flag and reason: nothing without a reportable change of the stable zone outside the cooldown, then a recent crossing of the right direction, else what the configuration infers |
| DoorEngineHistory.CrossingEventsCross | backend/app/worker/event_engine.py:85-99 | every event with a line-crossing reason is observed, dated at a change of side of its own direction in or next to the gate, and reported within the window of it |
| DoorEngineHistory.FinalExitFollowsHistory | backend/app/worker/event_engine.py:284-311 | the final exit is inferred exactly for a track that is inside at its end, and dated at the last observation inside |
| TrackKeys.KeyNameInjective | backend/app/worker/pipeline.py:760-767 | different tracker ids or counters never give the same key, as text |
| TrackKeys.FirstFreeIsFirst | backend/app/worker/pipeline.py:764-774 | the search stops at the first counter whose key is free |
| TrackKeys.Allocate | backend/app/worker/pipeline.py:759-774 | the open-ended search ends for every set of taken keys, with the first free key |
| PipelineJob.Job.constructor | backend/app/worker/pipeline.py:504-536 | a run starts with empty dictionaries, session and counters |
| PipelineJob.Job.CommitEvent | backend/app/worker/pipeline.py:539-576 | one row goes to the session, with the event's own timestamp and the employee known now |
| PipelineJob.Job.CommitList | backend/app/worker/pipeline.py:599-606 | a list of pending events becomes rows one after the other, each counted |
| PipelineJob.Job.FlushPendingEventsIfReady | backend/app/worker/pipeline.py:578-608 | nothing happens before the track is stable; then all pending events are committed in time order |
| PipelineJob.Job.FinalizeTrackRuntime | backend/app/worker/pipeline.py:610-648 | one summary row, the track forgotten everywhere; removing the first tracker id found removes every one |
| PipelineJob.Job.ForgetKey | backend/app/worker/pipeline.py:644-648 | the loop with its break leaves exactly the ids of other keys |
| PipelineJob.Job.SettlePendingEvents | backend/app/worker/pipeline.py:1093-1124 | pending events at a track's end: committed if stable at the last sighting, otherwise settled one by one |
| PipelineJob.Job.DropOrCommit | backend/app/worker/pipeline.py:1111-1123 | weak entries are counted as dropped, strong events committed, other exits given up uncounted |
| PipelineJob.Job.ReleaseHeldExit | backend/app/worker/pipeline.py:1093-1159 | a held track gets its inferred exit row, and ends |
| PipelineJob.Job.EndTrack | backend/app/worker/pipeline.py:1227-1255 | a track that is not held gets the row of its final event, if any, and ends |
| PipelineJob.Job.ExpireTrack | backend/app/worker/pipeline.py:1074-1255 | a missing track: wait for the grace, release, hold, or end |
| PipelineJob.Job.OpenHold | backend/app/worker/pipeline.py:1215-1225 | the inferred exit is remembered, not committed |
| PipelineJob.Job.ConcludeTrack | backend/app/worker/pipeline.py:1271-1372 | the end of the video for one track, held or not |
| PipelineJob.Job.AdmitTrack | backend/app/worker/pipeline.py:756-777 | the key of a detection: the live one, or a fresh one with a fresh runtime |
| PipelineJob.Job.Sight | backend/app/worker/pipeline.py:799-841 | a sighting cancels a hold, counts the hit and advances the door state |
| PipelineJob.Job.OfferEvent | backend/app/worker/pipeline.py:846-905 | first phase of the commit: a row at once, or a pending event |
| PipelineJob.Job.CollectContinued | backend/app/worker/pipeline.py:1025-1044 | the held tracks that a fresh lock may continue, in the order of the dictionary |
| PipelineJob.Job.MostRecentlyHeld | backend/app/worker/pipeline.py:1050-1051 | of several the first of the most recently held |
| PipelineJob.Job.CancelHeld | backend/app/worker/pipeline.py:1013-1057 | the one candidate, or with ambiguity allowed the most recent, ends without an exit |
| PipelineJob.Job.NameTrack | backend/app/worker/pipeline.py:983-1011 | the lock, the flush, and the back-fill of the rows the database can see |
| PipelineJob.Job.CancelByIdentity | backend/app/worker/pipeline.py:1052-1057 | a merge ends the old track and takes its pending events with it |
| PipelineJob.Job.ProbeFace | backend/app/worker/pipeline.py:913-1057 | whether a probe is due, and all that it leads to |
| PipelineJob.Job.ProcessDetection | backend/app/worker/pipeline.py:723-1057 | one detection, from its key to its identity |
| PipelineJob.Job.FindMissing | backend/app/worker/pipeline.py:1065-1072 | the tracks missing for longer than their time to live |
| PipelineJob.Job.ExpireMissing | backend/app/worker/pipeline.py:1074-1255 | all of them, one after the other, from a sound state to a sound state |
| PipelineJob.Job.ProcessFrame | backend/app/worker/pipeline.py:721-1260 | one detector frame, with the periodic commit |
| PipelineJob.ProcessVideo | backend/app/worker/pipeline.py:504-1374 | the mutable pipeline computes exactly the run of its frames and the end of the video |
| PipelineRuns.EveryReachableStateIsSound | backend/app/worker/pipeline.py:651-1260 | the invariant over keys, rows, holds and counters holds after every sequence of frames |
| PipelineRuns.ReturnedStateIsSound | backend/app/worker/pipeline.py:1269-1374 | it holds at return, with no live track and nothing unflushed |
| PipelineSightings.EverySightingShows | backend/app/worker/pipeline.py:723-1057 | every detection of every run: the key it goes to; its track with one more observation, its times, zones and hits; which events of the engine are written now, in which order, and which wait; every row of the track naming its employee; all other tracks unchanged, but the one that is taken away with its summary and its pending events; and the counters |
| PipelineIdentity.EveryDetectionShows | backend/app/worker/pipeline.py:912-1057 | every detection of every run: when a probe is due and whom it names; a held track ends without an exit exactly when this detection locks, inside and near the door, an employee for whom it is held, with confidence at least the minimum and no later than the grace after its hold began; with the uniqueness guard it is the only such track, otherwise the one held last, the first in order of several; and when there is such a track it is ended |
| PipelineIdentity.EveryMergeHasALock | backend/app/worker/pipeline.py:1013-1057 | over every run: each key that was merged away was so at such a detection |
| PipelineIdentity.VideoEndMergesNothing | backend/app/worker/pipeline.py:1269-1374 | the end of the video merges nothing |
| PipelineFates.EveryFrameEndShows | backend/app/worker/pipeline.py:1060-1260 | the end of every frame of every run, for every key: a track not seen in the frame, its last sighting longer ago than the time to live, waits if it is held and within its grace, ends with its exit if the grace is over, is held from now with its inferred exit if it ended inside, and ends otherwise; its row, its summary and what it gives up are spelled out; every other key is unchanged; fewer than two hundred writes are left uncommitted |
| PipelineFates.EveryVideoEndShows | backend/app/worker/pipeline.py:1269-1374 | the end of the video, for every key: a live track ends with its summary, its inferred exit and its losses, a held one marked so; every other key is unchanged; nothing stays unflushed |
| PipelineSummaries.SummariesTell | backend/app/worker/pipeline.py:610-648 | every summary row at return has the first and last sighting of its track, the first zone that was known, and the last zone |
| PipelineTheorems.PendingIsUnstable | backend/app/worker/pipeline.py:846-908 | between frames a live track with pending events is unstable at its own last sighting and holds no strong event |
| PipelineGrace.FrameEndsCommitNothing | backend/app/worker/pipeline.py:1060-1255 | over any run, the ends of tracks in a frame, after its detections, commit nothing that was pending and write no row but inferred exits: the stable-end and strong-at-end commits never fire |
| PipelineGrace.VideoEndCommitsNothing | backend/app/worker/pipeline.py:1269-1374 | nor does the end of the video |
| PipelineTheorems.EndsCommitNothingPending | backend/app/worker/pipeline.py:1093-1124 | the settlement of pending events at a track's end, in any sound state, within a frame too, adds no row and leaves nothing pending |
| PipelineReport.NothingIsEverPending | backend/app/worker/pipeline.py:813-908 | if no event may wait, for instance because the hits needed do not exceed the debounce length or the two-phase commit is off, nothing is ever enqueued, pending, flushed, dropped or lost |
| PipelineLosses.NothingWaitsExactly | backend/app/worker/pipeline.py:813-908 | that is so in every run if and only if the configuration lets no event wait: the guard over switch, hits, age, debounce length and inference flags |
| PipelineReport.ShippedHoldsNothingBack | backend/app/worker/pipeline.py:61-127 | with the shipped settings the two-phase commit never holds an event back |
| PipelineTheorems.EveryEventOnce | backend/app/worker/pipeline.py:539-608 | at the end every event the engine emitted for a key is one row with its own time, or one that was given up, as multisets; every strong one is a row exactly as often as it was emitted |
| PipelineTheorems.EveryEventSoFar | backend/app/worker/pipeline.py:846-908 | after any frames every event of a key is a row, pending or given up, as multisets, and a strong one is a row as soon as it is observed |
| PipelineTheorems.ReportAddsUpExactly | backend/app/worker/pipeline.py:524-536 | of one run: enqueued = flushed + dropped in the report if and only if no exit was discarded by an unstable end and no merge took events along |
| PipelineReport.EveryLossIsAllowed | backend/app/worker/pipeline.py:1050-1123 | over every run an exit is discarded, and an event lost to a merge, only if the configuration lets it: enough sightings fit before stability, within the age and the cooldown |
| PipelineLosses.SomeRunDiscards | backend/app/worker/pipeline.py:1111-1123 | wherever the configuration lets an exit wait, a run that discards one |
| PipelineLosses.SomeRunMergesAway | backend/app/worker/pipeline.py:1050-1057 | wherever it lets a held track with a waiting event be merged, a run that loses the event so |
| PipelineLosses.EveryReportAddsUpExactly | backend/app/worker/pipeline.py:524-536 | the counters add up in every run if and only if no exit may wait and no held track with an event that may wait can be merged, conditions on the configuration alone |
| PipelineTheorems.RowsNameTheirTrack | backend/app/worker/pipeline.py:983-1011 | between frames every event row, flushed or not, names the employee of the live track or the one summary row with its key |
| PipelineTheorems.CommittedRowsNameTheirTrack | backend/app/worker/pipeline.py:1269-1374 | so does every row in the table at the end of the run |
| PipelineTheorems.BackfillNeedsFlush | backend/app/worker/pipeline.py:991-1011 | with the flush the bulk update names all rows of the key; without it if and only if none of them waits in the session (no autoflush) |
| PipelineTheorems.ExitConservation | backend/app/worker/pipeline.py:799-806 | holds started = canceled + committed + still open, after any frames |
| PipelineTheorems.EveryHoldIsSettled | backend/app/worker/pipeline.py:1308-1340 | at return none is open |
| PipelineTheorems.OneInferredExitPerKey | backend/app/worker/pipeline.py:1080-1159 | a finished key has the inferred exit of its own observations, once, with its date; a merged one, or one that infers none, has none |
| PipelineTheorems.GraceIsRespected | backend/app/worker/pipeline.py:1080-1091 | in any sound state, within a frame too: a held missing track ends only later than time to live and grace together after its last sighting, and until then waiting changes nothing |
| PipelineGrace.ExitsAwaitTheirGrace | backend/app/worker/pipeline.py:1080-1159 | over any frames: a row committed after a grace, and with the grace window on any inferred end, belongs to a track that has ended and was last seen longer ago than time to live and grace together; a track that is still live has no such row |
| PipelineTheorems.KeysAreUnique | backend/app/worker/pipeline.py:506-511 | between frames, and within each after any number of its detections: live keys are the values of an injective map from tracker ids, disjoint from used ones, and no key has two summary rows |
| PipelineTheorems.OneSummaryRowPerKey | backend/app/worker/pipeline.py:1269-1374 | at return, when every track has been written, no two summary rows share a key |
| PipelineTheorems.SearchNeverRetries | backend/app/worker/pipeline.py:764-774 | after any frames and any number of detections of the next one the key search accepts its first candidate, and that key is neither live nor used |
| PipelineTheorems.InferredExitIsLatest | backend/app/worker/pipeline.py:1080-1159 | under every configuration a committed inferred exit is dated no earlier than any other row of its track |
| PipelineTheorems.RowsAreWithinTheirTrack | backend/app/worker/pipeline.py:539-648 | between frames every event row is dated between the first and the last sighting of its live track, or between the start and the end in its one summary row |
| PipelineTheorems.CommittedRowsAreWithinTheirTrack | backend/app/worker/pipeline.py:610-648 | so is every row at the end of the run, although events are dated back: what stitching takes for a track's start and end encloses its events |
| Stitching.FindUniqueStitchCandidate | backend/app/worker/reliability.py:202-255 | the loop finds the declared parent: the only candidate, or the one ending last and first listed; none otherwise |
| Stitching.RootFollowsTheDay | backend/app/worker/reliability.py:221-255 | from the employee, both confidences, the gap and both zones: with no earlier fitting tracklet a tracklet starts its chain; with exactly one it has the root of that one; with several it starts its chain if the choice must be unique, and otherwise has the root of the one that ends last, the first listed on a tie |
| Stitching.GroupStitchedTracklets | backend/app/worker/reliability.py:258-304 | the in-place relabelling, for every list, also one with repeated keys |
| Stitching.RelabellingComputesRoots | backend/app/worker/reliability.py:280-304 | every tracklet is labelled with the key of its root if and only if tracklets that share a key share the key of their root; what that says of sessions is the next row |
| Stitching.SessionsAreRootsExactly | backend/app/worker/reliability.py:258-304 | for every list: two tracklets are in one session exactly when their chains of parents start at the same one, if and only if tracklets that share a key are in one chain |
| Stitching.DistinctKeysAgree | backend/app/worker/reliability.py:281 | distinct keys are enough for that |
| Stitching.LabelsAreFixed | backend/app/worker/reliability.py:280-304 | a session is named by a tracklet of its own, its root |
| Stitching.SameSession | backend/app/worker/reliability.py:280-304 | two tracklets are in one session if and only if their chains of parents start at the same one |
| Stitching.EveryoneHasAParent | backend/app/worker/reliability.py:227-255 | every other member continues a member of its session: same employee, both locks good, gap short, inside on both sides |
| Stitching.SessionsHaveOneEmployee | backend/app/worker/reliability.py:229-230 | a session never mixes employees |
| Stitching.SessionsAreFinest | backend/app/worker/reliability.py:258-304 | sessions are the finest grouping that keeps every tracklet with its parent |
| Stitching.SharedKeysJoinVisits | backend/app/worker/reliability.py:281-304 | keys are unique for one job only: on a day with two jobs two visits far apart end up in one session |
| Stitching.IterSessionGroups | backend/app/worker/reliability.py:307-314 | the groups of any labelling, by session |
| Stitching.GroupsPartition | backend/app/worker/reliability.py:307-314 | for every list, repeated keys or not: groups are disjoint, cover all keys, and each holds the key that names it |
| SessionPairing.PairSessions | backend/app/worker/rollup.py:30-58 | the loop returns the sessions of the pairing of the sorted events, and flags exactly its duplicates, unmatched exits and open entry |
| SessionPairing.PairingJumps | backend/app/worker/rollup.py:41-53 | the one-pass pairing is the jump from the next entry to the next strictly later exit, and on from there |
| SessionPairing.SessionsInOrder | backend/app/worker/rollup.py:41-53 | for any events: sessions strictly positive, one after the other, together no longer than from first to last event |
| SessionPairing.EveryEventAccountedFor | backend/app/worker/rollup.py:42-56 | entries = sessions + duplicates + open; exits = sessions + unmatched |
| SessionPairing.CleanExactly | backend/app/worker/rollup.py:42-58 | no anomaly if and only if the day alternates entry and strictly later exit to its end |
| SessionPairing.NoSessionExactly | backend/app/worker/rollup.py:42-53 | no session if and only if no exit comes strictly after an entry |
| AttendanceDay.OrderGroup | backend/app/worker/rollup.py:185-188 | the members of a group by start, ties in any order |
| AttendanceDay.CollectCut | backend/app/worker/rollup.py:179-195 | all but the first of each group lose their entries, all but the last are listed for their exits |
| AttendanceDay.WhatAKeyLoses | backend/app/worker/rollup.py:192-195 | where a key stands in its group decides in which of the two sets it is |
| AttendanceDay.RemovedExactly | backend/app/worker/rollup.py:197-213 | an event is removed if and only if it is inferred and either the first-seen entry of a later member or the track-end exit of the first member; nothing observed is removed; members stand in the order of their starts |
| AttendanceDay.SuppressionCommutes | backend/app/worker/rollup.py:213 | suppressing before or after sorting is the same |
| AttendanceDay.StitchedVisit | backend/app/worker/rollup.py:197-213 | a visit broken into n stretches: stitching pairs the first entry with the exit of the second and leaves n-2 exits unmatched; it becomes one session if and only if n is two; the total grows by the first gap and loses the later stretches |
| BrokenVisits.BrokenVisitDay | backend/app/worker/rollup.py:177-292 | the row of a day that contains a visit recorded in n tracks of one group, in the order the program took them, among any other tracks; its events stand together in the sorted events, with any others before and after: the sessions before it, its first entry joined with its second exit, the sessions after it; n-2 exits more are unmatched; total and anomalies of the row are those |
| AttendanceDay.PunchIn | backend/app/worker/rollup.py:216-230 | earliest observed entry; without one the earliest inferred one, flagged |
| AttendanceDay.PunchOut | backend/app/worker/rollup.py:233-249 | latest observed exit; without one the latest inferred one, flagged |
| AttendanceDay.FindCut | backend/app/worker/rollup.py:160-195 | sorting, relabelling, grouping and ordering put together |
| AttendanceDay.RecomputeDay | backend/app/worker/rollup.py:155-292 | the row of one employee's day, from its events: punch-in and punch-out, the notes on missing and inferred ones, the notes of pairing, and the whole minutes of the sessions or of the span |
| AttendanceDay.TotalFitsDay | backend/app/worker/rollup.py:268-275 | whatever is suppressed, the total is never negative and never exceeds the time between any bounds of the events |
| AttendanceDay.AbsentExactly | backend/app/worker/rollup.py:255-257 | absent if and only if there is no event |
| AttendanceDay.SpanOnlyWhenSuppressed | backend/app/worker/rollup.py:268-277 | without suppression the total always comes from sessions: the punch-to-punch branch is dead |
| BrokenVisits.BrokenOnce | backend/app/worker/rollup.py:177-292 | a track that breaks once inside, its events together in the day and nothing open before them: relabelling, grouping, suppression and pairing together give one session from first entry to last exit; where nothing else is suppressed the day comes to exactly the gap more than unstitched |
| BrokenVisits.ChainIsOneGroup | backend/app/worker/rollup.py:177-188 | tracks of which each but the first continues another one are one group in the order of their starts, however many |
| BrokenVisits.BrokenTwice | backend/app/worker/rollup.py:197-213 | a visit of three minutes in three tracks that the program, whatever order it takes, counts as two, with an exit without entry |
| SqlLexer.Scan | backend/alembic/versions/000000000000_baseline_squash.py:53-173 | the index loop with flags and look-ahead returns the statements of the character machine, for every script |
| SqlLexer.Step | backend/alembic/versions/000000000000_baseline_squash.py:65-168 | one iteration keeps flags and machine in step over the one, two or tag-length characters it takes; the index grows |
| SqlLexer.TagEnd | backend/alembic/versions/000000000000_baseline_squash.py:142-146 | where the tag characters end |
| SqlLexer.OpensTag | backend/alembic/versions/000000000000_baseline_squash.py:142-155 | a dollar sign opens a tag if and only if its tag characters end in another one |
| SqlLexer.InsideDollar | backend/alembic/versions/000000000000_baseline_squash.py:84-95 | only the exact tag closes a dollar quote |
| SqlRoundTrip.PiecesJoin | backend/alembic/versions/000000000000_baseline_squash.py:158-173 | the unstripped pieces joined with semicolons are the script |
| SqlRoundTrip.SplitJoined | backend/alembic/versions/000000000000_baseline_squash.py:53-173 | any list of splittable statements joined with a semicolon on its own line splits into itself |
| SqlRoundTrip.KeptAreSplittable | backend/alembic/versions/000000000000_baseline_squash.py:158-173 | stripped pieces stay splittable: white space never leads out of a quote or a block comment |
| SqlRoundTrip.StatementsRoundTrip | backend/alembic/versions/000000000000_baseline_squash.py:53-173 | so splitting, joining and splitting again gives the same statements, for every script |
| SqlRoundTrip.SplitSql | backend/alembic/versions/000000000000_baseline_squash.py:31-173 | the whole function, with its line filter |
| SqlRoundTrip.CleanIsSafe | backend/alembic/versions/000000000000_baseline_squash.py:46-51 | after the filter no line starts with a backslash |
| SqlRoundTrip.CleanOfSafe | backend/alembic/versions/000000000000_baseline_squash.py:46-51 | the filter leaves such text alone |
| SqlRoundTrip.SplitRoundTripExactly | backend/alembic/versions/000000000000_baseline_squash.py:31-173 | for the whole function the round trip holds if and only if no returned statement starts with a backslash |
| SqlRoundTrip.BackslashStatement | backend/alembic/versions/000000000000_baseline_squash.py:46-51 | a script whose statement is lost on the second pass |
| SqlTokens.PiecesAreReadExactly | backend/alembic/versions/000000000000_baseline_squash.py:53-173 | every script can be read in exactly one way as quotes, comments, dollar quotes with tags of letters, digits and underscores, single characters, and semicolons; the machine's pieces are the texts between those semicolons |
| SqlTokens.StatementsAreRead | backend/alembic/versions/000000000000_baseline_squash.py:158-173 | so the statements are those texts, stripped, without the empty ones |
| SqlTokens.LineByLine | backend/alembic/versions/000000000000_baseline_squash.py:46-51 | lines end at any line break, a carriage return and a line feed together being one |
| SqlTokens.LastLine | backend/alembic/versions/000000000000_baseline_squash.py:46-51 | a last line without an end counts, unless it is empty |
| Screening.MergeViews | backend/app/hr/tasks.py:570-597 | for every resume retrieved: its best score over the rows, and the first view that has it |
| Screening.Rank | backend/app/hr/tasks.py:599-600 | the merged candidates by score, then identifier |
| Screening.CutOffIsLower | backend/app/hr/tasks.py:574-597 | a score that a view's limit cut off is no better than the first k ranks |
| Screening.TopIsExact | backend/app/hr/tasks.py:574-603 | in the first k ranks the recorded score is the true best over all views |
| Screening.GlobalTop | backend/app/hr/tasks.py:570-603 | the first m ranks, m at most k, are an exact global top: true best scores, and no resume left out, retrieved or not, has a better one; with fewer than k ranked none is missing |
| Screening.GlobalTopInDistances | backend/app/hr/tasks.py:574-603 | the same in distances: each of the first m ranks has a least distance d over all views, attained in the view it records, and the score 1 - d, or 0 from distance 1 on; a nearer one ranks first, equals by identifier; no view of a resume left out is nearer |
| Screening.ScorePool | backend/app/hr/tasks.py:677-703 | blended scores, or the clamped retrieval scores |
| Screening.Shortlist | backend/app/hr/tasks.py:677-714 | the best of the pool by final score, in order |
| Screening.Select | backend/app/hr/tasks.py:570-714 | the whole selection |
| Screening.ShortlistFollowsScores | backend/app/hr/tasks.py:706-714 | with a reranker: as many different candidates as asked for and there, by blended score, then retrieval score, then identifier, and nobody of the pool left out comes before one of them |
| Screening.FallbackIsGlobalTop | backend/app/hr/tasks.py:677-714 | without the reranker a shortlist no longer than k is the exact global top, and its final scores are 1 - d between 0 and 1 |
| TrimmedMean.TrimCountIsFloor | backend/app/face_system/utils.py:164-168 | the repair of a too large count never fires; something is always kept |
| TrimmedMean.KeptWithinExactly | backend/app/face_system/utils.py:170-172 | all averaged values lie in the bounds if and only if no more lie outside, at either end, than are cut off there |
| TrimmedMean.ColumnIsAverage | backend/app/face_system/utils.py:157-173 | a coordinate of the result, as a plain average: in ascending order the whole part of the share, at most 49 percent, is dropped at each end, and the result times the number of the others is their sum |
| TrimmedMean.TrimColumnWithin | backend/app/face_system/utils.py:164-173 | up to k wild values on either side do not move the result out of the range of the rest |
| TrimmedMean.Robust | backend/app/face_system/utils.py:148-173 | so in every coordinate |
| TrimmedMean.OrderDoesNotMatter | backend/app/face_system/utils.py:148-177 | the order of the vectors does not matter: the same refusal, or the same vector |
| Leaderboard.RankRows | backend/app/mobile/service.py:68-104 | fresh rows in input order, ranked overall and in every department by position in the sorted order |
| Leaderboard.RankDepartment | backend/app/mobile/service.py:99-102 | ranking one department leaves the ranks of the others |
| Leaderboard.GroupByDepartment | backend/app/mobile/service.py:95-97 | the rows of each department, in input order |
| Leaderboard.OverallIsBijection | backend/app/mobile/service.py:89-92 | overall ranks are 1 to n, each exactly once |
| Leaderboard.OverallFollowsKey | backend/app/mobile/service.py:53-59 | of two rows the one listed first has the better rank if and only if its key is at least as good: sales, bills, customers, what is missing as zero, then the employee code; so ties keep their order |
| TextOrder.FirstDifferenceDecides | backend/app/mobile/service.py:53-59 | text is compared as the program's language does: a prefix first, otherwise by the first difference |
| Leaderboard.DepartmentRankCounts | backend/app/mobile/service.py:89-102 | the rank in the department is one more than the number of its rows that rank better overall, ties included |
| Leaderboard.BuildLeaderboards | backend/app/mobile/service.py:107-158 | boards for exactly the departments that occur, and overall, each the ranked rows up to its limit |
| Leaderboard.BoardsShowRanks | backend/app/mobile/service.py:112-158 | the entry at a rank shows the row that has that rank, overall or in the department, with its sales; a negative limit leaves out the last ones |
| TaskAssigner.MeetsRequiredSkills | backend/app/work/service.py:387-399 | true if and only if every required skill is held at its minimum |
| TaskAssigner.BaseSkillScore | backend/app/work/service.py:402-422 | proficiency times confidence, over the listed skills that are met |
| TaskAssigner.ScoreEmployee | backend/app/work/service.py:337-383 | a score for an eligible employee, none for another |
| TaskAssigner.ScoreCandidates | backend/app/work/service.py:336-385 | the eligible employees in query order |
| TaskAssigner.CandidatesAreEligible | backend/app/work/service.py:336-385 | candidates are exactly the eligible employees with their scores, each once |
| TaskAssigner.BestIsUnique | backend/app/work/service.py:425-446 | the choice is the one candidate strictly before all others in the five-key order |
| TaskAssigner.BestIgnoresOrder | backend/app/work/service.py:425-446 | the order of the candidates does not matter |
| TaskAssigner.AutoTaskAssigner.Assign | backend/app/work/service.py:123-181 | one task: assigned to the best candidate, or nothing changes |
| TaskAssigner.AutoTaskAssigner.AssignPending | backend/app/work/service.py:69-121 | the loop with its counters |
| TaskAssigner.TotalAddsUp | backend/app/work/service.py:84-121 | total = assigned + skipped + no eligible, and one new row for each assigned |
| TaskAssigner.ChosenIsBest | backend/app/work/service.py:148-172 | a pending task that somebody can do goes, with the score, to a listed employee who can do it (present or unknown, not gone, every required skill at its minimum) and who wins against every other one who can: higher score, higher skill sum, fewer assignments on hand, smaller code, smaller identifier, each number spelled out |
| TaskAssigner.LeftAloneExactly | backend/app/work/service.py:143-160 | a task is left as it is if and only if it is not pending or nobody can do it |
| TaskAssigner.EveryVisitShows | backend/app/work/service.py:84-121 | every visit of a run: skipped, without an eligible employee, or assigned, and why |
| TaskAssigner.EveryChoiceIsBest | backend/app/work/service.py:69-172 | over a run: every new assignment is automatic and went to such an employee, with the score and the workloads of the moment its task came up |
| TaskAssigner.RunExtends | backend/app/work/service.py:69-121 | a run only appends assignments for tasks that had none and makes those tasks assigned |
| TaskAssigner.AutoOnceIsKept | backend/app/work/service.py:92-103 | no task ever gets a second automatic assignment |
| TaskAssigner.SecondRunIsIdle | backend/app/work/service.py:76-80 | a second run over the same employees, skills and attendance assigns nothing and changes nothing, although workloads changed |
| Outbox.StepIsSound | backend/app/worker/notification_worker.py:57-222 | every step of every worker keeps tables and transactions consistent |
| Outbox.EveryStateIsSound | backend/app/worker/notification_worker.py:57-222 | in every interleaving |
| Outbox.WhatHoldsAlways | backend/app/worker/notification_worker.py:66-209 | no row in two transactions; no outbox row with two notifications; sent if and only if notified; pending means fewer than five attempts, failed means five |
| Outbox.TerminalRowsStay | backend/app/worker/notification_worker.py:143-182 | sent and failed rows never change, and no notification is lost |
| Outbox.CommitProgress | backend/app/worker/notification_worker.py:93-209 | a committed batch uses up at least one try for every row it claimed |
| Outbox.WorkIsBounded | backend/app/worker/notification_worker.py:25 | over any run, rows are handled in committed batches at most five times as often as rows were enqueued |
| OutboxTries.BrokenBatchNeverCommits | backend/app/worker/notification_worker.py:212-222 | whatever all workers do, until its worker rolls back a broken batch stays as it is, and so do the rows it claimed and their notifications |
| Outbox.PoisonedRowStays | backend/app/worker/notification_worker.py:156-182 | a row that breaks its transaction whenever it is handled never gets an attempt more |
| OutboxTries.TriedWithoutEnd | backend/app/worker/notification_worker.py:212-222 | and it is tried without end: for every n a run tries one row n times and leaves it pending with no attempt counted |
| OutboxTries.TriesOfARow | backend/app/worker/notification_worker.py:90-222 | in every run and for every row: tries = attempts that raised + deliveries + tries rolled back + the try in flight; not counting the rolled-back ones at most five |
| OutboxTries.FiveTriesWithoutRollback | backend/app/worker/notification_worker.py:25 | in a run without a rollback every row is tried at most five times |
| Outbox.WaitsDouble | backend/app/worker/notification_worker.py:159-164 | waits are 5, 10, 20, 40 seconds; the cap of sixty is never reached |
| Outbox.Database.ConsumeBatch | backend/app/worker/notification_worker.py:90-209 | the batch loop, its counters, and when it raises |
| Outbox.Database.ConsumeOnce | backend/app/worker/notification_worker.py:212-222 | claim, handle, and commit or roll back |
| Outbox.OneCall | backend/app/worker/notification_worker.py:212-222 | a call that commits: one new notification for every row delivered, one try used for every row claimed |
| OutboxClaims.EveryClaim | backend/app/worker/notification_worker.py:66-88 | every claim of every run: at most the limit, older rows first, each pending, in no other transaction, tried fewer than five times, and never before 5, 10, 20 or 40 seconds after the start of the claim that tried it last; a row that is ready is passed over only for older ones that fill the limit |
| OutboxClaims.OneCallRowByRow | backend/app/worker/notification_worker.py:90-209 | a call that commits, row by row: sent, or one attempt more with its wait, or failed at the fifth; no other row changes; the new notifications are those of the rows delivered |

## Left out

- Video decoding, motion, person detection, tracking, box filters, face embedding and snapshots: their results are the detections; the geometry of `backend/app/worker/zones.py` is the zone, side and gate of an observation.
- Errors that end a pipeline run early, progress callbacks, and the cancellation signal as such: a canceled run is the run of the frames read so far.
- Event fields other than time, kind, key, employee, confidence, inference flag and reason: `meta` keeps its reason and whether a held exit came after the grace or at the end of the video; the flush latencies of the report are not kept.
- Runtimes are values in a dictionary that the job replaces, not shared objects: aliasing between a runtime and the loop variable that names it is not modelled. The loops of `PipelineJob` are split into more methods than the source has.
- Rounding of times: frame times and second-valued limits are exact here; with a ticking clock frames may be as little as a microsecond apart, and no frame rate is assumed.
- Leaderboard.RankRows: the text normalisation of department names is any function from department to text.
- Stitching.FindUniqueStitchCandidate: zones are the three values that the pipeline writes, so the case folding of zone names is not modelled.
- AttendanceDay.RecomputeDay: the counts of stitched tracklets and groups are kept as one flag, and the upsert of the row and the query for active employees are not modelled.
- SqlLexer.Scan: which characters count as letters and digits is any classification that excludes white space and the splitter's own marks.
- Screening.ScorePool: reranking logits, sigmoid and weights are one abstract final score for each candidate; progress, cancellation and run status are not modelled.
- TrimmedMean.Robust: single precision rounding.
- TaskAssigner.ChosenIsBest: scores are exact reals; the lower-casing of employee codes is any function on text.
- TaskAssigner.AutoTaskAssigner.AssignPending: one run at a time; concurrent changes of tasks between the query and the loop are not modelled.
- Outbox.Database.ConsumeBatch: the parsing of payloads and the text of notifications are the outcome of a row; logging and the polling loop are not modelled.
- Hourly metrics, artifact export, import heuristics, authentication, scheduling, mobile synchronisation and the user interfaces.
