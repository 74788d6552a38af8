# MIDI playback engine and note extractor, modelled in Dafny

This project models the core of the Procedural-Midi plugin for Unreal Engine:

- **The playback engine** (`MidiProcessor`). It is a Stopped/Running state machine with
  one forward cursor per track. It keeps a tempo anchor (the tick and the time pinned at
  the last tempo change) and the current tempo in microseconds per quarter note (MPQN).
  It is loaded, started, stopped, reset, polled with the wall-clock time (`process`) and
  seeked (`processTo`). Each event it dispatches reaches the listener:
  - a Set Tempo event (FF 51 in the Standard MIDI File 1.0 specification) first re-pins
    the anchor under the old tempo;
  - a Time Signature event first flushes a metronome tick when it arrives off the first
    beat.
- **`MidiTrackEventQueue`**, the stand-alone cursor over one track. Each call hands out
  the run of events that have become due.
- **`UMidiComponent::GetMidiNotes`**, the batch note extractor. It takes the tempo events
  of track 0 as the tempo map and scans every other track with its own anchor. A
  velocity > 0 note-on opens a note. Each note-off (or velocity-0 note-on) closes the
  earliest open note with its channel and pitch. It returns the notes with start and
  length in seconds, sorted.
- **`FMidiNote`**, with its constructors, its equality (same channel and pitch) and its
  ordering (by start, then channel, then pitch).

Modules, one per file:

- `MidiTypes` (`midi_types.dfy`): events, tracks, files and the listener's callbacks.
- `TempoMath` (`tempo_math.dfy`): the tick/time conversion shared by the engine and the
  extractor. A `Clock` is an anchor plus a tempo. `TimeAt`, `Repin`, `MsToTicks`,
  `TicksAt` and `Replay` are defined there.
- `TrackQueue` (`track_queue.dfy`): `DueEnd`, where a cursor stops when it dispatches
  everything due by a tick, and the `MidiTrackEventQueue` class.
- `Metronome` (`metronome.dfy`): a stand-in for `MetronomeTick`, whose source is not part
  of this model.
- `EngineState` (`engine_state.dfy`): the engine's fields as a value (`Snapshot`) and the
  meaning of a drain (`Drained`), with the lemmas that connect the drain loop to it.
- `Processor` (`processor.dfy`): the `MidiProcessor` class.
- `MidiNote` (`midi_note.dfy`): `FMidiNote` and the in-place sort.
- `NoteExtractor` (`note_extractor.dfy`): `GetMidiNotes`, its loops, and the functions that
  specify them.
- `SeqFacts` (`seq_facts.dfy`): three small sequence facts used by the proofs.

Modelling choices:

- Time is an exact `real`.
- The listener is the ghost field `trace`, the list of callbacks it has received.
- The wall clock is a parameter `now`, in milliseconds.
- A file is an immutable value with a resolution (PPQ) and a list of tracks.

The methods are proved against specification functions. `Drained` states what a drain
does:

- each cursor stops at the end of its due run;
- the listener receives exactly the passed-over events, track by track, each once;
- the clock replays the tempo events among them;
- the engine stops, with a single `onStop(true)`, exactly when every track is exhausted.

`Notes` states what the extractor collects.

`MidiUtil::msToTicks` is not part of this model. `TempoMath.MsToTicks` assumes it is
`ms * 1000 / MPQN * PPQ`, the inverse of the time formula `dispatch` uses
(`TempoMath.TimeAtMsToTicks` proves the two agree).

`process()` recomputes the elapsed ticks from all the milliseconds since the session
started, under the tempo in force now, and not from the anchor. The model keeps this.
A drain keeps the count it was given while it may dispatch a tempo change.
`EngineState.PolledCountCanFall` shows that the next effective poll then sets a lower count
whenever the tempo grew by a larger factor than the milliseconds did.
`TempoMath.PolledTicksCanRunBackwards` is a numeric instance of this arithmetic.

`processTo()` measures from the anchor. Under one clock, a later seek time never aims at
an earlier tick (`TempoMath.TicksAtMonotone`). Across seeks this does not hold, because a
seek dispatches tempo events and each one re-pins the clock. The target is computed once,
under the clock in force before the drain, so a seek past a slowdown overshoots. The events
it dispatches up to the target then lie later than the requested time on the re-pinned
clock (`TempoMath.SlowdownDelaysTime`). `TempoMath.SeekTargetCanMoveBack` gives numbers: at
480 PPQ with a change to 1,000,000 MPQN at tick 480, a seek to 1.0 s dispatches up to tick
960, which is at 1.5 s. A second seek to 1.0 s then aims at tick 720.

## Model

Paths are abbreviated in the prose above. The table gives them in full.

| member | source | states |
|---|---|---|
| TempoMath.Repin | Procedural-Midi/MidiAsset/Source/Midi/Classes/Util/MidiProcessor.cpp:108-111 | a tempo change moves the anchor to the event's tick with the time the old tempo gives there, then adopts the new tempo; the time of that tick is unchanged (time is continuous at the change) |
| TempoMath.NewTempoFirstBreaksContinuity | Procedural-Midi/MidiAsset/Source/Midi/Classes/Util/MidiProcessor.cpp:108-111 | adopting the new tempo before re-pinning keeps the breakpoint's time if and only if the breakpoint is the anchor or the tempo does not change, so the order of the three writes matters |
| TempoMath.TruncMs | Procedural-Midi/MidiAsset/Source/Midi/Classes/Util/MidiProcessor.cpp:186 | the `(long)` cast of seconds * 1000: whole milliseconds truncated toward zero, within one millisecond of the exact value, for both signs |
| TempoMath.TimeAtMsToTicks | Procedural-Midi/MidiAsset/Source/Midi/Classes/Util/MidiProcessor.cpp:108 | the ticks that msToTicks gives for `ms` milliseconds past the anchor map back, under the dispatch time formula, to exactly the anchor time plus ms / 1000 |
| TempoMath.TicksAtWholeMs | Procedural-Midi/MidiAsset/Source/Midi/Classes/Util/MidiProcessor.cpp:186 | a seek to a whole number of milliseconds past the anchor aims at the tick whose time is exactly the requested time |
| TempoMath.TimeAtTicksAtWithin | Procedural-Midi/MidiAsset/Source/Midi/Classes/Util/MidiProcessor.cpp:186 | at or after the anchor, the tick that processTo aims at lies at most one millisecond before the requested time and never after it |
| TempoMath.TicksAtMonotone | Procedural-Midi/MidiAsset/Source/Midi/Classes/Util/MidiProcessor.cpp:186 | under one clock, a later seek time never aims at an earlier tick |
| TempoMath.SlowdownDelaysTime | Procedural-Midi/MidiAsset/Source/Midi/Classes/Util/MidiProcessor.cpp:105-116 | after a tempo change to a slower tempo, every later tick is at a later time than the clock before the change gave it, so a target computed before the change overshoots |
| TempoMath.SeekTargetCanMoveBack | Procedural-Midi/MidiAsset/Source/Midi/Classes/Util/MidiProcessor.cpp:186-199 | at 480 PPQ with a change to 1,000,000 MPQN at tick 480, a seek to 1.0 s aims at tick 960; after the change tick 960 is at 1.5 s, and a second seek to 1.0 s aims at tick 720 |
| TempoMath.PolledTicksCanFall | Procedural-Midi/MidiAsset/Source/Midi/Classes/Util/MidiProcessor.cpp:151-153 | whenever the tempo in force grew by a larger factor than the milliseconds since start, the recomputed count is below the previous one |
| TempoMath.PolledTicksCanRunBackwards | Procedural-Midi/MidiAsset/Source/Midi/Classes/Util/MidiProcessor.cpp:141-153 | an arithmetic example: at 480 PPQ with a change to 1,000,000 MPQN at tick 480: 504 ms reach tick 483.84 at the default tempo, the next poll 8 ms later computes 245.76 ticks at the new tempo, while the anchored count is 485.76 |
| TempoMath.TimeAtMonotone | Procedural-Midi/MidiAsset/Source/Midi/Classes/Util/MidiProcessor.cpp:108 | under a positive tempo, a later tick is never at an earlier time |
| TempoMath.ReplayWithoutTempo | Procedural-Midi/MidiAsset/Source/Midi/Classes/Util/MidiProcessor.cpp:105-116 | events that are not tempo events leave the anchor and the tempo alone |
| TempoMath.ReplayAppend | Procedural-Midi/MidiAsset/Source/Midi/Classes/Util/MidiProcessor.cpp:156-167 | dispatching two runs one after the other leaves the clock that dispatching their concatenation leaves |
| TempoMath.ReplayKeepsTempoPositive | Procedural-Midi/MidiAsset/Source/Midi/Classes/Util/MidiProcessor.cpp:111 | a positive tempo stays positive through events whose tempos are positive |
| TrackQueue.DueEndIsDueRun | Procedural-Midi/MidiAsset/Source/Midi/Classes/Util/MidiProcessor.h:81-101 | every event of the run is due by the tick, and the event that stops it, if any, is not |
| TrackQueue.DueEndSplit | Procedural-Midi/MidiAsset/Source/Midi/Classes/Util/MidiProcessor.h:77-104 | stopping at one tick and then going on to a later one ends where going straight to the later one ends, so successive calls skip and repeat nothing |
| TrackQueue.DueEndUnique | Procedural-Midi/MidiAsset/Source/Midi/Classes/Util/MidiProcessor.h:81-101 | a position from which every event is due and at which the next event is not is the stop position |
| TrackQueue.DueEndComplete | Procedural-Midi/MidiAsset/Source/Midi/Classes/Util/MidiProcessor.cpp:156-167 | on a track whose ticks never decrease, no event at or after the stop is due, so a drain leaves no due event behind |
| TrackQueue.MidiTrackEventQueue.constructor | Procedural-Midi/MidiAsset/Source/Midi/Classes/Util/MidiProcessor.h:67-75 | the cursor is at the start; there is a next event exactly when the track is non-empty, and it is the track's first event |
| TrackQueue.MidiTrackEventQueue.GetNextEventsUpToTick | Procedural-Midi/MidiAsset/Source/Midi/Classes/Util/MidiProcessor.h:77-104 | the buffer is refilled with the longest run of remaining events due by the tick, in track order; afterwards nothing remains or the next event is later; all results so far, concatenated, are the track's prefix up to the cursor |
| TrackQueue.MidiTrackEventQueue.HasMoreEvents | Procedural-Midi/MidiAsset/Source/Midi/Classes/Util/MidiProcessor.h:106-109 | true exactly when the cursor has not passed the track's end, that is, when not every event has been handed out |
| TrackQueue.MidiTrackEventQueue.Reset | Procedural-Midi/MidiAsset/Source/Midi/Classes/Util/MidiProcessor.h:111-117 | the cursor is back at the start and the next event of a non-empty track is its first one; the buffer is kept |
| EngineState.DispatchRecords | Procedural-Midi/MidiAsset/Source/Midi/Classes/Util/MidiProcessor.cpp:118-127 | dispatching an event forwards it exactly once and last; a metronome tick comes before it exactly when it is a time signature event arriving off the first beat |
| EngineState.RecordsRangeEvents | Procedural-Midi/MidiAsset/Source/Midi/Classes/Util/MidiProcessor.cpp:157-166 | whatever the metronome reports, the events a cursor's dispatches forward are exactly the run it passed over, in order |
| EngineState.TraceTracksEvents | Procedural-Midi/MidiAsset/Source/Midi/Classes/Util/MidiProcessor.cpp:156-167 | the events forwarded by the drain are the runs of all tracks, track by track |
| EngineState.ReplayTracksIsReplay | Procedural-Midi/MidiAsset/Source/Midi/Classes/Util/MidiProcessor.cpp:156-167 | the clock the drain builds track by track is the replay of all dispatched events in that order |
| EngineState.PolledCountCanFall | Procedural-Midi/MidiAsset/Source/Midi/Classes/Util/MidiProcessor.cpp:151-167 | when a poll set the count from its milliseconds and the drain that followed raised the tempo by a larger factor than the next poll's milliseconds grew, the next poll's count is below the count already reached |
| EngineState.DrainDone | Procedural-Midi/MidiAsset/Source/Midi/Classes/Util/MidiProcessor.cpp:156-177 | a drain of every track followed by the completion check satisfies `Drained` |
| Processor.MidiProcessor.constructor | Procedural-Midi/MidiAsset/Source/Midi/Classes/Util/MidiProcessor.cpp:11-21 | a constructed and loaded engine: stopped, nothing elapsed, anchor at (0, 0), default tempo, PPQ from the file, one cursor per track at its first event, a new metronome on the engine's signature, nothing heard by the listener |
| Processor.MidiProcessor.Load | Procedural-Midi/MidiAsset/Source/Midi/Classes/Util/MidiProcessor.cpp:30-51 | stopped, elapsed ticks and milliseconds zero, default tempo, PPQ from the file, a fresh metronome, one cursor per track at its first event; the anchor, the poll timestamps and the listener's record are unchanged |
| Processor.MidiProcessor.Start | Procedural-Midi/MidiAsset/Source/Midi/Classes/Util/MidiProcessor.cpp:53-64 | while running, nothing changes; otherwise running, both timestamps set to `now`, `onStart(msElapsed == 0)` heard, anchor zeroed, cursors and elapsed ticks kept |
| Processor.MidiProcessor.Stop | Procedural-Midi/MidiAsset/Source/Midi/Classes/Util/MidiProcessor.cpp:66-70 | not running, and the listener hears exactly `onStop(false)`; nothing else changes |
| Processor.MidiProcessor.Reset | Procedural-Midi/MidiAsset/Source/Midi/Classes/Util/MidiProcessor.cpp:72-89 | stopped, elapsed ticks, elapsed milliseconds, start time and anchor zeroed, metronome back on the engine's signature, every cursor at its track's first event, then `onStop(false)`; the tempo is kept |
| Processor.MidiProcessor.IsStarted | Procedural-Midi/MidiAsset/Source/Midi/Classes/Util/MidiProcessor.cpp:91-93 | true exactly when some ticks have elapsed |
| Processor.MidiProcessor.IsRunning | Procedural-Midi/MidiAsset/Source/Midi/Classes/Util/MidiProcessor.cpp:94-96 | the running flag |
| Processor.MidiProcessor.Dispatch | Procedural-Midi/MidiAsset/Source/Midi/Classes/Util/MidiProcessor.cpp:102-128 | the clock becomes the tempo re-pin of the old clock (unchanged for other events); the listener hears DispatchRecords of the event under the beat read before the signature changed; a time signature event rebinds the metronome, other events leave it untouched; nothing else changes |
| Processor.MidiProcessor.DispatchNext | Procedural-Midi/MidiAsset/Source/Midi/Classes/Util/MidiProcessor.cpp:158-162 | one cursor step: the event under the cursor is dispatched, its records are appended, the clock applies it, and that cursor alone moves by one |
| Processor.MidiProcessor.DispatchTrack | Procedural-Midi/MidiAsset/Source/Midi/Classes/Util/MidiProcessor.cpp:157-166 | one track's cursor moves to the end of its due run, dispatching that run in order, and no other cursor moves |
| Processor.MidiProcessor.Finished | Procedural-Midi/MidiAsset/Source/Midi/Classes/Util/MidiProcessor.cpp:169-174 | true exactly when every cursor is at its track's end |
| Processor.MidiProcessor.DrainTracks | Procedural-Midi/MidiAsset/Source/Midi/Classes/Util/MidiProcessor.cpp:156-167 | every cursor, in track order, has dispatched its due run; the clock and the listener's record are those of the runs in that order |
| Processor.MidiProcessor.DispatchDue | Procedural-Midi/MidiAsset/Source/Midi/Classes/Util/MidiProcessor.cpp:156-177 | the drain and completion check satisfy `Drained`: due runs dispatched once each in track order, the clock replayed, and a stop with one `onStop(true)` exactly when every track is exhausted |
| Processor.MidiProcessor.Process | Procedural-Midi/MidiAsset/Source/Midi/Classes/Util/MidiProcessor.cpp:130-179 | nothing changes when not running, or under 8 ms since the last effective poll, or under one tick at the current tempo; otherwise a metronome tick is heard if one fell, the timestamps and elapsed milliseconds are updated, the elapsed ticks are all the milliseconds at the current tempo, and the engine drains as `Drained` states |
| Processor.MidiProcessor.ProcessTo | Procedural-Midi/MidiAsset/Source/Midi/Classes/Util/MidiProcessor.cpp:181-210 | nothing changes when not running; otherwise the target is the anchor tick plus the ticks of the whole milliseconds since the anchor time, and the engine drains to it as `Drained` states |
| MidiNote.DefaultNote | Procedural-Midi/MidiAsset/Source/Midi/Public/MidiComponent.h:35-41 | start, length, value and channel are all zero |
| MidiNote.NewNote | Procedural-Midi/MidiAsset/Source/Midi/Public/MidiComponent.h:43-49 | start, value and channel from the arguments, length zero |
| MidiNote.SameKeyIsEquivalence | Procedural-Midi/MidiAsset/Source/Midi/Public/MidiComponent.h:51-54 | `==` is reflexive, symmetric and transitive, and ignores start and length |
| MidiNote.NoteLessIsStrictOrder | Procedural-Midi/MidiAsset/Source/Midi/Public/MidiComponent.h:56-61 | `<` is irreflexive, asymmetric and transitive |
| MidiNote.NoteLessIsTotalOnKeys | Procedural-Midi/MidiAsset/Source/Midi/Public/MidiComponent.h:56-61 | two notes are ordered one way or the other if and only if they differ in (start, channel, value); length plays no part |
| MidiNote.NoteLeqIsTotalPreorder | Procedural-Midi/MidiAsset/Source/Midi/Public/MidiComponent.h:56-61 | "not after" is total and transitive, so a list can be sorted by `<` |
| MidiNote.SortNotes | Procedural-Midi/MidiAsset/Source/Midi/Private/MidiComponent.cpp:209 | in place, the array ends sorted by `<` and is a permutation of what it held |
| NoteExtractor.TempoEventsMembers | Procedural-Midi/MidiAsset/Source/Midi/Private/MidiComponent.cpp:83-99 | the breakpoints are exactly the tempo events of track 0 |
| NoteExtractor.TempoEventsSorted | Procedural-Midi/MidiAsset/Source/Midi/Private/MidiComponent.cpp:88-99 | on a track whose ticks never decrease, the breakpoints come in tick order |
| NoteExtractor.CatchUpFollowsMap | Procedural-Midi/MidiAsset/Source/Midi/Private/MidiComponent.cpp:135-155 | catching up before an event applies exactly the breakpoints due by its tick, tempo changes at the same tick included, each by a re-pin under the old tempo, and stops at the first one that is not due |
| NoteExtractor.FindKey | Procedural-Midi/MidiAsset/Source/Midi/Private/MidiComponent.cpp:176 | the position found has the key's channel and pitch and no earlier open note has; -1 exactly when no open note matches, so the earliest-opened match is closed |
| NoteExtractor.RemoveAt | Procedural-Midi/MidiAsset/Source/Midi/Private/MidiComponent.cpp:180 | the open list loses exactly the closed note; the others keep their order |
| NoteExtractor.TrackFollowsMap | Procedural-Midi/MidiAsset/Source/Midi/Private/MidiComponent.cpp:135-155 | in a track whose ticks never decrease, started at the default tempo, the clock after an event is the tempo map's clock at that event's tick, whatever came before |
| NoteExtractor.MapTimeMonotone | Procedural-Midi/MidiAsset/Source/Midi/Private/MidiComponent.cpp:135-155 | on a tempo map of sorted breakpoints with positive tempos, a later tick is never at an earlier time, across any number of tempo changes |
| NoteExtractor.NoteTimesFollowMap | Procedural-Midi/MidiAsset/Source/Midi/Private/MidiComponent.cpp:158-201 | in such a track, every note-on, note-off and velocity-0 note-on is handled at the time the tempo map gives its tick, the same in every track |
| NoteExtractor.ScanTrackCount | Procedural-Midi/MidiAsset/Source/Midi/Private/MidiComponent.cpp:123-206 | open plus emitted notes grow by exactly the velocity > 0 note-ons; emitted notes are never taken back |
| NoteExtractor.ExtractCount | Procedural-Midi/MidiAsset/Source/Midi/Private/MidiComponent.cpp:102-207 | no more notes come out than velocity > 0 note-ons in tracks 1 and above; notes still open at a track's end are dropped |
| NoteExtractor.OnlyTemposOfTrackZeroMatter | Procedural-Midi/MidiAsset/Source/Midi/Private/MidiComponent.cpp:102 | track 0 is never scanned for notes: files that agree on the other tracks and on the tempo map give the same notes |
| NoteExtractor.TracksIndependent | Procedural-Midi/MidiAsset/Source/Midi/Private/MidiComponent.cpp:102-112 | with every track starting at the default tempo, each track adds exactly the notes it yields on its own, whatever tracks come before it |
| NoteExtractor.TempoLeaksAcrossTracks | Procedural-Midi/MidiAsset/Source/Midi/Private/MidiComponent.cpp:79 | as written, the tempo carried over from track 1 makes a track-2 note that ends at tick 480 (0.5 s on the tempo map) come out 1.0 s long |
| NoteExtractor.DefaultTempoPerTrack | Procedural-Midi/MidiAsset/Source/Midi/Private/MidiComponent.cpp:111-112 | on the same file, with the default tempo at each track start, that note is 0.5 s long, as its track alone gives |
| NoteExtractor.CollectTempos | Procedural-Midi/MidiAsset/Source/Midi/Private/MidiComponent.cpp:83-99 | the loop over track 0 collects exactly its tempo events, in order |
| NoteExtractor.CatchUpTempo | Procedural-Midi/MidiAsset/Source/Midi/Private/MidiComponent.cpp:135-155 | the catch-up loop over the track's locals and the -1 cursor sentinel computes CatchUp |
| NoteExtractor.HandleEvent | Procedural-Midi/MidiAsset/Source/Midi/Private/MidiComponent.cpp:158-201 | a velocity > 0 note-on opens a note at the event's time; a note-off or velocity-0 note-on closes and emits the earliest open note of its channel and pitch with length end - start, or changes nothing if none is open |
| NoteExtractor.ScanTrackNotes | Procedural-Midi/MidiAsset/Source/Midi/Private/MidiComponent.cpp:104-206 | one track's loop, entered with a given tempo, a fresh anchor and the first breakpoint next, appends exactly the notes ScanTrack emits and returns the tempo the track ends in |
| NoteExtractor.CollectNotes | Procedural-Midi/MidiAsset/Source/Midi/Private/MidiComponent.cpp:75-207 | with the tempo carried from track to track, as written, the notes collected over tracks 1 and above are `NotesAsWritten`; with every track entered at the default tempo they are `Notes` |
| NoteExtractor.GetMidiNotes | Procedural-Midi/MidiAsset/Source/Midi/Private/MidiComponent.cpp:70-210 | without a file the output is left as it was; otherwise it is a permutation of the notes collected, sorted by `<`, with nothing kept from before |

## Left out

- The engine before `load`. On an unloaded engine `process()` returns at once, because it
  is not running. `start()` already calls through the unset listener. A `process()` after
  `start()` reads the uninitialised tempo and resolution and dereferences the null
  metronome. The constructor is `MidiProcessor()` followed by `load`.
- `setListener` and the listener itself. The listener is the ghost record `trace`.
  `UMidiComponent`'s forwarding of callbacks to Unreal delegates is not part of this model.
- The metronome's beat arithmetic, because `MetronomeTick`'s source is not part of this
  model. `Metronome.MetronomeTick` answers `getBeatNumber` and `update` arbitrarily, so
  nothing proved depends on them. The metronome event that `dispatch` sends to the listener
  appears as the callback `OnMetronome`. It is not a recursive dispatch.
- `FPlatformTime::Cycles` and `ToMilliseconds`, and the 32-bit wrap-around of the cycle
  counter. `now` is a parameter in milliseconds.
- IEEE float and double rounding. All times and tick counts are exact reals. The `(long)`
  truncation in `processTo` is kept (`TempoMath.TruncMs`).
- `MidiUtil::msToTicks`, which is not part of this model. Its formula is assumed to be
  `ms * 1000 / MPQN * PPQ`.
- Processor.MidiProcessor.Dispatch: requires a positive tempo on tempo events. The engine
  only dispatches events of a loaded file, and `load` requires every tempo in the file to be
  positive (`MidiTypes.PlayableFile`), because the engine divides by the tempo.
- Processor.MidiProcessor.Load: requires a resolution above zero, the parser's promise.
- NoteExtractor.GetMidiNotes: requires at least one track, because the source reads track 0
  unconditionally, and a resolution above zero.
- NoteExtractor.GetMidiNotes: the `channel` variable, which only feeds a log line, and
  every `UE_LOG`.
- NoteExtractor.GetMidiNotes: starts every track at the default tempo, by calling
  `CollectNotes` without carry. The source carries the tempo from track to track (see
  Findings). `NoteExtractor.NotesAsWritten` is the behaviour as written, and
  `CollectNotes` with carry computes it.
- MidiNote.SortNotes: `TArray::Sort`'s algorithm. A selection sort stands in for it, and
  only "sorted and a permutation" is promised. Neither sort is stable, so the order among
  notes with equal (start, channel, value) is not fixed.
- `MidiTrackEventQueue` is not used by the engine, which keeps raw iterators
  (`mCurrEvents`). The two are modelled separately and share `TrackQueue.DueEnd`.
- `LoadAsset`, `LoadFile`, the binary file parser, `TickComponent`, `BeginPlay`,
  destructors, and `MidiInterfaceComponent` (hardware MIDI I/O).

## Findings

| source | as written | input that shows it | evidently intended | confidence | as-written member | corrected member |
|---|---|---|---|---|---|---|
| Procedural-Midi/MidiAsset/Source/Midi/Private/MidiComponent.cpp:79 | the running MPQN is declared once, before the track loop. The anchor and the breakpoint index are reset for each track (lines 108-117), but the tempo is not, so a track starts in the tempo the previous track ended in | 480 PPQ; track 0 has one tempo change, to 1,000,000 MPQN at tick 480; track 1 has a note from tick 960 to 1440; track 2 has a note from tick 0 to 480. Track 2's note comes out 1.0 s long | every track starts at the default tempo, so a tick has the same time in every track. Track 2's note is then 0.5 s long, which is the tempo map's time of tick 480 | high; not executed | NoteExtractor.TempoLeaksAcrossTracks | NoteExtractor.NoteTimesFollowMap |
