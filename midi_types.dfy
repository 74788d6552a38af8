/** Events, tracks and files as the parser hands them to the playback engine and the
    note extractor, and the callbacks the engine makes to its listener. */
module MidiTypes {

  /** Tempo::DEFAULT_MPQN: 500000 microseconds per quarter note, i.e. 120 beats per minute. */
  const DefaultMpqn: int := 500000

  /** Fields of a Time Signature meta event (FF 58): numerator, denominator,
      MIDI clocks per metronome click and 32nd notes per 24 MIDI clocks. */
  datatype TimeSig = TimeSig(numerator: int, denominator: int, meter: int, division: int)

  /** The signature object `sig` that the engine owns and hands to its metronome on load and reset. */
  const DefaultSig: TimeSig := TimeSig(4, 4, 24, 8)

  /** What an event carries. Only tempo, time signature, note-on and note-off events are
      interpreted by the core; every other kind is forwarded untouched. */
  datatype Payload =
    | Tempo(mpqn: int)
    | TimeSignature(sig: TimeSig)
    | NoteOn(channel: int, note: int, velocity: int)
    | NoteOff(channel: int, note: int, velocity: int)
    | OtherEvent(kind: int)

  /** An event at an absolute tick position of its track. */
  datatype Event = Event(tick: nat, payload: Payload)

  type Track = seq<Event>

  /** A parsed file: its resolution (ticks per quarter note, PPQ) and its tracks. */
  datatype MidiFile = MidiFile(resolution: int, tracks: seq<Track>)

  datatype Option<T> = None | Some(value: T)

  /** Every tempo event of the track names a positive tempo (the engine divides by it). */
  predicate TemposPositive(t: Track)
  {
    forall j :: 0 <= j < |t| && t[j].payload.Tempo? ==> t[j].payload.mpqn > 0
  }

  /** The parser's promise: ticks never decrease along a track. */
  predicate TicksSorted(t: Track)
  {
    forall i, j :: 0 <= i < j < |t| ==> t[i].tick <= t[j].tick
  }

  /** A file the playback engine can be loaded with. */
  predicate PlayableFile(f: MidiFile)
  {
    f.resolution > 0 &&
    forall i :: 0 <= i < |f.tracks| ==> TemposPositive(f.tracks[i])
  }

  /** One call the engine makes to its listener (MidiEventListener): `onEvent` with a file
      event or with the metronome tick, `onStart(fromBeginning)`, `onStop(finished)`. */
  datatype Callback =
    | OnEvent(e: Event)
    | OnMetronome
    | OnStart(fromBeginning: bool)
    | OnStop(finished: bool)
}
