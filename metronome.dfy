/** MetronomeTick, the playback engine's beat generator. */
module Metronome {
  import opened MidiTypes

  /** MetronomeTick, the engine's beat generator. Its beat arithmetic is not part of this
      model: its answers are chosen arbitrarily, so nothing proved about the engine depends
      on them. It is also the event the engine dispatches when a beat falls. */
  class MetronomeTick {
    var signature: TimeSig
    var beatNumber: int
    const resolution: int

    constructor (sig: TimeSig, ppq: int)
      ensures signature == sig && resolution == ppq
    {
      signature := sig;
      resolution := ppq;
      var beat: int := *;
      beatNumber := beat;
    }

    method GetBeatNumber() returns (b: int)
      ensures b == beatNumber
    {
      b := beatNumber;
    }

    /** Whether a beat boundary was crossed by `ticksElapsed` more ticks. */
    method Update(ticksElapsed: real) returns (fired: bool)
      modifies this
    {
      fired := *;
      beatNumber := *;
    }

    method SetTimeSignature(sig: TimeSig)
      modifies this
      ensures signature == sig
    {
      signature := sig;
      beatNumber := *;
    }
  }
}
