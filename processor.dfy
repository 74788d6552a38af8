/** MidiProcessor: the playback engine. It owns one cursor per track, the tempo anchor and
    the current tempo, and a metronome; it is started, stopped, reset and polled, and it
    forwards every event it dispatches to its listener. The listener is modelled as the
    ghost record `trace` of the callbacks it receives; the wall clock is the `now`
    parameter (in milliseconds) of Start and Process. */
module Processor {
  import opened MidiTypes
  import opened TempoMath
  import opened TrackQueue
  import opened SeqFacts
  import opened Metronome
  import opened EngineState

  /** PROCESS_RATE_MS: polls closer together than this many milliseconds do nothing. */
  const ProcessRateMs: int := 8

  /** `n` cursors, each at its track's first event. */
  function Zeros(n: nat): (r: seq<nat>)
    ensures |r| == n && forall i :: 0 <= i < n ==> r[i] == 0
  {
    if n == 0 then [] else Zeros(n - 1) + [0]
  }

  class MidiProcessor {
    var file: MidiFile
    var running: bool
    var ticksElapsed: real
    var msElapsed: int
    var mpqn: int
    var ppq: int
    var metronome: MetronomeTick
    /** The signature object the engine owns; the metronome is bound to it on load and reset. */
    var sig: TimeSig
    /** mCurrEvents: the index of each track's next undispatched event. */
    var cursors: seq<nat>
    var lastMs: int
    var startMs: int
    /** The tempo anchor: the time and tick pinned at the last tempo change. */
    var startTime: real
    var startTick: real
    /** The callbacks the listener has received, oldest first. */
    ghost var trace: seq<Callback>

    ghost function State(): Snapshot
      reads this
    {
      Snapshot(file, running, ticksElapsed, msElapsed, mpqn, ppq, metronome, sig, cursors,
               lastMs, startMs, startTime, startTick, trace)
    }

    ghost predicate Valid()
      reads this
    {
      Coherent(State())
    }

    function CurrentClock(): Clock
      reads this
    {
      Clock(startTick, startTime, mpqn)
    }

    /** MidiProcessor() followed by load(f): a stopped engine at the start of `f`, with the
        anchor at (0, 0). */
    constructor (f: MidiFile)
      requires PlayableFile(f)
      ensures Valid() && file == f && !running && ticksElapsed == 0.0 && msElapsed == 0
      ensures mpqn == DefaultMpqn && ppq == f.resolution && sig == DefaultSig
      ensures startTime == 0.0 && startTick == 0.0
      ensures |cursors| == |f.tracks| && forall i :: 0 <= i < |cursors| ==> cursors[i] == 0
      ensures fresh(metronome) && metronome.signature == sig && metronome.resolution == ppq
      ensures trace == []
    {
      file := f;
      running := false;
      ticksElapsed := 0.0;
      msElapsed := 0;
      startTime := 0.0;
      startTick := 0.0;
      lastMs := 0;
      startMs := 0;
      sig := DefaultSig;
      mpqn := DefaultMpqn;
      ppq := f.resolution;
      metronome := new MetronomeTick(DefaultSig, f.resolution);
      cursors := Zeros(|f.tracks|);
      trace := [];
    }

    /** load: stopped, counters cleared, default tempo, PPQ from the file, a new metronome
        bound to the engine's signature, and one cursor per track at its first event. The
        anchor, the poll timestamps and the listener's record are left as they were. */
    method Load(f: MidiFile)
      requires PlayableFile(f)
      modifies this
      ensures Valid()
      ensures fresh(metronome) && metronome.signature == sig && metronome.resolution == ppq
      ensures State() == old(State()).(file := f, running := false, ticksElapsed := 0.0,
                msElapsed := 0, mpqn := DefaultMpqn, ppq := f.resolution, metronome := metronome,
                cursors := Zeros(|f.tracks|))
    {
      file := f;
      running := false;
      ticksElapsed := 0.0;
      msElapsed := 0;
      mpqn := DefaultMpqn;
      ppq := f.resolution;
      metronome := new MetronomeTick(sig, ppq);
      var cs: seq<nat> := [];
      for i := 0 to |f.tracks|
        invariant cs == Zeros(i)
        modifies {}
      {
        cs := cs + [0];
      }
      cursors := cs;
    }

    /** start: a no-op while running. Otherwise it records `now` as the last poll and the
        session start, runs, tells the listener whether this is a fresh start (no
        milliseconds elapsed yet), and re-anchors at (0, 0); cursors, elapsed ticks and the
        tempo are kept. */
    method Start(now: int)
      requires Valid()
      modifies this
      ensures Valid()
      ensures old(running) ==> State() == old(State())
      ensures !old(running) ==>
        State() == old(State()).(running := true, lastMs := now, startMs := now,
          startTime := 0.0, startTick := 0.0, trace := old(trace) + [OnStart(old(msElapsed) == 0)])
    {
      if running {
        return;
      }
      lastMs := now;
      startMs := now;
      running := true;
      trace := trace + [OnStart(msElapsed == 0)];
      startTime := 0.0;
      startTick := 0.0;
    }

    /** stop: not running, whatever the state, and the listener hears onStop(false). */
    method Stop()
      requires Valid()
      modifies this
      ensures Valid()
      ensures State() == old(State()).(running := false, trace := old(trace) + [OnStop(false)])
    {
      running := false;
      trace := trace + [OnStop(false)];
    }

    /** reset: stopped, counters and anchor zeroed, the metronome back on the engine's own
        signature, every cursor rewound to its track's first event, and onStop(false). The
        tempo is not reset. */
    method Reset()
      requires Valid()
      modifies this, metronome
      ensures Valid()
      ensures metronome.signature == sig
      ensures State() == old(State()).(running := false, ticksElapsed := 0.0, msElapsed := 0,
                startMs := 0, startTime := 0.0, startTick := 0.0,
                cursors := Zeros(|old(cursors)|), trace := old(trace) + [OnStop(false)])
    {
      // The metronome is rebound first: it shares no state with the fields cleared below.
      metronome.SetTimeSignature(sig);
      running := false;
      ticksElapsed := 0.0;
      msElapsed := 0;
      startMs := 0;
      startTime := 0.0;
      startTick := 0.0;
      var cs, i := cursors, 0;
      ghost var cs0, zeros := cs, Zeros(|cs|);
      while i < |cs|
        invariant 0 <= i <= |cs0| && cs == Advanced(cs0, zeros, i)
        modifies {}
      {
        AdvancedStep(cs0, zeros, i);
        cs := cs[i := 0];
        i := i + 1;
      }
      assert cs == zeros;
      cursors := cs;
      trace := trace + [OnStop(false)];
    }

    /** isStarted: some ticks have elapsed, whether or not the engine is running now. */
    method IsStarted() returns (b: bool)
      requires Valid()
      ensures b <==> ticksElapsed > 0.0
    {
      b := ticksElapsed > 0.0;
    }

    method IsRunning() returns (b: bool)
      requires Valid()
      ensures b == running
    {
      b := running;
    }

    /** dispatch: a tempo event re-pins the anchor under the old tempo and then adopts the
        event's tempo; a time signature event reads whether the metronome is off its first
        beat, rebinds the metronome to the event's signature and, if it was off, dispatches
        the metronome; every event then reaches the listener through onEvent. */
    method Dispatch(e: Event)
      requires Valid() && (e.payload.Tempo? ==> e.payload.mpqn > 0)
      modifies this, metronome
      ensures Valid()
      ensures CurrentClock() == ApplyTempo(old(CurrentClock()), ppq, e)
      ensures trace == old(trace) + DispatchRecords(e, old(metronome.beatNumber))
      ensures State() == old(State()).(startTick := startTick, startTime := startTime,
                mpqn := mpqn, trace := trace)
      ensures e.payload.TimeSignature? ==> metronome.signature == e.payload.sig
      ensures !e.payload.TimeSignature? ==> unchanged(metronome)
    {
      if e.payload.Tempo? {
        startTime := startTime + ((e.tick as real - startTick) * mpqn as real / ppq as real) / 1000000.0;
        startTick := e.tick as real;
        mpqn := e.payload.mpqn;
      } else if e.payload.TimeSignature? {
        var beat := metronome.GetBeatNumber();
        var shouldDispatch := beat != 1;
        metronome.SetTimeSignature(e.payload.sig);
        if shouldDispatch {
          // dispatch(mMetronome): the metronome tick is neither a tempo nor a time
          // signature event, so it goes straight to the listener.
          trace := trace + [OnMetronome];
        }
      }
      trace := trace + [OnEvent(e)];
    }

    /** One step of a cursor: dispatch the event under cursor `i` and move past it; `beat`
        is what the metronome reported at that moment. */
    method DispatchNext(i: nat) returns (ghost beat: int)
      requires Valid() && i < |cursors| && cursors[i] < |file.tracks[i]|
      modifies this, metronome
      ensures Valid() && Fixed(State()) == Fixed(old(State()))
      ensures Stepped(file.tracks, ppq, ProgressOf(old(State())), ProgressOf(State()), i, beat)
    {
      var e := file.tracks[i][cursors[i]];
      assert TemposPositive(file.tracks[i]);
      beat := metronome.beatNumber;
      Dispatch(e);
      cursors := cursors[i := cursors[i] + 1];
    }

    /** One track's share of the drain: cursor `i` dispatches its events while they are
        due by ticksElapsed, in track order, and stops at the end of the due run. */
    method DispatchTrack(i: nat) returns (ghost beats: seq<int>)
      requires Valid() && i < |cursors|
      modifies this, metronome
      ensures Valid() && Fixed(State()) == Fixed(old(State()))
      ensures TrackDrained(file.tracks, ppq, ticksElapsed, ProgressOf(old(State())), ProgressOf(State()), i, beats)
    {
      ghost var s0 := State();
      ghost var p0 := ProgressOf(s0);
      beats := [];
      TrackRunStart(s0.file.tracks, s0.ppq, s0.ticksElapsed, p0, i);
      while cursors[i] < |file.tracks[i]| && file.tracks[i][cursors[i]].tick as real <= ticksElapsed
        invariant Valid() && Fixed(State()) == Fixed(s0) && i < |cursors|
        invariant TrackRun(s0.file.tracks, s0.ppq, s0.ticksElapsed, p0, ProgressOf(State()), i, beats)
        decreases |file.tracks[i]| - cursors[i]
      {
        ghost var p := ProgressOf(State());
        ghost var beat := DispatchNext(i);
        TrackRunStep(s0.file.tracks, s0.ppq, s0.ticksElapsed, p0, p, ProgressOf(State()), i, beats, beat);
        beats := beats + [beat];
      }
      TrackRunDone(s0.file.tracks, s0.ppq, s0.ticksElapsed, p0, ProgressOf(State()), i, beats);
    }

    /** Whether every cursor is at its track's end. */
    method Finished() returns (b: bool)
      requires Valid()
      ensures b == AllExhausted(file.tracks, cursors)
    {
      var k := 0;
      while k < |cursors|
        invariant 0 <= k <= |cursors|
        invariant forall j :: 0 <= j < k ==> cursors[j] == |file.tracks[j]|
      {
        if cursors[k] < |file.tracks[k]| {
          return false;
        }
        k := k + 1;
      }
      return true;
    }

    /** The drain loop of process and processTo: each cursor in track order dispatches its
        due events. `bs[i]` is what the metronome reported while track i was dispatched. */
    method DrainTracks() returns (ghost bs: seq<seq<int>>)
      requires Valid()
      modifies this, metronome
      ensures Valid() && Fixed(State()) == Fixed(old(State())) && |bs| == |old(cursors)|
      ensures DrainedUpTo(file.tracks, ppq, ticksElapsed, ProgressOf(old(State())), ProgressOf(State()), bs)
    {
      ghost var s0 := State();
      ghost var p0 := ProgressOf(s0);
      bs := [];
      DrainStart(s0.file.tracks, s0.ppq, s0.ticksElapsed, p0);
      var i := 0;
      while i < |cursors|
        invariant Valid() && Fixed(State()) == Fixed(s0) && i == |bs|
        invariant DrainedUpTo(s0.file.tracks, s0.ppq, s0.ticksElapsed, p0, ProgressOf(State()), bs)
        decreases |s0.cursors| - i
      {
        ghost var p := ProgressOf(State());
        var beats := DispatchTrack(i);
        DrainStep(s0.file.tracks, s0.ppq, s0.ticksElapsed, p0, p, ProgressOf(State()), bs, beats);
        bs := bs + [beats];
        i := i + 1;
      }
    }

    /** The drain of process and processTo: every cursor dispatches its due events; then,
        if every cursor is at its track's end, the engine stops and reports onStop(true). */
    method DispatchDue() returns (ghost part: seq<Callback>)
      requires Valid() && running
      modifies this, metronome
      ensures Valid()
      ensures Drained(old(State()), State(), part)
    {
      ghost var s0 := State();
      ghost var bs := DrainTracks();
      ghost var s := State();
      DrainDone(s0, s, bs);
      part := TraceTracks(s0.file.tracks, s0.cursors, bs);
      var finished := Finished();
      if finished {
        running := false;
        trace := trace + [OnStop(true)];
      }
    }

    /** process: polled with the wall-clock time `now`. A no-op unless running, unless at
        least ProcessRateMs milliseconds have passed since the last effective poll, and
        unless those milliseconds come to at least one tick at the current tempo (the last
        poll time is then kept, so the delay accumulates). Otherwise the metronome is
        updated, and dispatched if a beat fell (`fired`); the elapsed milliseconds are
        recomputed from the session start and converted to elapsed ticks at the CURRENT
        tempo; and the engine drains every due event. */
    method Process(now: int) returns (ghost fired: bool, ghost part: seq<Callback>)
      requires Valid()
      modifies this, metronome
      ensures Valid()
      ensures !old(running) || now - old(lastMs) < ProcessRateMs ||
              MsToTicks(now - old(lastMs), old(mpqn), old(ppq)) < 1.0 ==>
                State() == old(State()) && unchanged(metronome)
      ensures old(running) && now - old(lastMs) >= ProcessRateMs &&
              MsToTicks(now - old(lastMs), old(mpqn), old(ppq)) >= 1.0 ==>
                Drained(old(State()).(lastMs := now, msElapsed := now - old(startMs),
                          ticksElapsed := MsToTicks(now - old(startMs), old(mpqn), old(ppq)),
                          trace := old(trace) + (if fired then [OnMetronome] else [])),
                        State(), part)
    {
      fired, part := false, [];
      if !running {
        return;
      }
      var msDelta := now - lastMs;
      if msDelta < ProcessRateMs {
        return;
      }
      var ticksDelta := MsToTicks(msDelta, mpqn, ppq);
      if ticksDelta < 1.0 {
        return;
      }
      fired := metronome.Update(ticksDelta);
      if fired {
        // dispatch(mMetronome)
        trace := trace + [OnMetronome];
      }
      lastMs := now;
      msElapsed := now - startMs;
      ticksElapsed := MsToTicks(msElapsed, mpqn, ppq);
      part := DispatchDue();
    }

    /** processTo: a seek to `elapsedTime` seconds, ignoring the wall clock. A no-op unless
        running; otherwise the target tick is the anchor tick plus the ticks that the
        current tempo spans between the anchor time and `elapsedTime`, and every event due
        by it is dispatched as in process. */
    method ProcessTo(elapsedTime: real) returns (ghost part: seq<Callback>)
      requires Valid()
      modifies this, metronome
      ensures Valid()
      ensures !old(running) ==> State() == old(State()) && unchanged(metronome)
      ensures old(running) ==>
        Drained(old(State()).(ticksElapsed := TicksAt(old(CurrentClock()), old(ppq), elapsedTime)),
                State(), part)
    {
      part := [];
      if !running {
        return;
      }
      ticksElapsed := startTick + MsToTicks(TruncMs(elapsedTime - startTime), mpqn, ppq);
      part := DispatchDue();
    }
  }
}
