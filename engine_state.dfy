/** The playback engine's state as a value, and what its drain of due events means: the
    callbacks it makes, the clock it ends with and where its cursors stop. */
module EngineState {
  import opened MidiTypes
  import opened TempoMath
  import opened TrackQueue
  import opened SeqFacts
  import opened Metronome

  /** The engine's fields, as one value. */
  datatype Snapshot = Snapshot(
    file: MidiFile,
    running: bool,
    ticksElapsed: real,
    msElapsed: int,
    mpqn: int,
    ppq: int,
    metronome: MetronomeTick,
    sig: TimeSig,
    cursors: seq<nat>,
    lastMs: int,
    startMs: int,
    startTime: real,
    startTick: real,
    trace: seq<Callback>)

  /** What holds of a loaded engine: a playable file, its resolution as PPQ, a positive
      tempo, and one cursor per track, each within its track. */
  ghost predicate Coherent(s: Snapshot)
  {
    && PlayableFile(s.file)
    && s.ppq == s.file.resolution
    && s.mpqn > 0
    && Fits(s.file.tracks, s.cursors)
  }

  function ClockOf(s: Snapshot): Clock
  {
    Clock(s.startTick, s.startTime, s.mpqn)
  }

  /** Every cursor is at the end of its track. */
  predicate AllExhausted(tracks: seq<Track>, cursors: seq<nat>)
    requires |cursors| == |tracks|
  {
    forall i :: 0 <= i < |cursors| ==> cursors[i] == |tracks[i]|
  }

  /** The events that cursors moving from `lo` to `hi` pass over, for the first `n`
      tracks: track 0's run first, then track 1's, and so on. */
  function Slices(tracks: seq<Track>, lo: seq<nat>, hi: seq<nat>, n: nat): seq<Event>
    requires n <= |tracks| && |lo| == |tracks| && |hi| == |tracks|
    requires forall i :: 0 <= i < n ==> lo[i] <= hi[i] <= |tracks[i]|
  {
    if n == 0 then [] else Slices(tracks, lo, hi, n - 1) + Run(tracks[n - 1], lo[n - 1], hi[n - 1])
  }

  /** The file events among a run of callbacks, in order. */
  function EventsOf(cs: seq<Callback>): seq<Event>
  {
    if cs == [] then []
    else EventsOf(cs[..|cs| - 1]) + (if cs[|cs| - 1].OnEvent? then [cs[|cs| - 1].e] else [])
  }

  lemma {:induction false} EventsOfAppend(a: seq<Callback>, b: seq<Callback>)
    ensures EventsOf(a + b) == EventsOf(a) + EventsOf(b)
    decreases |b|
  {
    if b == [] {
      assert a + b == a;
    } else {
      assert (a + b)[..|a + b| - 1] == a + b[..|b| - 1];
      EventsOfAppend(a, b[..|b| - 1]);
    }
  }

  /** The callback at `k` is an event, or a metronome tick right before the time signature
      event that flushed it. */
  predicate ShapedAt(cs: seq<Callback>, k: nat)
    requires k < |cs|
  {
    cs[k].OnEvent? ||
    (cs[k].OnMetronome? && k + 1 < |cs| && cs[k + 1].OnEvent? && cs[k + 1].e.payload.TimeSignature?)
  }

  /** The shape of what dispatching produces: only event callbacks, and a metronome tick
      only right before the time signature event that flushed it. */
  predicate DispatchShaped(cs: seq<Callback>)
  {
    forall k :: 0 <= k < |cs| ==> ShapedAt(cs, k)
  }

  lemma DispatchShapedAppend(a: seq<Callback>, b: seq<Callback>)
    requires DispatchShaped(a) && DispatchShaped(b)
    ensures DispatchShaped(a + b)
  {
    forall k | 0 <= k < |a + b|
      ensures ShapedAt(a + b, k)
    {
      if k < |a| {
        assert ShapedAt(a, k);
        assert (a + b)[k] == a[k];
        if a[k].OnMetronome? { assert (a + b)[k + 1] == a[k + 1]; }
      } else {
        var k' := k - |a|;
        assert ShapedAt(b, k');
        assert (a + b)[k] == b[k'];
        if b[k'].OnMetronome? { assert (a + b)[k + 1] == b[k' + 1]; }
      }
    }
  }

  /** The callbacks that dispatching `e` makes when the metronome reports beat `beat`: a
      time signature event arriving off the first beat first flushes the metronome tick;
      every event is then forwarded exactly once. */
  function DispatchRecords(e: Event, beat: int): (r: seq<Callback>)
    ensures EventsOf(r) == [e] && DispatchShaped(r)
    ensures r[|r| - 1] == OnEvent(e)
    ensures OnMetronome in r <==> e.payload.TimeSignature? && beat != 1
  {
    var r := if e.payload.TimeSignature? && beat != 1 then [OnMetronome, OnEvent(e)] else [OnEvent(e)];
    assert r[..|r| - 1] == (if |r| == 2 then [OnMetronome] else []);
    assert |r| == 2 ==> [OnMetronome][..0] == [];
    r
  }

  /** The clock after the events of Run(track, lo, hi) have been applied in order, counted
      by index: the form the drain loop builds it in. */
  function ReplayRange(c: Clock, ppq: int, track: Track, lo: nat, hi: nat): Clock
    requires ppq > 0 && lo <= hi <= |track|
    decreases hi
  {
    if hi <= lo then c else ApplyTempo(ReplayRange(c, ppq, track, lo, hi - 1), ppq, track[hi - 1])
  }

  /** Replaying a cursor's run event by event is replaying the run it passed over. */
  lemma {:induction false} ReplayRangeIsReplay(c: Clock, ppq: int, track: Track, lo: nat, hi: nat)
    requires ppq > 0 && lo <= hi <= |track|
    ensures ReplayRange(c, ppq, track, lo, hi) == Replay(c, ppq, Run(track, lo, hi))
    decreases hi
  {
    if hi > lo {
      var run := Run(track, lo, hi);
      ReplayRangeIsReplay(c, ppq, track, lo, hi - 1);
      ReplayPrefixAgree(c, ppq, run, Run(track, lo, hi - 1), |run| - 1);
      assert run[|run| - 1] == track[hi - 1];
    }
  }

  /** The callbacks made while a cursor at `lo` dispatches one event per entry of `beats`,
      the metronome reporting beat `beats[k]` when the k-th of them is dispatched. */
  function RecordsRange(track: Track, lo: nat, beats: seq<int>): seq<Callback>
    requires lo + |beats| <= |track|
    decreases |beats|
  {
    if beats == [] then []
    else RecordsRange(track, lo, beats[..|beats| - 1]) + DispatchRecords(track[lo + |beats| - 1], beats[|beats| - 1])
  }

  /** Whatever the metronome reports, the listener gets exactly the dispatched run of the
      track, each event once and in order. */
  lemma {:induction false} RecordsRangeEvents(track: Track, lo: nat, beats: seq<int>)
    requires lo + |beats| <= |track|
    ensures EventsOf(RecordsRange(track, lo, beats)) == Run(track, lo, lo + |beats|)
    decreases |beats|
  {
    if beats != [] {
      var init := beats[..|beats| - 1];
      var last := DispatchRecords(track[lo + |init|], beats[|beats| - 1]);
      assert RecordsRange(track, lo, beats) == RecordsRange(track, lo, init) + last;
      RecordsRangeEvents(track, lo, init);
      EventsOfAppend(RecordsRange(track, lo, init), last);
    }
  }

  /** ... with metronome ticks only where a time signature flushed them. */
  lemma {:induction false} RecordsRangeShaped(track: Track, lo: nat, beats: seq<int>)
    requires lo + |beats| <= |track|
    ensures DispatchShaped(RecordsRange(track, lo, beats))
    decreases |beats|
  {
    if beats != [] {
      var init := beats[..|beats| - 1];
      var last := DispatchRecords(track[lo + |init|], beats[|beats| - 1]);
      assert RecordsRange(track, lo, beats) == RecordsRange(track, lo, init) + last;
      RecordsRangeShaped(track, lo, init);
      assert DispatchShaped(last);
      DispatchShapedAppend(RecordsRange(track, lo, init), last);
    }
  }

  /** The clock after the runs of the first `n` tracks, in track order. */
  function ReplayTracks(c: Clock, ppq: int, tracks: seq<Track>, lo: seq<nat>, hi: seq<nat>, n: nat): Clock
    requires ppq > 0 && n <= |tracks| && |lo| == |tracks| && |hi| == |tracks|
    requires forall i :: 0 <= i < n ==> lo[i] <= hi[i] <= |tracks[i]|
  {
    if n == 0 then c
    else ReplayRange(ReplayTracks(c, ppq, tracks, lo, hi, n - 1), ppq, tracks[n - 1], lo[n - 1], hi[n - 1])
  }

  /** Replaying track by track is replaying all the runs one after the other. */
  lemma {:induction false} ReplayTracksIsReplay(c: Clock, ppq: int, tracks: seq<Track>, lo: seq<nat>, hi: seq<nat>, n: nat)
    requires ppq > 0 && n <= |tracks| && |lo| == |tracks| && |hi| == |tracks|
    requires forall i :: 0 <= i < n ==> lo[i] <= hi[i] <= |tracks[i]|
    ensures ReplayTracks(c, ppq, tracks, lo, hi, n) == Replay(c, ppq, Slices(tracks, lo, hi, n))
  {
    if n > 0 {
      ReplayTracksIsReplay(c, ppq, tracks, lo, hi, n - 1);
      var before := ReplayTracks(c, ppq, tracks, lo, hi, n - 1);
      ReplayRangeIsReplay(before, ppq, tracks[n - 1], lo[n - 1], hi[n - 1]);
      ReplayAppend(c, ppq, Slices(tracks, lo, hi, n - 1), Run(tracks[n - 1], lo[n - 1], hi[n - 1]));
    }
  }

  /** The callbacks of the drain of the first |bs| tracks, `bs[i]` the beats the metronome
      reported while track i was dispatched. */
  function TraceTracks(tracks: seq<Track>, lo: seq<nat>, bs: seq<seq<int>>): seq<Callback>
    requires |bs| <= |tracks| && |lo| == |tracks|
    requires forall i :: 0 <= i < |bs| ==> lo[i] + |bs[i]| <= |tracks[i]|
    decreases |bs|
  {
    if bs == [] then []
    else TraceTracks(tracks, lo, bs[..|bs| - 1]) + RecordsRange(tracks[|bs| - 1], lo[|bs| - 1], bs[|bs| - 1])
  }

  /** The listener gets the runs of all the tracks, track by track, whatever the metronome
      reported. */
  lemma {:induction false} TraceTracksEvents(tracks: seq<Track>, lo: seq<nat>, hi: seq<nat>, bs: seq<seq<int>>)
    requires |bs| <= |tracks| && |lo| == |tracks| && |hi| == |tracks|
    requires forall i :: 0 <= i < |bs| ==> lo[i] + |bs[i]| == hi[i] <= |tracks[i]|
    ensures EventsOf(TraceTracks(tracks, lo, bs)) == Slices(tracks, lo, hi, |bs|)
    decreases |bs|
  {
    if bs != [] {
      var n := |bs|;
      var init, last := bs[..n - 1], RecordsRange(tracks[n - 1], lo[n - 1], bs[n - 1]);
      assert TraceTracks(tracks, lo, bs) == TraceTracks(tracks, lo, init) + last;
      TraceTracksEvents(tracks, lo, hi, init);
      RecordsRangeEvents(tracks[n - 1], lo[n - 1], bs[n - 1]);
      EventsOfAppend(TraceTracks(tracks, lo, init), last);
    }
  }

  /** ... with metronome ticks only where a time signature flushed them. */
  lemma {:induction false} TraceTracksShaped(tracks: seq<Track>, lo: seq<nat>, bs: seq<seq<int>>)
    requires |bs| <= |tracks| && |lo| == |tracks|
    requires forall i :: 0 <= i < |bs| ==> lo[i] + |bs[i]| <= |tracks[i]|
    ensures DispatchShaped(TraceTracks(tracks, lo, bs))
    decreases |bs|
  {
    if bs != [] {
      var n := |bs|;
      var init, last := bs[..n - 1], RecordsRange(tracks[n - 1], lo[n - 1], bs[n - 1]);
      assert TraceTracks(tracks, lo, bs) == TraceTracks(tracks, lo, init) + last;
      TraceTracksShaped(tracks, lo, init);
      RecordsRangeShaped(tracks[n - 1], lo[n - 1], bs[n - 1]);
      DispatchShapedAppend(TraceTracks(tracks, lo, init), last);
    }
  }

  /** Where every cursor stops when it dispatches everything due by `limit`. */
  function DueEnds(tracks: seq<Track>, lo: seq<nat>, limit: real): (r: seq<nat>)
    requires |lo| == |tracks| && forall i :: 0 <= i < |lo| ==> lo[i] <= |tracks[i]|
    ensures |r| == |lo|
    ensures forall i :: 0 <= i < |r| ==> r[i] == DueEnd(tracks[i], lo[i], limit) && lo[i] <= r[i] <= |tracks[i]|
  {
    seq(|lo|, i requires 0 <= i < |lo| => DueEnd(tracks[i], lo[i], limit))
  }

  /** What dispatching changes: the cursors, the clock and the listener's record. */
  datatype Progress = Progress(cursors: seq<nat>, clock: Clock, trace: seq<Callback>)

  function ProgressOf(s: Snapshot): Progress
  {
    Progress(s.cursors, ClockOf(s), s.trace)
  }

  /** What dispatching leaves alone: the snapshot with the cursors, the clock and the
      record blanked out. */
  function Fixed(s: Snapshot): Snapshot
  {
    s.(cursors := [], startTick := 0.0, startTime := 0.0, mpqn := 0, trace := [])
  }

  /** One cursor per track, each within its track. */
  predicate Fits(tracks: seq<Track>, cursors: seq<nat>)
  {
    |cursors| == |tracks| && forall i :: 0 <= i < |cursors| ==> cursors[i] <= |tracks[i]|
  }

  /** The cursors `lo` after the first `n` of them moved on to `hi`. */
  function Advanced(lo: seq<nat>, hi: seq<nat>, n: nat): (r: seq<nat>)
    requires |hi| == |lo|
    ensures |r| == |lo|
    ensures forall j :: 0 <= j < |r| ==> r[j] == if j < n then hi[j] else lo[j]
  {
    seq(|lo|, j requires 0 <= j < |lo| => if j < n then hi[j] else lo[j])
  }

  lemma AdvancedStep(lo: seq<nat>, hi: seq<nat>, n: nat)
    requires |hi| == |lo| && n < |lo|
    ensures Advanced(lo, hi, n)[n := hi[n]] == Advanced(lo, hi, n + 1)
  {
  }

  /** `p1` is `p0` after cursor `i` dispatched the event under it, the metronome reporting
      `beat`: the cursor moved past it, the clock took its tempo (if it has one) and the
      listener got its callbacks. */
  predicate Stepped(tracks: seq<Track>, ppq: int, p0: Progress, p1: Progress, i: nat, beat: int)
    requires ppq > 0 && Fits(tracks, p0.cursors) && i < |tracks| && p0.cursors[i] < |tracks[i]|
  {
    var e := tracks[i][p0.cursors[i]];
    p1 == Progress(p0.cursors[i := p0.cursors[i] + 1], ApplyTempo(p0.clock, ppq, e),
                   p0.trace + DispatchRecords(e, beat))
  }

  /** `p` is `p0` after cursor `i` dispatched, one by one, the next |beats| events of its
      track, each due by `limit`, the metronome reporting beats[k] for the k-th. */
  predicate TrackRun(tracks: seq<Track>, ppq: int, limit: real, p0: Progress, p: Progress, i: nat, beats: seq<int>)
    requires ppq > 0 && Fits(tracks, p0.cursors) && i < |tracks|
  {
    var track, from := tracks[i], p0.cursors[i];
    && from + |beats| <= |track|
    && (forall j :: from <= j < from + |beats| ==> track[j].tick as real <= limit)
    && p == Progress(p0.cursors[i := from + |beats|], ReplayRange(p0.clock, ppq, track, from, from + |beats|),
                     p0.trace + RecordsRange(track, from, beats))
  }

  /** A run that stopped where the due events end: cursor `i` is at DueEnd. */
  predicate TrackDrained(tracks: seq<Track>, ppq: int, limit: real, p0: Progress, p: Progress, i: nat, beats: seq<int>)
    requires ppq > 0 && Fits(tracks, p0.cursors) && i < |tracks|
  {
    && TrackRun(tracks, ppq, limit, p0, p, i, beats)
    && p0.cursors[i] + |beats| == DueEnd(tracks[i], p0.cursors[i], limit)
  }

  lemma TrackRunStart(tracks: seq<Track>, ppq: int, limit: real, p0: Progress, i: nat)
    requires ppq > 0 && Fits(tracks, p0.cursors) && i < |tracks|
    ensures TrackRun(tracks, ppq, limit, p0, p0, i, [])
  {
    assert p0.cursors[i := p0.cursors[i]] == p0.cursors;
    assert p0.trace + [] == p0.trace;
  }

  /** One more due event dispatched extends the run by one. */
  lemma TrackRunStep(tracks: seq<Track>, ppq: int, limit: real, p0: Progress, p: Progress, p': Progress,
                     i: nat, beats: seq<int>, beat: int)
    requires ppq > 0 && Fits(tracks, p0.cursors) && i < |tracks|
    requires TrackRun(tracks, ppq, limit, p0, p, i, beats)
    requires p.cursors[i] < |tracks[i]| && tracks[i][p.cursors[i]].tick as real <= limit
    requires Fits(tracks, p.cursors) && Stepped(tracks, ppq, p, p', i, beat)
    ensures TrackRun(tracks, ppq, limit, p0, p', i, beats + [beat])
  {
    var track, from, k := tracks[i], p0.cursors[i], |beats|;
    UpdateTwice(p0.cursors, i, from + k, from + k + 1);
    DropAppended(beats, beat);
    var step := DispatchRecords(track[from + k], beat);
    assert RecordsRange(track, from, beats + [beat]) == RecordsRange(track, from, beats) + step;
    AppendAssoc(p0.trace, RecordsRange(track, from, beats), step);
  }

  /** A run that stops at the end of the track, or before an event not yet due, stops at
      DueEnd. */
  lemma TrackRunDone(tracks: seq<Track>, ppq: int, limit: real, p0: Progress, p: Progress, i: nat, beats: seq<int>)
    requires ppq > 0 && Fits(tracks, p0.cursors) && i < |tracks|
    requires TrackRun(tracks, ppq, limit, p0, p, i, beats)
    requires !(p.cursors[i] < |tracks[i]| && tracks[i][p.cursors[i]].tick as real <= limit)
    ensures TrackDrained(tracks, ppq, limit, p0, p, i, beats)
  {
    DueEndUnique(tracks[i], p0.cursors[i], p.cursors[i], limit);
  }

  /** `p` is `p0` after the first |bs| cursors, in track order, each dispatched its run due
      by `limit`, `bs[j]` being what the metronome reported during track j's. */
  predicate DrainedUpTo(tracks: seq<Track>, ppq: int, limit: real, p0: Progress, p: Progress, bs: seq<seq<int>>)
    requires ppq > 0 && Fits(tracks, p0.cursors)
  {
    var lo := p0.cursors;
    var hi := DueEnds(tracks, lo, limit);
    && |bs| <= |lo|
    && (forall j :: 0 <= j < |bs| ==> lo[j] + |bs[j]| == hi[j])
    && p == Progress(Advanced(lo, hi, |bs|), ReplayTracks(p0.clock, ppq, tracks, lo, hi, |bs|),
                     p0.trace + TraceTracks(tracks, lo, bs))
  }

  lemma DrainStart(tracks: seq<Track>, ppq: int, limit: real, p0: Progress)
    requires ppq > 0 && Fits(tracks, p0.cursors)
    ensures DrainedUpTo(tracks, ppq, limit, p0, p0, [])
  {
    assert Advanced(p0.cursors, DueEnds(tracks, p0.cursors, limit), 0) == p0.cursors;
    assert p0.trace + [] == p0.trace;
  }

  /** The next cursor's drained run extends the drain by one track. */
  lemma DrainStep(tracks: seq<Track>, ppq: int, limit: real, p0: Progress, p: Progress, p': Progress,
                  bs: seq<seq<int>>, beats: seq<int>)
    requires ppq > 0 && Fits(tracks, p0.cursors) && |bs| < |tracks|
    requires DrainedUpTo(tracks, ppq, limit, p0, p, bs) && Fits(tracks, p.cursors)
    requires TrackDrained(tracks, ppq, limit, p, p', |bs|, beats)
    ensures DrainedUpTo(tracks, ppq, limit, p0, p', bs + [beats])
  {
    var n, lo := |bs|, p0.cursors;
    var hi := DueEnds(tracks, lo, limit);
    assert p.cursors[n] == lo[n];
    AdvancedStep(lo, hi, n);
    DropAppended(bs, beats);
    var run := RecordsRange(tracks[n], lo[n], beats);
    assert TraceTracks(tracks, lo, bs + [beats]) == TraceTracks(tracks, lo, bs) + run;
    AppendAssoc(p0.trace, TraceTracks(tracks, lo, bs), run);
  }

  /** A drain over every track is the drain process and processTo promise. */
  lemma DrainDone(s0: Snapshot, s: Snapshot, bs: seq<seq<int>>)
    requires Coherent(s0) && Fixed(s) == Fixed(s0) && |bs| == |s0.cursors|
    requires DrainedUpTo(s0.file.tracks, s0.ppq, s0.ticksElapsed, ProgressOf(s0), ProgressOf(s), bs)
    ensures var done := AllExhausted(s0.file.tracks, s.cursors);
            Drained(s0, s.(running := !done, trace := s.trace + (if done then [OnStop(true)] else [])),
                    TraceTracks(s0.file.tracks, s0.cursors, bs))
  {
    var tracks, lo := s0.file.tracks, s0.cursors;
    var hi := DueEnds(tracks, lo, s0.ticksElapsed);
    assert s.cursors == hi;
    ReplayTracksIsReplay(ClockOf(s0), s0.ppq, tracks, lo, hi, |lo|);
    TraceTracksEvents(tracks, lo, hi, bs);
    TraceTracksShaped(tracks, lo, bs);
  }

  /** The drain shared by process and processTo, from engine state `s0` (with the target
      already in ticksElapsed) to `s1`, with `part` the callbacks made while dispatching:
      every cursor has moved to the end of its due run, the clock has replayed the tempo
      events among the dispatched ones, the listener got exactly those events track by
      track, and the engine stopped, with one onStop(true), exactly when every cursor is at
      its track's end. Nothing else changed. */
  ghost predicate Drained(s0: Snapshot, s1: Snapshot, part: seq<Callback>)
    requires Coherent(s0)
  {
    && s1.file == s0.file && s1.ppq == s0.ppq && s1.sig == s0.sig
    && s1.ticksElapsed == s0.ticksElapsed && s1.msElapsed == s0.msElapsed
    && s1.lastMs == s0.lastMs && s1.startMs == s0.startMs && s1.metronome == s0.metronome
    && |s1.cursors| == |s0.cursors|
    && (forall i :: 0 <= i < |s1.cursors| ==>
          s1.cursors[i] == DueEnd(s0.file.tracks[i], s0.cursors[i], s0.ticksElapsed))
    && ClockOf(s1) == Replay(ClockOf(s0), s0.ppq, Slices(s0.file.tracks, s0.cursors, s1.cursors, |s1.cursors|))
    && EventsOf(part) == Slices(s0.file.tracks, s0.cursors, s1.cursors, |s1.cursors|)
    && DispatchShaped(part)
    && s1.running == !AllExhausted(s0.file.tracks, s1.cursors)
    && s1.trace == s0.trace + part + (if s1.running then [] else [OnStop(true)])
  }

  /** process() sets the elapsed ticks to all the milliseconds since start at the tempo in
      force, and a drain keeps that count while it may dispatch a tempo change. The next
      effective poll, `ms` milliseconds since start, counts them at the new tempo; when the
      tempo grew faster than the milliseconds, that count is below the one already reached. */
  lemma PolledCountCanFall(s0: Snapshot, s1: Snapshot, part: seq<Callback>, ms: int)
    requires Coherent(s0) && Coherent(s1) && Drained(s0, s1, part)
    requires s0.msElapsed > 0 && s0.ticksElapsed == MsToTicks(s0.msElapsed, s0.mpqn, s0.ppq)
    requires s1.mpqn * s0.msElapsed > s0.mpqn * ms
    ensures MsToTicks(ms, s1.mpqn, s1.ppq) < s1.ticksElapsed
  {
    PolledTicksCanFall(s0.msElapsed, ms, s0.mpqn, s1.mpqn, s0.ppq);
  }
}
