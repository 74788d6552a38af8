/** UMidiComponent::GetMidiNotes: the batch note extractor. It takes the tempo changes of
    track 0 as the file's tempo map, walks every other track with its own tempo anchor,
    pairs each note-on with the note-off (or velocity-0 note-on) of the same channel and
    pitch, and returns the notes found, sorted. Times are exact reals. */
module NoteExtractor {
  import opened MidiTypes
  import opened TempoMath
  import opened TrackQueue
  import opened MidiNote
  import opened SeqFacts

  // ---------------------------------------------------------------------------------------
  // The tempo map

  /** The tempo events among the first `n` events of `t`, in track order. */
  function TemposUpTo(t: Track, n: nat): seq<Event>
    requires n <= |t|
  {
    if n == 0 then [] else TemposUpTo(t, n - 1) + (if t[n - 1].payload.Tempo? then [t[n - 1]] else [])
  }

  /** The tempo breakpoints: the tempo events of track 0, in track order. */
  function TempoEvents(t: Track): seq<Event>
  {
    TemposUpTo(t, |t|)
  }

  lemma {:induction false} TemposUpToMembers(t: Track, n: nat)
    requires n <= |t|
    ensures forall e :: e in TemposUpTo(t, n) <==> e in t[..n] && e.payload.Tempo?
    decreases n
  {
    if n > 0 {
      TemposUpToMembers(t, n - 1);
      assert t[..n] == t[..n - 1] + [t[n - 1]];
    }
  }

  /** The breakpoints are exactly the tempo events of the track. */
  lemma TempoEventsMembers(t: Track)
    ensures forall e :: e in TempoEvents(t) <==> e in t && e.payload.Tempo?
  {
    TemposUpToMembers(t, |t|);
    assert t[..|t|] == t;
  }

  lemma {:induction false} TemposUpToSorted(t: Track, n: nat)
    requires n <= |t| && TicksSorted(t)
    ensures TicksSorted(TemposUpTo(t, n))
    ensures forall j :: 0 <= j < |TemposUpTo(t, n)| ==> TemposUpTo(t, n)[j] in t[..n]
    decreases n
  {
    if n > 0 {
      var before := TemposUpTo(t, n - 1);
      TemposUpToSorted(t, n - 1);
      assert t[..n] == t[..n - 1] + [t[n - 1]];
      forall j | 0 <= j < |before|
        ensures before[j].tick <= t[n - 1].tick
      {
        var k :| 0 <= k < n - 1 && t[k] == before[j];
      }
    }
  }

  /** On a track whose ticks never decrease, the breakpoints come in tick order. */
  lemma TempoEventsSorted(t: Track)
    requires TicksSorted(t)
    ensures TicksSorted(TempoEvents(t))
  {
    TemposUpToSorted(t, |t|);
  }

  /** The catch-up loop run before each event: every breakpoint from `next` on whose tick is
      at or below the event's tick is applied in turn, re-pinning the clock under the old
      tempo and then adopting the breakpoint's tempo. Returns the clock and the index of the
      first breakpoint not yet applied. */
  function CatchUp(tempos: seq<Event>, ppq: int, c: Clock, next: nat, tick: nat): (r: (Clock, nat))
    requires ppq > 0 && next <= |tempos|
    ensures next <= r.1 <= |tempos|
    decreases |tempos| - next
  {
    if next < |tempos| && tick >= tempos[next].tick then
      CatchUp(tempos, ppq, ApplyTempo(c, ppq, tempos[next]), next + 1, tick)
    else (c, next)
  }

  /** The clock of the tempo map at `tick`: the start clock after every breakpoint due by
      `tick` has been applied. */
  function MapClock(tempos: seq<Event>, ppq: int, tick: nat): Clock
    requires ppq > 0
  {
    ReplayPrefix(StartClock, ppq, tempos, DueEnd(tempos, 0, tick as real))
  }

  /** Seconds at `tick` under the tempo map: the same in every track. */
  function MapTime(tempos: seq<Event>, ppq: int, tick: nat): real
    requires ppq > 0
  {
    TimeAt(MapClock(tempos, ppq, tick), ppq, tick as real)
  }

  /** Catching up from the clock that the first `k` breakpoints produce applies exactly the
      breakpoints due by `tick`, and stops at the first one that is not. */
  lemma {:induction false} CatchUpFollowsMap(tempos: seq<Event>, ppq: int, c0: Clock, k: nat, tick: nat)
    requires ppq > 0 && k <= |tempos|
    ensures CatchUp(tempos, ppq, ReplayPrefix(c0, ppq, tempos, k), k, tick)
         == (ReplayPrefix(c0, ppq, tempos, DueEnd(tempos, k, tick as real)), DueEnd(tempos, k, tick as real))
    decreases |tempos| - k
  {
    if k < |tempos| && tick >= tempos[k].tick {
      CatchUpFollowsMap(tempos, ppq, c0, k + 1, tick);
    }
  }

  // ---------------------------------------------------------------------------------------
  // Matching note-offs to open notes

  /** TArray::Find from index `i` on: the first position whose note is operator== `key`,
      or -1 (INDEX_NONE). */
  function FindFrom(open: seq<Note>, key: Note, i: nat): (pos: int)
    requires i <= |open|
    ensures pos == -1 || i <= pos < |open|
    ensures pos >= 0 ==> SameKey(open[pos], key) && forall j :: i <= j < pos ==> !SameKey(open[j], key)
    ensures pos == -1 ==> forall j :: i <= j < |open| ==> !SameKey(open[j], key)
    decreases |open| - i
  {
    if i == |open| then -1
    else if SameKey(open[i], key) then i
    else FindFrom(open, key, i + 1)
  }

  /** TArray::Find: the first open note with the key's channel and pitch. Since notes are
      opened by appending, it is the earliest-opened one. */
  function FindKey(open: seq<Note>, key: Note): (pos: int)
    ensures -1 <= pos < |open|
    ensures pos >= 0 ==> SameKey(open[pos], key) && forall j :: 0 <= j < pos ==> !SameKey(open[j], key)
    ensures pos == -1 <==> forall j :: 0 <= j < |open| ==> !SameKey(open[j], key)
  {
    FindFrom(open, key, 0)
  }

  /** TArray::RemoveAt: the list without its element at `pos`, the rest in order. */
  function RemoveAt(s: seq<Note>, pos: nat): (r: seq<Note>)
    requires pos < |s|
    ensures |r| == |s| - 1
    ensures forall j :: 0 <= j < |r| ==> r[j] == if j < pos then s[j] else s[j + 1]
  {
    s[..pos] + s[pos + 1..]
  }

  // ---------------------------------------------------------------------------------------
  // Scanning a track

  /** The extractor's state within a track: the clock (anchor tick, anchor time, tempo), the
      index of the next breakpoint, the open notes in opening order, and the notes emitted so
      far (over all tracks). */
  datatype Scan = Scan(clock: Clock, next: nat, open: seq<Note>, out: seq<Note>)

  /** A track starts with the anchor at (0, 0), tempo `mpqn`, the first breakpoint next and
      no open notes. */
  function TrackStart(mpqn: int, out: seq<Note>): Scan
  {
    Scan(Clock(0.0, 0.0, mpqn), 0, [], out)
  }

  /** A note-off for (channel, pitch) of `key` at time `end`: the earliest open note with that
      key is closed and emitted with its length; without one nothing changes. Works on the
      open notes and the emitted notes. */
  function CloseKey(open: seq<Note>, out: seq<Note>, key: Note, end: real): (seq<Note>, seq<Note>)
  {
    var pos := FindKey(open, key);
    if pos == -1 then (open, out)
    else (RemoveAt(open, pos), out + [open[pos].(length := end - open[pos].start)])
  }

  /** What event `e`, at time `time`, does to the open and the emitted notes. */
  function Handle(open: seq<Note>, out: seq<Note>, e: Event, time: real): (seq<Note>, seq<Note>)
  {
    match e.payload
    case NoteOn(channel, note, velocity) =>
      if velocity > 0 then (open + [NewNote(time, note, channel)], out)
      else CloseKey(open, out, NewNote(0.0, note, channel), time)
    case NoteOff(channel, note, _) => CloseKey(open, out, NewNote(0.0, note, channel), time)
    case _ => (open, out)
  }

  /** One event: catch up with the tempo map, then handle the event at the time its tick
      has under the clock. */
  function ScanEvent(tempos: seq<Event>, ppq: int, s: Scan, e: Event): (r: Scan)
    requires ppq > 0 && s.next <= |tempos|
    ensures r.next <= |tempos|
  {
    var (c, next) := CatchUp(tempos, ppq, s.clock, s.next, e.tick);
    var (open, out) := Handle(s.open, s.out, e, TimeAt(c, ppq, e.tick as real));
    Scan(c, next, open, out)
  }

  /** The state after the first `n` events of `t`. */
  function ScanTrack(tempos: seq<Event>, ppq: int, s0: Scan, t: Track, n: nat): (r: Scan)
    requires ppq > 0 && s0.next <= |tempos| && n <= |t|
    ensures r.next <= |tempos|
    decreases n
  {
    if n == 0 then s0 else ScanEvent(tempos, ppq, ScanTrack(tempos, ppq, s0, t, n - 1), t[n - 1])
  }

  /** The notes of tracks 1 .. n-1, with the tempo each track ended in. When `carry` holds,
      the tempo a track ends in is the one the next track starts in (the running MPQN is
      declared once for all tracks); otherwise every track starts at the default tempo. */
  function Extract(tracks: seq<Track>, ppq: int, tempos: seq<Event>, carry: bool, n: nat): (int, seq<Note>)
    requires ppq > 0 && 1 <= n <= |tracks|
    decreases n
  {
    if n == 1 then (DefaultMpqn, [])
    else
      var (mpqn, out) := Extract(tracks, ppq, tempos, carry, n - 1);
      var s := ScanTrack(tempos, ppq, TrackStart(if carry then mpqn else DefaultMpqn, out),
                         tracks[n - 1], |tracks[n - 1]|);
      (s.clock.mpqn, s.out)
  }

  /** The notes the source collects before sorting, tempo carried from track to track. */
  function NotesAsWritten(f: MidiFile): seq<Note>
    requires |f.tracks| > 0 && f.resolution > 0
  {
    Extract(f.tracks, f.resolution, TempoEvents(f.tracks[0]), true, |f.tracks|).1
  }

  /** The notes collected before sorting, every track starting at the default tempo. */
  function Notes(f: MidiFile): seq<Note>
    requires |f.tracks| > 0 && f.resolution > 0
  {
    Extract(f.tracks, f.resolution, TempoEvents(f.tracks[0]), false, |f.tracks|).1
  }

  // ---------------------------------------------------------------------------------------
  // Properties

  /** Within a track whose ticks never decrease, started at the default tempo, the clock
      after an event is the tempo map's clock at that event's tick, whatever came before. */
  lemma {:induction false} TrackFollowsMap(tempos: seq<Event>, ppq: int, out: seq<Note>, t: Track, n: nat)
    requires ppq > 0 && TicksSorted(t) && 1 <= n <= |t|
    ensures ScanTrack(tempos, ppq, TrackStart(DefaultMpqn, out), t, n).clock == MapClock(tempos, ppq, t[n - 1].tick)
    ensures ScanTrack(tempos, ppq, TrackStart(DefaultMpqn, out), t, n).next == DueEnd(tempos, 0, t[n - 1].tick as real)
    decreases n
  {
    var s0 := TrackStart(DefaultMpqn, out);
    var tick := t[n - 1].tick;
    if n == 1 {
      assert s0.clock == ReplayPrefix(StartClock, ppq, tempos, 0);
      CatchUpFollowsMap(tempos, ppq, StartClock, 0, tick);
    } else {
      var prev := t[n - 2].tick;
      TrackFollowsMap(tempos, ppq, out, t, n - 1);
      var k := DueEnd(tempos, 0, prev as real);
      CatchUpFollowsMap(tempos, ppq, StartClock, k, tick);
      DueEndSplit(tempos, 0, prev as real, tick as real);
    }
  }

  /** Within such a track every note-on, note-off and velocity-0 note-on is handled at the
      time the tempo map gives its tick: a tick means the same time in every track. */
  lemma NoteTimesFollowMap(tempos: seq<Event>, ppq: int, out: seq<Note>, t: Track, n: nat)
    requires ppq > 0 && TicksSorted(t) && 1 <= n <= |t|
    ensures var s := ScanTrack(tempos, ppq, TrackStart(DefaultMpqn, out), t, n - 1);
            var e := t[n - 1];
            var (open, emitted) := Handle(s.open, s.out, e, MapTime(tempos, ppq, e.tick));
            ScanTrack(tempos, ppq, TrackStart(DefaultMpqn, out), t, n)
              == Scan(MapClock(tempos, ppq, e.tick), DueEnd(tempos, 0, e.tick as real), open, emitted)
  {
    TrackFollowsMap(tempos, ppq, out, t, n);
  }

  /** From the map's clock at `t1` up to the clock after breakpoint `j`: the time at any
      tick `y` from t1 and from breakpoint j - 1 on is no earlier than the map's time at t1. */
  lemma {:induction false} MapTimeFrom(tempos: seq<Event>, ppq: int, t1: nat, j: nat, y: real)
    requires ppq > 0 && TicksSorted(tempos) && TemposPositive(tempos)
    requires DueEnd(tempos, 0, t1 as real) <= j <= |tempos| && t1 as real <= y
    requires j > DueEnd(tempos, 0, t1 as real) ==> tempos[j - 1].tick as real <= y
    ensures MapTime(tempos, ppq, t1) <= TimeAt(ReplayPrefix(StartClock, ppq, tempos, j), ppq, y)
    decreases j
  {
    var k1 := DueEnd(tempos, 0, t1 as real);
    var c := ReplayPrefix(StartClock, ppq, tempos, j);
    ReplayKeepsTempoPositive(StartClock, ppq, tempos, j);
    if j == k1 {
      TimeAtMonotone(c, ppq, t1 as real, y);
    } else {
      var b := tempos[j - 1].tick as real;
      TimeAtMonotone(c, ppq, b, y);
      assert TimeAt(c, ppq, b) == TimeAt(ReplayPrefix(StartClock, ppq, tempos, j - 1), ppq, b);
      DueEndComplete(tempos, 0, t1 as real);
      if j - 1 > k1 {
        assert tempos[j - 2].tick <= tempos[j - 1].tick;
      }
      MapTimeFrom(tempos, ppq, t1, j - 1, b);
    }
  }

  /** On the tempo map of sorted breakpoints with positive tempos, a later tick is never at
      an earlier time: time is continuous at each breakpoint and grows between them. */
  lemma MapTimeMonotone(tempos: seq<Event>, ppq: int, t1: nat, t2: nat)
    requires ppq > 0 && TicksSorted(tempos) && TemposPositive(tempos) && t1 <= t2
    ensures MapTime(tempos, ppq, t1) <= MapTime(tempos, ppq, t2)
  {
    var k1, k2 := DueEnd(tempos, 0, t1 as real), DueEnd(tempos, 0, t2 as real);
    DueEndSplit(tempos, 0, t1 as real, t2 as real);
    DueEndIsDueRun(tempos, 0, t2 as real);
    MapTimeFrom(tempos, ppq, t1, k2, t2 as real);
  }

  /** Notes opened by velocity > 0 note-ons. */
  function Opens(t: Track, n: nat): nat
    requires n <= |t|
  {
    if n == 0 then 0
    else Opens(t, n - 1) + (if t[n - 1].payload.NoteOn? && t[n - 1].payload.velocity > 0 then 1 else 0)
  }

  /** Every note ever opened in a track is either still open or emitted once: emitted plus
      open notes count the velocity > 0 note-ons. */
  lemma {:induction false} ScanTrackCount(tempos: seq<Event>, ppq: int, s0: Scan, t: Track, n: nat)
    requires ppq > 0 && s0.next <= |tempos| && n <= |t|
    ensures var r := ScanTrack(tempos, ppq, s0, t, n);
            |r.open| + |r.out| == |s0.open| + |s0.out| + Opens(t, n) && |s0.out| <= |r.out|
    decreases n
  {
    if n > 0 {
      ScanTrackCount(tempos, ppq, s0, t, n - 1);
    }
  }

  /** The velocity > 0 note-ons of tracks 1 .. n-1. */
  function OpensInTracks(tracks: seq<Track>, n: nat): nat
    requires n <= |tracks|
  {
    if n <= 1 then 0 else OpensInTracks(tracks, n - 1) + Opens(tracks[n - 1], |tracks[n - 1]|)
  }

  /** No more notes come out than velocity > 0 note-ons went in (tracks 1 and above); notes
      left open at the end of a track are dropped. */
  lemma {:induction false} ExtractCount(tracks: seq<Track>, ppq: int, tempos: seq<Event>, carry: bool, n: nat)
    requires ppq > 0 && 1 <= n <= |tracks|
    ensures |Extract(tracks, ppq, tempos, carry, n).1| <= OpensInTracks(tracks, n)
    decreases n
  {
    if n > 1 {
      ExtractCount(tracks, ppq, tempos, carry, n - 1);
      var (mpqn, out) := Extract(tracks, ppq, tempos, carry, n - 1);
      var t := tracks[n - 1];
      ScanTrackCount(tempos, ppq, TrackStart(if carry then mpqn else DefaultMpqn, out), t, |t|);
    }
  }

  /** Track 0 is never scanned for notes: two files with the same resolution, the same
      tempo events on track 0 and the same other tracks give the same notes. */
  lemma {:induction false} OnlyTemposOfTrackZeroMatter(tracks: seq<Track>, others: seq<Track>, ppq: int,
                                                       tempos: seq<Event>, carry: bool, n: nat)
    requires ppq > 0 && 1 <= n <= |tracks| && |others| == |tracks|
    requires forall i :: 1 <= i < |tracks| ==> others[i] == tracks[i]
    ensures Extract(tracks, ppq, tempos, carry, n) == Extract(others, ppq, tempos, carry, n)
    decreases n
  {
    if n > 1 {
      OnlyTemposOfTrackZeroMatter(tracks, others, ppq, tempos, carry, n - 1);
    }
  }

  /** The notes one track yields on its own, started at the default tempo. */
  function TrackNotes(tempos: seq<Event>, ppq: int, t: Track): seq<Note>
    requires ppq > 0
  {
    ScanTrack(tempos, ppq, TrackStart(DefaultMpqn, []), t, |t|).out
  }

  /** Notes already emitted are never looked at again: handling an event only appends. */
  lemma HandleKeepsEmitted(open: seq<Note>, pre: seq<Note>, out: seq<Note>, e: Event, time: real)
    ensures var (o, u) := Handle(open, out, e, time);
            Handle(open, pre + out, e, time) == (o, pre + u)
  {
    match e.payload
    case NoteOn(channel, note, velocity) =>
      if velocity <= 0 {
        var pos := FindKey(open, NewNote(0.0, note, channel));
        if pos != -1 {
          AppendAssoc(pre, out, [open[pos].(length := time - open[pos].start)]);
        }
      }
    case NoteOff(channel, note, _) =>
      var pos := FindKey(open, NewNote(0.0, note, channel));
      if pos != -1 {
        AppendAssoc(pre, out, [open[pos].(length := time - open[pos].start)]);
      }
    case _ =>
  }

  lemma {:induction false} ScanTrackKeepsEmitted(tempos: seq<Event>, ppq: int, s0: Scan, pre: seq<Note>, t: Track, n: nat)
    requires ppq > 0 && s0.next <= |tempos| && n <= |t|
    ensures var r := ScanTrack(tempos, ppq, s0, t, n);
            ScanTrack(tempos, ppq, s0.(out := pre + s0.out), t, n) == r.(out := pre + r.out)
    decreases n
  {
    if n > 0 {
      ScanTrackKeepsEmitted(tempos, ppq, s0, pre, t, n - 1);
      var r := ScanTrack(tempos, ppq, s0, t, n - 1);
      var (c, next) := CatchUp(tempos, ppq, r.clock, r.next, t[n - 1].tick);
      HandleKeepsEmitted(r.open, pre, r.out, t[n - 1], TimeAt(c, ppq, t[n - 1].tick as real));
    }
  }

  /** With every track starting at the default tempo, each track contributes exactly the
      notes it yields on its own, whatever tracks come before it. */
  lemma TracksIndependent(tracks: seq<Track>, ppq: int, tempos: seq<Event>, n: nat)
    requires ppq > 0 && 2 <= n <= |tracks|
    ensures Extract(tracks, ppq, tempos, false, n).1
         == Extract(tracks, ppq, tempos, false, n - 1).1 + TrackNotes(tempos, ppq, tracks[n - 1])
  {
    var pre := Extract(tracks, ppq, tempos, false, n - 1).1;
    var s0 := TrackStart(DefaultMpqn, []);
    assert s0.(out := pre + s0.out) == TrackStart(DefaultMpqn, pre);
    ScanTrackKeepsEmitted(tempos, ppq, s0, pre, tracks[n - 1], |tracks[n - 1]|);
  }

  /** One step of Extract, from the state after the tracks before the last. */
  lemma ExtractLast(tracks: seq<Track>, ppq: int, tempos: seq<Event>, carry: bool, n: nat, mpqn: int, pre: seq<Note>)
    requires ppq > 0 && 2 <= n <= |tracks| && Extract(tracks, ppq, tempos, carry, n - 1) == (mpqn, pre)
    ensures var t := tracks[n - 1];
            Extract(tracks, ppq, tempos, carry, n).1
              == ScanTrack(tempos, ppq, TrackStart(if carry then mpqn else DefaultMpqn, pre), t, |t|).out
  {
  }

  /** A file whose only tempo change (to 1,000,000 MPQN) is at tick 480 of 480 PPQ, with one
      note after it on track 1 and one note across it on track 2. */
  function LeakExample(): MidiFile
  {
    MidiFile(480, [
      [Event(480, Tempo(1000000))],
      [Event(960, NoteOn(0, 60, 100)), Event(1440, NoteOff(0, 60, 0))],
      [Event(0, NoteOn(0, 62, 100)), Event(480, NoteOff(0, 62, 0))]])
  }

  /** The example's tempo map: one breakpoint, time 0.5 s at tick 480. */
  lemma LeakExampleMap()
    ensures TempoEvents(LeakExample().tracks[0]) == [Event(480, Tempo(1000000))]
    ensures MapClock([Event(480, Tempo(1000000))], 480, 480) == Clock(480.0, 0.5, 1000000)
    ensures MapTime([Event(480, Tempo(1000000))], 480, 480) == 0.5
  {
    var t0 := LeakExample().tracks[0];
    assert TemposUpTo(t0, 0) == [];
    var tempos := [Event(480, Tempo(1000000))];
    assert ApplyTempo(StartClock, 480, tempos[0]) == Clock(480.0, 0.5, 1000000);
    assert DueEnd(tempos, 1, 480.0) == 1;
  }

  /** Track 1 of the example: the breakpoint is applied before its note-on, and the track
      ends in the tempo 1,000,000. */
  lemma LeakExampleTrack1()
    ensures var s := ScanTrack([Event(480, Tempo(1000000))], 480, TrackStart(DefaultMpqn, []), LeakExample().tracks[1], 2);
            s.clock == Clock(480.0, 0.5, 1000000) && s.out == [Note(1.5, 1.0, 60, 0)]
  {
    var tempos := [Event(480, Tempo(1000000))];
    var t1 := LeakExample().tracks[1];
    var s0 := TrackStart(DefaultMpqn, []);
    var after := Clock(480.0, 0.5, 1000000);
    assert CatchUp(tempos, 480, s0.clock, 0, 960) == (after, 1);
    assert ScanTrack(tempos, 480, s0, t1, 1) == Scan(after, 1, [Note(1.5, 0.0, 60, 0)], []);
    assert CatchUp(tempos, 480, after, 1, 1440) == (after, 1);
  }

  /** Both ways, track 1 yields its note and ends in the tempo 1,000,000. */
  lemma LeakExampleUpToTrack1(f: MidiFile, carry: bool)
    requires f == LeakExample()
    ensures Extract(f.tracks, 480, TempoEvents(f.tracks[0]), carry, 2) == (1000000, [Note(1.5, 1.0, 60, 0)])
  {
    LeakExampleMap();
    LeakExampleTrack1();
  }

  /** Track 2 of the example from tempo `mpqn`: the note ends at the breakpoint, so its
      length is the span 0 .. 480 under the tempo the track started in. */
  lemma LeakExampleTrack2(f: MidiFile, mpqn: int, pre: seq<Note>)
    requires f == LeakExample()
    ensures var t := f.tracks[2];
            ScanTrack(TempoEvents(f.tracks[0]), 480, TrackStart(mpqn, pre), t, |t|).out
              == pre + [Note(0.0, mpqn as real / 1000000.0, 62, 0)]
  {
    LeakExampleMap();
    var tempos := [Event(480, Tempo(1000000))];
    var t2 := f.tracks[2];
    var s0 := TrackStart(mpqn, pre);
    assert ScanTrack(tempos, 480, s0, t2, 1) == Scan(s0.clock, 0, [Note(0.0, 0.0, 62, 0)], pre);
    var c := Clock(480.0, mpqn as real / 1000000.0, 1000000);
    assert CatchUp(tempos, 480, s0.clock, 0, 480) == (c, 1);
    assert ScanTrack(tempos, 480, s0, t2, 2) == ScanEvent(tempos, 480, ScanTrack(tempos, 480, s0, t2, 1), t2[1]);
  }

  /** As written, the tempo is carried from track to track: track 2 starts in the tempo
      track 1 ended in (1,000,000) while its anchor and breakpoint index start over, so its
      note, which ends at tick 480 (0.5 s on the tempo map), comes out 1.0 s long. */
  lemma TempoLeaksAcrossTracks(f: MidiFile)
    requires f == LeakExample()
    ensures MapTime(TempoEvents(f.tracks[0]), 480, 480) == 0.5
    ensures NotesAsWritten(f) == [Note(1.5, 1.0, 60, 0), Note(0.0, 1.0, 62, 0)]
  {
    LeakExampleMap();
    var first := [Note(1.5, 1.0, 60, 0)];
    assert f.resolution == 480 && |f.tracks| == 3;
    LeakExampleUpToTrack1(f, true);
    LeakExampleTrack2(f, 1000000, first);
    ExtractLast(f.tracks, 480, TempoEvents(f.tracks[0]), true, 3, 1000000, first);
  }

  /** With the default tempo at each track start, track 2's note is 0.5 s long, as the
      tempo map gives and as the track yields on its own. */
  lemma DefaultTempoPerTrack(f: MidiFile)
    requires f == LeakExample()
    ensures TrackNotes(TempoEvents(f.tracks[0]), 480, f.tracks[2]) == [Note(0.0, 0.5, 62, 0)]
    ensures Notes(f) == [Note(1.5, 1.0, 60, 0), Note(0.0, 0.5, 62, 0)]
  {
    var first := [Note(1.5, 1.0, 60, 0)];
    assert f.resolution == 480 && |f.tracks| == 3;
    LeakExampleUpToTrack1(f, false);
    LeakExampleTrack2(f, DefaultMpqn, first);
    ExtractLast(f.tracks, 480, TempoEvents(f.tracks[0]), false, 3, 1000000, first);
    LeakExampleTrack2(f, DefaultMpqn, []);
  }

  // ---------------------------------------------------------------------------------------
  // The extractor

  /** The scan of track 0 for its tempo events. */
  method CollectTempos(t: Track) returns (tempos: seq<Event>)
    ensures tempos == TempoEvents(t)
  {
    tempos := [];
    var k := 0;
    while k < |t|
      invariant k <= |t| && tempos == TemposUpTo(t, k)
    {
      if t[k].payload.Tempo? {
        tempos := tempos + [t[k]];
      }
      k := k + 1;
    }
  }

  /** The source's breakpoint cursor: the index and tick of the next tempo change, both -1
      once every breakpoint has been applied. */
  predicate Cursor(tempos: seq<Event>, id: int, idTick: int)
  {
    (id == -1 && idTick == -1) || (0 <= id < |tempos| && idTick == tempos[id].tick)
  }

  /** The index the cursor stands for, with -1 meaning past the end. */
  function NextIndex(tempos: seq<Event>, id: int): nat
    requires id == -1 || 0 <= id < |tempos|
  {
    if id == -1 then |tempos| else id
  }

  /** The catch-up loop run before an event at `tick`, over the track's locals (anchor tick
      and time, tempo, cursor), proved to be CatchUp. */
  method CatchUpTempo(tempos: seq<Event>, ppq: int, tick: nat,
                      tick0: int, time0: real, mpqn0: int, id0: int, idTick0: int)
    returns (startTick: int, startTime: real, mpqn: int, nextTempoId: int, nextTempoTick: int)
    requires ppq > 0 && Cursor(tempos, id0, idTick0)
    requires forall j :: 0 <= j < |tempos| ==> tempos[j].payload.Tempo?
    ensures Cursor(tempos, nextTempoId, nextTempoTick)
    ensures (Clock(startTick as real, startTime, mpqn), NextIndex(tempos, nextTempoId))
         == CatchUp(tempos, ppq, Clock(tick0 as real, time0, mpqn0), NextIndex(tempos, id0), tick)
  {
    startTick, startTime, mpqn, nextTempoId, nextTempoTick := tick0, time0, mpqn0, id0, idTick0;
    while nextTempoTick > -1 && tick >= nextTempoTick
      invariant Cursor(tempos, nextTempoId, nextTempoTick)
      invariant CatchUp(tempos, ppq, Clock(startTick as real, startTime, mpqn), NextIndex(tempos, nextTempoId), tick)
             == CatchUp(tempos, ppq, Clock(tick0 as real, time0, mpqn0), NextIndex(tempos, id0), tick)
      decreases if nextTempoId == -1 then 0 else |tempos| - nextTempoId
    {
      ghost var c := Clock(startTick as real, startTime, mpqn);
      ghost var e := tempos[nextTempoId];
      startTime := startTime + ((nextTempoTick - startTick) as real * mpqn as real / ppq as real) / 1000000.0;
      startTick := nextTempoTick;
      mpqn := tempos[nextTempoId].payload.mpqn;
      assert Clock(startTick as real, startTime, mpqn) == ApplyTempo(c, ppq, e);
      nextTempoId := nextTempoId + 1;
      if nextTempoId < |tempos| {
        nextTempoTick := tempos[nextTempoId].tick;
      } else {
        nextTempoId := -1;
        nextTempoTick := -1;
      }
    }
  }

  /** The note handling of one event at time `time`: a note-on with velocity > 0 opens a
      note; a note-off or a velocity-0 note-on closes the earliest open note of its channel
      and pitch, if there is one; other events do nothing. */
  method HandleEvent(e: Event, time: real, open0: seq<Note>, notes0: seq<Note>)
    returns (open: seq<Note>, notes: seq<Note>)
    ensures (open, notes) == Handle(open0, notes0, e, time)
  {
    open, notes := open0, notes0;
    match e.payload {
      case NoteOn(channel, note, velocity) =>
        if velocity > 0 {
          open := open + [NewNote(time, note, channel)];
        } else {
          var pos := FindKey(open, NewNote(0.0, note, channel));
          if pos != -1 {
            var closed := open[pos];
            open := RemoveAt(open, pos);
            closed := closed.(length := time - closed.start);
            notes := notes + [closed];
          }
        }
      case NoteOff(channel, note, _) =>
        var pos := FindKey(open, NewNote(0.0, note, channel));
        if pos != -1 {
          var closed := open[pos];
          open := RemoveAt(open, pos);
          closed := closed.(length := time - closed.start);
          notes := notes + [closed];
        }
      case _ =>
    }
  }

  /** One track of the extractor: anchor at (0, 0), the first breakpoint next, no open
      notes, and the tempo `mpqn0` the track is entered with; then, for each event, the
      catch-up loop and the note handling. Emitted notes are appended to `out`; the tempo
      the track ends in is returned. */
  method ScanTrackNotes(tempos: seq<Event>, ppq: int, t: Track, mpqn0: int, out: seq<Note>)
    returns (mpqn: int, notes: seq<Note>)
    requires ppq > 0 && forall j :: 0 <= j < |tempos| ==> tempos[j].payload.Tempo?
    ensures var s := ScanTrack(tempos, ppq, TrackStart(mpqn0, out), t, |t|);
            mpqn == s.clock.mpqn && notes == s.out
  {
    mpqn := mpqn0;
    var open: seq<Note> := [];
    notes := out;
    var nextTempoId: int := -1;
    var nextTempoTick: int := -1;
    var startTick: int := 0;
    var startTime: real := 0.0;
    if |tempos| > 0 {
      nextTempoId := 0;
      nextTempoTick := tempos[nextTempoId].tick;
    }
    ghost var s0 := TrackStart(mpqn0, out);
    var k := 0;
    while k < |t|
      invariant k <= |t| && Cursor(tempos, nextTempoId, nextTempoTick)
      invariant Scan(Clock(startTick as real, startTime, mpqn), NextIndex(tempos, nextTempoId), open, notes)
             == ScanTrack(tempos, ppq, s0, t, k)
    {
      var e := t[k];
      startTick, startTime, mpqn, nextTempoId, nextTempoTick :=
        CatchUpTempo(tempos, ppq, e.tick, startTick, startTime, mpqn, nextTempoId, nextTempoTick);
      // startTime + (tick - startTick) * MPQN / PPQ / 1e6
      var time := TimeAt(Clock(startTick as real, startTime, mpqn), ppq, e.tick as real);
      open, notes := HandleEvent(e, time, open, notes);
      k := k + 1;
    }
  }

  /** The collecting part of GetMidiNotes: track 0's tempo events become the tempo map,
      then tracks 1 and above are scanned in order. The running tempo is declared once,
      before the track loop; with `carry` each track is entered with the tempo the previous
      one ended in, as the source is written, and without it every track is entered with
      the default tempo. */
  method CollectNotes(f: MidiFile, carry: bool) returns (out: seq<Note>)
    requires |f.tracks| > 0 && f.resolution > 0
    ensures carry ==> out == NotesAsWritten(f)
    ensures !carry ==> out == Notes(f)
  {
    var ntracks := |f.tracks|;
    out := [];
    var mpqn := DefaultMpqn;
    var ppq := f.resolution;
    var tempos := CollectTempos(f.tracks[0]);
    TempoEventsMembers(f.tracks[0]);
    assert forall j :: 0 <= j < |tempos| ==> tempos[j].payload.Tempo?;
    for i := 1 to ntracks
      invariant (mpqn, out) == Extract(f.tracks, ppq, tempos, carry, i)
    {
      mpqn, out := ScanTrackNotes(tempos, ppq, f.tracks[i], if carry then mpqn else DefaultMpqn, out);
    }
  }

  /** GetMidiNotes: without a file the output is left as it was. Otherwise it is emptied,
      filled with the notes of tracks 1 and above, and sorted by operator<. */
  method GetMidiNotes(file: Option<MidiFile>, notes: seq<Note>) returns (r: seq<Note>)
    requires file.Some? ==> |file.value.tracks| > 0 && file.value.resolution > 0
    ensures file.None? ==> r == notes
    ensures file.Some? ==> SortedNotes(r) && multiset(r) == multiset(Notes(file.value))
  {
    if file.None? {
      return notes;
    }
    var out := CollectNotes(file.value, false);
    var a := new Note[|out|](j requires 0 <= j < |out| => out[j]);
    assert a[..] == out;
    SortNotes(a);
    r := a[..];
  }
}
