/** The tick/time conversion that the playback engine and the note extractor share.
    A clock is the tempo anchor, the tick and the time pinned at the last tempo change,
    together with the tempo (microseconds per quarter note, MPQN) in force since then.
    Times are exact reals; the source's float/double rounding is not modelled. */
module TempoMath {
  import opened MidiTypes

  datatype Clock = Clock(anchorTick: real, anchorTime: real, mpqn: int)

  /** The clock before any tempo change: anchored at tick 0, time 0, default tempo. */
  const StartClock: Clock := Clock(0.0, 0.0, DefaultMpqn)

  /** Seconds at `tick` under clock `c`: the anchor time plus
      (tick - anchor tick) * MPQN / PPQ / 1e6. */
  function TimeAt(c: Clock, ppq: int, tick: real): real
    requires ppq > 0
  {
    c.anchorTime + (tick - c.anchorTick) * c.mpqn as real / ppq as real / 1000000.0
  }

  /** The re-pin done on every tempo change: the anchor moves to `tick` with the time that
      the OLD tempo gives there, and only then is `newMpqn` adopted. Time is therefore
      continuous at the breakpoint. */
  function Repin(c: Clock, ppq: int, tick: real, newMpqn: int): (r: Clock)
    requires ppq > 0
    ensures r.anchorTick == tick && r.mpqn == newMpqn
    ensures TimeAt(r, ppq, tick) == TimeAt(c, ppq, tick)
  {
    Clock(tick, TimeAt(c, ppq, tick), newMpqn)
  }

  /** Adopting the new tempo before re-pinning would move the time of the breakpoint itself,
      unless the breakpoint is the anchor or the tempo does not change. */
  lemma NewTempoFirstBreaksContinuity(c: Clock, ppq: int, tick: real, newMpqn: int)
    requires ppq > 0
    ensures TimeAt(c.(mpqn := newMpqn), ppq, tick) == TimeAt(c, ppq, tick)
            <==> tick == c.anchorTick || newMpqn == c.mpqn
  {
    var d := tick - c.anchorTick;
    var k := ppq as real * 1000000.0;
    assert TimeAt(c, ppq, tick) == c.anchorTime + d * c.mpqn as real / k;
    assert TimeAt(c.(mpqn := newMpqn), ppq, tick) == c.anchorTime + d * newMpqn as real / k;
    if d != 0.0 && newMpqn != c.mpqn {
      assert d * newMpqn as real - d * c.mpqn as real == d * (newMpqn - c.mpqn) as real;
      assert d * (newMpqn - c.mpqn) as real != 0.0;
      assert d * newMpqn as real / k != d * c.mpqn as real / k;
    }
  }

  /** MidiUtil::msToTicks: ticks spanned by `ms` whole milliseconds at the given tempo and
      resolution, ms * 1000 / MPQN * PPQ. */
  function MsToTicks(ms: int, mpqn: int, ppq: int): real
    requires mpqn > 0
  {
    ms as real * 1000.0 / mpqn as real * ppq as real
  }

  /** The cast `(long)(seconds * 1000.0)`: whole milliseconds, truncated toward zero. */
  function TruncMs(seconds: real): (ms: int)
    ensures seconds >= 0.0 ==> 0 <= ms && ms as real <= seconds * 1000.0 < ms as real + 1.0
    ensures seconds < 0.0 ==> ms <= 0 && ms as real - 1.0 < seconds * 1000.0 <= ms as real
  {
    var x := seconds * 1000.0;
    if x >= 0.0 then x.Floor else -((-x).Floor)
  }

  /** The tick that clock `c` reaches at `seconds`: the anchor tick plus the ticks spanned by
      the whole milliseconds since the anchor time (the target of processTo). */
  function TicksAt(c: Clock, ppq: int, seconds: real): real
    requires ppq > 0 && c.mpqn > 0
  {
    c.anchorTick + MsToTicks(TruncMs(seconds - c.anchorTime), c.mpqn, ppq)
  }

  /** Ticks and milliseconds are proportional: ms milliseconds span exactly the ticks that
      TimeAt maps back to ms / 1000 seconds after the anchor. */
  lemma TimeAtMsToTicks(c: Clock, ppq: int, ms: int)
    requires ppq > 0 && c.mpqn > 0
    ensures TimeAt(c, ppq, c.anchorTick + MsToTicks(ms, c.mpqn, ppq)) == c.anchorTime + ms as real / 1000.0
  {
    var m, p := c.mpqn as real, ppq as real;
    var d := ms as real * 1000.0 / m * p;
    assert d * m / p == ms as real * 1000.0;
  }

  /** At a whole number of milliseconds after the anchor, seconds -> tick -> seconds is exact. */
  lemma TicksAtWholeMs(c: Clock, ppq: int, ms: nat)
    requires ppq > 0 && c.mpqn > 0
    ensures TicksAt(c, ppq, c.anchorTime + ms as real / 1000.0) == c.anchorTick + MsToTicks(ms, c.mpqn, ppq)
    ensures TimeAt(c, ppq, TicksAt(c, ppq, c.anchorTime + ms as real / 1000.0)) == c.anchorTime + ms as real / 1000.0
  {
    var s := c.anchorTime + ms as real / 1000.0;
    assert (s - c.anchorTime) * 1000.0 == ms as real;
    assert TruncMs(s - c.anchorTime) == ms;
    TimeAtMsToTicks(c, ppq, ms);
  }

  /** At or after the anchor, the tick processTo aims at lies at most one millisecond before
      the requested time, never after it. */
  lemma TimeAtTicksAtWithin(c: Clock, ppq: int, seconds: real)
    requires ppq > 0 && c.mpqn > 0 && seconds >= c.anchorTime
    ensures seconds - 0.001 < TimeAt(c, ppq, TicksAt(c, ppq, seconds)) <= seconds
  {
    var ms := TruncMs(seconds - c.anchorTime);
    TimeAtMsToTicks(c, ppq, ms);
  }

  /** A later seek time never aims at an earlier tick. */
  lemma TicksAtMonotone(c: Clock, ppq: int, s1: real, s2: real)
    requires ppq > 0 && c.mpqn > 0 && s1 <= s2
    ensures TicksAt(c, ppq, s1) <= TicksAt(c, ppq, s2)
  {
    var m1, m2 := TruncMs(s1 - c.anchorTime), TruncMs(s2 - c.anchorTime);
    assert m1 <= m2;
    var k := 1000.0 / c.mpqn as real * ppq as real;
    assert MsToTicks(m1, c.mpqn, ppq) == m1 as real * k;
    assert MsToTicks(m2, c.mpqn, ppq) == m2 as real * k;
    assert (m2 - m1) as real * k >= 0.0;
  }

  /** The count process() keeps is all the milliseconds since start under the tempo in
      force now, not the anchored count. At 480 PPQ with a change to 1,000,000 MPQN at tick
      480: 504 ms at the default tempo reach 483.84 ticks, so the change is dispatched; 8 ms
      later the count is 512 ms at the new tempo, 245.76 ticks, while the anchored count
      (TicksAt) has moved on to 485.76. */
  lemma PolledTicksCanRunBackwards()
    ensures MsToTicks(504, DefaultMpqn, 480) == 483.84
    ensures MsToTicks(512, 1000000, 480) == 245.76
    ensures TicksAt(Repin(StartClock, 480, 480.0, 1000000), 480, 0.512) == 485.76
  {
    var c := Repin(StartClock, 480, 480.0, 1000000);
    assert c == Clock(480.0, 0.5, 1000000);
    assert TruncMs(0.512 - 0.5) == 12;
  }

  /** The count process() keeps falls whenever the tempo it is computed under has grown
      faster than the milliseconds: if mpqn2 / mpqn1 > ms2 / ms1, then ms2 milliseconds at
      mpqn2 span fewer ticks than ms1 milliseconds at mpqn1. */
  lemma PolledTicksCanFall(ms1: int, ms2: int, mpqn1: int, mpqn2: int, ppq: int)
    requires ms1 > 0 && mpqn1 > 0 && mpqn2 > 0 && ppq > 0
    requires mpqn2 * ms1 > mpqn1 * ms2
    ensures MsToTicks(ms2, mpqn2, ppq) < MsToTicks(ms1, mpqn1, ppq)
  {
    var m1, m2, x1, x2 := mpqn1 as real, mpqn2 as real, ms1 as real, ms2 as real;
    var a, b := x2 * 1000.0 / m2, x1 * 1000.0 / m1;
    assert a * m2 == x2 * 1000.0;
    assert b * m1 == x1 * 1000.0;
    assert (mpqn2 * ms1) as real == m2 * x1 && (mpqn1 * ms2) as real == m1 * x2;
    assert a * (m1 * m2) == x2 * m1 * 1000.0;
    assert b * (m1 * m2) == x1 * m2 * 1000.0;
    assert a * (m1 * m2) < b * (m1 * m2);
    assert a < b;
    assert a * ppq as real < b * ppq as real;
  }

  /** A tempo change to a slower tempo (more microseconds per quarter note) puts every
      later tick at a later time than the clock before the change gave it. */
  lemma SlowdownDelaysTime(c: Clock, ppq: int, e: Event, tick: real)
    requires ppq > 0 && e.payload.Tempo? && e.payload.mpqn > c.mpqn && e.tick as real < tick
    ensures TimeAt(ApplyTempo(c, ppq, e), ppq, tick) > TimeAt(c, ppq, tick)
  {
    var b, p := e.tick as real, ppq as real;
    var m1, m2 := c.mpqn as real, e.payload.mpqn as real;
    var r := ApplyTempo(c, ppq, e);
    assert r == Clock(b, TimeAt(c, ppq, b), e.payload.mpqn);
    var base := TimeAt(c, ppq, b);
    assert (tick - c.anchorTick) * m1 == (b - c.anchorTick) * m1 + (tick - b) * m1;
    assert TimeAt(c, ppq, tick) == base + (tick - b) * m1 / p / 1000000.0;
    assert TimeAt(r, ppq, tick) == base + (tick - b) * m2 / p / 1000000.0;
    assert (tick - b) * m2 - (tick - b) * m1 == (tick - b) * (m2 - m1);
    assert (tick - b) * m2 > (tick - b) * m1;
  }

  /** processTo computes its target once, under the clock in force before the drain. At
      480 PPQ with a change to 1,000,000 MPQN at tick 480, a seek to 1.0 s aims at tick 960;
      once the change is dispatched, tick 960 is at 1.5 s, and a second seek to 1.0 s aims
      at tick 720. */
  lemma SeekTargetCanMoveBack()
    ensures TicksAt(StartClock, 480, 1.0) == 960.0
    ensures ApplyTempo(StartClock, 480, Event(480, Tempo(1000000))) == Clock(480.0, 0.5, 1000000)
    ensures TimeAt(Clock(480.0, 0.5, 1000000), 480, 960.0) == 1.5
    ensures TicksAt(Clock(480.0, 0.5, 1000000), 480, 1.0) == 720.0
  {
    assert TruncMs(1.0) == 1000;
    assert TruncMs(1.0 - 0.5) == 500;
  }

  /** Under a positive tempo, later ticks are never earlier in time. */
  lemma TimeAtMonotone(c: Clock, ppq: int, t1: real, t2: real)
    requires ppq > 0 && c.mpqn > 0 && t1 <= t2
    ensures TimeAt(c, ppq, t1) <= TimeAt(c, ppq, t2)
  {
    var k := ppq as real * 1000000.0;
    assert (t2 - c.anchorTick) * c.mpqn as real - (t1 - c.anchorTick) * c.mpqn as real
           == (t2 - t1) * c.mpqn as real;
    assert (t2 - t1) * c.mpqn as real >= 0.0;
    assert TimeAt(c, ppq, t1) == c.anchorTime + (t1 - c.anchorTick) * c.mpqn as real / k;
    assert TimeAt(c, ppq, t2) == c.anchorTime + (t2 - c.anchorTick) * c.mpqn as real / k;
  }

  /** The effect of one dispatched event on the clock: a tempo event re-pins it at the
      event's tick and adopts the event's tempo; every other event leaves it alone. */
  function ApplyTempo(c: Clock, ppq: int, e: Event): Clock
    requires ppq > 0
  {
    if e.payload.Tempo? then Repin(c, ppq, e.tick as real, e.payload.mpqn) else c
  }

  /** The clock after the first `n` events of `es` have been applied in order. */
  function ReplayPrefix(c: Clock, ppq: int, es: seq<Event>, n: nat): Clock
    requires ppq > 0 && n <= |es|
    decreases n
  {
    if n == 0 then c else ApplyTempo(ReplayPrefix(c, ppq, es, n - 1), ppq, es[n - 1])
  }

  /** The clock after the events `es` have been applied in order. */
  function Replay(c: Clock, ppq: int, es: seq<Event>): Clock
    requires ppq > 0
  {
    ReplayPrefix(c, ppq, es, |es|)
  }

  /** Only the first `n` events count. */
  lemma {:induction false} ReplayPrefixAgree(c: Clock, ppq: int, s: seq<Event>, t: seq<Event>, n: nat)
    requires ppq > 0 && n <= |s| && n <= |t|
    requires forall j :: 0 <= j < n ==> s[j] == t[j]
    ensures ReplayPrefix(c, ppq, s, n) == ReplayPrefix(c, ppq, t, n)
    decreases n
  {
    if n > 0 {
      ReplayPrefixAgree(c, ppq, s, t, n - 1);
    }
  }

  /** Events without a tempo leave the clock alone. */
  lemma {:induction false} ReplayWithoutTempo(c: Clock, ppq: int, es: seq<Event>, n: nat)
    requires ppq > 0 && n <= |es|
    requires forall j :: 0 <= j < n ==> !es[j].payload.Tempo?
    ensures ReplayPrefix(c, ppq, es, n) == c
    decreases n
  {
    if n > 0 {
      ReplayWithoutTempo(c, ppq, es, n - 1);
    }
  }

  lemma {:induction false} ReplayAppendPrefix(c: Clock, ppq: int, a: seq<Event>, b: seq<Event>, k: nat)
    requires ppq > 0 && k <= |b|
    ensures ReplayPrefix(c, ppq, a + b, |a| + k) == ReplayPrefix(Replay(c, ppq, a), ppq, b, k)
    decreases k
  {
    if k == 0 {
      ReplayPrefixAgree(c, ppq, a + b, a, |a|);
    } else {
      ReplayAppendPrefix(c, ppq, a, b, k - 1);
      assert (a + b)[|a| + k - 1] == b[k - 1];
    }
  }

  /** Replaying two runs of events one after the other is replaying their concatenation. */
  lemma ReplayAppend(c: Clock, ppq: int, a: seq<Event>, b: seq<Event>)
    requires ppq > 0
    ensures Replay(c, ppq, a + b) == Replay(Replay(c, ppq, a), ppq, b)
  {
    ReplayAppendPrefix(c, ppq, a, b, |b|);
  }

  /** A positive tempo stays positive through events whose tempos are all positive. */
  lemma {:induction false} ReplayKeepsTempoPositive(c: Clock, ppq: int, es: seq<Event>, n: nat)
    requires ppq > 0 && c.mpqn > 0 && n <= |es| && TemposPositive(es)
    ensures ReplayPrefix(c, ppq, es, n).mpqn > 0
    decreases n
  {
    if n > 0 {
      ReplayKeepsTempoPositive(c, ppq, es, n - 1);
    }
  }
}
