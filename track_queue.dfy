/** The forward-only cursor over one track: the run of events due up to a tick, and the
    MidiTrackEventQueue class nested in MidiProcessor that walks a track with it. */
module TrackQueue {
  import opened MidiTypes

  /** Position just past the maximal run of events of `track`, starting at `from`, whose
      ticks are all at or below `limit`: where a cursor at `from` stops when it dispatches
      everything due by `limit`. */
  function DueEnd(track: Track, from: nat, limit: real): (k: nat)
    requires from <= |track|
    ensures from <= k <= |track|
    decreases |track| - from
  {
    if from < |track| && track[from].tick as real <= limit then DueEnd(track, from + 1, limit) else from
  }

  /** Every event of the run is due by `limit`, and the event that stops it (if any) is not. */
  lemma {:induction false} DueEndIsDueRun(track: Track, from: nat, limit: real)
    requires from <= |track|
    ensures forall j :: from <= j < DueEnd(track, from, limit) ==> track[j].tick as real <= limit
    ensures DueEnd(track, from, limit) < |track| ==> track[DueEnd(track, from, limit)].tick as real > limit
    decreases |track| - from
  {
    if from < |track| && track[from].tick as real <= limit {
      DueEndIsDueRun(track, from + 1, limit);
    }
  }

  /** Stopping at `t1` and then going on to a later `t2` ends where going straight to `t2`
      ends: a cursor skips and repeats nothing however its targets are split up. */
  lemma {:induction false} DueEndSplit(track: Track, from: nat, t1: real, t2: real)
    requires from <= |track| && t1 <= t2
    ensures DueEnd(track, DueEnd(track, from, t1), t2) == DueEnd(track, from, t2)
    decreases |track| - from
  {
    if from < |track| && track[from].tick as real <= t1 {
      DueEndSplit(track, from + 1, t1, t2);
    }
  }

  /** The due run is determined by its two defining facts: a position from which every
      event up to it is due and at which the next event (if any) is not, is DueEnd. */
  lemma {:induction false} DueEndUnique(track: Track, from: nat, k: nat, limit: real)
    requires from <= k <= |track|
    requires forall j :: from <= j < k ==> track[j].tick as real <= limit
    requires k < |track| ==> track[k].tick as real > limit
    ensures DueEnd(track, from, limit) == k
    decreases k - from
  {
    if from < k {
      DueEndUnique(track, from + 1, k, limit);
    }
  }

  /** On a track whose ticks never decrease, nothing at or after the stop is due: the run is
      every remaining event due by `limit`. */
  lemma DueEndComplete(track: Track, from: nat, limit: real)
    requires from <= |track| && TicksSorted(track)
    ensures forall j :: DueEnd(track, from, limit) <= j < |track| ==> track[j].tick as real > limit
  {
    var k := DueEnd(track, from, limit);
    DueEndIsDueRun(track, from, limit);
    if k < |track| {
      forall j | k <= j < |track|
        ensures track[j].tick as real > limit
      {
        assert track[k].tick <= track[j].tick;
      }
    }
  }

  /** The events track[lo..hi], built one event at a time: the run a cursor passes over
      when it moves from `lo` to `hi`. */
  function Run(track: Track, lo: nat, hi: nat): (r: seq<Event>)
    requires lo <= hi <= |track|
    ensures |r| == hi - lo
    decreases hi
  {
    if hi == lo then [] else Run(track, lo, hi - 1) + [track[hi - 1]]
  }

  /** The k-th event of the run is the track's event at lo + k. */
  lemma {:induction false} RunIndex(track: Track, lo: nat, hi: nat)
    requires lo <= hi <= |track|
    ensures forall k :: 0 <= k < hi - lo ==> Run(track, lo, hi)[k] == track[lo + k]
    decreases hi
  {
    if hi > lo {
      RunIndex(track, lo, hi - 1);
    }
  }

  /** The run is the slice. */
  lemma RunIsSlice(track: Track, lo: nat, hi: nat)
    requires lo <= hi <= |track|
    ensures Run(track, lo, hi) == track[lo..hi]
  {
    RunIndex(track, lo, hi);
  }

  /** MidiTrackEventQueue: a cursor into one track that hands out, on each call, the events
      that have become due. `position` is the index of mIterator and `next` is mNext, the
      event under it; `eventsToDispatch` is the buffer the last call filled. */
  class MidiTrackEventQueue {
    const track: Track
    var position: nat
    var next: Option<Event>
    var eventsToDispatch: seq<Event>
    /** Everything the queue has handed out since it was built or reset, in order. */
    ghost var delivered: seq<Event>

    ghost predicate Valid()
      reads this
    {
      && position <= |track|
      && next == (if position < |track| then Some(track[position]) else None)
      && delivered == Run(track, 0, position)
    }

    /** The next event is the track's first one, if it has any. */
    constructor (t: Track)
      ensures Valid() && track == t && position == 0
      ensures next.Some? <==> |t| > 0
      ensures |t| > 0 ==> next == Some(t[0])
      ensures eventsToDispatch == [] && delivered == []
    {
      track := t;
      position := 0;
      eventsToDispatch := [];
      delivered := [];
      next := None;
      if 0 < |t| {
        next := Some(t[0]);
      }
    }

    /** Empties the buffer, then moves past and returns the longest run of remaining events
        due by `tick`, in track order. */
    method GetNextEventsUpToTick(tick: real) returns (r: seq<Event>)
      requires Valid()
      modifies this
      ensures Valid()
      ensures position == DueEnd(track, old(position), tick)
      ensures r == eventsToDispatch == Run(track, old(position), position)
      ensures forall j :: 0 <= j < |r| ==> r[j].tick as real <= tick
      ensures next.None? || next.value.tick as real > tick
      ensures delivered == old(delivered) + r
    {
      eventsToDispatch := [];
      while next.Some?
        invariant Valid()
        invariant old(position) <= position
        invariant forall j :: old(position) <= j < position ==> track[j].tick as real <= tick
        invariant eventsToDispatch == Run(track, old(position), position)
        invariant delivered == old(delivered) + eventsToDispatch
        decreases |track| - position
      {
        if next.value.tick as real <= tick {
          eventsToDispatch := eventsToDispatch + [next.value];
          delivered := delivered + [next.value];
          position := position + 1;
          if position < |track| {
            next := Some(track[position]);
          } else {
            next := None;
          }
        } else {
          break;
        }
      }
      DueEndUnique(track, old(position), position, tick);
      RunIndex(track, old(position), position);
      r := eventsToDispatch;
    }

    /** There is a next event exactly when the cursor has not passed the track's end. */
    method HasMoreEvents() returns (b: bool)
      requires Valid()
      ensures b <==> position < |track|
      ensures b <==> delivered != track
    {
      b := next.Some?;
      RunIsSlice(track, 0, position);
      assert track[0..|track|] == track;
    }

    /** Rewinds to the first event; the buffer of the last call is kept. */
    method Reset()
      requires Valid()
      modifies this
      ensures Valid() && position == 0 && delivered == []
      ensures |track| > 0 ==> next == Some(track[0])
      ensures eventsToDispatch == old(eventsToDispatch)
    {
      position := 0;
      delivered := [];
      if position < |track| {
        next := Some(track[position]);
      }
    }
  }
}
