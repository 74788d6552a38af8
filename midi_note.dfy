/** FMidiNote: a note found by the extractor, with its equality (same channel and pitch)
    and its ordering (by start, then channel, then pitch). Start and Length are floats in
    the source; here they are exact reals. */
module MidiNote {

  datatype Note = Note(start: real, length: real, value: int, channel: int)

  /** The default constructor: everything zero. */
  function DefaultNote(): (n: Note)
    ensures n.start == 0.0 && n.length == 0.0 && n.value == 0 && n.channel == 0
  {
    Note(0.0, 0.0, 0, 0)
  }

  /** The three-argument constructor: a note that starts at `start` and has no length yet. */
  function NewNote(start: real, value: int, channel: int): (n: Note)
    ensures n.start == start && n.value == value && n.channel == channel && n.length == 0.0
  {
    DefaultNote().(start := start, length := 0.0, value := value, channel := channel)
  }

  /** operator==: two notes are equal when they share channel and pitch. */
  predicate SameKey(a: Note, b: Note)
  {
    a.channel == b.channel && a.value == b.value
  }

  /** operator<: lexicographic on (Start, Channel, Value); Length plays no part. */
  predicate NoteLess(a: Note, b: Note)
  {
    a.start < b.start ||
    (a.start == b.start && (a.channel < b.channel ||
      (a.channel == b.channel && a.value < b.value)))
  }

  /** "Not after": what a sorted list promises between an earlier and a later note. */
  predicate NoteLeq(a: Note, b: Note)
  {
    !NoteLess(b, a)
  }

  /** Sorted by operator<: no note is less than a note before it. */
  predicate SortedNotes(s: seq<Note>)
  {
    forall i, j :: 0 <= i < j < |s| ==> NoteLeq(s[i], s[j])
  }

  /** operator== is an equivalence relation that ignores Start and Length. */
  lemma SameKeyIsEquivalence(a: Note, b: Note, c: Note, start: real, length: real)
    ensures SameKey(a, a)
    ensures SameKey(a, b) ==> SameKey(b, a)
    ensures SameKey(a, b) && SameKey(b, c) ==> SameKey(a, c)
    ensures SameKey(a, a.(start := start, length := length))
  {
  }

  /** operator< is a strict order: irreflexive, asymmetric and transitive. */
  lemma NoteLessIsStrictOrder(a: Note, b: Note, c: Note)
    ensures !NoteLess(a, a)
    ensures NoteLess(a, b) ==> !NoteLess(b, a)
    ensures NoteLess(a, b) && NoteLess(b, c) ==> NoteLess(a, c)
  {
  }

  /** Two notes that differ in (Start, Channel, Value) are ordered one way or the other;
      two that agree on them are ordered neither way, whatever their lengths. */
  lemma NoteLessIsTotalOnKeys(a: Note, b: Note)
    ensures (a.start, a.channel, a.value) != (b.start, b.channel, b.value)
            <==> NoteLess(a, b) || NoteLess(b, a)
  {
  }

  /** "Not after" is total and transitive, so a list can be sorted by it. */
  lemma NoteLeqIsTotalPreorder(a: Note, b: Note, c: Note)
    ensures NoteLeq(a, b) || NoteLeq(b, a)
    ensures NoteLeq(a, b) && NoteLeq(b, c) ==> NoteLeq(a, c)
    ensures NoteLess(a, b) && NoteLeq(b, c) ==> NoteLess(a, c)
  {
  }

  /** Index of a least note of a[from..] under operator<. */
  method MinIndex(a: array<Note>, from: nat) returns (m: nat)
    requires from < a.Length
    ensures from <= m < a.Length
    ensures forall k :: from <= k < a.Length ==> NoteLeq(a[m], a[k])
  {
    m := from;
    var j := from + 1;
    while j < a.Length
      invariant from <= m < a.Length && from + 1 <= j <= a.Length
      invariant forall k :: from <= k < j ==> NoteLeq(a[m], a[k])
    {
      if NoteLess(a[j], a[m]) {
        forall k | from <= k < j
          ensures NoteLeq(a[j], a[k])
        {
          NoteLeqIsTotalPreorder(a[j], a[m], a[k]);
        }
        m := j;
      }
      j := j + 1;
    }
  }

  /** TArray::Sort with operator<, in place. The library's algorithm is not part of this
      model; a selection sort gives the same guarantee: sorted, and a permutation. */
  method SortNotes(a: array<Note>)
    modifies a
    ensures SortedNotes(a[..])
    ensures multiset(a[..]) == old(multiset(a[..]))
  {
    var i := 0;
    while i < a.Length
      invariant 0 <= i <= a.Length
      invariant forall p, q :: 0 <= p < i && p < q < a.Length ==> NoteLeq(a[p], a[q])
      invariant multiset(a[..]) == old(multiset(a[..]))
    {
      var m := MinIndex(a, i);
      a[i], a[m] := a[m], a[i];
      i := i + 1;
    }
  }
}
