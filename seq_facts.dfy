/** Facts about appends that the models lean on, proved once in isolation so that the
    proofs using them do not have to rediscover them among their own facts. */
module SeqFacts {

  /** Dropping the element just appended gives the sequence back. */
  lemma DropAppended<T>(s: seq<T>, x: T)
    ensures (s + [x])[..|s|] == s
    ensures (s + [x])[|s|] == x
  {
  }

  /** Appending is associative. */
  lemma AppendAssoc<T>(a: seq<T>, b: seq<T>, c: seq<T>)
    ensures (a + b) + c == a + (b + c)
  {
  }

  /** Updating the same index twice keeps the second value. */
  lemma UpdateTwice<T>(s: seq<T>, i: nat, x: T, y: T)
    requires i < |s|
    ensures s[i := x][i := y] == s[i := y]
  {
  }
}
