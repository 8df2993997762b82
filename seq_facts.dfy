/** Small facts about sequences that the walker's proofs call explicitly, to keep each proof cheap. */
module SeqFacts {
  /** Concatenation is associative. */
  lemma AppendAssoc<T>(a: seq<T>, b: seq<T>, c: seq<T>)
    ensures a + b + c == a + (b + c)
  {
  }

  /** A prefix one element longer. */
  lemma TakeOneMore<T>(s: seq<T>, k: nat)
    requires k < |s|
    ensures s[..k + 1] == s[..k] + [s[k]]
  {
  }

  /** Appending two elements one at a time or together. */
  lemma AppendPair<T>(a: seq<T>, x: T, y: T)
    ensures a + [x] + [y] == a + [x, y]
  {
  }

  /** A prefix stays a prefix when the longer sequence grows. */
  lemma PrefixExtend<T>(a: seq<T>, b: seq<T>, c: seq<T>)
    requires a <= b
    ensures a <= b + c
  {
  }

  /** The elements of a sequence with two more appended. */
  lemma AppendPairIndex<T>(a: seq<T>, x: T, y: T)
    ensures |a + [x, y]| == |a| + 2
    ensures forall i :: 0 <= i < |a| ==> (a + [x, y])[i] == a[i]
    ensures (a + [x, y])[|a|] == x && (a + [x, y])[|a| + 1] == y
  {
  }

  /** Dropping the element just appended gives back the sequence. */
  lemma DropLast<T>(a: seq<T>, x: T)
    ensures (a + [x])[..|a|] == a
  {
  }

  /** What a prefix holds, the whole sequence holds. */
  lemma TakeKeeps<T>(s: seq<T>, n: nat, x: T)
    requires n <= |s|
    ensures x in s[..n] ==> x in s
  {
    if x in s[..n] {
      var k :| 0 <= k < n && s[..n][k] == x;
      assert s[k] == x;
    }
  }

  /** Appending nothing. */
  lemma AppendEmpty<T>(a: seq<T>)
    ensures a + [] == a
  {
  }
}
