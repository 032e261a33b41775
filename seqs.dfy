/** Facts about prefixes of sequences that the loops over recipients rely on. */
module Seqs {
  /** A prefix one longer is the prefix followed by the next element. */
  lemma PrefixGrows<T>(s: seq<T>, i: nat)
    requires i < |s|
    ensures s[..i + 1] == s[..i] + [s[i]]
  {
  }

  /** The prefix as long as the sequence is the sequence. */
  lemma PrefixWhole<T>(s: seq<T>)
    ensures s[..|s|] == s
  {
  }

  /** Removing the element at `k` from a duplicate-free sequence leaves a duplicate-free
      sequence of exactly the other elements. */
  lemma RemoveAt<T>(s: seq<T>, k: nat)
    requires k < |s| && forall i, j | 0 <= i < j < |s| :: s[i] != s[j]
    ensures var r := s[..k] + s[k + 1..];
            && |r| == |s| - 1
            && (forall i, j | 0 <= i < j < |r| :: r[i] != r[j])
            && (forall x :: x in r <==> x in s && x != s[k])
  {
    var r := s[..k] + s[k + 1..];
    assert forall i | 0 <= i < |r| :: r[i] == if i < k then s[i] else s[i + 1];
    forall x
      ensures x in r <==> x in s && x != s[k]
    {
      if x in s && x != s[k] {
        var j :| 0 <= j < |s| && s[j] == x;
        if j < k {
          assert r[j] == x;
        } else {
          assert r[j - 1] == x;
        }
      }
    }
  }
}
