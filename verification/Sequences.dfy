/** Sequences without repetitions, and their elements. */
module Sequences {

  predicate NoRepeats<T(==)>(s: seq<T>) {
    forall i, j | 0 <= i < j < |s| :: s[i] != s[j]
  }

  function Elements<T(==)>(s: seq<T>): set<T> {
    set x | x in s
  }

  /** A sequence has as many elements as places exactly if nothing is repeated. */
  lemma {:induction false} CountsElements<T>(s: seq<T>)
    ensures |Elements(s)| <= |s|
    ensures |Elements(s)| == |s| <==> NoRepeats(s)
  {
    if s == [] {
      assert Elements(s) == {};
    } else {
      var n := |s| - 1;
      CountsElements(s[..n]);
      assert s == s[..n] + [s[n]];
      assert Elements(s) == Elements(s[..n]) + {s[n]};
      if NoRepeats(s) {
        assert s[n] !in s[..n];
      } else if NoRepeats(s[..n]) {
        var i, j :| 0 <= i < j < |s| && s[i] == s[j];
        assert j == n && s[..n][i] in s[..n];
        assert Elements(s) == Elements(s[..n]);
      }
    }
  }

  lemma HeadOrTail<T>(s: seq<T>, x: T)
    requires s != []
    ensures x in s <==> x == s[0] || x in s[1..]
  {
  }

  lemma PrefixNext<T>(s: seq<T>, i: nat)
    requires i < |s|
    ensures s[..i + 1] == s[..i] + [s[i]]
  {
  }
}
