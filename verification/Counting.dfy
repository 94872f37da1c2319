/** Concatenated sequences, sequences without repetitions, and the sizes of finite sets. */
module Counting {

  lemma Regroup<T>(a: seq<T>, b: seq<T>, c: seq<T>)
    ensures (a + b) + c == a + (b + c)
  {
  }

  predicate NoRepeats<T(==)>(s: seq<T>) {
    forall i, j :: 0 <= i < j < |s| ==> s[i] != s[j]
  }

  // A subset has at most as many elements, and as many only if it is the whole set.
  lemma SubsetSize<T>(s: set<T>, t: set<T>)
    requires s <= t
    ensures |s| <= |t|
    ensures |s| == |t| ==> s == t
  {
    assert t == s + (t - s);
  }

  lemma {:induction false} OnceIn<T>(s: seq<T>, x: T)
    requires NoRepeats(s)
    ensures multiset(s)[x] <= 1
  {
    if |s| > 0 {
      var before, last := s[..|s| - 1], s[|s| - 1];
      assert s == before + [last];
      OnceIn(before, x);
      if last == x {
        assert x !in before;
        assert multiset(before)[x] == 0;
      }
    }
  }

  lemma TwiceIn<T>(s: seq<T>, i: nat, j: nat)
    requires i < j < |s| && s[i] == s[j]
    ensures multiset(s)[s[i]] >= 2
  {
    assert s == s[..i] + [s[i]] + s[i + 1..j] + [s[j]] + s[j + 1..];
  }

  // Reordering brings no repetition about.
  lemma ReorderKeepsNoRepeats<T>(s: seq<T>, t: seq<T>)
    requires NoRepeats(s) && multiset(s) == multiset(t)
    ensures NoRepeats(t)
  {
    forall i, j | 0 <= i < j < |t| ensures t[i] != t[j] {
      if t[i] == t[j] {
        TwiceIn(t, i, j);
        OnceIn(s, t[i]);
      }
    }
  }

  // A sequence without repetitions has as many elements as places.
  lemma {:induction false} DistinctCount<T>(s: seq<T>)
    requires NoRepeats(s)
    ensures |set i | 0 <= i < |s| :: s[i]| == |s|
  {
    if |s| > 0 {
      var last := |s| - 1;
      DistinctCount(s[..last]);
      var before := set i | 0 <= i < last :: s[..last][i];
      assert (set i | 0 <= i < |s| :: s[i]) == before + {s[last]};
    }
  }
}
