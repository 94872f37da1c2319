/** The order by time and then by rank that the listings use, and a sort by it. */
module Stamps {
  import opened Types

  datatype Stamp = Stamp(time: Time, rank: nat)

  predicate Lt(x: Stamp, y: Stamp) {
    x.time < y.time || (x.time == y.time && x.rank < y.rank)
  }

  ghost predicate Sorted<T(!new)>(s: seq<T>, key: T -> Stamp) {
    forall i, j :: 0 <= i < j < |s| ==> !Lt(key(s[j]), key(s[i]))
  }

  // Stands for the library sort.
  method SortByStamp<T(!new)>(items: seq<T>, key: T -> Stamp) returns (s: seq<T>)
    ensures Sorted(s, key) && multiset(s) == multiset(items)
  {
    s := [];
    for i := 0 to |items|
      invariant Sorted(s, key) && multiset(s) == multiset(items[..i])
    {
      var at := Place(s, items[i], key);
      InsertKeepsSorted(s, at, items[i], key);
      assert s == s[..at] + s[at..];
      assert items[..i + 1] == items[..i] + [items[i]];
      s := s[..at] + [items[i]] + s[at..];
    }
    assert items[..|items|] == items;
  }

  // Where an item belongs in a sorted sequence.
  method Place<T(!new)>(s: seq<T>, x: T, key: T -> Stamp) returns (at: nat)
    requires Sorted(s, key)
    ensures at <= |s|
    ensures forall i :: 0 <= i < at ==> !Lt(key(x), key(s[i]))
    ensures forall i :: at <= i < |s| ==> !Lt(key(s[i]), key(x))
  {
    at := 0;
    while at < |s| && !Lt(key(x), key(s[at]))
      invariant at <= |s|
      invariant forall i :: 0 <= i < at ==> !Lt(key(x), key(s[i]))
    {
      at := at + 1;
    }
  }

  lemma InsertKeepsSorted<T(!new)>(s: seq<T>, at: nat, x: T, key: T -> Stamp)
    requires Sorted(s, key) && at <= |s|
    requires forall i :: 0 <= i < at ==> !Lt(key(x), key(s[i]))
    requires forall i :: at <= i < |s| ==> !Lt(key(s[i]), key(x))
    ensures Sorted(s[..at] + [x] + s[at..], key)
  {
  }
}
