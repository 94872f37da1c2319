/**
 The recency list and map that both least-recently-used caches keep, proved to hold, after any
 run of their operations, exactly the most recently used keys that fit.
 */
module Recency {
  import opened Counting

  type Key = string

  // ---- Recency of use ----

  function Remove(s: seq<Key>, k: Key): seq<Key> {
    if |s| == 0 then []
    else if s[0] == k then Remove(s[1..], k)
    else [s[0]] + Remove(s[1..], k)
  }

  // The distinct keys of a history of uses, the latest used first.
  function Recent(uses: seq<Key>): seq<Key> {
    if |uses| == 0 then []
    else
      var last := uses[|uses| - 1];
      [last] + Remove(Recent(uses[..|uses| - 1]), last)
  }

  function Take(s: seq<Key>, n: nat): seq<Key> {
    if |s| <= n then s else s[..n]
  }

  lemma ConsDistinct(k: Key, s: seq<Key>)
    requires k !in s && NoRepeats(s)
    ensures NoRepeats([k] + s)
  {
    assert forall i :: 0 < i < |[k] + s| ==> ([k] + s)[i] == s[i - 1];
  }

  lemma {:induction false} RemoveKeepsOthers(s: seq<Key>, k: Key)
    ensures forall x :: x in Remove(s, k) <==> x in s && x != k
    ensures NoRepeats(s) ==> NoRepeats(Remove(s, k))
  {
    if |s| > 0 {
      RemoveKeepsOthers(s[1..], k);
      assert forall x :: x in s <==> x == s[0] || x in s[1..];
      if NoRepeats(s) {
        assert NoRepeats(s[1..]) && s[0] !in s[1..];
        if s[0] != k {
          ConsDistinct(s[0], Remove(s[1..], k));
        }
      }
    }
  }

  lemma {:induction false} RemoveAbsent(s: seq<Key>, k: Key)
    requires k !in s
    ensures Remove(s, k) == s
  {
    if |s| > 0 {
      RemoveAbsent(s[1..], k);
    }
  }

  lemma {:induction false} RemoveConcat(s: seq<Key>, t: seq<Key>, k: Key)
    ensures Remove(s + t, k) == Remove(s, k) + Remove(t, k)
  {
    if |s| == 0 {
      assert s + t == t;
    } else {
      var u := s + t;
      assert u[1..] == s[1..] + t && u[0] == s[0];
      RemoveConcat(s[1..], t, k);
      if s[0] != k {
        assert [s[0]] + (Remove(s[1..], k) + Remove(t, k)) == ([s[0]] + Remove(s[1..], k)) + Remove(t, k);
      }
    }
  }

  lemma {:induction false} RecentIsDistinct(uses: seq<Key>)
    ensures NoRepeats(Recent(uses))
    ensures forall k :: k in Recent(uses) <==> k in uses
    decreases |uses|
  {
    if |uses| > 0 {
      var n := |uses| - 1;
      RecentIsDistinct(uses[..n]);
      RemoveKeepsOthers(Recent(uses[..n]), uses[n]);
      ConsDistinct(uses[n], Remove(Recent(uses[..n]), uses[n]));
      assert uses == uses[..n] + [uses[n]];
    }
  }

  // The position of the last use of a key.
  function LastUse(uses: seq<Key>, k: Key): (i: nat)
    requires k in uses
    ensures i < |uses| && uses[i] == k && forall j :: i < j < |uses| ==> uses[j] != k
  {
    var n := |uses| - 1;
    if uses[n] == k then n
    else
      assert uses == uses[..n] + [uses[n]];
      LastUse(uses[..n], k)
  }

  // Recent orders the used keys by their last use, latest first.
  lemma {:induction false} RecentIsByLastUse(uses: seq<Key>, i: nat, j: nat)
    requires i < j < |Recent(uses)|
    ensures Recent(uses)[i] in uses && Recent(uses)[j] in uses
    ensures LastUse(uses, Recent(uses)[i]) > LastUse(uses, Recent(uses)[j])
    decreases |uses|
  {
    RecentIsDistinct(uses);
    var n := |uses| - 1;
    var before, x, y := Recent(uses[..n]), Recent(uses)[i], Recent(uses)[j];
    assert x in Recent(uses) && y in Recent(uses) && y != Recent(uses)[0];
    if i > 0 {
      assert x != Recent(uses)[0];
      assert x == Remove(before, uses[n])[i - 1] && y == Remove(before, uses[n])[j - 1];
      RemoveKeepsOrder(before, uses[n], i - 1, j - 1);
      var a, b :| 0 <= a < b < |before| && before[a] == x && before[b] == y;
      RecentIsByLastUse(uses[..n], a, b);
    }
  }

  lemma {:induction false} RemoveKeepsOrder(s: seq<Key>, k: Key, i: nat, j: nat)
    requires i < j < |Remove(s, k)|
    ensures exists a, b :: 0 <= a < b < |s| && s[a] == Remove(s, k)[i] && s[b] == Remove(s, k)[j]
  {
    if s[0] == k {
      RemoveKeepsOrder(s[1..], k, i, j);
      var a, b :| 0 <= a < b < |s[1..]| && s[1..][a] == Remove(s, k)[i] && s[1..][b] == Remove(s, k)[j];
      assert s[a + 1] == Remove(s, k)[i] && s[b + 1] == Remove(s, k)[j];
    } else if i > 0 {
      RemoveKeepsOrder(s[1..], k, i - 1, j - 1);
      var a, b :| 0 <= a < b < |s[1..]| && s[1..][a] == Remove(s, k)[i] && s[1..][b] == Remove(s, k)[j];
      assert s[a + 1] == Remove(s, k)[i] && s[b + 1] == Remove(s, k)[j];
    } else {
      RemoveKeepsOthers(s[1..], k);
      assert Remove(s, k)[j] == Remove(s[1..], k)[j - 1] && Remove(s[1..], k)[j - 1] in s[1..];
      var b :| 0 <= b < |s[1..]| && s[1..][b] == Remove(s, k)[j];
      assert s[0] == Remove(s, k)[i] && s[b + 1] == Remove(s, k)[j];
    }
  }

  // The keys used since the last use of a key.
  function UsedSince(uses: seq<Key>, k: Key): set<Key>
    requires k in uses
  {
    set j | LastUse(uses, k) < j < |uses| :: uses[j]
  }

  // The keys in front of a key are those used since its last use.
  lemma InFrontIsUsedSince(uses: seq<Key>, i: nat, x: Key)
    requires i < |Recent(uses)| && Recent(uses)[i] in uses
    ensures x in Recent(uses)[..i] <==> x in UsedSince(uses, Recent(uses)[i])
  {
    var r := Recent(uses);
    RecentIsDistinct(uses);
    if x in r[..i] {
      var j :| 0 <= j < i && r[j] == x;
      RecentIsByLastUse(uses, j, i);
      assert uses[LastUse(uses, x)] == x;
    }
    if x in UsedSince(uses, r[i]) {
      assert x in uses && x in r;
      var j :| 0 <= j < |r| && r[j] == x;
      assert x != r[i];
      if j > i {
        RecentIsByLastUse(uses, i, j);
      }
      assert r[..i][j] == x;
    }
  }

  // A key is held exactly when fewer than n distinct keys were used since its last use.
  lemma HeldIffFewUsedSince(uses: seq<Key>, n: nat, k: Key)
    requires k in uses
    ensures k in Take(Recent(uses), n) <==> |UsedSince(uses, k)| < n
  {
    var r := Recent(uses);
    RecentIsDistinct(uses);
    var i :| 0 <= i < |r| && r[i] == k;
    forall x ensures x in r[..i] <==> x in UsedSince(uses, k) {
      InFrontIsUsedSince(uses, i, x);
    }
    DistinctCount(r[..i]);
    assert (set j | 0 <= j < |r[..i]| :: r[..i][j]) == UsedSince(uses, k);
    if k in Take(r, n) {
      var j :| 0 <= j < |Take(r, n)| && Take(r, n)[j] == k;
      assert r[j] == k;
    }
    assert i < n ==> Take(r, n)[i] == k;
  }

  // A cache with room for more keys holds whatever a smaller one holds after the same uses.
  lemma LargerHoldsSmaller(uses: seq<Key>, n: nat, m: nat)
    requires n <= m
    ensures Take(Recent(uses), n) <= Take(Recent(uses), m)
  {
  }

  // Using a key that is held moves it to the front;
  lemma PromoteIsRecent(uses: seq<Key>, n: nat, k: Key)
    requires k in Take(Recent(uses), n)
    ensures Take(Recent(uses + [k]), n) == [k] + Remove(Take(Recent(uses), n), k)
  {
    var r, held := Recent(uses), Take(Recent(uses), n);
    var rest := r[|held|..];
    assert r == held + rest;
    RecentIsDistinct(uses);
    NotInRest(held, rest, k);
    RemoveConcat(held, rest, k);
    RemoveAbsent(rest, k);
    RemoveLength(held, k);
    var front := [k] + Remove(held, k);
    assert Recent(uses + [k]) == front + rest && |front| == |held|;
    assert (front + rest)[..|front|] == front;
  }

  lemma NotInRest(held: seq<Key>, rest: seq<Key>, k: Key)
    requires NoRepeats(held + rest) && k in held
    ensures k !in rest && NoRepeats(held)
  {
    var at :| 0 <= at < |held| && held[at] == k;
    forall i | 0 <= i < |rest| ensures rest[i] != k {
      assert (held + rest)[|held| + i] == rest[i] && (held + rest)[at] == k;
    }
    assert forall i :: 0 <= i < |held| ==> (held + rest)[i] == held[i];
  }

  lemma {:induction false} RemoveLength(s: seq<Key>, k: Key)
    requires NoRepeats(s)
    ensures |Remove(s, k)| == if k in s then |s| - 1 else |s|
  {
    if |s| > 0 {
      assert NoRepeats(s[1..]);
      RemoveLength(s[1..], k);
      if s[0] == k {
        RemoveAbsent(s[1..], k);
      }
    }
  }

  // using one that is not puts it in front and drops what no longer fits.
  lemma InsertIsRecent(uses: seq<Key>, n: nat, k: Key)
    requires k !in Take(Recent(uses), n)
    ensures Take(Recent(uses + [k]), n) == Take([k] + Take(Recent(uses), n), n)
  {
    var r, held := Recent(uses), Take(Recent(uses), n);
    var rest := r[|held|..];
    assert r == held + rest;
    RemoveConcat(held, rest, k);
    RemoveAbsent(held, k);
    assert Recent(uses + [k]) == ([k] + held) + Remove(rest, k);
    assert rest != [] ==> |held| == n;
  }

  // ---- The shared list and map ----

  class Lru<V> {
    var entries: map<Key, V>
    var lru: seq<Key>                          // front first
    const maxEntries: nat
    ghost var uses: seq<Key>

    // Map and list are in bijection, and the list is the recency order of the uses so far.
    ghost predicate Valid()
      reads this
    {
      Bijection() && lru == Take(Recent(uses), maxEntries)
    }

    ghost predicate Bijection()
      reads this
    {
      NoRepeats(lru) && forall k :: k in entries <==> k in lru
    }

    constructor (maxEntries: nat)
      ensures Valid() && entries == map[] && uses == [] && this.maxEntries == maxEntries
    {
      entries, lru, uses := map[], [], [];
      this.maxEntries := maxEntries;
    }

    method MoveToFront(key: Key)
      requires Valid() && key in entries
      modifies this`lru, this`uses
      ensures Valid() && uses == old(uses) + [key]
    {
      PromoteIsRecent(uses, maxEntries, key);
      RemoveKeepsOthers(lru, key);
      lru := [key] + Remove(lru, key);
      uses := uses + [key];
    }

    method Store(key: Key, value: V)
      requires Valid()
      modifies this
      ensures Valid() && uses == old(uses) + [key]
      ensures maxEntries > 0 ==> key in entries
      ensures key in entries ==> entries[key] == value
      ensures forall k :: k in entries && k != key ==> k in old(entries) && entries[k] == old(entries)[k]
    {
      if key in entries {
        entries := entries[key := value];
        MoveToFront(key);
        return;
      }
      InsertIsRecent(uses, maxEntries, key);
      ConsDistinct(key, lru);
      lru := [key] + lru;
      entries := entries[key := value];
      uses := uses + [key];
      EvictOldest();
      assert maxEntries > 0 ==> lru[0] == key;
    }

    method EvictOldest()
      requires Bijection()
      modifies this`entries, this`lru
      ensures Bijection() && lru == Take(old(lru), maxEntries)
      ensures forall k :: k in entries ==> k in old(entries) && entries[k] == old(entries)[k]
    {
      ghost var all := lru;
      while |lru| > maxEntries
        invariant Bijection() && |lru| <= |all|
        invariant lru == all[..|lru|]
        invariant |lru| >= maxEntries || lru == all
        invariant forall k :: k in entries ==> k in old(entries) && entries[k] == old(entries)[k]
        decreases |lru|
      {
        EvictLast();
      }
    }

    method EvictLast()
      requires Bijection() && |lru| > 0
      modifies this`entries, this`lru
      ensures Bijection() && lru == old(lru)[..|old(lru)| - 1]
      ensures forall k :: k in entries ==> k in old(entries) && entries[k] == old(entries)[k]
    {
      var victim := lru[|lru| - 1];
      lru := lru[..|lru| - 1];
      entries := entries - {victim};
    }
  }
}
