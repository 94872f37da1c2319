/**
 The module cache, whose entries live for a limited time, and the public-key cache.  What the
 node or the signing service answers is a parameter, as is the clock.
 */
module Caches {
  import opened Types
  import opened Recency

  datatype AbiEntry = AbiEntry(abi: string, fetchedAt: Time)

  class AbiCache {
    const modules: Lru<AbiEntry>
    const ttl: nat
    ghost var fetches: map<Key, AbiEntry>      // the latest fetch of each key

    // What is cached is what was fetched last.
    ghost predicate Valid()
      reads this, modules
    {
      modules.Valid() && forall k :: k in modules.entries ==> k in fetches && modules.entries[k] == fetches[k]
    }

    constructor (ttl: nat, maxEntries: nat)
      ensures Valid() && fresh(modules) && modules.maxEntries == maxEntries && this.ttl == ttl
      ensures modules.entries == map[] && modules.uses == []
    {
      modules := new Lru(maxEntries);
      this.ttl := ttl;
      fetches := map[];
    }

    method GetModule(key: Key, now: Time, answer: Option<string>, later: Time) returns (abi: Option<string>)
      requires Valid()
      modifies this, modules
      ensures Valid()
      // a live entry is served as it was fetched, and nothing is fetched
      ensures key in old(modules.entries) && now - old(modules.entries)[key].fetchedAt < ttl ==>
                && abi == Some(old(modules.entries)[key].abi)
                && fetches == old(fetches) && modules.entries == old(modules.entries)
      // otherwise the answer is passed on, and cached if there is one
      ensures key !in old(modules.entries) || now - old(modules.entries)[key].fetchedAt >= ttl ==>
                && abi == answer
                && fetches == (if answer.Some? then old(fetches)[key := AbiEntry(answer.value, later)]
                               else old(fetches))
                && (answer.None? ==> modules.entries == old(modules.entries))
                && (answer.Some? && modules.maxEntries > 0 ==> key in modules.entries)
      ensures OthersKept(old(modules.entries), modules.entries, key)
      // every successful call, and no other, is a use
      ensures modules.uses == old(modules.uses) + (if abi.Some? then [key] else [])
      // no caller sees a module fetched longer ago than the time to live
      ensures abi.Some? ==>
                && key in fetches && fetches[key].abi == abi.value
                && (now - fetches[key].fetchedAt < ttl || fetches[key].fetchedAt == later)
    {
      if key in modules.entries && now - modules.entries[key].fetchedAt < ttl {
        abi := Some(modules.entries[key].abi);
        modules.MoveToFront(key);
        return;
      }
      if answer.None? {
        return None;
      }
      fetches := fetches[key := AbiEntry(answer.value, later)];
      modules.Store(key, AbiEntry(answer.value, later));
      return answer;
    }
  }

  // ---- Public keys ----

  predicate AllSpace(s: string) {
    forall i :: 0 <= i < |s| ==> IsSpace(s[i])
  }

  lemma LastGoesAfter(s: string, before: string, core: string, after: string)
    requires |s| > 0 && s[..|s| - 1] == before + core + after
    ensures s == before + core + (after + [s[|s| - 1]])
  {
    assert s == s[..|s| - 1] + [s[|s| - 1]];
  }

  // Trimming takes away white space only, and all that stands at either end.
  lemma {:induction false} TrimSpaceIsCore(s: string) returns (before: string, after: string)
    ensures s == before + TrimSpace(s) + after && AllSpace(before) && AllSpace(after)
    ensures TrimSpace(s) != "" ==> !IsSpace(TrimSpace(s)[0]) && !IsSpace(TrimSpace(s)[|TrimSpace(s)| - 1])
    decreases |s|
  {
    if |s| > 0 && IsSpace(s[|s| - 1]) {
      var rest: string;
      before, rest := TrimSpaceIsCore(s[..|s| - 1]);
      LastGoesAfter(s, before, TrimSpace(s), rest);
      after := rest + [s[|s| - 1]];
    } else {
      before := TrimLeftIsCore(s);
      after := "";
      if |s| > 0 {
        TrimLeftKeepsEnd(s);
      }
    }
  }

  lemma {:induction false} TrimLeftIsCore(s: string) returns (before: string)
    ensures s == before + TrimLeft(s) && AllSpace(before)
    decreases |s|
  {
    before := "";
    if |s| > 0 && IsSpace(s[0]) {
      before := TrimLeftIsCore(s[1..]);
      before := [s[0]] + before;
      assert s == [s[0]] + s[1..];
    }
  }

  predicate IsSpace(c: char)
    ensures IsSpace(c) <==> c as int in {9, 10, 11, 12, 13, 32}
  {
    c == ' ' || '\t' <= c <= '\r'
  }

  function TrimLeft(s: string): string {
    if |s| > 0 && IsSpace(s[0]) then TrimLeft(s[1..]) else s
  }

  function TrimSpace(s: string): string {
    if |s| > 0 && IsSpace(s[|s| - 1]) then TrimSpace(s[..|s| - 1]) else TrimLeft(s)
  }

  predicate IsPrefixed(hex: string)
    ensures IsPrefixed(hex) <==> |hex| >= 2 && hex[0] == '0' && (hex[1] == 'x' || hex[1] == 'X')
  {
    "0x" <= hex || "0X" <= hex
  }

  // Blank input stays blank; any other is its trimmed core, behind a prefix that is there once.
  function Ensure0xPrefix(hex: string): (r: string)
    ensures r == "" <==> TrimSpace(hex) == ""
    ensures r != "" ==> IsPrefixed(r)
    ensures IsPrefixed(TrimSpace(hex)) || r == "" ==> r == TrimSpace(hex)
    ensures !IsPrefixed(TrimSpace(hex)) && r != "" ==> r == "0x" + TrimSpace(hex)
  {
    var t := TrimSpace(hex);
    if t == "" then "" else if IsPrefixed(t) then t else "0x" + t
  }

  // The entries of other keys that are still held are as they were.
  ghost predicate OthersKept<V(!new)>(was: map<Key, V>, entries: map<Key, V>, key: Key) {
    forall k :: k in entries && k != key ==> k in was && entries[k] == was[k]
  }

  class PublicKeyCache {
    const keys: Lru<string>

    ghost predicate Valid()
      reads this, keys
    {
      keys.Valid() && forall k :: k in keys.entries ==> IsPrefixed(keys.entries[k])
    }

    constructor (maxEntries: nat)
      ensures Valid() && fresh(keys) && keys.maxEntries == maxEntries && keys.entries == map[] && keys.uses == []
    {
      keys := new Lru(maxEntries);
    }

    // The answer is the wallet's initial public key, None when the wallet cannot be read.
    method Resolve(walletID: Key, answer: Option<string>) returns (publicKey: Option<string>)
      requires Valid()
      modifies keys
      ensures Valid()
      ensures walletID in old(keys.entries) ==>
                publicKey == Some(old(keys.entries)[walletID]) && keys.entries == old(keys.entries)
      ensures walletID !in old(keys.entries) ==>
                && (publicKey.Some? <==> answer.Some? && TrimSpace(answer.value) != "")
                && (publicKey.Some? ==> publicKey == Some(Ensure0xPrefix(answer.value)))
                && (publicKey.None? ==> keys.entries == old(keys.entries))
                && (publicKey.Some? && keys.maxEntries > 0 ==> walletID in keys.entries)
      ensures OthersKept(old(keys.entries), keys.entries, walletID)
      ensures publicKey.Some? ==>
                IsPrefixed(publicKey.value) && (walletID in keys.entries ==> keys.entries[walletID] == publicKey.value)
      ensures keys.uses == old(keys.uses) + (if publicKey.Some? then [walletID] else [])
    {
      if walletID in keys.entries {
        publicKey := Some(keys.entries[walletID]);
        keys.MoveToFront(walletID);
        return;
      }
      if answer.None? {
        return None;
      }
      var raw := TrimSpace(answer.value);
      if raw == "" {
        return None;
      }
      TrimmedIsStable(answer.value);
      keys.Store(walletID, Ensure0xPrefix(raw));
      return Some(Ensure0xPrefix(raw));
    }

    method Set(walletID: Key, publicKeyHex: string)
      requires Valid()
      modifies keys
      ensures Valid()
      ensures TrimSpace(publicKeyHex) == "" ==> keys.entries == old(keys.entries) && keys.uses == old(keys.uses)
      ensures TrimSpace(publicKeyHex) != "" ==>
                && keys.uses == old(keys.uses) + [walletID]
                && (keys.maxEntries > 0 ==> walletID in keys.entries)
                && (walletID in keys.entries ==> keys.entries[walletID] == Ensure0xPrefix(publicKeyHex))
      ensures OthersKept(old(keys.entries), keys.entries, walletID)
    {
      var pk := Ensure0xPrefix(publicKeyHex);
      if pk == "" {
        return;
      }
      keys.Store(walletID, pk);
    }
  }

  lemma {:induction false} TrimmedIsStable(s: string)
    ensures TrimSpace(TrimSpace(s)) == TrimSpace(s)
    decreases |s|
  {
    if |s| > 0 && IsSpace(s[|s| - 1]) {
      TrimmedIsStable(s[..|s| - 1]);
    } else if |s| > 0 {
      TrimLeftKeepsEnd(s);
    }
  }

  // A string that does not end in a space is trimmed to one that neither ends nor begins in one.
  lemma {:induction false} TrimLeftKeepsEnd(s: string)
    requires |s| > 0 && !IsSpace(s[|s| - 1])
    ensures var t := TrimLeft(s); |t| > 0 && !IsSpace(t[|t| - 1]) && !IsSpace(t[0])
    decreases |s|
  {
    if IsSpace(s[0]) {
      TrimLeftKeepsEnd(s[1..]);
    }
  }
}
