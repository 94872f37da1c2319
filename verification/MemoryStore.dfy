/**
 The in-memory store: the record map, the idempotency index and the sequence counters,
 updated in place under one mutex.  Each method is one critical section; the iteration
 order of a Go map is an arbitrary choice, and the clock is read once per section.
 */
module MemoryStore {
  import opened Types
  import opened Counting
  import opened QueueSpec
  import opened Stamps

  datatype WriteResult = Written | AlreadyExists | NotFound | IdempotencyConflict

  datatype ConditionalWrite = Updated | StatusDiffers | KeyConflict

  // The idempotency index and the non-empty keys of the stored records are in bijection.
  ghost predicate Indexed(rows: map<Id, Record>, idx: map<string, Id>) {
    && WellKeyed(rows)
    && (forall k :: k in idx ==> k != "" && idx[k] in rows && rows[idx[k]].key == k)
    && (forall id :: id in rows && rows[id].key != "" ==> rows[id].key in idx && idx[rows[id].key] == id)
  }

  ghost predicate KeyTaken(rows: map<Id, Record>, key: string, except: set<Id>) {
    exists id :: id in rows && id !in except && rows[id].key == key
  }

  // No other record owns the record's idempotency key.
  ghost predicate KeyFree(rows: map<Id, Record>, rec: Record) {
    rec.key == "" || !KeyTaken(rows, rec.key, {rec.id})
  }

  // No two records share a key; the index gives this.
  ghost predicate KeysUnique(rows: map<Id, Record>) {
    forall i, j :: i in rows && j in rows && rows[i].key == rows[j].key && rows[i].key != "" ==> i == j
  }

  // Rewriting a record without changing its id or key keeps the index right, and so does requeueing.
  lemma RewriteKeepsIndex(rows: map<Id, Record>, idx: map<string, Id>, id: Id, rec: Record)
    requires Indexed(rows, idx) && id in rows && rec.id == id && rec.key == rows[id].key
    ensures Indexed(rows[id := rec], idx)
  {
  }

  lemma RequeueOneMore(rows: map<Id, Record>, ids: set<Id>, now: Time, id: Id)
    requires id in rows && id !in ids
    ensures RequeueAll(rows, ids, now)[id] == rows[id]
    ensures RequeueAll(rows, ids, now)[id := Requeued(rows[id], now)] == RequeueAll(rows, ids + {id}, now)
  {
  }

  // Counting rows by sender, as the recovery does.
  ghost function SentBy(rows: map<Id, Record>, ids: set<Id>, a: Addr): set<Id> {
    set id | id in ids && id in rows && rows[id].sender == a
  }

  ghost predicate CountedBySender(rows: map<Id, Record>, ids: set<Id>, counts: map<Addr, nat>) {
    && (forall a :: a in counts <==> SentBy(rows, ids, a) != {})
    && (forall a :: a in counts ==> counts[a] == |SentBy(rows, ids, a)|)
  }

  lemma CountOneMore(rows: map<Id, Record>, ids: set<Id>, id: Id, counts: map<Addr, nat>)
    requires CountedBySender(rows, ids, counts) && id in rows && id !in ids
    ensures var a := rows[id].sender;
            CountedBySender(rows, ids + {id}, counts[a := (if a in counts then counts[a] else 0) + 1])
  {
    var s := rows[id].sender;
    forall a
      ensures SentBy(rows, ids + {id}, a) == if a == s then SentBy(rows, ids, a) + {id} else SentBy(rows, ids, a)
    {
    }
    assert id in SentBy(rows, ids + {id}, s);
    assert s !in counts ==> SentBy(rows, ids, s) == {};
  }

  lemma CountedAreStale(q: Queue, cutoff: int, counts: map<Addr, nat>)
    requires CountedBySender(q.rows, StaleIds(q, cutoff), counts)
    ensures counts == StaleCounts(q, cutoff)
  {
    forall a ensures SentBy(q.rows, StaleIds(q, cutoff), a) == StaleOf(q, a, cutoff) {
    }
    forall a ensures a in counts <==> a in StaleCounts(q, cutoff) {
      if a in StaleCounts(q, cutoff) {
        var id :| id in StaleIds(q, cutoff) && q.rows[id].sender == a;
        assert id in SentBy(q.rows, StaleIds(q, cutoff), a);
      }
    }
  }

  // In the middle of lowering: the counters of todo are still to be lowered.
  ghost predicate Lowering(was: map<Addr, nat>, amounts: map<Addr, nat>, todo: set<Addr>, next: map<Addr, nat>) {
    todo <= amounts.Keys && next == Lowered(was, amounts - todo)
  }

  lemma LoweringStarts(was: map<Addr, nat>, amounts: map<Addr, nat>)
    ensures Lowering(was, amounts, amounts.Keys, was)
  {
  }

  lemma LoweringEnds(was: map<Addr, nat>, amounts: map<Addr, nat>, next: map<Addr, nat>)
    requires Lowering(was, amounts, {}, next)
    ensures next == Lowered(was, amounts)
  {
    assert amounts - {} == amounts;
  }

  // ---- Listings ----

  function ListingStamp(r: Record): Stamp {
    Stamp(r.updatedAt, r.id)
  }

  // The order of the paged listings.
  predicate ListedBefore(x: Record, y: Record) {
    Lt(ListingStamp(x), ListingStamp(y))
  }

  // A row of the status that lies strictly after the cursor.
  predicate IsListed(r: Record, status: Status, after: Stamp) {
    r.status == status && Lt(after, ListingStamp(r))
  }

  ghost predicate AreRows(rows: map<Id, Record>, recs: seq<Record>) {
    forall i :: 0 <= i < |recs| ==> recs[i].id in rows && rows[recs[i].id] == recs[i]
  }

  ghost predicate DistinctIds(recs: seq<Record>) {
    forall i, j :: 0 <= i < j < |recs| ==> recs[i].id != recs[j].id
  }

  // The rows of the status after the cursor, in listing order, up to the limit (0 is no limit).
  ghost predicate IsPage(rows: map<Id, Record>, status: Status, limit: nat, after: Stamp, page: seq<Record>) {
    && AreRows(rows, page)
    && (forall i :: 0 <= i < |page| ==> IsListed(page[i], status, after))
    && (forall i, j :: 0 <= i < j < |page| ==> ListedBefore(page[i], page[j]))
    && (limit > 0 ==> |page| <= limit)
    && (forall id :: id in rows && IsListed(rows[id], status, after) ==>
          rows[id] in page || (limit > 0 && |page| == limit && ListedBefore(page[limit - 1], rows[id])))
  }

  // Sorting the matching rows gives the whole listing,
  lemma SortedRowsAreListing(rows: map<Id, Record>, status: Status, after: Stamp, matched: seq<Record>,
                             sorted: seq<Record>)
    requires AreRows(rows, matched) && DistinctIds(matched)
    requires forall i :: 0 <= i < |matched| ==> IsListed(matched[i], status, after)
    requires forall id :: id in rows && IsListed(rows[id], status, after) ==> rows[id] in matched
    requires Sorted(sorted, ListingStamp) && multiset(sorted) == multiset(matched)
    ensures IsPage(rows, status, 0, after, sorted)
  {
    ReorderKeepsDistinct(matched, sorted);
    SameElements(matched, sorted);
    forall i | 0 <= i < |sorted|
      ensures sorted[i].id in rows && rows[sorted[i].id] == sorted[i] && IsListed(sorted[i], status, after)
    {
      assert sorted[i] in matched;
    }
    forall i, j | 0 <= i < j < |sorted| ensures ListedBefore(sorted[i], sorted[j]) {
      assert !Lt(ListingStamp(sorted[j]), ListingStamp(sorted[i]));
    }
  }

  // and cutting it gives a page.
  lemma CutIsPage(rows: map<Id, Record>, status: Status, limit: nat, after: Stamp, sorted: seq<Record>)
    requires IsPage(rows, status, 0, after, sorted) && limit > 0 && |sorted| > limit
    ensures IsPage(rows, status, limit, after, sorted[..limit])
  {
    var page := sorted[..limit];
    forall id | id in rows && IsListed(rows[id], status, after)
      ensures rows[id] in page || ListedBefore(page[limit - 1], rows[id])
    {
      var k :| 0 <= k < |sorted| && sorted[k] == rows[id];
      if k < limit {
        assert page[k] == rows[id];
      }
    }
  }

  // A page goes by the time of the last update, and by the id where these agree, and so does the cursor.
  lemma PageGoesByUpdate(rows: map<Id, Record>, status: Status, limit: nat, after: Stamp, page: seq<Record>)
    requires IsPage(rows, status, limit, after, page)
    ensures forall i :: 0 <= i < |page| ==>
              && page[i].status == status
              && (after.time < page[i].updatedAt || (after.time == page[i].updatedAt && after.rank < page[i].id))
    ensures forall i, j :: 0 <= i < j < |page| ==>
              || page[i].updatedAt < page[j].updatedAt
              || (page[i].updatedAt == page[j].updatedAt && page[i].id < page[j].id)
  {
  }

  lemma SameElements<T>(s: seq<T>, t: seq<T>)
    requires multiset(s) == multiset(t)
    ensures forall x :: x in s <==> x in t
  {
    forall x ensures x in s <==> x in t {
      assert x in s <==> x in multiset(s);
      assert x in t <==> x in multiset(t);
    }
  }

  lemma ReorderKeepsDistinct(matched: seq<Record>, sorted: seq<Record>)
    requires DistinctIds(matched) && multiset(sorted) == multiset(matched)
    ensures DistinctIds(sorted)
  {
    assert NoRepeats(matched);
    ReorderKeepsNoRepeats(matched, sorted);
    SameElements(matched, sorted);
    forall i, j | 0 <= i < j < |sorted| ensures sorted[i].id != sorted[j].id {
      SameIdIsSame(matched, sorted[i], sorted[j]);
    }
  }

  lemma SameIdIsSame(recs: seq<Record>, x: Record, y: Record)
    requires DistinctIds(recs) && x in recs && y in recs
    ensures x.id == y.id ==> x == y
  {
    var i :| 0 <= i < |recs| && recs[i] == x;
    var j :| 0 <= j < |recs| && recs[j] == y;
    assert i < j || i == j || j < i;
  }

  // The senders with queued work, the one with the oldest queued row first.
  ghost predicate HasQueued(rows: map<Id, Record>, a: Addr) {
    exists id :: id in rows && QueuedFor(rows[id], a)
  }

  // t is the creation time of the sender's oldest queued row.
  ghost predicate OldestTime(rows: map<Id, Record>, a: Addr, t: Time) {
    && (exists id :: id in rows && QueuedFor(rows[id], a) && rows[id].createdAt == t)
    && (forall id :: id in rows && QueuedFor(rows[id], a) ==> t <= rows[id].createdAt)
  }

  ghost predicate ServedBefore(rows: map<Id, Record>, a: Addr, b: Addr) {
    exists s: Time, t: Time :: OldestTime(rows, a, s) && OldestTime(rows, b, t) && Lt(Stamp(s, a), Stamp(t, b))
  }

  // oldest has, for each sender with a queued row among the seen ones, the least creation time.
  ghost predicate OldestOf(rows: map<Id, Record>, seen: set<Id>, oldest: map<Addr, Time>) {
    && (forall id :: id in seen && id in rows && rows[id].status == Queued ==>
          rows[id].sender in oldest && oldest[rows[id].sender] <= rows[id].createdAt)
    && (forall a :: a in oldest ==>
          exists id :: id in seen && id in rows && QueuedFor(rows[id], a) && rows[id].createdAt == oldest[a])
  }

  lemma OldestOfNext(rows: map<Id, Record>, seen: set<Id>, oldest: map<Addr, Time>, id: Id)
    requires OldestOf(rows, seen, oldest) && id in rows
    ensures var rec := rows[id];
            if rec.status == Queued && (rec.sender !in oldest || rec.createdAt < oldest[rec.sender]) then
              OldestOf(rows, seen + {id}, oldest[rec.sender := rec.createdAt])
            else OldestOf(rows, seen + {id}, oldest)
  {
  }

  method ListKeys(m: map<Addr, Time>) returns (keys: seq<Addr>)
    ensures forall a :: a in keys <==> a in m
    ensures NoRepeats(keys)
  {
    keys := [];
    var todo := m.Keys;
    while todo != {}
      invariant todo <= m.Keys
      invariant forall a :: a in keys <==> a in m && a !in todo
      invariant NoRepeats(keys)
      decreases |todo|
    {
      var a :| a in todo;
      todo := todo - {a};
      keys := keys + [a];
    }
  }

  lemma OrderedSendersAreServed(rows: map<Id, Record>, oldest: map<Addr, Time>, listed: seq<Addr>, senders: seq<Addr>,
                                key: Addr -> Stamp)
    requires OldestOf(rows, rows.Keys, oldest)
    requires forall a :: a in listed <==> a in oldest
    requires NoRepeats(listed)
    requires forall a :: key(a) == Stamp(Count(oldest, a), a)
    requires Sorted(senders, key) && multiset(senders) == multiset(listed)
    ensures forall a :: a in senders <==> HasQueued(rows, a)
    ensures forall i, j :: 0 <= i < j < |senders| ==> ServedBefore(rows, senders[i], senders[j])
  {
    SameElements(senders, listed);
    ReorderKeepsNoRepeats(listed, senders);
    forall a | a in oldest ensures OldestTime(rows, a, oldest[a]) {
    }
    forall i, j | 0 <= i < j < |senders| ensures ServedBefore(rows, senders[i], senders[j]) {
      assert !Lt(key(senders[j]), key(senders[i]));
      assert OldestTime(rows, senders[i], oldest[senders[i]]) && OldestTime(rows, senders[j], oldest[senders[j]]);
      assert Lt(Stamp(oldest[senders[i]], senders[i]), Stamp(oldest[senders[j]], senders[j]));
    }
  }

  // ---- Retention ----

  predicate IsAged(r: Record, cutoff: int) {
    r.status.IsTerminal() && r.updatedAt < cutoff
  }

  function Purgeable(rows: map<Id, Record>, cutoff: int): set<Id> {
    set id | id in rows && IsAged(rows[id], cutoff)
  }

  function Clearable(rows: map<Id, Record>, cutoff: int): set<Id> {
    set id | id in rows && IsAged(rows[id], cutoff) && rows[id].key != ""
  }

  function KeysCleared(rows: map<Id, Record>, ids: set<Id>): map<Id, Record> {
    map id | id in rows :: if id in ids then rows[id].(key := "") else rows[id]
  }

  // In the middle of purging: gone are deleted, todo are still to be visited.
  ghost predicate Purging(was: map<Id, Record>, rows: map<Id, Record>, gone: set<Id>, todo: set<Id>, cutoff: int) {
    && gone <= Purgeable(was, cutoff) && gone !! todo && todo <= was.Keys
    && rows == was - gone
    && forall id :: id in Purgeable(was, cutoff) ==> id in gone || id in todo
  }

  lemma PurgingEnds(was: map<Id, Record>, rows: map<Id, Record>, gone: set<Id>, todo: set<Id>, cutoff: int, limit: nat)
    requires Purging(was, rows, gone, todo, cutoff)
    requires limit > 0 ==> |gone| <= limit
    requires todo == {} || (limit > 0 && |gone| >= limit)
    ensures was.Keys - rows.Keys == gone && rows == was - gone
    ensures IsBatch(gone, Purgeable(was, cutoff), limit)
  {
  }

  // In the middle of clearing: done are cleared, todo are still to be visited.
  ghost predicate Clearing(was: map<Id, Record>, rows: map<Id, Record>, done: set<Id>, todo: set<Id>, cutoff: int) {
    && done <= Clearable(was, cutoff) && done !! todo && todo <= was.Keys
    && rows == KeysCleared(was, done)
    && forall id :: id in Clearable(was, cutoff) ==> id in done || id in todo
  }

  lemma ClearingNext(was: map<Id, Record>, rows: map<Id, Record>, done: set<Id>, todo: set<Id>, cutoff: int, id: Id)
    requires Clearing(was, rows, done, todo, cutoff) && id in todo
    ensures rows[id] == was[id]
    ensures if id in Clearable(was, cutoff) then
              Clearing(was, rows[id := rows[id].(key := "")], done + {id}, todo - {id}, cutoff)
            else Clearing(was, rows, done, todo - {id}, cutoff)
  {
  }

  function KeyDiffers(rows: map<Id, Record>, rows': map<Id, Record>): set<Id> {
    set id | id in rows && id in rows' && rows[id].key != rows'[id].key
  }

  // A batch takes all there is, up to the limit (0 is no limit).
  ghost predicate IsBatch(taken: set<Id>, eligible: set<Id>, limit: nat) {
    && taken <= eligible
    && (limit > 0 ==> |taken| <= limit)
    && (limit == 0 || |taken| < limit ==> taken == eligible)
  }

  lemma ClearingEnds(was: map<Id, Record>, rows: map<Id, Record>, done: set<Id>, todo: set<Id>, cutoff: int, limit: nat)
    requires Clearing(was, rows, done, todo, cutoff)
    requires limit > 0 ==> |done| <= limit
    requires todo == {} || (limit > 0 && |done| >= limit)
    ensures KeyDiffers(was, rows) == done
    ensures IsBatch(done, Clearable(was, cutoff), limit)
  {
  }

  class MemoryStore {
    var records: map<Id, Record>
    var idempotencyIdx: map<string, Id>
    var sequences: map<Addr, nat>
    const ttl: nat

    ghost predicate Valid()
      reads this
    {
      Indexed(records, idempotencyIdx)
    }

    ghost function Contents(): Queue
      reads this
    {
      Queue(records, sequences)
    }

    constructor (ttl: nat)
      ensures Valid() && Contents() == Queue(map[], map[]) && this.ttl == ttl
    {
      records, idempotencyIdx, sequences := map[], map[], map[];
      this.ttl := ttl;
    }

    // ---- Records and the idempotency index ----

    method Create(rec: Record, now: Time) returns (r: WriteResult)
      requires Valid()
      modifies this
      ensures Valid() && sequences == old(sequences)
      ensures r.AlreadyExists? <==> rec.id in old(records)
      ensures r.IdempotencyConflict? <==>
              rec.id !in old(records) && rec.key != "" && KeyTaken(old(records), rec.key, {})
      ensures r.Written? <==> !r.AlreadyExists? && !r.IdempotencyConflict?
      ensures !r.Written? ==> unchanged(this)
      ensures r.Written? ==> records == old(records)[rec.id := rec.(createdAt := now, updatedAt := now)]
    {
      if rec.id in records {
        return AlreadyExists;
      }
      if rec.key != "" && rec.key in idempotencyIdx {
        return IdempotencyConflict;
      }
      records := records[rec.id := rec.(createdAt := now, updatedAt := now)];
      if rec.key != "" {
        idempotencyIdx := idempotencyIdx[rec.key := rec.id];
      }
      return Written;
    }

    method Update(rec: Record, now: Time) returns (r: WriteResult)
      requires Valid()
      modifies this
      ensures Valid() && sequences == old(sequences)
      ensures r.NotFound? <==> rec.id !in old(records)
      ensures r.IdempotencyConflict? <==>
              rec.id in old(records) && rec.key != "" && KeyTaken(old(records), rec.key, {rec.id})
      ensures r.Written? <==> !r.NotFound? && !r.IdempotencyConflict?
      ensures !r.Written? ==> unchanged(this)
      ensures r.Written? ==> Contents() == Put(old(Contents()), rec.(updatedAt := now))
    {
      if rec.id !in records {
        return NotFound;
      }
      if rec.key != "" && rec.key in idempotencyIdx && idempotencyIdx[rec.key] != rec.id {
        return IdempotencyConflict;
      }
      Replace(rec, now);
      return Written;
    }

    method UpdateIfStatus(rec: Record, expected: Status, now: Time) returns (r: ConditionalWrite)
      requires Valid()
      modifies this
      ensures Valid() && sequences == old(sequences)
      ensures r.StatusDiffers? <==> rec.id !in old(records) || old(records)[rec.id].status != expected
      ensures r.KeyConflict? <==>
              !r.StatusDiffers? && rec.key != "" && KeyTaken(old(records), rec.key, {rec.id})
      ensures !r.Updated? ==> unchanged(this)
      ensures r.Updated? ==> Contents() == Put(old(Contents()), rec.(updatedAt := now))
    {
      if rec.id !in records || records[rec.id].status != expected {
        return StatusDiffers;
      }
      if rec.key != "" && rec.key in idempotencyIdx && idempotencyIdx[rec.key] != rec.id {
        return KeyConflict;
      }
      Replace(rec, now);
      return Updated;
    }

    // The write shared by both updates: free the old key, store a copy, own the new key.
    method Replace(rec: Record, now: Time)
      requires Valid() && rec.id in records
      requires rec.key != "" ==> !KeyTaken(records, rec.key, {rec.id})
      modifies this
      ensures Valid() && Contents() == Put(old(Contents()), rec.(updatedAt := now))
    {
      var old_ := records[rec.id];
      if old_.key != "" && old_.key != rec.key {
        idempotencyIdx := idempotencyIdx - {old_.key};
      }
      records := records[rec.id := rec.(updatedAt := now)];
      if rec.key != "" {
        idempotencyIdx := idempotencyIdx[rec.key := rec.id];
      }
    }

    method Get(id: Id) returns (r: Option<Record>)
      ensures r == if id in records then Some(records[id]) else None
    {
      r := if id in records then Some(records[id]) else None;
    }

    method GetByIdempotencyKey(key: string) returns (r: Option<Record>)
      requires Valid()
      ensures r.Some? ==> r.value in records.Values && r.value.key == key && key != ""
      ensures r.None? <==> key == "" || !KeyTaken(records, key, {})
    {
      if key == "" || key !in idempotencyIdx {
        return None;
      }
      r := Some(records[idempotencyIdx[key]]);
    }

    method ListByStatus(status: Status) returns (result: seq<Record>)
      requires Valid()
      ensures forall id :: id in records && records[id].status == status ==> records[id] in result
      ensures forall i :: 0 <= i < |result| ==>
                result[i].id in records && records[result[i].id] == result[i] && result[i].status == status
      ensures DistinctIds(result)
    {
      result := [];
      var todo := records.Keys;
      while todo != {}
        invariant todo <= records.Keys
        invariant forall id :: id in records && id !in todo && records[id].status == status ==> records[id] in result
        invariant forall i :: 0 <= i < |result| ==>
                    && result[i].id in records && result[i].id !in todo
                    && records[result[i].id] == result[i] && result[i].status == status
        invariant DistinctIds(result)
        decreases |todo|
      {
        var id :| id in todo;
        todo := todo - {id};
        if records[id].status == status {
          result := result + [records[id]];
        }
      }
    }

    method ListByStatusPaged(status: Status, limit: nat, after: Stamp) returns (page: seq<Record>)
      requires Valid()
      ensures IsPage(records, status, limit, after, page)
    {
      var matched: seq<Record> := [];
      var todo := records.Keys;
      while todo != {}
        invariant todo <= records.Keys
        invariant AreRows(records, matched) && DistinctIds(matched)
        invariant forall i :: 0 <= i < |matched| ==> matched[i].id !in todo && IsListed(matched[i], status, after)
        invariant forall id :: id in records && id !in todo && IsListed(records[id], status, after) ==>
                    records[id] in matched
        decreases |todo|
      {
        var id :| id in todo;
        todo := todo - {id};
        var rec := records[id];
        if rec.status != status || rec.updatedAt < after.time || (rec.updatedAt == after.time && rec.id <= after.rank) {
          continue;
        }
        matched := matched + [rec];
      }
      var sorted := SortByStamp(matched, ListingStamp);
      SortedRowsAreListing(records, status, after, matched, sorted);
      page := sorted;
      if limit > 0 && |sorted| > limit {
        CutIsPage(records, status, limit, after, sorted);
        page := sorted[..limit];
      }
    }

    method ListQueuedSenders() returns (senders: seq<Addr>)
      ensures forall a :: a in senders <==> HasQueued(records, a)
      ensures forall i, j :: 0 <= i < j < |senders| ==> ServedBefore(records, senders[i], senders[j])
    {
      var oldest: map<Addr, Time> := map[];
      var todo := records.Keys;
      ghost var seen: set<Id> := {};
      while todo != {}
        invariant todo <= records.Keys && OldestOf(records, seen, oldest) && seen == records.Keys - todo
        decreases |todo|
      {
        var id :| id in todo;
        OldestOfNext(records, seen, oldest, id);
        todo, seen := todo - {id}, seen + {id};
        var rec := records[id];
        if rec.status == Queued && (rec.sender !in oldest || rec.createdAt < oldest[rec.sender]) {
          oldest := oldest[rec.sender := rec.createdAt];
        }
      }
      senders := ListKeys(oldest);
      var key := (a: Addr) => Stamp(Count(oldest, a), a);
      ghost var listed := senders;
      senders := SortByStamp(senders, key);
      assert seen == records.Keys;
      OrderedSendersAreServed(records, oldest, listed, senders, key);
    }

    // ---- Sequence-number queue ----

    method ClaimNextQueuedForSender(sender: Addr, now: Time) returns (claimed: Option<Record>)
      requires Valid()
      modifies this
      ensures Valid()
      ensures claimed.None? <==> forall id :: id in old(records) ==> !QueuedFor(old(records)[id], sender)
      ensures claimed.None? ==> unchanged(this)
      ensures claimed.Some? ==>
                && IsOldest(old(Contents()), sender, claimed.value.id)
                && Contents() == Claim(old(Contents()), sender, claimed.value.id, now)
                && claimed.value == records[claimed.value.id]
                && idempotencyIdx == old(idempotencyIdx)
    {
      var candidate: Option<Record> := None;
      var todo := records.Keys;
      while todo != {}
        invariant todo <= records.Keys
        invariant candidate.None? ==> forall id :: id in records && id !in todo ==> !QueuedFor(records[id], sender)
        invariant candidate.Some? ==>
                    && candidate.value.id in records && records[candidate.value.id] == candidate.value
                    && QueuedFor(candidate.value, sender)
                    && forall id ::
                         id in records && id !in todo && QueuedFor(records[id], sender) && id != candidate.value.id ==>
                         Older(candidate.value, records[id])
        decreases |todo|
      {
        var id :| id in todo;
        todo := todo - {id};
        var rec := records[id];
        if QueuedFor(rec, sender) && (candidate.None? || Older(rec, candidate.value)) {
          candidate := Some(rec);
        }
      }
      if candidate.None? {
        return None;
      }
      var id := candidate.value.id;
      var number := if sender in sequences then sequences[sender] else 0;
      sequences := sequences[sender := number + 1];
      var rec := candidate.value.(status := Processing, seqNum := Some(number), updatedAt := now);
      RewriteKeepsIndex(records, idempotencyIdx, id, rec);
      records := records[id := rec];
      return Some(rec);
    }

    method ReconcileSequence(sender: Addr, chainSeq: nat)
      modifies this`sequences
      ensures Contents() == Raise(old(Contents()), sender, chainSeq)
    {
      var current := if sender in sequences then sequences[sender] else 0;
      if current < chainSeq {
        sequences := sequences[sender := chainSeq];
      }
    }

    method ForceResetSequenceToChain(sender: Addr, chainSeq: nat)
      modifies this`sequences
      ensures Contents() == ForceReset(old(Contents()), sender, chainSeq)
    {
      var inflight := 0;
      var todo := records.Keys;
      while todo != {}
        invariant todo <= records.Keys
        invariant inflight == |set id | id in records && id !in todo && IsInflight(records[id], sender, chainSeq)|
        decreases |todo|
      {
        var id :| id in todo;
        ghost var before := set j | j in records && j !in todo && IsInflight(records[j], sender, chainSeq);
        todo := todo - {id};
        ghost var after := set j | j in records && j !in todo && IsInflight(records[j], sender, chainSeq);
        if IsInflight(records[id], sender, chainSeq) {
          inflight := inflight + 1;
          assert after == before + {id};
        } else {
          assert after == before;
        }
      }
      assert Inflight(Contents(), sender, chainSeq) ==
             set id | id in records && id !in todo && IsInflight(records[id], sender, chainSeq);
      sequences := sequences[sender := chainSeq + inflight];
    }

    method ShiftSenderSequences(sender: Addr, failed: nat, now: Time)
      requires Valid()
      modifies this`records, this`sequences
      ensures Valid() && Contents() == Shift(old(Contents()), sender, failed, now)
    {
      ghost var was := Contents();
      var n := RequeueShifted(sender, failed, now, was);
      if n > 0 {
        var current := if sender in sequences then sequences[sender] else 0;
        sequences := sequences[sender := if n >= current then 0 else current - n];
      }
    }

    // The loop of the shift: requeue every row above the failed number and count them.
    method RequeueShifted(sender: Addr, failed: nat, now: Time, ghost was: Queue) returns (n: nat)
      requires was == Contents()
      modifies this`records
      ensures records == RequeueAll(was.rows, ShiftedOf(was, sender, failed), now)
      ensures n == |ShiftedOf(was, sender, failed)|
    {
      n := 0;
      var todo := records.Keys;
      ghost var visited: set<Id> := {};
      while todo != {}
        invariant todo <= was.rows.Keys && records == RequeueAll(was.rows, visited, now)
        invariant forall id :: id in visited <==>
                    id in was.rows && id !in todo && IsShifted(was.rows[id], sender, failed)
        invariant n == |visited|
        decreases |todo|
      {
        var id :| id in todo;
        RequeueOneMore(was.rows, visited, now, id);
        todo := todo - {id};
        if IsShifted(records[id], sender, failed) {
          records := records[id := Requeued(records[id], now)];
          n := n + 1;
          visited := visited + {id};
        }
      }
      assert visited == ShiftedOf(was, sender, failed);
    }

    method ReleaseSequence(sender: Addr)
      modifies this`sequences
      ensures Contents() == Release(old(Contents()), sender)
    {
      if sender in sequences && sequences[sender] > 0 {
        sequences := sequences[sender := sequences[sender] - 1];
      }
    }

    method RecoverStaleProcessing(olderThan: nat, now: Time) returns (affected: nat)
      requires Valid()
      modifies this`records, this`sequences
      ensures Valid() && Contents() == Recover(old(Contents()), now, Before(now, olderThan))
      ensures forall id :: id in old(records) ==>
                (records[id] != old(records)[id] <==>
                   && old(records)[id].status == Processing && old(records)[id].seqNum.Some?
                   && old(records)[id].hash == "" && old(records)[id].updatedAt + olderThan < now)
      ensures affected == |StaleIds(old(Contents()), Before(now, olderThan))|
    {
      var cutoff := Before(now, olderThan);
      ghost var was := Contents();
      var senderCounts: map<Addr, nat>;
      senderCounts, affected := RequeueStale(cutoff, now, was);
      CountedAreStale(was, cutoff, senderCounts);
      LowerCounters(senderCounts);
    }

    // The second loop of the recovery: each affected sender gives back its own count.
    method LowerCounters(senderCounts: map<Addr, nat>)
      modifies this`sequences
      ensures sequences == Lowered(old(sequences), senderCounts)
    {
      ghost var was := sequences;
      var todo := senderCounts.Keys;
      LoweringStarts(was, senderCounts);
      while todo != {}
        invariant Lowering(was, senderCounts, todo, sequences)
        decreases |todo|
      {
        var addr :| addr in todo;
        todo := todo - {addr};
        var current := if addr in sequences then sequences[addr] else 0;
        sequences := sequences[addr := Minus(current, senderCounts[addr])];
      }
      LoweringEnds(was, senderCounts, sequences);
    }

    // The first loop of the recovery: requeue the stale rows and count them by sender.
    method RequeueStale(cutoff: int, now: Time, ghost was: Queue)
        returns (senderCounts: map<Addr, nat>, affected: nat)
      requires was == Contents()
      modifies this`records
      ensures records == RequeueAll(was.rows, StaleIds(was, cutoff), now)
      ensures CountedBySender(was.rows, StaleIds(was, cutoff), senderCounts)
      ensures affected == |StaleIds(was, cutoff)|
    {
      senderCounts, affected := map[], 0;
      var todo := records.Keys;
      ghost var visited: set<Id> := {};
      while todo != {}
        invariant todo <= was.rows.Keys && records == RequeueAll(was.rows, visited, now)
        invariant forall id :: id in visited <==> id in was.rows && id !in todo && IsStale(was.rows[id], cutoff)
        invariant affected == |visited|
        invariant CountedBySender(was.rows, visited, senderCounts)
        decreases |todo|
      {
        var id :| id in todo;
        RequeueOneMore(was.rows, visited, now, id);
        todo := todo - {id};
        var rec := records[id];
        if IsStale(rec, cutoff) {
          CountOneMore(was.rows, visited, id, senderCounts);
          records := records[id := Requeued(rec, now)];
          senderCounts :=
            senderCounts[rec.sender := (if rec.sender in senderCounts then senderCounts[rec.sender] else 0) + 1];
          affected := affected + 1;
          visited := visited + {id};
        }
      }
      assert visited == StaleIds(was, cutoff);
    }

    // ---- Retention ----

    method PurgeTerminalOlderThan(cutoff: int, limit: nat) returns (removed: nat)
      requires Valid()
      modifies this`records, this`idempotencyIdx
      ensures Valid()
      ensures records == old(records) - (old(records).Keys - records.Keys)
      ensures IsBatch(old(records).Keys - records.Keys, Purgeable(old(records), cutoff), limit)
      ensures removed == |old(records).Keys - records.Keys|
    {
      ghost var was := records;
      ghost var gone: set<Id> := {};
      removed := 0;
      var todo := records.Keys;
      while todo != {} && !(limit > 0 && removed >= limit)
        invariant Valid() && Purging(was, records, gone, todo, cutoff) && removed == |gone|
        invariant limit > 0 ==> removed <= limit
        decreases |todo|
      {
        var id :| id in todo;
        todo := todo - {id};
        var rec := records[id];
        if !rec.status.IsTerminal() || rec.updatedAt >= cutoff {
          continue;
        }
        Remove(id);
        removed := removed + 1;
        gone := gone + {id};
      }
      PurgingEnds(was, records, gone, todo, cutoff, limit);
    }

    method ClearIdempotencyOlderThan(cutoff: int, limit: nat) returns (cleared: nat)
      requires Valid()
      modifies this`records, this`idempotencyIdx
      ensures Valid()
      ensures records == KeysCleared(old(records), KeyDiffers(old(records), records))
      ensures IsBatch(KeyDiffers(old(records), records), Clearable(old(records), cutoff), limit)
      ensures cleared == |KeyDiffers(old(records), records)|
    {
      ghost var was := records;
      ghost var done: set<Id> := {};
      cleared := 0;
      var todo := records.Keys;
      while todo != {} && !(limit > 0 && cleared >= limit)
        invariant Valid() && Clearing(was, records, done, todo, cutoff) && cleared == |done|
        invariant limit > 0 ==> cleared <= limit
        decreases |todo|
      {
        var id :| id in todo;
        ClearingNext(was, records, done, todo, cutoff, id);
        todo := todo - {id};
        var rec := records[id];
        if !rec.status.IsTerminal() || rec.key == "" || rec.updatedAt >= cutoff {
          continue;
        }
        ClearKey(id);
        cleared := cleared + 1;
        done := done + {id};
      }
      ClearingEnds(was, records, done, todo, cutoff, limit);
    }

    method Evict(now: Time)
      requires Valid()
      modifies this`records, this`idempotencyIdx
      ensures Valid()
      ensures records == map id | id in old(records) && old(records)[id].createdAt >= now - ttl :: old(records)[id]
    {
      ghost var was := records;
      var cutoff := now - ttl;
      var todo := records.Keys;
      while todo != {}
        invariant Valid() && todo <= records.Keys
        invariant forall id :: id in records <==> id in was && (id in todo || was[id].createdAt >= cutoff)
        invariant forall id :: id in records ==> records[id] == was[id]
        decreases |todo|
      {
        var id :| id in todo;
        todo := todo - {id};
        if records[id].createdAt < cutoff {
          Remove(id);
        }
      }
    }

    method ClearKey(id: Id)
      requires Valid() && id in records
      modifies this`records, this`idempotencyIdx
      ensures Valid() && records == old(records)[id := old(records)[id].(key := "")]
    {
      idempotencyIdx := idempotencyIdx - {records[id].key};
      records := records[id := records[id].(key := "")];
    }

    // Deleting one record together with its index entry.
    method Remove(id: Id)
      requires Valid() && id in records
      modifies this`records, this`idempotencyIdx
      ensures Valid() && records == old(records) - {id}
    {
      if records[id].key != "" {
        idempotencyIdx := idempotencyIdx - {records[id].key};
      }
      records := records - {id};
    }
  }
}
