/**
 The archiver's sweep over an otherwise quiet store: clear the idempotency keys of aged terminal
 records, then delete the fully aged ones, both in batches of a bounded size.
 */
module Archive {
  import opened Types
  import opened QueueSpec
  import opened Counting
  import M = MemoryStore

  // ---- Clearing in batches ----

  // done are the count rows cleared so far.
  ghost predicate Cleared(was: map<Id, Record>, rows: map<Id, Record>, cutoff: int, done: set<Id>, count: nat) {
    && done <= M.Clearable(was, cutoff) && rows == M.KeysCleared(was, done)
    && count == |done| <= |M.Clearable(was, cutoff)|
  }

  lemma ClearBatch(was: map<Id, Record>, rows: map<Id, Record>, cutoff: int, done: set<Id>, count: nat,
                   rows': map<Id, Record>, taken: set<Id>, n: nat, limit: nat)
    requires Cleared(was, rows, cutoff, done, count) && n == |taken| && limit > 0
    requires M.IsBatch(taken, M.Clearable(rows, cutoff), limit) && rows' == M.KeysCleared(rows, taken)
    ensures Cleared(was, rows', cutoff, done + taken, count + n)
    ensures n <= limit
    ensures n < limit ==> rows' == M.KeysCleared(was, M.Clearable(was, cutoff))
    ensures n < limit ==> count + n == |M.Clearable(was, cutoff)|
  {
    BatchCounts(done, taken, M.Clearable(was, cutoff), limit);
    ClearedTwice(was, done, taken);
  }

  lemma ClearedTwice(was: map<Id, Record>, done: set<Id>, taken: set<Id>)
    ensures M.KeysCleared(M.KeysCleared(was, done), taken) == M.KeysCleared(was, done + taken)
  {
  }

  // Clearing keys leaves the same rows to purge.
  lemma ClearingKeepsPurgeable(was: map<Id, Record>, ids: set<Id>, cutoff: int)
    ensures M.Purgeable(M.KeysCleared(was, ids), cutoff) == M.Purgeable(was, cutoff)
  {
  }

  // done are the count rows deleted so far.
  ghost predicate Purged(was: map<Id, Record>, rows: map<Id, Record>, cutoff: int, done: set<Id>, count: nat) {
    && done <= M.Purgeable(was, cutoff) && rows == was - done
    && count == |done| <= |M.Purgeable(was, cutoff)|
  }

  lemma PurgeBatch(was: map<Id, Record>, rows: map<Id, Record>, cutoff: int, done: set<Id>, count: nat,
                   rows': map<Id, Record>, taken: set<Id>, n: nat, limit: nat)
    requires Purged(was, rows, cutoff, done, count) && n == |taken| && limit > 0
    requires M.IsBatch(taken, M.Purgeable(rows, cutoff), limit) && rows' == rows - taken
    ensures Purged(was, rows', cutoff, done + taken, count + n)
    ensures n <= limit
    ensures n < limit ==> rows' == was - M.Purgeable(was, cutoff) && count + n == |M.Purgeable(was, cutoff)|
  {
    assert M.Purgeable(rows, cutoff) == M.Purgeable(was, cutoff) - done;
    BatchCounts(done, taken, M.Purgeable(was, cutoff), limit);
    assert rows' == was - (done + taken);
  }

  // A short batch takes the rest.
  lemma BatchCounts(done: set<Id>, taken: set<Id>, all: set<Id>, limit: nat)
    requires done <= all && M.IsBatch(taken, all - done, limit) && limit > 0
    ensures done + taken <= all && |done + taken| == |done| + |taken| <= |all|
    ensures |taken| < limit ==> done + taken == all
  {
    SubsetSize(done + taken, all);
  }

  // The calls that a number of rows takes: full batches and then a short one.
  function Calls(total: nat, batch: nat): nat
    requires batch > 0
  {
    if total < batch then 1 else 1 + Calls(total - batch, batch)
  }

  // That is exactly one call more than the quotient.
  lemma {:induction false} CallsAreQuotient(total: nat, batch: nat)
    requires batch > 0
    ensures Calls(total, batch) == total / batch + 1
  {
    if total >= batch {
      CallsAreQuotient(total - batch, batch);
      QuotientStep(total - batch, batch);
    }
  }

  lemma QuotientStep(x: nat, batch: nat)
    requires batch > 0
    ensures (x + batch) / batch == x / batch + 1
  {
    var y: nat, k: nat := x + batch, x / batch + 1;
    var q: nat := y / batch;
    assert x == batch * (x / batch) + x % batch && y == batch * q + y % batch;
    assert batch * k == batch * (x / batch) + batch;
    if q < k {
      MultipleGrows(q, k, batch);
    } else if k < q {
      MultipleGrows(k, q, batch);
    }
  }

  lemma {:induction false} MultipleGrows(x: nat, y: nat, batch: nat)
    requires x < y
    ensures batch * x + batch <= batch * y
    decreases y
  {
    assert batch * y == batch * (y - 1) + batch;
    if x < y - 1 {
      MultipleGrows(x, y - 1, batch);
    }
  }

  // Terminal, and last touched more than the age ago.
  predicate IsOlderThan(r: Record, age: nat, now: Time) {
    (r.status == Confirmed || r.status == Failed || r.status == Expired) && r.updatedAt + age < now
  }

  class Archiver {
    const store: M.MemoryStore
    const retention: nat
    const idempotencyRetention: nat
    const batchSize: nat

    constructor (store: M.MemoryStore, retention: int, idempotencyRetention: int, batchSize: int, day: nat)
      requires day > 0
      ensures this.store == store && this.batchSize > 0 && this.retention > 0 && this.idempotencyRetention > 0
      ensures retention > 0 ==> this.retention == retention
      ensures idempotencyRetention > 0 ==> this.idempotencyRetention == idempotencyRetention
      ensures batchSize > 0 ==> this.batchSize == batchSize
      ensures retention <= 0 ==> this.retention == 30 * day
      ensures idempotencyRetention <= 0 ==> this.idempotencyRetention == 7 * day
      ensures batchSize <= 0 ==> this.batchSize == 1000
    {
      this.store := store;
      this.retention := if retention <= 0 then 30 * day else retention;
      this.idempotencyRetention := if idempotencyRetention <= 0 then 7 * day else idempotencyRetention;
      this.batchSize := if batchSize <= 0 then 1000 else batchSize;
    }

    method ClearStep(cutoff: int, ghost was: map<Id, Record>, ghost done: set<Id>, ghost count: nat)
        returns (n: nat, ghost done': set<Id>)
      requires store.Valid() && batchSize > 0 && Cleared(was, store.records, cutoff, done, count)
      modifies store
      ensures store.Valid() && store.sequences == old(store.sequences)
      ensures Cleared(was, store.records, cutoff, done', count + n) && n <= batchSize
      ensures n < batchSize ==>
                store.records == M.KeysCleared(was, M.Clearable(was, cutoff)) && count + n == |M.Clearable(was, cutoff)|
    {
      ghost var rows := store.records;
      n := store.ClearIdempotencyOlderThan(cutoff, batchSize);
      ghost var taken := M.KeyDiffers(rows, store.records);
      ClearBatch(was, rows, cutoff, done, count, store.records, taken, n, batchSize);
      done' := done + taken;
    }

    method ClearAll(cutoff: int) returns (cleared: nat, calls: nat)
      requires store.Valid() && batchSize > 0
      modifies store
      ensures store.Valid() && store.sequences == old(store.sequences)
      ensures store.records == M.KeysCleared(old(store.records), M.Clearable(old(store.records), cutoff))
      ensures cleared == |M.Clearable(old(store.records), cutoff)|
      ensures calls == Calls(cleared, batchSize)
    {
      ghost var was, total, done: set<Id> := store.records, |M.Clearable(store.records, cutoff)|, {};
      cleared, calls := 0, 0;
      while true
        invariant store.Valid() && store.sequences == old(store.sequences)
        invariant Cleared(was, store.records, cutoff, done, cleared)
        invariant calls + Calls(total - cleared, batchSize) == Calls(total, batchSize)
        decreases total - cleared
      {
        var n: nat;
        n, done := ClearStep(cutoff, was, done, cleared);
        cleared, calls := cleared + n, calls + 1;
        if n < batchSize {
          return;
        }
      }
    }

    method PurgeStep(cutoff: int, ghost was: map<Id, Record>, ghost done: set<Id>, ghost count: nat)
        returns (n: nat, ghost done': set<Id>)
      requires store.Valid() && batchSize > 0 && Purged(was, store.records, cutoff, done, count)
      modifies store
      ensures store.Valid() && store.sequences == old(store.sequences)
      ensures Purged(was, store.records, cutoff, done', count + n) && n <= batchSize
      ensures n < batchSize ==> store.records == was - M.Purgeable(was, cutoff)
      ensures n < batchSize ==> count + n == |M.Purgeable(was, cutoff)|
    {
      ghost var rows := store.records;
      n := store.PurgeTerminalOlderThan(cutoff, batchSize);
      ghost var taken := rows.Keys - store.records.Keys;
      PurgeBatch(was, rows, cutoff, done, count, store.records, taken, n, batchSize);
      done' := done + taken;
    }

    method PurgeAll(cutoff: int) returns (purged: nat, calls: nat)
      requires store.Valid() && batchSize > 0
      modifies store
      ensures store.Valid() && store.sequences == old(store.sequences)
      ensures store.records == old(store.records) - M.Purgeable(old(store.records), cutoff)
      ensures purged == |M.Purgeable(old(store.records), cutoff)|
      ensures calls == Calls(purged, batchSize)
    {
      ghost var was, total, done: set<Id> := store.records, |M.Purgeable(store.records, cutoff)|, {};
      purged, calls := 0, 0;
      while true
        invariant store.Valid() && store.sequences == old(store.sequences)
        invariant Purged(was, store.records, cutoff, done, purged)
        invariant calls + Calls(total - purged, batchSize) == Calls(total, batchSize)
        decreases total - purged
      {
        var n: nat;
        n, done := PurgeStep(cutoff, was, done, purged);
        purged, calls := purged + n, calls + 1;
        if n < batchSize {
          return;
        }
      }
    }

    // One sweep takes exactly what is eligible, whatever the order of the scans, and leaves
    // everything else as it was.
    method Sweep(now: Time) returns (cleared: nat, purged: nat, clearCalls: nat, purgeCalls: nat)
      requires store.Valid() && batchSize > 0
      modifies store
      ensures store.Valid() && store.sequences == old(store.sequences)
      ensures var was := old(store.records);
              var keyCutoff, cutoff := Before(now, idempotencyRetention), Before(now, retention);
              && cleared == |M.Clearable(was, keyCutoff)| && clearCalls == cleared / batchSize + 1
              && purged == |M.Purgeable(was, cutoff)| && purgeCalls == purged / batchSize + 1
              && store.records == M.KeysCleared(was, M.Clearable(was, keyCutoff)) - M.Purgeable(was, cutoff)
              && M.Clearable(store.records, keyCutoff) == {} && M.Purgeable(store.records, cutoff) == {}
      // a record is gone, or has lost its key, exactly if it is terminal and that old
      ensures forall id :: id in store.records <==>
                id in old(store.records) && !IsOlderThan(old(store.records)[id], retention, now)
      ensures forall id :: id in store.records ==>
                store.records[id] ==
                if IsOlderThan(old(store.records)[id], idempotencyRetention, now) then
                  old(store.records)[id].(key := "")
                else old(store.records)[id]
    {
      ghost var was := store.records;
      var keyCutoff, cutoff := Before(now, idempotencyRetention), Before(now, retention);
      cleared, clearCalls := ClearAll(keyCutoff);
      ClearingKeepsPurgeable(was, M.Clearable(was, keyCutoff), cutoff);
      purged, purgeCalls := PurgeAll(cutoff);
      CallsAreQuotient(cleared, batchSize);
      CallsAreQuotient(purged, batchSize);
    }
  }
}
