/**
 The sequence-number queue as values: the record map, the per-sender counters, and what
 each atomic queue operation does to them.  MemoryStore is proved against these functions,
 and the worker protocol takes them as its atomic steps.
 */
module QueueSpec {
  import opened Types

  datatype Queue = Queue(rows: map<Id, Record>, next: map<Addr, nat>)

  // An absent counter reads as zero.
  function Count(m: map<Addr, nat>, a: Addr): nat {
    if a in m then m[a] else 0
  }

  function Next(q: Queue, a: Addr): nat {
    Count(q.next, a)
  }

  // All decrements of a counter are bounded at zero.
  function Minus(x: nat, y: nat): nat {
    if y >= x then 0 else x - y
  }

  function Lowered(next: map<Addr, nat>, amounts: map<Addr, nat>): map<Addr, nat> {
    map a | a in next.Keys + amounts.Keys :: Minus(Count(next, a), Count(amounts, a))
  }

  predicate QueuedFor(r: Record, a: Addr) {
    r.status == Queued && r.sender == a
  }

  ghost predicate IsOldest(q: Queue, a: Addr, id: Id) {
    && id in q.rows
    && QueuedFor(q.rows[id], a)
    && forall j :: j in q.rows && QueuedFor(q.rows[j], a) && j != id ==> Older(q.rows[id], q.rows[j])
  }

  function Requeued(r: Record, now: Time): Record {
    r.(status := Queued, seqNum := None, updatedAt := now)
  }

  // The record map with the rows in ids requeued.
  function RequeueAll(rows: map<Id, Record>, ids: set<Id>, now: Time): map<Id, Record> {
    map id | id in rows :: if id in ids then Requeued(rows[id], now) else rows[id]
  }

  // ---- The atomic operations ----

  // Claiming row id, which the caller has found to be the oldest queued one.
  function Claim(q: Queue, a: Addr, id: Id, now: Time): Queue
    requires id in q.rows
  {
    Queue(q.rows[id := q.rows[id].(status := Processing, seqNum := Some(Next(q, a)), updatedAt := now)],
          q.next[a := Next(q, a) + 1])
  }

  function Release(q: Queue, a: Addr): Queue {
    if Next(q, a) == 0 then q else q.(next := q.next[a := Next(q, a) - 1])
  }

  function Raise(q: Queue, a: Addr, chainSeq: nat): Queue {
    if Next(q, a) < chainSeq then q.(next := q.next[a := chainSeq]) else q
  }

  predicate IsInflight(r: Record, a: Addr, from: nat) {
    r.sender == a && r.status == Submitted && r.seqNum.Some? && r.seqNum.value >= from
  }

  function Inflight(q: Queue, a: Addr, from: nat): set<Id> {
    set id | id in q.rows && IsInflight(q.rows[id], a, from)
  }

  function ForceReset(q: Queue, a: Addr, chainSeq: nat): Queue {
    q.(next := q.next[a := chainSeq + |Inflight(q, a, chainSeq)|])
  }

  // The counter follows the chain: down if the rejected number was ahead of it, else up.
  function Adjusted(q: Queue, a: Addr, localSeq: nat, chainSeq: nat): Queue {
    if chainSeq < localSeq then ForceReset(q, a, chainSeq) else Raise(q, a, chainSeq)
  }

  predicate IsStale(r: Record, cutoff: int) {
    r.status == Processing && r.seqNum.Some? && r.hash == "" && r.updatedAt < cutoff
  }

  function StaleIds(q: Queue, cutoff: int): set<Id> {
    set id | id in q.rows && IsStale(q.rows[id], cutoff)
  }

  function StaleOf(q: Queue, a: Addr, cutoff: int): set<Id> {
    set id | id in q.rows && IsStale(q.rows[id], cutoff) && q.rows[id].sender == a
  }

  // The senders with stale rows, each with the number of its stale rows.
  function StaleCounts(q: Queue, cutoff: int): map<Addr, nat> {
    var senders := set id | id in StaleIds(q, cutoff) :: q.rows[id].sender;
    map a | a in senders :: |StaleOf(q, a, cutoff)|
  }

  function Before(now: Time, age: nat): int {
    now - age
  }

  // Recovering the claims last touched before the cutoff.
  function Recover(q: Queue, now: Time, cutoff: int): Queue {
    Queue(RequeueAll(q.rows, StaleIds(q, cutoff), now), Lowered(q.next, StaleCounts(q, cutoff)))
  }

  predicate IsShifted(r: Record, a: Addr, failed: nat) {
    && r.sender == a && r.seqNum.Some? && r.seqNum.value > failed
    && (r.status == Queued || r.status == Processing)
  }

  function ShiftedOf(q: Queue, a: Addr, failed: nat): set<Id> {
    set id | id in q.rows && IsShifted(q.rows[id], a, failed)
  }

  function Shift(q: Queue, a: Addr, failed: nat, now: Time): Queue {
    Queue(RequeueAll(q.rows, ShiftedOf(q, a, failed), now),
          if ShiftedOf(q, a, failed) == {} then q.next
          else q.next[a := Minus(Next(q, a), |ShiftedOf(q, a, failed)|)])
  }

  // Overwriting a stored record; a record that is not stored is not created.
  function Put(q: Queue, rec: Record): Queue {
    if rec.id in q.rows then q.(rows := q.rows[rec.id := rec]) else q
  }

  // ---- Which rows hold a sequence number ----

  function Holding(q: Queue, a: Addr): set<Id> {
    set id | id in q.rows && q.rows[id].sender == a && q.rows[id].seqNum.Some?
  }

  // ---- Consecutive claims ----

  datatype ClaimAt = ClaimAt(id: Id, now: Time)

  // The claims can be made in this order, each one taking the oldest queued row.
  ghost predicate CanClaim(q: Queue, a: Addr, claims: seq<ClaimAt>)
    decreases |claims|
  {
    |claims| == 0 ||
    (&& IsOldest(q, a, claims[0].id)
     && CanClaim(Claim(q, a, claims[0].id, claims[0].now), a, claims[1..]))
  }

  ghost function ClaimAll(q: Queue, a: Addr, claims: seq<ClaimAt>): Queue
    requires CanClaim(q, a, claims)
    decreases |claims|
  {
    if |claims| == 0 then q else ClaimAll(Claim(q, a, claims[0].id, claims[0].now), a, claims[1..])
  }

  // The claimed row was queued in q and is in processing under number n in q', otherwise as it was.
  ghost predicate ClaimedAs(q: Queue, q': Queue, a: Addr, c: ClaimAt, n: nat) {
    && c.id in q.rows && QueuedFor(q.rows[c.id], a) && c.id in q'.rows
    && q'.rows[c.id] == q.rows[c.id].(status := Processing, seqNum := Some(n), updatedAt := c.now)
  }

  // k claims hand out the k numbers from the counter on, in order,
  lemma {:induction false} ClaimsAreConsecutive(q: Queue, a: Addr, claims: seq<ClaimAt>)
    requires CanClaim(q, a, claims)
    ensures Next(ClaimAll(q, a, claims), a) == Next(q, a) + |claims|
    ensures forall i :: 0 <= i < |claims| ==> ClaimedAs(q, ClaimAll(q, a, claims), a, claims[i], Next(q, a) + i)
    decreases |claims|
  {
    if |claims| > 0 {
      var q1 := Claim(q, a, claims[0].id, claims[0].now);
      var q' := ClaimAll(q, a, claims);
      ClaimsAreConsecutive(q1, a, claims[1..]);
      ClaimsTouchOnlyTheirRows(q1, a, claims[1..]);
      forall i | 0 <= i < |claims| ensures ClaimedAs(q, q', a, claims[i], Next(q, a) + i) {
        if i > 0 {
          assert claims[1..][i - 1] == claims[i];
          assert ClaimedAs(q1, q', a, claims[i], Next(q1, a) + i - 1);
        }
      }
    }
  }

  // and change no row that was not queued and no other sender's counter.
  lemma {:induction false} ClaimsTouchOnlyTheirRows(q: Queue, a: Addr, claims: seq<ClaimAt>)
    requires CanClaim(q, a, claims)
    ensures ClaimAll(q, a, claims).rows.Keys == q.rows.Keys
    ensures forall id :: id in q.rows && !QueuedFor(q.rows[id], a) ==> ClaimAll(q, a, claims).rows[id] == q.rows[id]
    ensures forall b :: b != a ==> Next(ClaimAll(q, a, claims), b) == Next(q, b)
    decreases |claims|
  {
    if |claims| > 0 {
      ClaimsTouchOnlyTheirRows(Claim(q, a, claims[0].id, claims[0].now), a, claims[1..]);
    }
  }
}
