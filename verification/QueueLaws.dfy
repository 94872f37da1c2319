/**
 Laws of the sequence-number queue: conservation of the counters, the exact condition under
 which a forced reset cannot collide with broadcast rows, and stability of the shift.
 */
module QueueLaws {
  import opened Types
  import opened QueueSpec
  import opened Counting

  // ---- Conservation ----

  // The counter-preserving operations, as the submitter uses them: a row is given back
  // together with the release of its sequence number.
  datatype Op =
    | Insert(rec: Record)
    | ClaimOp(a: Addr, id: Id, now: Time)
    | GiveBack(id: Id, now: Time)
    | RecoverOp(now: Time, cutoff: int)
    | ShiftOp(a: Addr, failed: nat, now: Time)
    | SetStatus(rec: Record)

  ghost predicate Legal(q: Queue, op: Op) {
    match op
    case Insert(rec) => rec.id !in q.rows && rec.seqNum.None?
    case ClaimOp(a, id, _) => IsOldest(q, a, id)
    case GiveBack(id, _) => id in q.rows && q.rows[id].seqNum.Some?
    case RecoverOp(_, _) => true
    case ShiftOp(_, _, _) => true
    case SetStatus(rec) =>
      && rec.id in q.rows
      && rec.sender == q.rows[rec.id].sender
      && rec.seqNum == q.rows[rec.id].seqNum
      && (rec.status == Queued ==> rec.seqNum.None?)
  }

  ghost function Apply(q: Queue, op: Op): Queue
    requires Legal(q, op)
  {
    match op
    case Insert(rec) => q.(rows := q.rows[rec.id := rec])
    case ClaimOp(a, id, now) => Claim(q, a, id, now)
    case GiveBack(id, now) => Release(Put(q, Requeued(q.rows[id], now)), q.rows[id].sender)
    case RecoverOp(now, cutoff) => Recover(q, now, cutoff)
    case ShiftOp(a, failed, now) => Shift(q, a, failed, now)
    case SetStatus(rec) => Put(q, rec)
  }

  // A counter stands exactly at its base plus the sender's rows that hold a number.
  ghost predicate BalancedAt(q: Queue, base: Addr -> nat, a: Addr) {
    Next(q, a) == base(a) + |Holding(q, a)|
  }

  // Every counter is balanced, and a queued row holds no number.
  ghost predicate Balanced(q: Queue, base: Addr -> nat) {
    && (forall id :: id in q.rows && q.rows[id].status == Queued ==> q.rows[id].seqNum.None?)
    && (forall a :: BalancedAt(q, base, a))
  }

  lemma ClaimBalances(q: Queue, base: Addr -> nat, a: Addr, id: Id, now: Time, b: Addr)
    requires Balanced(q, base) && IsOldest(q, a, id)
    ensures BalancedAt(Claim(q, a, id, now), base, b)
  {
    assert BalancedAt(q, base, b);
    ClaimedHolding(q, a, id, now, b);
  }

  lemma ClaimedHolding(q: Queue, a: Addr, id: Id, now: Time, b: Addr)
    requires id in q.rows && q.rows[id].sender == a && q.rows[id].seqNum.None?
    ensures Holding(Claim(q, a, id, now), b) == if b == a then Holding(q, b) + {id} else Holding(q, b)
  {
  }

  lemma GiveBackBalances(q: Queue, base: Addr -> nat, id: Id, now: Time, b: Addr)
    requires Balanced(q, base) && id in q.rows && q.rows[id].seqNum.Some?
    requires WellKeyed(q.rows)
    ensures BalancedAt(Apply(q, GiveBack(id, now)), base, b)
  {
    var s := q.rows[id].sender;
    var q' := Put(q, Requeued(q.rows[id], now));
    assert BalancedAt(q, base, b) && BalancedAt(q, base, s);
    assert id in Holding(q, s);
    assert Next(q', s) > 0;
    assert Holding(q', b) == if b == s then Holding(q, b) - {id} else Holding(q, b);
    assert Holding(Release(q', s), b) == Holding(q', b);
  }

  // Each sender's counter falls by exactly its own recovered rows: the bound at zero never acts.
  lemma RecoverIsExact(q: Queue, base: Addr -> nat, now: Time, cutoff: int, b: Addr)
    requires Balanced(q, base)
    ensures BalancedAt(Recover(q, now, cutoff), base, b)
    ensures Next(Recover(q, now, cutoff), b) == Next(q, b) - |StaleOf(q, b, cutoff)|
  {
    var stale := StaleOf(q, b, cutoff);
    assert BalancedAt(q, base, b);
    SubsetSize(stale, Holding(q, b));
    RecoveredHolding(q, now, cutoff, b);
  }

  lemma RecoveredHolding(q: Queue, now: Time, cutoff: int, b: Addr)
    ensures Holding(Recover(q, now, cutoff), b) == Holding(q, b) - StaleOf(q, b, cutoff)
  {
  }

  // A recovery takes exactly the unhashed numbered claims last touched more than the age ago.
  lemma RecoversExactlyAged(q: Queue, now: Time, age: nat, id: Id)
    requires id in q.rows
    ensures var r, r' := q.rows[id], Recover(q, now, Before(now, age)).rows[id];
            if r.status == Processing && r.seqNum.Some? && r.hash == "" && r.updatedAt + age < now then
              r' == r.(status := Queued, seqNum := None, updatedAt := now)
            else r' == r
  {
  }

  // Each sender's counter falls by its own such claims, but not below zero, whatever it stood at.
  lemma RecoveryLowersBy(q: Queue, now: Time, age: nat, b: Addr)
    ensures var aged := set id | id in q.rows && q.rows[id].sender == b && q.rows[id].status == Processing
                                 && q.rows[id].seqNum.Some? && q.rows[id].hash == ""
                                 && q.rows[id].updatedAt + age < now;
            Next(Recover(q, now, Before(now, age)), b) == if |aged| <= Next(q, b) then Next(q, b) - |aged| else 0
  {
    assert StaleOf(q, b, Before(now, age)) ==
           set id | id in q.rows && q.rows[id].sender == b && q.rows[id].status == Processing
                    && q.rows[id].seqNum.Some? && q.rows[id].hash == "" && q.rows[id].updatedAt + age < now;
  }

  // So a claim stays its worker's until the age has passed.
  lemma ClaimIsKeptUntilAged(q: Queue, a: Addr, id: Id, now: Time, later: Time, age: nat)
    requires IsOldest(q, a, id) && q.rows[id].hash == ""
    ensures var q1 := Claim(q, a, id, now);
            Recover(q1, later, Before(later, age)).rows[id] == q1.rows[id] <==> later <= now + age
  {
    RecoversExactlyAged(Claim(q, a, id, now), later, age, id);
  }

  lemma ShiftIsExact(q: Queue, base: Addr -> nat, a: Addr, failed: nat, now: Time, b: Addr)
    requires Balanced(q, base)
    ensures BalancedAt(Shift(q, a, failed, now), base, b)
    ensures Next(Shift(q, a, failed, now), a) == Next(q, a) - |ShiftedOf(q, a, failed)|
  {
    assert BalancedAt(q, base, b) && BalancedAt(q, base, a);
    SubsetSize(ShiftedOf(q, a, failed), Holding(q, a));
    ShiftedHolding(q, a, failed, now, b);
  }

  lemma ShiftedHolding(q: Queue, a: Addr, failed: nat, now: Time, b: Addr)
    ensures Holding(Shift(q, a, failed, now), b) ==
            if b == a then Holding(q, b) - ShiftedOf(q, a, failed) else Holding(q, b)
  {
  }

  lemma InsertOrStatusBalances(q: Queue, base: Addr -> nat, op: Op, b: Addr)
    requires Balanced(q, base) && Legal(q, op) && (op.Insert? || op.SetStatus?)
    ensures BalancedAt(Apply(q, op), base, b)
  {
    assert BalancedAt(q, base, b);
    assert Holding(Apply(q, op), b) == Holding(q, b);
  }

  lemma OpBalances(q: Queue, base: Addr -> nat, op: Op)
    requires WellKeyed(q.rows) && Balanced(q, base) && Legal(q, op)
    ensures WellKeyed(Apply(q, op).rows) && Balanced(Apply(q, op), base)
  {
    forall b ensures BalancedAt(Apply(q, op), base, b) {
      match op {
        case ClaimOp(a, id, now) => ClaimBalances(q, base, a, id, now, b);
        case GiveBack(id, now) => GiveBackBalances(q, base, id, now, b);
        case RecoverOp(now, cutoff) => RecoverIsExact(q, base, now, cutoff, b);
        case ShiftOp(a, failed, now) => ShiftIsExact(q, base, a, failed, now, b);
        case _ => InsertOrStatusBalances(q, base, op, b);
      }
    }
  }

  ghost predicate LegalRun(q: Queue, ops: seq<Op>)
    decreases |ops|
  {
    |ops| == 0 || (Legal(q, ops[0]) && LegalRun(Apply(q, ops[0]), ops[1..]))
  }

  ghost function ApplyAll(q: Queue, ops: seq<Op>): Queue
    requires LegalRun(q, ops)
    decreases |ops|
  {
    if |ops| == 0 then q else ApplyAll(Apply(q, ops[0]), ops[1..])
  }

  // Conservation over every run and for every sender at once.
  lemma {:induction false} CountersAreConserved(q: Queue, base: Addr -> nat, ops: seq<Op>)
    requires WellKeyed(q.rows) && Balanced(q, base) && LegalRun(q, ops)
    ensures Balanced(ApplyAll(q, ops), base)
    decreases |ops|
  {
    if |ops| > 0 {
      OpBalances(q, base, ops[0]);
      CountersAreConserved(Apply(q, ops[0]), base, ops[1..]);
    }
  }

  // ---- Forced reset ----

  predicate IsSubmittedAt(r: Record, a: Addr, n: nat) {
    r.sender == a && r.status == Submitted && r.seqNum == Some(n)
  }

  // A submitted row of the sender, which the reset counts, holds the number.
  ghost predicate Counted(q: Queue, a: Addr, n: nat) {
    exists id :: id in q.rows && IsSubmittedAt(q.rows[id], a, n)
  }

  // A claim that carries a hash may be on chain as well, but the reset does not count it.
  predicate IsHashedClaim(r: Record, a: Addr, from: nat) {
    r.sender == a && r.status == Processing && r.hash != "" && r.seqNum.Some? && r.seqNum.value >= from
  }

  function HashedClaims(q: Queue, a: Addr, from: nat): set<Id> {
    set id | id in q.rows && IsHashedClaim(q.rows[id], a, from)
  }

  // The rows at or above a number that have been broadcast.
  function BroadcastFrom(q: Queue, a: Addr, from: nat): set<Id> {
    Inflight(q, a, from) + HashedClaims(q, a, from)
  }

  ghost predicate Broadcast(q: Queue, a: Addr, n: nat) {
    exists id :: id in BroadcastFrom(q, a, 0) && q.rows[id].seqNum == Some(n)
  }

  ghost predicate DistinctNumbers(q: Queue, ids: set<Id>) {
    forall i, j :: i in ids && j in ids && i in q.rows && j in q.rows && i != j ==> q.rows[i].seqNum != q.rows[j].seqNum
  }

  // The submitted rows leave no gap above the chain's next number.
  ghost predicate ContiguousFrom(q: Queue, a: Addr, from: nat) {
    forall n: nat, m: nat :: from <= n < m && Counted(q, a, m) ==> Counted(q, a, n)
  }

  function Range(lo: nat, len: nat): (r: set<nat>)
    ensures |r| == len
    ensures forall n: nat :: n in r <==> lo <= n < lo + len
  {
    if len == 0 then {} else Range(lo, len - 1) + {lo + len - 1}
  }

  // The numbers held by a set of rows.
  ghost function Numbers(q: Queue, ids: set<Id>): set<nat>
    requires forall id :: id in ids ==> id in q.rows && q.rows[id].seqNum.Some?
  {
    set id | id in ids :: q.rows[id].seqNum.value
  }

  lemma {:induction false} DistinctNumbersCount(q: Queue, ids: set<Id>)
    requires forall id :: id in ids ==> id in q.rows && q.rows[id].seqNum.Some?
    requires DistinctNumbers(q, ids)
    ensures |Numbers(q, ids)| == |ids|
    decreases |ids|
  {
    if ids != {} {
      var id :| id in ids;
      DistinctNumbersCount(q, ids - {id});
      assert Numbers(q, ids) == Numbers(q, ids - {id}) + {q.rows[id].seqNum.value};
    }
  }

  // Every counted number at or above the bound lies within the count of such rows.
  ghost predicate WithinCount(q: Queue, a: Addr, from: nat) {
    forall n: nat :: Counted(q, a, n) && n >= from ==> n < from + |Inflight(q, a, from)|
  }

  lemma CountedNumbers(q: Queue, a: Addr, from: nat)
    ensures forall n: nat :: n in Numbers(q, Inflight(q, a, from)) <==> n >= from && Counted(q, a, n)
  {
    forall n: nat | n >= from && Counted(q, a, n) ensures n in Numbers(q, Inflight(q, a, from)) {
      var id :| id in q.rows && IsSubmittedAt(q.rows[id], a, n);
      assert id in Inflight(q, a, from);
    }
  }

  // Pigeonhole: distinct numbers from a lower bound on are gap-free exactly when they all lie
  // within their own count of it, and then they fill that range.
  lemma GapFreeIffWithinCount(q: Queue, a: Addr, from: nat)
    requires DistinctNumbers(q, Inflight(q, a, from))
    ensures ContiguousFrom(q, a, from) <==> WithinCount(q, a, from)
    ensures ContiguousFrom(q, a, from) ==> FillsFrom(q, a, from)
  {
    if ContiguousFrom(q, a, from) {
      GapFreeIsWithinCount(q, a, from);
    }
    if WithinCount(q, a, from) {
      WithinCountFills(q, a, from);
    }
  }

  ghost predicate FillsFrom(q: Queue, a: Addr, from: nat) {
    forall n: nat :: from <= n < from + |Inflight(q, a, from)| ==> Counted(q, a, n)
  }

  lemma GapFreeIsWithinCount(q: Queue, a: Addr, from: nat)
    requires DistinctNumbers(q, Inflight(q, a, from)) && ContiguousFrom(q, a, from)
    ensures WithinCount(q, a, from)
  {
    var ids := Inflight(q, a, from);
    var used := Numbers(q, ids);
    DistinctNumbersCount(q, ids);
    CountedNumbers(q, a, from);
    forall n: nat | Counted(q, a, n) && n >= from ensures n < from + |ids| {
      if n >= from + |ids| {
        var below := Range(from, |ids| + 1);
        assert below <= used;
        SubsetSize(below, used);
      }
    }
  }

  lemma WithinCountFills(q: Queue, a: Addr, from: nat)
    requires DistinctNumbers(q, Inflight(q, a, from)) && WithinCount(q, a, from)
    ensures FillsFrom(q, a, from) && ContiguousFrom(q, a, from)
  {
    var ids := Inflight(q, a, from);
    var used := Numbers(q, ids);
    DistinctNumbersCount(q, ids);
    CountedNumbers(q, a, from);
    var range := Range(from, |ids|);
    assert used <= range;
    SubsetSize(used, range);
  }

  // No number from the counter on is held by a broadcast row, so no later claim can be given one.
  ghost predicate ClearFrom(q: Queue, a: Addr, next: nat) {
    forall n: nat :: n >= next ==> !Broadcast(q, a, n)
  }

  // The guard of the reset: every broadcast row at or above the chain is one that it counts, and
  // these leave no gap.
  ghost predicate ResetFits(q: Queue, a: Addr, chainSeq: nat) {
    HashedClaims(q, a, chainSeq) == {} && ContiguousFrom(q, a, chainSeq)
  }

  // After a forced reset no later claim, however many are made, can be given a number that a
  // broadcast row holds - exactly when the reset counts every broadcast row and there is no gap.
  lemma ForceResetIsSafeIff(q: Queue, a: Addr, chainSeq: nat)
    requires DistinctNumbers(q, BroadcastFrom(q, a, chainSeq))
    ensures ClearFrom(q, a, Next(ForceReset(q, a, chainSeq), a)) <==> ResetFits(q, a, chainSeq)
  {
    GapFreeIffWithinCount(q, a, chainSeq);
    if ResetFits(q, a, chainSeq) {
      FittingResetIsClear(q, a, chainSeq);
    }
    if ClearFrom(q, a, chainSeq + |Inflight(q, a, chainSeq)|) {
      ClearResetCountsAll(q, a, chainSeq);
      ClearResetIsWithinCount(q, a, chainSeq);
    }
  }

  lemma FittingResetIsClear(q: Queue, a: Addr, chainSeq: nat)
    requires WithinCount(q, a, chainSeq) && HashedClaims(q, a, chainSeq) == {}
    ensures ClearFrom(q, a, chainSeq + |Inflight(q, a, chainSeq)|)
  {
    forall n: nat | n >= chainSeq + |Inflight(q, a, chainSeq)| ensures !Broadcast(q, a, n) {
      if Broadcast(q, a, n) {
        var id :| id in BroadcastFrom(q, a, 0) && q.rows[id].seqNum == Some(n);
        assert id !in HashedClaims(q, a, chainSeq);
        assert Counted(q, a, n);
      }
    }
  }

  // Pigeonhole again: with one more broadcast row than the reset counts, some number lies beyond.
  lemma ClearResetCountsAll(q: Queue, a: Addr, chainSeq: nat)
    requires DistinctNumbers(q, BroadcastFrom(q, a, chainSeq))
    requires ClearFrom(q, a, chainSeq + |Inflight(q, a, chainSeq)|)
    ensures HashedClaims(q, a, chainSeq) == {}
  {
    var counted, all := Inflight(q, a, chainSeq), BroadcastFrom(q, a, chainSeq);
    var range := Range(chainSeq, |counted|);
    DistinctNumbersCount(q, all);
    forall n | n in Numbers(q, all) ensures n in range {
      var id :| id in all && q.rows[id].seqNum.value == n;
      assert id in BroadcastFrom(q, a, 0);
      assert Broadcast(q, a, n);
    }
    SubsetSize(Numbers(q, all), range);
    SubsetSize(counted, all);
  }

  lemma ClearResetIsWithinCount(q: Queue, a: Addr, chainSeq: nat)
    requires ClearFrom(q, a, chainSeq + |Inflight(q, a, chainSeq)|)
    ensures WithinCount(q, a, chainSeq)
  {
    forall n: nat | Counted(q, a, n) ensures Broadcast(q, a, n) {
      var id :| id in q.rows && IsSubmittedAt(q.rows[id], a, n);
      assert id in BroadcastFrom(q, a, 0);
    }
  }

  // Then the next claims start at the first free number, and none of them is given a number that
  // any other broadcast row holds.
  lemma ForceResetNeverCollides(q: Queue, a: Addr, chainSeq: nat, claims: seq<ClaimAt>, i: nat)
    requires DistinctNumbers(q, BroadcastFrom(q, a, chainSeq)) && ResetFits(q, a, chainSeq)
    requires CanClaim(ForceReset(q, a, chainSeq), a, claims) && i < |claims|
    ensures var q0 := ForceReset(q, a, chainSeq);
            var q' := ClaimAll(q0, a, claims);
            && (forall n: nat :: chainSeq <= n < Next(q0, a) ==> Counted(q, a, n))
            && ClaimedAs(q0, q', a, claims[i], Next(q0, a) + i)
            && !Broadcast(q, a, Next(q0, a) + i)
            && (forall id :: id in BroadcastFrom(q', a, 0) && id != claims[i].id ==>
                  q'.rows[id].seqNum != Some(Next(q0, a) + i))
  {
    var q0 := ForceReset(q, a, chainSeq);
    FittingResetStartsFree(q, a, chainSeq);
    ClaimedInOrder(q0, a, claims, i);
    OthersNeverCollide(q0, a, claims, i);
  }

  lemma FittingResetStartsFree(q: Queue, a: Addr, chainSeq: nat)
    requires DistinctNumbers(q, BroadcastFrom(q, a, chainSeq)) && ResetFits(q, a, chainSeq)
    ensures var q0 := ForceReset(q, a, chainSeq);
            && (forall n: nat :: chainSeq <= n < Next(q0, a) ==> Counted(q, a, n))
            && ClearFrom(q, a, Next(q0, a)) && ClearFrom(q0, a, Next(q0, a))
  {
    var q0 := ForceReset(q, a, chainSeq);
    GapFreeIffWithinCount(q, a, chainSeq);
    ForceResetIsSafeIff(q, a, chainSeq);
    SameRowsAreClear(q, q0, a, Next(q0, a));
  }

  lemma OthersNeverCollide(q: Queue, a: Addr, claims: seq<ClaimAt>, i: nat)
    requires CanClaim(q, a, claims) && i < |claims| && ClearFrom(q, a, Next(q, a))
    ensures var q' := ClaimAll(q, a, claims);
            forall id :: id in BroadcastFrom(q', a, 0) && id != claims[i].id ==>
              q'.rows[id].seqNum != Some(Next(q, a) + i)
  {
    forall id | id in BroadcastFrom(ClaimAll(q, a, claims), a, 0) && id != claims[i].id
      ensures ClaimAll(q, a, claims).rows[id].seqNum != Some(Next(q, a) + i)
    {
      OthersHoldOtherNumbers(q, a, claims, i, id);
    }
  }

  lemma SameRowsAreClear(q: Queue, q0: Queue, a: Addr, next: nat)
    requires q.rows == q0.rows && ClearFrom(q, a, next)
    ensures ClearFrom(q0, a, next)
  {
    forall n: nat | Broadcast(q0, a, n) ensures Broadcast(q, a, n) {
      var id :| id in BroadcastFrom(q0, a, 0) && q0.rows[id].seqNum == Some(n);
      assert id in BroadcastFrom(q, a, 0);
    }
  }

  // From a counter with no broadcast number at or above it, a claim's number is its own.
  lemma OthersHoldOtherNumbers(q: Queue, a: Addr, claims: seq<ClaimAt>, i: nat, id: Id)
    requires CanClaim(q, a, claims) && i < |claims| && ClearFrom(q, a, Next(q, a))
    requires id in BroadcastFrom(ClaimAll(q, a, claims), a, 0) && id != claims[i].id
    ensures ClaimAll(q, a, claims).rows[id].seqNum != Some(Next(q, a) + i)
  {
    OnlyClaimedRowsChange(q, a, claims, id);
    if k :| 0 <= k < |claims| && claims[k].id == id {
      ClaimedInOrder(q, a, claims, k);
    } else {
      BroadcastRowHoldsIt(q, a, id);
    }
  }

  lemma BroadcastRowHoldsIt(q: Queue, a: Addr, id: Id)
    requires id in BroadcastFrom(q, a, 0)
    ensures Broadcast(q, a, q.rows[id].seqNum.value)
  {
  }

  lemma {:induction false} OnlyClaimedRowsChange(q: Queue, a: Addr, claims: seq<ClaimAt>, id: Id)
    requires CanClaim(q, a, claims)
    ensures var q' := ClaimAll(q, a, claims);
            && q'.rows.Keys == q.rows.Keys
            && (id in q.rows && (forall k :: 0 <= k < |claims| ==> claims[k].id != id) ==> q'.rows[id] == q.rows[id])
    decreases |claims|
  {
    if |claims| > 0 {
      OnlyClaimedRowsChange(Claim(q, a, claims[0].id, claims[0].now), a, claims[1..], id);
      assert forall k :: 0 <= k < |claims[1..]| ==> claims[1..][k] == claims[k + 1];
    }
  }

  // A gap really does collide: with chain 10 and one submitted row at 11, the reset counter is 11.
  lemma ForceResetCollidesOnGap()
    ensures exists q: Queue, a: Addr, chainSeq: nat ::
              && DistinctNumbers(q, BroadcastFrom(q, a, chainSeq)) && HashedClaims(q, a, chainSeq) == {}
              && Broadcast(q, a, Next(ForceReset(q, a, chainSeq), a))
  {
    var row := Record(1, "", Submitted, "h", 7, Some(11), 0, 0, 0, 0);
    var q := Queue(map[1 := row], map[7 := 12]);
    assert Inflight(q, 7, 10) == {1};
    assert HashedClaims(q, 7, 10) == {};
    assert 1 in BroadcastFrom(q, 7, 0) && q.rows[1].seqNum == Some(11);
    assert Next(ForceReset(q, 7, 10), 7) == 11;
  }

  // So does a broadcast claim whose status update failed: the reset does not count it, and gives
  // its very number to the next claim.
  lemma ForceResetCollidesOnHashedClaim()
    ensures exists q: Queue, a: Addr, chainSeq: nat ::
              && DistinctNumbers(q, BroadcastFrom(q, a, chainSeq)) && ContiguousFrom(q, a, chainSeq)
              && Broadcast(q, a, Next(ForceReset(q, a, chainSeq), a))
  {
    var row := Record(1, "", Processing, "h", 7, Some(10), 0, 0, 0, 0);
    var q := Queue(map[1 := row], map[7 := 12]);
    LoneHashedClaim(q, row);
  }

  lemma LoneHashedClaim(q: Queue, row: Record)
    requires q.rows == map[1 := row] && IsHashedClaim(row, 7, 10) && row.seqNum == Some(10)
    ensures DistinctNumbers(q, BroadcastFrom(q, 7, 10)) && ContiguousFrom(q, 7, 10)
    ensures Broadcast(q, 7, Next(ForceReset(q, 7, 10), 7))
  {
    assert Inflight(q, 7, 10) == {};
    assert forall n: nat :: !Counted(q, 7, n);
    BroadcastRowHoldsIt(q, 7, 1);
  }

  // ---- Shift ----

  // Every number above f is held by an unbroadcast processing row, these rows were claimed in
  // creation order, and whatever is still queued is younger.
  ghost predicate ClaimedAbove(q: Queue, a: Addr, f: nat, ids: seq<Id>) {
    && WellKeyed(q.rows)
    && Next(q, a) == f + 1 + |ids|
    && (forall i :: 0 <= i < |ids| ==>
          && ids[i] in q.rows && q.rows[ids[i]].sender == a && q.rows[ids[i]].status == Processing
          && q.rows[ids[i]].hash == "" && q.rows[ids[i]].seqNum == Some(f + 1 + i))
    && (forall i, j :: 0 <= i < j < |ids| ==> Older(q.rows[ids[i]], q.rows[ids[j]]))
    && (forall id :: id in q.rows && IsShifted(q.rows[id], a, f) ==> id in ids)
    && (forall id, i :: id in q.rows && QueuedFor(q.rows[id], a) && 0 <= i < |ids| ==>
          Older(q.rows[ids[i]], q.rows[id]))
  }

  // The shifted rows can be claimed again in their old order.
  lemma {:induction false} ReclaimInOrder(q: Queue, a: Addr, ids: seq<Id>, claims: seq<ClaimAt>)
    requires WellKeyed(q.rows) && |claims| == |ids|
    requires forall i :: 0 <= i < |ids| ==> claims[i].id == ids[i]
    requires forall i :: 0 <= i < |ids| ==> ids[i] in q.rows && QueuedFor(q.rows[ids[i]], a)
    requires forall i, j :: 0 <= i < j < |ids| ==> Older(q.rows[ids[i]], q.rows[ids[j]])
    requires forall id, i :: id in q.rows && QueuedFor(q.rows[id], a) && id !in ids && 0 <= i < |ids| ==>
               Older(q.rows[ids[i]], q.rows[id])
    ensures CanClaim(q, a, claims)
    decreases |ids|
  {
    if |ids| > 0 {
      forall j | j in q.rows && QueuedFor(q.rows[j], a) && j != ids[0] ensures Older(q.rows[ids[0]], q.rows[j]) {
        if j in ids {
          var k :| 0 <= k < |ids| && ids[k] == j;
        }
      }
      var q1 := Claim(q, a, claims[0].id, claims[0].now);
      assert forall i :: 0 <= i < |ids[1..]| ==> ids[1..][i] == ids[i + 1] && claims[1..][i] == claims[i + 1];
      forall id, i | id in q1.rows && QueuedFor(q1.rows[id], a) && id !in ids[1..] && 0 <= i < |ids[1..]|
        ensures Older(q1.rows[ids[1..][i]], q1.rows[id])
      {
        assert id != ids[0];
        assert id !in ids;
      }
      ReclaimInOrder(q1, a, ids[1..], claims[1..]);
    }
  }

  lemma ShiftedCount(q: Queue, a: Addr, f: nat, ids: seq<Id>)
    requires ClaimedAbove(q, a, f, ids)
    ensures |ShiftedOf(q, a, f)| == |ids|
  {
    forall i, j | 0 <= i < j < |ids| ensures ids[i] != ids[j] {
      assert Older(q.rows[ids[i]], q.rows[ids[j]]);
    }
    DistinctCount(ids);
    assert ShiftedOf(q, a, f) == set i | 0 <= i < |ids| :: ids[i];
  }

  // After a permanent failure at f the counter is f + 1 and exactly the rows above f changed.
  lemma ShiftIsExactAbove(q: Queue, a: Addr, f: nat, ids: seq<Id>, now: Time)
    requires ClaimedAbove(q, a, f, ids)
    ensures var q1 := Shift(q, a, f, now);
            && Next(q1, a) == f + 1
            && q1.rows.Keys == q.rows.Keys
            && (forall id :: id in q.rows ==>
                  q1.rows[id] == if id in ids then q.rows[id].(status := Queued, seqNum := None, updatedAt := now)
                                 else q.rows[id])
            && (forall b :: b != a ==> Next(q1, b) == Next(q, b))
  {
    ShiftedCount(q, a, f, ids);
    assert forall id :: id in q.rows ==> (IsShifted(q.rows[id], a, f) <==> id in ids);
  }

  // Claiming again after the shift gives every shifted row its old number back.
  lemma ShiftIsStable(q: Queue, a: Addr, f: nat, ids: seq<Id>, now: Time, claims: seq<ClaimAt>, i: nat)
    requires ClaimedAbove(q, a, f, ids) && i < |ids|
    requires |claims| == |ids| && forall i :: 0 <= i < |ids| ==> claims[i].id == ids[i]
    ensures var q1 := Shift(q, a, f, now);
            CanClaim(q1, a, claims) && ClaimedAs(q1, ClaimAll(q1, a, claims), a, claims[i], q.rows[ids[i]].seqNum.value)
  {
    ShiftIsExactAbove(q, a, f, ids, now);
    ReclaimShifted(q, Shift(q, a, f, now), a, f, ids, now, claims, i);
  }

  lemma ReclaimShifted(q: Queue, q1: Queue, a: Addr, f: nat, ids: seq<Id>, now: Time, claims: seq<ClaimAt>, i: nat)
    requires ClaimedAbove(q, a, f, ids) && i < |ids|
    requires q1.rows.Keys == q.rows.Keys && Next(q1, a) == f + 1
    requires forall id :: id in q.rows ==> q1.rows[id] == if id in ids then Requeued(q.rows[id], now) else q.rows[id]
    requires |claims| == |ids| && forall i :: 0 <= i < |ids| ==> claims[i].id == ids[i]
    ensures CanClaim(q1, a, claims) && ClaimedAs(q1, ClaimAll(q1, a, claims), a, claims[i], f + 1 + i)
  {
    Reclaimable(q, q1, a, f, ids, now, claims);
    ClaimedInOrder(q1, a, claims, i);
  }

  lemma ClaimedInOrder(q: Queue, a: Addr, claims: seq<ClaimAt>, i: nat)
    requires CanClaim(q, a, claims) && i < |claims|
    ensures ClaimedAs(q, ClaimAll(q, a, claims), a, claims[i], Next(q, a) + i)
  {
    ClaimsAreConsecutive(q, a, claims);
  }

  lemma Reclaimable(q: Queue, q1: Queue, a: Addr, f: nat, ids: seq<Id>, now: Time, claims: seq<ClaimAt>)
    requires ClaimedAbove(q, a, f, ids)
    requires q1.rows.Keys == q.rows.Keys
    requires forall id :: id in q.rows ==> q1.rows[id] == if id in ids then Requeued(q.rows[id], now) else q.rows[id]
    requires |claims| == |ids| && forall i :: 0 <= i < |ids| ==> claims[i].id == ids[i]
    ensures CanClaim(q1, a, claims)
  {
    forall i | 0 <= i < |ids| ensures ids[i] in q1.rows && QueuedFor(q1.rows[ids[i]], a) {
    }
    forall i, j | 0 <= i < j < |ids| ensures Older(q1.rows[ids[i]], q1.rows[ids[j]]) {
      assert Older(q.rows[ids[i]], q.rows[ids[j]]);
    }
    forall id, i | id in q1.rows && QueuedFor(q1.rows[id], a) && id !in ids && 0 <= i < |ids|
      ensures Older(q1.rows[ids[i]], q1.rows[id])
    {
      assert Older(q.rows[ids[i]], q.rows[id]);
    }
    ReclaimInOrder(q1, a, ids, claims);
  }
}
