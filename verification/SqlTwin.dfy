/**
 The SQL form of the queue operations, each transaction one step, against the in-memory form.
 The counter is an unsigned column, so subtracting more than it holds is an error, which rolls
 the transaction back before GREATEST could bound it.  This and the lack of a counter row for a
 sender that never claimed are where the two forms can differ; each operation is given here with
 the exact condition under which they agree.
 */
module SqlTwin {
  import opened Counting
  import opened Types
  import opened QueueSpec
  import opened Stamps
  import QueueLaws

  // An UPDATE of a counter changes nothing if the sender has no counter row.
  function SetCounter(next: map<Addr, nat>, a: Addr, n: nat): map<Addr, nat> {
    if a in next then next[a := n] else next
  }

  function Greatest(x: nat, y: nat): nat {
    if x >= y then x else y
  }

  datatype Outcome = Committed(q: Queue) | RolledBack

  // What a transaction leaves behind.
  function Left(q: Queue, o: Outcome): Queue {
    if o.Committed? then o.q else q
  }

  // Lowering the counter by n is out of range.
  predicate Underflows(q: Queue, a: Addr, n: nat) {
    a in q.next && q.next[a] < n
  }

  // SET next_sequence = GREATEST(next_sequence - n, 0)
  function LowerCounter(q: Queue, a: Addr, n: nat): Outcome {
    if Underflows(q, a, n) then RolledBack
    else if a in q.next then Committed(q.(next := q.next[a := Greatest(q.next[a] - n, 0)]))
    else Committed(q)
  }

  // ---- The transactions ----

  // The row that SELECT ... ORDER BY created_at, id LIMIT 1 finds.
  ghost predicate Selected(q: Queue, a: Addr, id: Id) {
    && id in q.rows && q.rows[id].status == Queued && q.rows[id].sender == a
    && forall j :: j in q.rows && q.rows[j].status == Queued && q.rows[j].sender == a ==>
         !Lt(Stamp(q.rows[j].createdAt, j), Stamp(q.rows[id].createdAt, id))
  }

  function SqlClaim(q: Queue, a: Addr, id: Id, now: Time): Queue
    requires id in q.rows
  {
    var inserted := if a in q.next then q.next else q.next[a := 0];
    Queue(q.rows[id := q.rows[id].(status := Processing, seqNum := Some(inserted[a]), updatedAt := now)],
          SetCounter(inserted, a, inserted[a] + 1))
  }

  function SqlRaise(q: Queue, a: Addr, chainSeq: nat): Queue {
    q.(next := SetCounter(q.next, a, Greatest(Next(q, a), chainSeq)))
  }

  function SqlForceReset(q: Queue, a: Addr, chainSeq: nat): Queue {
    q.(next := SetCounter(q.next, a, chainSeq + |Inflight(q, a, chainSeq)|))
  }

  function SqlRelease(q: Queue, a: Addr): Outcome {
    LowerCounter(q, a, 1)
  }

  function SqlShift(q: Queue, a: Addr, failed: nat, now: Time): Outcome {
    var ids := ShiftedOf(q, a, failed);
    var q1 := q.(rows := RequeueAll(q.rows, ids, now));
    if |ids| > 0 then LowerCounter(q1, a, |ids|) else Committed(q1)
  }

  // The SQL recovery takes stale claims whether they hold a number or not, and counts those that do.
  predicate IsLocked(r: Record, cutoff: int) {
    r.status == Processing && r.hash == "" && r.updatedAt < cutoff
  }

  function Locked(q: Queue, cutoff: int): set<Id> {
    set id | id in q.rows && IsLocked(q.rows[id], cutoff)
  }

  function SqlCounts(q: Queue, cutoff: int): map<Addr, nat> {
    var senders := set id | id in Locked(q, cutoff) && q.rows[id].seqNum.Some? :: q.rows[id].sender;
    map a | a in senders :: |StaleOf(q, a, cutoff)|
  }

  // One counter out of range undoes the recovery of every sender.
  predicate AnyUnderflows(q: Queue, cutoff: int) {
    exists a :: a in q.next && Underflows(q, a, |StaleOf(q, a, cutoff)|)
  }

  function SqlRecover(q: Queue, now: Time, cutoff: int): Outcome {
    var counts := SqlCounts(q, cutoff);
    if AnyUnderflows(q, cutoff) then RolledBack
    else
      Committed(Queue(RequeueAll(q.rows, Locked(q, cutoff), now),
                      map a | a in q.next :: if a in counts then Minus(q.next[a], counts[a]) else q.next[a]))
  }

  // ---- Agreement ----

  // The same records and, an absent counter being zero, the same counters.
  ghost predicate Same(q: Queue, q': Queue) {
    q.rows == q'.rows && forall a :: Next(q, a) == Next(q', a)
  }

  // The query and the scan of the map find the same row, and the claims of it agree.
  lemma SelectionsAgree(q: Queue, a: Addr, id: Id)
    requires WellKeyed(q.rows)
    ensures Selected(q, a, id) <==> IsOldest(q, a, id)
  {
    if Selected(q, a, id) {
      forall j | j in q.rows && QueuedFor(q.rows[j], a) && j != id ensures Older(q.rows[id], q.rows[j]) {
        assert !Lt(Stamp(q.rows[j].createdAt, j), Stamp(q.rows[id].createdAt, id));
      }
    }
  }

  lemma ClaimsAgree(q: Queue, a: Addr, sql: Id, scanned: Id, now: Time)
    requires WellKeyed(q.rows) && Selected(q, a, sql) && IsOldest(q, a, scanned)
    ensures sql == scanned
    ensures Same(SqlClaim(q, a, sql, now), Claim(q, a, scanned, now)) && a in SqlClaim(q, a, sql, now).next
  {
    SelectionsAgree(q, a, sql);
  }

  // A release at zero is rolled back, and leaves the counter at zero all the same.
  lemma ReleasesAgree(q: Queue, a: Addr)
    ensures Same(Left(q, SqlRelease(q, a)), Release(q, a))
    ensures SqlRelease(q, a).RolledBack? <==> a in q.next && q.next[a] == 0
  {
  }

  // The shifts agree exactly when the counter covers the shifted rows.
  lemma ShiftsAgreeIff(q: Queue, a: Addr, failed: nat, now: Time)
    ensures Same(Left(q, SqlShift(q, a, failed, now)), Shift(q, a, failed, now)) <==>
            !Underflows(q, a, |ShiftedOf(q, a, failed)|)
  {
    var ids := ShiftedOf(q, a, failed);
    if Underflows(q, a, |ids|) {
      var id :| id in ids;
      assert Shift(q, a, failed, now).rows[id].seqNum != q.rows[id].seqNum;
    } else {
      assert |ids| == 0 <==> ids == {};
    }
  }

  // A sender that never claimed has no counter row to raise or to reset.
  lemma RaisesAgreeIff(q: Queue, a: Addr, chainSeq: nat)
    ensures Same(SqlRaise(q, a, chainSeq), Raise(q, a, chainSeq)) <==> a in q.next || chainSeq == 0
  {
    if a !in q.next && chainSeq > 0 {
      assert Next(SqlRaise(q, a, chainSeq), a) != Next(Raise(q, a, chainSeq), a);
    }
  }

  lemma ForceResetsAgreeIff(q: Queue, a: Addr, chainSeq: nat)
    ensures Same(SqlForceReset(q, a, chainSeq), ForceReset(q, a, chainSeq)) <==>
            a in q.next || chainSeq + |Inflight(q, a, chainSeq)| == 0
  {
    if a !in q.next && chainSeq + |Inflight(q, a, chainSeq)| > 0 {
      assert Next(SqlForceReset(q, a, chainSeq), a) != Next(ForceReset(q, a, chainSeq), a);
    }
  }

  // The in-memory cutoff lies an age before now; the SQL one rounds the age down to whole seconds,
  // and up to one.
  function WholeSeconds(age: nat, second: nat): nat
    requires second > 0
  {
    Greatest(age / second, 1) * second
  }

  // Every unhashed claim is stale by one cutoff exactly if it is by the other.
  ghost predicate SameStale(q: Queue, sqlCutoff: int, cutoff: int) {
    forall id :: id in q.rows ==> (IsLocked(q.rows[id], sqlCutoff) <==> IsStale(q.rows[id], cutoff))
  }

  // When the SQL recovery is rolled back, the recoveries agree exactly when there is nothing to
  // recover in memory; otherwise exactly when rounding the age moves no claim across the cutoff
  // and no stale claim lacks a number.
  ghost predicate RecoversAlike(q: Queue, sqlCutoff: int, cutoff: int) {
    if AnyUnderflows(q, sqlCutoff) then StaleIds(q, cutoff) == {} else SameStale(q, sqlCutoff, cutoff)
  }

  lemma RecoveriesAgreeIff(q: Queue, now: Time, age: nat, second: nat)
    requires second > 0
    ensures var sqlCutoff, cutoff := Before(now, WholeSeconds(age, second)), Before(now, age);
            Same(Left(q, SqlRecover(q, now, sqlCutoff)), Recover(q, now, cutoff)) <==>
            RecoversAlike(q, sqlCutoff, cutoff)
  {
    CutoffsAgreeIff(q, now, Before(now, WholeSeconds(age, second)), Before(now, age));
  }

  lemma CutoffsAgreeIff(q: Queue, now: Time, sqlCutoff: int, cutoff: int)
    ensures Same(Left(q, SqlRecover(q, now, sqlCutoff)), Recover(q, now, cutoff)) <==>
            RecoversAlike(q, sqlCutoff, cutoff)
  {
    if AnyUnderflows(q, sqlCutoff) {
      RollbackAgreesIff(q, now, cutoff);
    } else {
      CommitAgreesIff(q, now, sqlCutoff, cutoff);
    }
  }

  lemma RollbackAgreesIff(q: Queue, now: Time, cutoff: int)
    ensures Same(q, Recover(q, now, cutoff)) <==> StaleIds(q, cutoff) == {}
  {
    if StaleIds(q, cutoff) == {} {
      forall a ensures Next(Recover(q, now, cutoff), a) == Next(q, a) {
        assert StaleOf(q, a, cutoff) == {};
      }
    } else {
      var id :| id in StaleIds(q, cutoff);
      assert Recover(q, now, cutoff).rows[id].status != q.rows[id].status;
    }
  }

  lemma CommitAgreesIff(q: Queue, now: Time, sqlCutoff: int, cutoff: int)
    requires !AnyUnderflows(q, sqlCutoff)
    ensures Same(SqlRecover(q, now, sqlCutoff).q, Recover(q, now, cutoff)) <==> SameStale(q, sqlCutoff, cutoff)
  {
    if SameStale(q, sqlCutoff, cutoff) {
      assert Locked(q, sqlCutoff) == StaleIds(q, cutoff);
      forall a ensures Next(SqlRecover(q, now, sqlCutoff).q, a) == Next(Recover(q, now, cutoff), a) {
        CountsAgree(q, now, sqlCutoff, cutoff, a);
      }
    } else {
      var id :| id in q.rows && (IsLocked(q.rows[id], sqlCutoff) <==> !IsStale(q.rows[id], cutoff));
      assert SqlRecover(q, now, sqlCutoff).q.rows[id].status != Recover(q, now, cutoff).rows[id].status;
    }
  }

  // For an age of whole seconds, which is what the service passes: the SQL form alone rescues a
  // stale claim that holds no number, and it rescues nothing if any counter falls short.
  lemma WholeSecondRecoveriesAgreeIff(q: Queue, now: Time, age: nat, second: nat)
    requires second > 0 && age > 0 && age % second == 0
    ensures var sqlCutoff, cutoff := Before(now, WholeSeconds(age, second)), Before(now, age);
            Same(Left(q, SqlRecover(q, now, sqlCutoff)), Recover(q, now, cutoff)) <==>
            && (forall id :: id in Locked(q, cutoff) ==> q.rows[id].seqNum.Some?)
            && (forall a :: a in q.next ==> !Underflows(q, a, |StaleOf(q, a, cutoff)|))
  {
    var cutoff := Before(now, age);
    WholeSecondsAreExact(age, second);
    CutoffsAgreeIff(q, now, cutoff, cutoff);
    if AnyUnderflows(q, cutoff) {
      UnderflowHasStale(q, cutoff);
    } else {
      assert forall id :: id in q.rows && IsLocked(q.rows[id], cutoff) ==> id in Locked(q, cutoff);
    }
  }

  lemma UnderflowHasStale(q: Queue, cutoff: int)
    requires AnyUnderflows(q, cutoff)
    ensures StaleIds(q, cutoff) != {}
  {
    var a :| a in q.next && Underflows(q, a, |StaleOf(q, a, cutoff)|);
    var id :| id in StaleOf(q, a, cutoff);
    assert id in StaleIds(q, cutoff);
  }

  // A counter below the stale claims of its sender: the SQL recovery leaves the claim stranded,
  // which the in-memory one requeues.
  lemma RecoveryCanStrand()
    ensures exists q: Queue, now: Time, cutoff: int, id: Id ::
              && id in StaleIds(q, cutoff)
              && Left(q, SqlRecover(q, now, cutoff)).rows[id].status == Processing
              && Recover(q, now, cutoff).rows[id].status == Queued
  {
    var q := Queue(map[1 := Record(1, "", Processing, "", 7, Some(1), 0, 0, 0, 0)], map[7 := 0]);
    assert StaleOf(q, 7, 5) == {1} && 1 in StaleIds(q, 5);
    assert Underflows(q, 7, |StaleOf(q, 7, 5)|);
    assert Left(q, SqlRecover(q, 9, 5)).rows[1].status == Processing && Recover(q, 9, 5).rows[1].status == Queued;
  }

  // While the counters are balanced, no transaction is rolled back.
  lemma BalancedNeverRollsBack(q: Queue, base: Addr -> nat, a: Addr, failed: nat, id: Id, now: Time, cutoff: int)
    requires QueueLaws.Balanced(q, base)
    ensures SqlRecover(q, now, cutoff).Committed?
    ensures SqlShift(q, a, failed, now).Committed?
    ensures id in q.rows && q.rows[id].seqNum.Some? ==> SqlRelease(q, q.rows[id].sender).Committed?
  {
    forall b ensures !Underflows(q, b, |StaleOf(q, b, cutoff)|) {
      assert QueueLaws.BalancedAt(q, base, b);
      SubsetSize(StaleOf(q, b, cutoff), Holding(q, b));
    }
    assert QueueLaws.BalancedAt(q, base, a);
    SubsetSize(ShiftedOf(q, a, failed), Holding(q, a));
    if id in q.rows && q.rows[id].seqNum.Some? {
      assert QueueLaws.BalancedAt(q, base, q.rows[id].sender);
      assert id in Holding(q, q.rows[id].sender);
    }
  }

  // The age that the SQL form uses is the greatest number of whole seconds in it, but at least one.
  lemma WholeSecondsRound(age: nat, second: nat)
    requires second > 0
    ensures age >= second ==> WholeSeconds(age, second) <= age < WholeSeconds(age, second) + second
    ensures age < second ==> WholeSeconds(age, second) == second
  {
    assert age == second * (age / second) + age % second;
    assert WholeSeconds(age, second) == second * Greatest(age / second, 1);
  }

  lemma WholeSecondsAreExact(age: nat, second: nat)
    requires second > 0 && age > 0 && age % second == 0
    ensures WholeSeconds(age, second) == age
  {
    assert age == second * (age / second) + age % second;
  }

  // With the same stale claims, or the same cutoff, a recovery that commits releases the same numbers.
  lemma CountsAgree(q: Queue, now: Time, sqlCutoff: int, cutoff: int, a: Addr)
    requires sqlCutoff == cutoff || SameStale(q, sqlCutoff, cutoff)
    ensures SqlRecover(q, now, sqlCutoff).Committed? ==>
              Next(SqlRecover(q, now, sqlCutoff).q, a) == Next(Recover(q, now, cutoff), a)
  {
    assert StaleOf(q, a, sqlCutoff) == StaleOf(q, a, cutoff);
    SqlCountOf(q, sqlCutoff, a);
  }

  lemma SqlCountOf(q: Queue, cutoff: int, a: Addr)
    ensures Count(SqlCounts(q, cutoff), a) == |StaleOf(q, a, cutoff)|
  {
    if StaleOf(q, a, cutoff) != {} {
      var id :| id in StaleOf(q, a, cutoff);
      assert id in Locked(q, cutoff) && q.rows[id].seqNum.Some?;
      assert a in SqlCounts(q, cutoff);
    }
  }
}
