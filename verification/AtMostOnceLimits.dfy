/**
 Neither assumption of AcceptedAtMostOnce can be dropped: with either one alone there is a run,
 from an empty store, after which a row that the chain has accepted is queued again.
 */
module AtMostOnceLimits {
  import opened Types
  import opened QueueSpec
  import opened Pipeline
  import opened AtMostOnce

  datatype Dropped = ClaimAssumption | ShiftAssumption

  // The assumption that is kept.
  ghost predicate Kept(d: Dropped, s: State, step: Step) {
    match d
    case ClaimAssumption => ShiftsNoBroadcast(1, s, step)
    case ShiftAssumption => ClaimsNoHeldRow(s, step)
  }

  const EMPTY := State(Queue(map[], map[]), [], [], map[], None)

  // Reached from the empty store in a run of sender 1 with a pipeline of depth 1.
  ghost predicate Leads(d: Dropped, s: State, steps: seq<Step>, s': State) {
    && IsRun(1, 1, s, steps) && Final(1, 1, s, steps) == s'
    && Throughout(1, 1, (x, step) => Kept(d, x, step), s, steps)
  }

  ghost predicate Reaches(d: Dropped, s: State) {
    exists steps :: Leads(d, EMPTY, steps, s)
  }

  ghost predicate AcceptedIsQueued(s: State) {
    exists id :: id in Accepted(s.log) && id in s.q.rows && s.q.rows[id].status == Queued
  }

  lemma {:induction false} LeadsFurther(d: Dropped, s: State, steps: seq<Step>, s1: State, step: Step)
    requires Leads(d, s, steps, s1) && Enabled(1, 1, s1, step) && Kept(d, s1, step)
    ensures Leads(d, s, steps + [step], Apply(1, 1, s1, step))
    decreases |steps|
  {
    if |steps| > 0 {
      LeadsFurther(d, Apply(1, 1, s, steps[0]), steps[1..], s1, step);
      assert (steps + [step])[1..] == steps[1..] + [step];
    }
  }

  lemma Go(d: Dropped, s: State, step: Step)
    requires Reaches(d, s) && Enabled(1, 1, s, step) && Kept(d, s, step)
    ensures Reaches(d, Apply(1, 1, s, step))
  {
    var steps :| Leads(d, EMPTY, steps, s);
    LeadsFurther(d, EMPTY, steps, s, step);
  }

  // ---- Pieces of runs, for any store ----

  function At(q: Queue, log: seq<Option<Id>>, ids: seq<Id>, p: Producer, channel: seq<Item>, c: Consumer): State {
    State(q, log, ids, map[], Some(Worker(p, channel, c, false)))
  }

  lemma GoEnqueue(d: Dropped, s: State, rec: Record)
    requires Reaches(d, s) && EnvEnabled(1, s, Enqueue(rec))
    ensures Reaches(d, State(s.q.(rows := s.q.rows[rec.id := rec]), s.log, s.ids + [rec.id], s.pending, s.worker))
  {
    Go(d, s, Env(Enqueue(rec)));
  }

  lemma GoCheck(d: Dropped, q: Queue, log: seq<Option<Id>>, ids: seq<Id>, channel: seq<Item>, c: Consumer)
    requires Reaches(d, At(q, log, ids, Looping, channel, c))
    ensures Reaches(d, At(q, log, ids, Claiming, channel, c))
  {
    Go(d, At(q, log, ids, Looping, channel, c), Prod(CheckCancelled));
  }

  lemma GoStart(d: Dropped, q: Queue, log: seq<Option<Id>>, ids: seq<Id>)
    requires Reaches(d, State(q, log, ids, map[], None))
    ensures Reaches(d, At(q, log, ids, Claiming, [], Receiving))
  {
    Go(d, State(q, log, ids, map[], None), Env(Start));
    GoCheck(d, q, log, ids, [], Receiving);
  }

  lemma GoRecover(d: Dropped, s: State, now: Time, cutoff: int)
    requires Reaches(d, s)
    ensures Reaches(d, s.(q := Recover(s.q, now, cutoff)))
  {
    Go(d, s, Env(StaleRecovery(now, cutoff)));
  }

  lemma GoClaim(d: Dropped, q: Queue, log: seq<Option<Id>>, ids: seq<Id>, channel: seq<Item>, c: Consumer,
                id: Id, now: Time)
    requires Reaches(d, At(q, log, ids, Claiming, channel, c)) && IsOldest(q, 1, id)
    requires d.ShiftAssumption? ==> !HoldsRow(Worker(Claiming, channel, c, false), id)
    ensures Reaches(d, At(Claim(q, 1, id, now), log, ids, Preparing(Claim(q, 1, id, now).rows[id]), channel, c))
  {
    Go(d, At(q, log, ids, Claiming, channel, c), Prod(ClaimNext(id, now)));
  }

  lemma GoSign(d: Dropped, q: Queue, log: seq<Option<Id>>, ids: seq<Id>, channel: seq<Item>, c: Consumer, rec: Record)
    requires Reaches(d, At(q, log, ids, Preparing(rec), channel, c)) && rec.seqNum.Some?
    ensures Reaches(d, At(q, log, ids, Sending(Item(rec, "h")), channel, c))
  {
    Go(d, At(q, log, ids, Preparing(rec), channel, c), Prod(Sign("h")));
  }

  lemma GoSend(d: Dropped, q: Queue, log: seq<Option<Id>>, ids: seq<Id>, c: Consumer, item: Item)
    requires Reaches(d, At(q, log, ids, Sending(item), [], c))
    ensures Reaches(d, At(q, log, ids, Claiming, [item], c))
  {
    Go(d, At(q, log, ids, Sending(item), [], c), Prod(Send));
    assert [] + [item] == [item];
    GoCheck(d, q, log, ids, [item], c);
  }

  lemma GoReceive(d: Dropped, q: Queue, log: seq<Option<Id>>, ids: seq<Id>, p: Producer, item: Item)
    requires Reaches(d, At(q, log, ids, p, [item], Receiving))
    ensures Reaches(d, At(q, log, ids, p, [], Persisting(item)))
  {
    Go(d, At(q, log, ids, p, [item], Receiving), Cons(Receive));
    assert [item][1..] == [];
  }

  // The hash is persisted, the chain accepts, and the status update fails.
  lemma GoBroadcast(d: Dropped, q: Queue, log: seq<Option<Id>>, ids: seq<Id>, p: Producer, channel: seq<Item>,
                    item: Item, now: Time)
    requires Reaches(d, At(q, log, ids, p, channel, Persisting(item)))
    requires StillClaimed(q, item.rec.id) && item.rec.seqNum == Some(|log|) && item.hash != ""
    ensures var rec := item.rec.(hash := item.hash);
            Reaches(d, At(Put(q, rec.(updatedAt := now)), log + [Some(rec.id)], ids, p, channel,
                          Recording(rec.(status := Submitted))))
  {
    var q' := Put(q, item.rec.(hash := item.hash, updatedAt := now));
    var item' := item.(rec := item.rec.(hash := item.hash));
    Go(d, At(q, log, ids, p, channel, Persisting(item)), Cons(Persist(now)));
    Go(d, At(q', log, ids, p, channel, Submitting(item')), Cons(Accept("")));
  }

  // The worker gives up and drains one item.
  lemma GoDrain(d: Dropped, q: Queue, log: seq<Option<Id>>, ids: seq<Id>, p: Producer, item: Item,
                rec: Record, now: Time)
    requires Reaches(d, At(q, log, ids, p, [item], Recording(rec))) && item.rec.seqNum.Some?
    ensures Reaches(d, State(Put(q, Requeued(item.rec, now)), log, ids, map[],
                             Some(Worker(p, [], Cleanup(Draining, [ReleaseOne]), true))))
  {
    Go(d, At(q, log, ids, p, [item], Recording(rec)), Cons(RecordFailed));
    Go(d, At(q, log, ids, p, [item], Cleanup(Failing, [])), Cons(CancelProducer));
    var w := Worker(p, [item], Cleanup(Draining, []), true);
    Go(d, State(q, log, ids, map[], Some(w)), Cons(DrainNext));
    assert [item][1..] == [];
    var w1 := Worker(p, [], Cleanup(Draining, [GiveBack(item.rec)]), true);
    Go(d, State(q, log, ids, map[], Some(w1)), Cons(ConsumerRun(true, now, [])));
    assert [ReleaseOne] + [GiveBack(item.rec)][1..] == [ReleaseOne];
  }

  // The producer fails its row for good and shifts the rows above it.
  lemma GoFailAndShift(d: Dropped, q: Queue, log: seq<Option<Id>>, ids: seq<Id>, channel: seq<Item>, c: Consumer,
                       rec: Record, now: Time)
    requires d.ShiftAssumption?
    requires Reaches(d, At(q, log, ids, Mending([Terminate(rec)], false), channel, c)) && rec.seqNum.Some?
    ensures var q' := Put(q, rec.(status := Failed, updatedAt := now));
            Reaches(d, At(Shift(q', 1, rec.seqNum.value, now), log, ids, Mending([], false), channel, c))
  {
    var q' := Put(q, rec.(status := Failed, updatedAt := now));
    Go(d, At(q, log, ids, Mending([Terminate(rec)], false), channel, c), Prod(ProducerRun(true, now)));
    assert [ShiftAbove(rec.seqNum.value)] + [Terminate(rec)][1..] == [ShiftAbove(rec.seqNum.value)];
    Go(d, At(q', log, ids, Mending([ShiftAbove(rec.seqNum.value)], false), channel, c), Prod(ProducerRun(true, now)));
    assert [] + [ShiftAbove(rec.seqNum.value)][1..] == [];
  }

  function Row(id: Id, status: Status, seqNum: Option<nat>, createdAt: Time, updatedAt: Time): Record {
    Record(id, "", status, "", 1, seqNum, 0, createdAt, updatedAt, 100)
  }

  // ---- Without the assumption on claims ----

  // Row 5 is recovered while it is being signed and claimed again behind its older copy.
  const FIRST_COPY := Row(5, Processing, Some(0), 0, 1)
  const SECOND_COPY := Row(5, Processing, Some(0), 0, 10)
  const RECLAIMED := Queue(map[5 := SECOND_COPY], map[1 := 1])

  const CREATED := Row(5, Queued, None, 0, 0)
  const FIRST_CLAIMED := Queue(map[5 := FIRST_COPY], map[1 := 1])
  const RECOVERED := Queue(map[5 := Row(5, Queued, None, 0, 9)], map[1 := 0])

  lemma RecoverWhileSigning()
    ensures IsOldest(Queue(map[5 := CREATED], map[]), 1, 5)
    ensures Claim(Queue(map[5 := CREATED], map[]), 1, 5, 1) == FIRST_CLAIMED
    ensures Recover(FIRST_CLAIMED, 9, 5) == RECOVERED
    ensures IsOldest(RECOVERED, 1, 5) && Claim(RECOVERED, 1, 5, 10) == RECLAIMED
  {
    assert StaleIds(FIRST_CLAIMED, 5) == {5} && StaleOf(FIRST_CLAIMED, 1, 5) == {5};
  }

  lemma FirstCopySigned()
    ensures Reaches(ClaimAssumption, At(FIRST_CLAIMED, [], [5], Sending(Item(FIRST_COPY, "h")), [], Receiving))
  {
    var d := ClaimAssumption;
    RecoverWhileSigning();
    assert Leads(d, EMPTY, [], EMPTY);
    GoEnqueue(d, EMPTY, CREATED);
    assert [] + [5] == [5];
    GoStart(d, Queue(map[5 := CREATED], map[]), [], [5]);
    GoClaim(d, Queue(map[5 := CREATED], map[]), [], [5], [], Receiving, 5, 1);
    GoSign(d, FIRST_CLAIMED, [], [5], [], Receiving, FIRST_COPY);
  }

  lemma FirstCopySent()
    ensures Reaches(ClaimAssumption, At(RECOVERED, [], [5], Claiming, [Item(FIRST_COPY, "h")], Receiving))
  {
    var d := ClaimAssumption;
    FirstCopySigned();
    RecoverWhileSigning();
    GoRecover(d, At(FIRST_CLAIMED, [], [5], Sending(Item(FIRST_COPY, "h")), [], Receiving), 9, 5);
    GoSend(d, RECOVERED, [], [5], Receiving, Item(FIRST_COPY, "h"));
  }

  lemma SecondCopyInChannel()
    ensures Reaches(ClaimAssumption,
                    At(RECLAIMED, [], [5], Claiming, [Item(SECOND_COPY, "h")], Persisting(Item(FIRST_COPY, "h"))))
  {
    var d := ClaimAssumption;
    FirstCopySent();
    RecoverWhileSigning();
    GoClaim(d, RECOVERED, [], [5], [Item(FIRST_COPY, "h")], Receiving, 5, 10);
    GoSign(d, RECLAIMED, [], [5], [Item(FIRST_COPY, "h")], Receiving, SECOND_COPY);
    GoReceive(d, RECLAIMED, [], [5], Sending(Item(SECOND_COPY, "h")), Item(FIRST_COPY, "h"));
    GoSend(d, RECLAIMED, [], [5], Persisting(Item(FIRST_COPY, "h")), Item(SECOND_COPY, "h"));
  }

  lemma ClaimAssumptionIsNeeded()
    ensures exists s :: Reaches(ClaimAssumption, s) && AcceptedIsQueued(s)
  {
    var d := ClaimAssumption;
    SecondCopyInChannel();
    GoBroadcast(d, RECLAIMED, [], [5], Claiming, [Item(SECOND_COPY, "h")], Item(FIRST_COPY, "h"), 11);
    assert [] + [Some(5)] == [Some(5)];
    var sent := FIRST_COPY.(hash := "h");
    var q := Put(RECLAIMED, sent.(updatedAt := 11));
    GoDrain(d, q, [Some(5)], [5], Claiming, Item(SECOND_COPY, "h"), sent.(status := Submitted), 12);
    var s := State(Put(q, Requeued(SECOND_COPY, 12)), [Some(5)], [5], map[],
                   Some(Worker(Claiming, [], Cleanup(Draining, [ReleaseOne]), true)));
    assert s.log[0] == Some(5);
    assert 5 in Accepted(s.log);
    assert AcceptedIsQueued(s);
  }

  // ---- Without the assumption on shifts ----

  // Rows 1 and 2 are claimed by workers that crash; row 3 is accepted at number 2 while the
  // recovery of the two others lowers the counter to 1, where row 1 is claimed and fails.
  function Crashed(id: Id, n: nat): Record {
    Row(id, Processing, Some(n), id, 1)
  }

  lemma GoCrashedClaim(d: Dropped, q: Queue, ids: seq<Id>, id: Id)
    requires Reaches(d, State(q, [], ids, map[], None)) && IsOldest(q, 1, id)
    ensures Reaches(d, State(Claim(q, 1, id, 1), [], ids, map[], None))
  {
    GoStart(d, q, [], ids);
    assert Holds(Worker(Claiming, [], Receiving, false)) == [];
    GoClaim(d, q, [], ids, [], Receiving, id, 1);
    Go(d, At(Claim(q, 1, id, 1), [], ids, Preparing(Claim(q, 1, id, 1).rows[id]), [], Receiving), Env(Crash));
  }

  const UNCLAIMED := Queue(map[1 := Row(1, Queued, None, 1, 0), 2 := Row(2, Queued, None, 2, 0)], map[])
  const ONE_CRASHED := Queue(map[1 := Crashed(1, 0), 2 := Row(2, Queued, None, 2, 0)], map[1 := 1])
  const TWO_CRASHED := Queue(map[1 := Crashed(1, 0), 2 := Crashed(2, 1)], map[1 := 2])

  lemma CrashedClaims()
    ensures IsOldest(UNCLAIMED, 1, 1) && Claim(UNCLAIMED, 1, 1, 1) == ONE_CRASHED
    ensures IsOldest(ONE_CRASHED, 1, 2) && Claim(ONE_CRASHED, 1, 2, 1) == TWO_CRASHED
  {
  }

  lemma TwoRowsCreated()
    ensures Reaches(ShiftAssumption, State(UNCLAIMED, [], [1, 2], map[], None))
  {
    var r1, r2 := Row(1, Queued, None, 1, 0), Row(2, Queued, None, 2, 0);
    assert Leads(ShiftAssumption, EMPTY, [], EMPTY);
    GoEnqueue(ShiftAssumption, EMPTY, r1);
    assert [] + [1] == [1] && [1] + [2] == [1, 2];
    GoEnqueue(ShiftAssumption, State(Queue(map[1 := r1], map[]), [], [1], map[], None), r2);
    assert map[1 := r1][2 := r2] == UNCLAIMED.rows;
  }

  lemma TwoCrashedClaims()
    ensures Reaches(ShiftAssumption, State(TWO_CRASHED, [None, None], [1, 2], map[], None))
  {
    var d := ShiftAssumption;
    var none: Option<Id> := None;
    TwoRowsCreated();
    CrashedClaims();
    GoCrashedClaim(d, UNCLAIMED, [1, 2], 1);
    GoCrashedClaim(d, ONE_CRASHED, [1, 2], 2);
    Go(d, State(TWO_CRASHED, [], [1, 2], map[], None), Env(ExternalTxn));
    assert [] + [none] == [none] && [none] + [none] == [none, none];
    Go(d, State(TWO_CRASHED, [none], [1, 2], map[], None), Env(ExternalTxn));
  }

  const CLAIMED_3 := Row(3, Processing, Some(2), 3, 8)
  const BEFORE_3 := Queue(map[1 := Crashed(1, 0), 2 := Crashed(2, 1), 3 := Row(3, Queued, None, 3, 3)], map[1 := 2])
  const AFTER_3 := Queue(map[1 := Crashed(1, 0), 2 := Crashed(2, 1), 3 := CLAIMED_3], map[1 := 3])
  const LOWERED_3 :=
    Queue(map[1 := Row(1, Queued, None, 1, 9), 2 := Row(2, Queued, None, 2, 9), 3 := CLAIMED_3], map[1 := 1])
  const FAILING_1 := Row(1, Processing, Some(1), 1, 10)
  const OVERLAP := Queue(map[1 := FAILING_1, 2 := Row(2, Queued, None, 2, 9), 3 := CLAIMED_3], map[1 := 2])

  lemma StaleBelowRow3()
    ensures StaleIds(AFTER_3, 5) == {1, 2} && StaleOf(AFTER_3, 1, 5) == {1, 2}
  {
  }

  lemma CountsBelowRow3()
    ensures StaleCounts(AFTER_3, 5) == map[1 := 2]
  {
    StaleBelowRow3();
    assert |{1, 2}| == 2;
  }

  lemma RowsBelowRow3()
    ensures RequeueAll(AFTER_3.rows, {1, 2}, 9) == LOWERED_3.rows
  {
  }

  lemma RecoveryLowersCounter()
    ensures Recover(AFTER_3, 9, 5) == LOWERED_3
  {
    StaleBelowRow3();
    CountsBelowRow3();
    RowsBelowRow3();
    assert Lowered(map[1 := 3], map[1 := 2]) == map[1 := 1];
  }

  lemma OverlappingClaims()
    ensures IsOldest(BEFORE_3, 1, 3) && Claim(BEFORE_3, 1, 3, 8) == AFTER_3
    ensures IsOldest(LOWERED_3, 1, 1) && Claim(LOWERED_3, 1, 1, 10) == OVERLAP
  {
  }

  lemma Row3InFlight()
    ensures Reaches(ShiftAssumption,
                    At(AFTER_3, [None, None], [1, 2, 3], Claiming, [], Persisting(Item(CLAIMED_3, "h"))))
  {
    var d := ShiftAssumption;
    var none: Option<Id> := None;
    var log, ids: seq<Id> := [none, none], [1, 2, 3];
    TwoCrashedClaims();
    OverlappingClaims();
    GoEnqueue(d, State(TWO_CRASHED, log, [1, 2], map[], None), Row(3, Queued, None, 3, 3));
    assert [1, 2] + [3] == ids && TWO_CRASHED.rows[3 := Row(3, Queued, None, 3, 3)] == BEFORE_3.rows;
    GoStart(d, BEFORE_3, log, ids);
    assert Holds(Worker(Claiming, [], Receiving, false)) == [];
    GoClaim(d, BEFORE_3, log, ids, [], Receiving, 3, 8);
    GoSign(d, AFTER_3, log, ids, [], Receiving, CLAIMED_3);
    GoSend(d, AFTER_3, log, ids, Receiving, Item(CLAIMED_3, "h"));
    GoReceive(d, AFTER_3, log, ids, Claiming, Item(CLAIMED_3, "h"));
  }

  const SENT_3 := CLAIMED_3.(hash := "h")

  lemma RecoveredBelowRow3()
    ensures Reaches(ShiftAssumption,
                    At(LOWERED_3, [None, None], [1, 2, 3], Claiming, [], Persisting(Item(CLAIMED_3, "h"))))
  {
    var none: Option<Id> := None;
    Row3InFlight();
    RecoveryLowersCounter();
    GoRecover(ShiftAssumption,
              At(AFTER_3, [none, none], [1, 2, 3], Claiming, [], Persisting(Item(CLAIMED_3, "h"))), 9, 5);
  }

  lemma Row1ClaimedBelowRow3()
    ensures Reaches(ShiftAssumption, At(OVERLAP, [None, None], [1, 2, 3], Preparing(FAILING_1), [],
                                        Persisting(Item(CLAIMED_3, "h"))))
  {
    var none: Option<Id> := None;
    var item := Item(CLAIMED_3, "h");
    RecoveredBelowRow3();
    assert Holds(Worker(Claiming, [], Persisting(item), false)) == [CLAIMED_3];
    OverlappingClaims();
    GoClaim(ShiftAssumption, LOWERED_3, [none, none], [1, 2, 3], [], Persisting(item), 1, 10);
  }

  lemma Row3AcceptedAboveFailure()
    ensures Reaches(ShiftAssumption, At(Put(OVERLAP, SENT_3.(updatedAt := 11)), [None, None, Some(3)], [1, 2, 3],
                                        Mending([Terminate(FAILING_1)], false), [],
                                        Recording(SENT_3.(status := Submitted))))
  {
    var none: Option<Id> := None;
    var log, ids: seq<Id> := [none, none], [1, 2, 3];
    var item := Item(CLAIMED_3, "h");
    Row1ClaimedBelowRow3();
    Go(ShiftAssumption, At(OVERLAP, log, ids, Preparing(FAILING_1), [], Persisting(item)), Prod(PreparePermanent));
    GoBroadcast(ShiftAssumption, OVERLAP, log, ids, Mending([Terminate(FAILING_1)], false), [], item, 11);
    assert log + [Some(3)] == [none, none, Some(3)];
  }

  lemma ShiftAssumptionIsNeeded()
    ensures exists s :: Reaches(ShiftAssumption, s) && AcceptedIsQueued(s)
  {
    var none: Option<Id> := None;
    var log, ids: seq<Id> := [none, none, Some(3)], [1, 2, 3];
    var q := Put(OVERLAP, SENT_3.(updatedAt := 11));
    Row3AcceptedAboveFailure();
    GoFailAndShift(ShiftAssumption, q, log, ids, [], Recording(SENT_3.(status := Submitted)), FAILING_1, 12);
    var q' := Shift(Put(q, FAILING_1.(status := Failed, updatedAt := 12)), 1, 1, 12);
    var s := At(q', log, ids, Mending([], false), [], Recording(SENT_3.(status := Submitted)));
    assert s.log[2] == Some(3);
    assert 3 in Accepted(s.log);
    assert AcceptedIsQueued(s);
  }
}
