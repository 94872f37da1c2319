/**
 No row is accepted by the chain twice: over every interleaving of claims, signing, broadcast,
 failed store writes, drains, sweeps, crashes, stale recovery and poller writes, with any
 readings of the chain, and although a broadcast that a crash cuts off may be accepted at any
 later time.  Two things are assumed of a run, each needed: while the consumer
 is still submitting, the producer does not claim a row that already sits in the pipeline,
 and a permanent failure does not shift a broadcast row.
 */
module AtMostOnce {
  import opened Types
  import opened QueueSpec
  import opened Pipeline

  function Accepted(log: seq<Option<Id>>): (ids: set<Id>) {
    set i | 0 <= i < |log| && log[i].Some? :: log[i].value
  }

  ghost predicate NoRowTwice(log: seq<Option<Id>>) {
    forall i, j :: 0 <= i < j < |log| && log[i].Some? ==> log[i] != log[j]
  }

  // A row whose transaction may be on chain: it cannot be claimed, listed or recovered.
  predicate Settled(r: Record) {
    r.status != Queued && (r.status == Processing ==> r.hash != "")
  }

  predicate IsHashedAbove(r: Record, a: Addr, failed: nat) {
    IsShifted(r, a, failed) && r.status == Processing && r.hash != ""
  }

  ghost predicate HashedAbove(q: Queue, a: Addr, failed: nat) {
    exists id :: id in q.rows && IsHashedAbove(q.rows[id], a, failed)
  }

  // The command about to run, if the step runs one.
  function Running(s: State, step: Step): Option<Cmd> {
    match (s.worker, step)
    case (Some(w), Prod(ProducerRun(true, _))) =>
      if w.producer.Mending? && |w.producer.script| > 0 then Some(w.producer.script[0]) else None
    case (Some(w), Cons(ConsumerRun(true, _, _))) =>
      if w.consumer.Cleanup? && |w.consumer.script| > 0 then Some(w.consumer.script[0]) else None
    case _ => None
  }

  ghost predicate ClaimsNoHeldRow(s: State, step: Step) {
    step.Prod? && step.p.ClaimNext? && s.worker.Some? && Healthy(s.worker.value.consumer) ==>
      !HoldsRow(s.worker.value, step.p.id)
  }

  ghost predicate ShiftsNoBroadcast(a: Addr, s: State, step: Step) {
    Running(s, step).Some? && Running(s, step).value.ShiftAbove? ==>
      !HashedAbove(s.q, a, Running(s, step).value.failed)
  }

  ghost predicate Assumed(a: Addr, s: State, step: Step) {
    ClaimsNoHeldRow(s, step) && ShiftsNoBroadcast(a, s, step)
  }

  // A condition on every step of a run.
  ghost predicate Throughout(a: Addr, depth: nat, p: (State, Step) -> bool, s: State, steps: seq<Step>)
    requires IsRun(a, depth, s, steps)
    decreases |steps|
  {
    |steps| == 0 || (p(s, steps[0]) && Throughout(a, depth, p, Apply(a, depth, s, steps[0]), steps[1..]))
  }

  ghost predicate AssumedRun(a: Addr, depth: nat, s: State, steps: seq<Step>)
    requires IsRun(a, depth, s, steps)
  {
    Throughout(a, depth, (x, step) => Assumed(a, x, step), s, steps)
  }

  // The rows that the chain has accepted, or may still accept of a crashed worker.
  function Taken(log: seq<Option<Id>>, pending: map<Id, Option<nat>>): set<Id> {
    Accepted(log) + pending.Keys
  }

  // ---- The invariant ----

  ghost predicate Own(a: Addr, ids: seq<Id>, rec: Record) {
    rec.sender == a && rec.id in ids
  }

  ghost predicate RowsSafe(a: Addr, ids: seq<Id>, acc: set<Id>, q: Queue) {
    && WellKeyed(q.rows)
    && (forall id :: id in q.rows && q.rows[id].sender == a ==> id in ids)
    && (forall id :: id in q.rows && id in acc ==> Settled(q.rows[id]))
  }

  ghost predicate CmdSafe(a: Addr, ids: seq<Id>, acc: set<Id>, c: Cmd) {
    match c
    case GiveBack(rec) => Own(a, ids, rec) && rec.id !in acc
    case PutBack(rec) => Own(a, ids, rec) && rec.id !in acc
    case Terminate(rec) => Own(a, ids, rec)
    case _ => true
  }

  predicate IsProducerCmd(c: Cmd) {
    c.GiveBack? || c.ReleaseOne? || c.Terminate? || c.ShiftAbove?
  }

  ghost predicate ProducerSafe(a: Addr, ids: seq<Id>, p: Producer) {
    match p
    case Sending(item) => item.hash != ""
    case Mending(script, _) =>
      |script| == 0 ||
      (|script| == 1 && IsProducerCmd(script[0]) && (script[0].Terminate? ==> Own(a, ids, script[0].rec)))
    case _ => true
  }

  ghost predicate ConsumerSafe(a: Addr, ids: seq<Id>, acc: set<Id>, q: Queue, c: Consumer) {
    match c
    case Receiving => true
    case Persisting(item) => item.hash != ""
    case Submitting(item) => item.hash != "" && (item.rec.id in q.rows ==> Settled(q.rows[item.rec.id]))
    case Recording(rec) => Own(a, ids, rec) && rec.status == Submitted
    case Cleanup(_, script) => forall i :: 0 <= i < |script| ==> CmdSafe(a, ids, acc, script[i])
  }

  ghost predicate Distinct(held: seq<Record>) {
    forall i, j :: 0 <= i < j < |held| ==> held[i].id != held[j].id
  }

  // No held row is accepted, so giving any of them back is harmless.
  ghost predicate HeldSafe(a: Addr, ids: seq<Id>, acc: set<Id>, held: seq<Record>) {
    forall i :: 0 <= i < |held| ==> Own(a, ids, held[i]) && held[i].id !in acc && held[i].status == Processing
  }

  ghost predicate ChannelSigned(channel: seq<Item>) {
    forall i :: 0 <= i < |channel| ==> channel[i].hash != ""
  }

  ghost predicate WorkerSafe(a: Addr, ids: seq<Id>, acc: set<Id>, q: Queue, w: Worker) {
    && HeldSafe(a, ids, acc, Holds(w))
    && (Healthy(w.consumer) ==> Distinct(Holds(w)))
    && ChannelSigned(w.channel)
    && ProducerSafe(a, ids, w.producer)
    && ConsumerSafe(a, ids, acc, q, w.consumer)
  }

  ghost predicate Safe(a: Addr, s: State) {
    && NoRowTwice(s.log) && Accepted(s.log) !! s.pending.Keys
    && (forall id :: id in Taken(s.log, s.pending) ==> id in s.ids)
    && RowsSafe(a, s.ids, Taken(s.log, s.pending), s.q)
    && (s.worker.Some? ==> WorkerSafe(a, s.ids, Taken(s.log, s.pending), s.q, s.worker.value))
  }

  // ---- Store steps ----

  lemma PutIsSafe(a: Addr, ids: seq<Id>, acc: set<Id>, q: Queue, rec: Record)
    requires RowsSafe(a, ids, acc, q)
    requires Own(a, ids, rec) && (rec.id in acc ==> Settled(rec))
    ensures RowsSafe(a, ids, acc, Put(q, rec))
  {
  }

  lemma RequeueAllIsSafe(a: Addr, ids: seq<Id>, acc: set<Id>, q: Queue, q': Queue, requeued: set<Id>, now: Time)
    requires RowsSafe(a, ids, acc, q)
    requires q'.rows == RequeueAll(q.rows, requeued, now)
    requires forall id :: id in requeued && id in q.rows ==> !Settled(q.rows[id])
    ensures RowsSafe(a, ids, acc, q')
  {
  }

  // A settled row stays settled under every command that may run while it is being submitted.
  ghost predicate KeepsSettled(q: Queue, q': Queue, id: Id) {
    id in q'.rows ==> id in q.rows && (Settled(q.rows[id]) ==> Settled(q'.rows[id]))
  }

  lemma ShiftKeepsSettled(q: Queue, a: Addr, failed: nat, now: Time)
    requires !HashedAbove(q, a, failed)
    ensures forall id :: id in ShiftedOf(q, a, failed) ==> !Settled(q.rows[id])
    ensures forall id :: KeepsSettled(q, Shift(q, a, failed, now), id)
  {
  }

  lemma ExecIsSafe(a: Addr, ids: seq<Id>, acc: set<Id>, q: Queue, c: Cmd, now: Time)
    requires RowsSafe(a, ids, acc, q) && CmdSafe(a, ids, acc, c)
    requires c.ShiftAbove? ==> !HashedAbove(q, a, c.failed)
    ensures RowsSafe(a, ids, acc, Exec(q, a, c, now))
  {
    match c
    case GiveBack(rec) => PutIsSafe(a, ids, acc, q, Requeued(rec, now));
    case PutBack(rec) => PutIsSafe(a, ids, acc, q, Requeued(rec, now));
    case Terminate(rec) => PutIsSafe(a, ids, acc, q, rec.(status := Failed, updatedAt := now));
    case ShiftAbove(failed) =>
      ShiftKeepsSettled(q, a, failed, now);
      RequeueAllIsSafe(a, ids, acc, q, Shift(q, a, failed, now), ShiftedOf(q, a, failed), now);
    case _ =>
  }

  // The shift unsettles a row, so that it may be signed again, exactly when its guard is missing:
  // when a broadcast claim lies above the failed number.
  lemma ShiftUnsettlesIff(q: Queue, a: Addr, failed: nat, now: Time)
    ensures (exists id :: id in q.rows && Settled(q.rows[id]) && !Settled(Shift(q, a, failed, now).rows[id]))
            <==> HashedAbove(q, a, failed)
  {
    if HashedAbove(q, a, failed) {
      var id :| id in q.rows && IsHashedAbove(q.rows[id], a, failed);
      assert id in ShiftedOf(q, a, failed);
      assert !Settled(Shift(q, a, failed, now).rows[id]);
    } else {
      ShiftKeepsSettled(q, a, failed, now);
    }
  }

  // ---- Environment steps ----

  lemma LogGrows(log: seq<Option<Id>>, entry: Option<Id>)
    ensures Accepted(log + [entry]) == Accepted(log) + (if entry.Some? then {entry.value} else {})
    ensures NoRowTwice(log) && (entry.Some? ==> entry.value !in Accepted(log)) ==> NoRowTwice(log + [entry])
  {
    var log' := log + [entry];
    forall id ensures id in Accepted(log') <==> id in Accepted(log) || entry == Some(id) {
      if id in Accepted(log) {
        var i :| 0 <= i < |log| && log[i] == Some(id);
        assert log'[i] == Some(id);
      }
      if entry == Some(id) {
        assert log'[|log|] == Some(id);
      }
    }
    if NoRowTwice(log) && (entry.Some? ==> entry.value !in Accepted(log)) {
      forall i, j | 0 <= i < j < |log'| && log'[i].Some? ensures log'[i] != log'[j] {
        if j == |log| {
          assert log[i].value in Accepted(log);
        }
      }
    }
  }

  // The store after an environment step is safe and keeps the rows being submitted settled.
  lemma EnvStoreIsSafe(a: Addr, s: State, e: EnvStep)
    requires Safe(a, s) && EnvEnabled(a, s, e)
    ensures var s' := EnvApply(a, s, e);
            && RowsSafe(a, s'.ids, Taken(s.log, s.pending), s'.q)
            && (forall id :: id in s.ids ==> id in s'.ids && KeepsSettled(s.q, s'.q, id))
  {
    var acc := Taken(s.log, s.pending);
    match e {
      case StaleRecovery(now, cutoff) =>
        RequeueAllIsSafe(a, s.ids, acc, s.q, Recover(s.q, now, cutoff), StaleIds(s.q, cutoff), now);
      case PollerWrite(rec, _) =>
        if rec.sender == a {
          PutIsSafe(a, s.ids, acc, s.q, rec);
        }
      case _ =>
    }
  }

  lemma LateAcceptKeepsSafe(a: Addr, s: State, id: Id)
    requires Safe(a, s) && EnvEnabled(a, s, LateAccept(id))
    ensures Safe(a, EnvApply(a, s, LateAccept(id)))
  {
    var s' := EnvApply(a, s, LateAccept(id));
    LogGrows(s.log, Some(id));
    assert Taken(s'.log, s'.pending) == Taken(s.log, s.pending);
  }

  // The broadcast that a crash cuts off has its hash persisted, so its row is settled.
  lemma CrashKeepsSafe(a: Addr, s: State)
    requires Safe(a, s) && EnvEnabled(a, s, Crash)
    ensures Safe(a, EnvApply(a, s, Crash))
  {
    var s' := EnvApply(a, s, Crash);
    FirstHeld(s.worker.value);
    assert s'.pending.Keys == s.pending.Keys + CutOff(s.worker).Keys;
  }

  lemma EnvKeepsSafe(a: Addr, s: State, e: EnvStep)
    requires Safe(a, s) && EnvEnabled(a, s, e)
    ensures Safe(a, EnvApply(a, s, e))
  {
    match e {
      case LateAccept(id) => LateAcceptKeepsSafe(a, s, id);
      case Crash => CrashKeepsSafe(a, s);
      case _ => RunningOnKeepsSafe(a, s, e);
    }
  }

  lemma RunningOnKeepsSafe(a: Addr, s: State, e: EnvStep)
    requires Safe(a, s) && EnvEnabled(a, s, e) && !e.LateAccept? && !e.Crash?
    ensures Safe(a, EnvApply(a, s, e))
  {
    EnvStoreIsSafe(a, s, e);
    var s' := EnvApply(a, s, e);
    if e.ExternalTxn? {
      LogGrows(s.log, None);
    }
    if s.worker.Some? {
      WorkerSafeInNewStore(a, s.ids, s'.ids, Taken(s.log, s.pending), s.q, s'.q, s.worker.value);
      if e.Shutdown? {
        ShutdownKeepsWorkerSafe(a, s.ids, Taken(s.log, s.pending), s.q, s.worker.value);
      }
    }
  }

  lemma ShutdownKeepsWorkerSafe(a: Addr, ids: seq<Id>, acc: set<Id>, q: Queue, w: Worker)
    requires WorkerSafe(a, ids, acc, q, w)
    ensures WorkerSafe(a, ids, acc, q, w.(cancelled := true))
  {
    assert Holds(w.(cancelled := true)) == Holds(w);
  }

  lemma WorkerSafeInNewStore(a: Addr, ids: seq<Id>, ids': seq<Id>, acc: set<Id>, q: Queue, q': Queue, w: Worker)
    requires WorkerSafe(a, ids, acc, q, w)
    requires forall id :: id in ids ==> id in ids' && KeepsSettled(q, q', id)
    ensures WorkerSafe(a, ids', acc, q', w)
  {
    assert w.consumer.Submitting? ==> Holds(w)[0] == w.consumer.item.rec;
  }

  // ---- Producer steps ----

  // What the producer's store access does to the rows, given that it does not touch the row
  // the consumer is submitting.
  lemma ProducerStoreIsSafe(a: Addr, depth: nat, s: State, p: ProducerStep)
    requires Safe(a, s) && s.worker.Some? && ProducerEnabled(a, depth, s.q, s.worker.value, p)
    requires Assumed(a, s, Prod(p))
    ensures var q' := ProducerQueue(a, s.q, s.worker.value, p);
            && RowsSafe(a, s.ids, Taken(s.log, s.pending), q')
            && (s.worker.value.consumer.Submitting? ==> KeepsSettled(s.q, q', s.worker.value.consumer.item.rec.id))
  {
    var w := s.worker.value;
    var acc := Taken(s.log, s.pending);
    if p.ProducerRun? && p.ok {
      var c := w.producer.script[0];
      if c.GiveBack? {
        assert Holds(w)[|Holds(w)| - 1] == c.rec;
        assert w.consumer.Submitting? ==> Holds(w)[0] == w.consumer.item.rec;
      }
      if c.ShiftAbove? {
        ShiftKeepsSettled(s.q, a, c.failed, p.now);
      }
      ExecIsSafe(a, s.ids, acc, s.q, c, p.now);
    }
  }

  lemma SendKeepsHolds(w: Worker)
    requires w.producer.Sending?
    ensures Holds(w.(producer := Looping, channel := w.channel + [w.producer.item])) == Holds(w)
  {
    assert ChannelHolds(w.channel + [w.producer.item]) == ChannelHolds(w.channel) + [w.producer.item.rec];
  }

  lemma ReceiveKeepsHolds(w: Worker)
    requires w.consumer.Receiving? && |w.channel| > 0
    ensures Holds(w.(consumer := Persisting(w.channel[0]), channel := w.channel[1..])) == Holds(w)
  {
    assert ChannelHolds(w.channel) == [w.channel[0].rec] + ChannelHolds(w.channel[1..]);
  }

  // held names the first rows of was.
  ghost predicate SameRows(held: seq<Record>, was: seq<Record>) {
    && |held| <= |was|
    && (forall i :: 0 <= i < |held| ==>
          held[i].id == was[i].id && held[i].sender == was[i].sender && held[i].status == was[i].status)
  }

  lemma SameRowsAreSafe(a: Addr, ids: seq<Id>, acc: set<Id>, held: seq<Record>, was: seq<Record>)
    requires HeldSafe(a, ids, acc, was) && SameRows(held, was)
    ensures HeldSafe(a, ids, acc, held)
    ensures Distinct(was) ==> Distinct(held)
  {
    forall i | 0 <= i < |held| ensures Own(a, ids, held[i]) && held[i].id !in acc && held[i].status == Processing {
      assert Own(a, ids, was[i]);
    }
    if Distinct(was) {
      forall i, j | 0 <= i < j < |held| ensures held[i].id != held[j].id {
        assert was[i].id != was[j].id;
      }
    }
  }

  // The producer adds to the held rows only by claiming.
  lemma ProducerHoldsNext(a: Addr, ids: seq<Id>, depth: nat, q: Queue, w: Worker, p: ProducerStep)
    requires ProducerEnabled(a, depth, q, w, p) && ProducerSafe(a, ids, w.producer)
    ensures var w' := ProducerApply(a, depth, q, w, p);
            if p.ClaimNext? then Holds(w') == Holds(w) + [Claim(q, a, p.id, p.now).rows[p.id]]
            else SameRows(Holds(w'), Holds(w))
  {
    if p.Send? {
      SendKeepsHolds(w);
    }
  }

  lemma ClaimedRowIsSafe(a: Addr, ids: seq<Id>, acc: set<Id>, q: Queue, id: Id, now: Time, held: seq<Record>)
    requires RowsSafe(a, ids, acc, q) && IsOldest(q, a, id) && HeldSafe(a, ids, acc, held)
    ensures HeldSafe(a, ids, acc, held + [Claim(q, a, id, now).rows[id]])
    ensures Distinct(held) && (forall i :: 0 <= i < |held| ==> held[i].id != id) ==>
              Distinct(held + [Claim(q, a, id, now).rows[id]])
  {
  }

  lemma ProducerHeldIsSafe(a: Addr, depth: nat, s: State, p: ProducerStep)
    requires Safe(a, s) && s.worker.Some? && ProducerEnabled(a, depth, s.q, s.worker.value, p)
    requires Assumed(a, s, Prod(p))
    ensures var w' := ProducerApply(a, depth, s.q, s.worker.value, p);
            HeldSafe(a, s.ids, Taken(s.log, s.pending), Holds(w')) && (Healthy(w'.consumer) ==> Distinct(Holds(w')))
  {
    var w := s.worker.value;
    ProducerHoldsNext(a, s.ids, depth, s.q, w, p);
    if p.ClaimNext? {
      ClaimedRowIsSafe(a, s.ids, Taken(s.log, s.pending), s.q, p.id, p.now, Holds(w));
    } else {
      SameRowsAreSafe(a, s.ids, Taken(s.log, s.pending), Holds(ProducerApply(a, depth, s.q, w, p)), Holds(w));
    }
  }

  lemma NextProducerIsSafe(a: Addr, ids: seq<Id>, depth: nat, q: Queue, w: Worker, p: ProducerStep)
    requires ProducerEnabled(a, depth, q, w, p) && ProducerSafe(a, ids, w.producer) && ChannelSigned(w.channel)
    requires |ProducerHolds(w.producer)| > 0 ==> Own(a, ids, ProducerHolds(w.producer)[0])
    ensures var w' := ProducerApply(a, depth, q, w, p);
            ProducerSafe(a, ids, w'.producer) && ChannelSigned(w'.channel) && w'.consumer == w.consumer
  {
  }

  lemma ProducerWorkerIsSafe(a: Addr, depth: nat, s: State, p: ProducerStep)
    requires Safe(a, s) && s.worker.Some? && ProducerEnabled(a, depth, s.q, s.worker.value, p)
    requires Assumed(a, s, Prod(p))
    ensures WorkerSafe(a, s.ids, Taken(s.log, s.pending), s.q, ProducerApply(a, depth, s.q, s.worker.value, p))
  {
    var w := s.worker.value;
    ProducerHeldIsSafe(a, depth, s, p);
    if |ProducerHolds(w.producer)| > 0 {
      assert Holds(w)[|Holds(w)| - 1] == ProducerHolds(w.producer)[0];
    }
    NextProducerIsSafe(a, s.ids, depth, s.q, w, p);
  }

  lemma ProducerKeepsSafe(a: Addr, depth: nat, s: State, p: ProducerStep)
    requires Safe(a, s) && Enabled(a, depth, s, Prod(p)) && Assumed(a, s, Prod(p))
    ensures Safe(a, Apply(a, depth, s, Prod(p)))
  {
    ProducerStoreIsSafe(a, depth, s, p);
    ProducerWorkerIsSafe(a, depth, s, p);
  }

  // ---- Consumer steps ----

  lemma ConsumerStoreIsSafe(a: Addr, s: State, c: ConsumerStep)
    requires Safe(a, s) && s.worker.Some? && ConsumerEnabled(a, s.q, s.log, s.worker.value, c)
    requires Assumed(a, s, Cons(c))
    ensures RowsSafe(a, s.ids, Taken(ConsumerLog(s.log, s.worker.value, c), s.pending),
                     ConsumerQueue(a, s.q, s.worker.value, c))
  {
    var w := s.worker.value;
    var acc := Taken(s.log, s.pending);
    match c {
      case Persist(now) =>
        assert Holds(w)[0] == w.consumer.item.rec;
        PutIsSafe(a, s.ids, acc, s.q, w.consumer.item.rec.(hash := w.consumer.item.hash, updatedAt := now));
      case RecordSubmitted(now) => PutIsSafe(a, s.ids, acc, s.q, w.consumer.rec.(updatedAt := now));
      case ConsumerRun(ok, now, _) =>
        if ok {
          ExecIsSafe(a, s.ids, acc, s.q, w.consumer.script[0], now);
        }
      case Accept(_) => LogGrows(s.log, Some(w.consumer.item.rec.id));
      case _ =>
    }
  }

  // The commands that a consumer command leaves are safe: listed rows are unhashed claims, so
  // none of them has been accepted.
  lemma FollowIsSafe(a: Addr, ids: seq<Id>, acc: set<Id>, q: Queue, c: Cmd, ok: bool, listing: seq<Record>)
    requires RowsSafe(a, ids, acc, q) && CmdSafe(a, ids, acc, c)
    requires if ok && IsList(c) then IsListing(q, a, c, listing) else listing == []
    ensures forall i :: 0 <= i < |Follow(c, listing)| ==> CmdSafe(a, ids, acc, Follow(c, listing)[i])
  {
  }

  predicate TakesFirst(c: ConsumerStep) {
    c.Accept? || c.Reject? || c.PersistSkipped? || c.PersistError? || c.DrainNext?
  }

  // The consumer only takes the first held row away.
  lemma DrainTakesFirst(w: Worker)
    requires w.consumer.Cleanup? && |w.channel| > 0
    ensures |Holds(w)| > 0
    ensures forall script ::
              Holds(w.(consumer := Cleanup(w.consumer.stage, script), channel := w.channel[1..])) == Holds(w)[1..]
  {
    assert ChannelHolds(w.channel) == [w.channel[0].rec] + ChannelHolds(w.channel[1..]);
  }

  lemma ConsumerHoldsNext(a: Addr, q: Queue, log: seq<Option<Id>>, w: Worker, c: ConsumerStep)
    requires ConsumerEnabled(a, q, log, w, c) && !c.Finish?
    ensures TakesFirst(c) ==> |Holds(w)| > 0 && Holds(ConsumerApply(a, q, log, w, c)) == Holds(w)[1..]
    ensures c.Persist? ==> |Holds(w)| > 0 && Holds(ConsumerApply(a, q, log, w, c)) ==
                                             [Holds(w)[0].(hash := w.consumer.item.hash)] + Holds(w)[1..]
    ensures !TakesFirst(c) && !c.Persist? ==> Holds(ConsumerApply(a, q, log, w, c)) == Holds(w)
  {
    if c.Receive? {
      ReceiveKeepsHolds(w);
    } else if c.DrainNext? {
      DrainTakesFirst(w);
    } else {
      ConsumerKeepsRest(a, q, log, w, c);
    }
  }

  lemma ConsumerKeepsRest(a: Addr, q: Queue, log: seq<Option<Id>>, w: Worker, c: ConsumerStep)
    requires ConsumerEnabled(a, q, log, w, c) && !c.Finish? && !c.Receive? && !c.DrainNext?
    ensures var w' := ConsumerApply(a, q, log, w, c);
            && ConsumerHolds(w'.consumer) == (if TakesFirst(c) then [] else if c.Persist?
                then [w.consumer.item.rec.(hash := w.consumer.item.hash)] else ConsumerHolds(w.consumer))
            && w'.channel == w.channel && w'.producer == w.producer
    ensures TakesFirst(c) || c.Persist? ==> ConsumerHolds(w.consumer) == [w.consumer.item.rec]
  {
  }

  lemma FewerHeldAreSafe(a: Addr, ids: seq<Id>, acc: set<Id>, held: seq<Record>)
    requires HeldSafe(a, ids, acc, held) && |held| > 0
    ensures HeldSafe(a, ids, acc, held[1..])
    ensures Distinct(held) ==> Distinct(held[1..]) && HeldSafe(a, ids, acc + {held[0].id}, held[1..])
  {
  }

  lemma FirstTakenIsSafe(a: Addr, s: State, c: ConsumerStep)
    requires Safe(a, s) && s.worker.Some? && ConsumerEnabled(a, s.q, s.log, s.worker.value, c) && TakesFirst(c)
    requires |Holds(s.worker.value)| > 0
    requires c.Accept? ==> Holds(s.worker.value)[0].id == s.worker.value.consumer.item.rec.id
    ensures HeldSafe(a, s.ids, Taken(ConsumerLog(s.log, s.worker.value, c), s.pending), Holds(s.worker.value)[1..])
    ensures Healthy(s.worker.value.consumer) ==> Distinct(Holds(s.worker.value)[1..])
  {
    FewerHeldAreSafe(a, s.ids, Taken(s.log, s.pending), Holds(s.worker.value));
    if c.Accept? {
      LogGrows(s.log, Some(s.worker.value.consumer.item.rec.id));
    }
  }

  lemma StaysHealthy(a: Addr, q: Queue, log: seq<Option<Id>>, w: Worker, c: ConsumerStep)
    requires ConsumerEnabled(a, q, log, w, c) && !c.Finish?
    ensures Healthy(ConsumerApply(a, q, log, w, c).consumer) ==> Healthy(w.consumer)
  {
  }

  lemma ConsumerHeldIsSafe(a: Addr, s: State, c: ConsumerStep)
    requires Safe(a, s) && s.worker.Some? && ConsumerEnabled(a, s.q, s.log, s.worker.value, c) && !c.Finish?
    ensures var w' := ConsumerApply(a, s.q, s.log, s.worker.value, c);
            && HeldSafe(a, s.ids, Taken(ConsumerLog(s.log, s.worker.value, c), s.pending), Holds(w'))
            && (Healthy(w'.consumer) ==> Distinct(Holds(w')))
  {
    var w := s.worker.value;
    ConsumerHoldsNext(a, s.q, s.log, w, c);
    StaysHealthy(a, s.q, s.log, w, c);
    FirstHeld(w);
    if TakesFirst(c) {
      FirstTakenIsSafe(a, s, c);
    } else if c.Persist? {
      SameRowsAreSafe(a, s.ids, Taken(s.log, s.pending), Holds(ConsumerApply(a, s.q, s.log, w, c)), Holds(w));
    }
  }

  lemma NextScriptIsSafe(a: Addr, s: State, c: ConsumerStep)
    requires Safe(a, s) && s.worker.Some? && ConsumerEnabled(a, s.q, s.log, s.worker.value, c) && c.ConsumerRun?
    ensures var script' := ConsumerApply(a, s.q, s.log, s.worker.value, c).consumer.script;
            forall i :: 0 <= i < |script'| ==> CmdSafe(a, s.ids, Taken(s.log, s.pending), script'[i])
  {
    FollowIsSafe(a, s.ids, Taken(s.log, s.pending), s.q, s.worker.value.consumer.script[0], c.ok, c.listing);
  }

  lemma NextItemIsSafe(a: Addr, s: State, c: ConsumerStep)
    requires Safe(a, s) && s.worker.Some? && ConsumerEnabled(a, s.q, s.log, s.worker.value, c)
    requires !c.Finish? && !c.ConsumerRun? && !c.Persist?
    requires |ConsumerHolds(s.worker.value.consumer)| > 0 ==>
               Holds(s.worker.value)[0] == ConsumerHolds(s.worker.value.consumer)[0]
    requires c.DrainNext? ==> Holds(s.worker.value)[0] == s.worker.value.channel[0].rec
    ensures var w := s.worker.value;
            ConsumerSafe(a, s.ids, Taken(ConsumerLog(s.log, w, c), s.pending), ConsumerQueue(a, s.q, w, c),
                         ConsumerApply(a, s.q, s.log, w, c).consumer)
  {
  }

  lemma PersistedIsSafe(a: Addr, s: State, now: Time)
    requires Safe(a, s) && s.worker.Some? && ConsumerEnabled(a, s.q, s.log, s.worker.value, Persist(now))
    requires Holds(s.worker.value)[0] == s.worker.value.consumer.item.rec
    ensures var w := s.worker.value;
            ConsumerSafe(a, s.ids, Taken(s.log, s.pending), ConsumerQueue(a, s.q, w, Persist(now)),
                         ConsumerApply(a, s.q, s.log, w, Persist(now)).consumer)
  {
    assert s.worker.value.consumer.item.rec.status == Processing;
  }

  lemma NextConsumerIsSafe(a: Addr, s: State, c: ConsumerStep)
    requires Safe(a, s) && s.worker.Some? && ConsumerEnabled(a, s.q, s.log, s.worker.value, c) && !c.Finish?
    requires |ConsumerHolds(s.worker.value.consumer)| > 0 ==>
               Holds(s.worker.value)[0] == ConsumerHolds(s.worker.value.consumer)[0]
    requires c.DrainNext? ==> Holds(s.worker.value)[0] == s.worker.value.channel[0].rec
    ensures var w := s.worker.value;
            ConsumerSafe(a, s.ids, Taken(ConsumerLog(s.log, w, c), s.pending), ConsumerQueue(a, s.q, w, c),
                         ConsumerApply(a, s.q, s.log, w, c).consumer)
  {
    if c.ConsumerRun? {
      NextScriptIsSafe(a, s, c);
    } else if c.Persist? {
      PersistedIsSafe(a, s, c.now);
    } else {
      NextItemIsSafe(a, s, c);
    }
  }

  lemma ConsumerWorkerIsSafe(a: Addr, s: State, c: ConsumerStep)
    requires Safe(a, s) && s.worker.Some? && ConsumerEnabled(a, s.q, s.log, s.worker.value, c) && !c.Finish?
    ensures var w := s.worker.value;
            WorkerSafe(a, s.ids, Taken(ConsumerLog(s.log, w, c), s.pending), ConsumerQueue(a, s.q, w, c),
                       ConsumerApply(a, s.q, s.log, w, c))
  {
    var w := s.worker.value;
    FirstHeld(w);
    NextConsumerIsSafe(a, s, c);
    ConsumerHeldIsSafe(a, s, c);
    ChannelStaysSigned(a, s.q, s.log, w, c);
  }

  lemma FirstHeld(w: Worker)
    ensures |ConsumerHolds(w.consumer)| > 0 ==> Holds(w)[0] == ConsumerHolds(w.consumer)[0]
    ensures |ConsumerHolds(w.consumer)| == 0 && |w.channel| > 0 ==> Holds(w)[0] == w.channel[0].rec
  {
  }

  lemma ChannelStaysSigned(a: Addr, q: Queue, log: seq<Option<Id>>, w: Worker, c: ConsumerStep)
    requires ConsumerEnabled(a, q, log, w, c) && !c.Finish? && ChannelSigned(w.channel)
    ensures ChannelSigned(ConsumerApply(a, q, log, w, c).channel)
    ensures ConsumerApply(a, q, log, w, c).producer == w.producer
  {
  }

  lemma ConsumerKeepsSafe(a: Addr, depth: nat, s: State, c: ConsumerStep)
    requires Safe(a, s) && Enabled(a, depth, s, Cons(c)) && Assumed(a, s, Cons(c))
    ensures Safe(a, Apply(a, depth, s, Cons(c)))
  {
    ConsumerStoreIsSafe(a, s, c);
    if !c.Finish? {
      ConsumerWorkerIsSafe(a, s, c);
    }
    if c.Accept? {
      LogGrows(s.log, Some(s.worker.value.consumer.item.rec.id));
      assert Holds(s.worker.value)[0] == s.worker.value.consumer.item.rec;
    }
  }

  // ---- The theorem ----

  lemma StepKeepsSafe(a: Addr, depth: nat, s: State, step: Step)
    requires Safe(a, s) && Enabled(a, depth, s, step) && Assumed(a, s, step)
    ensures Safe(a, Apply(a, depth, s, step))
  {
    match step
    case Env(e) => EnvKeepsSafe(a, s, e);
    case Prod(p) => ProducerKeepsSafe(a, depth, s, p);
    case Cons(c) => ConsumerKeepsSafe(a, depth, s, c);
  }

  lemma {:induction false} RunKeepsSafe(a: Addr, depth: nat, p: (State, Step) -> bool, s: State, steps: seq<Step>)
    requires forall x, step :: p(x, step) ==> Assumed(a, x, step)
    requires Safe(a, s) && IsRun(a, depth, s, steps) && Throughout(a, depth, p, s, steps)
    ensures Safe(a, Final(a, depth, s, steps))
    decreases |steps|
  {
    if |steps| > 0 {
      StepKeepsSafe(a, depth, s, steps[0]);
      RunKeepsSafe(a, depth, p, Apply(a, depth, s, steps[0]), steps[1..]);
    }
  }

  // A sender without rows, workers or accepted transactions of this service.
  ghost predicate Initial(a: Addr, s: State) {
    && WellKeyed(s.q.rows)
    && (forall id :: id in s.q.rows ==> s.q.rows[id].sender != a)
    && (forall i :: 0 <= i < |s.log| ==> s.log[i].None?)
    && s.ids == [] && s.pending == map[] && s.worker.None?
  }

  // No row is accepted twice, and a row with an accepted broadcast is never queued again, nor is
  // one whose broadcast may still reach the chain.
  lemma AcceptedAtMostOnce(a: Addr, depth: nat, s: State, steps: seq<Step>)
    requires Initial(a, s) && IsRun(a, depth, s, steps) && AssumedRun(a, depth, s, steps)
    ensures var s' := Final(a, depth, s, steps);
            && NoRowTwice(s'.log)
            && (forall id :: id in Accepted(s'.log) ==> id !in s'.pending)
            && (forall id :: (id in Accepted(s'.log) || id in s'.pending) && id in s'.q.rows ==>
                  s'.q.rows[id].status != Queued)
  {
    RunKeepsSafe(a, depth, (x, step) => Assumed(a, x, step), s, steps);
  }
}
