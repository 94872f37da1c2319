/**
 The worker always makes progress.  In every reachable state some step of the producer or the
 consumer can be taken, so the bounded channel never leads to a deadlock; and once its context is
 cancelled, the worker ends within a bounded number of steps, however they interleave.
 */
module Progress {
  import opened Types
  import opened QueueSpec
  import opened Pipeline
  import opened AtMostOnce

  // ---- No deadlock ----

  // Records are stored under their ids, a record in preparation holds a number, the producer
  // lists nothing and gives up only after the cancellation, as the channel is drained only then.
  ghost predicate Sound(s: State) {
    && WellKeyed(s.q.rows)
    && (s.worker.Some? ==> WorkerSound(s.worker.value))
  }

  predicate WorkerSound(w: Worker) {
    && (w.consumer.Cleanup? && w.consumer.stage == Draining ==> w.cancelled)
    && (w.producer.Preparing? ==> w.producer.rec.seqNum.Some?)
    && (w.producer.Mending? && w.producer.quit ==> w.cancelled)
    && (w.producer.Mending? ==> |w.producer.script| == 0 ||
                                (|w.producer.script| == 1 && IsProducerCmd(w.producer.script[0])))
  }

  lemma EnvKeepsSound(a: Addr, s: State, e: EnvStep)
    requires Sound(s) && EnvEnabled(a, s, e)
    ensures Sound(EnvApply(a, s, e))
  {
  }

  lemma ProducerKeepsSound(a: Addr, depth: nat, q: Queue, w: Worker, p: ProducerStep)
    requires WellKeyed(q.rows) && WorkerSound(w) && ProducerEnabled(a, depth, q, w, p)
    ensures WellKeyed(ProducerQueue(a, q, w, p).rows) && WorkerSound(ProducerApply(a, depth, q, w, p))
  {
  }

  lemma ConsumerKeepsSound(a: Addr, q: Queue, log: seq<Option<Id>>, w: Worker, c: ConsumerStep)
    requires WellKeyed(q.rows) && WorkerSound(w) && ConsumerEnabled(a, q, log, w, c)
    ensures WellKeyed(ConsumerQueue(a, q, w, c).rows) && WorkerSound(ConsumerApply(a, q, log, w, c))
  {
  }

  lemma StepKeepsSound(a: Addr, depth: nat, s: State, step: Step)
    requires Sound(s) && Enabled(a, depth, s, step)
    ensures Sound(Apply(a, depth, s, step))
  {
    match step
    case Env(e) => EnvKeepsSound(a, s, e);
    case Prod(p) => ProducerKeepsSound(a, depth, s.q, s.worker.value, p);
    case Cons(c) => ConsumerKeepsSound(a, s.q, s.log, s.worker.value, c);
  }

  lemma {:induction false} RunKeepsSound(a: Addr, depth: nat, s: State, steps: seq<Step>)
    requires Sound(s) && IsRun(a, depth, s, steps)
    ensures Sound(Final(a, depth, s, steps))
    decreases |steps|
  {
    if |steps| > 0 {
      StepKeepsSound(a, depth, s, steps[0]);
      RunKeepsSound(a, depth, Apply(a, depth, s, steps[0]), steps[1..]);
    }
  }

  // A sender with queued rows has an oldest one.
  lemma {:induction false} OldestExists(rows: map<Id, Record>, a: Addr, ids: set<Id>) returns (id: Id)
    requires WellKeyed(rows) && ids != {} && forall j :: j in ids ==> j in rows && QueuedFor(rows[j], a)
    ensures id in ids && forall j :: j in ids && j != id ==> Older(rows[id], rows[j])
    decreases |ids|
  {
    var first :| first in ids;
    var others := ids - {first};
    assert forall j :: j in ids ==> j == first || j in others;
    id := first;
    if others != {} {
      var rest: Id := OldestExists(rows, a, others);
      assert Older(rows[rest], rows[first]) || Older(rows[first], rows[rest]);
      id := if Older(rows[rest], rows[first]) then rest else first;
      forall j | j in ids && j != id ensures Older(rows[id], rows[j]) {
        assert j == first || j == rest || Older(rows[rest], rows[j]);
      }
    }
  }

  // The claims that a list call asks for can be listed.
  lemma {:induction false} ListingExists(rows: map<Id, Record>, ids: set<Id>) returns (listing: seq<Record>)
    requires WellKeyed(rows) && forall id :: id in ids ==> id in rows
    ensures forall i :: 0 <= i < |listing| ==> listing[i].id in ids && rows[listing[i].id] == listing[i]
    ensures forall i, j :: 0 <= i < j < |listing| ==> listing[i].id != listing[j].id
    ensures forall id :: id in ids ==> rows[id] in listing
    decreases |ids|
  {
    listing := [];
    if ids != {} {
      var id :| id in ids;
      var rest := ListingExists(rows, ids - {id});
      listing := rest + [rows[id]];
    }
  }

  // Steps that no outside fault brings about.  A rejection is none if the number is not the
  // chain's next one, nor a failed update if the row is gone.
  predicate Faultless(p: ProducerStep) {
    match p
    case ClaimLost(_, _) => false
    case ClaimError => false
    case PrepareTransient => false
    case PreparePermanent => false
    case ProducerRun(ok, _) => ok
    case _ => true
  }

  predicate FaultlessFor(q: Queue, log: seq<Option<Id>>, w: Worker, c: ConsumerStep) {
    match c
    case PersistError => false
    case Reject(why) => why.SequenceMismatch? && w.consumer.Submitting? && w.consumer.item.rec.seqNum != Some(|log|)
    case RecordFailed => w.consumer.Recording? && w.consumer.rec.id !in q.rows
    case ConsumerRun(ok, _, _) => ok
    case _ => true
  }

  ghost predicate ProducerCanMove(a: Addr, depth: nat, q: Queue, w: Worker) {
    exists p :: Faultless(p) && ProducerEnabled(a, depth, q, w, p)
  }

  ghost predicate ConsumerCanMove(a: Addr, q: Queue, log: seq<Option<Id>>, w: Worker) {
    exists c :: FaultlessFor(q, log, w, c) && ConsumerEnabled(a, q, log, w, c)
  }

  // Some step of the producer, and some step of the consumer.
  lemma ProducerMoves(a: Addr, depth: nat, q: Queue, w: Worker, p: ProducerStep)
    requires Faultless(p) && ProducerEnabled(a, depth, q, w, p)
    ensures ProducerCanMove(a, depth, q, w)
  {
  }

  lemma ConsumerMoves(a: Addr, q: Queue, log: seq<Option<Id>>, w: Worker, c: ConsumerStep)
    requires FaultlessFor(q, log, w, c) && ConsumerEnabled(a, q, log, w, c)
    ensures ConsumerCanMove(a, q, log, w)
  {
  }

  lemma ClaimingCanMove(a: Addr, depth: nat, q: Queue, w: Worker)
    requires WellKeyed(q.rows) && w.producer.Claiming?
    ensures ProducerCanMove(a, depth, q, w)
  {
    var queued := set id | id in q.rows && QueuedFor(q.rows[id], a);
    if queued == {} {
      assert forall id :: id in q.rows && QueuedFor(q.rows[id], a) ==> id in queued;
      ProducerMoves(a, depth, q, w, Quit);
    } else {
      var id := OldestExists(q.rows, a, queued);
      ProducerMoves(a, depth, q, w, ClaimNext(id, 0));
    }
  }

  // The producer waits only for room in the channel.
  lemma ProducerWaitsForRoom(a: Addr, depth: nat, q: Queue, w: Worker)
    requires WellKeyed(q.rows) && WorkerSound(w) && !w.producer.Exited?
    requires w.producer.Sending? ==> |w.channel| < depth || w.cancelled
    ensures ProducerCanMove(a, depth, q, w)
  {
    match w.producer {
      case Looping => ProducerMoves(a, depth, q, w, CheckCancelled);
      case Claiming => ClaimingCanMove(a, depth, q, w);
      case Preparing(_) => ProducerMoves(a, depth, q, w, Sign("signed"));
      case Sending(_) => ProducerMoves(a, depth, q, w, if w.cancelled then SendCancelled else Send);
      case Mending(script, _) => ProducerMoves(a, depth, q, w, if |script| > 0 then ProducerRun(true, 0) else Mended);
      case Exited =>
    }
  }

  predicate WaitsForProducer(w: Worker) {
    w.channel == [] && !w.producer.Exited? && (w.consumer.Receiving? || w.consumer == Cleanup(Draining, []))
  }

  lemma CleanupCanMove(a: Addr, q: Queue, log: seq<Option<Id>>, w: Worker)
    requires WellKeyed(q.rows) && w.consumer.Cleanup? && !WaitsForProducer(w)
    ensures ConsumerCanMove(a, q, log, w)
  {
    var script := w.consumer.script;
    if |script| == 0 {
      ConsumerMoves(a, q, log, w, match w.consumer.stage
        case Failing => CancelProducer
        case Draining => if |w.channel| > 0 then DrainNext else DrainDone(None)
        case Sweeping => Finish);
    } else if IsList(script[0]) {
      var ids := set id | id in q.rows && IsUnhashedClaim(q.rows[id], a) &&
                          (script[0].ListSiblings? ==> id != script[0].except);
      var listing := ListingExists(q.rows, ids);
      ConsumerMoves(a, q, log, w, ConsumerRun(true, 0, listing));
    } else {
      ConsumerMoves(a, q, log, w, ConsumerRun(true, 0, []));
    }
  }

  // The consumer waits only for the producer.
  lemma ConsumerWaitsForProducer(a: Addr, q: Queue, log: seq<Option<Id>>, w: Worker)
    requires WellKeyed(q.rows) && !WaitsForProducer(w)
    ensures ConsumerCanMove(a, q, log, w)
  {
    match w.consumer {
      case Receiving => ConsumerMoves(a, q, log, w, if |w.channel| > 0 then Receive else PipelineClosed);
      case Persisting(item) =>
        ConsumerMoves(a, q, log, w, if StillClaimed(q, item.rec.id) then Persist(0) else PersistSkipped);
      case Submitting(item) =>
        ConsumerMoves(a, q, log, w,
                      if item.rec.seqNum == Some(|log|) then Accept("") else Reject(SequenceMismatch(None)));
      case Recording(rec) => ConsumerMoves(a, q, log, w, if rec.id in q.rows then RecordSubmitted(0) else RecordFailed);
      case Cleanup(_, _) => CleanupCanMove(a, q, log, w);
    }
  }

  // In every state that any run reaches, whatever faults it met, a worker can take a step that
  // needs no fault.
  lemma WorkerNeverStuck(a: Addr, depth: nat, s0: State, steps: seq<Step>)
    requires Initial(a, s0) && IsRun(a, depth, s0, steps) && depth >= 1
    ensures var s := Final(a, depth, s0, steps);
            s.worker.Some? ==>
              ProducerCanMove(a, depth, s.q, s.worker.value) || ConsumerCanMove(a, s.q, s.log, s.worker.value)
  {
    RunKeepsSound(a, depth, s0, steps);
    var s := Final(a, depth, s0, steps);
    if s.worker.Some? {
      if WaitsForProducer(s.worker.value) {
        ProducerWaitsForRoom(a, depth, s.q, s.worker.value);
      } else {
        ConsumerWaitsForProducer(a, s.q, s.log, s.worker.value);
      }
    }
  }

  // The theorems leave no fault out: every store call, signing and broadcast can fail whenever it is
  // made, and a recovery, an outside transaction, a shutdown and a crash can come at any moment.
  lemma FaultsCanStrike(a: Addr, depth: nat, s: State, w: Worker, now: Time, cutoff: int, why: Rejection)
    requires s.worker == Some(w)
    ensures EnvEnabled(a, s, StaleRecovery(now, cutoff)) && EnvEnabled(a, s, ExternalTxn)
    ensures EnvEnabled(a, s, Shutdown) && EnvEnabled(a, s, Crash)
    ensures w.producer.Claiming? ==> ProducerEnabled(a, depth, s.q, w, ClaimError)
    ensures forall id :: w.producer.Claiming? && IsOldest(s.q, a, id) ==>
              ProducerEnabled(a, depth, s.q, w, ClaimLost(id, now))
    ensures w.producer.Preparing? ==>
              ProducerEnabled(a, depth, s.q, w, PrepareTransient) && ProducerEnabled(a, depth, s.q, w, PreparePermanent)
    ensures w.producer.Mending? && |w.producer.script| > 0 ==>
              ProducerEnabled(a, depth, s.q, w, ProducerRun(false, now))
    ensures w.consumer.Persisting? ==> ConsumerEnabled(a, s.q, s.log, w, PersistError)
    ensures w.consumer.Submitting? ==> ConsumerEnabled(a, s.q, s.log, w, Reject(why))
    ensures w.consumer.Recording? ==> ConsumerEnabled(a, s.q, s.log, w, RecordFailed)
    ensures w.consumer.Cleanup? && |w.consumer.script| > 0 ==>
              ConsumerEnabled(a, s.q, s.log, w, ConsumerRun(false, now, []))
  {
  }

  // ---- Bounded stopping ----

  // The steps that a command can still cause, not counting what a list call finds.
  function Weight(c: Cmd): nat {
    if c.GiveBack? || c.Terminate? then 2 else 1
  }

  function Weights(script: seq<Cmd>): nat {
    if |script| == 0 then 0 else Weight(script[0]) + Weights(script[1..])
  }

  // The steps that a cancelled producer can still take, and cause.
  function ProducerPotential(p: Producer): nat {
    match p
    case Exited => 0
    case Looping => 1
    case Mending(script, _) => 2 + Weights(script)
    case Sending(_) => 6
    case Preparing(_) => 7
    case Claiming => 8
  }

  function ConsumerPotential(c: Consumer): nat {
    match c
    case Receiving => 7
    case Recording(_) => 8
    case Submitting(_) => 9
    case Persisting(_) => 10
    case Cleanup(stage, script) =>
      Weights(script) + (match stage case Failing => 5 case Draining => 4 case Sweeping => 1)
  }

  // The steps that an item in the channel takes: submitted while all is well, given back otherwise.
  function ItemPotential(c: Consumer): nat {
    if Healthy(c) then 4 else 3
  }

  function Potential(w: Worker): nat {
    ConsumerPotential(w.consumer) + ProducerPotential(w.producer) + ItemPotential(w.consumer) * |w.channel|
  }

  // What a list call of a step has found.
  function Listed(step: Step): nat {
    if step.Cons? && step.c.ConsumerRun? then |step.c.listing| else 0
  }

  lemma {:induction false} WeightsConcat(s: seq<Cmd>, t: seq<Cmd>)
    ensures Weights(s + t) == Weights(s) + Weights(t)
  {
    if |s| == 0 {
      assert s + t == t;
    } else {
      WeightsConcat(s[1..], t);
      assert (s + t)[1..] == s[1..] + t;
    }
  }

  lemma {:induction false} WeightsBound(script: seq<Cmd>)
    ensures Weights(script) <= 2 * |script|
  {
    if |script| > 0 {
      WeightsBound(script[1..]);
    }
  }

  lemma SingleWeight(c: Cmd)
    ensures Weights([c]) == Weight(c)
  {
    assert [c][1..] == [];
  }

  // Running a command costs its weight, whether it succeeds or not; a list call earns at most
  // two steps for each claim that it found.
  lemma FollowWeighs(c: Cmd, listing: seq<Record>, rest: seq<Cmd>)
    requires !IsList(c) ==> listing == []
    ensures Weights(Follow(c, listing) + rest) + 1 <= Weight(c) + Weights(rest) + 2 * |listing|
  {
    WeightsConcat(Follow(c, listing), rest);
    WeightsBound(Follow(c, listing));
  }

  lemma ProducerSpends(a: Addr, depth: nat, q: Queue, w: Worker, p: ProducerStep)
    requires WorkerSound(w) && w.cancelled && ProducerEnabled(a, depth, q, w, p)
    ensures ProducerApply(a, depth, q, w, p).cancelled && Potential(ProducerApply(a, depth, q, w, p)) < Potential(w)
  {
    match p {
      case ProducerRun(_, _) => FollowWeighs(w.producer.script[0], [], w.producer.script[1..]);
      case PrepareTransient => SingleWeight(GiveBack(Attempted(w.producer.rec)));
      case PreparePermanent => SingleWeight(Terminate(w.producer.rec));
      case SendCancelled => SingleWeight(GiveBack(w.producer.item.rec));
      case _ =>
    }
  }

  lemma ConsumerSpends(a: Addr, q: Queue, log: seq<Option<Id>>, w: Worker, c: ConsumerStep)
    requires w.cancelled && ConsumerEnabled(a, q, log, w, c) && !c.Finish?
    ensures ConsumerApply(a, q, log, w, c).cancelled
    ensures Potential(ConsumerApply(a, q, log, w, c)) < Potential(w) + 2 * Listed(Cons(c))
  {
    match c {
      case ConsumerRun(_, _, listing) => FollowWeighs(w.consumer.script[0], listing, w.consumer.script[1..]);
      case PersistError => SingleWeight(GiveBack(Attempted(w.consumer.item.rec.(hash := ""))));
      case Reject(why) => RejectionWeighs(w.consumer.item.rec.(hash := ""), why);
      case PipelineClosed => SingleWeight(ListOrphans);
      case DrainNext => SingleWeight(GiveBack(w.channel[0].rec));
      case DrainDone(chainSeq) => SweepWeighs(chainSeq);
      case _ =>
    }
  }

  lemma RejectionWeighs(rec: Record, why: Rejection)
    ensures Weights(AfterReject(rec, why)) <= 3
  {
    match why
    case SequenceMismatch(Some(chainSeq)) =>
      var script := AfterReject(rec, why);
      assert script[1..] == [ListSiblings(rec.id), PutBack(Attempted(rec))];
      assert script[1..][1..] == [PutBack(Attempted(rec))];
      SingleWeight(PutBack(Attempted(rec)));
    case Aged => SingleWeight(Terminate(rec));
    case _ => SingleWeight(GiveBack(Attempted(rec)));
  }

  lemma SweepWeighs(chainSeq: Option<nat>)
    ensures Weights((if chainSeq.Some? then [RaiseTo(chainSeq.value)] else []) + [ListOrphans]) <= 2
  {
    WeightsConcat(if chainSeq.Some? then [RaiseTo(chainSeq.value)] else [], [ListOrphans]);
  }

  predicate IsWorkerStep(step: Step) {
    step.Prod? || step.Cons?
  }

  // The steps before the worker ends, or is cut off by a crash.
  predicate Within(steps: seq<Step>) {
    forall i :: 0 <= i < |steps| ==> steps[i] != Env(Crash) && steps[i] != Cons(Finish)
  }

  function WorkerSteps(steps: seq<Step>): nat {
    if |steps| == 0 then 0 else (if IsWorkerStep(steps[0]) then 1 else 0) + WorkerSteps(steps[1..])
  }

  function ListedIn(steps: seq<Step>): nat {
    if |steps| == 0 then 0 else Listed(steps[0]) + ListedIn(steps[1..])
  }

  lemma StepSpends(a: Addr, depth: nat, s: State, step: Step)
    requires Sound(s) && s.worker.Some? && s.worker.value.cancelled && Enabled(a, depth, s, step)
    requires step != Env(Crash) && step != Cons(Finish)
    ensures var s' := Apply(a, depth, s, step);
            && s'.worker.Some? && s'.worker.value.cancelled
            && (if IsWorkerStep(step) then 1 else 0) + Potential(s'.worker.value) <=
               Potential(s.worker.value) + 2 * Listed(step)
  {
    match step
    case Env(e) =>
    case Prod(p) => ProducerSpends(a, depth, s.q, s.worker.value, p);
    case Cons(c) => ConsumerSpends(a, s.q, s.log, s.worker.value, c);
  }

  // Once cancelled, by a failure or by a shutdown, the worker takes at most four steps for each item
  // in the channel, two for each claim that it lists, and a constant - whatever fails and whatever
  // interleaves.
  lemma {:induction false} StoppingIsBounded(a: Addr, depth: nat, s: State, steps: seq<Step>)
    requires Sound(s) && s.worker.Some? && s.worker.value.cancelled
    requires IsRun(a, depth, s, steps) && Within(steps)
    ensures var s' := Final(a, depth, s, steps);
            && s'.worker.Some? && s'.worker.value.cancelled
            && WorkerSteps(steps) + Potential(s'.worker.value) <= Potential(s.worker.value) + 2 * ListedIn(steps)
    decreases |steps|
  {
    if |steps| > 0 {
      StepSpends(a, depth, s, steps[0]);
      StepKeepsSound(a, depth, s, steps[0]);
      assert forall i :: 0 <= i < |steps[1..]| ==> steps[1..][i] == steps[i + 1];
      StoppingIsBounded(a, depth, Apply(a, depth, s, steps[0]), steps[1..]);
    }
  }

  // That begins with the cancellation itself, by a shutdown or by the consumer's first failure.
  lemma CancellationStops(a: Addr, depth: nat, s: State, step: Step, steps: seq<Step>)
    requires Sound(s) && s.worker.Some? && Enabled(a, depth, s, step)
    requires step == Env(Shutdown) || step == Cons(CancelProducer)
    requires IsRun(a, depth, Apply(a, depth, s, step), steps) && Within(steps)
    ensures WorkerSteps(steps) <= Potential(s.worker.value) + 2 * ListedIn(steps)
  {
    StepKeepsSound(a, depth, s, step);
    StoppingIsBounded(a, depth, Apply(a, depth, s, step), steps);
  }

  // A producer ends only when it is cancelled or has nothing left to claim, and at its next check
  // when it is cancelled; no fault ends it.
  lemma ProducerEndsOnlyIf(a: Addr, depth: nat, q: Queue, w: Worker, p: ProducerStep)
    requires WorkerSound(w) && ProducerEnabled(a, depth, q, w, p)
    ensures ProducerApply(a, depth, q, w, p).producer.Exited? ==>
              w.cancelled || forall id :: id in q.rows ==> !(q.rows[id].status == Queued && q.rows[id].sender == a)
    ensures p.CheckCancelled? && w.cancelled ==> ProducerApply(a, depth, q, w, p).producer.Exited?
  {
  }

  // The constant: how much is left to do when the cancellation comes.
  lemma PotentialIsSmall(w: Worker)
    requires WorkerSound(w) && Healthy(w.consumer)
    ensures Potential(w) <= 18 + 4 * |w.channel|
  {
    if w.producer.Mending? && |w.producer.script| == 1 {
      SingleWeight(w.producer.script[0]);
      assert w.producer.script == [w.producer.script[0]];
    }
  }
}
