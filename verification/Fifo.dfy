/**
 The sign-ahead pipeline behaves like a one-at-a-time queue.  In a calm run - one worker at a
 time, no crash, no outside submitter, a creation clock that increases, and only transient
 failures - the chain accepts the sender's rows in the order of their creation, each at the
 next sequence number, and every failure and every graceful stop unwinds the counter exactly.
 */
module Fifo {
  import opened Types
  import opened QueueSpec
  import opened Pipeline
  import opened AtMostOnce
  import opened Counting

  // ---- Calm runs ----

  ghost predicate CalmEnv(a: Addr, s: State, e: EnvStep) {
    match e
    case Enqueue(rec) =>
      forall id :: id in s.q.rows && s.q.rows[id].sender == a ==> s.q.rows[id].createdAt < rec.createdAt
    case OtherSenders(_) => true
    case StaleRecovery(_, cutoff) => StaleOf(s.q, a, cutoff) == {}
    case PollerWrite(rec, _) => rec.sender == a ==> rec.id in Accepted(s.log)
    case Delete(id) => id in s.q.rows && s.q.rows[id].sender == a ==> id in Accepted(s.log)
    case Start => true
    case Shutdown => true
    case ExternalTxn => false
    case LateAccept(_) => false
    case Crash => false
  }

  predicate CalmStep(n: nat, step: Step) {
    match step
    case Env(_) => true
    case Prod(PreparePermanent) => false
    case Prod(ProducerRun(ok, _)) => ok
    case Prod(_) => true
    case Cons(Reject(why)) => why.Transient?
    case Cons(ConsumerRun(ok, _, _)) => ok
    case Cons(DrainDone(read)) => read.Some? ==> read.value <= n
    case Cons(_) => true
  }

  // The answer to a claim is lost only to a worker that is stopping anyway.
  predicate LosesNoClaim(w: Worker, p: ProducerStep) {
    p.ClaimLost? && Healthy(w.consumer) ==> w.cancelled
  }

  ghost predicate Calm(a: Addr, s: State, step: Step) {
    && CalmStep(|s.log|, step)
    && (step.Env? ==> CalmEnv(a, s, step.e))
    && (step.Prod? && s.worker.Some? ==> LosesNoClaim(s.worker.value, step.p))
  }

  ghost predicate CalmRun(a: Addr, depth: nat, s: State, steps: seq<Step>)
    requires IsRun(a, depth, s, steps)
  {
    Throughout(a, depth, (x, step) => Calm(a, x, step), s, steps)
  }

  // ---- The invariant ----

  // A row waiting for its next claim, and a claimed row.
  predicate IsWaiting(r: Record) {
    r.status == Queued && r.seqNum.None? && r.hash == ""
  }

  predicate IsClaimed(r: Record) {
    r.status == Processing && r.seqNum.Some?
  }

  // The line of unaccepted rows, in creation order.
  ghost predicate InLine(a: Addr, line: seq<Id>, q: Queue) {
    && (forall j :: 0 <= j < |line| ==>
          && line[j] in q.rows && q.rows[line[j]].sender == a
          && (IsWaiting(q.rows[line[j]]) || IsClaimed(q.rows[line[j]])))
    && (forall i, j :: 0 <= i < j < |line| ==>
          line[i] != line[j] && q.rows[line[i]].createdAt < q.rows[line[j]].createdAt)
  }

  ghost predicate AllWaiting(line: seq<Id>, from: nat, q: Queue) {
    forall j :: from <= j < |line| ==> line[j] in q.rows && IsWaiting(q.rows[line[j]])
  }

  // The release that a script still owes for a number already cleared.
  function Owed(script: seq<Cmd>): nat {
    if |script| > 0 && script[0].ReleaseOne? then 1 else 0
  }

  function ProducerOwed(p: Producer): nat {
    if p.Mending? then Owed(p.script) else 0
  }

  ghost predicate ProducerCalm(p: Producer) {
    p.Mending? && |p.script| > 0 ==> |p.script| == 1 && (p.script[0].GiveBack? || p.script[0].ReleaseOne?)
  }

  // A held copy that can be given back without disturbing the line.
  ghost predicate Returnable(a: Addr, q: Queue, rec: Record) {
    && rec.id in q.rows && rec.sender == a && rec.createdAt == q.rows[rec.id].createdAt
    && rec.seqNum.Some? && rec.hash == ""
  }

  // A held copy agrees with its claimed row, which stands at place i of the line and holds the
  // i-th number from n on; only a copy being sent, and its row, carry a hash.
  ghost predicate InPlace(a: Addr, line: seq<Id>, n: nat, q: Queue, rec: Record, i: nat, sent: bool) {
    && i < |line| && line[i] == rec.id && rec.seqNum == Some(n + i)
    && rec.id in q.rows && IsClaimed(q.rows[rec.id])
    && rec.sender == a && rec.createdAt == q.rows[rec.id].createdAt
    && (!sent ==> rec.hash == "" && q.rows[rec.id].hash == "")
  }

  predicate IsSent(w: Worker, i: nat) {
    w.consumer.Submitting? && i == 0
  }

  ghost predicate AllInPlace(a: Addr, line: seq<Id>, n: nat, q: Queue, w: Worker) {
    forall i :: 0 <= i < |Holds(w)| ==> InPlace(a, line, n, q, Holds(w)[i], i, IsSent(w, i))
  }

  // A claim that a stopped producer never saw: it took the row that follows the held ones.
  predicate IsLost(line: seq<Id>, q: Queue, w: Worker) {
    && w.producer.Exited? && |Holds(w)| < |line|
    && line[|Holds(w)|] in q.rows && q.rows[line[|Holds(w)|]].status == Processing
  }

  function ClaimCount(line: seq<Id>, q: Queue, w: Worker): nat {
    |Holds(w)| + if IsLost(line, q, w) then 1 else 0
  }

  ghost predicate LostUnhashed(line: seq<Id>, q: Queue, w: Worker) {
    IsLost(line, q, w) ==> q.rows[line[|Holds(w)|]].seqNum.Some? && q.rows[line[|Holds(w)|]].hash == ""
  }

  // While the consumer submits, the worker holds the head of the line at consecutive numbers.
  ghost predicate Flowing(a: Addr, line: seq<Id>, n: nat, q: Queue, w: Worker) {
    && ProducerCalm(w.producer)
    && |Holds(w)| <= |line|
    && AllInPlace(a, line, n, q, w) && LostUnhashed(line, q, w)
    && AllWaiting(line, ClaimCount(line, q, w), q)
    && Next(q, a) == n + ClaimCount(line, q, w) + ProducerOwed(w.producer)
  }

  // The unaccepted rows that hold a number.
  function Out(line: seq<Id>, q: Queue): set<Id> {
    set id | id in line && id in q.rows && q.rows[id].seqNum.Some?
  }

  function ToReturn(script: seq<Cmd>): seq<Record> {
    if |script| == 0 then []
    else (if script[0].GiveBack? then [script[0].rec] else []) + ToReturn(script[1..])
  }

  // After a failure every claim that someone holds is on its way back.
  function Returning(w: Worker): seq<Record> {
    (if w.consumer.Cleanup? then ToReturn(w.consumer.script) else []) + Holds(w)
  }

  predicate IsAbout(recs: seq<Record>, id: Id) {
    exists i :: 0 <= i < |recs| && recs[i].id == id
  }

  // Before the orphans are listed, and when only returns are left.
  ghost predicate ToList(n: nat, script: seq<Cmd>) {
    || script == [ListOrphans]
    || (|script| == 2 && script[0].RaiseTo? && script[0].chainSeq <= n && script[1] == ListOrphans)
  }

  ghost predicate OnlyReturns(script: seq<Cmd>) {
    forall i :: 0 <= i < |script| ==> script[i].GiveBack? || (i == 0 && script[i].ReleaseOne?)
  }

  ghost predicate ScriptCalm(n: nat, stage: Stage, script: seq<Cmd>) {
    if stage == Sweeping then ToList(n, script) || OnlyReturns(script) else |script| <= 1 && OnlyReturns(script)
  }

  ghost predicate Accounted(a: Addr, line: seq<Id>, n: nat, q: Queue, back: seq<Record>, owed: nat) {
    && Distinct(back)
    && (forall i :: 0 <= i < |back| ==> back[i].id in Out(line, q) && Returnable(a, q, back[i]))
    && Next(q, a) == n + |Out(line, q)| + owed
  }

  // A hash on an unaccepted row was left by the item that the script gives back.
  ghost predicate HashesKnown(line: seq<Id>, q: Queue, recs: seq<Record>) {
    forall id :: id in Out(line, q) ==> q.rows[id].hash == "" || IsAbout(recs, id)
  }

  ghost predicate AllReturning(line: seq<Id>, q: Queue, back: seq<Record>) {
    forall id :: id in Out(line, q) ==> IsAbout(back, id)
  }

  ghost predicate Unwinding(a: Addr, line: seq<Id>, n: nat, q: Queue, w: Worker)
    requires w.consumer.Cleanup?
  {
    var stage, script := w.consumer.stage, w.consumer.script;
    && ScriptCalm(n, stage, script) && ProducerCalm(w.producer)
    && (stage == Sweeping ==> w.channel == [] && w.producer.Exited?)
    && Accounted(a, line, n, q, Returning(w), Owed(script) + ProducerOwed(w.producer))
    && HashesKnown(line, q, ToReturn(script))
    && (stage == Sweeping && !ToList(n, script) ==> AllReturning(line, q, Returning(w)))
  }

  ghost predicate AtRest(a: Addr, line: seq<Id>, n: nat, q: Queue) {
    AllWaiting(line, 0, q) && Next(q, a) == n
  }

  ghost predicate Phase(a: Addr, line: seq<Id>, n: nat, q: Queue, worker: Option<Worker>) {
    match worker
    case None => AtRest(a, line, n, q)
    case Some(w) => if Healthy(w.consumer) then Flowing(a, line, n, q, w) else Unwinding(a, line, n, q, w)
  }

  function Somes(ids: seq<Id>): seq<Option<Id>> {
    seq(|ids|, i requires 0 <= i < |ids| => Some(ids[i]))
  }

  // The log is the old log followed by the first created rows, in order.
  ghost predicate InOrder(base: seq<Option<Id>>, log: seq<Option<Id>>, ids: seq<Id>) {
    && |base| <= |log| <= |base| + |ids|
    && log == base + Somes(ids[..|log| - |base|])
  }

  // The rows not yet accepted.
  function Line(base: seq<Option<Id>>, log: seq<Option<Id>>, ids: seq<Id>): seq<Id>
    requires |base| <= |log| <= |base| + |ids|
  {
    ids[|log| - |base|..]
  }

  ghost predicate Orderly(a: Addr, base: seq<Option<Id>>, s: State) {
    && NoneAccepted(base) && InOrder(base, s.log, s.ids) && NoRepeats(s.ids)
    && InLine(a, Line(base, s.log, s.ids), s.q)
    && (s.worker.Some? && s.worker.value.consumer.Recording? ==> s.worker.value.consumer.rec.id in Accepted(s.log))
    && Phase(a, Line(base, s.log, s.ids), |s.log|, s.q, s.worker)
  }

  ghost predicate NoneAccepted(base: seq<Option<Id>>) {
    forall i :: 0 <= i < |base| ==> base[i].None?
  }

  // The accepted rows are the first ones created, so a row is either accepted or in the line.
  lemma AcceptedArePrefix(base: seq<Option<Id>>, log: seq<Option<Id>>, ids: seq<Id>)
    requires NoneAccepted(base) && InOrder(base, log, ids) && NoRepeats(ids)
    ensures forall j :: 0 <= j < |ids| ==> (ids[j] in Accepted(log) <==> j < |log| - |base|)
    ensures forall id :: id in Accepted(log) ==> id in ids
  {
    assert forall i :: 0 <= i < |base| ==> log[i] == base[i];
    assert forall i :: |base| <= i < |log| ==> log[i] == Some(ids[i - |base|]);
    forall j | 0 <= j < |ids| ensures ids[j] in Accepted(log) <==> j < |log| - |base| {
      if j < |log| - |base| {
        assert log[|base| + j] == Some(ids[j]);
      }
    }
  }

  lemma AcceptedOrInLine(base: seq<Option<Id>>, s: State, id: Id)
    requires NoneAccepted(base) && InOrder(base, s.log, s.ids) && NoRepeats(s.ids) && id in s.ids
    ensures id in Accepted(s.log) <==> id !in Line(base, s.log, s.ids)
  {
    AcceptedArePrefix(base, s.log, s.ids);
    var k := |s.log| - |base|;
    assert forall j :: k <= j < |s.ids| ==> s.ids[j] == Line(base, s.log, s.ids)[j - k];
  }

  // ---- Environment steps ----

  // The line's rows and the counter are as they were.
  ghost predicate Untouched(a: Addr, line: seq<Id>, q: Queue, q': Queue) {
    && (forall id :: id in line && id in q.rows ==> id in q'.rows && q'.rows[id] == q.rows[id])
    && (forall id :: id in line && id in q'.rows ==> id in q.rows)
    && Next(q', a) == Next(q, a)
  }

  lemma UntouchedKeepsFlowing(a: Addr, line: seq<Id>, n: nat, q: Queue, q': Queue, w: Worker)
    requires Flowing(a, line, n, q, w) && Untouched(a, line, q, q')
    ensures Flowing(a, line, n, q', w)
  {
    forall i | 0 <= i < |Holds(w)| ensures InPlace(a, line, n, q', Holds(w)[i], i, IsSent(w, i)) {
      assert InPlace(a, line, n, q, Holds(w)[i], i, IsSent(w, i));
    }
  }

  lemma UntouchedKeepsUnwinding(a: Addr, line: seq<Id>, n: nat, q: Queue, q': Queue, w: Worker)
    requires w.consumer.Cleanup? && Unwinding(a, line, n, q, w) && Untouched(a, line, q, q')
    ensures Unwinding(a, line, n, q', w)
  {
    assert Out(line, q') == Out(line, q);
  }

  lemma UntouchedKeepsPhase(a: Addr, line: seq<Id>, n: nat, q: Queue, q': Queue, worker: Option<Worker>)
    requires InLine(a, line, q) && Phase(a, line, n, q, worker) && Untouched(a, line, q, q')
    ensures InLine(a, line, q') && Phase(a, line, n, q', worker)
  {
    if worker.Some? {
      if Healthy(worker.value.consumer) {
        UntouchedKeepsFlowing(a, line, n, q, q', worker.value);
      } else {
        UntouchedKeepsUnwinding(a, line, n, q, q', worker.value);
      }
    }
  }

  lemma RecoveryIsUntouched(a: Addr, line: seq<Id>, q: Queue, now: Time, cutoff: int)
    requires InLine(a, line, q) && StaleOf(q, a, cutoff) == {}
    ensures Untouched(a, line, q, Recover(q, now, cutoff))
  {
    forall id | id in line ensures id in StaleIds(q, cutoff) <==> id in StaleOf(q, a, cutoff) {
    }
  }

  // A new row goes to the end of the line.
  lemma LongerLineKeepsPhase(a: Addr, line: seq<Id>, n: nat, q: Queue, id: Id, worker: Option<Worker>)
    requires Phase(a, line, n, q, worker) && id in q.rows && IsWaiting(q.rows[id])
    ensures Phase(a, line + [id], n, q, worker)
  {
    assert Out(line + [id], q) == Out(line, q);
    if worker.Some? && Healthy(worker.value.consumer) {
      var w := worker.value;
      assert IsLost(line + [id], q, w) <==> IsLost(line, q, w);
      forall i | 0 <= i < |Holds(w)| ensures InPlace(a, line + [id], n, q, Holds(w)[i], i, IsSent(w, i)) {
        assert InPlace(a, line, n, q, Holds(w)[i], i, IsSent(w, i));
      }
    }
  }

  lemma EnqueueKeepsPhase(a: Addr, line: seq<Id>, n: nat, q: Queue, rec: Record, worker: Option<Worker>)
    requires InLine(a, line, q) && Phase(a, line, n, q, worker)
    requires rec.id !in q.rows && rec.sender == a && IsWaiting(rec)
    requires forall id :: id in q.rows && q.rows[id].sender == a ==> q.rows[id].createdAt < rec.createdAt
    ensures var q' := q.(rows := q.rows[rec.id := rec]);
            InLine(a, line + [rec.id], q') && Phase(a, line + [rec.id], n, q', worker)
  {
    var q' := q.(rows := q.rows[rec.id := rec]);
    UntouchedKeepsPhase(a, line, n, q, q', worker);
    LongerLineKeepsPhase(a, line, n, q', rec.id, worker);
  }

  // The other steps of the environment leave the line alone.
  lemma EnvIsUntouched(a: Addr, base: seq<Option<Id>>, s: State, e: EnvStep)
    requires Orderly(a, base, s) && Safe(a, s) && EnvEnabled(a, s, e) && CalmEnv(a, s, e) && !e.Enqueue?
    ensures Untouched(a, Line(base, s.log, s.ids), s.q, EnvApply(a, s, e).q)
  {
    var line := Line(base, s.log, s.ids);
    match e {
      case StaleRecovery(now, cutoff) => RecoveryIsUntouched(a, line, s.q, now, cutoff);
      case PollerWrite(rec, _) =>
        if rec.id in line { AcceptedOrInLine(base, s, rec.id); }
      case Delete(id) =>
        if id in line { AcceptedOrInLine(base, s, id); }
      case _ =>
    }
  }

  lemma EnqueueKeepsOrderly(a: Addr, base: seq<Option<Id>>, s: State, rec: Record)
    requires Orderly(a, base, s) && EnvEnabled(a, s, Enqueue(rec)) && CalmEnv(a, s, Enqueue(rec))
    ensures Orderly(a, base, EnvApply(a, s, Enqueue(rec)))
  {
    var s' := EnvApply(a, s, Enqueue(rec));
    assert Line(base, s'.log, s'.ids) == Line(base, s.log, s.ids) + [rec.id];
    assert s'.ids[..|s.log| - |base|] == s.ids[..|s.log| - |base|];
    EnqueueKeepsPhase(a, Line(base, s.log, s.ids), |s.log|, s.q, rec, s.worker);
  }

  lemma EnvKeepsOrderly(a: Addr, base: seq<Option<Id>>, s: State, e: EnvStep)
    requires Orderly(a, base, s) && Safe(a, s) && EnvEnabled(a, s, e) && CalmEnv(a, s, e)
    ensures Orderly(a, base, EnvApply(a, s, e))
  {
    match e {
      case Enqueue(rec) => EnqueueKeepsOrderly(a, base, s, rec);
      case Start => StartKeepsOrderly(a, base, s);
      case Shutdown => ShutdownKeepsOrderly(a, base, s);
      case _ => OutsideKeepsOrderly(a, base, s, e);
    }
  }

  lemma OutsideKeepsOrderly(a: Addr, base: seq<Option<Id>>, s: State, e: EnvStep)
    requires Orderly(a, base, s) && Safe(a, s) && EnvEnabled(a, s, e) && CalmEnv(a, s, e)
    requires !e.Enqueue? && !e.Start? && !e.Shutdown?
    ensures Orderly(a, base, EnvApply(a, s, e))
  {
    EnvIsUntouched(a, base, s, e);
    UntouchedKeepsOrderly(a, base, s, EnvApply(a, s, e).q);
  }

  lemma StartKeepsOrderly(a: Addr, base: seq<Option<Id>>, s: State)
    requires Orderly(a, base, s) && s.worker.None?
    ensures Orderly(a, base, EnvApply(a, s, Start))
  {
  }

  lemma ShutdownKeepsOrderly(a: Addr, base: seq<Option<Id>>, s: State)
    requires Orderly(a, base, s) && s.worker.Some?
    ensures Orderly(a, base, EnvApply(a, s, Shutdown))
  {
  }

  lemma UntouchedKeepsOrderly(a: Addr, base: seq<Option<Id>>, s: State, q: Queue)
    requires Orderly(a, base, s) && Untouched(a, Line(base, s.log, s.ids), s.q, q)
    ensures Orderly(a, base, s.(q := q))
  {
    UntouchedKeepsPhase(a, Line(base, s.log, s.ids), |s.log|, s.q, q, s.worker);
  }

  // ---- Claims and returns ----

  // Rewriting a row of the line keeps the line, if the copy agrees with it on sender and age.
  lemma PutKeepsLine(a: Addr, line: seq<Id>, q: Queue, rec: Record)
    requires InLine(a, line, q) && rec.id in line
    requires rec.sender == a && rec.createdAt == q.rows[rec.id].createdAt && (IsWaiting(rec) || IsClaimed(rec))
    ensures InLine(a, line, Put(q, rec))
  {
  }

  // Every queued row of the sender stands in the line.
  ghost predicate QueuedInLine(a: Addr, line: seq<Id>, q: Queue) {
    forall id :: id in q.rows && QueuedFor(q.rows[id], a) ==> id in line
  }

  // The next claim takes the first waiting row of the line.
  lemma ClaimsHeadOfLine(a: Addr, line: seq<Id>, n: nat, q: Queue, w: Worker, id: Id)
    requires InLine(a, line, q) && QueuedInLine(a, line, q) && IsOldest(q, a, id)
    requires Flowing(a, line, n, q, w) && w.producer.Claiming?
    ensures |Holds(w)| < |line| && line[|Holds(w)|] == id
  {
    var m := |Holds(w)|;
    var j :| 0 <= j < |line| && line[j] == id;
    forall i | 0 <= i < m ensures line[i] != id {
      assert InPlace(a, line, n, q, Holds(w)[i], i, IsSent(w, i));
    }
    assert QueuedFor(q.rows[line[m]], a);
    assert line[m] != id ==> Older(q.rows[id], q.rows[line[m]]);
  }

  lemma ClaimKeepsLine(a: Addr, line: seq<Id>, q: Queue, id: Id, now: Time)
    requires InLine(a, line, q) && IsOldest(q, a, id) && id in line
    ensures InLine(a, line, Claim(q, a, id, now))
  {
  }

  // ---- The producer while the consumer submits ----

  lemma ClaimFlows(a: Addr, line: seq<Id>, n: nat, q: Queue, w: Worker, id: Id, now: Time)
    requires InLine(a, line, q) && QueuedInLine(a, line, q) && WellKeyed(q.rows)
    requires Healthy(w.consumer) && Flowing(a, line, n, q, w) && w.producer.Claiming? && IsOldest(q, a, id)
    ensures var q' := Claim(q, a, id, now);
            InLine(a, line, q') && Flowing(a, line, n, q', w.(producer := Preparing(q'.rows[id])))
  {
    var q' := Claim(q, a, id, now);
    var w' := w.(producer := Preparing(q'.rows[id]));
    ClaimsHeadOfLine(a, line, n, q, w, id);
    ClaimKeepsLine(a, line, q, id, now);
    assert Holds(w') == Holds(w) + [q'.rows[id]];
    forall i | 0 <= i < |Holds(w')| ensures InPlace(a, line, n, q', Holds(w')[i], i, IsSent(w', i)) {
      if i < |Holds(w)| {
        assert InPlace(a, line, n, q, Holds(w)[i], i, IsSent(w, i));
      }
    }
  }

  // The claim that a stopping producer never sees.
  lemma LostClaimFlows(a: Addr, line: seq<Id>, n: nat, q: Queue, w: Worker, id: Id, now: Time)
    requires InLine(a, line, q) && QueuedInLine(a, line, q) && WellKeyed(q.rows)
    requires Healthy(w.consumer) && Flowing(a, line, n, q, w) && w.producer.Claiming? && IsOldest(q, a, id)
    ensures InLine(a, line, Claim(q, a, id, now))
    ensures Flowing(a, line, n, Claim(q, a, id, now), w.(producer := Exited))
  {
    var q' := Claim(q, a, id, now);
    var w' := w.(producer := Exited);
    ClaimsHeadOfLine(a, line, n, q, w, id);
    ClaimKeepsLine(a, line, q, id, now);
    assert Holds(w') == Holds(w);
    forall i | 0 <= i < |Holds(w')| ensures InPlace(a, line, n, q', Holds(w')[i], i, IsSent(w', i)) {
      assert InPlace(a, line, n, q, Holds(w)[i], i, IsSent(w, i));
    }
  }

  // A write to a row at place j leaves the other places as they are.
  lemma OthersStayInPlace(a: Addr, line: seq<Id>, n: nat, q: Queue, rec: Record, held: Record, i: nat, sent: bool)
    requires NoRepeats(line) && InPlace(a, line, n, q, held, i, sent) && rec.id in line && rec.id != line[i]
    ensures InPlace(a, line, n, Put(q, rec), held, i, sent)
  {
  }

  // Giving the last held row back leaves the others in place.
  lemma OthersStayAllInPlace(a: Addr, line: seq<Id>, n: nat, q: Queue, w: Worker, w': Worker, rec: Record, now: Time)
    requires InLine(a, line, q) && AllInPlace(a, line, n, q, w)
    requires Holds(w) == Holds(w') + [rec] && w'.consumer == w.consumer
    ensures AllInPlace(a, line, n, Put(q, Requeued(rec, now)), w')
  {
    var last := |Holds(w')|;
    assert Holds(w)[last] == rec && InPlace(a, line, n, q, rec, last, IsSent(w, last));
    forall i | 0 <= i < last ensures InPlace(a, line, n, Put(q, Requeued(rec, now)), Holds(w')[i], i, IsSent(w', i)) {
      assert Holds(w)[i] == Holds(w')[i] && InPlace(a, line, n, q, Holds(w)[i], i, IsSent(w, i));
      OthersStayInPlace(a, line, n, q, Requeued(rec, now), Holds(w)[i], i, IsSent(w, i));
    }
  }

  lemma GiveBackFlows(a: Addr, line: seq<Id>, n: nat, q: Queue, w: Worker, rec: Record, quit: bool, now: Time)
    requires InLine(a, line, q) && Healthy(w.consumer) && Flowing(a, line, n, q, w)
    requires w.producer == Mending([GiveBack(rec)], quit)
    ensures rec.seqNum.Some?
    ensures var q' := Put(q, Requeued(rec, now));
            InLine(a, line, q') && Flowing(a, line, n, q', w.(producer := Mending([ReleaseOne], quit)))
  {
    var w' := w.(producer := Mending([ReleaseOne], quit));
    var last := |Holds(w')|;
    assert Holds(w)[last] == rec && InPlace(a, line, n, q, rec, last, IsSent(w, last));
    PutKeepsLine(a, line, q, Requeued(rec, now));
    OthersStayAllInPlace(a, line, n, q, w, w', rec, now);
  }

  lemma ReleaseFlows(a: Addr, line: seq<Id>, n: nat, q: Queue, w: Worker, quit: bool)
    requires InLine(a, line, q) && Healthy(w.consumer) && Flowing(a, line, n, q, w)
    requires w.producer == Mending([ReleaseOne], quit)
    ensures InLine(a, line, Release(q, a)) && Flowing(a, line, n, Release(q, a), w.(producer := Mending([], quit)))
  {
    var w' := w.(producer := Mending([], quit));
    assert Holds(w') == Holds(w);
    forall i | 0 <= i < |Holds(w')| ensures InPlace(a, line, n, Release(q, a), Holds(w')[i], i, IsSent(w', i)) {
      assert InPlace(a, line, n, q, Holds(w)[i], i, IsSent(w, i));
    }
  }

  // The remaining steps of the producer touch no row, and change a held copy only in its attempts.
  lemma HeldAfterMove(a: Addr, depth: nat, q: Queue, w: Worker, p: ProducerStep)
    requires ProducerEnabled(a, depth, q, w, p) && ProducerCalm(w.producer)
    requires !p.ClaimNext? && !p.ClaimLost? && !p.ProducerRun? && !p.PreparePermanent?
    ensures var held, held' := Holds(w), Holds(ProducerApply(a, depth, q, w, p));
            && |held'| == |held|
            && (forall i :: 0 <= i < |held| ==> held'[i] == held[i] || held'[i] == Attempted(held[i]))
  {
    if p.Send? {
      SendKeepsHolds(w);
    }
  }

  lemma CopiesStayInPlace(a: Addr, line: seq<Id>, n: nat, q: Queue, w: Worker, w': Worker)
    requires AllInPlace(a, line, n, q, w) && w'.consumer == w.consumer && |Holds(w')| == |Holds(w)|
    requires forall i :: 0 <= i < |Holds(w)| ==> Holds(w')[i] == Holds(w)[i] || Holds(w')[i] == Attempted(Holds(w)[i])
    ensures AllInPlace(a, line, n, q, w')
  {
    forall i | 0 <= i < |Holds(w')| ensures InPlace(a, line, n, q, Holds(w')[i], i, IsSent(w', i)) {
      assert InPlace(a, line, n, q, Holds(w)[i], i, IsSent(w, i));
    }
  }

  lemma ProducerMovesFlow(a: Addr, depth: nat, line: seq<Id>, n: nat, q: Queue, w: Worker, p: ProducerStep)
    requires Healthy(w.consumer) && Flowing(a, line, n, q, w) && ProducerEnabled(a, depth, q, w, p)
    requires !p.ClaimNext? && !p.ClaimLost? && !p.ProducerRun? && !p.PreparePermanent?
    ensures Flowing(a, line, n, q, ProducerApply(a, depth, q, w, p))
  {
    MovedProducerIsCalm(a, depth, q, w, p);
    HeldAfterMove(a, depth, q, w, p);
    SameClaimsFlow(a, line, n, q, w, ProducerApply(a, depth, q, w, p));
  }

  // A producer that holds the same rows and has lost no claim.
  lemma SameClaimsFlow(a: Addr, line: seq<Id>, n: nat, q: Queue, w: Worker, w': Worker)
    requires Flowing(a, line, n, q, w) && !w.producer.Exited? && w'.consumer == w.consumer
    requires ProducerCalm(w'.producer) && ProducerOwed(w'.producer) == ProducerOwed(w.producer)
    requires |Holds(w')| == |Holds(w)|
    requires forall i :: 0 <= i < |Holds(w)| ==> Holds(w')[i] == Holds(w)[i] || Holds(w')[i] == Attempted(Holds(w)[i])
    ensures Flowing(a, line, n, q, w')
  {
    CopiesStayInPlace(a, line, n, q, w, w');
    assert !IsLost(line, q, w');
  }

  lemma ProducerFlows(a: Addr, depth: nat, line: seq<Id>, n: nat, q: Queue, w: Worker, p: ProducerStep)
    requires InLine(a, line, q) && QueuedInLine(a, line, q) && WellKeyed(q.rows)
    requires Healthy(w.consumer) && Flowing(a, line, n, q, w)
    requires ProducerEnabled(a, depth, q, w, p) && CalmStep(n, Prod(p)) && LosesNoClaim(w, p)
    ensures var q' := ProducerQueue(a, q, w, p);
            InLine(a, line, q') && Flowing(a, line, n, q', ProducerApply(a, depth, q, w, p))
  {
    match p {
      case ClaimNext(id, now) => ClaimFlows(a, line, n, q, w, id, now);
      case ClaimLost(id, now) => LostClaimFlows(a, line, n, q, w, id, now);
      case ProducerRun(_, now) =>
        var quit := w.producer.quit;
        if w.producer.script[0].GiveBack? {
          assert w.producer == Mending([GiveBack(w.producer.script[0].rec)], quit);
          GiveBackFlows(a, line, n, q, w, w.producer.script[0].rec, quit, now);
          assert Follow(w.producer.script[0], []) + w.producer.script[1..] == [ReleaseOne];
        } else {
          assert w.producer == Mending([ReleaseOne], quit);
          ReleaseFlows(a, line, n, q, w, quit);
          assert Follow(w.producer.script[0], []) + w.producer.script[1..] == [];
        }
      case _ => ProducerMovesFlow(a, depth, line, n, q, w, p);
    }
  }

  // ---- The consumer while it submits ----

  // In a flowing pipeline the claimed rows are the held ones and a lost one.
  lemma HeldAreOut(a: Addr, line: seq<Id>, n: nat, q: Queue, w: Worker)
    requires InLine(a, line, q) && Flowing(a, line, n, q, w)
    ensures ClaimCount(line, q, w) <= |line| && |Out(line, q)| == ClaimCount(line, q, w)
    ensures forall i :: 0 <= i < ClaimCount(line, q, w) ==> line[i] in Out(line, q)
    ensures forall id :: id in Out(line, q) ==> exists i :: 0 <= i < ClaimCount(line, q, w) && line[i] == id
  {
    var m := ClaimCount(line, q, w);
    forall i | 0 <= i < m ensures line[i] in Out(line, q) {
      if i < |Holds(w)| {
        assert InPlace(a, line, n, q, Holds(w)[i], i, IsSent(w, i));
      }
    }
    DistinctCount(line[..m]);
    assert Out(line, q) == set i | 0 <= i < m :: line[..m][i];
  }

  // The first failure turns everything held into something to give back.
  lemma HeldAreAccounted(a: Addr, line: seq<Id>, n: nat, q: Queue, w: Worker, back: seq<Record>)
    requires InLine(a, line, q) && Flowing(a, line, n, q, w)
    requires |back| == |Holds(w)|
    requires forall i :: 0 <= i < |back| ==> back[i].id == line[i] && Returnable(a, q, back[i])
    ensures Accounted(a, line, n, q, back, ProducerOwed(w.producer))
  {
    HeldAreOut(a, line, n, q, w);
  }

  lemma HeldAreUnhashed(a: Addr, line: seq<Id>, n: nat, q: Queue, w: Worker, id: Id)
    requires InLine(a, line, q) && Flowing(a, line, n, q, w) && id in Out(line, q)
    ensures q.rows[id].hash == "" || (w.consumer.Submitting? && id == line[0])
  {
    HeldAreOut(a, line, n, q, w);
    var i :| 0 <= i < ClaimCount(line, q, w) && line[i] == id;
    if i < |Holds(w)| {
      assert InPlace(a, line, n, q, Holds(w)[i], i, IsSent(w, i));
    }
  }

  lemma FailureUnwinds(a: Addr, line: seq<Id>, n: nat, q: Queue, w: Worker, w': Worker)
    requires InLine(a, line, q) && Healthy(w.consumer) && Flowing(a, line, n, q, w)
    requires w'.consumer.Cleanup? && w'.consumer.stage == Failing && w'.producer == w.producer
    requires |w'.consumer.script| <= 1 && forall i :: 0 <= i < |w'.consumer.script| ==> w'.consumer.script[i].GiveBack?
    requires |Returning(w')| == |Holds(w)|
    requires forall i :: 0 <= i < |Holds(w)| ==> Returning(w')[i].id == line[i] && Returnable(a, q, Returning(w')[i])
    requires w.consumer.Submitting? ==> |w'.consumer.script| == 1 && w'.consumer.script[0].rec.id == line[0]
    ensures Unwinding(a, line, n, q, w')
  {
    HeldAreAccounted(a, line, n, q, w, Returning(w'));
    var script := w'.consumer.script;
    forall id | id in Out(line, q) ensures q.rows[id].hash == "" || IsAbout(ToReturn(script), id) {
      HeldAreUnhashed(a, line, n, q, w, id);
      if |script| == 1 {
        assert ToReturn(script)[0] == script[0].rec;
      }
    }
  }

  lemma HashPersistedHolds(w: Worker)
    requires w.consumer.Persisting?
    ensures |Holds(w)| > 0 && Holds(w)[0] == w.consumer.item.rec
    ensures var item := w.consumer.item;
            var rec' := item.rec.(hash := item.hash);
            Holds(w.(consumer := Submitting(item.(rec := rec')))) == [rec'] + Holds(w)[1..]
  {
  }

  // The hash is persisted on the head of the line; the others stay where they are.
  lemma HashPersistedInPlace(a: Addr, line: seq<Id>, n: nat, q: Queue, w: Worker, rec: Record, w': Worker)
    requires InLine(a, line, q) && AllInPlace(a, line, n, q, w) && |Holds(w)| > 0 && w.consumer.Persisting?
    requires w'.consumer.Submitting? && Holds(w') == [w'.consumer.item.rec] + Holds(w)[1..]
    requires w'.consumer.item.rec == Holds(w)[0].(hash := rec.hash)
    requires rec == Holds(w)[0].(hash := rec.hash, updatedAt := rec.updatedAt) && rec.status == Processing
    ensures AllInPlace(a, line, n, Put(q, rec), w')
  {
    assert InPlace(a, line, n, q, Holds(w)[0], 0, IsSent(w, 0));
    forall i | 0 <= i < |Holds(w')| ensures InPlace(a, line, n, Put(q, rec), Holds(w')[i], i, IsSent(w', i)) {
      if i > 0 {
        assert Holds(w')[i] == Holds(w)[i] && InPlace(a, line, n, q, Holds(w)[i], i, IsSent(w, i));
        OthersStayInPlace(a, line, n, q, rec, Holds(w)[i], i, IsSent(w, i));
      }
    }
  }

  lemma PersistFlows(a: Addr, line: seq<Id>, n: nat, q: Queue, w: Worker, now: Time)
    requires InLine(a, line, q) && Flowing(a, line, n, q, w) && w.consumer.Persisting?
    requires Holds(w)[0].status == Processing
    ensures var item := w.consumer.item;
            var q' := Put(q, item.rec.(hash := item.hash, updatedAt := now));
            && InLine(a, line, q')
            && Flowing(a, line, n, q', w.(consumer := Submitting(item.(rec := item.rec.(hash := item.hash)))))
  {
    var item := w.consumer.item;
    var rec := item.rec.(hash := item.hash, updatedAt := now);
    var w' := w.(consumer := Submitting(item.(rec := item.rec.(hash := item.hash))));
    HashPersistedHolds(w);
    assert InPlace(a, line, n, q, item.rec, 0, IsSent(w, 0));
    PutKeepsLine(a, line, q, rec);
    HashPersistedInPlace(a, line, n, q, w, rec, w');
  }

  lemma AcceptMovesUp(a: Addr, line: seq<Id>, n: nat, q: Queue, w: Worker, w': Worker, line': seq<Id>, n': nat)
    requires AllInPlace(a, line, n, q, w) && |Holds(w)| > 0 && Holds(w') == Holds(w)[1..]
    requires w.consumer.Submitting? && !w'.consumer.Submitting?
    requires |line| > 0 && line' == line[1..] && n' == n + 1
    ensures AllInPlace(a, line', n', q, w')
  {
    forall i | 0 <= i < |Holds(w')| ensures InPlace(a, line', n', q, Holds(w')[i], i, IsSent(w', i)) {
      assert InPlace(a, line, n, q, Holds(w)[i + 1], i + 1, IsSent(w, i + 1));
    }
  }

  lemma AcceptFlows(a: Addr, line: seq<Id>, n: nat, q: Queue, w: Worker, rec: Record, line': seq<Id>, n': nat)
    requires InLine(a, line, q) && Flowing(a, line, n, q, w) && w.consumer.Submitting?
    requires |line| > 0 && line' == line[1..] && n' == n + 1
    ensures InLine(a, line', q) && Flowing(a, line', n', q, w.(consumer := Recording(rec)))
  {
    var w' := w.(consumer := Recording(rec));
    FirstHeld(w);
    assert Holds(w') == Holds(w)[1..];
    AcceptMovesUp(a, line, n, q, w, w', line', n');
    assert IsLost(line', q, w') <==> IsLost(line, q, w);
  }

  lemma SubmitsHeadOfLine(a: Addr, line: seq<Id>, n: nat, q: Queue, w: Worker)
    requires Flowing(a, line, n, q, w) && (w.consumer.Submitting? || w.consumer.Persisting?)
    ensures |line| > 0 && line[0] == w.consumer.item.rec.id && w.consumer.item.rec.seqNum == Some(n)
  {
    assert Holds(w)[0] == w.consumer.item.rec && InPlace(a, line, n, q, Holds(w)[0], 0, IsSent(w, 0));
  }

  // A rejected or unpersisted item is given back, with everything behind it.
  lemma ItemFailureReturns(w: Worker, w': Worker, rec: Record)
    requires w.consumer.Persisting? || w.consumer.Submitting?
    requires w' == w.(consumer := Cleanup(Failing, [GiveBack(rec)]))
    ensures |Holds(w)| > 0 && Holds(w)[0] == w.consumer.item.rec && Returning(w') == [rec] + Holds(w)[1..]
  {
    assert [GiveBack(rec)][1..] == [];
    assert ToReturn([GiveBack(rec)]) == [rec];
  }

  lemma ItemFailureUnwinds(a: Addr, line: seq<Id>, n: nat, q: Queue, w: Worker)
    requires InLine(a, line, q) && Flowing(a, line, n, q, w) && (w.consumer.Persisting? || w.consumer.Submitting?)
    ensures var rec := Attempted(w.consumer.item.rec.(hash := ""));
            Unwinding(a, line, n, q, w.(consumer := Cleanup(Failing, [GiveBack(rec)])))
  {
    var rec := Attempted(w.consumer.item.rec.(hash := ""));
    var w' := w.(consumer := Cleanup(Failing, [GiveBack(rec)]));
    ItemFailureReturns(w, w', rec);
    FailureUnwinds(a, line, n, q, w, w');
  }

  lemma RecordFailureUnwinds(a: Addr, line: seq<Id>, n: nat, q: Queue, w: Worker)
    requires InLine(a, line, q) && Flowing(a, line, n, q, w) && w.consumer.Recording?
    ensures Unwinding(a, line, n, q, w.(consumer := Cleanup(Failing, [])))
  {
    var w' := w.(consumer := Cleanup(Failing, []));
    assert Returning(w') == Holds(w);
    forall i | 0 <= i < |Holds(w)| ensures Returning(w')[i].id == line[i] && Returnable(a, q, Returning(w')[i]) {
      assert InPlace(a, line, n, q, Holds(w)[i], i, IsSent(w, i));
    }
    FailureUnwinds(a, line, n, q, w, w');
  }

  lemma ClosedReturnsNothing(w: Worker, w': Worker)
    requires w.consumer.Receiving? && w.channel == [] && w.producer.Exited?
    requires w' == w.(consumer := Cleanup(Sweeping, [ListOrphans]))
    ensures Holds(w) == [] && Returning(w') == [] && ToReturn([ListOrphans]) == []
  {
    assert [ListOrphans][1..] == [];
  }

  // Nothing but a lost claim is out, and its row carries no hash.
  lemma OnlyLostIsOut(a: Addr, line: seq<Id>, n: nat, q: Queue, w: Worker)
    requires InLine(a, line, q) && Flowing(a, line, n, q, w) && Holds(w) == [] && w.producer.Exited?
    requires w.consumer.Receiving?
    ensures HashesKnown(line, q, []) && Next(q, a) == n + |Out(line, q)|
  {
    HeldAreOut(a, line, n, q, w);
    forall id | id in Out(line, q) ensures q.rows[id].hash == "" {
      HeldAreUnhashed(a, line, n, q, w, id);
    }
  }

  lemma CloseUnwinds(a: Addr, line: seq<Id>, n: nat, q: Queue, w: Worker)
    requires InLine(a, line, q) && Flowing(a, line, n, q, w)
    requires w.consumer.Receiving? && w.channel == [] && w.producer.Exited?
    ensures Unwinding(a, line, n, q, w.(consumer := Cleanup(Sweeping, [ListOrphans])))
  {
    var w' := w.(consumer := Cleanup(Sweeping, [ListOrphans]));
    ClosedReturnsNothing(w, w');
    OnlyLostIsOut(a, line, n, q, w);
    SweepUnwinds(a, line, n, q, w');
  }

  lemma SweepUnwinds(a: Addr, line: seq<Id>, n: nat, q: Queue, w: Worker)
    requires w.consumer.Cleanup? && w.consumer.stage == Sweeping && w.consumer.script == [ListOrphans]
    requires w.channel == [] && w.producer.Exited? && Returning(w) == []
    requires HashesKnown(line, q, []) && Next(q, a) == n + |Out(line, q)|
    ensures Unwinding(a, line, n, q, w)
  {
    var back, script := Returning(w), w.consumer.script;
    assert Owed(script) + ProducerOwed(w.producer) == 0;
    assert Accounted(a, line, n, q, back, 0);
    ListScript();
    assert HashesKnown(line, q, ToReturn(script));
    assert ToList(n, script) && ScriptCalm(n, Sweeping, script);
  }

  lemma RecordFlows(a: Addr, line: seq<Id>, n: nat, q: Queue, w: Worker, now: Time)
    requires InLine(a, line, q) && Flowing(a, line, n, q, w) && w.consumer.Recording? && w.consumer.rec.id !in line
    ensures var q' := Put(q, w.consumer.rec.(updatedAt := now));
            InLine(a, line, q') && Flowing(a, line, n, q', w.(consumer := Receiving))
  {
    var q' := Put(q, w.consumer.rec.(updatedAt := now));
    UntouchedKeepsPhase(a, line, n, q, q', Some(w));
    var w' := w.(consumer := Receiving);
    assert Holds(w') == Holds(w);
    forall i | 0 <= i < |Holds(w')| ensures InPlace(a, line, n, q', Holds(w')[i], i, IsSent(w', i)) {
      assert InPlace(a, line, n, q', Holds(w)[i], i, IsSent(w, i));
    }
  }

  lemma ReceiveFlows(a: Addr, line: seq<Id>, n: nat, q: Queue, w: Worker)
    requires Flowing(a, line, n, q, w) && w.consumer.Receiving? && |w.channel| > 0
    ensures Flowing(a, line, n, q, w.(consumer := Persisting(w.channel[0]), channel := w.channel[1..]))
  {
    var w' := w.(consumer := Persisting(w.channel[0]), channel := w.channel[1..]);
    ReceiveKeepsHolds(w);
    forall i | 0 <= i < |Holds(w')| ensures InPlace(a, line, n, q, Holds(w')[i], i, IsSent(w', i)) {
      assert InPlace(a, line, n, q, Holds(w)[i], i, IsSent(w, i));
    }
  }

  // A step of the submitting consumer other than an acceptance.
  lemma ConsumerFlows(a: Addr, line: seq<Id>, q: Queue, log: seq<Option<Id>>, w: Worker, c: ConsumerStep)
    requires InLine(a, line, q) && Healthy(w.consumer) && Flowing(a, line, |log|, q, w)
    requires forall i :: 0 <= i < |Holds(w)| ==> Holds(w)[i].status == Processing
    requires w.consumer.Recording? ==> w.consumer.rec.id !in line
    requires ConsumerEnabled(a, q, log, w, c) && CalmStep(|log|, Cons(c)) && !c.Accept?
    ensures var q' := ConsumerQueue(a, q, w, c);
            InLine(a, line, q') && Phase(a, line, |log|, q', Some(ConsumerApply(a, q, log, w, c)))
  {
    if w.consumer.Persisting? {
      assert Holds(w)[0] == w.consumer.item.rec && InPlace(a, line, |log|, q, Holds(w)[0], 0, IsSent(w, 0));
    }
    match c {
      case Receive => ReceiveFlows(a, line, |log|, q, w);
      case PipelineClosed => CloseUnwinds(a, line, |log|, q, w);
      case Persist(now) => PersistFlows(a, line, |log|, q, w, now);
      case PersistError => ItemFailureUnwinds(a, line, |log|, q, w);
      case Reject(_) => ItemFailureUnwinds(a, line, |log|, q, w);
      case RecordSubmitted(now) => RecordFlows(a, line, |log|, q, w, now);
      case RecordFailed => RecordFailureUnwinds(a, line, |log|, q, w);
      case _ =>
    }
  }

  // ---- Store steps after a failure ----

  lemma GiveBackAccounts(a: Addr, line: seq<Id>, n: nat, q: Queue, before: seq<Record>, rec: Record, after: seq<Record>,
                         owed: nat, now: Time)
    requires InLine(a, line, q) && Accounted(a, line, n, q, before + [rec] + after, owed)
    ensures rec.seqNum.Some?
    ensures var q' := Put(q, Requeued(rec, now));
            && InLine(a, line, q') && Out(line, q') == Out(line, q) - {rec.id}
            && Accounted(a, line, n, q', before + after, owed + 1)
            && (forall id :: id in Out(line, q') ==> q'.rows[id] == q.rows[id])
  {
    var q' := Put(q, Requeued(rec, now));
    var all, rest := before + [rec] + after, before + after;
    assert all[|before|] == rec;
    PutKeepsLine(a, line, q, Requeued(rec, now));
    assert Out(line, q') == Out(line, q) - {rec.id};
    forall i | 0 <= i < |rest| ensures rest[i].id in Out(line, q') && Returnable(a, q', rest[i]) {
      assert rest[i] == all[if i < |before| then i else i + 1];
    }
    DistinctWithout(before, rec, after);
  }

  lemma GiveBackFirstAccounts(a: Addr, line: seq<Id>, n: nat, q: Queue, rec: Record, after: seq<Record>,
                             owed: nat, now: Time)
    requires InLine(a, line, q) && Accounted(a, line, n, q, [rec] + after, owed)
    ensures rec.seqNum.Some?
    ensures var q' := Put(q, Requeued(rec, now));
            && InLine(a, line, q') && Out(line, q') == Out(line, q) - {rec.id}
            && Accounted(a, line, n, q', after, owed + 1)
            && (forall id :: id in Out(line, q') ==> q'.rows[id] == q.rows[id])
  {
    assert [] + [rec] + after == [rec] + after;
    assert [] + after == after;
    GiveBackAccounts(a, line, n, q, [], rec, after, owed, now);
  }

  lemma DistinctWithout(before: seq<Record>, rec: Record, after: seq<Record>)
    requires Distinct(before + [rec] + after)
    ensures Distinct(before + after)
  {
    var all, rest := before + [rec] + after, before + after;
    assert forall i :: 0 <= i < |rest| ==> rest[i] == all[if i < |before| then i else i + 1];
  }

  // A claim puts one more row out, unhashed, whether or not the producer gets to see it.
  lemma ClaimTakesOut(a: Addr, line: seq<Id>, q: Queue, id: Id, now: Time)
    requires InLine(a, line, q) && QueuedInLine(a, line, q) && IsOldest(q, a, id)
    ensures var q' := Claim(q, a, id, now);
            && id !in Out(line, q) && Out(line, q') == Out(line, q) + {id}
            && q'.rows[id].hash == "" && q'.rows[id].seqNum.Some? && q'.rows[id].createdAt == q.rows[id].createdAt
            && (forall j :: j in Out(line, q) ==> j in q'.rows && q'.rows[j] == q.rows[j])
  {
  }

  lemma ClaimKeepsAccount(a: Addr, line: seq<Id>, n: nat, q: Queue, back: seq<Record>, owed: nat, id: Id, now: Time)
    requires InLine(a, line, q) && QueuedInLine(a, line, q)
    requires Accounted(a, line, n, q, back, owed) && IsOldest(q, a, id)
    ensures Accounted(a, line, n, Claim(q, a, id, now), back, owed)
  {
    ClaimTakesOut(a, line, q, id, now);
  }

  lemma ClaimAccounts(a: Addr, line: seq<Id>, n: nat, q: Queue, back: seq<Record>, owed: nat, id: Id, now: Time)
    requires InLine(a, line, q) && QueuedInLine(a, line, q) && WellKeyed(q.rows)
    requires Accounted(a, line, n, q, back, owed) && IsOldest(q, a, id)
    ensures var q' := Claim(q, a, id, now);
            Accounted(a, line, n, q', back, owed) && Accounted(a, line, n, q', back + [q'.rows[id]], owed)
  {
    var q' := Claim(q, a, id, now);
    ClaimTakesOut(a, line, q, id, now);
    ClaimKeepsAccount(a, line, n, q, back, owed, id, now);
    AccountOneMore(a, line, n, q', back, owed, q'.rows[id]);
  }

  lemma AccountOneMore(a: Addr, line: seq<Id>, n: nat, q: Queue, back: seq<Record>, owed: nat, rec: Record)
    requires Accounted(a, line, n, q, back, owed)
    requires rec.id in Out(line, q) && Returnable(a, q, rec)
    requires forall i :: 0 <= i < |back| ==> back[i].id != rec.id
    ensures Accounted(a, line, n, q, back + [rec], owed)
  {
  }

  lemma ClaimKeepsHashes(a: Addr, line: seq<Id>, q: Queue, recs: seq<Record>, id: Id, now: Time)
    requires InLine(a, line, q) && QueuedInLine(a, line, q) && IsOldest(q, a, id) && HashesKnown(line, q, recs)
    ensures HashesKnown(line, Claim(q, a, id, now), recs)
  {
    ClaimTakesOut(a, line, q, id, now);
  }

  lemma ReleaseAccounts(a: Addr, line: seq<Id>, n: nat, q: Queue, back: seq<Record>, owed: nat)
    requires InLine(a, line, q) && Accounted(a, line, n, q, back, owed + 1)
    ensures var q' := Release(q, a);
            && q'.rows == q.rows && InLine(a, line, q') && Out(line, q') == Out(line, q)
            && Accounted(a, line, n, q', back, owed)
  {
    assert Out(line, Release(q, a)) == Out(line, q);
  }

  lemma FewerOut(line: seq<Id>, q: Queue, q': Queue, rec: Record, recs: seq<Record>)
    requires Out(line, q') == Out(line, q) - {rec.id}
    requires forall id :: id in Out(line, q') ==> q'.rows[id] == q.rows[id]
    ensures HashesKnown(line, q, recs) ==> HashesKnown(line, q', recs)
    ensures HashesKnown(line, q, [rec] + recs) ==> HashesKnown(line, q', recs)
    ensures AllReturning(line, q, [rec] + recs) ==> AllReturning(line, q', recs)
  {
    forall id | id in Out(line, q') && IsAbout([rec] + recs, id) ensures IsAbout(recs, id) {
      var i :| 0 <= i < |[rec] + recs| && ([rec] + recs)[i].id == id;
      assert recs[i - 1].id == id;
    }
  }

  // ---- The producer after a failure ----

  lemma ClaimUnwinds(a: Addr, line: seq<Id>, n: nat, q: Queue, w: Worker, id: Id, now: Time, w': Worker)
    requires InLine(a, line, q) && QueuedInLine(a, line, q) && WellKeyed(q.rows)
    requires w.consumer.Cleanup? && Unwinding(a, line, n, q, w) && w.producer.Claiming? && IsOldest(q, a, id)
    requires w'.consumer == w.consumer && w'.channel == w.channel
    requires w'.producer.Exited? || w'.producer.Looping? || w'.producer == Preparing(Claim(q, a, id, now).rows[id])
    ensures Unwinding(a, line, n, Claim(q, a, id, now), w')
  {
    var back := Returning(w);
    ClaimAccounts(a, line, n, q, back, Owed(w.consumer.script), id, now);
    ClaimKeepsHashes(a, line, q, ToReturn(w.consumer.script), id, now);
    assert Returning(w') == back + ProducerHolds(w'.producer);
    assert !w'.producer.Preparing? ==> Returning(w') == back;
  }

  lemma ProducerReturnUnwinds(a: Addr, line: seq<Id>, n: nat, q: Queue, w: Worker, rec: Record, quit: bool, now: Time)
    requires InLine(a, line, q) && w.consumer.Cleanup? && Unwinding(a, line, n, q, w)
    requires w.producer == Mending([GiveBack(rec)], quit)
    ensures var q' := Put(q, Requeued(rec, now));
            && rec.seqNum.Some? && InLine(a, line, q')
            && Unwinding(a, line, n, q', w.(producer := Mending([ReleaseOne], quit)))
  {
    var back := Returning(w);
    var w' := w.(producer := Mending([ReleaseOne], quit));
    assert back == Returning(w') + [rec] + [] && Returning(w') + [] == Returning(w');
    GiveBackAccounts(a, line, n, q, Returning(w'), rec, [], Owed(w.consumer.script), now);
    FewerOut(line, q, Put(q, Requeued(rec, now)), rec, ToReturn(w.consumer.script));
  }

  lemma ProducerReleaseUnwinds(a: Addr, line: seq<Id>, n: nat, q: Queue, w: Worker, quit: bool)
    requires InLine(a, line, q) && w.consumer.Cleanup? && Unwinding(a, line, n, q, w)
    requires w.producer == Mending([ReleaseOne], quit)
    ensures InLine(a, line, Release(q, a)) && Unwinding(a, line, n, Release(q, a), w.(producer := Mending([], quit)))
  {
    ReleaseAccounts(a, line, n, q, Returning(w), Owed(w.consumer.script));
    assert Returning(w.(producer := Mending([], quit))) == Returning(w);
  }

  // A producer that returns the same claims, in copies that can be returned as well.
  lemma SameReturnsUnwind(a: Addr, line: seq<Id>, n: nat, q: Queue, w: Worker, w': Worker)
    requires w.consumer.Cleanup? && Unwinding(a, line, n, q, w) && w.consumer.stage != Sweeping
    requires w'.consumer == w.consumer && ProducerCalm(w'.producer)
    requires ProducerOwed(w.producer) == ProducerOwed(w'.producer)
    requires |Returning(w')| == |Returning(w)|
    requires forall i :: 0 <= i < |Returning(w)| ==>
               Returning(w')[i].id == Returning(w)[i].id && Returnable(a, q, Returning(w')[i])
    ensures Unwinding(a, line, n, q, w')
  {
    var back, back' := Returning(w), Returning(w');
    forall i, j | 0 <= i < j < |back'| ensures back'[i].id != back'[j].id {
      assert back[i].id != back[j].id;
    }
    forall i | 0 <= i < |back'| ensures back'[i].id in Out(line, q) {
      assert back[i].id in Out(line, q);
    }
  }

  lemma ReturnsAfterMove(a: Addr, depth: nat, q: Queue, w: Worker, p: ProducerStep)
    requires w.consumer.Cleanup? && ProducerEnabled(a, depth, q, w, p)
    requires !p.ClaimNext? && !p.ClaimLost? && !p.ProducerRun? && !p.PreparePermanent?
    ensures var back, back' := Returning(w), Returning(ProducerApply(a, depth, q, w, p));
            if p.PrepareTransient? then |back| > 0 && back' == back[..|back| - 1] + [Attempted(back[|back| - 1])]
            else back' == back
  {
    if p.Send? {
      SendKeepsHolds(w);
    } else if p.PrepareTransient? {
      assert Returning(w)[|Returning(w)| - 1] == w.producer.rec;
    }
  }

  lemma MovedReturnsFit(a: Addr, q: Queue, back: seq<Record>, back': seq<Record>)
    requires forall i :: 0 <= i < |back| ==> Returnable(a, q, back[i])
    requires back' == back || (|back| > 0 && back' == back[..|back| - 1] + [Attempted(back[|back| - 1])])
    ensures |back'| == |back|
    ensures forall i :: 0 <= i < |back| ==> back'[i].id == back[i].id && Returnable(a, q, back'[i])
  {
    forall i | 0 <= i < |back| ensures back'[i].id == back[i].id && Returnable(a, q, back'[i]) {
      assert Returnable(a, q, back[i]);
    }
  }

  lemma MovedProducerIsCalm(a: Addr, depth: nat, q: Queue, w: Worker, p: ProducerStep)
    requires ProducerEnabled(a, depth, q, w, p) && ProducerCalm(w.producer)
    requires !p.ClaimNext? && !p.ClaimLost? && !p.ProducerRun? && !p.PreparePermanent?
    ensures var w' := ProducerApply(a, depth, q, w, p);
            && !w.producer.Exited? && w'.consumer == w.consumer
            && ProducerCalm(w'.producer) && ProducerOwed(w.producer) == ProducerOwed(w'.producer)
  {
  }

  lemma AllReturnable(a: Addr, line: seq<Id>, n: nat, q: Queue, w: Worker)
    requires w.consumer.Cleanup? && Unwinding(a, line, n, q, w)
    ensures forall i :: 0 <= i < |Returning(w)| ==> Returnable(a, q, Returning(w)[i])
    ensures ProducerCalm(w.producer) && (w.consumer.stage == Sweeping ==> w.producer.Exited?)
  {
  }

  // The remaining steps of the producer touch no row.
  lemma ProducerMovesUnwind(a: Addr, depth: nat, line: seq<Id>, n: nat, q: Queue, w: Worker, p: ProducerStep)
    requires w.consumer.Cleanup? && Unwinding(a, line, n, q, w) && ProducerEnabled(a, depth, q, w, p)
    requires !p.ClaimNext? && !p.ClaimLost? && !p.ProducerRun? && !p.PreparePermanent?
    ensures Unwinding(a, line, n, q, ProducerApply(a, depth, q, w, p))
  {
    var w' := ProducerApply(a, depth, q, w, p);
    AllReturnable(a, line, n, q, w);
    MovedProducerIsCalm(a, depth, q, w, p);
    ReturnsAfterMove(a, depth, q, w, p);
    MovedReturnsFit(a, q, Returning(w), Returning(w'));
    SameReturnsUnwind(a, line, n, q, w, w');
  }

  lemma ProducerUnwinds(a: Addr, depth: nat, line: seq<Id>, n: nat, q: Queue, w: Worker, p: ProducerStep)
    requires InLine(a, line, q) && QueuedInLine(a, line, q) && WellKeyed(q.rows)
    requires w.consumer.Cleanup? && Unwinding(a, line, n, q, w)
    requires ProducerEnabled(a, depth, q, w, p) && CalmStep(n, Prod(p))
    ensures var q' := ProducerQueue(a, q, w, p);
            InLine(a, line, q') && Unwinding(a, line, n, q', ProducerApply(a, depth, q, w, p))
  {
    var w' := ProducerApply(a, depth, q, w, p);
    match p {
      case ClaimNext(id, now) =>
        ClaimKeepsLine(a, line, q, id, now);
        ClaimUnwinds(a, line, n, q, w, id, now, w');
      case ClaimLost(id, now) =>
        ClaimKeepsLine(a, line, q, id, now);
        ClaimUnwinds(a, line, n, q, w, id, now, w');
      case ProducerRun(_, now) =>
        var script := w.producer.script;
        assert script == [script[0]] && script[1..] == [];
        if script[0].GiveBack? {
          ProducerReturnUnwinds(a, line, n, q, w, script[0].rec, w.producer.quit, now);
          assert Follow(script[0], []) + script[1..] == [ReleaseOne];
        } else {
          ProducerReleaseUnwinds(a, line, n, q, w, w.producer.quit);
          assert Follow(script[0], []) + script[1..] == [];
        }
      case _ => ProducerMovesUnwind(a, depth, line, n, q, w, p);
    }
  }

  // ---- The consumer after a failure ----

  // Every unhashed claim of the sender stands in the line.
  ghost predicate UnhashedInLine(a: Addr, line: seq<Id>, q: Queue) {
    forall id :: id in q.rows && IsUnhashedClaim(q.rows[id], a) ==> id in line
  }

  lemma ScriptAfterReturn(n: nat, stage: Stage, rec: Record, rest: seq<Cmd>)
    requires ScriptCalm(n, stage, [GiveBack(rec)] + rest)
    ensures ScriptCalm(n, stage, [ReleaseOne] + rest) && !ToList(n, [GiveBack(rec)] + rest)
    ensures ToReturn([GiveBack(rec)] + rest) == [rec] + ToReturn(rest)
    ensures ToReturn([ReleaseOne] + rest) == ToReturn(rest)
    ensures forall c :: c in rest ==> c.GiveBack?
  {
    var script := [GiveBack(rec)] + rest;
    assert script[0] == GiveBack(rec) && script[1..] == rest && ([ReleaseOne] + rest)[1..] == rest;
    forall c | c in rest ensures c.GiveBack? {
      var i :| 0 <= i < |rest| && rest[i] == c;
      assert script[i + 1] == c;
    }
  }

  lemma ReturningAfterReturn(w: Worker, rec: Record, rest: seq<Cmd>)
    requires w.consumer.Cleanup? && w.consumer.script == [GiveBack(rec)] + rest
    ensures var w' := w.(consumer := Cleanup(w.consumer.stage, [ReleaseOne] + rest));
            Returning(w) == [rec] + Returning(w')
  {
    var script' := [ReleaseOne] + rest;
    assert w.consumer.script[1..] == rest && script'[1..] == rest;
    assert ToReturn(w.consumer.script) == [rec] + ToReturn(rest) && ToReturn(script') == ToReturn(rest);
  }

  lemma ReturnUnwinds(a: Addr, line: seq<Id>, n: nat, q: Queue, w: Worker, rec: Record, rest: seq<Cmd>, now: Time)
    requires InLine(a, line, q) && w.consumer.Cleanup? && Unwinding(a, line, n, q, w)
    requires w.consumer.script == [GiveBack(rec)] + rest
    ensures var q' := Put(q, Requeued(rec, now));
            && rec.seqNum.Some? && InLine(a, line, q')
            && Unwinding(a, line, n, q', w.(consumer := Cleanup(w.consumer.stage, [ReleaseOne] + rest)))
  {
    var q' := Put(q, Requeued(rec, now));
    var back' := Returning(w.(consumer := Cleanup(w.consumer.stage, [ReleaseOne] + rest)));
    ScriptAfterReturn(n, w.consumer.stage, rec, rest);
    ReturningAfterReturn(w, rec, rest);
    GiveBackFirstAccounts(a, line, n, q, rec, back', ProducerOwed(w.producer), now);
    FewerOut(line, q, q', rec, ToReturn(rest));
    FewerOut(line, q, q', rec, back');
  }

  lemma ReleaseScript(n: nat, w: Worker, rest: seq<Cmd>)
    requires w.consumer.Cleanup? && w.consumer.script == [ReleaseOne] + rest
    requires ScriptCalm(n, w.consumer.stage, w.consumer.script)
    ensures OnlyReturns(rest) && Owed(rest) == 0 && ScriptCalm(n, w.consumer.stage, rest)
    ensures ToReturn(w.consumer.script) == ToReturn(rest)
    ensures Returning(w.(consumer := Cleanup(w.consumer.stage, rest))) == Returning(w)
  {
    assert w.consumer.script[0] == ReleaseOne && w.consumer.script[1..] == rest;
    forall i | 0 <= i < |rest| ensures rest[i].GiveBack? {
      assert w.consumer.script[i + 1] == rest[i];
    }
  }

  lemma ConsumerReleaseUnwinds(a: Addr, line: seq<Id>, n: nat, q: Queue, w: Worker, rest: seq<Cmd>)
    requires InLine(a, line, q) && w.consumer.Cleanup? && Unwinding(a, line, n, q, w)
    requires w.consumer.script == [ReleaseOne] + rest
    ensures InLine(a, line, Release(q, a))
    ensures Unwinding(a, line, n, Release(q, a), w.(consumer := Cleanup(w.consumer.stage, rest)))
  {
    assert !ToList(n, w.consumer.script) by {
      assert w.consumer.script[0] == ReleaseOne;
    }
    ReleaseScript(n, w, rest);
    ReleaseAccounts(a, line, n, q, Returning(w), ProducerOwed(w.producer));
  }

  lemma GiveBacksReturn(listing: seq<Record>, script: seq<Cmd>)
    requires |script| == |listing| && forall i :: 0 <= i < |listing| ==> script[i] == GiveBack(listing[i])
    ensures ToReturn(script) == listing
    decreases |listing|
  {
    if |listing| > 0 {
      GiveBacksReturn(listing[1..], script[1..]);
    }
  }

  // The listing finds exactly the claims that nobody holds any more.
  lemma ListingIsOut(a: Addr, line: seq<Id>, n: nat, q: Queue, listing: seq<Record>)
    requires InLine(a, line, q) && UnhashedInLine(a, line, q) && HashesKnown(line, q, [])
    requires IsListing(q, a, ListOrphans, listing) && Next(q, a) == n + |Out(line, q)|
    ensures Accounted(a, line, n, q, listing, 0) && AllReturning(line, q, listing)
  {
    forall id | id in Out(line, q) ensures IsAbout(listing, id) {
      assert q.rows[id] in listing;
      var i :| 0 <= i < |listing| && listing[i] == q.rows[id];
      assert q.rows[listing[i].id] == listing[i];
    }
  }

  lemma ListingReturns(a: Addr, w: Worker, listing: seq<Record>)
    requires w.consumer == Cleanup(Sweeping, [ListOrphans]) && w.channel == [] && w.producer.Exited?
    ensures var script' := Follow(ListOrphans, listing);
            && ToReturn(script') == listing && OnlyReturns(script') && Owed(script') == 0
            && Returning(w.(consumer := Cleanup(Sweeping, script'))) == listing
    ensures ToReturn([ListOrphans]) == []
  {
    GiveBacksReturn(listing, Follow(ListOrphans, listing));
    assert [ListOrphans][1..] == [];
  }

  lemma ListingUnwinds(a: Addr, line: seq<Id>, n: nat, q: Queue, w: Worker, listing: seq<Record>)
    requires InLine(a, line, q) && UnhashedInLine(a, line, q) && WellKeyed(q.rows)
    requires w.consumer == Cleanup(Sweeping, [ListOrphans]) && Unwinding(a, line, n, q, w)
    requires IsListing(q, a, ListOrphans, listing)
    ensures Unwinding(a, line, n, q, w.(consumer := Cleanup(Sweeping, Follow(ListOrphans, listing))))
  {
    ListingReturns(a, w, listing);
    ListingIsOut(a, line, n, q, listing);
  }

  lemma CounterIsNotBelow(a: Addr, line: seq<Id>, n: nat, q: Queue, w: Worker, chainSeq: nat)
    requires w.consumer.Cleanup? && Unwinding(a, line, n, q, w) && chainSeq <= n
    ensures Raise(q, a, chainSeq) == q
  {
  }

  // A script that returns nothing can be replaced by another one.
  lemma NewScriptUnwinds(a: Addr, line: seq<Id>, n: nat, q: Queue, w: Worker, stage: Stage, script: seq<Cmd>)
    requires w.consumer.Cleanup? && Unwinding(a, line, n, q, w)
    requires ToReturn(w.consumer.script) == [] && Owed(w.consumer.script) == 0
    requires stage == Sweeping && ToList(n, script) && ToReturn(script) == [] && Owed(script) == 0
    requires w.channel == [] && w.producer.Exited?
    ensures Unwinding(a, line, n, q, w.(consumer := Cleanup(stage, script)))
  {
    assert Returning(w.(consumer := Cleanup(stage, script))) == Returning(w);
  }

  lemma ListScript()
    ensures ToReturn([ListOrphans]) == []
  {
    assert [ListOrphans][1..] == [];
  }

  lemma RaiseScript(n: nat, script: seq<Cmd>)
    requires |script| == 2 && script[0].RaiseTo? && script[1] == ListOrphans
    ensures script[1..] == [ListOrphans] && ToReturn(script) == []
  {
    assert script[1..] == [ListOrphans];
    ListScript();
  }

  lemma RaiseUnwinds(a: Addr, line: seq<Id>, n: nat, q: Queue, w: Worker)
    requires w.consumer.Cleanup? && Unwinding(a, line, n, q, w)
    requires |w.consumer.script| > 0 && w.consumer.script[0].RaiseTo?
    ensures w.consumer.script[1..] == [ListOrphans]
    ensures Unwinding(a, line, n, q, w.(consumer := Cleanup(w.consumer.stage, [ListOrphans])))
  {
    assert ToList(n, w.consumer.script) && w.consumer.stage == Sweeping;
    RaiseScript(n, w.consumer.script);
    ListScript();
    NewScriptUnwinds(a, line, n, q, w, Sweeping, [ListOrphans]);
  }

  // A command of the clean-up, and the script that it leaves.
  lemma ReturnCommandUnwinds(a: Addr, line: seq<Id>, n: nat, q: Queue, w: Worker, now: Time, left: seq<Cmd>)
    requires InLine(a, line, q) && w.consumer.Cleanup? && Unwinding(a, line, n, q, w)
    requires |w.consumer.script| > 0 && w.consumer.script[0].GiveBack?
    requires left == Follow(w.consumer.script[0], []) + w.consumer.script[1..]
    ensures var q' := Exec(q, a, w.consumer.script[0], now);
            InLine(a, line, q') && Unwinding(a, line, n, q', w.(consumer := Cleanup(w.consumer.stage, left)))
  {
    assert w.consumer.script == [w.consumer.script[0]] + w.consumer.script[1..];
    ReturnUnwinds(a, line, n, q, w, w.consumer.script[0].rec, w.consumer.script[1..], now);
  }

  lemma ReleaseCommandUnwinds(a: Addr, line: seq<Id>, n: nat, q: Queue, w: Worker, now: Time, left: seq<Cmd>)
    requires InLine(a, line, q) && w.consumer.Cleanup? && Unwinding(a, line, n, q, w)
    requires |w.consumer.script| > 0 && w.consumer.script[0].ReleaseOne? && left == w.consumer.script[1..]
    ensures var q' := Exec(q, a, w.consumer.script[0], now);
            InLine(a, line, q') && Unwinding(a, line, n, q', w.(consumer := Cleanup(w.consumer.stage, left)))
  {
    assert w.consumer.script == [ReleaseOne] + left;
    ConsumerReleaseUnwinds(a, line, n, q, w, left);
  }

  lemma RaiseCommandUnwinds(a: Addr, line: seq<Id>, n: nat, q: Queue, w: Worker, now: Time, left: seq<Cmd>)
    requires InLine(a, line, q) && w.consumer.Cleanup? && Unwinding(a, line, n, q, w)
    requires |w.consumer.script| > 0 && w.consumer.script[0].RaiseTo? && left == w.consumer.script[1..]
    ensures Exec(q, a, w.consumer.script[0], now) == q
    ensures Unwinding(a, line, n, q, w.(consumer := Cleanup(w.consumer.stage, left)))
  {
    CounterIsNotBelow(a, line, n, q, w, w.consumer.script[0].chainSeq);
    RaiseUnwinds(a, line, n, q, w);
  }

  lemma ListCommandUnwinds(a: Addr, line: seq<Id>, n: nat, q: Queue, w: Worker, listing: seq<Record>, left: seq<Cmd>)
    requires InLine(a, line, q) && UnhashedInLine(a, line, q) && WellKeyed(q.rows)
    requires w.consumer.Cleanup? && Unwinding(a, line, n, q, w)
    requires |w.consumer.script| > 0 && w.consumer.script[0] == ListOrphans && IsListing(q, a, ListOrphans, listing)
    requires left == Follow(ListOrphans, listing) + w.consumer.script[1..]
    ensures Unwinding(a, line, n, q, w.(consumer := Cleanup(w.consumer.stage, left)))
  {
    assert w.consumer.script == [ListOrphans] && w.consumer.stage == Sweeping;
    assert left == Follow(ListOrphans, listing);
    ListingUnwinds(a, line, n, q, w, listing);
  }

  lemma FirstCommand(n: nat, stage: Stage, script: seq<Cmd>)
    requires ScriptCalm(n, stage, script) && |script| > 0
    ensures script[0].GiveBack? || script[0].ReleaseOne? || script[0].RaiseTo? || script[0] == ListOrphans
  {
  }

  lemma CommandUnwinds(a: Addr, line: seq<Id>, n: nat, q: Queue, w: Worker, now: Time, listing: seq<Record>,
                       left: seq<Cmd>, q': Queue, w': Worker)
    requires InLine(a, line, q) && UnhashedInLine(a, line, q) && WellKeyed(q.rows)
    requires w.consumer.Cleanup? && Unwinding(a, line, n, q, w) && |w.consumer.script| > 0
    requires if IsList(w.consumer.script[0]) then IsListing(q, a, w.consumer.script[0], listing) else listing == []
    requires left == Follow(w.consumer.script[0], listing) + w.consumer.script[1..]
    requires q' == Exec(q, a, w.consumer.script[0], now) && w' == w.(consumer := Cleanup(w.consumer.stage, left))
    ensures InLine(a, line, q') && Unwinding(a, line, n, q', w')
  {
    CalmCommand(a, line, n, q, w);
    if w.consumer.script[0].GiveBack? {
      ReturnCommandUnwinds(a, line, n, q, w, now, left);
    } else if w.consumer.script[0] == ListOrphans {
      ListCommandUnwinds(a, line, n, q, w, listing, left);
    } else {
      CounterCommandUnwinds(a, line, n, q, w, now, left);
    }
  }

  lemma CalmCommand(a: Addr, line: seq<Id>, n: nat, q: Queue, w: Worker)
    requires w.consumer.Cleanup? && Unwinding(a, line, n, q, w) && |w.consumer.script| > 0
    ensures var first := w.consumer.script[0];
            first.GiveBack? || first.ReleaseOne? || first.RaiseTo? || first == ListOrphans
  {
    FirstCommand(n, w.consumer.stage, w.consumer.script);
  }

  lemma CounterCommandUnwinds(a: Addr, line: seq<Id>, n: nat, q: Queue, w: Worker, now: Time, left: seq<Cmd>)
    requires InLine(a, line, q) && w.consumer.Cleanup? && Unwinding(a, line, n, q, w) && |w.consumer.script| > 0
    requires w.consumer.script[0].ReleaseOne? || w.consumer.script[0].RaiseTo?
    requires left == w.consumer.script[1..]
    ensures var q' := Exec(q, a, w.consumer.script[0], now);
            InLine(a, line, q') && Unwinding(a, line, n, q', w.(consumer := Cleanup(w.consumer.stage, left)))
  {
    if w.consumer.script[0].ReleaseOne? {
      ReleaseCommandUnwinds(a, line, n, q, w, now, left);
    } else {
      RaiseCommandUnwinds(a, line, n, q, w, now, left);
    }
  }

  // When the sweep is done, nothing is left to return: the counter stands at the chain's number.
  lemma FinishRests(a: Addr, line: seq<Id>, n: nat, q: Queue, w: Worker)
    requires InLine(a, line, q) && w.consumer == Cleanup(Sweeping, []) && Unwinding(a, line, n, q, w)
    ensures AtRest(a, line, n, q)
  {
    assert w.channel == [] && w.producer.Exited?;
    NothingOut(a, line, n, q, w);
    NobodyOutAllWait(a, line, q);
  }

  lemma NobodyOutAllWait(a: Addr, line: seq<Id>, q: Queue)
    requires InLine(a, line, q) && Out(line, q) == {}
    ensures AllWaiting(line, 0, q)
  {
    forall j | 0 <= j < |line| ensures line[j] in q.rows && IsWaiting(q.rows[line[j]]) {
      assert line[j] !in Out(line, q);
    }
  }

  lemma NothingOut(a: Addr, line: seq<Id>, n: nat, q: Queue, w: Worker)
    requires w.consumer == Cleanup(Sweeping, []) && Unwinding(a, line, n, q, w) && Returning(w) == []
    ensures Out(line, q) == {} && Next(q, a) == n
  {
    assert !ToList(n, w.consumer.script);
    assert ProducerOwed(w.producer) == 0;
    assert Out(line, q) == {} by {
      forall id ensures id !in Out(line, q) {
        assert id in Out(line, q) ==> IsAbout(Returning(w), id);
      }
    }
  }

  lemma DrainUnwinds(a: Addr, line: seq<Id>, n: nat, q: Queue, w: Worker)
    requires w.consumer == Cleanup(Draining, []) && |w.channel| > 0 && Unwinding(a, line, n, q, w)
    ensures Unwinding(a, line, n, q, w.(consumer := Cleanup(Draining, [GiveBack(w.channel[0].rec)]),
                                        channel := w.channel[1..]))
  {
    var script' := [GiveBack(w.channel[0].rec)];
    var w' := w.(consumer := Cleanup(Draining, script'), channel := w.channel[1..]);
    assert script'[1..] == [] && ToReturn(script') == [w.channel[0].rec];
    assert ChannelHolds(w.channel) == [w.channel[0].rec] + ChannelHolds(w.channel[1..]);
    assert Returning(w') == Returning(w);
  }

  lemma DrainedUnwinds(a: Addr, line: seq<Id>, n: nat, q: Queue, w: Worker, read: Option<nat>)
    requires w.consumer == Cleanup(Draining, []) && Unwinding(a, line, n, q, w)
    requires w.channel == [] && w.producer.Exited? && (read.Some? ==> read.value <= n)
    ensures var script' := (if read.Some? then [RaiseTo(read.value)] else []) + [ListOrphans];
            Unwinding(a, line, n, q, w.(consumer := Cleanup(Sweeping, script')))
  {
    SweepScript(n, read);
    NewScriptUnwinds(a, line, n, q, w, Sweeping, (if read.Some? then [RaiseTo(read.value)] else []) + [ListOrphans]);
  }

  lemma SweepScript(n: nat, read: Option<nat>)
    requires read.Some? ==> read.value <= n
    ensures var script := (if read.Some? then [RaiseTo(read.value)] else []) + [ListOrphans];
            ToList(n, script) && ToReturn(script) == [] && Owed(script) == 0
  {
    var script := (if read.Some? then [RaiseTo(read.value)] else []) + [ListOrphans];
    ListScript();
    if read.Some? {
      RaiseScript(n, script);
    } else {
      assert script == [ListOrphans];
    }
  }

  lemma ConsumerUnwinds(a: Addr, line: seq<Id>, q: Queue, log: seq<Option<Id>>, w: Worker, c: ConsumerStep)
    requires InLine(a, line, q) && UnhashedInLine(a, line, q) && WellKeyed(q.rows)
    requires w.consumer.Cleanup? && Unwinding(a, line, |log|, q, w)
    requires ConsumerEnabled(a, q, log, w, c) && CalmStep(|log|, Cons(c))
    ensures var q' := ConsumerQueue(a, q, w, c);
            InLine(a, line, q') &&
            Phase(a, line, |log|, q', if c.Finish? then None else Some(ConsumerApply(a, q, log, w, c)))
  {
    match c {
      case ConsumerRun(_, now, listing) =>
        CommandUnwinds(a, line, |log|, q, w, now, listing,
                       Follow(w.consumer.script[0], listing) + w.consumer.script[1..],
                       ConsumerQueue(a, q, w, c), ConsumerApply(a, q, log, w, c));
      case CancelProducer =>
        assert Returning(w.(consumer := Cleanup(Draining, []), cancelled := true)) == Returning(w);
      case DrainNext => DrainUnwinds(a, line, |log|, q, w);
      case DrainDone(read) => DrainedUnwinds(a, line, |log|, q, w, read);
      case Finish => FinishRests(a, line, |log|, q, w);
      case _ =>
    }
  }

  // ---- The theorem ----

  lemma LineHoldsTheRest(a: Addr, base: seq<Option<Id>>, s: State)
    requires Orderly(a, base, s) && Safe(a, s)
    ensures QueuedInLine(a, Line(base, s.log, s.ids), s.q) && UnhashedInLine(a, Line(base, s.log, s.ids), s.q)
  {
    var line := Line(base, s.log, s.ids);
    forall id | id in s.q.rows && s.q.rows[id].sender == a && !Settled(s.q.rows[id]) ensures id in line {
      AcceptedOrInLine(base, s, id);
    }
  }

  // A step that neither creates nor accepts a row keeps the order if it keeps the phase.
  lemma PhaseKeepsOrderly(a: Addr, base: seq<Option<Id>>, s: State, q: Queue, worker: Option<Worker>)
    requires Orderly(a, base, s)
    requires InLine(a, Line(base, s.log, s.ids), q) && Phase(a, Line(base, s.log, s.ids), |s.log|, q, worker)
    requires worker.Some? && worker.value.consumer.Recording? ==>
               s.worker.Some? && s.worker.value.consumer == worker.value.consumer
    ensures Orderly(a, base, s.(q := q, worker := worker))
  {
  }

  lemma ProducerKeepsPhase(a: Addr, depth: nat, line: seq<Id>, n: nat, q: Queue, w: Worker, p: ProducerStep)
    requires InLine(a, line, q) && QueuedInLine(a, line, q) && UnhashedInLine(a, line, q) && WellKeyed(q.rows)
    requires Phase(a, line, n, q, Some(w)) && ProducerEnabled(a, depth, q, w, p)
    requires CalmStep(n, Prod(p)) && LosesNoClaim(w, p)
    ensures var q' := ProducerQueue(a, q, w, p);
            InLine(a, line, q') && Phase(a, line, n, q', Some(ProducerApply(a, depth, q, w, p)))
  {
    if Healthy(w.consumer) {
      ProducerFlows(a, depth, line, n, q, w, p);
    } else {
      ProducerUnwinds(a, depth, line, n, q, w, p);
    }
  }

  lemma ProducerKeepsOrderly(a: Addr, base: seq<Option<Id>>, depth: nat, s: State, p: ProducerStep)
    requires Orderly(a, base, s) && Safe(a, s) && Enabled(a, depth, s, Prod(p)) && Calm(a, s, Prod(p))
    ensures Orderly(a, base, Apply(a, depth, s, Prod(p)))
  {
    var line, w := Line(base, s.log, s.ids), s.worker.value;
    LineHoldsTheRest(a, base, s);
    ProducerKeepsPhase(a, depth, line, |s.log|, s.q, w, p);
    PhaseKeepsOrderly(a, base, s, ProducerQueue(a, s.q, w, p), Some(ProducerApply(a, depth, s.q, w, p)));
  }

  lemma AcceptKeepsLog(base: seq<Option<Id>>, log: seq<Option<Id>>, ids: seq<Id>)
    requires InOrder(base, log, ids) && |Line(base, log, ids)| > 0
    ensures var log' := log + [Some(Line(base, log, ids)[0])];
            InOrder(base, log', ids) && Line(base, log', ids) == Line(base, log, ids)[1..]
  {
    var k := |log| - |base|;
    assert ids[..k + 1] == ids[..k] + [ids[k]];
    assert Somes(ids[..k + 1]) == Somes(ids[..k]) + [Some(ids[k])];
  }

  lemma AcceptKeepsOrderly(a: Addr, base: seq<Option<Id>>, depth: nat, s: State, hash: string)
    requires Orderly(a, base, s) && Safe(a, s) && Enabled(a, depth, s, Cons(Accept(hash)))
    ensures Orderly(a, base, Apply(a, depth, s, Cons(Accept(hash))))
  {
    var line, w := Line(base, s.log, s.ids), s.worker.value;
    var s' := Apply(a, depth, s, Cons(Accept(hash)));
    SubmitsHeadOfLine(a, line, |s.log|, s.q, w);
    AcceptKeepsLog(base, s.log, s.ids);
    LogGrows(s.log, Some(line[0]));
    assert s'.log == s.log + [Some(line[0])];
    AcceptFlows(a, line, |s.log|, s.q, w, s'.worker.value.consumer.rec, Line(base, s'.log, s'.ids), |s'.log|);
  }

  lemma ConsumerKeepsPhase(a: Addr, line: seq<Id>, q: Queue, log: seq<Option<Id>>, w: Worker, c: ConsumerStep)
    requires InLine(a, line, q) && QueuedInLine(a, line, q) && UnhashedInLine(a, line, q) && WellKeyed(q.rows)
    requires Phase(a, line, |log|, q, Some(w))
    requires ConsumerEnabled(a, q, log, w, c) && CalmStep(|log|, Cons(c)) && !c.Accept?
    requires forall i :: 0 <= i < |Holds(w)| ==> Holds(w)[i].status == Processing
    requires w.consumer.Recording? ==> w.consumer.rec.id !in line
    ensures var q' := ConsumerQueue(a, q, w, c);
            && InLine(a, line, q')
            && Phase(a, line, |log|, q', if c.Finish? then None else Some(ConsumerApply(a, q, log, w, c)))
  {
    if Healthy(w.consumer) {
      ConsumerFlows(a, line, q, log, w, c);
    } else {
      ConsumerUnwinds(a, line, q, log, w, c);
    }
  }

  lemma RecordedIsAccepted(a: Addr, base: seq<Option<Id>>, s: State)
    requires Orderly(a, base, s) && s.worker.Some? && s.worker.value.consumer.Recording?
    ensures s.worker.value.consumer.rec.id !in Line(base, s.log, s.ids)
  {
    AcceptedArePrefix(base, s.log, s.ids);
    AcceptedOrInLine(base, s, s.worker.value.consumer.rec.id);
  }

  lemma ConsumerKeepsOrderly(a: Addr, base: seq<Option<Id>>, depth: nat, s: State, c: ConsumerStep)
    requires Orderly(a, base, s) && Safe(a, s) && Enabled(a, depth, s, Cons(c)) && Calm(a, s, Cons(c)) && !c.Accept?
    ensures Orderly(a, base, Apply(a, depth, s, Cons(c)))
  {
    var line, w := Line(base, s.log, s.ids), s.worker.value;
    LineHoldsTheRest(a, base, s);
    if w.consumer.Recording? {
      RecordedIsAccepted(a, base, s);
    }
    ConsumerKeepsPhase(a, line, s.q, s.log, w, c);
    PhaseKeepsOrderly(a, base, s, ConsumerQueue(a, s.q, w, c),
                      if c.Finish? then None else Some(ConsumerApply(a, s.q, s.log, w, c)));
  }

  // In a calm run the assumptions of AcceptedAtMostOnce hold by themselves.
  lemma CalmIsAssumed(a: Addr, base: seq<Option<Id>>, depth: nat, s: State, step: Step)
    requires Orderly(a, base, s) && Enabled(a, depth, s, step) && Calm(a, s, step)
    ensures Assumed(a, s, step)
  {
    if step.Prod? && step.p.ClaimNext? && Healthy(s.worker.value.consumer) {
      var w := s.worker.value;
      forall i | 0 <= i < |Holds(w)| ensures Holds(w)[i].id != step.p.id {
        assert InPlace(a, Line(base, s.log, s.ids), |s.log|, s.q, Holds(w)[i], i, IsSent(w, i));
      }
    }
  }

  lemma AgentKeepsOrderly(a: Addr, base: seq<Option<Id>>, depth: nat, s: State, step: Step)
    requires Orderly(a, base, s) && Safe(a, s) && Enabled(a, depth, s, step) && Calm(a, s, step)
    ensures Orderly(a, base, Apply(a, depth, s, step))
  {
    if step.Env? {
      EnvKeepsOrderly(a, base, s, step.e);
    } else if step.Prod? {
      ProducerKeepsOrderly(a, base, depth, s, step.p);
    } else if step.c.Accept? {
      AcceptKeepsOrderly(a, base, depth, s, step.c.serverHash);
    } else {
      ConsumerKeepsOrderly(a, base, depth, s, step.c);
    }
  }

  lemma CalmStepKeepsOrderly(a: Addr, base: seq<Option<Id>>, depth: nat, s: State, step: Step)
    requires Orderly(a, base, s) && Safe(a, s) && Enabled(a, depth, s, step) && Calm(a, s, step)
    ensures Orderly(a, base, Apply(a, depth, s, step)) && Safe(a, Apply(a, depth, s, step))
  {
    CalmIsAssumed(a, base, depth, s, step);
    StepKeepsSafe(a, depth, s, step);
    AgentKeepsOrderly(a, base, depth, s, step);
  }

  lemma {:induction false} CalmRunKeepsOrderly(a: Addr, base: seq<Option<Id>>, depth: nat, p: (State, Step) -> bool,
                                               s: State, steps: seq<Step>)
    requires forall x, step :: p(x, step) ==> Calm(a, x, step)
    requires Orderly(a, base, s) && Safe(a, s) && IsRun(a, depth, s, steps) && Throughout(a, depth, p, s, steps)
    ensures Orderly(a, base, Final(a, depth, s, steps)) && Safe(a, Final(a, depth, s, steps))
    decreases |steps|
  {
    if |steps| > 0 {
      CalmStepKeepsOrderly(a, base, depth, s, steps[0]);
      CalmRunKeepsOrderly(a, base, depth, p, Apply(a, depth, s, steps[0]), steps[1..]);
    }
  }

  // A state that a calm run reaches from a sender without rows, whose counter agrees with the chain.
  ghost predicate ReachedCalmly(a: Addr, depth: nat, s0: State, steps: seq<Step>, s: State) {
    && Initial(a, s0) && Next(s0.q, a) == |s0.log|
    && IsRun(a, depth, s0, steps) && CalmRun(a, depth, s0, steps) && Final(a, depth, s0, steps) == s
  }

  lemma ReachedIsOrderly(a: Addr, depth: nat, s0: State, steps: seq<Step>, s: State)
    requires ReachedCalmly(a, depth, s0, steps, s)
    ensures Orderly(a, s0.log, s) && Safe(a, s)
  {
    assert s0.log + Somes(s0.ids[..0]) == s0.log;
    CalmRunKeepsOrderly(a, s0.log, depth, (x, step) => Calm(a, x, step), s0, steps);
  }

  // Whatever the depth, the chain has accepted exactly the oldest rows, in creation order, each
  // at the sequence number of its place in that order.
  lemma AcceptedInCreationOrder(a: Addr, depth: nat, s0: State, steps: seq<Step>, s: State)
    requires ReachedCalmly(a, depth, s0, steps, s)
    ensures |s0.log| <= |s.log| <= |s0.log| + |s.ids|
    ensures s.log == s0.log + Somes(s.ids[..|s.log| - |s0.log|])
  {
    ReachedIsOrderly(a, depth, s0, steps, s);
  }

  // Every number that is sent to the chain is the chain's next one, and belongs to the oldest
  // row not yet accepted; so the chain never answers with a sequence error.
  lemma EveryBroadcastIsNext(a: Addr, depth: nat, s0: State, steps: seq<Step>, s: State)
    requires ReachedCalmly(a, depth, s0, steps, s)
    requires s.worker.Some? && s.worker.value.consumer.Submitting?
    ensures var rec := s.worker.value.consumer.item.rec;
            && rec.seqNum == Some(|s.log|)
            && 0 <= |s.log| - |s0.log| < |s.ids| && rec.id == s.ids[|s.log| - |s0.log|]
  {
    ReachedIsOrderly(a, depth, s0, steps, s);
    SubmitsHeadOfLine(a, Line(s0.log, s.log, s.ids), |s.log|, s.q, s.worker.value);
  }

  // While nothing has failed, a held row has the number of its place in the creation order; so a
  // row that is claimed again after a failure gets the number it had before.
  lemma NumberIsRank(a: Addr, depth: nat, s0: State, steps: seq<Step>, s: State, i: nat)
    requires ReachedCalmly(a, depth, s0, steps, s)
    requires s.worker.Some? && Healthy(s.worker.value.consumer) && i < |Holds(s.worker.value)|
    ensures exists j :: && 0 <= j < |s.ids| && s.ids[j] == Holds(s.worker.value)[i].id
                        && Holds(s.worker.value)[i].seqNum == Some(|s0.log| + j)
  {
    ReachedIsOrderly(a, depth, s0, steps, s);
    var w, line := s.worker.value, Line(s0.log, s.log, s.ids);
    assert InPlace(a, line, |s.log|, s.q, Holds(w)[i], i, IsSent(w, i));
    assert s.ids[|s.log| - |s0.log| + i] == line[i];
  }

  // When a worker has cleaned up, however it ended, the counter is exactly the chain's next
  // number and every unaccepted row is queued without one.
  lemma FailureUnwindsExactly(a: Addr, depth: nat, s0: State, steps: seq<Step>, s: State)
    requires ReachedCalmly(a, depth, s0, steps, s)
    requires s.worker.None?
    ensures Next(s.q, a) == |s.log|
    ensures forall id :: id in s.ids && id !in Accepted(s.log) ==>
              id in s.q.rows && s.q.rows[id].status == Queued && s.q.rows[id].seqNum.None?
  {
    ReachedIsOrderly(a, depth, s0, steps, s);
    forall id | id in s.ids && id !in Accepted(s.log)
      ensures id in s.q.rows && s.q.rows[id].status == Queued && s.q.rows[id].seqNum.None?
    {
      AcceptedOrInLine(s0.log, s, id);
    }
  }

  lemma LastReturned(w: Worker)
    requires w.producer.Mending? && |w.producer.script| > 0 && w.producer.script[0].GiveBack?
    ensures |Returning(w)| > 0 && Returning(w)[|Returning(w)| - 1] == w.producer.script[0].rec
  {
  }

  // What a failed worker gives back is never an accepted row.
  lemma ReturnedIsInLine(a: Addr, line: seq<Id>, n: nat, q: Queue, w: Worker, i: int)
    requires w.consumer.Cleanup? && Unwinding(a, line, n, q, w)
    requires 0 <= i < |Returning(w)|
    ensures Returning(w)[i].id in line
  {
    assert Returning(w)[i].id in Out(line, q);
  }

  lemma ProducerLeavesOthers(a: Addr, depth: nat, line: seq<Id>, n: nat, q: Queue, w: Worker, p: ProducerStep, id: Id)
    requires w.consumer.Cleanup? && Unwinding(a, line, n, q, w)
    requires ProducerEnabled(a, depth, q, w, p) && CalmStep(n, Prod(p))
    requires QueuedInLine(a, line, q) && id !in line && id in q.rows
    ensures var q' := ProducerQueue(a, q, w, p); id in q'.rows && q'.rows[id] == q.rows[id]
  {
    if p.ProducerRun? && w.producer.script[0].GiveBack? {
      LastReturned(w);
      ReturnedIsInLine(a, line, n, q, w, |Returning(w)| - 1);
    }
  }

  lemma ConsumerLeavesOthers(a: Addr, line: seq<Id>, q: Queue, log: seq<Option<Id>>, w: Worker, c: ConsumerStep, id: Id)
    requires w.consumer.Cleanup? && Unwinding(a, line, |log|, q, w)
    requires ConsumerEnabled(a, q, log, w, c) && CalmStep(|log|, Cons(c))
    requires id !in line && id in q.rows
    ensures var q' := ConsumerQueue(a, q, w, c); id in q'.rows && q'.rows[id] == q.rows[id]
  {
    if c.ConsumerRun? && w.consumer.script[0].GiveBack? {
      ReturnedIsInLine(a, line, |log|, q, w, 0);
    }
  }

  // Meanwhile no step of the failed worker touches an accepted row.
  lemma CleanupLeavesAccepted(a: Addr, depth: nat, s0: State, steps: seq<Step>, s: State, step: Step, id: Id)
    requires ReachedCalmly(a, depth, s0, steps, s)
    requires s.worker.Some? && !Healthy(s.worker.value.consumer)
    requires Enabled(a, depth, s, step) && Calm(a, s, step) && !step.Env?
    requires id in Accepted(s.log) && id in s.q.rows
    ensures id in Apply(a, depth, s, step).q.rows && Apply(a, depth, s, step).q.rows[id] == s.q.rows[id]
  {
    ReachedIsOrderly(a, depth, s0, steps, s);
    LineHoldsTheRest(a, s0.log, s);
    AcceptedArePrefix(s0.log, s.log, s.ids);
    AcceptedOrInLine(s0.log, s, id);
    match step {
      case Prod(p) => ProducerLeavesOthers(a, depth, Line(s0.log, s.log, s.ids), |s.log|, s.q, s.worker.value, p, id);
      case Cons(c) => ConsumerLeavesOthers(a, Line(s0.log, s.log, s.ids), s.q, s.log, s.worker.value, c, id);
    }
  }

  // ---- Refinement of a one-at-a-time queue ----

  datatype OneAtATime = OneAtATime(accepted: seq<Option<Id>>, waiting: seq<Id>)

  ghost predicate OneAtATimeStep(f: OneAtATime, f': OneAtATime) {
    || f' == f
    || (exists id :: f' == f.(waiting := f.waiting + [id]))
    || (|f.waiting| > 0 && f' == OneAtATime(f.accepted + [Some(f.waiting[0])], f.waiting[1..]))
  }

  function Abstract(base: seq<Option<Id>>, s: State): OneAtATime
    requires |base| <= |s.log| <= |base| + |s.ids|
  {
    OneAtATime(s.log, Line(base, s.log, s.ids))
  }

  lemma EnqueueIsAbstract(base: seq<Option<Id>>, s: State, s': State, id: Id)
    requires |base| <= |s.log| <= |base| + |s.ids| && s'.log == s.log && s'.ids == s.ids + [id]
    ensures OneAtATimeStep(Abstract(base, s), Abstract(base, s'))
  {
    assert Line(base, s'.log, s'.ids) == Line(base, s.log, s.ids) + [id];
    assert Abstract(base, s') == Abstract(base, s).(waiting := Abstract(base, s).waiting + [id]);
  }

  lemma AcceptIsAbstract(base: seq<Option<Id>>, s: State, s': State)
    requires InOrder(base, s.log, s.ids) && |Line(base, s.log, s.ids)| > 0
    requires s'.log == s.log + [Some(Line(base, s.log, s.ids)[0])] && s'.ids == s.ids
    ensures |base| <= |s'.log| <= |base| + |s'.ids|
    ensures OneAtATimeStep(Abstract(base, s), Abstract(base, s'))
  {
    AcceptKeepsLog(base, s.log, s.ids);
  }

  lemma StutterIsAbstract(base: seq<Option<Id>>, s: State, s': State)
    requires |base| <= |s.log| <= |base| + |s.ids| && s'.log == s.log && s'.ids == s.ids
    ensures OneAtATimeStep(Abstract(base, s), Abstract(base, s'))
  {
  }

  // What a calm step adds to the history.
  lemma StepHistory(a: Addr, depth: nat, s: State, step: Step)
    requires Enabled(a, depth, s, step) && Calm(a, s, step)
    ensures var s' := Apply(a, depth, s, step);
            && s'.ids == (if step.Env? && step.e.Enqueue? then s.ids + [step.e.rec.id] else s.ids)
            && s'.log == (if step.Cons? && step.c.Accept? then s.log + [Some(s.worker.value.consumer.item.rec.id)]
                          else s.log)
  {
  }

  lemma ReachedInOrder(a: Addr, depth: nat, s0: State, steps: seq<Step>, s: State)
    requires ReachedCalmly(a, depth, s0, steps, s)
    ensures InOrder(s0.log, s.log, s.ids)
    ensures s.worker.Some? && s.worker.value.consumer.Submitting? ==>
              var line := Line(s0.log, s.log, s.ids);
              |line| > 0 && line[0] == s.worker.value.consumer.item.rec.id
  {
    ReachedIsOrderly(a, depth, s0, steps, s);
    if s.worker.Some? && s.worker.value.consumer.Submitting? {
      SubmitsHeadOfLine(a, Line(s0.log, s.log, s.ids), |s.log|, s.q, s.worker.value);
    }
  }

  // Every step of the pipeline enqueues a row, accepts the head of the queue, or does nothing
  // that a one-at-a-time queue could see.
  lemma RefinesOneAtATime(a: Addr, depth: nat, s0: State, steps: seq<Step>, s: State, step: Step)
    requires ReachedCalmly(a, depth, s0, steps, s)
    requires Enabled(a, depth, s, step) && Calm(a, s, step)
    ensures var s' := Apply(a, depth, s, step);
            && |s0.log| <= |s.log| <= |s0.log| + |s.ids| && |s0.log| <= |s'.log| <= |s0.log| + |s'.ids|
            && OneAtATimeStep(Abstract(s0.log, s), Abstract(s0.log, s'))
  {
    var s' := Apply(a, depth, s, step);
    StepHistory(a, depth, s, step);
    ReachedInOrder(a, depth, s0, steps, s);
    HistoryRefines(s0.log, s, s', step);
  }

  lemma HistoryRefines(base: seq<Option<Id>>, s: State, s': State, step: Step)
    requires InOrder(base, s.log, s.ids)
    requires step.Cons? && step.c.Accept? ==>
               var line := Line(base, s.log, s.ids); |line| > 0 && s'.log == s.log + [Some(line[0])]
    requires !(step.Cons? && step.c.Accept?) ==> s'.log == s.log
    requires s'.ids == if step.Env? && step.e.Enqueue? then s.ids + [step.e.rec.id] else s.ids
    ensures |base| <= |s.log| <= |base| + |s.ids| && |base| <= |s'.log| <= |base| + |s'.ids|
    ensures OneAtATimeStep(Abstract(base, s), Abstract(base, s'))
  {
    if step.Env? && step.e.Enqueue? {
      EnqueueIsAbstract(base, s, s', step.e.rec.id);
    } else if step.Cons? && step.c.Accept? {
      AcceptIsAbstract(base, s, s');
    } else {
      StutterIsAbstract(base, s, s');
    }
  }
}
