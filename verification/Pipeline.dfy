/**
 The sign-ahead pipeline of one sender as a step system.  Every access to the store, the
 chain or the channel is one step, so the steps of the producer, the consumer, the poller,
 the recovery loop and the request handler interleave freely.

 The chain is a log: it accepts exactly the sequence number equal to the log's length.
 An entry is the row it was broadcast for, or None for a transaction from outside.
 */
module Pipeline {
  import opened Types
  import opened QueueSpec

  // A signed transaction on its way to the chain; rec carries the sequence number.
  datatype Item = Item(rec: Record, hash: string)

  // The store calls that the failure paths make, one after another.
  datatype Cmd =
    | GiveBack(rec: Record)                    // requeue, then release if it held a number
    | ReleaseOne
    | Terminate(rec: Record)                   // mark failed, then shift if it held a number
    | ShiftAbove(failed: nat)
    | Adjust(chainSeq: nat, localSeq: nat)     // force-reset or raise the counter
    | ListSiblings(except: Id)                 // list the unhashed claims, then put each back
    | PutBack(rec: Record)                     // requeue without release
    | RaiseTo(chainSeq: nat)
    | ListOrphans                              // list the unhashed claims, then give each back

  datatype Producer =
    | Looping                                  // before the check for cancellation
    | Claiming
    | Preparing(rec: Record)
    | Sending(item: Item)
    | Mending(script: seq<Cmd>, quit: bool)
    | Exited

  datatype Stage = Failing | Draining | Sweeping

  datatype Consumer =
    | Receiving
    | Persisting(item: Item)
    | Submitting(item: Item)
    | Recording(rec: Record)
    | Cleanup(stage: Stage, script: seq<Cmd>)

  datatype Worker = Worker(producer: Producer, channel: seq<Item>, consumer: Consumer, cancelled: bool)

  // ids is the history of the sender's rows in the order of their creation; pending are the
  // broadcasts that a crash cut off, with their numbers, which the chain may still get to see.
  datatype State = State(q: Queue, log: seq<Option<Id>>, ids: seq<Id>, pending: map<Id, Option<nat>>,
                         worker: Option<Worker>)

  // ---- Steps ----

  datatype EnvStep =
    | Enqueue(rec: Record)
    | OtherSenders(q: Queue)
    | StaleRecovery(now: Time, cutoff: int)
    | PollerWrite(rec: Record, expected: Status)
    | Delete(id: Id)
    | ExternalTxn
    | LateAccept(id: Id)                       // the chain accepts a broadcast cut off by a crash
    | Start
    | Shutdown                                 // the worker's context is cancelled from outside
    | Crash

  datatype ProducerStep =
    | CheckCancelled
    | ClaimNext(id: Id, now: Time)
    | ClaimError
    | ClaimLost(id: Id, now: Time)             // committed, but the caller never sees it
    | Quit
    | Sign(hash: string)
    | PrepareTransient
    | PreparePermanent
    | Send
    | SendCancelled
    | ProducerRun(ok: bool, now: Time)
    | Mended

  datatype Rejection = Transient | Aged | SequenceMismatch(chainSeq: Option<nat>)

  datatype ConsumerStep =
    | Receive
    | PipelineClosed
    | Persist(now: Time)
    | PersistSkipped
    | PersistError
    | Accept(serverHash: string)
    | Reject(why: Rejection)
    | RecordSubmitted(now: Time)
    | RecordFailed
    | ConsumerRun(ok: bool, now: Time, listing: seq<Record>)
    | CancelProducer
    | DrainNext
    | DrainDone(chainSeq: Option<nat>)
    | Finish

  datatype Step = Env(e: EnvStep) | Prod(p: ProducerStep) | Cons(c: ConsumerStep)

  // ---- The store calls of the failure paths ----

  function Exec(q: Queue, a: Addr, c: Cmd, now: Time): Queue {
    match c
    case GiveBack(rec) => Put(q, Requeued(rec, now))
    case PutBack(rec) => Put(q, Requeued(rec, now))
    case Terminate(rec) => Put(q, rec.(status := Failed, updatedAt := now))
    case ReleaseOne => Release(q, a)
    case ShiftAbove(failed) => Shift(q, a, failed, now)
    case Adjust(chainSeq, localSeq) => Adjusted(q, a, localSeq, chainSeq)
    case RaiseTo(chainSeq) => Raise(q, a, chainSeq)
    case ListSiblings(_) => q
    case ListOrphans => q
  }

  // What a command leaves to be done; listing is what its list call returned.
  function Follow(c: Cmd, listing: seq<Record>): seq<Cmd> {
    match c
    case GiveBack(rec) => if rec.seqNum.Some? then [ReleaseOne] else []
    case Terminate(rec) => if rec.seqNum.Some? then [ShiftAbove(rec.seqNum.value)] else []
    case ListSiblings(_) => seq(|listing|, i requires 0 <= i < |listing| => PutBack(listing[i]))
    case ListOrphans => seq(|listing|, i requires 0 <= i < |listing| => GiveBack(listing[i]))
    case _ => []
  }

  predicate IsUnhashedClaim(r: Record, a: Addr) {
    r.sender == a && r.status == Processing && r.hash == ""
  }

  predicate IsList(c: Cmd) {
    c.ListSiblings? || c.ListOrphans?
  }

  // The listing holds every unhashed claim of the sender once, in any order.
  ghost predicate IsListing(q: Queue, a: Addr, c: Cmd, listing: seq<Record>) {
    && (forall i :: 0 <= i < |listing| ==>
          && listing[i].id in q.rows && q.rows[listing[i].id] == listing[i] && IsUnhashedClaim(listing[i], a)
          && (c.ListSiblings? ==> listing[i].id != c.except))
    && (forall i, j :: 0 <= i < j < |listing| ==> listing[i].id != listing[j].id)
    && (forall id :: id in q.rows && IsUnhashedClaim(q.rows[id], a) && (c.ListSiblings? ==> id != c.except) ==>
          q.rows[id] in listing)
  }

  // ---- The environment: handler, other senders, recovery loop, poller, retention, chain, crash ----

  ghost predicate EnvEnabled(a: Addr, s: State, e: EnvStep) {
    match e
    case Enqueue(rec) =>
      && rec.id !in s.ids && rec.id !in s.q.rows
      && rec.sender == a && rec.status == Queued && rec.seqNum.None? && rec.hash == ""
    case OtherSenders(q) =>
      && WellKeyed(q.rows)
      && (forall id :: id in s.ids ==>
            (id in q.rows <==> id in s.q.rows) && (id in q.rows ==> q.rows[id] == s.q.rows[id]))
      && (forall id :: id in q.rows && q.rows[id].sender == a ==> id in s.ids)
      && Next(q, a) == Next(s.q, a)
    case StaleRecovery(_, _) => true
    case PollerWrite(rec, expected) =>
      && rec.id in s.q.rows && s.q.rows[rec.id].status == expected
      && rec.sender == s.q.rows[rec.id].sender
      && (expected == Submitted || expected == Processing) && rec.status.IsTerminal()
    case Delete(id) => id in s.q.rows
    case ExternalTxn => true
    case LateAccept(id) => id in s.pending && s.pending[id] == Some(|s.log|)
    case Start => s.worker.None?
    case Shutdown => s.worker.Some?
    case Crash => s.worker.Some?
  }

  ghost function EnvApply(a: Addr, s: State, e: EnvStep): State {
    match e
    case Enqueue(rec) => s.(q := s.q.(rows := s.q.rows[rec.id := rec]), ids := s.ids + [rec.id])
    case OtherSenders(q) => s.(q := q)
    case StaleRecovery(now, cutoff) => s.(q := Recover(s.q, now, cutoff))
    case PollerWrite(rec, _) => s.(q := Put(s.q, rec))
    case Delete(id) => s.(q := s.q.(rows := s.q.rows - {id}))
    case ExternalTxn => s.(log := s.log + [None])
    case LateAccept(id) => s.(log := s.log + [Some(id)], pending := s.pending - {id})
    case Start => s.(worker := Some(Worker(Looping, [], Receiving, false)))
    case Shutdown => if s.worker.Some? then s.(worker := Some(s.worker.value.(cancelled := true))) else s
    case Crash => s.(worker := None, pending := s.pending + CutOff(s.worker))
  }

  // The broadcast that is under way.
  function CutOff(worker: Option<Worker>): map<Id, Option<nat>> {
    if worker.Some? && worker.value.consumer.Submitting? then
      map[worker.value.consumer.item.rec.id := worker.value.consumer.item.rec.seqNum]
    else map[]
  }

  // ---- The producer ----

  ghost predicate ProducerEnabled(a: Addr, depth: nat, q: Queue, w: Worker, p: ProducerStep) {
    match p
    case CheckCancelled => w.producer.Looping?
    case ClaimNext(id, _) => w.producer.Claiming? && IsOldest(q, a, id)
    case ClaimError => w.producer.Claiming?
    case ClaimLost(id, _) => w.producer.Claiming? && IsOldest(q, a, id)
    case Quit =>
      w.producer.Claiming? && (w.cancelled || forall id :: id in q.rows ==> !QueuedFor(q.rows[id], a))
    case Sign(hash) => w.producer.Preparing? && hash != "" && w.producer.rec.seqNum.Some?
    case PrepareTransient => w.producer.Preparing?
    case PreparePermanent => w.producer.Preparing?
    case Send => w.producer.Sending? && |w.channel| < depth
    case SendCancelled => w.producer.Sending? && w.cancelled
    case ProducerRun(_, _) => w.producer.Mending? && |w.producer.script| > 0
    case Mended => w.producer.Mending? && w.producer.script == []
  }

  ghost function ProducerQueue(a: Addr, q: Queue, w: Worker, p: ProducerStep): Queue {
    match p
    case ClaimNext(id, now) => if id in q.rows then Claim(q, a, id, now) else q
    case ClaimLost(id, now) => if id in q.rows then Claim(q, a, id, now) else q
    case ProducerRun(ok, now) =>
      if ok && w.producer.Mending? && |w.producer.script| > 0 then Exec(q, a, w.producer.script[0], now) else q
    case _ => q
  }

  ghost function ProducerApply(a: Addr, depth: nat, q: Queue, w: Worker, p: ProducerStep): Worker
    requires ProducerEnabled(a, depth, q, w, p)
  {
    match p
    case CheckCancelled => w.(producer := if w.cancelled then Exited else Claiming)
    case ClaimNext(id, now) => w.(producer := Preparing(Claim(q, a, id, now).rows[id]))
    case ClaimError => w.(producer := Looping)
    case ClaimLost(_, _) => w.(producer := if w.cancelled then Exited else Looping)
    case Quit => w.(producer := Exited)
    case Sign(hash) => w.(producer := Sending(Item(w.producer.rec, hash)))
    case PrepareTransient => w.(producer := Mending([GiveBack(Attempted(w.producer.rec))], false))
    case PreparePermanent => w.(producer := Mending([Terminate(w.producer.rec)], false))
    case Send => w.(producer := Looping, channel := w.channel + [w.producer.item])
    case SendCancelled => w.(producer := Mending([GiveBack(w.producer.item.rec)], true))
    case ProducerRun(_, _) =>
      w.(producer := Mending(Follow(w.producer.script[0], []) + w.producer.script[1..], w.producer.quit))
    case Mended => w.(producer := if w.producer.quit then Exited else Looping)
  }

  function Attempted(rec: Record): Record {
    rec.(attempts := rec.attempts + 1)
  }

  // ---- The consumer ----

  ghost predicate ConsumerEnabled(a: Addr, q: Queue, log: seq<Option<Id>>, w: Worker, c: ConsumerStep) {
    match c
    case Receive => w.consumer.Receiving? && |w.channel| > 0
    case PipelineClosed => w.consumer.Receiving? && w.channel == [] && w.producer.Exited?
    case Persist(_) => w.consumer.Persisting? && StillClaimed(q, w.consumer.item.rec.id)
    case PersistSkipped => w.consumer.Persisting? && !StillClaimed(q, w.consumer.item.rec.id)
    case PersistError => w.consumer.Persisting?
    case Accept(_) => w.consumer.Submitting? && w.consumer.item.rec.seqNum == Some(|log|)
    case Reject(_) => w.consumer.Submitting?
    case RecordSubmitted(_) => w.consumer.Recording? && w.consumer.rec.id in q.rows
    case RecordFailed => w.consumer.Recording?
    case ConsumerRun(ok, _, listing) =>
      && w.consumer.Cleanup? && |w.consumer.script| > 0
      && (if ok && IsList(w.consumer.script[0]) then IsListing(q, a, w.consumer.script[0], listing) else listing == [])
    case CancelProducer => w.consumer == Cleanup(Failing, [])
    case DrainNext => w.consumer == Cleanup(Draining, []) && |w.channel| > 0
    case DrainDone(_) => w.consumer == Cleanup(Draining, []) && w.channel == [] && w.producer.Exited?
    case Finish => w.consumer == Cleanup(Sweeping, [])
  }

  // The status check of the conditional write.
  predicate StillClaimed(q: Queue, id: Id) {
    id in q.rows && q.rows[id].status == Processing
  }

  function ConsumerQueue(a: Addr, q: Queue, w: Worker, c: ConsumerStep): Queue {
    match c
    case Persist(now) =>
      if w.consumer.Persisting? then
        Put(q, w.consumer.item.rec.(hash := w.consumer.item.hash, updatedAt := now))
      else q
    case RecordSubmitted(now) => if w.consumer.Recording? then Put(q, w.consumer.rec.(updatedAt := now)) else q
    case ConsumerRun(ok, now, _) =>
      if ok && w.consumer.Cleanup? && |w.consumer.script| > 0 then Exec(q, a, w.consumer.script[0], now) else q
    case _ => q
  }

  function ConsumerLog(log: seq<Option<Id>>, w: Worker, c: ConsumerStep): seq<Option<Id>> {
    if c.Accept? && w.consumer.Submitting? then log + [Some(w.consumer.item.rec.id)] else log
  }

  ghost function ConsumerApply(a: Addr, q: Queue, log: seq<Option<Id>>, w: Worker, c: ConsumerStep): Worker
    requires ConsumerEnabled(a, q, log, w, c)
  {
    match c
    case Receive => w.(consumer := Persisting(w.channel[0]), channel := w.channel[1..])
    case PipelineClosed => w.(consumer := Cleanup(Sweeping, [ListOrphans]))
    case Persist(_) =>
      var item := w.consumer.item;
      w.(consumer := Submitting(item.(rec := item.rec.(hash := item.hash))))
    case PersistSkipped => w.(consumer := Cleanup(Failing, []))
    case PersistError => w.(consumer := Cleanup(Failing, [GiveBack(Attempted(w.consumer.item.rec.(hash := "")))]))
    case Accept(serverHash) =>
      var item := w.consumer.item;
      w.(consumer := Recording(item.rec.(status := Submitted,
                                         hash := if serverHash != "" then serverHash else item.hash)))
    case Reject(why) => w.(consumer := Cleanup(Failing, AfterReject(w.consumer.item.rec.(hash := ""), why)))
    case RecordSubmitted(_) => w.(consumer := Receiving)
    case RecordFailed => w.(consumer := Cleanup(Failing, []))
    case ConsumerRun(_, _, listing) =>
      w.(consumer := Cleanup(w.consumer.stage, Follow(w.consumer.script[0], listing) + w.consumer.script[1..]))
    case CancelProducer => w.(consumer := Cleanup(Draining, []), cancelled := true)
    case DrainNext => w.(consumer := Cleanup(Draining, [GiveBack(w.channel[0].rec)]), channel := w.channel[1..])
    case DrainDone(chainSeq) =>
      w.(consumer := Cleanup(Sweeping, (if chainSeq.Some? then [RaiseTo(chainSeq.value)] else []) + [ListOrphans]))
    case Finish => w
  }

  function AfterReject(rec: Record, why: Rejection): seq<Cmd> {
    match why
    case Transient => [GiveBack(Attempted(rec))]
    case Aged => [Terminate(rec)]
    case SequenceMismatch(None) => [GiveBack(Attempted(rec))]
    case SequenceMismatch(Some(chainSeq)) =>
      [Adjust(chainSeq, if rec.seqNum.Some? then rec.seqNum.value else 0), ListSiblings(rec.id),
       PutBack(Attempted(rec))]
  }

  // ---- The system ----

  ghost predicate Enabled(a: Addr, depth: nat, s: State, step: Step) {
    match step
    case Env(e) => EnvEnabled(a, s, e)
    case Prod(p) => s.worker.Some? && ProducerEnabled(a, depth, s.q, s.worker.value, p)
    case Cons(c) => s.worker.Some? && ConsumerEnabled(a, s.q, s.log, s.worker.value, c)
  }

  ghost function Apply(a: Addr, depth: nat, s: State, step: Step): State
    requires Enabled(a, depth, s, step)
  {
    match step
    case Env(e) => EnvApply(a, s, e)
    case Prod(p) =>
      s.(q := ProducerQueue(a, s.q, s.worker.value, p),
         worker := Some(ProducerApply(a, depth, s.q, s.worker.value, p)))
    case Cons(c) =>
      s.(q := ConsumerQueue(a, s.q, s.worker.value, c),
         log := ConsumerLog(s.log, s.worker.value, c),
         worker := if c.Finish? then None else Some(ConsumerApply(a, s.q, s.log, s.worker.value, c)))
  }

  ghost predicate IsRun(a: Addr, depth: nat, s: State, steps: seq<Step>)
    decreases |steps|
  {
    |steps| == 0 || (Enabled(a, depth, s, steps[0]) && IsRun(a, depth, Apply(a, depth, s, steps[0]), steps[1..]))
  }

  ghost function Final(a: Addr, depth: nat, s: State, steps: seq<Step>): State
    requires IsRun(a, depth, s, steps)
    decreases |steps|
  {
    if |steps| == 0 then s else Final(a, depth, Apply(a, depth, s, steps[0]), steps[1..])
  }

  // ---- What the worker holds ----

  // The submissions of a worker stop for good with its first failure.
  predicate Healthy(c: Consumer) {
    !c.Cleanup?
  }

  function ConsumerHolds(c: Consumer): seq<Record> {
    match c
    case Persisting(item) => [item.rec]
    case Submitting(item) => [item.rec]
    case _ => []
  }

  function ChannelHolds(channel: seq<Item>): seq<Record> {
    seq(|channel|, i requires 0 <= i < |channel| => channel[i].rec)
  }

  function ProducerHolds(p: Producer): seq<Record> {
    match p
    case Preparing(rec) => [rec]
    case Sending(item) => [item.rec]
    case Mending(script, _) => if |script| > 0 && script[0].GiveBack? then [script[0].rec] else []
    case _ => []
  }

  // The claimed rows that are not yet accepted, oldest claim first.  Receiving from the channel
  // and sending to it leave this sequence as it is.
  function Holds(w: Worker): seq<Record> {
    ConsumerHolds(w.consumer) + ChannelHolds(w.channel) + ProducerHolds(w.producer)
  }

  ghost predicate HoldsRow(w: Worker, id: Id) {
    exists i :: 0 <= i < |Holds(w)| && Holds(w)[i].id == id
  }
}
