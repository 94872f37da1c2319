/**
 The sequential halves of the per-sender worker, over the in-memory store: giving a claim
 back, failing a record for good, reconciling, draining, sweeping, and submitting one signed
 transaction.  What the node and the network answer is a parameter.  Pipeline interleaves the
 same store calls; here each method runs undisturbed and is proved against the queue's values.
 */
module Submitter {
  import opened Types
  import opened QueueSpec
  import opened Pipeline
  import opened Reconcile
  import M = MemoryStore

  // What an update leaves: an unknown record or a taken key is refused.
  ghost function Written(q: Queue, rec: Record): Queue {
    if M.KeyFree(q.rows, rec) then Put(q, rec) else q
  }

  ghost function GivenBack(q: Queue, rec: Record, now: Time): Queue {
    if rec.seqNum.Some? then Release(Written(q, Requeued(rec, now)), rec.sender)
    else Written(q, Requeued(rec, now))
  }

  function Failure(rec: Record, now: Time): Record {
    rec.(status := Failed, updatedAt := now)
  }

  ghost function Terminated(q: Queue, rec: Record, now: Time): Queue {
    if rec.seqNum.Some? then Shift(Written(q, Failure(rec, now)), rec.sender, rec.seqNum.value, now)
    else Written(q, Failure(rec, now))
  }

  // A record given back is queued without a number; its number, if it held one, is released.
  lemma GivenBackOutcome(q: Queue, rec: Record, now: Time)
    requires rec.id in q.rows && M.KeyFree(q.rows, rec)
    ensures GivenBack(q, rec, now).rows == q.rows[rec.id := rec.(status := Queued, seqNum := None, updatedAt := now)]
    ensures forall b :: Next(GivenBack(q, rec, now), b) ==
                        if b == rec.sender && rec.seqNum.Some? && Next(q, b) > 0 then Next(q, b) - 1 else Next(q, b)
  {
  }

  // A record failed for good keeps its number; the live rows of its sender above that number are
  // queued without one, and the counter falls by their count.
  lemma TerminatedOutcome(q: Queue, rec: Record, now: Time)
    requires rec.id in q.rows && M.KeyFree(q.rows, rec) && rec.seqNum.Some?
    ensures var q' := Terminated(q, rec, now);
            var above := set id | id in q.rows && id != rec.id && q.rows[id].sender == rec.sender
                                  && (q.rows[id].status == Queued || q.rows[id].status == Processing)
                                  && q.rows[id].seqNum.Some? && q.rows[id].seqNum.value > rec.seqNum.value;
            && q'.rows.Keys == q.rows.Keys
            && q'.rows[rec.id] == rec.(status := Failed, updatedAt := now)
            && (forall id :: id in q.rows && id != rec.id ==>
                  q'.rows[id] == if id in above then q.rows[id].(status := Queued, seqNum := None, updatedAt := now)
                                 else q.rows[id])
            && (forall b :: Next(q', b) ==
                  if b != rec.sender then Next(q, b) else if |above| <= Next(q, b) then Next(q, b) - |above| else 0)
  {
    var q1 := Put(q, Failure(rec, now));
    assert ShiftedOf(q1, rec.sender, rec.seqNum.value) ==
           set id | id in q.rows && id != rec.id && q.rows[id].sender == rec.sender
                    && (q.rows[id].status == Queued || q.rows[id].status == Processing)
                    && q.rows[id].seqNum.Some? && q.rows[id].seqNum.value > rec.seqNum.value;
  }

  // The failure paths are the scripts of the pipeline, run to their end.
  lemma FailurePathsAreScripts(q: Queue, rec: Record, now: Time)
    requires M.KeyFree(q.rows, rec) && rec.seqNum.Some?
    ensures var a := rec.sender;
            && Follow(GiveBack(rec), []) == [ReleaseOne]
            && GivenBack(q, rec, now) == Exec(Exec(q, a, GiveBack(rec), now), a, ReleaseOne, now)
            && Follow(Terminate(rec), []) == [ShiftAbove(rec.seqNum.value)]
            && Terminated(q, rec, now) == Exec(Exec(q, a, Terminate(rec), now), a, ShiftAbove(rec.seqNum.value), now)
  {
  }

  // ---- Drain and sweep ----

  ghost function AllGivenBack(q: Queue, recs: seq<Record>, now: Time): Queue
    decreases |recs|
  {
    if |recs| == 0 then q else GivenBack(AllGivenBack(q, recs[..|recs| - 1], now), recs[|recs| - 1], now)
  }

  // Copies of claims of the sender, each with its row's key.
  ghost predicate AreClaims(q: Queue, a: Addr, recs: seq<Record>) {
    && M.DistinctIds(recs)
    && forall i :: 0 <= i < |recs| ==>
         && recs[i].id in q.rows && recs[i].key == q.rows[recs[i].id].key
         && recs[i].sender == a && recs[i].seqNum.Some?
  }

  // Every record is queued without a number, one number is released for each, and nothing else changes.
  ghost predicate Drained(q: Queue, q': Queue, a: Addr, recs: seq<Record>, now: Time) {
    && q'.rows.Keys == q.rows.Keys
    && (forall i :: 0 <= i < |recs| ==>
          && recs[i].id in q'.rows
          && q'.rows[recs[i].id] == recs[i].(status := Queued, seqNum := None, updatedAt := now))
    && (forall id :: id in q.rows && id !in IdsOf(recs) ==> q'.rows[id] == q.rows[id])
    && (forall b :: Next(q', b) ==
          if b != a then Next(q, b) else if |recs| <= Next(q, a) then Next(q, a) - |recs| else 0)
  }

  lemma DrainedNext(q: Queue, q1: Queue, q2: Queue, a: Addr, before: seq<Record>, last: Record, recs: seq<Record>,
                    now: Time)
    requires recs == before + [last] && AreClaims(q, a, recs) && Drained(q, q1, a, before, now)
    requires q2.rows == q1.rows[last.id := last.(status := Queued, seqNum := None, updatedAt := now)]
    requires forall b :: Next(q2, b) == if b == a && Next(q1, b) > 0 then Next(q1, b) - 1 else Next(q1, b)
    ensures Drained(q, q2, a, recs, now)
  {
    assert recs[..|recs| - 1] == before && recs[|recs| - 1] == last;
    forall i | 0 <= i < |recs|
      ensures recs[i].id in q2.rows &&
              q2.rows[recs[i].id] == recs[i].(status := Queued, seqNum := None, updatedAt := now)
    {
      assert recs[|recs| - 1] == last;
      if i < |before| {
        assert recs[i] == before[i] && recs[i].id != last.id;
      }
    }
  }

  // A drain returns every item's record, whatever its order.
  lemma {:induction false} DrainReturnsAll(q: Queue, a: Addr, recs: seq<Record>, now: Time)
    requires WellKeyed(q.rows) && M.KeysUnique(q.rows) && AreClaims(q, a, recs)
    ensures Drained(q, AllGivenBack(q, recs, now), a, recs, now)
    decreases |recs|
  {
    if |recs| > 0 {
      var before, last := recs[..|recs| - 1], recs[|recs| - 1];
      assert recs == before + [last];
      FewerClaims(q, a, before, last, recs);
      DrainReturnsAll(q, a, before, now);
      var q1 := AllGivenBack(q, before, now);
      GivenBackOutcome(q1, last, now);
      DrainedNext(q, q1, GivenBack(q1, last, now), a, before, last, recs, now);
    }
  }

  lemma FewerClaims(q: Queue, a: Addr, before: seq<Record>, last: Record, recs: seq<Record>)
    requires recs == before + [last] && AreClaims(q, a, recs)
    ensures AreClaims(q, a, before)
    ensures last.id in q.rows && last.key == q.rows[last.id].key && last.sender == a && last.seqNum.Some?
  {
    assert forall i :: 0 <= i < |before| ==> recs[i] == before[i];
    assert recs[|before|] == last;
  }

  function Orphans(q: Queue, a: Addr): set<Id> {
    set id | id in q.rows && IsUnhashedClaim(q.rows[id], a)
  }

  function Numbered(q: Queue, ids: set<Id>): set<Id> {
    set id | id in ids && id in q.rows && q.rows[id].seqNum.Some?
  }

  // Every unhashed claim is queued again, and each that held a number releases one.
  ghost function Swept(q: Queue, a: Addr, ids: set<Id>, now: Time): Queue {
    Queue(RequeueAll(q.rows, ids, now),
          if Minus(Next(q, a), |Numbered(q, ids)|) == Next(q, a) then q.next
          else q.next[a := Minus(Next(q, a), |Numbered(q, ids)|)])
  }

  // The sweep queues exactly the sender's unhashed claims, each losing its number if it held one.
  lemma SweptOutcome(q: Queue, a: Addr, now: Time)
    ensures var q' := Swept(q, a, Orphans(q, a), now);
            var numbered := set id | id in q.rows && q.rows[id].sender == a && q.rows[id].status == Processing
                                     && q.rows[id].hash == "" && q.rows[id].seqNum.Some?;
            && q'.rows.Keys == q.rows.Keys
            && (forall id :: id in q.rows ==>
                  q'.rows[id] ==
                  if q.rows[id].sender == a && q.rows[id].status == Processing && q.rows[id].hash == "" then
                    q.rows[id].(status := Queued, seqNum := None, updatedAt := now)
                  else q.rows[id])
            && (forall b :: Next(q', b) ==
                  if b != a then Next(q, b) else if |numbered| <= Next(q, a) then Next(q, a) - |numbered| else 0)
  {
    assert Numbered(q, Orphans(q, a)) ==
           set id | id in q.rows && q.rows[id].sender == a && q.rows[id].status == Processing
                    && q.rows[id].hash == "" && q.rows[id].seqNum.Some?;
  }

  lemma SweepOneMore(q: Queue, idx: map<string, Id>, a: Addr, ids: set<Id>, now: Time, id: Id)
    requires M.Indexed(q.rows, idx) && id in q.rows && id !in ids && q.rows[id].sender == a
    ensures GivenBack(Swept(q, a, ids, now), q.rows[id], now) == Swept(q, a, ids + {id}, now)
  {
    var rec := q.rows[id];
    assert M.KeyFree(RequeueAll(q.rows, ids, now), Requeued(rec, now));
    M.RequeueOneMore(q.rows, ids, now, id);
    SweptCounterNext(q, a, ids, now, id);
  }

  lemma SweptCounterNext(q: Queue, a: Addr, ids: set<Id>, now: Time, id: Id)
    requires id in q.rows && id !in ids && q.rows[id].sender == a
    ensures var next, next' := Swept(q, a, ids, now).next, Swept(q, a, ids + {id}, now).next;
            next' == if q.rows[id].seqNum.None? || Count(next, a) == 0 then next else next[a := Count(next, a) - 1]
  {
    var more := if q.rows[id].seqNum.Some? then {id} else {};
    assert Numbered(q, ids + {id}) == Numbered(q, ids) + more;
    var n := |Numbered(q, ids)|;
    SweptCounter(q, a, ids, now);
    SweptCounter(q, a, ids + {id}, now);
    if q.rows[id].seqNum.Some? {
      assert |Numbered(q, ids + {id})| == n + 1;
      ReleasedNext(q.next, Swept(q, a, ids, now).next, a, n, Next(q, a));
    }
  }

  // n releases of a counter that stands at c.
  function Released(next: map<Addr, nat>, a: Addr, c: nat, n: nat): map<Addr, nat> {
    if Minus(c, n) == c then next else next[a := Minus(c, n)]
  }

  lemma SweptCounter(q: Queue, a: Addr, ids: set<Id>, now: Time)
    ensures Swept(q, a, ids, now).next == Released(q.next, a, Next(q, a), |Numbered(q, ids)|)
  {
  }

  lemma ReleasedNext(next: map<Addr, nat>, next': map<Addr, nat>, a: Addr, n: nat, c: nat)
    requires c == Count(next, a) && next' == Released(next, a, c, n)
    ensures Released(next, a, c, n + 1) == if Count(next', a) == 0 then next' else next'[a := Count(next', a) - 1]
  {
  }

  // ---- Scripts, run undisturbed ----

  // Each command succeeds; listings are what the list calls return, one entry for each command.
  ghost predicate Runs(q: Queue, a: Addr, script: seq<Cmd>, now: Time, listings: seq<seq<Record>>)
    decreases |listings|
  {
    if |script| == 0 then |listings| == 0
    else
      && |listings| > 0
      && (if IsList(script[0]) then IsListing(q, a, script[0], listings[0]) else listings[0] == [])
      && Runs(Exec(q, a, script[0], now), a, Follow(script[0], listings[0]) + script[1..], now, listings[1..])
  }

  ghost function RunResult(q: Queue, a: Addr, script: seq<Cmd>, now: Time, listings: seq<seq<Record>>): Queue
    requires Runs(q, a, script, now, listings)
    decreases |listings|
  {
    if |script| == 0 then q
    else RunResult(Exec(q, a, script[0], now), a, Follow(script[0], listings[0]) + script[1..], now, listings[1..])
  }

  // Records of the sender as they are stored, each once.
  ghost predicate AreStored(q: Queue, a: Addr, recs: seq<Record>) {
    && M.AreRows(q.rows, recs) && M.DistinctIds(recs)
    && forall i :: 0 <= i < |recs| ==> recs[i].sender == a
  }

  lemma IdsOfRest(recs: seq<Record>)
    requires |recs| > 0
    ensures IdsOf(recs) == {recs[0].id} + IdsOf(recs[1..])
  {
    assert forall i :: 0 < i < |recs| ==> recs[i] == recs[1..][i - 1];
  }

  lemma RestIsStored(q: Queue, q': Queue, a: Addr, recs: seq<Record>, now: Time)
    requires AreStored(q, a, recs) && |recs| > 0 && q'.rows == q.rows[recs[0].id := Requeued(recs[0], now)]
    ensures AreStored(q', a, recs[1..]) && recs[0].id !in IdsOf(recs[1..])
    ensures RequeueAll(q'.rows, IdsOf(recs[1..]), now) == RequeueAll(q.rows, IdsOf(recs), now)
  {
    IdsOfRest(recs);
  }

  // The listed siblings are put back one by one, and then the rejected record.
  lemma {:induction false} PutBacksRun(q: Queue, a: Addr, recs: seq<Record>, last: Record, now: Time, script: seq<Cmd>,
                                       listings: seq<seq<Record>>)
    requires AreStored(q, a, recs)
    requires script == seq(|recs|, i requires 0 <= i < |recs| => PutBack(recs[i])) + [PutBack(last)]
    requires Runs(q, a, script, now, listings)
    ensures RunResult(q, a, script, now, listings) ==
            Put(q.(rows := RequeueAll(q.rows, IdsOf(recs), now)), Requeued(last, now))
    decreases |recs|
  {
    if |recs| == 0 {
      assert script == [PutBack(last)] && [] + script[1..] == [];
      assert RequeueAll(q.rows, IdsOf(recs), now) == q.rows;
    } else {
      var q' := Exec(q, a, script[0], now);
      RestIsStored(q, q', a, recs, now);
      var rest := Follow(script[0], listings[0]) + script[1..];
      assert rest == seq(|recs[1..]|, i requires 0 <= i < |recs[1..]| => PutBack(recs[1..][i])) + [PutBack(last)];
      PutBacksRun(q', a, recs[1..], last, now, rest, listings[1..]);
    }
  }

  lemma ListingIsSiblings(q: Queue, a: Addr, except: Id, listing: seq<Record>)
    requires WellKeyed(q.rows) && IsListing(q, a, ListSiblings(except), listing)
    ensures AreStored(q, a, listing) && IdsOf(listing) == Siblings(q, a, except)
  {
    forall id | id in Siblings(q, a, except) ensures id in IdsOf(listing) {
      assert q.rows[id] in listing;
      var i :| 0 <= i < |listing| && listing[i] == q.rows[id];
      assert listing[i].id == id;
    }
  }

  // After a sequence error the pipeline's script reconciles, whatever the order of the listing.
  lemma MismatchScriptReconciles(q: Queue, rec: Record, chainSeq: nat, now: Time, listings: seq<seq<Record>>)
    requires WellKeyed(q.rows)
    requires Runs(q, rec.sender, AfterReject(rec, SequenceMismatch(Some(chainSeq))), now, listings)
    ensures RunResult(q, rec.sender, AfterReject(rec, SequenceMismatch(Some(chainSeq))), now, listings) ==
            Reconciled(q, rec, if rec.seqNum.Some? then rec.seqNum.value else 0, chainSeq, now)
  {
    var a, localSeq := rec.sender, if rec.seqNum.Some? then rec.seqNum.value else 0;
    var script := AfterReject(rec, SequenceMismatch(Some(chainSeq)));
    var q1 := Adjusted(q, a, localSeq, chainSeq);
    var rest := [ListSiblings(rec.id), PutBack(Attempted(rec))];
    assert script == [Adjust(chainSeq, localSeq)] + rest && [] + script[1..] == rest;
    assert Runs(q1, a, rest, now, listings[1..]);
    ListingIsSiblings(q1, a, rec.id, listings[1]);
    SiblingsScriptRuns(q1, a, rec, listings[1], now, listings[1..]);
  }

  lemma SiblingsScriptRuns(q: Queue, a: Addr, rec: Record, listing: seq<Record>, now: Time, listings: seq<seq<Record>>)
    requires Runs(q, a, [ListSiblings(rec.id), PutBack(Attempted(rec))], now, listings) && listings[0] == listing
    requires AreStored(q, a, listing)
    ensures RunResult(q, a, [ListSiblings(rec.id), PutBack(Attempted(rec))], now, listings) ==
            Put(q.(rows := RequeueAll(q.rows, IdsOf(listing), now)), Requeued(Attempted(rec), now))
  {
    var script := [ListSiblings(rec.id), PutBack(Attempted(rec))];
    var puts := Follow(script[0], listing) + script[1..];
    assert script[1..] == [PutBack(Attempted(rec))];
    PutBacksRun(q, a, listing, Attempted(rec), now, puts, listings[1..]);
  }

  // One give-back of the sweep, with its release.
  function OneBack(q: Queue, a: Addr, rec: Record, now: Time): Queue {
    if rec.seqNum.Some? then Release(Put(q, Requeued(rec, now)), a) else Put(q, Requeued(rec, now))
  }

  lemma SweepOneFirst(q: Queue, a: Addr, recs: seq<Record>, now: Time)
    requires AreStored(q, a, recs) && |recs| > 0
    ensures var q' := OneBack(q, a, recs[0], now);
            AreStored(q', a, recs[1..]) && Swept(q', a, IdsOf(recs[1..]), now) == Swept(q, a, IdsOf(recs), now)
  {
    var q', rest := OneBack(q, a, recs[0], now), IdsOf(recs[1..]);
    RestIsStored(q, q', a, recs, now);
    FewerNumbered(q, q', a, recs, now);
    SweptCounter(q, a, IdsOf(recs), now);
    SweptCounter(q', a, rest, now);
    if recs[0].seqNum.Some? {
      ReleasedFirst(q.next, a, |Numbered(q', rest)|, Next(q, a));
    }
  }

  lemma FewerNumbered(q: Queue, q': Queue, a: Addr, recs: seq<Record>, now: Time)
    requires AreStored(q, a, recs) && |recs| > 0 && q'.rows == q.rows[recs[0].id := Requeued(recs[0], now)]
    ensures |Numbered(q, IdsOf(recs))| == |Numbered(q', IdsOf(recs[1..]))| + (if recs[0].seqNum.Some? then 1 else 0)
  {
    RestIsStored(q, q', a, recs, now);
    IdsOfRest(recs);
    NumberedWithout(q, q', IdsOf(recs[1..]), recs[0], now);
  }

  lemma NumberedWithout(q: Queue, q': Queue, rest: set<Id>, rec: Record, now: Time)
    requires rec.id !in rest && rec.id in q.rows && q.rows[rec.id] == rec
    requires q'.rows == q.rows[rec.id := Requeued(rec, now)]
    ensures |Numbered(q, {rec.id} + rest)| == |Numbered(q', rest)| + (if rec.seqNum.Some? then 1 else 0)
  {
    var more := if rec.seqNum.Some? then {rec.id} else {};
    assert Numbered(q, {rec.id} + rest) == Numbered(q', rest) + more;
  }

  lemma ReleasedFirst(next: map<Addr, nat>, a: Addr, n: nat, c: nat)
    requires c == Count(next, a)
    ensures var next' := if c == 0 then next else next[a := c - 1];
            Released(next', a, Count(next', a), n) == Released(next, a, c, n + 1)
  {
  }

  lemma {:induction false} GiveBacksRun(q: Queue, a: Addr, recs: seq<Record>, now: Time, script: seq<Cmd>,
                                        listings: seq<seq<Record>>)
    requires AreStored(q, a, recs)
    requires script == seq(|recs|, i requires 0 <= i < |recs| => GiveBack(recs[i]))
    requires Runs(q, a, script, now, listings)
    ensures RunResult(q, a, script, now, listings) == Swept(q, a, IdsOf(recs), now)
    decreases |recs|
  {
    if |recs| == 0 {
      SweepsNothing(q, a, now);
      assert IdsOf(recs) == {};
    } else {
      var q', rest := OneBack(q, a, recs[0], now), script[1..];
      SweepOneFirst(q, a, recs, now);
      assert rest == seq(|recs[1..]|, i requires 0 <= i < |recs[1..]| => GiveBack(recs[1..][i]));
      if recs[0].seqNum.Some? {
        var owed := Follow(script[0], listings[0]) + rest;
        assert owed[0] == ReleaseOne && [] + owed[1..] == rest;
        GiveBacksRun(q', a, recs[1..], now, rest, listings[2..]);
        assert listings[1..][1..] == listings[2..];
      } else {
        assert [] + rest == rest;
        GiveBacksRun(q', a, recs[1..], now, rest, listings[1..]);
      }
    }
  }

  lemma SweepsNothing(q: Queue, a: Addr, now: Time)
    ensures Swept(q, a, {}, now) == q
  {
    assert Numbered(q, {}) == {};
  }

  // The last script of a worker sweeps every orphan, whatever the order of the listing.
  lemma SweepScriptSweeps(q: Queue, a: Addr, now: Time, listings: seq<seq<Record>>)
    requires WellKeyed(q.rows) && Runs(q, a, [ListOrphans], now, listings)
    ensures RunResult(q, a, [ListOrphans], now, listings) == Swept(q, a, Orphans(q, a), now)
  {
    var listing := listings[0];
    ListingIsOrphans(q, a, listing);
    var script := Follow(ListOrphans, listing) + [ListOrphans][1..];
    assert script == seq(|listing|, i requires 0 <= i < |listing| => GiveBack(listing[i]));
    GiveBacksRun(q, a, listing, now, script, listings[1..]);
  }

  lemma ListingIsOrphans(q: Queue, a: Addr, listing: seq<Record>)
    requires WellKeyed(q.rows) && IsListing(q, a, ListOrphans, listing)
    ensures AreStored(q, a, listing) && IdsOf(listing) == Orphans(q, a)
  {
    forall id | id in Orphans(q, a) ensures id in IdsOf(listing) {
      assert q.rows[id] in listing;
      var i :| 0 <= i < |listing| && listing[i] == q.rows[id];
      assert listing[i].id == id;
    }
  }

  // ---- Submission ----

  datatype Answer =
    | Accepted(serverHash: string)
    | SequenceError(chainSeq: Option<nat>)     // None: the account could not be read
    | OtherError(aged: bool)

  // What one submission leaves behind when the store persists the hash.
  ghost function AfterAnswer(q: Queue, item: Item, answer: Answer, recorded: bool, now: Time): Queue {
    var rec := item.rec.(hash := item.hash);
    var q1 := Put(q, rec.(updatedAt := now));
    match answer
    case Accepted(serverHash) =>
      if recorded then Put(q1, rec.(status := Submitted, updatedAt := now,
                                    hash := if serverHash != "" then serverHash else item.hash))
      else q1
    case SequenceError(Some(chainSeq)) =>
      Reconciled(q1, rec.(hash := ""), if rec.seqNum.Some? then rec.seqNum.value else 0, chainSeq, now)
    case SequenceError(None) => GivenBack(q1, Attempted(rec.(hash := "")), now)
    case OtherError(aged) =>
      if aged then Terminated(q1, rec.(hash := ""), now) else GivenBack(q1, Attempted(rec.(hash := "")), now)
  }

  // The pipeline's outcome of an answer that is no acceptance.
  function WhyRejected(answer: Answer): Rejection
    requires !answer.Accepted?
  {
    match answer
    case SequenceError(chainSeq) => SequenceMismatch(chainSeq)
    case OtherError(aged) => if aged then Aged else Transient
  }

  // The row of the submitted record, its hash persisted, can be rewritten.
  ghost predicate CanSubmit(q: Queue, item: Item) {
    && WellKeyed(q.rows) && M.KeyFree(q.rows, item.rec)
    && StillClaimed(q, item.rec.id) && q.rows[item.rec.id].sender == item.rec.sender && item.rec.status == Processing
  }

  // An accepted record is submitted under the server's hash, or keeps its own if the server names none;
  // if the status cannot be recorded it stays a claim with its hash.
  lemma AcceptedOutcome(q: Queue, item: Item, serverHash: string, recorded: bool, now: Time)
    requires CanSubmit(q, item)
    ensures var q' := AfterAnswer(q, item, Accepted(serverHash), recorded, now);
            && q'.next == q.next
            && q'.rows == q.rows[item.rec.id := item.rec.(
                                   status := if recorded then Submitted else Processing,
                                   hash := if recorded && serverHash != "" then serverHash else item.hash,
                                   updatedAt := now)]
  {
  }

  // After a sequence error the counter follows the chain: down to it, past the submitted rows, exactly
  // if the rejected number was ahead of it.  The other claims lose their numbers, the record's attempt counts.
  lemma SequenceErrorOutcome(q: Queue, item: Item, chainSeq: nat, n: nat, now: Time)
    requires CanSubmit(q, item) && item.rec.seqNum == Some(n)
    ensures var q', a := AfterAnswer(q, item, SequenceError(Some(chainSeq)), false, now), item.rec.sender;
            && Next(q', a) == (if chainSeq < n then chainSeq + |Inflight(q, a, chainSeq)|
                               else if Next(q, a) < chainSeq then chainSeq
                               else Next(q, a))
            && q'.rows[item.rec.id] == item.rec.(status := Queued, seqNum := None, hash := "",
                                                 attempts := item.rec.attempts + 1, updatedAt := now)
            && OnlyClaimsRequeued(q, q', item.rec, now)
  {
    var first := item.rec.(hash := item.hash, updatedAt := now);
    var q1, rec := Put(q, first), item.rec.(hash := "");
    ReconcilePostcondition(q1, rec, n, chainSeq, now, rec.id, now);
    PersistedIsNotInflight(q, q1, first, chainSeq);
  }

  // and the reset does not count.
  lemma PersistedIsNotInflight(q: Queue, q1: Queue, first: Record, from: nat)
    requires first.id in q.rows && q.rows[first.id].status == Processing
    requires first.status == Processing && q1 == Put(q, first)
    ensures (set id | id in q1.rows && q1.rows[id].sender == first.sender && q1.rows[id].status == Submitted
                      && q1.rows[id].seqNum.Some? && q1.rows[id].seqNum.value >= from) ==
            Inflight(q, first.sender, from)
  {
  }

  // Any other error fails the record for good if it has aged, and gives it back with one more attempt
  // if not, or if the account could not be read after a sequence error.
  lemma OtherErrorOutcome(q: Queue, item: Item, answer: Answer, now: Time)
    requires CanSubmit(q, item) && (answer.OtherError? || answer == SequenceError(None))
    ensures var q', rec := AfterAnswer(q, item, answer, false, now), item.rec.(hash := "");
            q' == if answer == OtherError(true) then Terminated(q, rec, now)
                  else GivenBack(q, rec.(attempts := rec.attempts + 1), now)
  {
    var first, rec := item.rec.(hash := item.hash, updatedAt := now), item.rec.(hash := "");
    WrittenOver(q, first, Failure(rec, now));
    WrittenOver(q, first, Requeued(Attempted(rec), now));
  }

  lemma WrittenOver(q: Queue, first: Record, second: Record)
    requires first.id == second.id && first.key == second.key && second.id in q.rows && M.KeyFree(q.rows, second)
    ensures Written(Put(q, first), second) == Written(q, second)
  {
    assert Put(Put(q, first), second) == Put(q, second);
    assert M.KeyFree(Put(q, first).rows, second);
  }

  // An accepted submission is the pipeline's steps, one after another.
  lemma SubmissionIsSteps(a: Addr, q: Queue, log: seq<Option<Id>>, w: Worker, serverHash: string, now: Time)
    requires w.consumer.Persisting? && ConsumerEnabled(a, q, log, w, Persist(now))
    requires w.consumer.item.rec.seqNum == Some(|log|)
    ensures var q1, w1 := ConsumerQueue(a, q, w, Persist(now)), ConsumerApply(a, q, log, w, Persist(now));
            && ConsumerEnabled(a, q1, log, w1, Accept(serverHash))
            && var w2 := ConsumerApply(a, q1, log, w1, Accept(serverHash));
               ConsumerQueue(a, q1, w2, RecordSubmitted(now)) ==
               AfterAnswer(q, w.consumer.item, Accepted(serverHash), true, now)
  {
  }

  // A rejected one is the persisted hash, the rejection, and the script that this leaves, run to its
  // end; nothing else is left of the submission.
  lemma RejectionIsSteps(a: Addr, q: Queue, log: seq<Option<Id>>, w: Worker, answer: Answer, now: Time,
                         listings: seq<seq<Record>>)
    requires w.consumer.Persisting? && ConsumerEnabled(a, q, log, w, Persist(now)) && !answer.Accepted?
    requires CanSubmit(q, w.consumer.item) && w.consumer.item.rec.sender == a
    ensures var q1, w1 := ConsumerQueue(a, q, w, Persist(now)), ConsumerApply(a, q, log, w, Persist(now));
            && ConsumerEnabled(a, q1, log, w1, Reject(WhyRejected(answer)))
            && var w2 := ConsumerApply(a, q1, log, w1, Reject(WhyRejected(answer)));
               && w2.consumer.Cleanup? && w2.consumer.stage == Failing
               && (Runs(q1, a, w2.consumer.script, now, listings) ==>
                     RunResult(q1, a, w2.consumer.script, now, listings) ==
                     AfterAnswer(q, w.consumer.item, answer, false, now))
  {
    var item := w.consumer.item;
    var q1 := Put(q, item.rec.(hash := item.hash, updatedAt := now));
    var rec, script := item.rec.(hash := ""), AfterReject(item.rec.(hash := ""), WhyRejected(answer));
    if Runs(q1, a, script, now, listings) {
      AnswerIsScript(q, item, answer, q1, rec, script, now, listings);
    }
  }

  lemma AnswerIsScript(q: Queue, item: Item, answer: Answer, q1: Queue, rec: Record, script: seq<Cmd>, now: Time,
                       listings: seq<seq<Record>>)
    requires CanSubmit(q, item) && !answer.Accepted?
    requires q1 == Put(q, item.rec.(hash := item.hash, updatedAt := now)) && rec == item.rec.(hash := "")
    requires script == AfterReject(rec, WhyRejected(answer)) && Runs(q1, rec.sender, script, now, listings)
    ensures RunResult(q1, rec.sender, script, now, listings) == AfterAnswer(q, item, answer, false, now)
  {
    match answer {
      case SequenceError(Some(chainSeq)) => MismatchScriptReconciles(q1, rec, chainSeq, now, listings);
      case OtherError(true) => TerminateRuns(q1, rec, now, listings);
      case _ => GiveBackRuns(q1, Attempted(rec), now, listings);
    }
  }

  lemma GiveBackRuns(q: Queue, rec: Record, now: Time, listings: seq<seq<Record>>)
    requires M.KeyFree(q.rows, rec) && Runs(q, rec.sender, [GiveBack(rec)], now, listings)
    ensures RunResult(q, rec.sender, [GiveBack(rec)], now, listings) == GivenBack(q, rec, now)
  {
    RunsOne(q, rec.sender, GiveBack(rec), now, listings);
    if rec.seqNum.Some? {
      RunsOne(Put(q, Requeued(rec, now)), rec.sender, ReleaseOne, now, listings[1..]);
    }
  }

  lemma TerminateRuns(q: Queue, rec: Record, now: Time, listings: seq<seq<Record>>)
    requires M.KeyFree(q.rows, rec) && Runs(q, rec.sender, [Terminate(rec)], now, listings)
    ensures RunResult(q, rec.sender, [Terminate(rec)], now, listings) == Terminated(q, rec, now)
  {
    RunsOne(q, rec.sender, Terminate(rec), now, listings);
    if rec.seqNum.Some? {
      RunsOne(Put(q, Failure(rec, now)), rec.sender, ShiftAbove(rec.seqNum.value), now, listings[1..]);
    }
  }

  lemma RunsOne(q: Queue, a: Addr, c: Cmd, now: Time, listings: seq<seq<Record>>)
    requires !IsList(c) && Runs(q, a, [c], now, listings)
    ensures |listings| > 0 && Runs(Exec(q, a, c, now), a, Follow(c, []), now, listings[1..])
    ensures RunResult(q, a, [c], now, listings) == RunResult(Exec(q, a, c, now), a, Follow(c, []), now, listings[1..])
  {
    assert [c][1..] == [] && Follow(c, []) + [c][1..] == Follow(c, []);
  }

  // A producer's undisturbed round claims the oldest record and sends it, as it is now stored, under the
  // hash it was signed with, behind what the channel holds.
  lemma ProducerRoundIsSteps(a: Addr, depth: nat, q: Queue, w: Worker, id: Id, now: Time, hash: string)
    requires w.producer.Looping? && !w.cancelled && |w.channel| < depth && IsOldest(q, a, id) && hash != ""
    ensures var w1 := ProducerApply(a, depth, q, w, CheckCancelled);
            && ProducerEnabled(a, depth, q, w1, ClaimNext(id, now))
            && var q', w2 := ProducerQueue(a, q, w1, ClaimNext(id, now)),
                             ProducerApply(a, depth, q, w1, ClaimNext(id, now));
            && q' == Claim(q, a, id, now) && ProducerEnabled(a, depth, q', w2, Sign(hash))
            && var w3 := ProducerApply(a, depth, q', w2, Sign(hash));
            && ProducerQueue(a, q', w2, Sign(hash)) == q' && ProducerEnabled(a, depth, q', w3, Send)
            && ProducerQueue(a, q', w3, Send) == q'
            && ProducerApply(a, depth, q', w3, Send) == w.(channel := w.channel + [Item(q'.rows[id], hash)])
  {
  }

  // The producer's failures: a transient one gives the claim back with one more attempt, a permanent
  // one fails it, and a send that a cancellation cuts off gives it back as it was and ends the producer.
  lemma ProducerFailuresAreScripts(a: Addr, depth: nat, q: Queue, w: Worker, p: ProducerStep, now: Time,
                                   listings: seq<seq<Record>>)
    requires ProducerEnabled(a, depth, q, w, p) && (p.PrepareTransient? || p.PreparePermanent? || p.SendCancelled?)
    requires var rec := ProducerHolds(w.producer)[0]; rec.sender == a && M.KeyFree(q.rows, rec)
    ensures var w', rec := ProducerApply(a, depth, q, w, p), ProducerHolds(w.producer)[0];
            && w'.producer.Mending?
            && ProducerApply(a, depth, q, w'.(producer := w'.producer.(script := [])), Mended).producer ==
               (if p.SendCancelled? then Exited else Looping)
            && (Runs(q, a, w'.producer.script, now, listings) ==>
                  RunResult(q, a, w'.producer.script, now, listings) ==
                  if p.PrepareTransient? then GivenBack(q, rec.(attempts := rec.attempts + 1), now)
                  else if p.PreparePermanent? then Terminated(q, rec, now)
                  else GivenBack(q, rec, now))
  {
    var script, rec := ProducerApply(a, depth, q, w, p).producer.script, ProducerHolds(w.producer)[0];
    if Runs(q, a, script, now, listings) {
      match p {
        case PrepareTransient => GiveBackRuns(q, Attempted(rec), now, listings);
        case PreparePermanent => TerminateRuns(q, rec, now, listings);
        case SendCancelled => GiveBackRuns(q, rec, now, listings);
      }
    }
  }

  // So do the consumer's: a failed persist counts as an attempt, a drained item does not.
  lemma ConsumerFailuresAreScripts(a: Addr, q: Queue, log: seq<Option<Id>>, w: Worker, c: ConsumerStep, now: Time,
                                   listings: seq<seq<Record>>)
    requires ConsumerEnabled(a, q, log, w, c) && (c.PersistError? || c.DrainNext?)
    requires var rec := if c.DrainNext? then w.channel[0].rec else w.consumer.item.rec;
             rec.sender == a && M.KeyFree(q.rows, rec)
    ensures var w' := ConsumerApply(a, q, log, w, c);
            && w'.consumer.Cleanup?
            && (Runs(q, a, w'.consumer.script, now, listings) ==>
                  RunResult(q, a, w'.consumer.script, now, listings) ==
                  if c.DrainNext? then GivenBack(q, w.channel[0].rec, now)
                  else var rec := w.consumer.item.rec;
                       GivenBack(q, rec.(hash := "", attempts := rec.attempts + 1), now))
  {
    var script := ConsumerApply(a, q, log, w, c).consumer.script;
    if Runs(q, a, script, now, listings) {
      GiveBackRuns(q, script[0].rec, now, listings);
    }
  }

  // A broadcast of the convergence theorem is a submission, accepted exactly at the chain's number.
  lemma BroadcastIsSubmission(x: Account, rec: Record, hash: string, now: Time)
    requires rec.seqNum.Some? && rec.id in x.q.rows
    ensures var accepted := rec.seqNum.value == x.chain;
            var answer := if accepted then Accepted("") else SequenceError(Some(x.chain));
            && Broadcasts(x, rec, hash, now).q == AfterAnswer(x.q, Item(rec, hash), answer, true, now)
            && Broadcasts(x, rec, hash, now).chain == if accepted then x.chain + 1 else x.chain
  {
  }

  // Whatever keeps a submission from success ends the worker's submissions.
  lemma EveryFailureStops(a: Addr, q: Queue, log: seq<Option<Id>>, w: Worker, c: ConsumerStep)
    requires ConsumerEnabled(a, q, log, w, c)
    requires c.PersistSkipped? || c.PersistError? || c.Reject? || c.RecordFailed?
    ensures var w' := ConsumerApply(a, q, log, w, c);
            && w'.consumer.Cleanup? && w'.consumer.stage == Failing
            && w'.channel == w.channel && w'.producer == w.producer && ConsumerQueue(a, q, w, c) == q
            && ((c.PersistSkipped? || c.RecordFailed?) ==> w'.consumer.script == [])
  {
  }

  // The last script of a worker: a drain raises the counter to a readable chain, and in any case every
  // orphan is swept.
  lemma EndScriptsSweep(a: Addr, q: Queue, log: seq<Option<Id>>, w: Worker, c: ConsumerStep, now: Time,
                        listings: seq<seq<Record>>)
    requires WellKeyed(q.rows) && ConsumerEnabled(a, q, log, w, c) && (c.PipelineClosed? || c.DrainDone?)
    requires Runs(q, a, ConsumerApply(a, q, log, w, c).consumer.script, now, listings)
    ensures var q1 := if c.DrainDone? && c.chainSeq.Some? then Raise(q, a, c.chainSeq.value) else q;
            RunResult(q, a, ConsumerApply(a, q, log, w, c).consumer.script, now, listings) ==
            Swept(q1, a, Orphans(q1, a), now)
  {
    if c.DrainDone? && c.chainSeq.Some? {
      var script := [RaiseTo(c.chainSeq.value), ListOrphans];
      assert ConsumerApply(a, q, log, w, c).consumer.script == script;
      assert [] + script[1..] == [ListOrphans];
      SweepScriptSweeps(Raise(q, a, c.chainSeq.value), a, now, listings[1..]);
    } else {
      assert ConsumerApply(a, q, log, w, c).consumer.script == [ListOrphans];
      SweepScriptSweeps(q, a, now, listings);
    }
  }

  const MAX_ATTEMPTS: nat := 5

  class Submitter {
    const store: M.MemoryStore
    var notices: seq<Record>

    constructor (store: M.MemoryStore)
      ensures this.store == store && notices == []
    {
      this.store := store;
      notices := [];
    }

    method RequeueTransient(rec: Record, now: Time)
      requires store.Valid()
      modifies store
      ensures store.Valid() && store.Contents() == GivenBack(old(store.Contents()), Attempted(rec), now)
    {
      var _ := store.Update(Requeued(Attempted(rec), now), now);
      if rec.seqNum.Some? {
        store.ReleaseSequence(rec.sender);
      }
    }

    method RequeueRecord(rec: Record, now: Time)
      requires store.Valid()
      modifies store
      ensures store.Valid() && store.Contents() == GivenBack(old(store.Contents()), rec, now)
    {
      var _ := store.Update(Requeued(rec, now), now);
      if rec.seqNum.Some? {
        store.ReleaseSequence(rec.sender);
      }
    }

    method RequeueWithoutRelease(rec: Record, now: Time)
      requires store.Valid()
      modifies store
      ensures store.Valid() && store.Contents() == Written(old(store.Contents()), Requeued(rec, now))
    {
      var _ := store.Update(Requeued(rec, now), now);
    }

    method MarkPermanentFailure(rec: Record, now: Time)
      requires store.Valid()
      modifies this, store
      ensures store.Valid() && store.Contents() == Terminated(old(store.Contents()), rec, now)
      ensures notices == old(notices) + [Failure(rec, now)]
    {
      var _ := store.Update(Failure(rec, now), now);
      if rec.seqNum.Some? {
        store.ShiftSenderSequences(rec.sender, rec.seqNum.value, now);
      }
      notices := notices + [Failure(rec, now)];
    }

    method ApplyReconcile(rec: Record, localSeq: nat, chainSeq: nat, now: Time)
      requires store.Valid()
      modifies store
      ensures store.Valid()
      ensures M.KeyFree(old(store.records), rec) ==>
                store.Contents() == Reconciled(old(store.Contents()), rec, localSeq, chainSeq, now)
      ensures !M.KeyFree(old(store.records), rec) ==>
                store.Contents() == SiblingsRequeued(Adjusted(old(store.Contents()), rec.sender, localSeq, chainSeq),
                                                     rec.sender, rec.id, now)
    {
      if chainSeq < localSeq {
        store.ForceResetSequenceToChain(rec.sender, chainSeq);
      } else {
        store.ReconcileSequence(rec.sender, chainSeq);
      }
      RequeueSiblings(rec, now);
      var _ := store.Update(Requeued(Attempted(rec), now), now);
    }

    // The loop of the reconciliation over the listed claims.
    method RequeueSiblings(rec: Record, now: Time)
      requires store.Valid()
      modifies store
      ensures store.Valid()
      ensures store.Contents() == SiblingsRequeued(old(store.Contents()), rec.sender, rec.id, now)
      ensures M.KeyFree(store.records, rec) == M.KeyFree(old(store.records), rec)
    {
      ghost var was, idx := store.Contents(), store.idempotencyIdx;
      var processing := store.ListByStatus(Processing);
      ghost var done: set<Id> := {};
      for i := 0 to |processing|
        invariant store.Valid() && store.Contents() == was.(rows := RequeueAll(was.rows, done, now))
        invariant forall id :: id in done <==>
                    exists k :: 0 <= k < i && processing[k].id == id && id in Siblings(was, rec.sender, rec.id)
      {
        var p := processing[i];
        if p.sender != rec.sender || p.id == rec.id {
          continue;
        }
        if p.hash != "" {
          continue;
        }
        assert M.KeyFree(store.records, Requeued(p, now));
        M.RequeueOneMore(was.rows, done, now, p.id);
        RequeueWithoutRelease(p, now);
        done := done + {p.id};
      }
      assert done == Siblings(was, rec.sender, rec.id);
    }

    method DrainPipeline(items: seq<Item>, sender: Addr, chainSeq: Option<nat>, now: Time)
      requires store.Valid()
      modifies store
      ensures store.Valid()
      ensures var q := AllGivenBack(old(store.Contents()), ChannelHolds(items), now);
              store.Contents() == if chainSeq.Some? then Raise(q, sender, chainSeq.value) else q
    {
      ghost var was, recs := store.Contents(), ChannelHolds(items);
      for i := 0 to |items|
        invariant store.Valid() && store.Contents() == AllGivenBack(was, recs[..i], now)
      {
        RequeueRecord(items[i].rec, now);
        assert recs[..i + 1][..i] == recs[..i];
      }
      assert recs[..|items|] == recs;
      if chainSeq.Some? {
        store.ReconcileSequence(sender, chainSeq.value);
      }
    }

    method SweepOrphanedProcessing(sender: Addr, now: Time)
      requires store.Valid()
      modifies store
      ensures store.Valid()
      ensures store.Contents() == Swept(old(store.Contents()), sender, Orphans(old(store.Contents()), sender), now)
    {
      ghost var was, idx := store.Contents(), store.idempotencyIdx;
      var listed := store.ListByStatus(Processing);
      ghost var done: set<Id> := {};
      SweepsNothing(was, sender, now);
      for i := 0 to |listed|
        invariant store.Valid() && store.Contents() == Swept(was, sender, done, now)
        invariant forall id :: id in done <==>
                    exists k :: 0 <= k < i && listed[k].id == id && id in Orphans(was, sender)
      {
        var rec := listed[i];
        if rec.sender != sender || rec.hash != "" {
          continue;
        }
        SweepOneMore(was, idx, sender, done, now, rec.id);
        RequeueRecord(rec, now);
        done := done + {rec.id};
      }
      assert done == Orphans(was, sender);
    }

    // The first faults calls of the store fail.
    method UpdateWithRetry(rec: Record, faults: nat, now: Time) returns (ok: bool)
      requires store.Valid()
      modifies store
      ensures store.Valid()
      ensures ok <==> faults < 5 && rec.id in old(store.records) && M.KeyFree(old(store.records), rec)
      ensures store.Contents() ==
              if ok then Put(old(store.Contents()), rec.(updatedAt := now)) else old(store.Contents())
    {
      for i := 0 to MAX_ATTEMPTS
        invariant store.Valid() && store.Contents() == old(store.Contents())
        invariant i <= faults || !(rec.id in store.records && M.KeyFree(store.records, rec))
      {
        if i >= faults {
          var r := store.Update(rec, now);
          if r.Written? {
            return true;
          }
        }
      }
      return false;
    }

    method SubmitSigned(item: Item, answer: Answer, faults: nat, now: Time) returns (ok: bool)
      requires store.Valid()
      modifies this, store
      ensures store.Valid()
      ensures var claimed := StillClaimed(old(store.Contents()), item.rec.id);
              var free := M.KeyFree(old(store.records), item.rec);
              && (ok <==> claimed && free && answer.Accepted? && faults < 5)
              && (!claimed ==> store.Contents() == old(store.Contents()))
              && (claimed && !free ==>
                    store.Contents() == GivenBack(old(store.Contents()), Attempted(item.rec.(hash := "")), now))
              && (claimed && free ==>
                    store.Contents() == AfterAnswer(old(store.Contents()), item, answer, ok, now))
              && notices == old(notices) + (if claimed && free && answer == OtherError(true)
                                            then [Failure(item.rec.(hash := ""), now)] else [])
    {
      var rec := item.rec.(hash := item.hash);
      var persisted := store.UpdateIfStatus(rec, Processing, now);
      if persisted.KeyConflict? {
        RequeueTransient(rec.(hash := ""), now);
        return false;
      }
      if persisted.StatusDiffers? {
        return false;
      }
      match answer {
        case SequenceError(Some(chainSeq)) =>
          ApplyReconcile(rec.(hash := ""), if rec.seqNum.Some? then rec.seqNum.value else 0, chainSeq, now);
          return false;
        case SequenceError(None) =>
          RequeueTransient(rec.(hash := ""), now);
          return false;
        case OtherError(aged) =>
          if aged {
            MarkPermanentFailure(rec.(hash := ""), now);
          } else {
            RequeueTransient(rec.(hash := ""), now);
          }
          return false;
        case Accepted(serverHash) =>
          rec := rec.(status := Submitted, hash := if serverHash != "" then serverHash else item.hash);
          ok := UpdateWithRetry(rec, faults, now);
      }
    }
  }
}
