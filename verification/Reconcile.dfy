/**
 Reconciliation after a sequence error: what one reconciliation leaves behind, and its
 convergence.  Claims, broadcasts and reconciliations of one sender follow each other, and
 only this service submits for the account.
 */
module Reconcile {
  import opened Types
  import opened QueueSpec
  import opened Pipeline
  import opened QueueLaws

  // ---- One reconciliation ----

  // The other unhashed claims of the sender.
  function Siblings(q: Queue, a: Addr, except: Id): set<Id> {
    set id | id in q.rows && IsUnhashedClaim(q.rows[id], a) && id != except
  }

  function SiblingsRequeued(q: Queue, a: Addr, except: Id, now: Time): Queue {
    q.(rows := RequeueAll(q.rows, Siblings(q, a, except), now))
  }

  function Reconciled(q: Queue, rec: Record, localSeq: nat, chainSeq: nat, now: Time): Queue {
    var adjusted := Adjusted(q, rec.sender, localSeq, chainSeq);
    Put(SiblingsRequeued(adjusted, rec.sender, rec.id, now), Requeued(Attempted(rec), now))
  }

  // Nothing of another sender, nothing broadcast and no other counter changes; every other
  // claim of the sender is queued again without a number.
  ghost predicate OnlyClaimsRequeued(q: Queue, q': Queue, rec: Record, now: Time) {
    && q'.rows.Keys == q.rows.Keys
    && (forall id :: id in q.rows && id != rec.id ==>
          q'.rows[id] ==
          if q.rows[id].sender == rec.sender && q.rows[id].status == Processing && q.rows[id].hash == "" then
            q.rows[id].(status := Queued, seqNum := None, updatedAt := now)
          else q.rows[id])
    && (forall b :: b != rec.sender ==> Next(q', b) == Next(q, b))
  }

  // The counter goes down to the chain and its submitted rows exactly if the rejected number was
  // ahead of the chain, and is raised to the chain otherwise; so the next claim is never below it.
  lemma ReconcilePostcondition(q: Queue, rec: Record, localSeq: nat, chainSeq: nat, now: Time, next: Id, then_: Time)
    requires rec.id in q.rows
    ensures var q' := Reconciled(q, rec, localSeq, chainSeq, now);
            && Next(q', rec.sender) ==
               (if chainSeq < localSeq then
                  chainSeq + |set id | id in q.rows && q.rows[id].sender == rec.sender && q.rows[id].status == Submitted
                                       && q.rows[id].seqNum.Some? && q.rows[id].seqNum.value >= chainSeq|
                else if Next(q, rec.sender) < chainSeq then chainSeq
                else Next(q, rec.sender))
            && OnlyClaimsRequeued(q, q', rec, now)
            && q'.rows[rec.id] == rec.(status := Queued, seqNum := None, attempts := rec.attempts + 1, updatedAt := now)
            && (IsOldest(q', rec.sender, next) ==>
                  Claim(q', rec.sender, next, then_).rows[next].seqNum.value >= chainSeq)
  {
    assert Inflight(q, rec.sender, chainSeq) ==
           set id | id in q.rows && q.rows[id].sender == rec.sender && q.rows[id].status == Submitted
                    && q.rows[id].seqNum.Some? && q.rows[id].seqNum.value >= chainSeq;
  }

  // The rows that stay broadcast when a record's broadcast was rejected.
  function OtherBroadcast(q: Queue, a: Addr, except: Id, from: nat): set<Id> {
    BroadcastFrom(q, a, from) - {except}
  }

  // When the chain is behind, later claims can be given no broadcast number exactly when every
  // other broadcast row at or above the chain is a submitted one, and these leave no gap.
  lemma ReconciledIsSafeIff(q: Queue, rec: Record, localSeq: nat, chainSeq: nat, now: Time)
    requires rec.id in q.rows && q.rows[rec.id].status == Processing && chainSeq < localSeq
    requires DistinctNumbers(q, OtherBroadcast(q, rec.sender, rec.id, chainSeq))
    ensures var q' := Reconciled(q, rec, localSeq, chainSeq, now);
            ClearFrom(q', rec.sender, Next(q', rec.sender)) <==>
            HashedClaims(q, rec.sender, chainSeq) <= {rec.id} && ContiguousFrom(q, rec.sender, chainSeq)
  {
    var a, q' := rec.sender, Reconciled(q, rec, localSeq, chainSeq, now);
    ReconciledKeepsBroadcast(q, rec, localSeq, chainSeq, now);
    ReconciledKeepsDistinct(q, q', a, rec.id, chainSeq);
    ForceResetIsSafeIff(q', a, chainSeq);
    assert ContiguousFrom(q', a, chainSeq) <==> ContiguousFrom(q, a, chainSeq);
  }

  lemma ReconciledKeepsDistinct(q: Queue, q': Queue, a: Addr, except: Id, from: nat)
    requires DistinctNumbers(q, OtherBroadcast(q, a, except, from))
    requires Inflight(q', a, from) == Inflight(q, a, from) && except !in Inflight(q, a, from)
    requires HashedClaims(q', a, from) == HashedClaims(q, a, from) - {except}
    requires q'.rows.Keys == q.rows.Keys
    requires forall id :: id in OtherBroadcast(q, a, except, 0) ==> q'.rows[id] == q.rows[id]
    ensures DistinctNumbers(q', BroadcastFrom(q', a, from))
  {
    forall i, j | i in BroadcastFrom(q', a, from) && j in BroadcastFrom(q', a, from) && i != j
      ensures q'.rows[i].seqNum != q'.rows[j].seqNum
    {
      assert i in OtherBroadcast(q, a, except, from) && j in OtherBroadcast(q, a, except, from);
      assert i in OtherBroadcast(q, a, except, 0) && j in OtherBroadcast(q, a, except, 0);
    }
  }

  lemma ReconciledKeepsBroadcast(q: Queue, rec: Record, localSeq: nat, chainSeq: nat, now: Time)
    requires rec.id in q.rows && q.rows[rec.id].status == Processing && chainSeq < localSeq
    ensures var a, q' := rec.sender, Reconciled(q, rec, localSeq, chainSeq, now);
            && q'.rows.Keys == q.rows.Keys
            && Inflight(q', a, chainSeq) == Inflight(q, a, chainSeq) && rec.id !in Inflight(q, a, chainSeq)
            && HashedClaims(q', a, chainSeq) == HashedClaims(q, a, chainSeq) - {rec.id}
            && (forall id :: id in OtherBroadcast(q, a, rec.id, 0) ==> id in q'.rows && q'.rows[id] == q.rows[id])
            && (forall n: nat :: Counted(q', a, n) <==> Counted(q, a, n))
            && Next(q', a) == Next(ForceReset(q', a, chainSeq), a)
  {
    var a, q' := rec.sender, Reconciled(q, rec, localSeq, chainSeq, now);
    assert forall id :: id in q.rows && q.rows[id].status == Submitted ==> q'.rows[id] == q.rows[id];
    assert forall id :: id in q'.rows && q'.rows[id].status == Submitted ==> q'.rows[id] == q.rows[id];
  }

  // ---- Convergence ----

  // An account: the store and the chain's next sequence number.
  datatype Account = Account(q: Queue, chain: nat)

  // Offer claims, signs and broadcasts the oldest queued row; a rejected one is reconciled.
  // Meanwhile is anything that other senders, the handler or the poller do.
  datatype Turn = Offer(id: Id, hash: string, now: Time) | Meanwhile(q: Queue)

  // The chain does not lie behind what the store knows to be broadcast.
  ghost predicate NoneAhead(a: Addr, x: Account) {
    Inflight(x.q, a, x.chain) == {}
  }

  ghost predicate CanTurn(a: Addr, x: Account, t: Turn) {
    match t
    case Offer(id, _, _) => IsOldest(x.q, a, id) && WellKeyed(x.q.rows)
    case Meanwhile(q) => Next(q, a) == Next(x.q, a) && NoneAhead(a, Account(q, x.chain))
  }

  function Submits(q: Queue, rec: Record, hash: string, now: Time): Queue {
    Put(q, rec.(status := Submitted, hash := hash, updatedAt := now))
  }

  // The signed record's hash is persisted, then the record is broadcast at its number.
  function Broadcasts(x: Account, rec: Record, hash: string, now: Time): Account
    requires rec.seqNum.Some?
  {
    var q := Put(x.q, rec.(hash := hash, updatedAt := now));
    if rec.seqNum.value == x.chain then Account(Submits(q, rec, hash, now), x.chain + 1)
    else Account(Reconciled(q, rec.(hash := ""), rec.seqNum.value, x.chain, now), x.chain)
  }

  function AfterTurn(a: Addr, x: Account, t: Turn): Account {
    match t
    case Offer(id, hash, now) =>
      if id in x.q.rows then Broadcasts(x.(q := Claim(x.q, a, id, now)), Claim(x.q, a, id, now).rows[id], hash, now)
      else x
    case Meanwhile(q) => x.(q := q)
  }

  predicate IsRejected(a: Addr, x: Account, t: Turn) {
    t.Offer? && Next(x.q, a) != x.chain
  }

  // A claim is accepted the first time exactly when the counter agrees with the chain.
  predicate InStep(a: Addr, x: Account) {
    Next(x.q, a) == x.chain
  }

  ghost predicate IsSession(a: Addr, x: Account, turns: seq<Turn>)
    decreases |turns|
  {
    |turns| == 0 || (CanTurn(a, x, turns[0]) && IsSession(a, AfterTurn(a, x, turns[0]), turns[1..]))
  }

  function Rejections(a: Addr, x: Account, turns: seq<Turn>): nat
    decreases |turns|
  {
    if |turns| == 0 then 0
    else (if IsRejected(a, x, turns[0]) then 1 else 0) + Rejections(a, AfterTurn(a, x, turns[0]), turns[1..])
  }

  lemma RejectedIsBehind(a: Addr, x: Account, rec: Record, hash: string, now: Time)
    requires NoneAhead(a, x) && rec.seqNum.Some? && rec.seqNum.value != x.chain && rec.sender == a
    requires rec.status == Processing
    ensures var y := Broadcasts(x, rec, hash, now);
            && NoneAhead(a, y) && y.chain == x.chain
            && Next(y.q, a) == if x.chain < rec.seqNum.value || Next(x.q, a) < x.chain then x.chain else Next(x.q, a)
  {
    var q := Put(x.q, rec.(hash := hash, updatedAt := now));
    forall id | id in q.rows ensures !IsInflight(q.rows[id], a, x.chain) {
      assert id !in Inflight(x.q, a, x.chain);
    }
    assert Inflight(q, a, x.chain) == {};
    var y := Broadcasts(x, rec, hash, now);
    forall id | id in y.q.rows ensures !IsInflight(y.q.rows[id], a, x.chain) {
      assert id in q.rows;
      assert id !in Inflight(q, a, x.chain);
    }
  }

  // Whatever the counter was, one fresh claim - accepted or rejected - brings it in step.
  lemma OfferBringsInStep(a: Addr, x: Account, id: Id, hash: string, now: Time)
    requires NoneAhead(a, x) && CanTurn(a, x, Offer(id, hash, now))
    ensures NoneAhead(a, AfterTurn(a, x, Offer(id, hash, now)))
    ensures InStep(a, AfterTurn(a, x, Offer(id, hash, now)))
  {
    var q := Claim(x.q, a, id, now);
    forall j | j in q.rows ensures !IsInflight(q.rows[j], a, x.chain) {
      assert j !in Inflight(x.q, a, x.chain);
    }
    assert Inflight(q, a, x.chain) == {};
    if Next(x.q, a) == x.chain {
    } else {
      RejectedIsBehind(a, x.(q := q), q.rows[id], hash, now);
    }
  }

  // Once in step, no claim is ever rejected.
  lemma {:induction false} InStepNeverRejects(a: Addr, x: Account, turns: seq<Turn>)
    requires NoneAhead(a, x) && InStep(a, x) && IsSession(a, x, turns)
    ensures Rejections(a, x, turns) == 0
    decreases |turns|
  {
    if |turns| > 0 {
      if turns[0].Offer? {
        OfferBringsInStep(a, x, turns[0].id, turns[0].hash, turns[0].now);
      }
      InStepNeverRejects(a, AfterTurn(a, x, turns[0]), turns[1..]);
    }
  }

  predicate AnyOffer(turns: seq<Turn>) {
    |turns| > 0 && (turns[0].Offer? || AnyOffer(turns[1..]))
  }

  // From any counter, chain and set of claimed siblings: among fresh claims only the first can be
  // rejected, and it is exactly when the counter disagrees with the chain.
  lemma {:induction false} FreshClaimsConverge(a: Addr, x: Account, turns: seq<Turn>)
    requires NoneAhead(a, x) && IsSession(a, x, turns)
    ensures Rejections(a, x, turns) == if !InStep(a, x) && AnyOffer(turns) then 1 else 0
    decreases |turns|
  {
    if |turns| > 0 {
      var y := AfterTurn(a, x, turns[0]);
      if turns[0].Offer? {
        OfferBringsInStep(a, x, turns[0].id, turns[0].hash, turns[0].now);
        InStepNeverRejects(a, y, turns[1..]);
      } else {
        FreshClaimsConverge(a, y, turns[1..]);
      }
    }
  }

  // The worker may start with a claim already in hand, at any number.
  lemma ReconciliationConverges(a: Addr, x: Account, rec: Record, hash: string, now: Time, turns: seq<Turn>)
    requires NoneAhead(a, x) && rec.seqNum.Some? && rec.sender == a && rec.status == Processing
    requires IsSession(a, Broadcasts(x, rec, hash, now), turns)
    ensures (if rec.seqNum.value == x.chain then 0 else 1) + Rejections(a, Broadcasts(x, rec, hash, now), turns) <= 2
    ensures InStep(a, Broadcasts(x, rec, hash, now)) ==> Rejections(a, Broadcasts(x, rec, hash, now), turns) == 0
    // after the first fresh claim, whatever its fate, every claim is accepted the first time
    ensures forall i :: 0 <= i < |turns| && turns[i].Offer? ==>
              Rejections(a, AfterTurns(a, Broadcasts(x, rec, hash, now), turns[..i + 1]), turns[i + 1..]) == 0
  {
    if rec.seqNum.value == x.chain {
    } else {
      RejectedIsBehind(a, x, rec, hash, now);
    }
    var y := Broadcasts(x, rec, hash, now);
    FreshClaimsConverge(a, y, turns);
    forall i | 0 <= i < |turns| && turns[i].Offer?
      ensures Rejections(a, AfterTurns(a, y, turns[..i + 1]), turns[i + 1..]) == 0
    {
      InStepAfterOffer(a, y, turns, i);
    }
  }

  function AfterTurns(a: Addr, x: Account, turns: seq<Turn>): Account
    decreases |turns|
  {
    if |turns| == 0 then x else AfterTurns(a, AfterTurn(a, x, turns[0]), turns[1..])
  }

  lemma {:induction false} InStepAfterOffer(a: Addr, x: Account, turns: seq<Turn>, i: nat)
    requires NoneAhead(a, x) && IsSession(a, x, turns) && i < |turns| && turns[i].Offer?
    ensures Rejections(a, AfterTurns(a, x, turns[..i + 1]), turns[i + 1..]) == 0
    decreases |turns|
  {
    var y := AfterTurn(a, x, turns[0]);
    assert turns[..i + 1][1..] == turns[1..][..i];
    if turns[0].Offer? {
      OfferBringsInStep(a, x, turns[0].id, turns[0].hash, turns[0].now);
    }
    if i == 0 {
      InStepNeverRejects(a, y, turns[1..]);
      assert AfterTurns(a, x, turns[..1]) == y;
    } else {
      assert turns[1..][i - 1] == turns[i];
      assert turns[1..][i..] == turns[i + 1..];
      InStepAfterOffer(a, y, turns[1..], i - 1);
    }
  }

  // Two rejections do occur: the claim in hand lies behind the chain and the counter ahead of it,
  // so the first reconciliation leaves the counter, and only the second brings it down.
  lemma TwoRejectionsOccur()
    ensures exists a: Addr, x: Account, rec: Record, turns: seq<Turn> ::
              && NoneAhead(a, x) && rec.seqNum.Some? && rec.sender == a && rec.status == Processing
              && IsSession(a, Broadcasts(x, rec, "h", 1), turns)
              && rec.seqNum.value != x.chain && Rejections(a, Broadcasts(x, rec, "h", 1), turns) == 1
  {
    var rec := Record(1, "", Processing, "", 7, Some(3), 0, 0, 0, 0);
    var x := Account(Queue(map[1 := rec], map[7 := 9]), 5);
    assert NoneAhead(7, x);
    var y := Broadcasts(x, rec, "h", 1);
    RejectedIsBehind(7, x, rec, "h", 1);
    var offer := Offer(1, "k", 2);
    assert IsOldest(y.q, 7, 1);
    assert [offer][1..] == [];
    assert IsSession(7, y, [offer]);
    assert Rejections(7, y, [offer]) == 1;
  }
}
