/**
 Idempotent enqueue.  Execute looks the key up, creates the record, and turns a conflict into
 a replay; between these store calls any number of other requests, and the worker and the
 poller, may run.  Whether a request is well formed is a parameter.
 */
module Enqueue {
  import opened Types
  import M = MemoryStore

  datatype Response = Accepted(id: Id, replayed: bool) | BadRequest | ServerError

  predicate IsNew(rec: Record) {
    rec.status == Queued && rec.seqNum.None? && rec.hash == ""
  }

  class Handler {
    const store: M.MemoryStore

    constructor (store: M.MemoryStore)
      ensures this.store == store
    {
      this.store := store;
    }

    // One request; late says that the key's owner was stored only after the first lookup, which
    // then missed it.  A stored key is otherwise replayed before the request is even validated.
    method Execute(rec: Record, wellFormed: bool, late: bool, now: Time) returns (response: Response)
      requires store.Valid() && IsNew(rec)
      modifies store
      ensures store.Valid() && store.sequences == old(store.sequences)
      ensures var taken := rec.key != "" && M.KeyTaken(old(store.records), rec.key, {});
              && (response.Accepted? && response.replayed <==>
                  taken && (!late || (wellFormed && rec.id !in old(store.records))))
              && (response.Accepted? && response.replayed ==>
                    response.id in old(store.records) && old(store.records)[response.id].key == rec.key)
              && (response == Accepted(rec.id, false) <==> !taken && wellFormed && rec.id !in old(store.records))
              && (response.Accepted? && !response.replayed ==> response.id == rec.id)
              && (response == BadRequest <==> !wellFormed && (!taken || late))
      ensures store.records ==
              if response == Accepted(rec.id, false) then
                old(store.records)[rec.id := rec.(createdAt := now, updatedAt := now)]
              else old(store.records)
    {
      if rec.key != "" && !late {
        var existing := store.GetByIdempotencyKey(rec.key);
        if existing.Some? {
          return Accepted(existing.value.id, true);
        }
      }
      if !wellFormed {
        return BadRequest;
      }
      var created := store.Create(rec, now);
      match created {
        case Written => return Accepted(rec.id, false);
        case IdempotencyConflict =>
          var existing := store.GetByIdempotencyKey(rec.key);
          return if existing.Some? then Accepted(existing.value.id, true) else ServerError;
        case _ => return ServerError;
      }
    }
  }

  // ---- Any number of requests at once ----

  datatype Phase = LookingUp | Creating | Replaying | Answered(response: Response)

  datatype Request = Request(rec: Record, phase: Phase)

  datatype Race = Race(rows: map<Id, Record>, requests: map<nat, Request>)

  datatype Step =
    | Arrive(r: nat, rec: Record)
    | LookUp(r: nat)
    | Refuse(r: nat)                           // malformed, or the store reports an error
    | Create(r: nat, now: Time)
    | Replay(r: nat)
    | Others(rows: map<Id, Record>)

  // The worker and the poller change records but neither remove them nor touch their keys.
  ghost predicate KeepsKeys(rows: map<Id, Record>, rows': map<Id, Record>) {
    && WellKeyed(rows') && rows'.Keys == rows.Keys
    && forall id :: id in rows ==> rows'[id].key == rows[id].key
  }

  ghost predicate InPhase(s: Race, r: nat, phase: Phase) {
    r in s.requests && s.requests[r].phase == phase
  }

  ghost predicate Enabled(s: Race, step: Step) {
    match step
    case Arrive(r, rec) =>
      && r !in s.requests && IsNew(rec) && rec.id !in s.rows
      && forall x :: x in s.requests ==> s.requests[x].rec.id != rec.id
    case LookUp(r) => InPhase(s, r, LookingUp)
    case Refuse(r) => r in s.requests && !s.requests[r].phase.Answered?
    case Create(r, _) => InPhase(s, r, Creating)
    case Replay(r) => InPhase(s, r, Replaying)
    case Others(rows) => KeepsKeys(s.rows, rows)
  }

  // A lookup finds the record that owns the key.
  ghost function Owner(rows: map<Id, Record>, key: string): Option<Id> {
    if key != "" && M.KeyTaken(rows, key, {}) then
      var id :| id in rows && rows[id].key == key;
      Some(id)
    else None
  }

  ghost function Moved(s: Race, r: nat, phase: Phase): Race
    requires r in s.requests
  {
    s.(requests := s.requests[r := s.requests[r].(phase := phase)])
  }

  ghost function Apply(s: Race, step: Step): Race
    requires Enabled(s, step)
  {
    match step
    case Arrive(r, rec) => s.(requests := s.requests[r := Request(rec, LookingUp)])
    case LookUp(r) =>
      var owner := Owner(s.rows, s.requests[r].rec.key);
      Moved(s, r, if owner.Some? then Answered(Accepted(owner.value, true)) else Creating)
    case Refuse(r) => Moved(s, r, Answered(ServerError))
    case Create(r, now) =>
      var rec := s.requests[r].rec;
      if rec.id in s.rows then Moved(s, r, Answered(ServerError))
      else if Owner(s.rows, rec.key).Some? then Moved(s, r, Replaying)
      else
        var created := Moved(s, r, Answered(Accepted(rec.id, false)));
        created.(rows := s.rows[rec.id := rec.(createdAt := now, updatedAt := now)])
    case Replay(r) =>
      var owner := Owner(s.rows, s.requests[r].rec.key);
      Moved(s, r, Answered(if owner.Some? then Accepted(owner.value, true) else ServerError))
    case Others(rows) => s.(rows := rows)
  }

  ghost predicate IsRun(s: Race, steps: seq<Step>)
    decreases |steps|
  {
    |steps| == 0 || (Enabled(s, steps[0]) && IsRun(Apply(s, steps[0]), steps[1..]))
  }

  ghost function Final(s: Race, steps: seq<Step>): Race
    requires IsRun(s, steps)
    decreases |steps|
  {
    if |steps| == 0 then s else Final(Apply(s, steps[0]), steps[1..])
  }

  // ---- Undisturbed ----

  // A well-formed request whose steps nothing disturbs has the answer and the effect of the handler.
  lemma UndisturbedRequestIsExecute(s: Race, r: nat, now: Time)
    requires InPhase(s, r, LookingUp) && s.requests[r].rec.id !in s.rows
    ensures var rec, s1 := s.requests[r].rec, Apply(s, LookUp(r));
            if rec.key != "" && M.KeyTaken(s.rows, rec.key, {}) then
              && s1.rows == s.rows && s1.requests[r].phase.Answered?
              && var response := s1.requests[r].phase.response;
                 response.Accepted? && response.replayed
                 && response.id in s.rows && s.rows[response.id].key == rec.key
            else
              && Enabled(s1, Create(r, now))
              && var s2 := Apply(s1, Create(r, now));
                 && s2.requests[r].phase == Answered(Accepted(rec.id, false))
                 && s2.rows == s.rows[rec.id := rec.(createdAt := now, updatedAt := now)]
  {
  }

  // ---- The invariant ----

  // A success names a stored record with the request's key, its own one if it is no replay.
  ghost predicate Truthful(rows: map<Id, Record>, req: Request) {
    req.phase.Answered? && req.phase.response.Accepted? ==>
      && req.phase.response.id in rows && rows[req.phase.response.id].key == req.rec.key
      && (!req.phase.response.replayed ==> req.phase.response.id == req.rec.id)
      && (req.phase.response.replayed ==> req.rec.key != "")
  }

  ghost predicate Sound(s: Race) {
    && WellKeyed(s.rows) && M.KeysUnique(s.rows)
    && (forall r :: r in s.requests ==> Truthful(s.rows, s.requests[r]))
    && (forall x, y :: x in s.requests && y in s.requests && x != y ==> s.requests[x].rec.id != s.requests[y].rec.id)
  }

  lemma StepKeepsSound(s: Race, step: Step)
    requires Sound(s) && Enabled(s, step)
    ensures Sound(Apply(s, step))
  {
    var s' := Apply(s, step);
    forall x | x in s'.requests ensures Truthful(s'.rows, s'.requests[x]) {
      assert x in s.requests ==> Truthful(s.rows, s.requests[x]);
    }
  }

  lemma {:induction false} RunKeepsSound(s: Race, steps: seq<Step>)
    requires Sound(s) && IsRun(s, steps)
    ensures Sound(Final(s, steps))
    decreases |steps|
  {
    if |steps| > 0 {
      StepKeepsSound(s, steps[0]);
      RunKeepsSound(Apply(s, steps[0]), steps[1..]);
    }
  }

  // ---- The theorem ----

  ghost predicate Succeeds(s: Race, r: nat, key: string) {
    && r in s.requests && s.requests[r].rec.key == key
    && s.requests[r].phase.Answered? && s.requests[r].phase.response.Accepted?
  }

  // However the requests with one key interleave, at most one record has the key, every success
  // response carries its id, and at most one of them is not a replay.
  lemma OneRecordPerKey(s: Race, steps: seq<Step>, key: string, x: nat, y: nat)
    requires WellKeyed(s.rows) && M.KeysUnique(s.rows) && s.requests == map[] && IsRun(s, steps) && key != ""
    ensures var s' := Final(s, steps);
            && M.KeysUnique(s'.rows)
            && (Succeeds(s', x, key) ==>
                  s'.requests[x].phase.response.id in s'.rows && s'.rows[s'.requests[x].phase.response.id].key == key)
            && (Succeeds(s', x, key) && Succeeds(s', y, key) ==>
                  && s'.requests[x].phase.response.id == s'.requests[y].phase.response.id
                  && (x != y ==> s'.requests[x].phase.response.replayed || s'.requests[y].phase.response.replayed))
  {
    RunKeepsSound(s, steps);
    var s' := Final(s, steps);
    assert x in s'.requests ==> Truthful(s'.rows, s'.requests[x]);
    assert y in s'.requests ==> Truthful(s'.rows, s'.requests[y]);
  }
}
