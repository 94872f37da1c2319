/**
 Any number of pollers at once.  Each job holds a copy of a record that may have gone stale,
 and only the conditional write is atomic.  The rest of the service may do anything to the
 records except revive one that has reached a terminal status.
 */
module PollRace {
  import opened Types
  import opened Poller

  datatype Job =
    | Looking(rec: Record, expected: Status)
    | Writing(verdict: Record, expected: Status)
    | Notifying(rec: Record)

  // settled and notices are the histories of the pollers' writes and webhook calls.
  datatype Race = Race(rows: map<Id, Record>, jobs: map<nat, Job>, settled: seq<Id>, notices: seq<Id>)

  datatype Step =
    | Read(job: nat, id: Id)
    | Lookup(job: nat, answer: Answer)
    | Write(job: nat, refused: bool)           // refused: the store reports an error instead
    | Notify(job: nat)
    | Others(rows: map<Id, Record>)

  // What a sweep hands out: a submitted record, or a claimed one that carries a hash.
  predicate IsPolled(r: Record) {
    r.status == Submitted || (r.status == Processing && r.hash != "")
  }

  ghost predicate Revives(s: Race, rows: map<Id, Record>) {
    exists id :: id in rows && !rows[id].status.IsTerminal() &&
                 (id in s.settled || (id in s.rows && s.rows[id].status.IsTerminal()))
  }

  ghost predicate Enabled(s: Race, step: Step) {
    match step
    case Read(job, id) => job !in s.jobs && id in s.rows && IsPolled(s.rows[id])
    case Lookup(job, _) => job in s.jobs && s.jobs[job].Looking?
    case Write(job, _) => job in s.jobs && s.jobs[job].Writing?
    case Notify(job) => job in s.jobs && s.jobs[job].Notifying?
    case Others(rows) => WellKeyed(rows) && !Revives(s, rows)
  }

  predicate Matches(rows: map<Id, Record>, id: Id, expected: Status) {
    id in rows && rows[id].status == expected
  }

  ghost function Apply(s: Race, step: Step): Race
    requires Enabled(s, step)
  {
    match step
    case Read(job, id) => s.(jobs := s.jobs[job := Looking(s.rows[id], s.rows[id].status)])
    case Lookup(job, answer) =>
      var v := Verdict(s.jobs[job].rec, answer);
      if v.Some? then s.(jobs := s.jobs[job := Writing(v.value, s.jobs[job].expected)]) else s.(jobs := s.jobs - {job})
    case Write(job, refused) =>
      var rec := s.jobs[job].verdict;
      if !refused && Matches(s.rows, rec.id, s.jobs[job].expected) then
        Race(s.rows[rec.id := rec], s.jobs[job := Notifying(rec)], s.settled + [rec.id], s.notices)
      else s.(jobs := s.jobs - {job})
    case Notify(job) => s.(jobs := s.jobs - {job}, notices := s.notices + [s.jobs[job].rec.id])
    case Others(rows) => s.(rows := rows)
  }

  ghost predicate IsRun(s: Race, steps: seq<Step>)
    decreases |steps|
  {
    |steps| == 0 || (Enabled(s, steps[0]) && IsRun(Apply(s, steps[0]), steps[1..]))
  }

  ghost function Final(s: Race, steps: seq<Step>): Race
    requires IsRun(s, steps)
    decreases |steps|
  {
    if |steps| == 0 then s else Final(Apply(s, steps[0]), steps[1..])
  }

  // ---- Undisturbed ----

  // A lookup and the write after it, with nothing in between, are the sequential poller's visit.
  lemma UndisturbedJobIsVisit(s: Race, job: nat, answer: Answer)
    requires job in s.jobs && s.jobs[job].Looking?
    ensures var rec, expected := s.jobs[job].rec, s.jobs[job].expected;
            var s1 := Apply(s, Lookup(job, answer));
            if Verdict(rec, answer).None? then s1.rows == s.rows && job !in s1.jobs
            else
              && Enabled(s1, Write(job, !M.KeyFree(s.rows, rec)))
              && Apply(s1, Write(job, !M.KeyFree(s.rows, rec))).rows == AfterVisit(s.rows, rec, expected, answer)
  {
  }

  // ---- The invariant ----

  // The jobs that still owe a notice for the record.
  function Owing(jobs: map<nat, Job>, id: Id): set<nat> {
    set j | j in jobs && jobs[j].Notifying? && jobs[j].rec.id == id
  }

  ghost predicate Exact(s: Race, id: Id) {
    && multiset(s.settled)[id] <= 1
    && multiset(s.settled)[id] == multiset(s.notices)[id] + |Owing(s.jobs, id)|
  }

  ghost predicate Sound(s: Race) {
    && WellKeyed(s.rows)
    && (forall id :: id in s.settled && id in s.rows ==> s.rows[id].status.IsTerminal())
    && (forall j :: j in s.jobs && s.jobs[j].Looking? ==> !s.jobs[j].expected.IsTerminal())
    && (forall j :: j in s.jobs && s.jobs[j].Writing? ==>
          !s.jobs[j].expected.IsTerminal() && s.jobs[j].verdict.status.IsTerminal())
    && (forall id :: Exact(s, id))
  }

  lemma OwingGrows(jobs: map<nat, Job>, job: nat, rec: Record, id: Id)
    requires job in jobs && !jobs[job].Notifying?
    ensures |Owing(jobs[job := Notifying(rec)], id)| == |Owing(jobs, id)| + (if id == rec.id then 1 else 0)
  {
    var jobs' := jobs[job := Notifying(rec)];
    assert Owing(jobs', id) == if id == rec.id then Owing(jobs, id) + {job} else Owing(jobs, id);
  }

  lemma OwingStays(jobs: map<nat, Job>, job: nat, id: Id)
    requires job in jobs && !jobs[job].Notifying?
    ensures Owing(jobs - {job}, id) == Owing(jobs, id)
  {
  }

  // A write settles a record only if nobody has settled it before.
  lemma WriteIsExact(s: Race, job: nat, refused: bool, id: Id)
    requires Sound(s) && Enabled(s, Write(job, refused))
    ensures Exact(Apply(s, Write(job, refused)), id)
  {
    var rec := s.jobs[job].verdict;
    assert Exact(s, id);
    if !refused && Matches(s.rows, rec.id, s.jobs[job].expected) {
      assert rec.id !in s.settled;
      OwingGrows(s.jobs, job, rec, id);
    } else {
      OwingStays(s.jobs, job, id);
    }
  }

  lemma NotifyIsExact(s: Race, job: nat, id: Id)
    requires Sound(s) && Enabled(s, Notify(job))
    ensures Exact(Apply(s, Notify(job)), id)
  {
    assert Exact(s, id);
    assert Owing(s.jobs - {job}, id) ==
           if id == s.jobs[job].rec.id then Owing(s.jobs, id) - {job} else Owing(s.jobs, id);
  }

  lemma OtherStepIsExact(s: Race, step: Step, id: Id)
    requires Sound(s) && Enabled(s, step) && !step.Write? && !step.Notify?
    ensures Exact(Apply(s, step), id)
  {
    assert Exact(s, id);
    assert Owing(Apply(s, step).jobs, id) == Owing(s.jobs, id);
  }

  lemma StepKeepsSound(s: Race, step: Step)
    requires Sound(s) && Enabled(s, step)
    ensures Sound(Apply(s, step))
  {
    forall id ensures Exact(Apply(s, step), id) {
      match step {
        case Write(job, refused) => WriteIsExact(s, job, refused, id);
        case Notify(job) => NotifyIsExact(s, job, id);
        case _ => OtherStepIsExact(s, step, id);
      }
    }
  }

  lemma {:induction false} RunKeepsSound(s: Race, steps: seq<Step>)
    requires Sound(s) && IsRun(s, steps)
    ensures Sound(Final(s, steps))
    decreases |steps|
  {
    if |steps| > 0 {
      StepKeepsSound(s, steps[0]);
      RunKeepsSound(Apply(s, steps[0]), steps[1..]);
    }
  }

  ghost predicate Initial(s: Race) {
    WellKeyed(s.rows) && s.jobs == map[] && s.settled == [] && s.notices == []
  }

  // Every record makes at most one terminal transition, at most one notice is issued for it, and
  // when no job is left owing one, exactly one for each transition.
  lemma OneTransitionOneNotice(s: Race, steps: seq<Step>, id: Id)
    requires Initial(s) && IsRun(s, steps)
    ensures var s' := Final(s, steps);
            && multiset(s'.notices)[id] <= multiset(s'.settled)[id] <= 1
            && ((forall j :: j in s'.jobs ==> !s'.jobs[j].Notifying?) ==> multiset(s'.notices) == multiset(s'.settled))
  {
    forall i ensures Exact(s, i) {
      assert Owing(s.jobs, i) == {};
    }
    RunKeepsSound(s, steps);
    var s' := Final(s, steps);
    assert Exact(s', id);
    if forall j :: j in s'.jobs ==> !s'.jobs[j].Notifying? {
      forall i ensures multiset(s'.notices)[i] == multiset(s'.settled)[i] {
        assert Exact(s', i) && Owing(s'.jobs, i) == {};
      }
    }
  }
}
