/**
 What the rest of the service does to a sender's records, as steps of the pipeline: the poller's
 writes, the handler's creations and the archiver's deletions are the environment's steps, and a
 broadcast that a crash cut off can still be accepted.
 */
module Outside {
  import opened Types
  import opened Pipeline
  import E = Enqueue
  import P = Poller

  // The poller's write of a verdict is a step of the environment.
  lemma PollerWriteIsStep(a: Addr, s: State, rec: Record, expected: Status, answer: P.Answer)
    requires P.Writes(s.q.rows, rec, expected, answer) && rec.sender == s.q.rows[rec.id].sender
    requires expected == Submitted || expected == Processing
    ensures var step := PollerWrite(P.Verdict(rec, answer).value, expected);
            && EnvEnabled(a, s, step)
            && EnvApply(a, s, step) == s.(q := s.q.(rows := P.AfterVisit(s.q.rows, rec, expected, answer)))
  {
  }

  // So is the creation of a record, which joins the sender's history.
  lemma CreateIsStep(a: Addr, s: State, rec: Record, now: Time)
    requires E.IsNew(rec) && rec.sender == a && rec.id !in s.ids && rec.id !in s.q.rows
    ensures var stored := rec.(createdAt := now, updatedAt := now);
            && EnvEnabled(a, s, Enqueue(stored))
            && EnvApply(a, s, Enqueue(stored)) ==
               s.(q := s.q.(rows := s.q.rows[rec.id := stored]), ids := s.ids + [rec.id])
  {
  }

  function Deletions(ids: seq<Id>): seq<Step> {
    seq(|ids|, i requires 0 <= i < |ids| => Env(Delete(ids[i])))
  }

  // A purge is the deletion of its records one by one, in any order.
  lemma {:induction false} PurgeIsSteps(a: Addr, depth: nat, s: State, gone: seq<Id>)
    requires forall i :: 0 <= i < |gone| ==> gone[i] in s.q.rows
    requires forall i, j :: 0 <= i < j < |gone| ==> gone[i] != gone[j]
    ensures IsRun(a, depth, s, Deletions(gone))
    ensures Final(a, depth, s, Deletions(gone)) == s.(q := s.q.(rows := s.q.rows - set i | 0 <= i < |gone| :: gone[i]))
    decreases |gone|
  {
    if |gone| == 0 {
      assert s.q.rows - {} == s.q.rows;
    } else {
      var s1 := EnvApply(a, s, Delete(gone[0]));
      PurgeIsSteps(a, depth, s1, gone[1..]);
      assert Deletions(gone)[1..] == Deletions(gone[1..]);
    }
  }

  // A broadcast under way when the process dies is accepted at its number afterwards or never.
  lemma CutOffMayBeAccepted(a: Addr, s: State)
    requires s.worker.Some? && s.worker.value.consumer.Submitting?
    ensures var s1, rec := EnvApply(a, s, Crash), s.worker.value.consumer.item.rec;
            && s1.worker.None? && s1.log == s.log
            && (EnvEnabled(a, s1, LateAccept(rec.id)) <==> rec.seqNum == Some(|s.log|))
            && EnvApply(a, s1, LateAccept(rec.id)).log == s.log + [Some(rec.id)]
            && !EnvEnabled(a, EnvApply(a, s1, LateAccept(rec.id)), LateAccept(rec.id))
  {
  }
}
