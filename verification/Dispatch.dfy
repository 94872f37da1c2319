/**
 The dispatcher: which senders get a worker, and in what order.  A worker that has returned
 stays registered until it removes its own entry.
 */
module Dispatch {
  import opened Types
  import opened QueueSpec
  import opened Counting
  import M = MemoryStore

  // The sender at the head of the listing owns the oldest queued row of all.
  lemma HeadClaimsOldest(q: Queue, senders: seq<Addr>, id: Id, j: Id)
    requires forall a :: a in senders <==> M.HasQueued(q.rows, a)
    requires forall x, y :: 0 <= x < y < |senders| ==> M.ServedBefore(q.rows, senders[x], senders[y])
    requires |senders| > 0 && IsOldest(q, senders[0], id)
    requires j in q.rows && q.rows[j].status == Queued
    ensures q.rows[id].createdAt <= q.rows[j].createdAt
  {
    var b := q.rows[j].sender;
    assert QueuedFor(q.rows[j], b) && M.HasQueued(q.rows, b);
    var y :| 0 <= y < |senders| && senders[y] == b;
    if y > 0 {
      assert M.ServedBefore(q.rows, senders[0], b);
    }
  }

  function Idle(senders: seq<Addr>, workers: set<Addr>): seq<Addr> {
    if |senders| == 0 then []
    else Idle(senders[..|senders| - 1], workers) +
         (if senders[|senders| - 1] in workers then [] else [senders[|senders| - 1]])
  }

  lemma {:induction false} IdleOfPrefix(senders: seq<Addr>, i: nat, workers: set<Addr>)
    requires i <= |senders|
    ensures Idle(senders[..i], workers) <= Idle(senders, workers)
    decreases |senders|
  {
    if i < |senders| {
      var n := |senders| - 1;
      assert senders[..n][..i] == senders[..i];
      IdleOfPrefix(senders[..n], i, workers);
    } else {
      assert senders[..i] == senders;
    }
  }

  lemma {:induction false} IdleMembers(senders: seq<Addr>, workers: set<Addr>)
    ensures forall a :: a in Idle(senders, workers) <==> a in senders && a !in workers
    ensures NoRepeats(senders) ==> NoRepeats(Idle(senders, workers))
    decreases |senders|
  {
    if |senders| > 0 {
      var n := |senders| - 1;
      IdleMembers(senders[..n], workers);
      assert senders == senders[..n] + [senders[n]];
      assert NoRepeats(senders) ==> NoRepeats(senders[..n]) && senders[n] !in senders[..n];
    }
  }

  function Elements(s: seq<Addr>): set<Addr> {
    set i | 0 <= i < |s| :: s[i]
  }

  lemma ElementsAppend(s: seq<Addr>, a: Addr)
    ensures Elements(s + [a]) == Elements(s) + {a}
  {
    assert forall i :: 0 <= i < |s| ==> (s + [a])[i] == s[i];
    assert (s + [a])[|s|] == a;
  }

  // At most one live worker for a sender, and at most max in all.
  ghost predicate Registered(running: seq<Addr>, returned: set<Addr>, workers: set<Addr>, max: nat) {
    && NoRepeats(running) && workers == Elements(running) + returned && Elements(running) !! returned
    && |workers| <= max
  }

  // In the middle of a tick: the idle ones among the senders seen have been started.
  ghost predicate Ticked(was: set<Addr>, seen: seq<Addr>, workers: set<Addr>, started: seq<Addr>) {
    started == Idle(seen, was) && workers == was + Elements(started) && |workers| == |was| + |started|
  }

  lemma TickNext(was: set<Addr>, senders: seq<Addr>, i: nat, workers: set<Addr>, started: seq<Addr>)
    requires NoRepeats(senders) && i < |senders| && Ticked(was, senders[..i], workers, started)
    ensures senders[i] in workers <==> senders[i] in was
    ensures if senders[i] in workers then Ticked(was, senders[..i + 1], workers, started)
            else Ticked(was, senders[..i + 1], workers + {senders[i]}, started + [senders[i]])
  {
    var a := senders[i];
    assert senders[..i + 1][..i] == senders[..i];
    IdleMembers(senders[..i], was);
    assert a !in senders[..i];
    assert a !in Elements(started);
    ElementsAppend(started, a);
  }

  lemma StartOneMore(running: seq<Addr>, returned: set<Addr>, workers: set<Addr>, max: nat, a: Addr)
    requires Registered(running, returned, workers, max) && a !in workers && |workers| < max
    ensures Registered(running + [a], returned, workers + {a}, max)
  {
    ElementsAppend(running, a);
    assert forall i :: 0 <= i < |running| ==> running[i] in Elements(running);
  }

  lemma ReturnKeepsRegistered(running: seq<Addr>, returned: set<Addr>, workers: set<Addr>, max: nat, a: Addr)
    requires Registered(running, returned, workers, max) && a in running
    ensures Registered(Idle(running, {a}), returned + {a}, workers, max)
  {
    IdleMembers(running, {a});
    var live := Idle(running, {a});
    forall x ensures x in Elements(live) <==> x in Elements(running) && x != a {
      assert x in Elements(live) <==> x in live;
      assert x in Elements(running) <==> x in running;
    }
  }

  method Others(running: seq<Addr>, a: Addr) returns (live: seq<Addr>)
    ensures live == Idle(running, {a})
  {
    live := [];
    for i := 0 to |running|
      invariant live == Idle(running[..i], {a})
    {
      assert running[..i + 1][..i] == running[..i];
      if running[i] != a {
        live := live + [running[i]];
      }
    }
    assert running[..|running|] == running;
  }

  class Dispatcher {
    const store: M.MemoryStore
    const maxWorkers: nat
    var workers: set<Addr>                     // the registry
    var running: seq<Addr>                     // the live workers, in the order of their start
    var returned: set<Addr>                    // the workers that have yet to remove their entry

    ghost predicate Valid()
      reads this
    {
      Registered(running, returned, workers, maxWorkers)
    }

    constructor (store: M.MemoryStore, maxWorkers: nat)
      ensures Valid() && this.store == store && this.maxWorkers == maxWorkers && running == []
    {
      this.store := store;
      this.maxWorkers := maxWorkers;
      workers, running, returned := {}, [], {};
    }

    // A tick starts the longest prefix of the idle listed senders that fits.
    method Tick() returns (senders: seq<Addr>, started: seq<Addr>)
      requires Valid()
      modifies this
      ensures Valid() && returned == old(returned)
      ensures forall a :: a in senders <==> M.HasQueued(store.records, a)
      ensures forall i, j :: 0 <= i < j < |senders| ==> M.ServedBefore(store.records, senders[i], senders[j])
      ensures running == old(running) + started && |old(workers)| + |started| <= maxWorkers
      ensures started <= Idle(senders, old(workers))
      ensures started == Idle(senders, old(workers)) || |old(workers)| + |started| == maxWorkers
    {
      senders := store.ListQueuedSenders();
      started := [];
      ghost var was := workers;
      for i := 0 to |senders|
        invariant Valid() && returned == old(returned)
        invariant Ticked(was, senders[..i], workers, started) && running == old(running) + started
      {
        var sender := senders[i];
        IdleOfPrefix(senders, i, was);
        if |workers| >= maxWorkers {
          return;
        }
        TickNext(was, senders, i, workers, started);
        if sender in workers {
          continue;
        }
        Regroup(old(running), started, [sender]);
        StartWorker(sender);
        started := started + [sender];
      }
      assert senders[..|senders|] == senders;
    }

    method StartWorker(a: Addr)
      requires Valid() && a !in workers && |workers| < maxWorkers
      modifies this`running, this`workers
      ensures Valid() && running == old(running) + [a] && workers == old(workers) + {a}
    {
      StartOneMore(running, returned, workers, maxWorkers, a);
      running := running + [a];
      workers := workers + {a};
    }

    // A worker's run ends;
    method WorkerReturns(a: Addr)
      requires Valid() && a in running
      modifies this`running, this`returned
      ensures Valid() && running == Idle(old(running), {a}) && returned == old(returned) + {a}
    {
      ReturnKeepsRegistered(running, returned, workers, maxWorkers, a);
      running := Others(running, a);
      returned := returned + {a};
    }

    // then it removes its entry, and a later tick may start a new one.
    method Unregister(a: Addr)
      requires Valid() && a in returned
      modifies this`workers, this`returned
      ensures Valid() && a !in workers && workers == old(workers) - {a} && returned == old(returned) - {a}
    {
      workers, returned := workers - {a}, returned - {a};
    }
  }
}
