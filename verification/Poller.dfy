/**
 The poller's cursor sweep over an otherwise quiet store: which records it visits, how often
 and in what order, and what it leaves.  What the node answers for a record, and the clock
 when it does, are parameters; the lookups of one page run in page order here.
 */
module Poller {
  import opened Types
  import opened Counting
  import opened Stamps
  import M = MemoryStore

  // No verdict: the transaction is not committed yet.
  datatype Lookup = LookupError | Pending | Committed(success: bool)

  datatype Answer = Answer(lookup: Lookup, now: Time)

  // The terminal record that a lookup calls for, if any.
  function Verdict(rec: Record, answer: Answer): Option<Record> {
    var overdue := answer.now > rec.expiresAt;
    if rec.hash == "" || answer.lookup.LookupError? then
      if overdue then Some(rec.(status := Expired, updatedAt := answer.now)) else None
    else match answer.lookup
      case Committed(success) =>
        Some(rec.(status := if success then Confirmed else Failed, updatedAt := answer.now))
      case _ => None
  }

  // ---- What a whole sweep should do ----

  predicate IsVisited(r: Record, status: Status, requireHash: bool) {
    M.IsListed(r, status, Stamp(0, 0)) && (requireHash ==> r.hash != "")
  }

  function AfterVerdicts(rows: map<Id, Record>, visited: set<Id>, answers: Id -> Answer): map<Id, Record> {
    map id | id in rows ::
      if id in visited && Verdict(rows[id], answers(id)).Some? then Verdict(rows[id], answers(id)).value else rows[id]
  }

  // What each record yields, in order.
  function Gathered(recs: seq<Record>, each: Record -> seq<Record>): seq<Record> {
    if |recs| == 0 then []
    else Gathered(recs[..|recs| - 1], each) + each(recs[|recs| - 1])
  }

  // The notices for a list of visited records: one for each verdict, in order.
  function Notices(recs: seq<Record>, answers: Id -> Answer): seq<Record> {
    Gathered(recs, (rec: Record) => NoticeOf(rec, answers))
  }

  function NoticeOf(rec: Record, answers: Id -> Answer): seq<Record> {
    var v := Verdict(rec, answers(rec.id));
    if v.Some? then [v.value] else []
  }

  predicate InListingOrder(recs: seq<Record>) {
    forall i, j :: 0 <= i < j < |recs| ==> M.ListedBefore(recs[i], recs[j])
  }

  // The records that the sweep visits: all of them, each once, in listing order.
  ghost predicate IsItinerary(rows: map<Id, Record>, status: Status, requireHash: bool, recs: seq<Record>) {
    && M.AreRows(rows, recs) && InListingOrder(recs)
    && forall id :: id in rows ==> (rows[id] in recs <==> IsVisited(rows[id], status, requireHash))
  }

  // ---- The sweep in progress ----

  // seen are the records listed so far, up to the cursor; of these the ones with the required
  // hash were visited; nothing else has changed.
  ghost predicate SweptTo(was: map<Id, Record>, status: Status, cursor: Stamp, seen: seq<Record>) {
    && M.AreRows(was, seen) && InListingOrder(seen)
    && (forall i :: 0 <= i < |seen| ==>
          M.IsListed(seen[i], status, Stamp(0, 0)) && !Lt(cursor, M.ListingStamp(seen[i])))
    && (forall id :: id in was && M.IsListed(was[id], status, Stamp(0, 0)) && !Lt(cursor, M.ListingStamp(was[id])) ==>
          was[id] in seen)
  }

  // The records of a listing that a sweep looks up.
  function Chosen(recs: seq<Record>, requireHash: bool): seq<Record> {
    Gathered(recs, (rec: Record) => ChosenOf(rec, requireHash))
  }

  function ChosenOf(rec: Record, requireHash: bool): seq<Record> {
    if requireHash && rec.hash == "" then [] else [rec]
  }

  lemma ChosenAppend(s: seq<Record>, t: seq<Record>, requireHash: bool)
    ensures Chosen(s + t, requireHash) == Chosen(s, requireHash) + Chosen(t, requireHash)
  {
    GatheredAppend(s, t, (rec: Record) => ChosenOf(rec, requireHash));
  }

  lemma {:induction false} GatheredAppend(s: seq<Record>, t: seq<Record>, each: Record -> seq<Record>)
    ensures Gathered(s + t, each) == Gathered(s, each) + Gathered(t, each)
    decreases |t|
  {
    if |t| == 0 {
      assert s + t == s;
    } else {
      var u, before, last := s + t, t[..|t| - 1], t[|t| - 1];
      GatheredAppend(s, before, each);
      assert u[..|u| - 1] == s + before && u[|u| - 1] == last;
      Regroup(Gathered(s, each), Gathered(before, each), each(last));
    }
  }

  lemma NoticesGrow(sent: seq<Record>, s: seq<Record>, t: seq<Record>, answers: Id -> Answer)
    ensures (sent + Notices(s, answers)) + Notices(t, answers) == sent + Notices(s + t, answers)
  {
    GatheredAppend(s, t, (rec: Record) => NoticeOf(rec, answers));
    Regroup(sent, Notices(s, answers), Notices(t, answers));
  }

  // Leaving out the records without a hash keeps the order.
  lemma {:induction false} ChosenInOrder(recs: seq<Record>, requireHash: bool)
    requires InListingOrder(recs)
    ensures InListingOrder(Chosen(recs, requireHash))
    ensures forall r :: r in Chosen(recs, requireHash) <==> r in recs && (requireHash ==> r.hash != "")
    decreases |recs|
  {
    if |recs| > 0 {
      var last, rest := recs[|recs| - 1], recs[..|recs| - 1];
      ChosenInOrder(rest, requireHash);
      assert recs == rest + [last];
    }
  }

  lemma SweptIsItinerary(was: map<Id, Record>, status: Status, requireHash: bool, cursor: Stamp, seen: seq<Record>)
    requires WellKeyed(was) && SweptTo(was, status, cursor, seen)
    requires forall id :: id in was && M.IsListed(was[id], status, Stamp(0, 0)) ==> was[id] in seen
    ensures IsItinerary(was, status, requireHash, Chosen(seen, requireHash))
  {
    ChosenInOrder(seen, requireHash);
    var chosen := Chosen(seen, requireHash);
    forall i | 0 <= i < |chosen| ensures chosen[i].id in was && was[chosen[i].id] == chosen[i] {
      assert chosen[i] in seen;
    }
  }

  // ---- One page ----

  lemma PageExtends(was: map<Id, Record>, rows: map<Id, Record>, status: Status, cursor: Stamp, seen: seq<Record>,
                    visited: set<Id>, answers: Id -> Answer, limit: nat, page: seq<Record>)
    requires WellKeyed(was) && !status.IsTerminal() && SweptTo(was, status, cursor, seen)
    requires rows == AfterVerdicts(was, visited, answers) && visited <= IdsOf(seen)
    requires limit > 0 && M.IsPage(rows, status, limit, cursor, page)
    requires |page| > 0 && !Lt(cursor, Stamp(0, 0))
    ensures SweptTo(was, status, M.ListingStamp(page[|page| - 1]), seen + page)
    ensures Lt(cursor, M.ListingStamp(page[|page| - 1]))
    ensures M.IsListed(page[0], status, cursor) && page[0].id in was && was[page[0].id] == page[0]
  {
    var cursor' := M.ListingStamp(page[|page| - 1]);
    PageIsNew(was, rows, status, cursor, seen, visited, answers, limit, page);
    assert M.IsListed(page[|page| - 1], status, cursor);
    SeenIsListed(status, cursor, seen, page);
    forall id | id in was && M.IsListed(was[id], status, Stamp(0, 0)) && !Lt(cursor', M.ListingStamp(was[id]))
      ensures was[id] in seen + page
    {
      PageFinds(was, rows, status, cursor, seen, visited, answers, limit, page, id);
    }
  }

  lemma SeenIsListed(status: Status, cursor: Stamp, seen: seq<Record>, page: seq<Record>)
    requires |page| > 0 && InListingOrder(page) && !Lt(cursor, Stamp(0, 0))
    requires forall i :: 0 <= i < |seen| ==>
               M.IsListed(seen[i], status, Stamp(0, 0)) && !Lt(cursor, M.ListingStamp(seen[i]))
    requires forall i :: 0 <= i < |page| ==> M.IsListed(page[i], status, cursor)
    ensures var all, cursor' := seen + page, M.ListingStamp(page[|page| - 1]);
            forall i :: 0 <= i < |all| ==>
              M.IsListed(all[i], status, Stamp(0, 0)) && !Lt(cursor', M.ListingStamp(all[i]))
  {
    var all, cursor' := seen + page, M.ListingStamp(page[|page| - 1]);
    assert M.IsListed(page[|page| - 1], status, cursor);
    forall i | 0 <= i < |all| ensures M.IsListed(all[i], status, Stamp(0, 0)) && !Lt(cursor', M.ListingStamp(all[i])) {
      if i >= |seen| {
        assert all[i] == page[i - |seen|];
        assert i - |seen| < |page| - 1 ==> M.ListedBefore(page[i - |seen|], page[|page| - 1]);
      }
    }
  }

  lemma PageIsNew(was: map<Id, Record>, rows: map<Id, Record>, status: Status, cursor: Stamp, seen: seq<Record>,
                  visited: set<Id>, answers: Id -> Answer, limit: nat, page: seq<Record>)
    requires !status.IsTerminal() && SweptTo(was, status, cursor, seen)
    requires rows == AfterVerdicts(was, visited, answers) && M.IsPage(rows, status, limit, cursor, page)
    ensures M.AreRows(was, page) && InListingOrder(page)
    ensures forall i :: 0 <= i < |page| ==> page[i].status == status && page[i].id !in IdsOf(seen)
  {
    forall i | 0 <= i < |page|
      ensures page[i].id in was && was[page[i].id] == page[i] && page[i].status == status && page[i].id !in IdsOf(seen)
    {
    }
  }

  // A short page leaves nothing of the status unlisted.
  lemma LastPageEnds(was: map<Id, Record>, rows: map<Id, Record>, status: Status, requireHash: bool, cursor: Stamp,
                     seen: seq<Record>, visited: set<Id>, answers: Id -> Answer, limit: nat, page: seq<Record>)
    requires WellKeyed(was) && !status.IsTerminal() && SweptTo(was, status, cursor, seen)
    requires rows == AfterVerdicts(was, visited, answers) && visited <= IdsOf(seen)
    requires M.IsPage(rows, status, limit, cursor, page) && |page| < limit && !Lt(cursor, Stamp(0, 0))
    ensures IsItinerary(was, status, requireHash, Chosen(seen + page, requireHash))
  {
    if |page| > 0 {
      PageExtends(was, rows, status, cursor, seen, visited, answers, limit, page);
    } else {
      assert seen + page == seen;
    }
    forall id | id in was && M.IsListed(was[id], status, Stamp(0, 0)) ensures was[id] in seen + page {
      PageFinds(was, rows, status, cursor, seen, visited, answers, limit, page, id);
    }
    SweptIsItinerary(was, status, requireHash, if |page| > 0 then M.ListingStamp(page[|page| - 1]) else cursor,
                     seen + page);
  }

  lemma SeenIsBehind(was: map<Id, Record>, status: Status, cursor: Stamp, seen: seq<Record>, id: Id)
    requires SweptTo(was, status, cursor, seen) && id in was && Lt(cursor, M.ListingStamp(was[id]))
    ensures id !in IdsOf(seen)
  {
    forall i | 0 <= i < |seen| ensures seen[i].id != id {
      assert was[seen[i].id] == seen[i];
    }
  }

  // A row up to the new cursor is either up to the old one or on the page.
  lemma PageFinds(was: map<Id, Record>, rows: map<Id, Record>, status: Status, cursor: Stamp, seen: seq<Record>,
                  visited: set<Id>, answers: Id -> Answer, limit: nat, page: seq<Record>, id: Id)
    requires WellKeyed(was) && SweptTo(was, status, cursor, seen)
    requires rows == AfterVerdicts(was, visited, answers) && visited <= IdsOf(seen)
    requires limit > 0 && M.IsPage(rows, status, limit, cursor, page)
    requires id in was && M.IsListed(was[id], status, Stamp(0, 0))
    requires |page| < limit || !Lt(M.ListingStamp(page[|page| - 1]), M.ListingStamp(was[id]))
    ensures was[id] in seen || was[id] in page
  {
    if Lt(cursor, M.ListingStamp(was[id])) {
      SeenIsBehind(was, status, cursor, seen, id);
      assert rows[id] == was[id];
    }
  }

  // The rows that are still to be listed.
  function Ahead(was: map<Id, Record>, status: Status, cursor: Stamp): set<Id> {
    set id | id in was && M.IsListed(was[id], status, cursor)
  }

  lemma FewerAhead(was: map<Id, Record>, status: Status, cursor: Stamp, cursor': Stamp, rec: Record)
    requires Lt(cursor, cursor')
    requires M.IsListed(rec, status, cursor) && !Lt(cursor', M.ListingStamp(rec))
    requires rec.id in was && was[rec.id] == rec
    ensures |Ahead(was, status, cursor')| < |Ahead(was, status, cursor)|
  {
    assert rec.id in Ahead(was, status, cursor) && rec.id !in Ahead(was, status, cursor');
    SubsetSize(Ahead(was, status, cursor'), Ahead(was, status, cursor));
  }

  lemma SettledOneMore(was: map<Id, Record>, visited: set<Id>, answers: Id -> Answer, rec: Record)
    requires rec.id in was && was[rec.id] == rec && rec.id !in visited
    ensures AfterVerdicts(was, visited, answers)[rec.id] == rec
    ensures var v := Verdict(rec, answers(rec.id));
            AfterVerdicts(was, visited + {rec.id}, answers) ==
            if v.Some? then AfterVerdicts(was, visited, answers)[rec.id := v.value]
            else AfterVerdicts(was, visited, answers)
  {
  }

  // ---- What a page leaves, in whatever store it is processed ----

  // A verdict is written if the record still has the expected status and its key is free.
  ghost predicate Writes(rows: map<Id, Record>, rec: Record, expected: Status, answer: Answer) {
    Verdict(rec, answer).Some? && Expects(rows, rec, expected)
  }

  ghost predicate Expects(rows: map<Id, Record>, rec: Record, expected: Status) {
    rec.id in rows && rows[rec.id].status == expected && M.KeyFree(rows, rec)
  }

  ghost function AfterVisit(rows: map<Id, Record>, rec: Record, expected: Status, answer: Answer): map<Id, Record> {
    if Writes(rows, rec, expected, answer) then rows[rec.id := Verdict(rec, answer).value] else rows
  }

  ghost function AfterVisits(rows: map<Id, Record>, recs: seq<Record>, expected: Status, answers: Id -> Answer)
      : map<Id, Record>
    decreases |recs|
  {
    if |recs| == 0 then rows
    else
      var last := recs[|recs| - 1];
      AfterVisit(AfterVisits(rows, recs[..|recs| - 1], expected, answers), last, expected, answers(last.id))
  }

  // The notices that go with the writes.
  ghost function Sent(rows: map<Id, Record>, recs: seq<Record>, expected: Status, answers: Id -> Answer): seq<Record>
    decreases |recs|
  {
    if |recs| == 0 then []
    else
      var last, before := recs[|recs| - 1], recs[..|recs| - 1];
      Sent(rows, before, expected, answers) +
      (if Writes(AfterVisits(rows, before, expected, answers), last, expected, answers(last.id))
       then [Verdict(last, answers(last.id)).value] else [])
  }

  lemma SentOneMore(sent: seq<Record>, rows: map<Id, Record>, recs: seq<Record>, rec: Record, expected: Status,
                    answers: Id -> Answer)
    ensures sent + Sent(rows, recs + [rec], expected, answers) ==
            (sent + Sent(rows, recs, expected, answers)) +
            (if Writes(AfterVisits(rows, recs, expected, answers), rec, expected, answers(rec.id))
             then [Verdict(rec, answers(rec.id)).value] else [])
  {
    assert (recs + [rec])[..|recs|] == recs;
  }

  lemma ChosenOneMore(page: seq<Record>, i: nat, requireHash: bool)
    requires i < |page|
    ensures Chosen(page[..i + 1], requireHash) ==
            Chosen(page[..i], requireHash) + (if requireHash && page[i].hash == "" then [] else [page[i]])
  {
    assert page[..i + 1][..i] == page[..i];
  }

  // ---- In a quiet store the listed records are still as listed ----

  ghost predicate IsFresh(was: map<Id, Record>, visited: set<Id>, expected: Status, recs: seq<Record>) {
    && M.AreRows(was, recs) && InListingOrder(recs)
    && forall i :: 0 <= i < |recs| ==> recs[i].status == expected && recs[i].id !in visited
  }

  lemma KeyStaysFree(was: map<Id, Record>, visited: set<Id>, answers: Id -> Answer, rec: Record)
    requires M.KeysUnique(was) && rec.id in was && was[rec.id] == rec
    ensures M.KeyFree(AfterVerdicts(was, visited, answers), rec)
  {
  }

  lemma NotYetVisited(was: map<Id, Record>, visited: set<Id>, expected: Status, recs: seq<Record>)
    requires IsFresh(was, visited, expected, recs) && |recs| > 0
    ensures recs[|recs| - 1].id !in visited + IdsOf(recs[..|recs| - 1])
    ensures IdsOf(recs) == IdsOf(recs[..|recs| - 1]) + {recs[|recs| - 1].id}
  {
    var n := |recs| - 1;
    forall k | 0 <= k < n ensures recs[k].id != recs[n].id {
      assert M.ListedBefore(recs[k], recs[n]);
    }
    assert recs == recs[..n] + [recs[n]];
    IdsAppend(recs[..n], recs[n]);
  }

  // So every verdict is written and notified.
  lemma {:induction false} QuietVisits(was: map<Id, Record>, visited: set<Id>, expected: Status, recs: seq<Record>,
                                       answers: Id -> Answer)
    requires M.KeysUnique(was) && IsFresh(was, visited, expected, recs)
    ensures AfterVisits(AfterVerdicts(was, visited, answers), recs, expected, answers) ==
            AfterVerdicts(was, visited + IdsOf(recs), answers)
    ensures Sent(AfterVerdicts(was, visited, answers), recs, expected, answers) == Notices(recs, answers)
    decreases |recs|
  {
    if |recs| == 0 {
      assert visited + IdsOf(recs) == visited;
    } else {
      var last, before := recs[|recs| - 1], recs[..|recs| - 1];
      QuietVisits(was, visited, expected, before, answers);
      NotYetVisited(was, visited, expected, recs);
      KeyStaysFree(was, visited + IdsOf(before), answers, last);
      SettledOneMore(was, visited + IdsOf(before), answers, last);
      assert visited + IdsOf(before) + {last.id} == visited + IdsOf(recs);
    }
  }

  lemma ChosenIsFresh(was: map<Id, Record>, visited: set<Id>, expected: Status, page: seq<Record>, requireHash: bool)
    requires IsFresh(was, visited, expected, page)
    ensures IsFresh(was, visited, expected, Chosen(page, requireHash))
  {
    ChosenInOrder(page, requireHash);
    var chosen := Chosen(page, requireHash);
    forall i | 0 <= i < |chosen|
      ensures chosen[i].id in was && was[chosen[i].id] == chosen[i] && chosen[i].status == expected
      ensures chosen[i].id !in visited
    {
      assert chosen[i] in page;
    }
  }

  lemma IdsAppend(recs: seq<Record>, rec: Record)
    ensures IdsOf(recs + [rec]) == IdsOf(recs) + {rec.id}
  {
    assert forall i :: 0 <= i < |recs| ==> (recs + [rec])[i] == recs[i];
    assert (recs + [rec])[|recs|] == rec;
  }

  lemma {:induction false} ChosenAreSeen(recs: seq<Record>, requireHash: bool)
    ensures IdsOf(Chosen(recs, requireHash)) <= IdsOf(recs)
    decreases |recs|
  {
    if |recs| > 0 {
      var last, rest := recs[|recs| - 1], recs[..|recs| - 1];
      ChosenAreSeen(rest, requireHash);
      assert recs == rest + [last];
      IdsConcat(rest, [last]);
      IdsConcat(Chosen(rest, requireHash), if requireHash && last.hash == "" then [] else [last]);
    }
  }

  lemma IdsConcat(s: seq<Record>, t: seq<Record>)
    ensures IdsOf(s + t) == IdsOf(s) + IdsOf(t)
  {
    assert forall i :: 0 <= i < |s| ==> (s + t)[i] == s[i];
    assert forall i :: 0 <= i < |t| ==> (s + t)[|s| + i] == t[i];
  }

  // In the middle of a sweep.
  ghost predicate Sweeping(was: map<Id, Record>, status: Status, requireHash: bool, answers: Id -> Answer,
                           cursor: Stamp, seen: seq<Record>, rows: map<Id, Record>, looked: seq<Record>)
  {
    && WellKeyed(was) && !status.IsTerminal() && !Lt(cursor, Stamp(0, 0))
    && SweptTo(was, status, cursor, seen)
    && looked == Chosen(seen, requireHash)
    && rows == AfterVerdicts(was, IdsOf(looked), answers)
  }

  lemma EmptyPageEnds(was: map<Id, Record>, status: Status, requireHash: bool, answers: Id -> Answer, cursor: Stamp,
                      seen: seq<Record>, rows: map<Id, Record>, looked: seq<Record>, limit: nat, page: seq<Record>)
    requires Sweeping(was, status, requireHash, answers, cursor, seen, rows, looked)
    requires limit > 0 && M.IsPage(rows, status, limit, cursor, page) && page == []
    ensures IsItinerary(was, status, requireHash, looked)
  {
    ChosenAreSeen(seen, requireHash);
    LastPageEnds(was, rows, status, requireHash, cursor, seen, IdsOf(looked), answers, limit, page);
    assert seen + page == seen;
  }

  lemma PageAdvances(was: map<Id, Record>, status: Status, requireHash: bool, answers: Id -> Answer, cursor: Stamp,
                     seen: seq<Record>, rows: map<Id, Record>, looked: seq<Record>, limit: nat, page: seq<Record>)
    requires Sweeping(was, status, requireHash, answers, cursor, seen, rows, looked)
    requires limit > 0 && M.IsPage(rows, status, limit, cursor, page) && |page| > 0
    ensures var cursor' := M.ListingStamp(page[|page| - 1]);
            && SweptTo(was, status, cursor', seen + page) && !Lt(cursor', Stamp(0, 0))
            && |Ahead(was, status, cursor')| < |Ahead(was, status, cursor)|
  {
    ChosenAreSeen(seen, requireHash);
    PageExtends(was, rows, status, cursor, seen, IdsOf(looked), answers, limit, page);
    FewerAhead(was, status, cursor, M.ListingStamp(page[|page| - 1]), page[0]);
  }

  lemma PageIsFresh(was: map<Id, Record>, status: Status, requireHash: bool, answers: Id -> Answer, cursor: Stamp,
                    seen: seq<Record>, rows: map<Id, Record>, looked: seq<Record>, limit: nat, page: seq<Record>)
    requires Sweeping(was, status, requireHash, answers, cursor, seen, rows, looked)
    requires limit > 0 && M.IsPage(rows, status, limit, cursor, page) && |page| > 0
    ensures IsFresh(was, IdsOf(looked), status, page)
    ensures |page| < limit ==> IsItinerary(was, status, requireHash, Chosen(seen + page, requireHash))
  {
    ChosenAreSeen(seen, requireHash);
    PageIsNew(was, rows, status, cursor, seen, IdsOf(looked), answers, limit, page);
    if |page| < limit {
      LastPageEnds(was, rows, status, requireHash, cursor, seen, IdsOf(looked), answers, limit, page);
    }
  }

  lemma PageIsNext(was: map<Id, Record>, status: Status, requireHash: bool, answers: Id -> Answer, cursor: Stamp,
                   seen: seq<Record>, rows: map<Id, Record>, looked: seq<Record>, limit: nat, page: seq<Record>)
    requires Sweeping(was, status, requireHash, answers, cursor, seen, rows, looked)
    requires limit > 0 && M.IsPage(rows, status, limit, cursor, page) && |page| > 0
    ensures IsFresh(was, IdsOf(looked), status, page)
    ensures var cursor', looked' := M.ListingStamp(page[|page| - 1]), looked + Chosen(page, requireHash);
            && Sweeping(was, status, requireHash, answers, cursor', seen + page,
                        AfterVerdicts(was, IdsOf(looked) + IdsOf(Chosen(page, requireHash)), answers), looked')
            && |Ahead(was, status, cursor')| < |Ahead(was, status, cursor)|
            && (|page| < limit ==> IsItinerary(was, status, requireHash, looked'))
  {
    PageAdvances(was, status, requireHash, answers, cursor, seen, rows, looked, limit, page);
    PageIsFresh(was, status, requireHash, answers, cursor, seen, rows, looked, limit, page);
    ChosenAppend(seen, page, requireHash);
    IdsConcat(looked, Chosen(page, requireHash));
  }

  // The first sweep does not touch the claims that the second one is after.
  lemma ClaimsAreUntouched(was: map<Id, Record>, between: map<Id, Record>, visited: set<Id>, answers: Id -> Answer,
                           submitted: seq<Record>, recovered: seq<Record>)
    requires IsItinerary(was, Submitted, false, submitted) && visited == IdsOf(submitted)
    requires between == AfterVerdicts(was, visited, answers) && IsItinerary(between, Processing, true, recovered)
    ensures IsItinerary(was, Processing, true, recovered)
    ensures AfterVerdicts(between, IdsOf(recovered), answers) == AfterVerdicts(was, visited + IdsOf(recovered), answers)
  {
    assert SameClaims(was, between);
    SecondVerdicts(was, between, visited, IdsOf(recovered), answers);
  }

  ghost predicate SameClaims(was: map<Id, Record>, between: map<Id, Record>) {
    && was.Keys == between.Keys
    && forall id :: id in was && (was[id].status == Processing || between[id].status == Processing) ==>
         between[id] == was[id]
  }

  // The two sweeps visit different records, the second one as they were.
  lemma SecondVerdicts(was: map<Id, Record>, between: map<Id, Record>, first: set<Id>, second: set<Id>,
                       answers: Id -> Answer)
    requires between == AfterVerdicts(was, first, answers)
    requires forall id :: id in second ==> id in between && between[id] == was[id] && id !in first
    ensures AfterVerdicts(between, second, answers) == AfterVerdicts(was, first + second, answers)
  {
  }

  class Poller {
    const store: M.MemoryStore
    const pageSize: nat
    var notices: seq<Record>

    constructor (store: M.MemoryStore, pageSize: int)
      ensures this.store == store && this.pageSize > 0 && notices == []
      ensures pageSize > 0 ==> this.pageSize == pageSize
      ensures pageSize <= 0 ==> this.pageSize == 500
    {
      this.store := store;
      this.pageSize := if pageSize <= 0 then 500 else pageSize;
      notices := [];
    }

    method ConfirmRecord(rec: Record, expected: Status, answer: Answer)
      requires store.Valid()
      modifies store, `notices
      ensures store.Valid() && store.sequences == old(store.sequences)
      ensures store.records == AfterVisit(old(store.records), rec, expected, answer)
      ensures notices == old(notices) + (if Writes(old(store.records), rec, expected, answer)
                                         then [Verdict(rec, answer).value] else [])
      // a committed transaction settles its record by its success, an expired one only if it cannot be found
      ensures var found := rec.hash != "" && !answer.lookup.LookupError?;
              var status := if found && answer.lookup.Committed? then
                              Some(if answer.lookup.success then Confirmed else Failed)
                            else if !found && answer.now > rec.expiresAt then Some(Expired) else None;
              if status.Some? && Expects(old(store.records), rec, expected) then
                var done := rec.(status := status.value, updatedAt := answer.now);
                store.records == old(store.records)[rec.id := done] && notices == old(notices) + [done]
              else store.records == old(store.records) && notices == old(notices)
    {
      var done := rec;
      if rec.hash == "" || answer.lookup.LookupError? {
        if answer.now <= rec.expiresAt {
          return;
        }
        done := done.(status := Expired, updatedAt := answer.now);
      } else {
        match answer.lookup {
          case Committed(success) =>
            done := done.(status := if success then Confirmed else Failed, updatedAt := answer.now);
          case _ => return;
        }
      }
      var updated := store.UpdateIfStatus(done, expected, answer.now);
      if updated.Updated? {
        notices := notices + [done];
      }
    }

    // The page may have gone stale since it was listed.
    method ProcessPage(page: seq<Record>, expected: Status, requireHash: bool, answers: Id -> Answer)
        returns (looked: seq<Record>)
      requires store.Valid()
      modifies store, `notices
      ensures store.Valid() && store.sequences == old(store.sequences)
      ensures looked == Chosen(page, requireHash)
      ensures store.records == AfterVisits(old(store.records), looked, expected, answers)
      ensures notices == old(notices) + Sent(old(store.records), looked, expected, answers)
    {
      ghost var was, sent := store.records, notices;
      looked := [];
      for i := 0 to |page|
        invariant store.Valid() && store.sequences == old(store.sequences)
        invariant looked == Chosen(page[..i], requireHash)
        invariant store.records == AfterVisits(was, looked, expected, answers)
        invariant notices == sent + Sent(was, looked, expected, answers)
      {
        var rec := page[i];
        ChosenOneMore(page, i, requireHash);
        if requireHash && rec.hash == "" {
          continue;
        }
        SentOneMore(sent, was, looked, rec, expected, answers);
        ConfirmRecord(rec, expected, answers(rec.id));
        looked := looked + [rec];
      }
      assert page[..|page|] == page;
    }

    method SweepStatus(status: Status, requireHash: bool, answers: Id -> Answer) returns (looked: seq<Record>)
      requires store.Valid() && !status.IsTerminal()
      modifies store, `notices
      ensures store.Valid() && store.sequences == old(store.sequences)
      ensures IsItinerary(old(store.records), status, requireHash, looked)
      ensures store.records == AfterVerdicts(old(store.records), IdsOf(looked), answers)
      ensures notices == old(notices) + Notices(looked, answers)
    {
      ghost var was := store.records;
      ghost var seen: seq<Record> := [];
      var size := if pageSize == 0 then 500 else pageSize;
      var cursor := Stamp(0, 0);
      looked := [];
      assert AfterVerdicts(was, IdsOf([]), answers) == was;
      while true
        invariant store.Valid() && store.sequences == old(store.sequences)
        invariant Sweeping(was, status, requireHash, answers, cursor, seen, store.records, looked)
        invariant notices == old(notices) + Notices(looked, answers)
        decreases |Ahead(was, status, cursor)|
      {
        var page := store.ListByStatusPaged(status, size, cursor);
        if |page| == 0 {
          EmptyPageEnds(was, status, requireHash, answers, cursor, seen, store.records, looked, size, page);
          return;
        }
        PageIsNext(was, status, requireHash, answers, cursor, seen, store.records, looked, size, page);
        ChosenIsFresh(was, IdsOf(looked), status, page, requireHash);
        QuietVisits(was, IdsOf(looked), status, Chosen(page, requireHash), answers);
        var visited := ProcessPage(page, status, requireHash, answers);
        NoticesGrow(old(notices), looked, visited, answers);
        looked := looked + visited;
        if |page| < size {
          return;
        }
        cursor := M.ListingStamp(page[|page| - 1]);
        seen := seen + page;
      }
    }

    // One poll: the submitted records, then the claimed ones that carry a hash.
    method Poll(answers: Id -> Answer) returns (submitted: seq<Record>, recovered: seq<Record>)
      requires store.Valid()
      modifies store, `notices
      ensures store.Valid() && store.sequences == old(store.sequences)
      ensures IsItinerary(old(store.records), Submitted, false, submitted)
      ensures IsItinerary(old(store.records), Processing, true, recovered)
      // every submitted record, and every claim that carries a hash, but for one with the zero time and id
      ensures forall id :: id in old(store.records) ==>
                var r := old(store.records)[id];
                && (r in submitted <==> r.status == Submitted && (r.updatedAt > 0 || r.id > 0))
                && (r in recovered <==> r.status == Processing && r.hash != "" && (r.updatedAt > 0 || r.id > 0))
      ensures store.records == AfterVerdicts(old(store.records), IdsOf(submitted) + IdsOf(recovered), answers)
      ensures notices == old(notices) + Notices(submitted, answers) + Notices(recovered, answers)
    {
      ghost var was := store.records;
      submitted := SweepStatus(Submitted, false, answers);
      ghost var between := store.records;
      recovered := SweepStatus(Processing, true, answers);
      ClaimsAreUntouched(was, between, IdsOf(submitted), answers, submitted, recovered);
    }
  }
}
