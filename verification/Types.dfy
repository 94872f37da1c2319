/** Values shared by every component: transaction records, their status and their orders. */
module Types {

  datatype Option<+T> = None | Some(value: T)

  // Record ids and account addresses are ordered strings in the service.  Only
  // their order and equality matter, so each is modelled by its rank; rank 0
  // is the empty string.
  type Id = nat
  type Addr = nat

  // Clock readings; 0 is the zero time.
  type Time = nat

  datatype Status = Queued | Processing | Submitted | Confirmed | Failed | Expired
  {
    predicate IsTerminal() {
      Confirmed? || Failed? || Expired?
    }
  }

  // An empty key or hash means that the record has none.
  datatype Record = Record(
    id: Id,
    key: string,
    status: Status,
    hash: string,
    sender: Addr,
    seqNum: Option<nat>,
    attempts: nat,
    createdAt: Time,
    updatedAt: Time,
    expiresAt: Time)

  // The order of the per-sender queue.
  predicate Older(x: Record, y: Record) {
    x.createdAt < y.createdAt || (x.createdAt == y.createdAt && x.id < y.id)
  }

  function IdsOf(recs: seq<Record>): set<Id> {
    set i | 0 <= i < |recs| :: recs[i].id
  }

  // Every record is stored under its own id.
  predicate WellKeyed(rows: map<Id, Record>) {
    forall id :: id in rows ==> rows[id].id == id
  }
}
