/**
 * Payment statuses and the status counts that both listing endpoints report.
 * A store is seen here through its projection onto statuses: a map from
 * payment id to the status of the record kept under that id.
 */
module PaymentStatus {

  /** The status literals of a payment record: "PENDING", "PAYMENT_COMPLETED", "CANCELLED". */
  datatype Status = Pending | PaymentCompleted | Cancelled

  /** What a listing endpoint returns: both counts and the whole store. */
  datatype Listing<R> = Listing(pendingCount: nat, completedCount: nat, payments: map<string, R>)

  /** The ids whose record carries status `s`. */
  function KeysWith(statuses: map<string, Status>, s: Status): (ids: set<string>)
  {
    set id | id in statuses && statuses[id] == s
  }

  /** How many stored records carry status `s` (the length of the filtering comprehension). */
  function Count(statuses: map<string, Status>, s: Status): (n: nat)
  {
    |KeysWith(statuses, s)|
  }

  /** The status of every stored record, keyed by payment id; `statusOf` reads a record's status field. */
  function Statuses<R>(store: map<string, R>, statusOf: R -> Status): (statuses: map<string, Status>)
  {
    map id | id in store :: statusOf(store[id])
  }

  /** Every record carries one of the two statuses the servers ever assign. */
  predicate OnlyAssigned(statuses: map<string, Status>)
  {
    forall id :: id in statuses ==> statuses[id] == Pending || statuses[id] == PaymentCompleted
  }

  /** When only the assigned statuses occur, the pending and completed counts add up to the store size. */
  lemma {:induction false} CountsPartition(statuses: map<string, Status>)
    requires OnlyAssigned(statuses)
    ensures Count(statuses, Pending) + Count(statuses, PaymentCompleted) == |statuses|
    ensures Count(statuses, Cancelled) == 0
  {
    var pending := KeysWith(statuses, Pending);
    var completed := KeysWith(statuses, PaymentCompleted);
    assert pending + completed == statuses.Keys;
    assert pending * completed == {};
    assert KeysWith(statuses, Cancelled) == {};
  }

  /** Writing status `s` under `id` moves that one record from its old status's count to `s`'s count. */
  lemma {:induction false} CountAfterWrite(statuses: map<string, Status>, id: string, s: Status, t: Status)
    ensures Count(statuses[id := s], t) ==
      Count(statuses, t)
      - (if id in statuses && statuses[id] == t then 1 else 0)
      + (if s == t then 1 else 0)
  {
    var before := KeysWith(statuses, t);
    var after := KeysWith(statuses[id := s], t);
    if s == t {
      assert after == before + {id};
    } else {
      assert after == before - {id};
    }
  }

  /** Writing one record changes the status projection at that id only. */
  lemma {:induction false} StatusesAfterWrite<R>(store: map<string, R>, statusOf: R -> Status, id: string, rec: R)
    ensures Statuses(store[id := rec], statusOf) == Statuses(store, statusOf)[id := statusOf(rec)]
  {
  }

  /**
   * A listing endpoint: the number of PENDING and of PAYMENT_COMPLETED records
   * and the whole store. When only those two statuses are stored, the counts
   * add up to the number of payments.
   */
  function ListByStatus<R>(store: map<string, R>, statusOf: R -> Status): (r: Listing<R>)
    ensures r.payments == store
    ensures r.pendingCount == Count(Statuses(store, statusOf), Pending)
    ensures r.completedCount == Count(Statuses(store, statusOf), PaymentCompleted)
    ensures OnlyAssigned(Statuses(store, statusOf)) ==> r.pendingCount + r.completedCount == |store|
  {
    var statuses := Statuses(store, statusOf);
    var listing := Listing(Count(statuses, Pending), Count(statuses, PaymentCompleted), store);
    assert OnlyAssigned(statuses) ==> listing.pendingCount + listing.completedCount == |store| by {
      assert statuses.Keys == store.Keys;
      if OnlyAssigned(statuses) {
        CountsPartition(statuses);
      }
    }
    listing
  }
}
