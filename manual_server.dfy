/**
 * The manual-confirmation payment server (main.py): payments are created
 * PENDING in the `pending_payments` dictionary and completed only by an
 * explicit confirmation call.
 *
 * The uuid behind a new payment id and every timestamp are parameters; the
 * HTTP layer is reduced to the error each rejection carries.
 */
module ManualServer {
  import opened Results
  import opened PaymentStatus

  /** A record of `pending_payments`; `confirmedAt` is absent until confirmation. */
  datatype Payment = Payment(
    orderId: string,
    paymentAmount: int,
    payMethod: string,
    createdAt: string,
    status: Status,
    confirmedAt: Option<string>)

  /** The `PaymentResponse` body, also the shape of a status lookup. */
  datatype PaymentResponse = PaymentResponse(
    paymentId: string,
    orderId: string,
    status: Status,
    paymentAmount: int,
    payMethod: string,
    createdAt: string,
    confirmedAt: Option<string>)

  /** The rejections of the endpoints, each with its HTTP status code. */
  datatype ApiError = InvalidAmount | NotFound | AlreadyProcessed
  {
    function HttpStatus(): (code: int)
    {
      match this
      case InvalidAmount => 422
      case NotFound => 404
      case AlreadyProcessed => 400
    }
  }

  /** The store after an operation, and the operation's answer. */
  datatype Step = Step(store: map<string, Payment>, result: Result<PaymentResponse, ApiError>)

  /** Every new payment is paid by card. */
  const DefaultMethod := "CARD"

  /** The id of a new payment: "pay_" and the first ten hex digits of a fresh uuid4. */
  function PaymentIdOf(uuidHex: string): (id: string)
    requires |uuidHex| == 32
  {
    "pay_" + uuidHex[..10]
  }

  /** A record as the two mutating endpoints leave it. */
  predicate WellFormed(p: Payment)
  {
    && (p.status == Pending || p.status == PaymentCompleted)
    && (p.confirmedAt.Some? <==> p.status == PaymentCompleted)
    && p.paymentAmount >= 1
    && p.payMethod == DefaultMethod
  }

  predicate ValidStore(store: map<string, Payment>)
  {
    forall id :: id in store ==> WellFormed(store[id])
  }

  /** The status field of a record. */
  function StatusOf(p: Payment): (s: Status)
  {
    p.status
  }

  function ResponseOf(paymentId: string, p: Payment): (response: PaymentResponse)
  {
    PaymentResponse(paymentId, p.orderId, p.status, p.paymentAmount, p.payMethod, p.createdAt, p.confirmedAt)
  }

  /**
   * `request_payment`: an amount below 1 is rejected before the store is
   * touched; otherwise a PENDING card payment is stored under `paymentId`.
   */
  function Request(store: map<string, Payment>, orderId: string, paymentAmount: int,
                   paymentId: string, createdAt: string): (r: Step)
    ensures r.result == Failure(InvalidAmount) <==> paymentAmount < 1
    ensures paymentAmount < 1 ==> r.store == store
    ensures paymentAmount >= 1 ==>
      && r.store.Keys == store.Keys + {paymentId}
      && (forall id :: id in store && id != paymentId ==> r.store[id] == store[id])
      && r.store[paymentId].status == Pending
      && r.store[paymentId].confirmedAt == None
      && r.store[paymentId].orderId == orderId
      && r.store[paymentId].paymentAmount == paymentAmount
      && r.store[paymentId].payMethod == DefaultMethod
      && r.store[paymentId].createdAt == createdAt
      && r.result == Success(ResponseOf(paymentId, r.store[paymentId]))
  {
    if paymentAmount < 1 then
      Step(store, Failure(InvalidAmount))
    else
      var p := Payment(orderId, paymentAmount, DefaultMethod, createdAt, Pending, None);
      Step(store[paymentId := p], Success(ResponseOf(paymentId, p)))
  }

  /**
   * `confirm_payment`: an unknown id is not found, a record that is not
   * PENDING is already processed, and both leave the store as it was;
   * otherwise the record becomes PAYMENT_COMPLETED with `confirmedAt` set and
   * nothing else changes.
   */
  function Confirm(store: map<string, Payment>, paymentId: string, confirmedAt: string): (r: Step)
    ensures r.result == Failure(NotFound) <==> paymentId !in store
    ensures r.result == Failure(AlreadyProcessed) <==> paymentId in store && store[paymentId].status != Pending
    ensures r.result.Success? <==> paymentId in store && store[paymentId].status == Pending
    ensures r.result.Failure? ==> r.store == store
    ensures r.result.Success? ==>
      && r.store.Keys == store.Keys
      && (forall id :: id in store && id != paymentId ==> r.store[id] == store[id])
      && r.store[paymentId] == store[paymentId].(status := PaymentCompleted, confirmedAt := Some(confirmedAt))
      && r.result.value == ResponseOf(paymentId, r.store[paymentId])
  {
    if paymentId !in store then
      Step(store, Failure(NotFound))
    else if store[paymentId].status != Pending then
      Step(store, Failure(AlreadyProcessed))
    else
      var p := store[paymentId].(status := PaymentCompleted, confirmedAt := Some(confirmedAt));
      Step(store[paymentId := p], Success(ResponseOf(paymentId, p)))
  }

  /** `get_payment_status`: a read-only lookup, not found for an unknown id. */
  function GetPaymentStatus(store: map<string, Payment>, paymentId: string): (r: Result<PaymentResponse, ApiError>)
    ensures r == Failure(NotFound) <==> paymentId !in store
    ensures r.Success? <==> paymentId in store
    ensures r.Success? ==> r.value == ResponseOf(paymentId, store[paymentId])
  {
    if paymentId !in store then Failure(NotFound) else Success(ResponseOf(paymentId, store[paymentId]))
  }

  /**
   * `list_pending_payments`: the pending and completed counts and the whole
   * store; in a store the endpoints produced the two counts add up to its size.
   */
  function ListPendingPayments(store: map<string, Payment>): (r: Listing<Payment>)
    ensures r.payments == store
    ensures r.pendingCount == Count(Statuses(store, StatusOf), Pending)
    ensures r.completedCount == Count(Statuses(store, StatusOf), PaymentCompleted)
    ensures ValidStore(store) ==> r.pendingCount + r.completedCount == |store|
  {
    assert ValidStore(store) ==> OnlyAssigned(Statuses(store, StatusOf));
    ListByStatus(store, StatusOf)
  }

  lemma {:induction false} RequestKeepsValid(store: map<string, Payment>, orderId: string, paymentAmount: int,
                                             paymentId: string, createdAt: string)
    requires ValidStore(store)
    ensures ValidStore(Request(store, orderId, paymentAmount, paymentId, createdAt).store)
  {
  }

  lemma {:induction false} ConfirmKeepsValid(store: map<string, Payment>, paymentId: string, confirmedAt: string)
    requires ValidStore(store)
    ensures ValidStore(Confirm(store, paymentId, confirmedAt).store)
  {
  }

  /** Confirming the same id a second time always fails and changes nothing. */
  lemma {:induction false} SecondConfirmFails(store: map<string, Payment>, paymentId: string, first: string, second: string)
    ensures var once := Confirm(store, paymentId, first).store;
      && Confirm(once, paymentId, second).result.Failure?
      && Confirm(once, paymentId, second).store == once
  {
  }

  /** A request under a fresh id adds one PENDING payment to the counts. */
  lemma {:induction false} RequestAddsPending(store: map<string, Payment>, orderId: string, paymentAmount: int,
                                              paymentId: string, createdAt: string)
    requires paymentAmount >= 1 && paymentId !in store
    ensures var after := Request(store, orderId, paymentAmount, paymentId, createdAt).store;
      && |after| == |store| + 1
      && Count(Statuses(after, StatusOf), Pending) == Count(Statuses(store, StatusOf), Pending) + 1
      && Count(Statuses(after, StatusOf), PaymentCompleted) == Count(Statuses(store, StatusOf), PaymentCompleted)
      && ListPendingPayments(after).pendingCount == ListPendingPayments(store).pendingCount + 1
      && ListPendingPayments(after).completedCount == ListPendingPayments(store).completedCount
  {
    var p := Payment(orderId, paymentAmount, DefaultMethod, createdAt, Pending, None);
    StatusesAfterWrite(store, StatusOf, paymentId, p);
    CountAfterWrite(Statuses(store, StatusOf), paymentId, Pending, Pending);
    CountAfterWrite(Statuses(store, StatusOf), paymentId, Pending, PaymentCompleted);
  }

  /** A successful confirmation moves exactly one payment from the pending to the completed count. */
  lemma {:induction false} ConfirmMovesOne(store: map<string, Payment>, paymentId: string, confirmedAt: string)
    requires Confirm(store, paymentId, confirmedAt).result.Success?
    ensures var after := Confirm(store, paymentId, confirmedAt).store;
      && |after| == |store|
      && Count(Statuses(after, StatusOf), Pending) == Count(Statuses(store, StatusOf), Pending) - 1
      && Count(Statuses(after, StatusOf), PaymentCompleted) == Count(Statuses(store, StatusOf), PaymentCompleted) + 1
      && ListPendingPayments(after).pendingCount == ListPendingPayments(store).pendingCount - 1
      && ListPendingPayments(after).completedCount == ListPendingPayments(store).completedCount + 1
  {
    var p := store[paymentId].(status := PaymentCompleted, confirmedAt := Some(confirmedAt));
    StatusesAfterWrite(store, StatusOf, paymentId, p);
    CountAfterWrite(Statuses(store, StatusOf), paymentId, PaymentCompleted, Pending);
    CountAfterWrite(Statuses(store, StatusOf), paymentId, PaymentCompleted, PaymentCompleted);
  }

  /** A store the endpoints produced holds no CANCELLED payment: that status is never assigned. */
  lemma {:induction false} NoneCancelled(store: map<string, Payment>)
    requires ValidStore(store)
    ensures Count(Statuses(store, StatusOf), Cancelled) == 0
  {
    CountsPartition(Statuses(store, StatusOf));
  }

  /** After a successful confirmation, a status lookup shows the completion and its time. */
  lemma {:induction false} LookupAfterConfirm(store: map<string, Payment>, paymentId: string, confirmedAt: string)
    requires Confirm(store, paymentId, confirmedAt).result.Success?
    ensures var seen := GetPaymentStatus(Confirm(store, paymentId, confirmedAt).store, paymentId);
      && seen.Success?
      && seen.value.status == PaymentCompleted
      && seen.value.confirmedAt == Some(confirmedAt)
      && seen.value.orderId == store[paymentId].orderId
      && seen.value.paymentAmount == store[paymentId].paymentAmount
      && seen.value.createdAt == store[paymentId].createdAt
  {
  }

  /**
   * The server process: it owns the `pending_payments` dictionary, which the
   * two POST endpoints update in place.
   */
  class Server {
    var pendingPayments: map<string, Payment>

    ghost predicate Valid()
      reads this
    {
      ValidStore(pendingPayments)
    }

    constructor ()
      ensures Valid() && pendingPayments == map[]
    {
      pendingPayments := map[];
    }

    /** `request_payment`, with `uuidHex` standing for `uuid.uuid4().hex` and `createdAt` for the clock. */
    method RequestPayment(orderId: string, paymentAmount: int, uuidHex: string, createdAt: string)
      returns (r: Result<PaymentResponse, ApiError>)
      requires Valid()
      requires |uuidHex| == 32
      modifies this`pendingPayments
      ensures Valid()
      ensures Step(pendingPayments, r) ==
        Request(old(pendingPayments), orderId, paymentAmount, PaymentIdOf(uuidHex), createdAt)
    {
      if paymentAmount < 1 {
        return Failure(InvalidAmount);
      }
      var paymentId := PaymentIdOf(uuidHex);
      var payment := Payment(orderId, paymentAmount, DefaultMethod, createdAt, Pending, None);
      pendingPayments := pendingPayments[paymentId := payment];
      r := Success(ResponseOf(paymentId, payment));
    }

    /** `confirm_payment`, with `confirmedAt` standing for the clock. */
    method ConfirmPayment(paymentId: string, confirmedAt: string)
      returns (r: Result<PaymentResponse, ApiError>)
      requires Valid()
      modifies this`pendingPayments
      ensures Valid()
      ensures Step(pendingPayments, r) == Confirm(old(pendingPayments), paymentId, confirmedAt)
    {
      if paymentId !in pendingPayments {
        return Failure(NotFound);
      }
      var payment := pendingPayments[paymentId];
      if payment.status != Pending {
        return Failure(AlreadyProcessed);
      }
      payment := payment.(status := PaymentCompleted, confirmedAt := Some(confirmedAt));
      pendingPayments := pendingPayments[paymentId := payment];
      r := Success(ResponseOf(paymentId, payment));
    }
  }
}
