/**
 * The webhook payment server (main2.py): a payment is stored PENDING under
 * "pay_" + tx_id, and a deferred task later completes it and posts a signed
 * notification to the caller's callback URL.
 *
 * The JSON encoding, UTF-8 encoding and HMAC-SHA256/base64 are library calls
 * whose internals are not modelled: they are the function fields of
 * `Primitives`. The delay before the deferred task, the clock and the
 * network POST itself are not modelled; the deferred task is one sequential
 * step that yields the request it would send.
 */
module WebhookServer {
  import opened Results
  import opened PaymentStatus

  newtype byte = x: int | 0 <= x < 256

  /** The `PaymentInitV2` request body. */
  datatype PaymentInit = PaymentInit(txId: string, orderId: int, userId: int, amount: int, callbackUrl: string)

  /** A record of the `payments` dictionary. */
  datatype Record = Record(
    paymentId: string,
    orderId: int,
    txId: string,
    userId: int,
    amount: int,
    status: Status,
    createdAt: string,
    confirmedAt: Option<string>,
    callbackUrl: string)

  /** The `PaymentCreateResponse` body. */
  datatype CreateResponse = CreateResponse(ok: bool, txId: string, status: Status, paymentId: string)

  /** The JSON body of the completion webhook. */
  datatype WebhookPayload = WebhookPayload(
    version: string,
    paymentId: string,
    orderId: int,
    txId: string,
    userId: int,
    amount: int,
    status: Status,
    createdAt: string,
    confirmedAt: Option<string>)

  /** The POST the webhook sends: destination, exact body bytes and headers. */
  datatype WebhookRequest = WebhookRequest(url: string, body: seq<byte>, headers: map<string, string>)

  /** Signing without a configured secret raises instead of sending. */
  datatype SignError = MissingSecret

  /** The library calls the server relies on. */
  datatype Primitives = Primitives(
    jsonUtf8: WebhookPayload -> seq<byte>,
    utf8: string -> seq<byte>,
    hmacSha256Base64: (seq<byte>, seq<byte>) -> string)

  /** PAYMENT_WEBHOOK_SECRET and SERVICE_AUTH_TOKEN; an unset variable is "". */
  datatype Config = Config(webhookSecret: string, serviceAuthToken: string)

  /** A new store and the create response. */
  datatype Created = Created(store: map<string, Record>, response: CreateResponse)

  /** The store after the deferred step, and the webhook it posts (None when it returned early). */
  datatype Deferred = Deferred(store: map<string, Record>, webhook: Option<Result<WebhookRequest, SignError>>)

  const DefaultEvent := "payment.completed"
  const PayloadVersion := "v2"

  /** The deterministic payment id of a transaction. */
  function PaymentIdOf(txId: string): (id: string)
  {
    "pay_" + txId
  }

  /** A record as the two mutating steps leave it, kept under its own payment id. */
  predicate WellFormed(id: string, rec: Record)
  {
    && id == rec.paymentId == PaymentIdOf(rec.txId)
    && (rec.status == Pending || rec.status == PaymentCompleted)
    && (rec.confirmedAt.Some? <==> rec.status == PaymentCompleted)
  }

  predicate ValidStore(store: map<string, Record>)
  {
    forall id :: id in store ==> WellFormed(id, store[id])
  }

  /** The status field of a record. */
  function StatusOf(rec: Record): (s: Status)
  {
    rec.status
  }

  /** Distinct transactions get distinct payment ids, so only a resubmission can overwrite. */
  lemma {:induction false} PaymentIdInjective(a: string, b: string)
    ensures PaymentIdOf(a) == PaymentIdOf(b) <==> a == b
  {
    if PaymentIdOf(a) == PaymentIdOf(b) {
      assert a == PaymentIdOf(a)[4..];
      assert b == PaymentIdOf(b)[4..];
    }
  }

  /** `_sign`: refuses an empty secret, otherwise the base64 HMAC-SHA256 of exactly `body`. */
  function Sign(secret: string, body: seq<byte>, prims: Primitives): (r: Result<string, SignError>)
    ensures r.Failure? <==> secret == ""
    ensures r.Success? ==> r.value == prims.hmacSha256Base64(prims.utf8(secret), body)
  {
    if secret == "" then Failure(MissingSecret)
    else Success(prims.hmacSha256Base64(prims.utf8(secret), body))
  }

  /** The receiver's check: the signature header is the HMAC of the body it received. */
  predicate SignatureValid(secret: string, prims: Primitives, req: WebhookRequest)
  {
    && "X-Payment-Signature" in req.headers
    && req.headers["X-Payment-Signature"] == prims.hmacSha256Base64(prims.utf8(secret), req.body)
  }

  /**
   * The header set of `_post_webhook`: content type, event and signature
   * always, and a bearer `Authorization` exactly when a token is configured.
   */
  function WebhookHeaders(event: string, signature: string, token: string): (h: map<string, string>)
    ensures "Content-Type" in h && h["Content-Type"] == "application/json"
    ensures "X-Payment-Event" in h && h["X-Payment-Event"] == event
    ensures "X-Payment-Signature" in h && h["X-Payment-Signature"] == signature
    ensures "Authorization" in h <==> token != ""
    ensures "Authorization" in h ==> h["Authorization"] == "Bearer " + token
    ensures |h| == if token != "" then 4 else 3
  {
    var base := map[
      "Content-Type" := "application/json",
      "X-Payment-Event" := event,
      "X-Payment-Signature" := signature];
    if token != "" then base["Authorization" := "Bearer " + token] else base
  }

  /**
   * `_post_webhook` up to the network call: the body is the encoded payload,
   * signed over exactly those bytes; with no secret nothing is sent.
   */
  function PostWebhook(url: string, payload: WebhookPayload, event: string, config: Config, prims: Primitives)
    : (r: Result<WebhookRequest, SignError>)
    ensures r.Failure? <==> config.webhookSecret == ""
    ensures r.Success? ==>
      && r.value.url == url
      && r.value.body == prims.jsonUtf8(payload)
      && SignatureValid(config.webhookSecret, prims, r.value)
      && r.value.headers == WebhookHeaders(event, prims.hmacSha256Base64(prims.utf8(config.webhookSecret), r.value.body),
                                           config.serviceAuthToken)
  {
    var raw := prims.jsonUtf8(payload);
    match Sign(config.webhookSecret, raw, prims)
    case Failure(e) => Failure(e)
    case Success(signature) => Success(WebhookRequest(url, raw, WebhookHeaders(event, signature, config.serviceAuthToken)))
  }

  /** The v2 webhook body built from a record. */
  function PayloadOf(rec: Record): (p: WebhookPayload)
    ensures p.version == PayloadVersion
  {
    WebhookPayload(PayloadVersion, rec.paymentId, rec.orderId, rec.txId, rec.userId, rec.amount,
                   rec.status, rec.createdAt, rec.confirmedAt)
  }

  /** The payload loses nothing of a record but its callback URL. */
  lemma {:induction false} PayloadDeterminesRecord(a: Record, b: Record)
    requires a.callbackUrl == b.callbackUrl
    ensures PayloadOf(a) == PayloadOf(b) <==> a == b
  {
    if PayloadOf(a) == PayloadOf(b) {
      assert a.paymentId == PayloadOf(a).paymentId;
      assert a.confirmedAt == PayloadOf(a).confirmedAt;
    }
  }

  /**
   * `start_payment_v2`: stores one PENDING record under "pay_" + tx_id,
   * overwriting any earlier one, and answers ok with that id.
   */
  function Start(store: map<string, Record>, req: PaymentInit, createdAt: string): (r: Created)
    ensures var id := PaymentIdOf(req.txId);
      && r.store.Keys == store.Keys + {id}
      && (forall k :: k in store && k != id ==> r.store[k] == store[k])
      && r.store[id].paymentId == id
      && r.store[id].status == Pending
      && r.store[id].confirmedAt == None
      && r.store[id].createdAt == createdAt
      && r.store[id].txId == req.txId
      && r.store[id].orderId == req.orderId
      && r.store[id].userId == req.userId
      && r.store[id].amount == req.amount
      && r.store[id].callbackUrl == req.callbackUrl
      && r.response == CreateResponse(true, req.txId, Pending, id)
  {
    var id := PaymentIdOf(req.txId);
    var rec := Record(id, req.orderId, req.txId, req.userId, req.amount, Pending, createdAt, None, req.callbackUrl);
    Created(store[id := rec], CreateResponse(true, req.txId, Pending, id))
  }

  /**
   * `_complete_and_webhook` after its delay: nothing when the record is gone;
   * otherwise the record ends PAYMENT_COMPLETED, `confirmedAt` is set only if it
   * was not completed before, and the webhook carries the record as it now is.
   */
  function CompleteStep(store: map<string, Record>, paymentId: string, confirmedAt: string,
                        config: Config, prims: Primitives): (r: Deferred)
    ensures paymentId !in store ==> r == Deferred(store, None)
    ensures paymentId in store ==>
      && r.store.Keys == store.Keys
      && (forall k :: k in store && k != paymentId ==> r.store[k] == store[k])
      && r.store[paymentId].status == PaymentCompleted
      && r.store[paymentId].confirmedAt ==
           (if store[paymentId].status == PaymentCompleted then store[paymentId].confirmedAt else Some(confirmedAt))
      && r.store[paymentId] == store[paymentId].(status := PaymentCompleted, confirmedAt := r.store[paymentId].confirmedAt)
      && r.webhook == Some(PostWebhook(store[paymentId].callbackUrl, PayloadOf(r.store[paymentId]), DefaultEvent, config, prims))
  {
    if paymentId !in store then
      Deferred(store, None)
    else
      var rec := store[paymentId];
      var done := if rec.status != PaymentCompleted
        then rec.(status := PaymentCompleted, confirmedAt := Some(confirmedAt))
        else rec;
      Deferred(store[paymentId := done], Some(PostWebhook(done.callbackUrl, PayloadOf(done), DefaultEvent, config, prims)))
  }

  /**
   * `list_payments`: the pending and completed counts and the whole store; in
   * a store the server produced the two counts add up to its size.
   */
  function ListPayments(store: map<string, Record>): (r: Listing<Record>)
    ensures r.payments == store
    ensures r.pendingCount == Count(Statuses(store, StatusOf), Pending)
    ensures r.completedCount == Count(Statuses(store, StatusOf), PaymentCompleted)
    ensures ValidStore(store) ==> r.pendingCount + r.completedCount == |store|
  {
    assert ValidStore(store) ==> OnlyAssigned(Statuses(store, StatusOf));
    ListByStatus(store, StatusOf)
  }

  lemma {:induction false} StartKeepsValid(store: map<string, Record>, req: PaymentInit, createdAt: string)
    requires ValidStore(store)
    ensures ValidStore(Start(store, req, createdAt).store)
  {
  }

  lemma {:induction false} CompleteStepKeepsValid(store: map<string, Record>, paymentId: string, confirmedAt: string,
                                                  config: Config, prims: Primitives)
    requires ValidStore(store)
    ensures ValidStore(CompleteStep(store, paymentId, confirmedAt, config, prims).store)
  {
  }

  /** Resubmitting a tx id replaces the earlier record entirely, even a completed one. */
  lemma {:induction false} ResubmitOverwrites(store: map<string, Record>, first: PaymentInit, second: PaymentInit,
                                              t1: string, t2: string)
    requires first.txId == second.txId
    ensures Start(Start(store, first, t1).store, second, t2) == Start(store, second, t2)
  {
    var id := PaymentIdOf(first.txId);
    var rec := Record(id, second.orderId, second.txId, second.userId, second.amount, Pending, t2, None, second.callbackUrl);
    assert Start(store, first, t1).store[id := rec] == store[id := rec];
  }

  /** Running the deferred step again changes neither the record nor its `confirmedAt`, and re-posts the same webhook. */
  lemma {:induction false} CompleteStepIdempotent(store: map<string, Record>, paymentId: string, t1: string, t2: string,
                                                  config: Config, prims: Primitives)
    ensures var once := CompleteStep(store, paymentId, t1, config, prims);
      && CompleteStep(once.store, paymentId, t2, config, prims) == once
  {
    var once := CompleteStep(store, paymentId, t1, config, prims);
    if paymentId in store {
      assert once.store[paymentId := once.store[paymentId]] == once.store;
    }
  }

  /**
   * The webhook of the deferred step reports the completed payment; a missing
   * secret loses the webhook but not the completion.
   */
  lemma {:induction false} CompleteStepPayload(store: map<string, Record>, paymentId: string, confirmedAt: string,
                                               config: Config, prims: Primitives)
    requires paymentId in store
    ensures var r := CompleteStep(store, paymentId, confirmedAt, config, prims);
      && r.store[paymentId].status == PaymentCompleted
      && r.webhook.Some?
      && (r.webhook.value.Failure? <==> config.webhookSecret == "")
      && (r.webhook.value.Success? ==>
            && r.webhook.value.value.url == store[paymentId].callbackUrl
            && r.webhook.value.value.body == prims.jsonUtf8(WebhookPayload(
                 PayloadVersion, store[paymentId].paymentId, store[paymentId].orderId, store[paymentId].txId,
                 store[paymentId].userId, store[paymentId].amount, PaymentCompleted,
                 store[paymentId].createdAt, r.store[paymentId].confirmedAt))
            && r.webhook.value.value.headers["X-Payment-Event"] == DefaultEvent)
  {
  }

  /**
   * The server process: it owns the `payments` dictionary and the
   * configuration read from the environment at start-up.
   */
  class Server {
    var payments: map<string, Record>
    const config: Config
    const prims: Primitives

    ghost predicate Valid()
      reads this
    {
      ValidStore(payments)
    }

    constructor (config: Config, prims: Primitives)
      ensures Valid() && payments == map[] && this.config == config && this.prims == prims
    {
      this.config := config;
      this.prims := prims;
      payments := map[];
    }

    /** `start_payment_v2`, with `createdAt` standing for the clock; the deferred task is `CompleteAndWebhook`. */
    method StartPaymentV2(req: PaymentInit, createdAt: string) returns (response: CreateResponse)
      requires Valid()
      modifies this`payments
      ensures Valid()
      ensures Created(payments, response) == Start(old(payments), req, createdAt)
    {
      var paymentId := PaymentIdOf(req.txId);
      payments := payments[paymentId := Record(paymentId, req.orderId, req.txId, req.userId, req.amount,
                                               Pending, createdAt, None, req.callbackUrl)];
      response := CreateResponse(true, req.txId, Pending, paymentId);
    }

    /** The body of `_complete_and_webhook` once its delay has elapsed, with `confirmedAt` standing for the clock. */
    method CompleteAndWebhook(paymentId: string, confirmedAt: string)
      returns (webhook: Option<Result<WebhookRequest, SignError>>)
      requires Valid()
      modifies this`payments
      ensures Valid()
      ensures Deferred(payments, webhook) == CompleteStep(old(payments), paymentId, confirmedAt, config, prims)
    {
      if paymentId !in payments {
        return None;
      }
      var rec := payments[paymentId];
      if rec.status != PaymentCompleted {
        rec := rec.(status := PaymentCompleted, confirmedAt := Some(confirmedAt));
        payments := payments[paymentId := rec];
      }
      var payload := PayloadOf(rec);
      webhook := Some(PostWebhook(rec.callbackUrl, payload, DefaultEvent, config, prims));
    }
  }
}
