# Payment server ledger — a Dafny model

This project models the in-memory payment ledger of a small payment server in
its two versions:

- **Manual confirmation** (`main.py`). `request_payment` stores a PENDING card
  payment under `"pay_"` plus ten hex digits of a uuid. `confirm_payment` moves a
  PENDING payment to PAYMENT_COMPLETED and sets `confirmed_at`. It rejects an unknown
  id with 404 and a payment that is no longer PENDING with 400.
  `get_payment_status` is a lookup, and `list_pending_payments` reports the
  pending and completed counts.
- **Webhook** (`main2.py`). `start_payment_v2` stores a PENDING record under
  `"pay_" + tx_id` and overwrites any earlier record for that transaction. A
  deferred task later completes the record. It sets `confirmed_at` only if the
  record was not already completed. Then it posts a webhook whose body is signed
  with HMAC-SHA256 and whose headers carry the event, the signature and an
  optional bearer token. `list_payments` reports the counts.

Files:

- `results.dfy`: `Option` and `Result`.
- `payment_status.dfy`: the status literals and the listing both servers share
  (`ListByStatus`). It also proves how a count moves when one record is written,
  and that the pending and completed counts partition a store that holds only
  those two statuses.
- `manual_server.dfy`: `main.py`. The class `ManualServer.Server` owns the
  `pending_payments` map. The pure functions `Request`, `Confirm`,
  `GetPaymentStatus` and `ListPendingPayments` specify the endpoints. The lemmas
  prove the invariant, the count changes and the double-confirmation rejection.
- `webhook_server.dfy`: `main2.py`. The class `WebhookServer.Server` owns the
  `payments` map and the configuration. `Start` and `CompleteStep` specify the
  two steps. `Sign`, `WebhookHeaders`, `PostWebhook` and `PayloadOf` build the
  webhook. The lemmas cover overwrite, idempotence and the payload. `ListPayments`
  states each count, and proves through `PaymentStatus.CountsPartition` that
  the two counts add up to the store size.

Each class method that changes the store is proved equal to its pure step
function, and it preserves the store invariant (`Valid`). The invariant says
that every record is PENDING or PAYMENT_COMPLETED and that `confirmed_at` is
set iff the record is completed. In `main.py` the invariant also requires an
amount of at least 1 and the method CARD. In `main2.py` it also requires the key
to be `"pay_" + tx_id`. Uuids and timestamps are parameters. JSON encoding,
UTF-8 encoding and HMAC-SHA256/base64 are function-valued fields of
`WebhookServer.Primitives`, so no property of their internals is assumed.

Behaviour of the code worth knowing:

- `main2.py` does not validate `amount`. Only `main.py` requires an amount of at least 1.
- Resubmitting a `tx_id` replaces the record. A completed payment is reset to
  PENDING (`ResubmitOverwrites`, `Start`). The id is not used as an idempotency key.
- A missing webhook secret is found only when a webhook is signed, not at
  start-up. By then the deferred step has already completed the record
  (`CompleteStepPayload`).
- The status CANCELLED is allowed by the response model but never assigned
  (`NoneCancelled`).
- Running the deferred step a second time posts the same webhook again
  (`CompleteStepIdempotent`).

## Model

| member | source | states |
|---|---|---|
| `PaymentStatus.CountsPartition` | main2.py:87-91 | if every record is PENDING or PAYMENT_COMPLETED, the two counts add up to the number of records and nothing counts as CANCELLED |
| `PaymentStatus.ListByStatus` | main.py:162-173 | the listing returns the whole store, its counts are the numbers of PENDING and of PAYMENT_COMPLETED records, and when no other status occurs they add up to the number of records |
| `PaymentStatus.CountAfterWrite` | main.py:162-163 | writing one record's status takes it out of its old status's count and adds it to the new one's |
| `ManualServer.Request` | main.py:18-73 | an amount below 1 is rejected and leaves the store unchanged; otherwise the id maps to a PENDING CARD record with the given order and amount and no confirmation time, other entries are unchanged, and the response echoes the record |
| `ManualServer.Confirm` | main.py:89-119 | not found iff the id is absent; already processed iff the record is not PENDING; success iff the record is present and PENDING; both failures leave the store unchanged; success sets PAYMENT_COMPLETED and `confirmed_at`, keeps the other fields and entries, and answers with the updated record |
| `ManualServer.GetPaymentStatus` | main.py:134-150 | not found iff the id is absent, found iff it is present, and then the stored fields, including an absent `confirmed_at` |
| `ManualServer.ListPendingPayments` | main.py:162-173 | the listing returns the whole store, `pending_count` is the number of PENDING records and `completed_count` the number of PAYMENT_COMPLETED records, and in a store the endpoints produced pending plus completed equals the number of payments |
| `ManualServer.RequestKeepsValid` | main.py:48-54 | creation keeps every record PENDING or completed, with `confirmed_at` iff completed, amount at least 1 and method CARD |
| `ManualServer.ConfirmKeepsValid` | main.py:100-103 | confirmation keeps the same invariant |
| `ManualServer.SecondConfirmFails` | main.py:94-98 | confirming an id a second time always fails and leaves the store unchanged |
| `ManualServer.RequestAddsPending` | main.py:48-54 | a request under a fresh id adds one record and raises only the pending count by one, in the listing too |
| `ManualServer.ConfirmMovesOne` | main.py:100-103 | a successful confirmation lowers the pending count by one and raises the completed count by one, with the store size unchanged, in the listing too |
| `ManualServer.NoneCancelled` | main.py:27 | a store the endpoints produced holds no CANCELLED payment: the response model allows that status but nothing assigns it |
| `ManualServer.LookupAfterConfirm` | main.py:142-150 | after a successful confirmation, the lookup shows PAYMENT_COMPLETED with that confirmation time and the original order, amount and creation time |
| `ManualServer.Server.RequestPayment` | main.py:38-73 | the store and response are those of `Request` under the id `"pay_" + uuid hex[:10]`; the invariant is kept |
| `ManualServer.Server.ConfirmPayment` | main.py:76-119 | the store and response are those of `Confirm`; the invariant is kept |
| `WebhookServer.PaymentIdInjective` | main2.py:101 | two transactions share a payment id iff their tx ids are equal |
| `WebhookServer.Sign` | main2.py:50-54 | fails iff the secret is empty; otherwise the base64 HMAC-SHA256 keyed by the secret's UTF-8 bytes over exactly the body |
| `WebhookServer.WebhookHeaders` | main2.py:58-64 | Content-Type, X-Payment-Event and X-Payment-Signature are always present with their values; `Authorization: Bearer <token>` is present iff the token is non-empty; no other header |
| `WebhookServer.PostWebhook` | main2.py:56-64 | fails iff the secret is empty; otherwise posts the encoded payload to the URL, with a signature that the receiver's check accepts over those exact bytes, and with exactly the headers of `WebhookHeaders` for the given event, that signature and the configured token |
| `WebhookServer.PayloadOf` | main2.py:129-140 | the payload's version is "v2" |
| `WebhookServer.PayloadDeterminesRecord` | main2.py:129-140 | two records with the same callback URL have the same payload iff they are equal: the payload copies every other field |
| `WebhookServer.Start` | main2.py:101-115 | exactly the key `"pay_" + tx_id` is added or overwritten, with a PENDING record, no confirmation time and the request's fields; other keys are unchanged; the response is ok, PENDING, with the tx id and that payment id |
| `WebhookServer.CompleteStep` | main2.py:117-142 | no-op when the record is absent; otherwise the record becomes PAYMENT_COMPLETED; `confirmed_at` changes only if it was not completed; nothing else changes; the webhook is posted to the record's URL with the completed record's payload |
| `WebhookServer.ListPayments` | main2.py:86-93 | the listing returns the whole store, `pending_count` is the number of PENDING records and `completed_count` the number of PAYMENT_COMPLETED records, and in a store the server produced pending plus completed equals the number of payments |
| `WebhookServer.StartKeepsValid` | main2.py:105-115 | creation keeps every record under its own `"pay_" + tx_id` key, PENDING or completed, with `confirmed_at` iff completed |
| `WebhookServer.CompleteStepKeepsValid` | main2.py:120-126 | the deferred step keeps the same invariant |
| `WebhookServer.ResubmitOverwrites` | main2.py:104-115 | submitting the same tx id twice leaves exactly the store of the second submission alone: the first record is gone, even if it was completed |
| `WebhookServer.CompleteStepIdempotent` | main2.py:123-126 | running the deferred step twice equals running it once: `confirmed_at` keeps its first value and the same webhook is posted |
| `WebhookServer.CompleteStepPayload` | main2.py:128-142 | after the deferred step the record is completed; the webhook fails iff the secret is empty, which does not undo the completion; otherwise its body encodes the v2 payload with status PAYMENT_COMPLETED and the record's fields, sent to the callback URL with event `payment.completed` |
| `WebhookServer.Server.StartPaymentV2` | main2.py:96-145 | the store and response are those of `Start`; the invariant is kept |
| `WebhookServer.Server.CompleteAndWebhook` | main2.py:117-142 | the store and the posted webhook are those of `CompleteStep`; the invariant is kept |

## Left out

- HTTP routing, request parsing and exception plumbing. A rejected request is a `Failure` value carrying its HTTP status (422, 404, 400).
- The validation of `callback_url` as an HTTP URL and of `version == "v2"` in the v2 request body. The model takes a validated request.
- The network POST of the webhook, its 10-second timeout and its response. The model yields the request that would be sent.
- The internals of `json.dumps`, UTF-8 encoding, HMAC-SHA256 and base64. They are opaque functions, so the model does not show that a changed body fails verification.
- `uuid4` randomness and clock reads. Ids and timestamps are parameters. A uuid prefix that collides with an existing id overwrites that record, as in the source.
- The delay before the deferred task and its interleaving with other requests. The deferred step is one atomic step that may run on any store.
- Loading of the environment and parsing of the delay as a float. The secret and token are a `Config` value.
- Logging, the debug endpoint, the health and hint endpoints, and the two Streamlit front ends.
- In-place mutation of a record dictionary is modelled as replacing the map entry. No reference to a record escapes the store in the source, so no aliasing is lost.
