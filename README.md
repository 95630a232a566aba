# Event-driven payment processor: a verified model of the payment pipeline

This project models the two components of the payment processor that hold its logic. Both are written in Dafny and verified.

- **The payment service** (`process_payment`). It is the idempotency guard and the outcome state machine over the transaction store, which is keyed by idempotency key. A key whose record is COMPLETED is skipped. A key seen for the first time gets a PROCESSING record. The gateway's answer then moves the record to COMPLETED (success), or to FAILED with its retry count raised (transient failure), or to FAILED with the retry count left alone (permanent failure). Every call moves the `messages_consumed` counter. Each outcome other than the skip also moves one of the other three counters.
- **The consumer callback** (`_callback`). It is the retry-escalation controller. A transient failure under the retry limit is republished to the intake queue. The republish comes after a pause of `2 ** retries` seconds and carries `x-retry = retries + 1`. A transient failure at the limit, and any permanent failure, sends the unchanged body to the dead-letter queue. When the body decodes and the service returns, or raises one of its two payment errors, the delivery is acked exactly once, after any publish. A body that does not decode is never acked (see below).

Files:

- `wrappers.dfy`: `Option` and `Result`.
- `store.dfy` (module `Store`): the transaction store as a `map<string, Record>`. It has `Find`, `Create` and `Update`. `Create` fails with `DuplicateKey` when the key is present, as the collection's unique index on the idempotency key does. `Update` is a `$set` field merge.
- `payments.dfy` (module `Payments`):
  - `Classify` combines the simulation flags with the gateway's answer.
  - `Process` is the specification of one call as a value.
  - `Run` folds `Process` over a sequence of deliveries.
  - Class `PaymentService` holds the store and the four counters as fields. Its method `ProcessPayment` is proved against `Process` and `Tally`.
- `consumer.dfy` (module `Consumer`):
  - The pure decision: `RetryCount`, `Pow2`, `Decide`, and `Actions`, the list of channel actions for one delivery.
  - Class `MQConsumer`: its `Callback` appends publishes, backoff pauses and acks to an action log. It is proved against `Process` and the pure decision.
  - The retry-chain lemmas for a message that always fails transiently.

External inputs are parameters:

- The gateway's answer (`Success | Transient | Permanent`) replaces the two `random.random()` draws. `Transient` stands for "the first draw was under 0.2". `Permanent` stands for "the first draw was not, and the second was under 0.05".
- The JSON decoding of the body is the parameter `decoded: Option<Event>`.
- The channel is the log field `MQConsumer.log`. The blocking backoff pause is recorded as a `Sleep(seconds)` action.
- `Config.PAYMENT_RETRY_LIMIT` is the field `MQConsumer.retryLimit`. The queue names are the two constructors of `Queue`.

Behaviour of the code that one might not expect, which the model keeps:

- The backoff is `2 ** retries` (`src/services/message_queue_consumer.py:82`). The configuration value `PAYMENT_RETRY_INITIAL_DELAY_SECONDS` (`src/config.py:22`) is read but never used.
- Only the `x-retry` header is consulted (`src/services/message_queue_consumer.py:68-70`), not the stored `retry_count`. The `x-retry-count` header written by the dead-letter retry script is ignored (`OtherHeadersIgnored`).
- Decoding (`src/services/message_queue_consumer.py:61`) happens outside the `try`. A body that does not decode escapes the callback with nothing published and nothing acked. It does not go to the dead-letter queue.
- The dead-letter publishes (`src/services/message_queue_consumer.py:76-80`, `99-103`) carry no properties: no headers and no persistent delivery mode.
- An update that matches no record changes nothing (`repository/mongo_repo.py:32-37` is an `update_one` without upsert). It does not fail with "not found".
- Each delivery raises the stored retry count on a transient failure (`src/services/payment_service.py:113-114`), including the last one, which is dead-lettered. So with a limit of R, a new payment that always fails transiently ends with `retry_count = R + 1`, not R (`LimitThreeScenario`, `TransientRetryRecord`). The `retries_total` counter ends at R + 1 too.
- Nothing guards `create_transaction` against a concurrent worker creating the same key. Within one sequential call the create always succeeds, because the key was just found absent.

## Model

| member | source | states |
|---|---|---|
| `Store.Find` | repository/mongo_repo.py:24-25 | finds a record exactly when the key is stored, and returns the stored record |
| `Store.Create` | repository/mongo_repo.py:17-30 | fails with DuplicateKey exactly when the key is already present; otherwise adds exactly that record and keeps every other record; keeps every record under its own key |
| `Store.Merge` | repository/mongo_repo.py:32-37 | the payment's identity fields are kept; each field the patch names takes the patch's value, every other field keeps its stored value |
| `Store.Update` | repository/mongo_repo.py:32-37 | the key set is unchanged, records under other keys are unchanged, the key's record is merged with the patch, and a missing key is a no-op |
| `Store.CreateTwiceFails` | repository/mongo_repo.py:17-30 | after a successful create, finding the key returns the record and a second create of it fails with DuplicateKey |
| `Payments.Classify` | src/services/payment_service.py:94-99 | the outcome is Transient exactly when the transient flag is set or the gateway answers transiently; Permanent exactly when neither of those holds and the permanent flag is set or the gateway answers permanently; Success exactly when neither flag is set and the gateway succeeds; without flags the gateway decides |
| `Payments.NewRecord` | src/services/payment_service.py:77-86 | the first-sight record carries the event's key, amount, currency and user, status PROCESSING, retry count 0 and no error |
| `Payments.Process` | src/services/payment_service.py:50-135 | skip exactly when the key's record is COMPLETED, leaving the store unchanged; otherwise the key is present afterwards and no other record changes; success sets COMPLETED and keeps the retry count and last error; transient sets FAILED, retry count = previous + 1 (1 when new) and the transient message; permanent sets FAILED and the permanent message and keeps the retry count; each result holds exactly when the guard passes and the classified outcome is the matching one |
| `Payments.Tally` | src/services/payment_service.py:65-128 | every call adds one to messages consumed; success, permanent failure and transient failure each add one to their own counter, and a skip adds to none of them |
| `Payments.Run` | src/services/payment_service.py:50-135 | processing never removes a record and keeps every record under its own key |
| `Payments.CompletedIsTerminal` | src/services/payment_service.py:73-75 | a COMPLETED record is unchanged by any later sequence of deliveries, for any keys |
| `Payments.ReplayOfCompletedKeyIsNoOp` | src/services/payment_service.py:73-75 | replaying a completed key any number of times leaves the whole store unchanged |
| `Payments.RetryCountNeverDecreases` | src/services/payment_service.py:111-132 | a stored record's retry count never decreases over any sequence of deliveries |
| `Payments.PaymentService.constructor` | src/services/payment_service.py:19-48 | the service starts on the given store with all four counters at zero |
| `Payments.PaymentService.ProcessPayment` | src/services/payment_service.py:50-135 | the result and the new store are those of `Process` on the old store; the counters move as `Tally` says; the store keeps every record under its own key |
| `Consumer.RetryCount` | src/services/message_queue_consumer.py:68-70 | the retry count is the x-retry header when present and 0 otherwise |
| `Consumer.OtherHeadersIgnored` | src/services/message_queue_consumer.py:68-70 | headers other than x-retry (such as x-retry-count) do not change the retry count; a republished header carries back exactly the count written |
| `Consumer.Pow2` | src/services/message_queue_consumer.py:82 | the backoff is at least one second |
| `Consumer.Pow2StrictlyIncreasing` | src/services/message_queue_consumer.py:82 | a larger retry count gives a strictly longer backoff |
| `Consumer.Decide` | src/services/message_queue_consumer.py:63-104 | success and skip are only acked; a transient failure is requeued exactly when its retry count is under the limit, with delay 2^retries and next count retries + 1 (never above the limit); a permanent failure, and a transient one at or over the limit, is dead-lettered whatever the header says |
| `Consumer.Actions` | src/services/message_queue_consumer.py:63-104 | the delivery is acked exactly once, as the last action; at most one publish, immediately before the ack; settled deliveries are only acked; a requeue pauses, then republishes the body to intake, persistent, with x-retry = next count; a dead-letter publishes the unchanged body with no headers |
| `Consumer.ActionsProjections` | src/services/message_queue_consumer.py:63-104 | one delivery contributes exactly its tag to the acks, one intake publish and one pause only when requeued, and one dead-letter publish only when dead-lettered |
| `Consumer.MQConsumer.constructor` | src/services/message_queue_consumer.py:9-12 | the consumer starts with the given service, the retry limit and an empty channel log |
| `Consumer.MQConsumer.Callback` | src/services/message_queue_consumer.py:60-104 | an undecodable body escapes with the log, store and counters unchanged; otherwise the store and counters are those of processing the event, and the log grows by exactly the actions of the decision on the result, the headers and the limit |
| `Consumer.TransientRetryBound` | src/services/message_queue_consumer.py:74-93 | a message that always fails transiently, arriving with count r <= limit, is requeued limit - r times with counts r+1..limit and delays 2^r..2^(limit-1), then dead-lettered |
| `Consumer.TransientRepublishes` | src/services/message_queue_consumer.py:74-93 | the intake queue receives exactly limit - r persistent republishes of the body, with x-retry r+1..limit in order, and the dead-letter queue receives the unchanged body once |
| `Consumer.TransientBackoffs` | src/services/message_queue_consumer.py:81-83 | the pauses of the run are exactly 2^r, ..., 2^(limit-1), in order |
| `Consumer.TransientAcks` | src/services/message_queue_consumer.py:74-95 | each of the limit - r + 1 deliveries is acked exactly once, in delivery order |
| `Consumer.BackoffStrictlyIncreases` | src/services/message_queue_consumer.py:81-83 | the backoff pauses of the run strictly increase |
| `Consumer.PipelineFollowsRetryRun` | src/services/message_queue_consumer.py:60-95 | when the gateway always answers transiently, every delivery through the service fails transiently, so the channel sees exactly the consumer's retry run |
| `Consumer.TransientRetryRecord` | src/services/payment_service.py:111-122 | over that run the record ends FAILED with its retry count raised once per delivery (limit - r + 1), no other record changes, and consumed and retries_total each rise by limit - r + 1 |
| `Consumer.LimitThreeScenario` | src/services/message_queue_consumer.py:74-95 | with limit 3 and a new key: pauses 1, 2, 4; republishes with x-retry 1, 2, 3; one dead-letter publish; acks 0..3; final record FAILED with retry count 4 |

## Left out

- The RabbitMQ connection, queue declarations, reconnect loop and consuming loop (`_connect_to_rabbitmq`, `start`). These are network I/O.
- The broker calls are assumed to succeed. A failing `basic_publish` or `basic_ack` is not modelled.
- The `time.sleep(0.1)` processing pause. The random failure injection is replaced by the gateway parameter, and the backoff `time.sleep` by a recorded `Sleep` action.
- Logging (`print`).
- JSON decoding. `Callback` takes the decoded event as a parameter, and every `Event` carries all of its fields. A `decoded` of `None` stands only for a body that does not decode, which escapes before anything is counted. Events that decode but are malformed are not modelled, and the source treats them differently from an undecodable body:
  - A missing `idempotency_key` raises at `src/services/payment_service.py:64`, before `messages_consumed` moves at line 65, like an undecodable body.
  - A missing `amount`, `currency` or `user_id` raises only on the key's first sighting (`src/services/payment_service.py:77-82`). By then `messages_consumed` has already moved, while `Callback`'s unhandled case keeps every counter unchanged. The exception escapes the callback unacked.
  - When the key already has a record, those three fields are never read. Such an event is processed and acked like a complete one, but the model cannot represent it.
  - A `metadata` value that is null or not an object raises at `src/services/payment_service.py:67`, after `messages_consumed` has moved. The exception escapes the callback unacked.
- Header values that are not natural numbers. Headers are `map<string, nat>`, and a message without headers has the empty map.
- A negative retry limit. The limit is a `nat`.
- The `created_at` / `updated_at` timestamps and the MongoDB and pika client libraries.
- The four counters are fields of the service object. In the source they are module-level Prometheus counters; one service runs per process, so the difference is not observable. The metrics HTTP endpoints are not modelled.
- Delivery tags of a retry run. `RetryRun` and `TransientDeliveries` give each republished copy the channel's next delivery tag (`tag + 1`), which assumes no other message is delivered on the channel in between. `TransientAcks`'s `tag + i` rests on that assumption. `Callback` itself takes any tag.
- Concurrent workers. The model is sequential. The duplicate-key race on `create_transaction` has no handling in the code, so there is no recovery behaviour to model.
- Amounts are modelled as `real`. They are only copied into the record, never computed with.
- Configuration loading and process wiring (`src/config.py`, `src/main.py`), the superseded nack/requeue consumer (`consumer.py`), and the dead-letter scripts (`dlq_retry.py`, `consume_dlq.py`, `publish_test.py`) are not part of this model.
