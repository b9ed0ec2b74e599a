# Feishu urgent-notification escalation

A Dafny model of SmsForwarder's Feishu escalation workflow. After a message is sent to a
Feishu user, a background worker wakes up repeatedly. On each wake-up it asks the Feishu
open platform whether the user has read the message. If the user has not, and the attempt
budget is not used up, it sends an urgent phone notification. It then re-enqueues itself
with a delay of `initialDelaySeconds * 2^attemptIndex`. Only a notification that succeeds
consumes the budget.

The model has three modules:

- `Wrappers` (`wrappers.dfy`): `Option` for Kotlin's nullable values and missing
  work-data keys, and `Result` for `kotlin.Result`.
- `FeishuAppApi` (`feishu_app_api.dfy`): how the callbacks of `getMessageReadUserIds`
  and `sendUrgentSms` turn a platform reply into a result, and the two requests they
  send. A reply arrives already parsed, as a `Response`. `TransportError` stands for
  `onError`. `Body` holds the values the callbacks' accessors return: an optional `code`,
  an optional `data.items`, and each item with an optional `user_id`. These accessors
  convert leniently. A numeric string `code` such as `"0"` is read as its number, a
  fractional `code` is truncated, and a numeric `user_id` is read as its decimal text.
  `Unparseable` stands for a body on which the parser or an accessor throws. That is a
  JSON `null` field, a root, `data` or item that is not an object, an `items` that is
  not an array, or a non-numeric `code`. The read-users callback builds its id list in a loop
  (`OnReadUsersResponse`). That loop is proved equal to the recursive filter
  `ReadUserIds`, and the filter is proved to select, in order, exactly the items whose
  `user_id` is present and non-empty.
- `FeishuUrgentWorker` (`feishu_urgent_worker.dfy`):
  - `ReadTask` validates the work data and fills in the defaults (3 attempts, attempt 0,
    60 seconds).
  - `Decide` is the state machine of one wake-up: stop because the message was read,
    stop because the budget is exhausted, or escalate with the next attempt index and
    delay.
  - `Run` is the whole `doWork` as a function of the work data and of the wake-up's
    environment. The environment is the two replies plus where, if anywhere, an
    unexpected exception interrupts the run.
  - `WorkQueue` is the job queue. Its `Schedule` method appends one request.
  - `DoWork` is the worker's method, proved to have exactly the effects `Run` describes.

Because `Run` is a function of the persisted work data and the platform's answers, a
wake-up delivered twice with the same data and the same answers has the same effects.

Two behaviours of the code shape the model:

- The code enqueues with plain `WorkManager.enqueue` plus a tag, not as unique work.
  Scheduling twice for the same message therefore leaves two pending requests, and
  `WorkQueue.Schedule` appends rather than replaces.
- `sendUrgentSms` takes a `uuid` argument but never sends it, so the urgent request
  carries no idempotency key. `UrgentRequest` has no such parameter.

## Model

| member | source | states |
|---|---|---|
| `FeishuAppApi.ReadUserIds` | app/src/main/java/com/idormy/sms/forwarder/utils/sender/FeishuAppApi.kt:52-56 | the collected ids are never more than the items, and none of them is empty |
| `FeishuAppApi.ReadUserIdsSelects` | app/src/main/java/com/idormy/sms/forwarder/utils/sender/FeishuAppApi.kt:52-56 | the collected ids are exactly the present, non-empty `user_id`s of the items, in item order: a subsequence with nothing added, dropped or reordered |
| `FeishuAppApi.ReadUsersOutcome` | app/src/main/java/com/idormy/sms/forwarder/utils/sender/FeishuAppApi.kt:36-60 | the read query succeeds exactly when the reply's `code` is 0, and then yields the filtered ids; a missing code fails as `code=-1`, a non-zero code fails with that code, and a transport error or parse exception is a failure |
| `FeishuAppApi.AbsentItemsReadByNobody` | app/src/main/java/com/idormy/sms/forwarder/utils/sender/FeishuAppApi.kt:50-57 | a zero-code reply without `data` or without `items` is a success with an empty reader list |
| `FeishuAppApi.OnReadUsersResponse` | app/src/main/java/com/idormy/sms/forwarder/utils/sender/FeishuAppApi.kt:36-61 | the callbacks, with the appending loop, resume with exactly `ReadUsersOutcome` of the reply |
| `FeishuAppApi.UrgentOutcome` | app/src/main/java/com/idormy/sms/forwarder/utils/sender/FeishuAppApi.kt:86-102 | the urgent call succeeds exactly when `code` is 0; a missing code fails as `code=-1`; a transport error or parse exception is a failure |
| `FeishuAppApi.UrgentIgnoresData` | app/src/main/java/com/idormy/sms/forwarder/utils/sender/FeishuAppApi.kt:93-98 | the urgent call's result depends on the reply's `code` alone |
| `FeishuAppApi.ReadUsersRequest` | app/src/main/java/com/idormy/sms/forwarder/utils/sender/FeishuAppApi.kt:24-28 | the read query is a GET whose URL names exactly the given message |
| `FeishuAppApi.UrgentRequest` | app/src/main/java/com/idormy/sms/forwarder/utils/sender/FeishuAppApi.kt:69-77 | the urgent call is a PATCH whose URL names exactly the given message and whose `user_id_list` is exactly `[userId]` |
| `FeishuUrgentWorker.ReadTask` | app/src/main/java/com/idormy/sms/forwarder/workers/FeishuUrgentWorker.kt:21-31 | the work data yields a task exactly when `appId`, `userId` and `messageId` are all present and non-empty |
| `FeishuUrgentWorker.MissingNumbersDefault` | app/src/main/java/com/idormy/sms/forwarder/workers/FeishuUrgentWorker.kt:21-26 | a valid task carries the work data's three ids; each numeric key separately is its stored value when present and its own default when missing (`maxAttempts` 3, `attemptIndex` 0, `initialDelaySeconds` 60) |
| `FeishuUrgentWorker.Pow2Monotone` | app/src/main/java/com/idormy/sms/forwarder/workers/FeishuUrgentWorker.kt:56 | the backoff factor `2^n` never decreases as `n` grows |
| `FeishuUrgentWorker.Decide` | app/src/main/java/com/idormy/sms/forwarder/workers/FeishuUrgentWorker.kt:33-56 | it stops as read exactly when a successful query lists the user; it stops as exhausted exactly when the read is unconfirmed and `attemptIndex >= maxAttempts`; otherwise `nextAttemptIndex` is the index plus one on a successful notify and unchanged on a failed one, it stays within `[attemptIndex, maxAttempts]`, and the delay is `initialDelay * 2^nextAttemptIndex` |
| `FeishuUrgentWorker.ReadFailureActsAsUnread` | app/src/main/java/com/idormy/sms/forwarder/workers/FeishuUrgentWorker.kt:36-46 | a failed read query gives the same decision as a reader list without the user |
| `FeishuUrgentWorker.NotifyOutcomeBackoff` | app/src/main/java/com/idormy/sms/forwarder/workers/FeishuUrgentWorker.kt:52-56 | a failed notify re-arms at the same index with `initialDelay * 2^attemptIndex`; a successful one re-arms at the next index with twice that delay |
| `FeishuUrgentWorker.ChainBackoffNondecreasing` | app/src/main/java/com/idormy/sms/forwarder/workers/FeishuUrgentWorker.kt:53-66 | along any chain of wake-ups with a non-negative base delay, each re-arm waits at least the backoff for the starting attempt index, and at least as long as every earlier re-arm |
| `FeishuUrgentWorker.ChainNotificationsBounded` | app/src/main/java/com/idormy/sms/forwarder/workers/FeishuUrgentWorker.kt:46-53 | from a state with `0 <= attemptIndex <= maxAttempts`, any sequence of wake-ups notifies successfully at most `maxAttempts - attemptIndex` times |
| `FeishuUrgentWorker.NewRequest` | app/src/main/java/com/idormy/sms/forwarder/workers/FeishuUrgentWorker.kt:93-105 | reading a scheduled request's work data back gives exactly the task it was built from, or no task when an id is empty; the delay is the one given; the tag is exactly `feishu_urgent_` followed by the message id |
| `FeishuUrgentWorker.WorkQueue.Schedule` | app/src/main/java/com/idormy/sms/forwarder/workers/FeishuUrgentWorker.kt:83-107 | exactly one request is appended to the pending requests and nothing else changes |
| `FeishuUrgentWorker.StartChain` | app/src/main/java/com/idormy/sms/forwarder/workers/FeishuUrgentWorker.kt:90-91 | called without them, `schedule` uses `attemptIndex = 0` and `delaySeconds = initialDelaySeconds` |
| `FeishuUrgentWorker.FirstRequestOnSchedule` | app/src/main/java/com/idormy/sms/forwarder/workers/FeishuUrgentWorker.kt:90-91 | the first request of a chain already has the delay `initialDelay * 2^attemptIndex` that every re-arm keeps |
| `FeishuUrgentWorker.InvalidDataFails` | app/src/main/java/com/idormy/sms/forwarder/workers/FeishuUrgentWorker.kt:28-31 | work data with a missing or empty id fails the run, with no platform call and nothing enqueued |
| `FeishuUrgentWorker.ReadEndsChain` | app/src/main/java/com/idormy/sms/forwarder/workers/FeishuUrgentWorker.kt:35-40 | when the query lists the user, the run succeeds after the read query alone, with nothing enqueued, whatever the attempt index |
| `FeishuUrgentWorker.ExhaustedEndsChain` | app/src/main/java/com/idormy/sms/forwarder/workers/FeishuUrgentWorker.kt:46-49 | with `attemptIndex >= maxAttempts` (so always when `maxAttempts = 0`), the run succeeds after exactly the read query for the task's app and message, without notifying or enqueueing |
| `FeishuUrgentWorker.FaultRetries` | app/src/main/java/com/idormy/sms/forwarder/workers/FeishuUrgentWorker.kt:33-72 | an unexpected exception in the read query, the notify or the enqueue yields retry with nothing enqueued; a run that notifies without a fault succeeds and enqueues; a run enqueues only when it succeeds without a fault |
| `FeishuUrgentWorker.NotifiesRecipientOnce` | app/src/main/java/com/idormy/sms/forwarder/workers/FeishuUrgentWorker.kt:35-52 | a run makes at most two calls; when it notifies, the first is the read query for the task's message and the second the one urgent request, both under the task's app id, targeting the task's message with `user_id_list = [userId]` |
| `FeishuUrgentWorker.UnreadEscalates` | app/src/main/java/com/idormy/sms/forwarder/workers/FeishuUrgentWorker.kt:45-68 | unread and within budget, a wake-up makes the read query and then the urgent call; without a fault it succeeds and enqueues exactly one request for the same chain, at `attemptIndex + 1` after a successful notify and at the same `attemptIndex` after a failed one, delayed `initialDelay * 2^index` |
| `FeishuUrgentWorker.RearmKeepsChain` | app/src/main/java/com/idormy/sms/forwarder/workers/FeishuUrgentWorker.kt:53-66 | the re-enqueued request has the same app, user, message, budget and base delay, with only the attempt index advanced on a successful notify; it is tagged by the message, its delay is the backoff for its index, and it stays within the budget when the chain was |
| `FeishuUrgentWorker.DoWork` | app/src/main/java/com/idormy/sms/forwarder/workers/FeishuUrgentWorker.kt:20-73 | the worker's result and calls are those of `Run`, and the queue gains exactly the request `Run` enqueues, if any |

## Left out

- HTTP transport, the per-application bearer-token lookup, the transport-level retry settings, logging and coroutine dispatch are not modelled. Each call's reply is a `Response` parameter.
- JSON parsing and the accessors' number/string conversions are not modelled. A body is given as the values the accessors return (`Body`), or as the single `Unparseable` response when they throw.
- WorkManager persistence, threading and the host's own retry policy are not modelled. A `WorkRetry` verdict is where the model stops.
- `UUID.randomUUID()` is not modelled: `sendUrgentSms` ignores its `uuid` argument.
- Decide: the delay is the mathematical product `initialDelay * 2^nextAttemptIndex`. Kotlin's 64-bit `1L shl n` and `Long` multiply wrap once the result leaves the `Long` range (for `nextAttemptIndex >= 63`, or for a large base delay), and the model does not reproduce that.
- Decide: requires `attemptIndex >= 0`. A negative index can only come from an outside caller of `schedule`, and Kotlin would shift by it modulo 64, which the model does not reproduce. `Run`, `DoWork` and the lemmas about them carry the same requirement.
- ChainNotificationsBounded: counts fault-free wake-ups only. If an exception is raised after a successful notify (for example by `enqueue`), the host retries with the same work data and may notify again without the budget counting it.
- Integer widths of `maxAttempts` and `attemptIndex` (Kotlin `Int`) and of the delays (`Long`) are not modelled. `attemptIndex + 1` cannot overflow when `attemptIndex < maxAttempts`.
