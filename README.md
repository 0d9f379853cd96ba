# rpush push delivery: Webpush and Mozilla

This project models the per-notification delivery engine of rpush's Webpush and Mozilla
daemons, and the helpers their client notification models provide. For one notification
the engine does the following:

- It sends one request per registration id, in order.
- It sorts each HTTP status into one of four groups:
  - success: 200 and 201;
  - whole-notification abort: 400 and 413, which raise a `DeliveryError` and stop the loop;
  - temporary: 429, 500 and 503, each with a retry time taken from the `retry-after`
    header, or `now + 2^(retries+1)` without one;
  - permanent: everything else.
- When the loop has seen every response, it either marks the notification delivered, or:
  - creates a split notification holding only the temporarily failed recipients,
    with one more retry and delivered at the latest retry time;
  - reflects every permanent failure;
  - raises an aggregate `DeliveryError` whose text describes the failures.
- The `perform` wrapper maps exceptions to `mark_retryable` (ten seconds from now) or
  `mark_failed`, and tells the batch on every path that the notification was processed.

The two providers share one generic engine, parameterised by `Policy.Provider`. Most of
the differences between them live in module `Policy`:

- Webpush knows 404 and 410 as permanent; Mozilla knows only 404.
- The invalid-endpoint codes are 404 and 410 for Webpush, 404 for Mozilla.
- Webpush's unknown-code message names the code; Mozilla's does not.
- The 400 messages differ.
- Webpush retries `SocketError` and `SystemCallError`; Mozilla retries only `SocketError`.

Three more branch on the provider outside `Policy`:

- The request shape, in `DeliveryEngine.RequestFor`, `Delivery.BuildRequest` and
  `Delivery.DoPost`. Webpush hands a message and a subscription to the webpush library;
  Mozilla builds its own POST.
- The endpoint list, in `Accounting.Endpoints`. It is taken from the subscriptions for
  Webpush and from the registration ids for Mozilla.
- Mozilla's `NameError`, in `DeliveryEngine.FailureHandling` and `Delivery.HandleFailures`.

Three behaviours of the code are reproduced as written:

- The aggregate `DeliveryError` raised by `handle_results` is caught by `perform`'s own
  `rescue StandardError`. A partly failed notification is therefore marked failed, even
  when a split was created.
- `description` puts the temporary block and the permanent block together with no
  separator. The last temporary line and the permanent count line then share a line
  (`Accounting.DescriptionJunction`).
- Mozilla's `handle_failures` logs through the name `failure`, which is not defined there
  (lib/rpush/daemon/mozilla/delivery.rb:169). With a temporary failure, the split is
  created, then a `NameError` is raised before the log line. The permanent failures are
  not reflected, the aggregate error is not reached, and `perform` marks the notification
  failed. This assumes the base class `Rpush::Daemon::Delivery` defines no `failure`
  method; that class is not part of this model.

Modules and files:

- `wrappers.dfy`: `Option`, `Array#map` and `Array#compact`.
- `text.dfy`:
  - `Integer#to_s`;
  - `join`;
  - a `split` used to read the description back line by line;
  - `blank?`.
- `notifications.dfy`:
  - the notification record and `ttl`;
  - the Webpush helpers `subscriptions`, `endpoints` and `message`;
  - the Mozilla helpers `endpoints`, `each_endpoint` and `encrypt_payload`.
- `policy.dfy`: the provider differences and the flat status table, `Classify`.
- `accounting.dfy`:
  - the classes `Failures` and `Results`, which change their lists in place;
  - the pure functions that specify them: `NewFailure`, `ApplyResponse`, `Describe` and
    `DescriptionOf`.
- `engine.dfy`:
  - the class `Delivery`, whose method `Perform` loops over the registration ids, plus
    `HandleResults`, `HandleSuccesses`, `HandleFailures`, `ReflectPermanent` and `DoPost`;
  - the specification functions: `DispatchFrom` for the loop, `Conclude` for what follows
    it, and `PerformSpec`.
- `properties.dfy`: `perform` stated against reference lists that look at each response
  on its own.
- `outcomes.dfy`:
  - every path marks the notification exactly once and signals the batch exactly once,
    last;
  - how permanent failures are reflected;
  - the split of an all-temporary attempt.

The model's inputs and outputs:

- The transport is a list of responses, one per registration id. Each is either a status
  with the already parsed `retry-after` time, or an exception raised while sending.
- Time is the integer `now`.
- `Perform` returns an `Outcome` (`Delivered` or `Raised(e)`) and the list of effects it
  caused, in order:
  - the requests sent;
  - the reflected events;
  - the store's `create_*_notification` call;
  - the log lines;
  - the `mark_*` calls;
  - the batch signal.

## Model

| member | source | states |
|---|---|---|
| Notifications.RetriesOrZero | lib/rpush/daemon/webpush/delivery.rb:73 | the retry count, or 0 when there is none (also at line 217) |
| Wrappers.Map | lib/rpush/client/active_model/webpush/notification.rb:31 | `map`: `f` applied to each element, same length and order; every endpoint list and the retry times are built with it |
| Notifications.Ttl | lib/rpush/client/active_model/webpush/notification.rb:15-19 | `ttl` is the expiry when there is one, else 2419200 (four weeks); the Mozilla model's `ttl` at lib/rpush/client/active_model/mozilla/notification.rb:17-21 is identical |
| WebpushNotification.Subscriptions | lib/rpush/client/active_model/webpush/notification.rb:21-28 | one subscription per registration id, same order, endpoint and keys copied |
| WebpushNotification.Endpoints | lib/rpush/client/active_model/webpush/notification.rb:30-32 | same length as the registration ids, and the i-th endpoint is the i-th registration id's endpoint |
| WebpushNotification.Presence | lib/rpush/client/active_model/webpush/notification.rb:36-37 | a value is present exactly when its key exists and its text is not blank, and then it is that text |
| WebpushNotification.Message | lib/rpush/client/active_model/webpush/notification.rb:34-40 | no message exactly when there is no data; otherwise `"t\nm"` with both present, the one present, or `""` with neither |
| Wrappers.Compact | lib/rpush/client/active_model/webpush/notification.rb:38 | `compact` keeps exactly the non-nil values and never lengthens the list |
| Wrappers.CompactAppend | lib/rpush/daemon/webpush/delivery.rb:209-211 | `compact` distributes over concatenation, so it keeps the order of its input |
| MozillaNotification.Endpoints | lib/rpush/client/active_model/mozilla/notification.rb:29-31 | same length and order as the registration ids, one endpoint each |
| MozillaNotification.EncryptPayload | lib/rpush/client/active_model/mozilla/notification.rb:33-35 | there is never a payload |
| MozillaNotification.EachEndpoint | lib/rpush/client/active_model/mozilla/notification.rb:23-27 | yields once per registration id, in order: its endpoint with no payload |
| Policy.Classify | lib/rpush/daemon/webpush/delivery.rb:100-111 | success exactly for 200/201, abort exactly for 400/413, temporary exactly for 429/500/503; a temporary code carries its `TEMPORARY_ERRORS` message; a permanent code carries its `PERMANENT_ERRORS` message when it has one (always for an invalid-endpoint code), otherwise the provider's unknown-error message |
| Policy.TemporaryMessage | lib/rpush/daemon/webpush/delivery.rb:14-18 | `TEMPORARY_ERRORS`, the same in both providers; its messages reach the failures through `Classify` and `NewFailure` |
| Policy.PermanentMessage | lib/rpush/daemon/webpush/delivery.rb:10-13 | `PERMANENT_ERRORS`: 404 for both providers, 410 for Webpush only (lib/rpush/daemon/mozilla/delivery.rb:8-10); stated through `Classify` and `GoneDiffersByProvider` |
| Policy.UnknownErrorMessage | lib/rpush/daemon/mozilla/delivery.rb:46 | `'unknown error'` for Mozilla, `"unknown error: <code>"` for Webpush (lib/rpush/daemon/webpush/delivery.rb:49); stated through `Classify` and `UnknownErrorNamesCode` |
| Policy.IsInvalidEndpointCode | lib/rpush/daemon/webpush/delivery.rb:132 | `INVALID_ENDPOINT_ERRORS` for Webpush, `code == 404` for Mozilla (lib/rpush/daemon/mozilla/delivery.rb:175); stated through `PermanentReflection` and `GoneDiffersByProvider` |
| Policy.IsRetryable | lib/rpush/daemon/webpush/delivery.rb:153 | the exceptions of the retrying rescue clause, `SocketError` only for Mozilla (lib/rpush/daemon/mozilla/delivery.rb:129); stated through `RescueMarks` |
| Policy.GoneDiffersByProvider | lib/rpush/daemon/mozilla/delivery.rb:8-15 | 410 is "endpoint gone" and invalidates the endpoint for Webpush; for Mozilla it is "unknown error" and leaves the endpoint valid |
| Policy.UnknownErrorNamesCode | lib/rpush/daemon/webpush/delivery.rb:49 | Webpush's unknown-error message is `"unknown error: "` followed by digits that read back as the code |
| Accounting.DetermineRetryAfter | lib/rpush/daemon/webpush/delivery.rb:71-77 | the parsed header time when present; otherwise `now + 2^(retries+1)`, with nil retries as 0, so always a time at least two seconds away |
| Accounting.BackoffDoubles | lib/rpush/daemon/webpush/delivery.rb:73-74 | each additional retry doubles the fallback delay, and nil retries behave as zero |
| Accounting.NewFailure | lib/rpush/daemon/webpush/delivery.rb:38-52 | keeps endpoint and code; it has a retry time exactly when the code is temporary; its message is the one the status table gives |
| Accounting.ApplyResponse | lib/rpush/daemon/webpush/delivery.rb:100-111 | a success appends the endpoint and leaves the failures alone; 400/413 stop with a `DeliveryError` carrying the code and record nothing; a temporary or permanent code grows exactly that list by one |
| Accounting.Describe | lib/rpush/daemon/webpush/delivery.rb:62-69 | a block is empty exactly when there are no failures |
| Accounting.DescribeLines | lib/rpush/daemon/webpush/delivery.rb:62-69 | read line by line, a non-empty block is its count line and then one `"<endpoint> - <error>"` line per failure, in order |
| Accounting.DescriptionOf | lib/rpush/daemon/webpush/delivery.rb:54-58 | `description`: the temporary block followed directly by the permanent block; its line structure is stated by `DescribeLines` and `DescriptionJunction` |
| Accounting.DescriptionJunction | lib/rpush/daemon/webpush/delivery.rb:54-58 | with both kinds of failure, the description's lines are the temporary block, whose last line runs straight into the permanent count line, then the permanent lines |
| Accounting.Failures.constructor | lib/rpush/daemon/webpush/delivery.rb:20-24 | both lists start empty and no description is memoised |
| Accounting.Failures.All | lib/rpush/daemon/webpush/delivery.rb:26-28 | the temporary failures, then the permanent ones: the first part is `temporary` and the rest is `permanent` |
| Accounting.Failures.Any | lib/rpush/daemon/webpush/delivery.rb:30-32 | holds exactly when some failure is recorded |
| Accounting.Failures.AllFailed | lib/rpush/daemon/webpush/delivery.rb:34-36 | holds exactly when there are as many failures as registration ids |
| Accounting.Failures.Add | lib/rpush/daemon/webpush/delivery.rb:38-52 | a temporary code appends its failure to `temporary`, any other code to `permanent`; the other list is unchanged |
| Accounting.Failures.Description | lib/rpush/daemon/webpush/delivery.rb:54-58 | the first call computes the temporary block followed by the permanent block and memoises it; later calls return the memo |
| Accounting.Results.constructor | lib/rpush/daemon/webpush/delivery.rb:83-87 | no successes, fresh empty failures |
| Accounting.Results.HasFailures | lib/rpush/daemon/webpush/delivery.rb:89-91 | holds exactly when some failure list is non-empty |
| Accounting.Results.HandleResponse | lib/rpush/daemon/webpush/delivery.rb:100-111 | the new successes and failure lists are what `ApplyResponse` gives; an abort returns the `DeliveryError` and changes nothing |
| DeliveryEngine.MaxOf | lib/rpush/daemon/webpush/delivery.rb:209-211 | the maximum is in the list and no entry exceeds it |
| DeliveryEngine.DeliverAfterLatest | lib/rpush/daemon/webpush/delivery.rb:207-211 | the split's time is at least every retry time, is one of them when any exists, and is `now` plus ten minutes when none exists |
| DeliveryEngine.DeliverAfter | lib/rpush/daemon/webpush/delivery.rb:209-211 | `deliver_after`: the maximum of the present retry times, or ten minutes from now; stated by `DeliverAfterLatest` |
| DeliveryEngine.CreateNewNotification | lib/rpush/daemon/webpush/delivery.rb:207-227 | the attributes of the split; stated by `SplitContents`, `SelectAppend` (parent order) and `DeliverAfterLatest` |
| DeliveryEngine.SelectByEndpoint | lib/rpush/daemon/webpush/delivery.rb:219-221 | keeps exactly the registration ids whose endpoint is listed |
| DeliveryEngine.SplitContents | lib/rpush/daemon/webpush/delivery.rb:207-227 | the split copies app, collapse key, delay-while-idle and data, has `(retries or 0) + 1` retries, keeps exactly the registration ids whose endpoint failed temporarily, and is delivered at the latest retry time |
| DeliveryEngine.PostHeaders | lib/rpush/daemon/mozilla/delivery.rb:207-221 | TTL is always the ttl as text; with no payload the headers are TTL and `Content-Length: 0`, and with one they are the six headers, with the ciphertext length and the payload's key, encryption and encoding |
| DeliveryEngine.RequestFor | lib/rpush/daemon/webpush/delivery.rb:146-149 | the request for one registration id; stated by `RequestShape` and `RequestsInOrder` |
| DeliveryEngine.DispatchFrom | lib/rpush/daemon/webpush/delivery.rb:145-151 | the loop attempts every registration id when it finishes, and at least the current one when it is interrupted |
| DeliveryEngine.SuccessEffects | lib/rpush/daemon/webpush/delivery.rb:184-188 | one delivered event per successful endpoint, in order |
| DeliveryEngine.PermanentEffects | lib/rpush/daemon/webpush/delivery.rb:196-203 | the permanent-failure loop; stated by `PermanentReflection` and computed by `Delivery.ReflectPermanent` |
| DeliveryEngine.FailureHandling | lib/rpush/daemon/mozilla/delivery.rb:166-180 | `handle_failures` for both providers (lib/rpush/daemon/webpush/delivery.rb:190-204); stated by `FailureHandlingQuiet`, `ConcludeCreatesSplit`, `ConcludeNameError` and `ConcludeFailed`, computed by `Delivery.HandleFailures` |
| DeliveryEngine.HandleResultsSpec | lib/rpush/daemon/webpush/delivery.rb:171-182 | `handle_results`; stated by `ConcludeDelivered`, `ConcludeNameError` and `ConcludeFailed`, computed by `Delivery.HandleResults` |
| DeliveryEngine.RescueMark | lib/rpush/daemon/webpush/delivery.rb:153-158 | the mark of the two rescue clauses; stated by `RescueMarks` |
| DeliveryEngine.RescueMarks | lib/rpush/daemon/webpush/delivery.rb:153-158 | a socket error is retried ten seconds from now; a system call error is retried in the same way by Webpush and marked failed by Mozilla (lib/rpush/daemon/mozilla/delivery.rb:129-134); every other error is marked failed |
| DeliveryEngine.ConcludeAfter | lib/rpush/daemon/webpush/delivery.rb:152-161 | the conclusion is the body's effects, then the rescue mark when something was raised, then the batch signal |
| DeliveryEngine.Conclude | lib/rpush/daemon/webpush/delivery.rb:152-160 | what `perform` does after its loop; stated by `ConcludeAfter`, `ConcludeMarksOnce` and the `Conclude*` lemmas |
| DeliveryEngine.PerformSpec | lib/rpush/daemon/webpush/delivery.rb:141-161 | `perform` on values; stated by `PerformDeliveredIff`, `PerformInterrupted`, `PerformPartialFailure`, `PerformDelivered`, `PerformMarksOnce` and `AllTemporarySplit`, computed by `Delivery.Perform` |
| DeliveryEngine.Delivery.constructor | lib/rpush/daemon/webpush/delivery.rb:134-139 | keeps the provider and the notification |
| DeliveryEngine.Delivery.Perform | lib/rpush/daemon/webpush/delivery.rb:141-161 | outcome and effects are those of `PerformSpec` |
| DeliveryEngine.Delivery.DeliverEach | lib/rpush/daemon/webpush/delivery.rb:145-151 | the loop ends as `DispatchFrom` says: finished with the recorded results, or interrupted with the raised error, having sent exactly the requests of the attempted registration ids |
| DeliveryEngine.Delivery.Attempt | lib/rpush/daemon/webpush/delivery.rb:146-150 | one response moves the loop on by one with the new results, or interrupts it with its exception |
| DeliveryEngine.Delivery.BuildRequest | lib/rpush/daemon/webpush/delivery.rb:143-149 | the request of the i-th registration id, and its endpoint |
| DeliveryEngine.Delivery.HandleResults | lib/rpush/daemon/webpush/delivery.rb:171-182 | effects and raised error are those of `HandleResultsSpec` on the recorded results |
| DeliveryEngine.Delivery.HandleSuccesses | lib/rpush/daemon/webpush/delivery.rb:184-188 | effects are `SuccessEffects` of the successes |
| DeliveryEngine.Delivery.HandleFailures | lib/rpush/daemon/mozilla/delivery.rb:166-180 | effects and raised error are those of `FailureHandling`, which raises Mozilla's `NameError` right after creating the split |
| DeliveryEngine.Delivery.ReflectPermanent | lib/rpush/daemon/webpush/delivery.rb:196-203 | effects are `PermanentEffects` of the permanent failures |
| DeliveryEngine.Delivery.DoPost | lib/rpush/daemon/mozilla/delivery.rb:205-224 | the POST goes to the endpoint with `PostHeaders` and the ciphertext as the body, or no body without a payload |
| DeliveryProperties.ApplyCompleting | lib/rpush/daemon/webpush/delivery.rb:100-111 | a status other than 400/413 appends the recipient to exactly the list its reference group names |
| DeliveryProperties.DispatchStep | lib/rpush/daemon/webpush/delivery.rb:145-151 | a completing response is recorded and the loop moves on to the next registration id |
| DeliveryProperties.DispatchCompletes | lib/rpush/daemon/webpush/delivery.rb:145-151 | without an aborting response, the loop reaches the end with the reference successes, temporary and permanent lists |
| DeliveryProperties.DispatchAborts | lib/rpush/daemon/webpush/delivery.rb:104-107 | an exception, 400 or 413 stops the loop right there with its error |
| DeliveryProperties.RejectedStatus | lib/rpush/daemon/webpush/delivery.rb:104-107 | 400/413 stop with the `DeliveryError` carrying the status and the provider's message |
| DeliveryProperties.DispatchInterrupts | lib/rpush/daemon/webpush/delivery.rb:145-151 | at the first aborting response the loop stops with its error, having attempted exactly the registration ids up to it, so later ones are never sent |
| DeliveryProperties.AllSucceedLists | lib/rpush/daemon/webpush/delivery.rb:100-103 | with only successes, no failure is recorded and every endpoint is a success, in order |
| DeliveryProperties.FailureRecorded | lib/rpush/daemon/webpush/delivery.rb:108-110 | a completing status that is not a success leaves a failure behind |
| DeliveryProperties.AllTemporaryLists | lib/rpush/daemon/webpush/delivery.rb:44-47 | with only temporary statuses, one temporary failure per recipient in order, and nothing else |
| DeliveryProperties.RequestsInOrder | lib/rpush/daemon/webpush/delivery.rb:145-149 | the i-th request sent is the request of the i-th registration id |
| DeliveryProperties.RequestShape | lib/rpush/daemon/webpush/delivery.rb:146-149 | Webpush sends the message, the recipient's endpoint and keys, and the ttl; Mozilla sends a POST to the endpoint with TTL, `Content-Length: 0` and no body (lib/rpush/daemon/mozilla/delivery.rb:124-125) |
| DeliveryProperties.PerformCompletes | lib/rpush/daemon/webpush/delivery.rb:141-152 | without an aborting response, `perform` concludes on the reference results after sending every request |
| DeliveryProperties.PerformInterrupted | lib/rpush/daemon/webpush/delivery.rb:141-161 | at the first aborting response `perform` raises its error after sending the requests up to it, then marks by the rescue clause and signals the batch, and does nothing else |
| DeliveryProperties.AbortedStatusFails | lib/rpush/daemon/webpush/delivery.rb:156-158 | a 400/413 raises a `DeliveryError` with that status and the notification's id, and it is marked failed, never retryable |
| DeliveryProperties.ConcludeInterrupted | lib/rpush/daemon/webpush/delivery.rb:153-160 | an interrupted loop concludes with the sent requests, the rescue mark and the batch signal |
| DeliveryProperties.ConcludeDelivered | lib/rpush/daemon/webpush/delivery.rb:178-181 | without failures: the delivered events, `mark_delivered`, the log line naming every endpoint, then the batch signal |
| DeliveryProperties.ConcludeNameError | lib/rpush/daemon/mozilla/delivery.rb:166-170 | Mozilla with a temporary failure: the delivered events and the split, then `NameError`, marked failed, then the batch signal |
| DeliveryProperties.ConcludeFailed | lib/rpush/daemon/webpush/delivery.rb:171-177 | otherwise with failures: the delivered events, the split and its log line when some failure is temporary, the permanent reflections, then the aggregate `DeliveryError` with the description, marked failed, and the batch signal |
| DeliveryProperties.PerformDelivered | lib/rpush/daemon/webpush/delivery.rb:171-181 | when every status is 200/201: every request sent, one delivered event per endpoint in order, `mark_delivered`, the log line, the batch signal |
| DeliveryProperties.AllSucceedTally | lib/rpush/daemon/webpush/delivery.rb:100-103 | when every status is 200/201 the results list every endpoint, in order, and no failure |
| DeliveryProperties.PerformPartialFailure | lib/rpush/daemon/webpush/delivery.rb:171-204 | when no response aborts and some status is not a success, the effects and the raised error are exactly those of the Webpush path or of Mozilla's `NameError` path, and the notification is marked failed |
| DeliveryProperties.PerformDeliveredIff | lib/rpush/daemon/webpush/delivery.rb:141-182 | `perform` returns normally exactly when every status is 200 or 201 |
| DeliveryOutcomes.PermanentReflection | lib/rpush/daemon/webpush/delivery.rb:196-203 | only failed-to-recipient and invalid-endpoint events; every permanent failure gets the former; the latter exactly for failures with an invalid-endpoint code |
| DeliveryOutcomes.ConcludeMarksOnce | lib/rpush/daemon/webpush/delivery.rb:152-160 | however the loop ended, the conclusion marks once, as its outcome says, and signals the batch once, last |
| DeliveryOutcomes.DeliveredMarksOnce | lib/rpush/daemon/webpush/delivery.rb:178-181 | without failures the only mark is `mark_delivered` and the signal comes last |
| DeliveryOutcomes.NameErrorMarksOnce | lib/rpush/daemon/mozilla/delivery.rb:166-170 | Mozilla's `NameError` path marks failed once and signals last |
| DeliveryOutcomes.FailedMarksOnce | lib/rpush/daemon/webpush/delivery.rb:175-177 | the aggregate-error path marks failed once and signals last |
| DeliveryOutcomes.FailureHandlingQuiet | lib/rpush/daemon/webpush/delivery.rb:190-204 | `handle_failures` itself neither marks the notification nor signals the batch |
| DeliveryOutcomes.PerformMarksOnce | lib/rpush/daemon/webpush/delivery.rb:141-161 | every run of `perform` marks the notification exactly once and calls `notification_processed` exactly once, last: delivered on a normal return, otherwise the rescue clause's mark |
| DeliveryOutcomes.SelectAll | lib/rpush/daemon/webpush/delivery.rb:219-221 | selecting by a list holding every endpoint keeps every registration id, in order |
| DeliveryOutcomes.SelectAppend | lib/rpush/daemon/webpush/delivery.rb:219-221 | selection distributes over concatenation, so the split keeps the parent's order |
| DeliveryOutcomes.HeaderlessBackoff | lib/rpush/daemon/webpush/delivery.rb:71-77 | all-temporary without headers: every failure retries at `now + 2^(retries+1)` |
| DeliveryOutcomes.AllTemporaryResults | lib/rpush/daemon/webpush/delivery.rb:207-221 | all-temporary: one temporary failure per recipient and nothing else; the split keeps every registration id in order, with one more retry |
| DeliveryOutcomes.HeaderlessSplitTime | lib/rpush/daemon/webpush/delivery.rb:209-211 | all-temporary without headers: the split is delivered `2^(retries+1)` seconds from now |
| DeliveryOutcomes.TemporaryCompletes | lib/rpush/daemon/webpush/delivery.rb:108-110 | a temporary status never stops the loop |
| DeliveryOutcomes.ConcludeCreatesSplit | lib/rpush/daemon/webpush/delivery.rb:190-193 | with a temporary failure the split is created; Webpush then logs the retry count and raises the aggregate error, and Mozilla raises `NameError` |
| DeliveryOutcomes.AllTemporarySplit | lib/rpush/daemon/webpush/delivery.rb:171-227 | all-temporary `perform`: the split has every registration id and one more retry, and is delivered `2^(retries+1)` seconds from now without headers; it is created; the error raised is that of the provider |

## Left out

- `Webpush::Request` (lib/rpush/daemon/webpush/delivery.rb:122-128): the webpush library's payload encryption and VAPID signing. The model records what the library is asked to send, and the transport's answer is an input.
- `RetryHeaderParser`: it is not part of this model. Each response carries the already parsed `retry-after` time, or none.
- `Time.now`, `10.seconds` and `10.minutes`: one integer `now` in seconds is used for the whole call. The source reads the clock anew at each use.
- `Net::HTTP`, `URI.parse` and the `@http` connection: the transport is the given list of responses or exceptions. An exception therefore happens at the request it interrupts.
- `Rpush::Daemon.store`, `reflect`, `log_info` and `mark_*`: these are external, so they are recorded as effects. `LogRetried` keeps the retry count but not the new notification's id, which the store assigns.
- `Delivery.Perform` and `DeliveryOutcomes.PerformMarksOnce`: the store, `reflect`, `log_info` and `mark_*` collaborators, and the `subscriptions` and `@app.vapid` evaluated before the first request, are modelled as effects that never raise. In the source these calls run inside `perform`'s `begin` (lib/rpush/daemon/webpush/delivery.rb:141-161, and the same in the Mozilla delivery), so a `StandardError` from one of them reaches the `rescue StandardError` clause. It would then mark the notification failed, and after `mark_delivered` it would mark it a second time. "Exactly one mark" is proved only for collaborators that do not raise.
- `@batch.notification_processed`: the batch counter is shared concurrent state, so only its call, once per `perform`, is recorded.
- The ActiveModel validators (lib/rpush/client/active_model/webpush/notification.rb:9-11, lib/rpush/client/active_model/mozilla/notification.rb:9-13): their classes are not part of this model.
- lib/rpush/client/active_model/webpush/app.rb: `vapid` is passed to the webpush library, which is not modelled.
- Base class `Rpush::Daemon::Delivery`: it is not part of this model. It is assumed to define no `failure` method, so line 169 of the Mozilla delivery raises `NameError`.
- Exceptions outside `StandardError`: these escape both rescue clauses and are not modelled. The exceptions modelled are the socket error, the system call error, `DeliveryError`, `NameError` and one stand-in for any other `StandardError`.
- Hash order: headers are a `map`, so the order of `headers.update` does not show.
- `Notification.data` and `WebpushNotification.Subscriptions`: `data` is a map from strings to strings, so a title or message that is not a string is not modelled. The source accepts any value and renders it with `to_s` in the join. The subscription keys are copied as they are: `symbolize_keys` (lib/rpush/client/active_model/webpush/notification.rb:25) is not represented.
- Memoisation of `subscriptions`: the list is recomputed where it is used. It is a pure function of the registration ids.
- `Delivery.BuildRequest`: computes `ttl`, `message` and the subscriptions inside the loop, not once before it. Both give the same values.
- `MozillaNotification.EachEndpoint`: hands the registration id's keys to `encrypt_payload`, where the source passes `device[:key]`. `encrypt_payload` ignores its argument, so the payload is nil either way.
- `Policy.UnknownErrorMessage`: renders the integer code, where the source interpolates the raw status string. The two differ only for a status text that `to_i` does not read back exactly.
- `Text.IsBlank`: counts only ASCII whitespace as blank, where ActiveSupport also counts Unicode whitespace.
- `Accounting.DescribeLines` and `Accounting.DescriptionJunction`: read the description line by line only when no endpoint or error message contains a newline.
