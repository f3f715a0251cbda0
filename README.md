# proxy-server job lifecycle, modelled in Dafny

proxy-server is a rate-limited forwarding proxy. An HTTP request arriving at
the gateway is not forwarded at once. It becomes a job in a Bull queue
backed by Redis, and the client gets back a job id straight away. A worker
takes jobs from the queue one at a time. Before a job's first outbound
attempt it waits until at least `minTime` milliseconds (500) have passed
since the previous job's first attempt started. Then it forwards the
request to the target server. The retry loop is meant to retry transport
failures and 5xx answers with exponential backoff; as written it never
retries (see "## Findings"), and the model follows the intended retry. The
worker stores the response,
or an error record, under `job:result:<id>` in Redis for an hour. The
client polls `/status/:id`, fetches the replayed response from
`/result/:id`, or cancels a job that has not started yet. A periodic sweep
removes finished jobs and old results.

This project models that core, one module per source file:

| module | file | source |
|---|---|---|
| `HttpClient` | `http_client.dfy` | `src/services/http-client.service.ts` |
| `RedisQueue` | `redis_queue.dfy` | `src/services/queue/redis-queue.service.ts` |
| `RateLimiter` | `rate_limiter.dfy` | `src/services/rate-limiter.service.ts` |
| `Controller` | `proxy_controller.dfy` | `src/controllers/proxy.controller.ts` |
| `ErrorMiddleware` | `error_middleware.dfy` | `src/middlewares/error.middleware.ts` |
| `RedisConfig` | `redis_config.dfy` | `src/config/redis.ts` |
| `QueueTypes` | `queue_types.dfy` | `src/services/queue/queue.types.ts` |
| `Config` | `config.dfy` | `src/config/index.ts` (defaults only) |
| `Common`, `Time` | `common.dfy`, `time.dfy` | JavaScript values and errors, strings, the clock |

Code that updates state in place is modelled as a class:
- `RedisQueue.RedisQueueService` holds Bull's five job lists, the job records and the Redis key space with remaining TTLs.
- `RateLimiter.RateLimiterService` holds `lastRequestTime` and the started/stopped flags.
- `RedisConfig.RedisHandles` holds the module-level client and queue variables.
- `Time.Clock` is `Date.now()`.

Loops become methods with loop invariants:
- the retry loop, `ExecuteWithRetry`;
- the header copies, `CopyForwarded`, `ExtractHeaders` and `CopyResultHeaders`;
- the result sweep, `CleanupOldResults`.

Everything else is a function.

The model takes a few things from the outside world as parameters:
- The outcome of each attempt of the outbound call is `Upstream.call(i)`, and UTF-8 decoding and `JSON.parse` of a response body are abstract functions.
- The time the outbound attempts themselves take is a `wireTime` argument. The backoff sleeps between attempts follow from the outcomes.
- A failing Redis or Bull call is an explicit fault parameter on the operation that would see it. Its error path is modelled the way the source's `catch` handles it.
- Fresh job ids and the current time are arguments.

The central invariant is `RedisQueueService.Valid`. It says that every recorded job sits in exactly one of the five lists, and that every listed id has a record. Every state-changing queue operation keeps it, and the proofs go through the partition lemmas.

Some facts about the code shape the model:
- `isRetryableError` retries every error that has no response, not only connection errors, and the model does the same.
- `JobStatus` declares a `timeout` status, but no code path reports it: `MapBullStateToJobStatus` never yields `Timeout`.
- `lastRequestTime` is one unsynchronised field. The model has one worker (`maxConcurrent` is 1) and proves the spacing for sequential dispatch.
- Four comparisons or calls in the code do not do what their surroundings evidently intend. The model logs each in "## Findings" and otherwise uses the intended behaviour:
  - the retry loop never retries;
  - the result sweep deletes young results instead of old ones;
  - `cleanupOldJobs` ages finished jobs by its 5-second grace instead of by `olderThanMs`;
  - a binary result is replayed as the JSON form of a Node Buffer.

## Model

| member | source | states |
|---|---|---|
| `HttpClient.MarkerNotExcluded` | src/services/http-client.service.ts:33-42 | `X-Proxied-By` is not on the excluded list in any letter case, so the marker is always sent |
| `HttpClient.CopyForwarded` | src/services/http-client.service.ts:139-149 | the loop keeps exactly the incoming fields whose lower-cased name is not excluded, each under its own spelling, with a list value joined by ", " |
| `HttpClient.PrepareHeaders` | src/services/http-client.service.ts:132-155 | no headers give an empty map; otherwise the result holds exactly the forwardable fields plus `X-Proxied-By: proxy-queue-server`, which overrides an incoming field of that spelling; no excluded name is ever sent |
| `HttpClient.IsRetryableError` | src/services/http-client.service.ts:180-195 | a 4xx response is never retried; an error without a response or with status >= 500 always is; below 400 only the codes ECONNABORTED, ENOTFOUND, ECONNREFUSED, ECONNRESET are |
| `HttpClient.CalculateRetryDelay` | src/services/http-client.service.ts:197-200 | every backoff delay lies between 1 s and 10 s |
| `HttpClient.RetryDelayMonotone` | src/services/http-client.service.ts:197-200 | a later attempt never waits less than an earlier one |
| `HttpClient.RetryDelaySchedule` | src/services/http-client.service.ts:197-200 | the delays before attempts 2, 3, 4, 5 are 1000, 2000, 4000, 8000 ms, and every later one is capped at 10000 ms |
| `HttpClient.RetryFromFacts` | src/services/http-client.service.ts:157-178 | the retry loop stops within the cap; it sleeps the backoff schedule between attempts; every attempt but the last threw a retryable error below the cap; it ends with the last attempt's response, or with its error when that error is not retryable or the cap is reached |
| `HttpClient.RetryPolicy` | src/services/http-client.service.ts:157-178 | from the first attempt: 1 to `cap` attempts and one delay fewer; a first response or a non-retryable first error ends at once with no sleep; a failed run fails with its last attempt's own error |
| `HttpClient.BackoffTime` | src/services/http-client.service.ts:168-174 | the backoff sleeps of a forwarded call add up to between 1 s and 10 s per retry made |
| `HttpClient.ExecuteWithRetry` | src/services/http-client.service.ts:157-178 | the imperative loop produces exactly the run `RetryFrom` defines: the same outcome, attempt count and delays |
| `HttpClient.ExecuteWithRetryAsWritten` | src/services/http-client.service.ts:157-178 | as written, there is always exactly one attempt: a first attempt that responds returns its response, and any failure of it rejects with the TypeError raised by reading `config.target.retries`, not with the call's error |
| `HttpClient.AsWrittenRetryDiscardsRetries` | src/services/http-client.service.ts:164-166 | for a connection reset on every attempt, the code as written rejects after one attempt with the TypeError; the intended policy makes 3 attempts, sleeps 1000 and 2000 ms and rejects with the reset |
| `HttpClient.DecodeBody` | src/services/http-client.service.ts:107-117 | a JSON content type gives the parsed text, or the raw bytes when parsing fails; otherwise a `text/` type gives the UTF-8 text; any other type keeps the raw bytes; JSON wins when both substrings occur |
| `HttpClient.DecodeResponse` | src/services/http-client.service.ts:107-119 | decoding keeps the status, status text and headers; the body is `DecodeBody` of the bytes under the response's own content type, and a raw body is exactly the bytes received |
| `HttpClient.FormatError` | src/services/http-client.service.ts:206-224 | an error with a response becomes "Target server error: <status> <statusText>" carrying the status and response; one with only a request becomes "Network error: <message>" with its code or NETWORK_ERROR; any other is rethrown unchanged |
| `HttpClient.ProxyRequest` | src/services/http-client.service.ts:86-130 | resolves with the retried call's response, its body decoded, or rejects with the last error formatted; the headers sent are the prepared ones |
| `HttpClient.ClientErrorSurfacesOnce` | src/services/http-client.service.ts:182-184 | a 4xx error on the first attempt is not retried, and the caller sees its status on the formatted error |
| `HttpClient.PersistentNetworkFailure` | src/services/http-client.service.ts:157-178 | a network error on every attempt uses all 3 attempts and surfaces as "Network error: <message>" |
| `RedisQueue.MapBullStateToJobStatus` | src/services/queue/redis-queue.service.ts:241-255 | waiting and delayed map to pending; active, completed and failed map to processing, completed and failed, each in both directions; anything unrecognised is pending; no state maps to timeout |
| `RedisQueue.StatusOfEveryState` | src/services/queue/redis-queue.service.ts:241-255 | over Bull's states, pending means waiting, delayed or stuck, and each other status means exactly its one state |
| `RedisQueue.ParseJobError` | src/services/queue/redis-queue.service.ts:257-266 | a failure reason that parses is returned as parsed; otherwise it becomes the message, with code UNKNOWN_ERROR and no status or stack |
| `RedisQueue.ResultKey` | src/services/queue/redis-queue.service.ts:38 | a result key is `job:result:` followed by the id, and matches the sweep's `job:result:*` pattern |
| `RedisQueue.ResultKeyInjective` | src/services/queue/redis-queue.service.ts:111 | two jobs never share a result key |
| `RedisQueue.StaleAsWritten` | src/services/queue/redis-queue.service.ts:232 | as written, a key without expiry is deleted, and an expiring one is deleted exactly when the result is younger than `olderThanMs` |
| `RedisQueue.Stale` | src/services/queue/redis-queue.service.ts:226-239 | as intended, a key without expiry is deleted, and an expiring one is deleted exactly when the result is older than `olderThanMs` |
| `RedisQueue.SweepAsWrittenDeletesFreshResults` | src/services/queue/redis-queue.service.ts:232 | with the sweep's 5-minute age bound, the comparison as written deletes a result stored 10 s ago and keeps one about to expire; the intended one does the opposite |
| `RedisQueue.FreshResultNotStale` | src/services/queue/redis-queue.service.ts:130-142 | a result just stored, with its full hour of TTL, survives every sweep |
| `RedisQueue.Reparsed` | src/services/queue/redis-queue.service.ts:123 | a result after `JSON.parse(JSON.stringify(...))` keeps its status, headers and duration; a JSON or text body is unchanged, and a raw body becomes the Buffer's object `{type: "Buffer", data: [bytes]}` |
| `RedisQueue.TextResultSurvivesStorage` | src/services/queue/redis-queue.service.ts:130-142 | a result with a JSON or text body reads back exactly as it was saved |
| `RedisQueue.BinaryResultReadBackAsJson` | src/services/queue/redis-queue.service.ts:123 | a result with a raw body does not read back as saved: its body comes back as the Buffer's JSON object |
| `RedisQueue.Revived` | src/controllers/proxy.controller.ts:181 | a read-back result whose body is a serialized Buffer gets that Buffer's bytes back as a raw body; status, headers and duration are kept |
| `RedisQueue.RevivedRoundTrip` | src/controllers/proxy.controller.ts:181 | reviving undoes the storage round trip for every result, bytes included, except one whose body is a JSON document shaped like a serialized Buffer |
| `RedisQueue.ExpiredAt` | src/services/queue/redis-queue.service.ts:197-208 | a job is expired iff it is recorded and stopped before the cutoff |
| `RedisQueue.CleanCutoffAsWritten` | src/services/queue/redis-queue.service.ts:193-208 | as written, `clean(grace, status, olderThanMs)` takes a finished job iff it stopped more than 5 s ago, whatever `olderThanMs` is |
| `RedisQueue.CleanCutoff` | src/services/queue/redis-queue.service.ts:193-208 | as intended, a finished job is taken iff it stopped more than `olderThanMs` + 5 s ago |
| `RedisQueue.CleanAsWrittenTakesRecentJobs` | src/services/queue/redis-queue.service.ts:197-208 | with the 5-minute retention, a job that finished 10 s before the sweep is taken as written and kept as intended |
| `RedisQueue.CleanCutoffKeepsRetention` | src/services/queue/redis-queue.service.ts:193-208 | with the intended cutoff a job goes exactly when it has been finished longer than the retention plus the grace, and every such job also goes as written |
| `RedisQueue.ListedOnce` | src/services/queue/redis-queue.service.ts:144-166 | under the queue invariant an id is recorded iff it is in one of the five lists, and then in exactly one, exactly once |
| `RedisQueue.AddKeepsPartition` | src/services/queue/redis-queue.service.ts:59-67 | appending a new id to the waiting list keeps every recorded job in exactly one list |
| `RedisQueue.RemoveKeepsPartition` | src/services/queue/redis-queue.service.ts:155-158 | removing a waiting or delayed job and its record keeps the partition |
| `RedisQueue.TakeKeepsPartition` | src/services/rate-limiter.service.ts:53-55 | moving the head of the waiting list to active keeps the partition |
| `RedisQueue.ActiveToCompleted` | src/services/rate-limiter.service.ts:53-55 | moving an active job to completed keeps the partition |
| `RedisQueue.ActiveToFailed` | src/services/rate-limiter.service.ts:53-55 | moving an active job to failed keeps the partition |
| `RedisQueue.ActiveToDelayed` | src/config/redis.ts:43-47 | moving an active job to delayed, for a retry, keeps the partition |
| `RedisQueue.CleanKeepsPartition` | src/services/queue/redis-queue.service.ts:197-208 | removing the expired ids from the completed and failed lists, together with their records, keeps the partition and never lengthens a list |
| `RedisQueue.RedisQueueService.constructor` | src/services/queue/redis-queue.service.ts:36-39 | a new queue is empty on every list, record and key, and satisfies the invariant |
| `RedisQueue.RedisQueueService.GetQueueStats` | src/services/queue/redis-queue.service.ts:168-189 | the five counts are the list lengths, so waiting + active + delayed is the number of unfinished jobs; a failure reports all zeros |
| `RedisQueue.RedisQueueService.QueueFull` | src/services/queue/redis-queue.service.ts:50-56 | the queue is full iff at least 1000 jobs are waiting, active or delayed; when the statistics fail, it counts as not full |
| `RedisQueue.RedisQueueService.AddJob` | src/services/queue/redis-queue.service.ts:46-79 | a full queue rejects with "Queue is full. Please try again later." and a Bull failure is rethrown, both leaving the queue unchanged; otherwise it resolves with the data's id (or a fresh one) and appends a new id to the waiting list with a fresh record; a known id is left as it is; the invariant is kept |
| `RedisQueue.RedisQueueService.CancelJob` | src/services/queue/redis-queue.service.ts:144-166 | cancels iff the job exists and is waiting or delayed, removing it from its list and its record; otherwise, or on a failure, nothing changes and the answer is false; the invariant is kept |
| `RedisQueue.RedisQueueService.GetJobResult` | src/services/queue/redis-queue.service.ts:109-128 | a stored result is returned as its JSON text parses back (`Reparsed`); a missing or empty key falls back to the job's return value, or nothing when there is no job; non-empty text that does not parse, or a failure, gives nothing |
| `RedisQueue.RedisQueueService.SaveJobResult` | src/services/queue/redis-queue.service.ts:130-142 | stores the result under its key with a TTL of 3600 s; `GetJobResult` then returns the result after its JSON round trip, which is the result itself unless its body is raw bytes; a failure is rethrown and leaves the store unchanged |
| `RedisQueue.RedisQueueService.GetJob` | src/services/queue/redis-queue.service.ts:81-107 | a job is found iff it is recorded and there is no failure; its view carries the record's data, attempts, creation, start and finish times, the status mapped from its Bull state, `GetJobResult` of the job, and an error iff a non-empty failure reason was recorded, namely `ParseJobError` of that reason |
| `RedisQueue.RedisQueueService.ReportedStatus` | src/services/queue/redis-queue.service.ts:89-95 | under the invariant the reported status is pending iff the job is waiting or delayed, processing iff active, completed iff completed, failed iff failed, never timeout |
| `RedisQueue.RedisQueueService.TakeNext` | src/services/rate-limiter.service.ts:53-55 | Bull's worker takes the head of the waiting list (FIFO), moves it to active and records its start time; an empty list changes nothing; the invariant is kept |
| `RedisQueue.RedisQueueService.MarkCompleted` | src/services/rate-limiter.service.ts:53-55 | a processor's result moves the job from active to completed and records the return value as it reads back after JSON, the finish time and one more attempt |
| `RedisQueue.RedisQueueService.MarkFailed` | src/services/rate-limiter.service.ts:53-55 | a processor's final failure moves the job from active to failed and records the reason, finish time and one more attempt |
| `RedisQueue.RedisQueueService.MarkRetry` | src/config/redis.ts:43-47 | a failure with attempts left moves the job from active to delayed and records the reason and one more attempt; the finish time stays as it was, since the job is not finished |
| `RedisQueue.RedisQueueService.CleanupOldResults` | src/services/queue/redis-queue.service.ts:226-239 | deletes exactly the result keys that are stale by the intended comparison, and leaves every other key and value untouched; a failing key listing leaves the store unchanged |
| `RedisQueue.RedisQueueService.CleanFinished` | src/services/queue/redis-queue.service.ts:197-208 | removes from the completed and failed lists, with their records, exactly the jobs that stopped before the cutoff (`ExpiredAt`); a finished job keeps its record iff it stopped at or after the cutoff; the count is the number of entries removed; the other records are unchanged |
| `RedisQueue.RedisQueueService.CleanupOldJobs` | src/services/queue/redis-queue.service.ts:191-224 | cleans the finished jobs older than `olderThanMs` plus the 5 s grace (`CleanCutoff`), then sweeps the results, and returns the number of jobs removed; a failure returns 0 and changes nothing; the invariant is kept |
| `RedisQueue.RedisQueueService.Elapse` | src/services/queue/redis-queue.service.ts:133-137 | time passing expires exactly the keys whose TTL runs out, and counts down the others without changing their values |
| `RateLimiter.RateLimitDelay` | src/services/rate-limiter.service.ts:122-134 | the wait is positive iff less than `minTime` has passed since the last start; after it, at least `minTime` has passed; a positive wait ends exactly `minTime` after the last start |
| `RateLimiter.StartTimesSpacing` | src/services/rate-limiter.service.ts:122-134 | over back-to-back dispatches, each job's first attempt starts `max(gap, minTime)` after the previous job's, where the gap is the time from that start to the next job's arrival at the limiter |
| `RateLimiter.StartsSpaced` | src/services/rate-limiter.service.ts:122-134 | any two rate-limited first attempts `j - i` jobs apart start at least `(j - i) * minTime` apart; retry attempts are not covered |
| `RateLimiter.RetriedJobLeavesNoWait` | src/services/rate-limiter.service.ts:122-134 | after a job whose call was retried, the next job's first attempt passes the limiter without waiting, because the backoff sleeps alone exceed `minTime`; it may start right after the last retry attempt |
| `RateLimiter.ToJobError` | src/services/rate-limiter.service.ts:106-111 | the stored error carries the thrown message (or "Unknown error"), its code (or PROXY_ERROR), the response status when there is one, and the stack |
| `RateLimiter.ErrorResult` | src/services/rate-limiter.service.ts:140-153 | an error is stored as a result with the error's status, or 500 when it has none or it is 0, no headers, body `{error: message}` and duration 0 |
| `RateLimiter.JobOutcome` | src/services/rate-limiter.service.ts:67-120 | a job succeeds iff forwarding succeeded and saving the result did; the result has the response's status, headers and data and the elapsed time; a failed forward reports its own error, a failed save the save's error |
| `RateLimiter.DownstreamErrorStored` | src/services/rate-limiter.service.ts:140-153 | an upstream error response is stored with the upstream status and the body `{error: "Target server error: <status> <statusText>"}` |
| `RateLimiter.NetworkErrorStored` | src/services/rate-limiter.service.ts:140-153 | a network failure is stored with status 500 and the message "Network error: <message>", with the code or NETWORK_ERROR and no status |
| `RateLimiter.ProcessingRate` | src/services/rate-limiter.service.ts:180 | the reported processing rate is `maxConcurrent / (minTime / 1000)` = 2 per second |
| `RateLimiter.WithResult` | src/services/queue/redis-queue.service.ts:130-142 | storing a result adds or replaces only its own key, with the full TTL; every other key is unchanged |
| `RateLimiter.RateLimiterService.constructor` | src/services/rate-limiter.service.ts:27-41 | a new limiter is stopped, has no registered processor or timer, and has `lastRequestTime` 0 |
| `RateLimiter.RateLimiterService.Start` | src/services/rate-limiter.service.ts:43-59 | starting marks the service as processing and registers one processor and one cleanup timer; starting again does nothing |
| `RateLimiter.RateLimiterService.Stop` | src/services/rate-limiter.service.ts:61-65 | stopping clears the flag, then closes the queue, or rejects with the close error |
| `RateLimiter.RateLimiterService.EnforceRateLimit` | src/services/rate-limiter.service.ts:122-134 | sleeps exactly `RateLimitDelay` and records the new start, which is at least `minTime` after the previous one |
| `RateLimiter.RateLimiterService.SaveJobError` | src/services/rate-limiter.service.ts:140-153 | stores the error's result under the job's key; a failing save is swallowed and leaves the store unchanged |
| `RateLimiter.RateLimiterService.Settle` | src/services/rate-limiter.service.ts:89-119 | the job's outcome is `JobOutcome`; a success is stored; a failure stores its error result unless that save fails too |
| `RateLimiter.RateLimiterService.ProcessJob` | src/services/rate-limiter.service.ts:67-120 | waits the rate-limit delay and records that moment as the last start; forwards with sanitised headers, which takes the backoff sleeps plus the wire time; the outcome is `JobOutcome` of the forwarded result with duration = delay + backoff + wire time, and the store holds the result or the error result |
| `RateLimiter.RateLimiterService.Report` | src/services/rate-limiter.service.ts:53-55 | Bull records a success as completed with its value; a failure goes to delayed while attempts remain (fewer than 3 made), otherwise to failed, with the error message as reason; `ReportedAs` gives the whole new state: the job leaves active and is appended to exactly that one list, the other lists are unchanged, and only its own record changes |
| `RateLimiter.RateLimiterService.Handle` | src/services/rate-limiter.service.ts:53-120 | processing an active job has the outcome, start and finish times `ProcessJob` states; it leaves the job completed with its result, as read back after JSON, in its record and through `getJobResult`, or failed or delayed with the error message recorded; the waiting list is untouched and both invariants are kept; `ReportedAs` gives every new list and record (other jobs unchanged), and `SavedAs` gives the new store: the result, or the error result that `saveJobError` writes unless that save fails too, and no other key changes |
| `RateLimiter.RateLimiterService.DispatchNext` | src/services/rate-limiter.service.ts:53-55 | Bull runs it only with a processor registered and the queue open; with no waiting job nothing at all changes; otherwise the oldest waiting job leaves waiting, the active list ends as it began, and the job's outcome, times, lists, record (started, then settled) and store are those `Handle` states through `ProcessedAs`, `ReportedAs` and `SavedAs` |
| `RateLimiter.RateLimiterService.CleanupTick` | src/services/rate-limiter.service.ts:155-168 | a tick of the timer `start` created: one sweep at the current time with the 5-minute age bound: exactly the finished jobs older than 5 min 5 s leave their list and their record, the count is the number removed, and the results are swept; a failure is swallowed with a count of 0 and nothing changed |
| `RateLimiter.RateLimiterService.GetMetrics` | src/services/rate-limiter.service.ts:170-183 | metrics are the queue statistics, processing rate 2.0 and average response time 0 |
| `Controller.ExtractHeaders` | src/controllers/proxy.controller.ts:240-258 | the job keeps exactly the defined inbound fields other than host, connection, upgrade and content-length (in any case), with values unchanged |
| `Controller.UserAgent` | src/controllers/proxy.controller.ts:50 | a user agent is reported only when the request carries a single `user-agent` value, and then it is that value |
| `Controller.JobData` | src/controllers/proxy.controller.ts:38-53 | the job data carries the new id, the time, method, path, extracted headers, body and query, and the client's ip, user agent and original URL |
| `Controller.EstimateWaitTime` | src/controllers/proxy.controller.ts:263-274 | the estimate is `(waiting + active) * 500` ms, and zero iff nothing is waiting or active |
| `Controller.EstimateMonotone` | src/controllers/proxy.controller.ts:263-274 | more waiting or active jobs never give a shorter estimate |
| `Controller.EnqueueFailure` | src/controllers/proxy.controller.ts:66-78 | an error whose message contains "Queue is full" becomes the 503 reply; any other is passed to the error middleware |
| `Controller.QueueFullIsUnavailable` | src/controllers/proxy.controller.ts:69-74 | the queue's own full error is answered with 503 |
| `Controller.StatusReply` | src/controllers/proxy.controller.ts:84-151 | no id gives 400, an unknown job 404; a completed job with a result shows the result and completion time; a failed job with an error shows the error, attempts and failure time; every other job shows its progress, with no queue position |
| `Controller.QueuePosition` | src/controllers/proxy.controller.ts:279-288 | the queue position is never known |
| `Controller.CopyResultHeaders` | src/controllers/proxy.controller.ts:171-178 | the replayed response carries exactly the stored fields other than content-encoding, content-length and transfer-encoding (in any case), unchanged |
| `Controller.ProxyController.constructor` | src/controllers/proxy.controller.ts:28 | the controller works on the queue service it is given |
| `Controller.ProxyController.WaitEstimate` | src/controllers/proxy.controller.ts:263-274 | the estimate uses the current waiting and active counts, or 0 when the statistics fail |
| `Controller.ProxyController.EnqueueRequest` | src/controllers/proxy.controller.ts:33-79 | a full queue answers 503 and any other failure is passed on, both leaving the queue unchanged; otherwise it answers 202 with the id, `/status/<id>` and the wait estimate, and the job waits last in line with the extracted headers |
| `Controller.ProxyController.GetJobStatus` | src/controllers/proxy.controller.ts:84-151 | the reply is `StatusReply` of the job the queue service reports, and 404 for an id it does not know |
| `Controller.ProxyController.StatusFollowsQueue` | src/controllers/proxy.controller.ts:84-151 | a completed job with a stored result shows that result, as read back after JSON, and its finish time; a waiting job shows pending with its creation time and attempts |
| `Controller.ProxyController.GetJobResult` | src/controllers/proxy.controller.ts:156-186 | no result gives 404; otherwise the stored status is replayed with the replayable headers, and the data with a serialized Buffer turned back into its bytes (`Revived`) |
| `Controller.ProxyController.SavedResultReplayed` | src/controllers/proxy.controller.ts:156-186 | a result the worker saved reads back as its JSON round trip and is replayed with the body the job produced, bytes included, unless that body is JSON shaped like a serialized Buffer |
| `Controller.ProxyController.CancelJob` | src/controllers/proxy.controller.ts:191-213 | answers 200 iff the job was waiting or delayed and has been removed; otherwise it answers 400 and the queue is unchanged |
| `Controller.ProxyController.GetQueueStats` | src/controllers/proxy.controller.ts:218-235 | answers 200 with the five list lengths (zeros on failure) and the configured limits 1000, 500 and 1 |
| `ErrorMiddleware.HandleError` | src/middlewares/error.middleware.ts:26-69 | the status is the error's, or 500; the body is unsuccessful and carries the request id; a validation error reads "Validation Error" with its details; a body parse failure reads "Invalid JSON"; otherwise the message or "Internal Server Error"; code and stack appear only in development |
| `ErrorMiddleware.ProductionHidesInternals` | src/middlewares/error.middleware.ts:54-63 | outside development no code or stack is sent, and details only for a validation error |
| `RedisConfig.ReconnectStrategy` | src/config/redis.ts:18-24 | reconnecting gives up with "Redis reconnection limit reached" iff more than 10 retries were made; otherwise it waits `retries * 100` ms, at most 1 s |
| `RedisConfig.ReconnectMonotone` | src/config/redis.ts:18-24 | the reconnect wait never shrinks as retries grow |
| `RedisConfig.RedisHandles.constructor` | src/config/redis.ts:5-9 | before initialisation there is no client or queue |
| `RedisConfig.RedisHandles.InitRedis` | src/config/redis.ts:11-70 | the client is created for `REDIS_URL` or `redis://localhost:6379` before connecting; the `request-queue` queue is created only when the connection succeeds, and a connection failure is rethrown |
| `RedisConfig.RedisHandles.GetRedisClient` | src/config/redis.ts:72-77 | returns the client iff it exists, otherwise throws "Redis client not initialized" |
| `RedisConfig.RedisHandles.GetRequestQueue` | src/config/redis.ts:79-84 | returns the queue iff it exists, otherwise throws "Request queue not initialized" |
| `RedisConfig.RedisHandles.CloseRedis` | src/config/redis.ts:86-93 | closes the queue if there is one, then quits the client if there is one; a failing close rejects before the client is touched |
| `Time.Clock.Sleep` | src/services/rate-limiter.service.ts:136-138 | sleeping advances the clock by exactly the delay, or not at all for a non-positive delay |

## Left out

- Logging (the `logger` calls throughout) has no effect on the modelled state and is left out.
- Express wiring, the routes, `app.ts`, `server.ts`, the request-id middleware and the health routes are not part of this model. The handlers take the request fields they read and return a `Reply`.
- Configuration is fixed at its documented defaults (`Config`). Reading and parsing environment variables is left out. `Config.JobTimeout` is declared, but Bull's per-job timeout is not modelled.
- Only one worker is modelled, so dispatch is sequential (`maxConcurrent` is 1). Concurrent workers, and interleaving with the gateway and the sweeper, are left out.
- `setInterval` and `setTimeout` are not modelled. `CleanupTick` is one firing of the cleanup timer, and `Time.Clock.Sleep` advances the clock by the delay.
- Bull's internals are abstracted as follows:
  - `queue.clean` is modelled by its age test: a finished job goes when its finish time (or its creation time, if it has none) is before the cutoff. Bull versions differ on which of the two timestamps they read; with the creation time a job is older still, so the finding on the cutoff holds either way.
  - The third argument of `queue.clean`, a limit on how many jobs one call removes, is not modelled: every job past the cutoff is removed.
  - The exponential backoff delay before a Bull retry is not modelled. A retried job is moved to the delayed list, and its later promotion back to waiting is not modelled.
  - A job that exhausts its timeout is not modelled.
- `JSON.stringify` followed by `JSON.parse` is modelled by `RedisQueue.Reparsed`: JSON and text bodies survive it, and raw bytes come back as the Buffer's JSON object. Other ways the round trip can change a value, such as dropped `undefined` fields, are left out. Stored text that does not parse is `Unparseable(text)`.
- `uuidv4()` is replaced by a fresh-id argument, and `Date.now()` by the clock or a time argument.
- Axios internals are abstract, including redirects, timeouts and `validateStatus`. Each attempt's outcome is `Upstream.call(i)`.
- `RateLimiter.ProcessingRate` is a real number, not a JavaScript float.
- `Controller.CopyResultHeaders` gives the fields `res.set` receives. Express's merging of names that differ only in case, and its charset handling, are left out.
- `Controller.UserAgent`: the header map allows a list value, which the model reports as absent. Node keeps a single `user-agent` value, so a real request never has that case.
- `Common.Lower` folds ASCII letters only, where `toLowerCase` folds every letter. The header names the code compares against are all ASCII.
- `RateLimiter.StartsSpaced` covers the first attempt of each job only. Retry attempts in `executeWithRetry` start after their backoff sleep without passing through `enforceRateLimit`, and `lastRequestTime` keeps the first attempt's start. `RateLimiter.RetriedJobLeavesNoWait` shows that the next job may then start right after a retry attempt.
- `RateLimiter.RateLimiterService.ProcessJob` takes the time of all attempts together as `wireTime`, so the start time of each retry attempt is not modelled.
- `RedisQueue.RedisQueueService.CleanupOldResults` does not model a `ttl` or `del` call failing part-way through the loop. Only a failing key listing is a fault.
- `RedisQueue.RedisQueueService.CleanupOldJobs`: the fault argument is a failure of the first `clean`, before anything changes. A failure of the second `clean` after the first one succeeded, which returns 0 with the completed jobs already removed, is not modelled.
- `RedisConfig.RedisHandles.InitRedis` does not model the client's event handlers, or the reconnect loop that drives `ReconnectStrategy`.
- `RateLimiter.RateLimiterService.Stop` does not stop the cleanup timer, matching the source, which never clears it.
- `isProcessing` is read only by `start`, to avoid registering twice. Whether Bull dispatches depends on a registered processor and an open queue, which `RateLimiter.RateLimiterService.DispatchNext` requires. Bull's draining of jobs already active when `close` is called is not modelled.

## Findings

| source | as written | input that shows it | evidently intended | confidence | as-written member | corrected member |
|---|---|---|---|---|---|---|
| src/services/http-client.service.ts:157-178 | the method's parameter `config: AxiosRequestConfig` shadows the imported configuration, so `config.target.retries` reads a property of `undefined` and throws a TypeError inside the `catch` | any first attempt that throws, e.g. ECONNRESET on every attempt: one attempt, and the caller gets the TypeError instead of the connection error | compare `attempt` with the configured `target.retries` (3) and retry with backoff 1000, 2000 ms | high, not executed | `HttpClient.ExecuteWithRetryAsWritten`, `HttpClient.AsWrittenRetryDiscardsRetries` | `HttpClient.ExecuteWithRetry`, `HttpClient.RetryFrom`, `HttpClient.RetryPolicy` |
| src/services/queue/redis-queue.service.ts:232 | `ttl > RESULT_TTL - olderThanMs / 1000` deletes a result whose remaining TTL is large, i.e. one stored recently | `olderThanMs` = 300000 and a result stored 10 s ago (TTL 3590) is deleted, while one with TTL 10 (stored 59 min ago) is kept | delete results older than `olderThanMs`: `ttl < RESULT_TTL - olderThanMs / 1000` | high, not executed | `RedisQueue.StaleAsWritten`, `RedisQueue.SweepAsWrittenDeletesFreshResults` | `RedisQueue.Stale`, `RedisQueue.FreshResultNotStale`, `RedisQueue.RedisQueueService.CleanupOldResults` |
| src/services/queue/redis-queue.service.ts:197-208 | `queue.clean(grace, 'completed', olderThanMs)` passes the 5 s grace as Bull's age bound and `olderThanMs` as its limit on how many jobs to remove | with `olderThanMs` = 300000, a job that finished 10 s before a sweep is removed, so its status and its fallback result are gone well before the 5-minute retention | remove finished jobs older than `olderThanMs` plus the 5 s grace | high, not executed | `RedisQueue.CleanCutoffAsWritten`, `RedisQueue.CleanAsWrittenTakesRecentJobs` | `RedisQueue.CleanCutoff`, `RedisQueue.CleanCutoffKeepsRetention`, `RedisQueue.RedisQueueService.CleanupOldJobs` |
| src/controllers/proxy.controller.ts:181 | `res.send(result.data)` sends what `JSON.parse(JSON.stringify(result))` gave back; for a body kept as bytes (neither JSON nor `text/`) that is the plain object `{type: "Buffer", data: [...]}`, which Express sends as JSON | an `image/png` response with bytes 137, 80 is replayed from `/result/:id` as the JSON text `{"type":"Buffer","data":[137,80]}` | replay the bytes the target server sent | medium, not executed | `RedisQueue.BinaryResultReadBackAsJson` | `RedisQueue.Revived`, `RedisQueue.RevivedRoundTrip`, `Controller.ProxyController.SavedResultReplayed` |
