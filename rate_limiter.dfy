/** The dispatcher: it spaces the starts of outbound calls at least `minTime`
    apart, forwards each job, stores what came back (or an error result) and
    reports the outcome to Bull. The clock and the queue service are objects
    it updates; the outside world of each call is an `Upstream`. */
module RateLimiter {
  import opened Common
  import opened QueueTypes
  import opened Time
  import HttpClient
  import RedisQueue
  import Config

  // ------------------------------------------------------------ spacing

  /** How long `enforceRateLimit` sleeps at time `now` when the last call
      started at `last`: the rest of the minimum interval, or nothing. */
  function RateLimitDelay(now: int, last: int, minTime: int): (delay: int)
    ensures delay >= 0
    ensures delay > 0 <==> now - last < minTime
    ensures now + delay >= last + minTime
    ensures delay > 0 ==> now + delay == last + minTime
  {
    var since := now - last;
    if since < minTime then minTime - since else 0
  }

  /** The start times of successive calls when the previous start was at
      `last`, the clock reads `now`, and `gaps[i]` milliseconds pass between
      one start and the next call's arrival at the limiter. */
  function StartTimes(last: int, now: int, minTime: int, gaps: seq<nat>): (starts: seq<int>)
    ensures |starts| == |gaps|
    decreases |gaps|
  {
    if gaps == [] then []
    else
      var arrival := now + gaps[0];
      var start := arrival + RateLimitDelay(arrival, last, minTime);
      [start] + StartTimes(start, start, minTime, gaps[1..])
  }

  /** Each start comes exactly `max(gap, minTime)` after the one before: the
      limiter keeps the interval and never waits longer than it needs to. */
  lemma {:induction false} StartTimesSpacing(last: int, minTime: int, gaps: seq<nat>)
    requires gaps != []
    ensures var starts := StartTimes(last, last, minTime, gaps);
      && starts[0] == last + Max(gaps[0], minTime)
      && forall i :: 0 < i < |starts| ==> starts[i] == starts[i - 1] + Max(gaps[i], minTime)
    decreases |gaps|
  {
    var starts := StartTimes(last, last, minTime, gaps);
    if |gaps| > 1 {
      StartTimesSpacing(starts[0], minTime, gaps[1..]);
      var rest := StartTimes(starts[0], starts[0], minTime, gaps[1..]);
      assert starts == [starts[0]] + rest;
      forall i | 0 < i < |starts|
        ensures starts[i] == starts[i - 1] + Max(gaps[i], minTime)
      {
        assert starts[i] == rest[i - 1];
        if i > 1 {
          assert starts[i - 1] == rest[i - 2];
        }
      }
    }
  }

  /** Any two first-attempt starts are at least `minTime` apart per job
      between them. */
  lemma {:induction false} StartsSpaced(last: int, minTime: int, gaps: seq<nat>, i: nat, j: nat)
    requires i < j < |gaps|
    ensures var starts := StartTimes(last, last, minTime, gaps);
      starts[j] - starts[i] >= (j - i) * minTime
    decreases j - i
  {
    StartTimesSpacing(last, minTime, gaps);
    var starts := StartTimes(last, last, minTime, gaps);
    if j > i + 1 {
      StartsSpaced(last, minTime, gaps, i, j - 1);
    }
    assert starts[j] >= starts[j - 1] + minTime;
  }

  /** The limiter sees only a job's first attempt: after a job whose call was
      retried, the next job is let through at once, however recently the
      retried attempt started, because the backoff sleeps alone outlast the
      interval. */
  lemma RetriedJobLeavesNoWait(start: int, up: HttpClient.Upstream, wireTime: nat)
    requires HttpClient.RetryFrom(up.call, Config.TargetRetries, 1).attempts > 1
    ensures RateLimitDelay(start + HttpClient.BackoffTime(up) + wireTime, start, Config.MinTime) == 0
  {
    assert HttpClient.BackoffTime(up) >= 1000;
  }

  // ------------------------------------------------------------ results

  /** The JobError built in the catch block of `processJob`. */
  function ToJobError(e: JsError): (err: JobError)
    ensures err.message == (if e.message != "" then e.message else "Unknown error")
    ensures err.code == Some(OrDefault(e.code, "PROXY_ERROR"))
    ensures err.status == (if e.response.Some? then Some(e.response.value.status) else None)
    ensures err.stack == e.stack
  {
    JobError(StrOr(e.message, "Unknown error"),
             Some(OrDefault(e.code, "PROXY_ERROR")),
             if e.response.Some? then Some(e.response.value.status) else None,
             e.stack)
  }

  /** The body of an error result: `{ error: message }`. */
  function ErrorBody(message: string): Body
  {
    JsonBody(JObject(map["error" := JString(message)]))
  }

  /** The result stored for a failed job: its status (500 when absent or 0),
      no headers, the message as body, zero duration. */
  function ErrorResult(err: JobError): (r: JobResult)
    ensures err.status.Some? && err.status.value != 0 ==> r.status == err.status.value
    ensures err.status.None? || err.status.value == 0 ==> r.status == 500
    ensures r.headers == map[] && r.data == ErrorBody(err.message) && r.duration == 0
  {
    JobResult(if err.status.Some? && err.status.value != 0 then err.status.value else 500,
              map[], ErrorBody(err.message), 0)
  }

  /** What `processJob` resolves or rejects with: the forwarded response as a
      JobResult when forwarding and saving both succeed; otherwise the error
      that interrupted it, as a JobError. */
  function JobOutcome(forwarded: Result<HttpClient.HttpResponse, JsError>, saveFault: Option<JsError>, duration: int)
    : (r: Result<JobResult, JobError>)
    ensures r.Ok? <==> forwarded.Ok? && saveFault.None?
    ensures r.Ok? ==> r.value == JobResult(forwarded.value.status, forwarded.value.headers, forwarded.value.data, duration)
    ensures forwarded.Err? ==> r == Err(ToJobError(forwarded.error))
    ensures forwarded.Ok? && saveFault.Some? ==> r == Err(ToJobError(saveFault.value))
  {
    match forwarded
    case Ok(resp) =>
      if saveFault.None? then Ok(JobResult(resp.status, resp.headers, resp.data, duration))
      else Err(ToJobError(saveFault.value))
    case Err(e) => Err(ToJobError(e))
  }

  /** A downstream error response ends up stored under its own status, with
      the formatted message as body. */
  lemma DownstreamErrorStored(e: JsError)
    requires e.response.Some? && e.response.value.status != 0
    ensures var stored := ErrorResult(ToJobError(HttpClient.FormatError(e)));
      && stored.status == e.response.value.status
      && stored.data == ErrorBody("Target server error: " + IntToString(e.response.value.status) + " " + e.response.value.statusText)
  {
    var f := HttpClient.FormatError(e);
    var msg := "Target server error: " + IntToString(e.response.value.status) + " " + e.response.value.statusText;
    assert |msg| > 0 by { assert msg[0] == 'T'; }
  }

  /** A network failure is stored with status 500 and, when the transport
      gave no code, reported with code NETWORK_ERROR. */
  lemma NetworkErrorStored(e: JsError)
    requires e.response.None? && e.request
    ensures var err := ToJobError(HttpClient.FormatError(e));
      && ErrorResult(err).status == 500
      && err.message == "Network error: " + e.message
      && err.code == Some(OrDefault(e.code, "NETWORK_ERROR"))
      && err.status.None?
  {
    var msg := "Network error: " + e.message;
    assert msg[0] == 'N';
    assert OrDefault(e.code, "NETWORK_ERROR") != "";
  }

  /** The outbound call rate at the default configuration: two per second. */
  function ProcessingRate(): (rate: real)
    ensures rate == 2.0
  {
    (Config.MaxConcurrent as real) / ((Config.MinTime as real) / 1000.0)
  }

  /** The store after `saveJobResult(jobId, result)` succeeded. */
  function WithResult(store: map<string, RedisQueue.Entry>, jobId: string, result: JobResult): (after: map<string, RedisQueue.Entry>)
    ensures after.Keys == store.Keys + {RedisQueue.ResultKey(jobId)}
    ensures after[RedisQueue.ResultKey(jobId)] == RedisQueue.Entry(RedisQueue.Serialized(result), RedisQueue.ResultTtl)
    ensures forall k :: k in store && k != RedisQueue.ResultKey(jobId) ==> after[k] == store[k]
  {
    store[RedisQueue.ResultKey(jobId) := RedisQueue.Entry(RedisQueue.Serialized(result), RedisQueue.ResultTtl)]
  }

  /** How one job went through `processJob` when the clock read `now` and
      the last call had started at `last`: its call started after the
      limiter's delay, at `started`; the backoff sleeps and `wireTime` later,
      at `finished`, it was settled with the forwarded outcome and a duration
      running from `now`. */
  ghost predicate ProcessedAs(r: Result<JobResult, JobError>, now: int, last: int, minTime: int,
                              started: int, finished: int, up: HttpClient.Upstream, wireTime: nat,
                              saveFault: Option<JsError>)
  {
    var delay := RateLimitDelay(now, last, minTime);
    && started == now + delay
    && finished == started + HttpClient.BackoffTime(up) + wireTime
    && r == JobOutcome(HttpClient.ProxyOutcome(up), saveFault, delay + HttpClient.BackoffTime(up) + wireTime)
  }

  /** The store after `processJob` settled with `r`: a success is stored
      under the job's key, and so is the error result of a failure unless
      saving that failed too; no other key changes. */
  ghost predicate SavedAs(r: Result<JobResult, JobError>, jobId: string, errorSaveFault: Option<JsError>,
                          before: map<string, RedisQueue.Entry>, after: map<string, RedisQueue.Entry>)
  {
    match r
    case Ok(value) => after == WithResult(before, jobId, value)
    case Err(e) => after == if errorSaveFault.None? then WithResult(before, jobId, ErrorResult(e)) else before
  }

  /** Bull's bookkeeping for the verdict `r` on the active job `id` at time
      `now`, from the lists and records before (unprimed) to those after
      (primed): the job leaves active and joins completed, delayed (while
      attempts remain) or failed; only its own record changes, and the other
      lists stay as they were. */
  ghost predicate ReportedAs(r: Result<JobResult, JobError>, id: string, now: int,
                             active: seq<string>, completed: seq<string>, failed: seq<string>, delayed: seq<string>,
                             jobs: map<string, RedisQueue.BullJob>,
                             active': seq<string>, completed': seq<string>, failed': seq<string>, delayed': seq<string>,
                             jobs': map<string, RedisQueue.BullJob>)
  {
    && id in jobs
    && active' == RedisQueue.Without(active, id)
    && match r
       case Ok(value) =>
         && completed' == completed + [id] && failed' == failed && delayed' == delayed
         && jobs' == jobs[id := RedisQueue.Succeeded(jobs[id], value, now)]
       case Err(e) =>
         if jobs[id].attemptsMade + 1 < Config.JobAttempts then
           && delayed' == delayed + [id] && completed' == completed && failed' == failed
           && jobs' == jobs[id := RedisQueue.Retried(jobs[id], e.message)]
         else
           && failed' == failed + [id] && completed' == completed && delayed' == delayed
           && jobs' == jobs[id := RedisQueue.FailedWith(jobs[id], e.message, now)]
  }

  datatype Metrics = Metrics(queueStats: QueueStats, processingRate: real, averageResponseTime: real)

  // ------------------------------------------------------------ the service

  class RateLimiterService {
    const clock: Clock
    const queueService: RedisQueue.RedisQueueService
    /** Minimum spacing of call starts, in milliseconds. */
    const minTime: int
    var isProcessing: bool
    /** When the last call started (0 before the first). */
    var lastRequestTime: int
    /** Processors registered with Bull, and cleanup timers started. */
    var processors: nat
    var schedulers: nat
    var queueClosed: bool

    /** The last call started no later than now. */
    ghost predicate Valid()
      reads this, clock
    {
      lastRequestTime <= clock.now
    }

    constructor (clock: Clock, queueService: RedisQueue.RedisQueueService)
      requires queueService.Valid() && clock.now >= 0
      ensures Valid() && queueService.Valid()
      ensures this.clock == clock && this.queueService == queueService && minTime == Config.MinTime
      ensures !isProcessing && lastRequestTime == 0 && processors == 0 && schedulers == 0 && !queueClosed
    {
      this.clock := clock;
      this.queueService := queueService;
      minTime := Config.MinTime;
      isProcessing := false;
      lastRequestTime := 0;
      processors := 0;
      schedulers := 0;
      queueClosed := false;
    }

    /** `start`: registers the processor and the cleanup timer once; a second
        start changes nothing. */
    method Start()
      modifies this`isProcessing, this`processors, this`schedulers
      ensures isProcessing
      ensures old(isProcessing) ==> processors == old(processors) && schedulers == old(schedulers)
      ensures !old(isProcessing) ==> processors == old(processors) + 1 && schedulers == old(schedulers) + 1
    {
      if isProcessing {
        return;
      }
      isProcessing := true;
      processors := processors + 1;
      schedulers := schedulers + 1;
    }

    /** `stop`: processing stops, then the queue is closed (which can fail). */
    method Stop(closeFault: Option<JsError>) returns (o: Outcome<JsError>)
      modifies this`isProcessing, this`queueClosed
      ensures !isProcessing
      ensures closeFault.None? ==> o == Pass && queueClosed
      ensures closeFault.Some? ==> o == Fail(closeFault.value) && queueClosed == old(queueClosed)
    {
      isProcessing := false;
      if closeFault.Some? {
        return Fail(closeFault.value);
      }
      queueClosed := true;
      return Pass;
    }

    /** `enforceRateLimit`: sleep out the rest of the interval, then record
        the start of this call. */
    method EnforceRateLimit()
      requires Valid()
      modifies this`lastRequestTime, clock
      ensures Valid()
      ensures clock.now == old(clock.now) + RateLimitDelay(old(clock.now), old(lastRequestTime), minTime)
      ensures lastRequestTime == clock.now
      ensures lastRequestTime >= old(lastRequestTime) + minTime
    {
      var now := clock.now;
      var since := now - lastRequestTime;
      if since < minTime {
        var delay := minTime - since;
        clock.Sleep(delay);
      }
      lastRequestTime := clock.now;
    }

    /** `saveJobError`: store the error result; a failure to store is logged
        and swallowed. */
    method SaveJobError(jobId: string, err: JobError, fault: Option<JsError>)
      modifies queueService`store
      ensures fault.None? ==> queueService.store == WithResult(old(queueService.store), jobId, ErrorResult(err))
      ensures fault.Some? ==> queueService.store == old(queueService.store)
    {
      var _ := queueService.SaveJobResult(jobId, ErrorResult(err), fault);
    }

    /** The part of `processJob` after the forwarded call returned or threw:
        save the result and resolve with it, or save an error result and
        reject. */
    method Settle(jobId: string, forwarded: Result<HttpClient.HttpResponse, JsError>, duration: int,
                  saveFault: Option<JsError>, errorSaveFault: Option<JsError>)
      returns (r: Result<JobResult, JobError>)
      modifies queueService`store
      ensures r == JobOutcome(forwarded, saveFault, duration)
      ensures SavedAs(r, jobId, errorSaveFault, old(queueService.store), queueService.store)
    {
      var failure: JsError;
      match forwarded {
        case Ok(resp) =>
          var jobResult := JobResult(resp.status, resp.headers, resp.data, duration);
          var saved := queueService.SaveJobResult(jobId, jobResult, saveFault);
          if saved.Pass? {
            return Ok(jobResult);
          }
          failure := saved.error;
        case Err(e) =>
          failure := e;
      }
      var jobError := ToJobError(failure);
      SaveJobError(jobId, jobError, errorSaveFault);
      return Err(jobError);
    }

    /** `processJob`: wait for the rate limit, forward the stored request,
        then settle. Forwarding takes the backoff sleeps between attempts
        plus `wireTime`, the time the attempts themselves take; the duration
        recorded runs from the job's start, wait included. */
    method ProcessJob(jobId: string, data: QueueJobData, up: HttpClient.Upstream, wireTime: nat,
                      saveFault: Option<JsError>, errorSaveFault: Option<JsError>)
      returns (r: Result<JobResult, JobError>, sent: map<string, string>)
      requires Valid()
      modifies this`lastRequestTime, clock, queueService`store
      ensures Valid()
      ensures ProcessedAs(r, old(clock.now), old(lastRequestTime), minTime, lastRequestTime, clock.now, up, wireTime, saveFault)
      ensures HttpClient.Sanitized(Some(data.request.headers), sent)
      ensures SavedAs(r, jobId, errorSaveFault, old(queueService.store), queueService.store)
    {
      var startTime := clock.now;
      ghost var delay := RateLimitDelay(clock.now, lastRequestTime, minTime);
      EnforceRateLimit();
      var request := HttpClient.ProxyRequestConfig(data.request.httpMethod, data.request.url,
                                                   Some(data.request.headers), data.request.body, data.request.query);
      var forwarded;
      forwarded, sent := HttpClient.ProxyRequest(request, up);
      clock.Sleep(HttpClient.BackoffTime(up));
      clock.Advance(wireTime);
      var duration := clock.now - startTime;
      assert duration == delay + HttpClient.BackoffTime(up) + wireTime;
      r := Settle(jobId, forwarded, duration, saveFault, errorSaveFault);
    }

    /** What Bull does with the processor's verdict: a resolved job is
        completed with its value; a rejected one is failed with the message,
        and parked in delayed for a retry while attempts remain. */
    method Report(id: string, outcome: Result<JobResult, JobError>, now: int)
      requires queueService.Valid() && id in queueService.active
      modifies queueService`active, queueService`completed, queueService`failed, queueService`delayed, queueService`jobs
      ensures queueService.Valid()
      ensures id in queueService.jobs && id in old(queueService.jobs)
      ensures outcome.Ok? ==>
        && id in queueService.completed
        && queueService.jobs[id] == RedisQueue.Succeeded(old(queueService.jobs)[id], outcome.value, now)
      ensures outcome.Err? && old(queueService.jobs)[id].attemptsMade + 1 < Config.JobAttempts ==>
        && id in queueService.delayed
        && queueService.jobs[id] == RedisQueue.Retried(old(queueService.jobs)[id], outcome.error.message)
      ensures outcome.Err? && old(queueService.jobs)[id].attemptsMade + 1 >= Config.JobAttempts ==>
        && id in queueService.failed
        && queueService.jobs[id] == RedisQueue.FailedWith(old(queueService.jobs)[id], outcome.error.message, now)
      ensures ReportedAs(outcome, id, now, old(queueService.active), old(queueService.completed), old(queueService.failed),
                         old(queueService.delayed), old(queueService.jobs), queueService.active, queueService.completed,
                         queueService.failed, queueService.delayed, queueService.jobs)
    {
      RedisQueue.ActiveIsKey(queueService.waiting, queueService.active, queueService.delayed,
                             queueService.completed, queueService.failed, queueService.jobs.Keys, id);
      match outcome {
        case Ok(result) =>
          queueService.MarkCompleted(id, result, now);
        case Err(err) =>
          if queueService.jobs[id].attemptsMade + 1 < Config.JobAttempts {
            queueService.MarkRetry(id, err.message);
          } else {
            queueService.MarkFailed(id, err.message, now);
          }
      }
    }

    /** Bull's processor callback for one job it has made active: process
        it, then report the verdict. */
    method Handle(id: string, up: HttpClient.Upstream, wireTime: nat, saveFault: Option<JsError>, errorSaveFault: Option<JsError>)
      returns (r: Result<JobResult, JobError>)
      requires Valid() && queueService.Valid() && id in queueService.active
      modifies this`lastRequestTime, clock, queueService`active, queueService`completed, queueService`failed,
               queueService`delayed, queueService`jobs, queueService`store
      ensures Valid() && queueService.Valid()
      ensures queueService.waiting == old(queueService.waiting) && id in queueService.jobs
      ensures ProcessedAs(r, old(clock.now), old(lastRequestTime), minTime, lastRequestTime, clock.now, up, wireTime, saveFault)
      ensures r.Ok? ==>
        && id in queueService.completed
        && queueService.jobs[id].returnvalue == Some(RedisQueue.Reparsed(r.value))
        && queueService.GetJobResult(id, false) == Some(RedisQueue.Reparsed(r.value))
      ensures r.Err? ==>
        && (id in queueService.failed || id in queueService.delayed)
        && queueService.jobs[id].failedReason == Some(r.error.message)
      ensures ReportedAs(r, id, clock.now, old(queueService.active), old(queueService.completed), old(queueService.failed),
                         old(queueService.delayed), old(queueService.jobs), queueService.active, queueService.completed,
                         queueService.failed, queueService.delayed, queueService.jobs)
      ensures SavedAs(r, id, errorSaveFault, old(queueService.store), queueService.store)
    {
      r := Process(id, up, wireTime, saveFault, errorSaveFault);
      ghost var stored, now, last := queueService.store, clock.now, lastRequestTime;
      Report(id, r, clock.now);
      assert queueService.store == stored && clock.now == now && lastRequestTime == last;
    }

    /** `processJob` on the data of an active job, as Bull's processor
        callback calls it: a successful job's result is then in the store. */
    method Process(id: string, up: HttpClient.Upstream, wireTime: nat, saveFault: Option<JsError>, errorSaveFault: Option<JsError>)
      returns (r: Result<JobResult, JobError>)
      requires Valid() && queueService.Valid() && id in queueService.active
      modifies this`lastRequestTime, clock, queueService`store
      ensures Valid() && id in queueService.jobs
      ensures ProcessedAs(r, old(clock.now), old(lastRequestTime), minTime, lastRequestTime, clock.now, up, wireTime, saveFault)
      ensures r.Ok? ==> RedisQueue.ResultKey(id) in queueService.store
                        && queueService.store[RedisQueue.ResultKey(id)].value == RedisQueue.Serialized(r.value)
      ensures SavedAs(r, id, errorSaveFault, old(queueService.store), queueService.store)
    {
      RedisQueue.ActiveIsKey(queueService.waiting, queueService.active, queueService.delayed,
                             queueService.completed, queueService.failed, queueService.jobs.Keys, id);
      var sent;
      r, sent := ProcessJob(id, queueService.jobs[id].data, up, wireTime, saveFault, errorSaveFault);
    }

    /** One turn of Bull's worker: take the oldest waiting job and handle it.
        Bull runs the processor `start` registered, and only until the queue
        is closed. */
    method DispatchNext(up: HttpClient.Upstream, wireTime: nat, saveFault: Option<JsError>, errorSaveFault: Option<JsError>)
      returns (handled: Option<string>, r: Option<Result<JobResult, JobError>>)
      requires Valid() && queueService.Valid()
      requires processors > 0 && !queueClosed
      modifies this`lastRequestTime, clock, queueService`waiting, queueService`active, queueService`completed,
               queueService`failed, queueService`delayed, queueService`jobs, queueService`store
      ensures Valid() && queueService.Valid()
      ensures old(queueService.waiting) == [] ==>
        && handled.None? && r.None? && clock.now == old(clock.now) && lastRequestTime == old(lastRequestTime)
        && queueService.waiting == old(queueService.waiting) && queueService.active == old(queueService.active)
        && queueService.completed == old(queueService.completed) && queueService.failed == old(queueService.failed)
        && queueService.delayed == old(queueService.delayed) && queueService.jobs == old(queueService.jobs)
        && queueService.store == old(queueService.store)
      ensures old(queueService.waiting) != [] ==>
        && handled == Some(old(queueService.waiting)[0]) && r.Some?
        && queueService.waiting == old(queueService.waiting)[1..]
        && handled.value in queueService.jobs && handled.value in old(queueService.jobs)
        && queueService.active == old(queueService.active)
      ensures old(queueService.waiting) != [] ==>
        ProcessedAs(r.value, old(clock.now), old(lastRequestTime), minTime, lastRequestTime, clock.now,
                    up, wireTime, saveFault)
      ensures old(queueService.waiting) != [] ==>
        ReportedAs(r.value, handled.value, clock.now, old(queueService.active) + [handled.value],
                   old(queueService.completed), old(queueService.failed), old(queueService.delayed),
                   old(queueService.jobs)[handled.value := RedisQueue.Started(old(queueService.jobs)[handled.value], old(clock.now))],
                   queueService.active, queueService.completed, queueService.failed, queueService.delayed,
                   queueService.jobs)
      ensures old(queueService.waiting) != [] ==>
        SavedAs(r.value, handled.value, errorSaveFault, old(queueService.store), queueService.store)
      ensures r.Some? && r.value.Ok? ==>
        && handled.value in queueService.completed
        && queueService.jobs[handled.value].returnvalue == Some(RedisQueue.Reparsed(r.value.value))
        && queueService.GetJobResult(handled.value, false) == Some(RedisQueue.Reparsed(r.value.value))
      ensures r.Some? && r.value.Err? ==>
        && (handled.value in queueService.failed || handled.value in queueService.delayed)
        && queueService.jobs[handled.value].failedReason == Some(r.value.error.message)
    {
      if queueService.waiting == [] {
        return None, None;
      }
      RedisQueue.ListedOnce(queueService.waiting, queueService.active, queueService.delayed, queueService.completed,
                            queueService.failed, queueService.jobs.Keys, queueService.waiting[0]);
      RedisQueue.WithoutAppended(queueService.active, queueService.waiting[0]);
      var next := queueService.TakeNext(clock.now);
      ghost var taken, completed, failed, delayed, stored := queueService.active, queueService.completed,
        queueService.failed, queueService.delayed, queueService.store;
      ghost var records := queueService.jobs;
      var outcome := Handle(next.value, up, wireTime, saveFault, errorSaveFault);
      assert ReportedAs(outcome, next.value, clock.now, taken, completed, failed, delayed, records, queueService.active,
                        queueService.completed, queueService.failed, queueService.delayed, queueService.jobs);
      assert SavedAs(outcome, next.value, errorSaveFault, stored, queueService.store);
      return next, Some(outcome);
    }

    /** One tick of the cleanup timer: sweep at the current time with the
        configured interval as the age bound; the sweep reports its own
        failures as zero. The timer exists once `start` has run. */
    method CleanupTick(fault: bool, keysFault: bool) returns (cleaned: nat)
      requires queueService.Valid() && schedulers > 0
      modifies queueService`completed, queueService`failed, queueService`jobs, queueService`store
      ensures queueService.Valid()
      ensures fault ==>
        && cleaned == 0 && queueService.store == old(queueService.store) && queueService.jobs == old(queueService.jobs)
        && queueService.completed == old(queueService.completed) && queueService.failed == old(queueService.failed)
      ensures !fault ==>
        var expired := RedisQueue.ExpiredAt(old(queueService.jobs), RedisQueue.CleanCutoff(clock.now, Config.CleanupInterval));
        && queueService.completed == RedisQueue.RemoveAll(old(queueService.completed), expired)
        && queueService.failed == RedisQueue.RemoveAll(old(queueService.failed), expired)
        && cleaned == (|old(queueService.completed)| - |queueService.completed|) + (|old(queueService.failed)| - |queueService.failed|)
        && queueService.jobs.Keys
             == old(queueService.jobs).Keys - RedisQueue.Cleaned(old(queueService.completed), old(queueService.failed), expired)
        && (forall id :: id in queueService.jobs ==> queueService.jobs[id] == old(queueService.jobs)[id])
        && (keysFault ==> queueService.store == old(queueService.store))
        && (!keysFault ==> queueService.SweptFrom(old(queueService.store), queueService.store,
                                                  old(queueService.store).Keys, Config.CleanupInterval))
    {
      cleaned := queueService.CleanupOldJobs(clock.now, Config.CleanupInterval, fault, keysFault);
    }

    /** `getMetrics`: the queue counts and the configured call rate. */
    function GetMetrics(statsFault: bool): (m: Metrics)
      reads queueService
      ensures m.queueStats == queueService.GetQueueStats(statsFault)
      ensures m.processingRate == 2.0 && m.averageResponseTime == 0.0
    {
      Metrics(queueService.GetQueueStats(statsFault), ProcessingRate(), 0.0)
    }
  }
}
