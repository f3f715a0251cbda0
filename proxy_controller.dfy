/** The gateway: the HTTP handlers that enqueue a request, report a job's
    status, replay its stored result, cancel it and show the queue counts.
    What each handler decides is a `Reply`: which response it sends (its
    status code and what the body carries) or that it hands the error on to
    the error middleware. */
module Controller {
  import opened Common
  import opened QueueTypes
  import RedisQueue
  import Config

  // ------------------------------------------------------------ replies

  datatype Reply =
    | Queued(jobId: string, checkStatusUrl: string, estimatedWaitTime: int)
    | QueueFullReply
    | MissingJobId
    | JobNotFound
    | ResultView(jobStatus: JobStatus, result: JobResult, completedAt: Option<int>)
    | ErrorView(jobStatus: JobStatus, error: JobError, attempts: nat, failedAt: Option<int>)
    | ProgressView(jobStatus: JobStatus, position: Option<int>, createdAt: int, attempts: nat)
    | ResultNotFound
    | Replay(status: int, headers: Headers, data: Body)
    | Cancelled
    | CannotCancel
    | StatsView(stats: QueueStats, maxQueueSize: int, rateLimit: int, maxConcurrent: int)
    | PassOn(thrown: JsError)

  /** The status code a reply is sent with; `PassOn` sends nothing itself. */
  function StatusCode(r: Reply): Option<int>
  {
    match r
    case Queued(_, _, _) => Some(202)
    case QueueFullReply => Some(503)
    case MissingJobId => Some(400)
    case JobNotFound => Some(404)
    case ResultView(_, _, _) => Some(200)
    case ErrorView(_, _, _, _) => Some(200)
    case ProgressView(_, _, _, _) => Some(200)
    case ResultNotFound => Some(404)
    case Replay(status, _, _) => Some(status)
    case Cancelled => Some(200)
    case CannotCancel => Some(400)
    case StatsView(_, _, _, _) => Some(200)
    case PassOn(_) => None
  }

  /** The `success` field of a JSON reply; a replayed result has none. */
  function Success(r: Reply): Option<bool>
  {
    match r
    case Queued(_, _, _) => Some(true)
    case ResultView(_, _, _) => Some(true)
    case ProgressView(_, _, _, _) => Some(true)
    case Cancelled => Some(true)
    case StatsView(_, _, _, _) => Some(true)
    case Replay(_, _, _) => None
    case PassOn(_) => None
    case _ => Some(false)
  }

  // ------------------------------------------------------------ inbound headers

  /** Inbound headers as Node hands them over: a value may be undefined. */
  type IncomingHeaders = map<string, Option<HeaderValue>>

  /** Fields not copied into the job: the proxy sets them itself. */
  const InboundExcluded: seq<string> := ["host", "connection", "upgrade", "content-length"]

  predicate IsInboundExcluded(key: string)
  {
    Lower(key) in InboundExcluded
  }

  /** `kept` holds exactly the defined, non-excluded inbound fields, each
      under its own spelling with its value unchanged. */
  ghost predicate Extracted(incoming: IncomingHeaders, kept: Headers)
  {
    && (forall k :: k in kept ==> k in incoming && !IsInboundExcluded(k) && incoming[k] == Some(kept[k]))
    && (forall k :: k in incoming && !IsInboundExcluded(k) && incoming[k].Some? ==> k in kept)
  }

  /** `extractHeaders`. */
  method ExtractHeaders(incoming: IncomingHeaders) returns (headers: Headers)
    ensures Extracted(incoming, headers)
  {
    headers := map[];
    var todo := incoming.Keys;
    while todo != {}
      invariant todo <= incoming.Keys
      invariant forall k :: k in headers ==> k in incoming && k !in todo && !IsInboundExcluded(k) && incoming[k] == Some(headers[k])
      invariant forall k :: k in incoming && k !in todo && !IsInboundExcluded(k) && incoming[k].Some? ==> k in headers
      decreases todo
    {
      var key :| key in todo;
      todo := todo - {key};
      var value := incoming[key];
      if !IsInboundExcluded(key) && value.Some? {
        headers := headers[key := value.value];
      }
    }
  }

  // ------------------------------------------------------------ the inbound request

  /** What the handler reads from an Express request. */
  datatype InboundRequest = InboundRequest(
    httpMethod: string,
    path: string,
    headers: IncomingHeaders,
    body: Option<Body>,
    query: map<string, Json>,
    ip: Option<string>,
    originalUrl: string)

  /** `req.get('user-agent')`, when it is a single string. */
  function UserAgent(headers: IncomingHeaders): (ua: Option<string>)
    ensures ua.Some? ==> "user-agent" in headers && headers["user-agent"] == Some(Str(ua.value))
  {
    if "user-agent" in headers && headers["user-agent"].Some? && headers["user-agent"].value.Str?
    then Some(headers["user-agent"].value.s)
    else None
  }

  /** The job data `enqueueRequest` builds for a request. */
  function JobData(req: InboundRequest, jobId: string, now: int, headers: Headers): (d: QueueJobData)
    ensures d.id == jobId && d.timestamp == now
    ensures d.request == RequestSnapshot(req.httpMethod, req.path, headers, req.body, Some(req.query))
    ensures d.metadata == Metadata(req.ip, UserAgent(req.headers), req.originalUrl)
  {
    QueueJobData(jobId, now,
                 RequestSnapshot(req.httpMethod, req.path, headers, req.body, Some(req.query)),
                 Metadata(req.ip, UserAgent(req.headers), req.originalUrl))
  }

  // ------------------------------------------------------------ pure choices

  /** `estimateWaitTime`: one rate-limit interval per waiting or active job. */
  function EstimateWaitTime(stats: QueueStats): (ms: nat)
    ensures ms == 0 <==> stats.waiting + stats.active == 0
    ensures ms % Config.MinTime == 0 && ms / Config.MinTime == stats.waiting + stats.active
  {
    (stats.waiting + stats.active) * Config.MinTime
  }

  /** A longer queue never gives a shorter estimate. */
  lemma EstimateMonotone(a: QueueStats, b: QueueStats)
    requires a.waiting + a.active <= b.waiting + b.active
    ensures EstimateWaitTime(a) <= EstimateWaitTime(b)
  {
  }

  /** What the catch block of `enqueueRequest` does with an error. */
  function EnqueueFailure(e: JsError): (r: Reply)
    ensures Contains(e.message, "Queue is full") ==> r == QueueFullReply
    ensures !Contains(e.message, "Queue is full") ==> r == PassOn(e)
  {
    if Contains(e.message, "Queue is full") then QueueFullReply else PassOn(e)
  }

  /** The queue's own full-queue error is answered with 503. */
  lemma QueueFullIsUnavailable()
    ensures EnqueueFailure(RedisQueue.QueueFullError) == QueueFullReply
    ensures StatusCode(EnqueueFailure(RedisQueue.QueueFullError)) == Some(503)
  {
    var msg := RedisQueue.QueueFullError.message;
    assert msg == "" + "Queue is full" + ". Please try again later.";
    ContainsInfix("", "Queue is full", ". Please try again later.");
  }

  /** `getJobStatus` once the job has (or has not) been looked up. */
  function StatusReply(jobId: string, job: Option<QueueJob>): (r: Reply)
    ensures jobId == "" ==> r == MissingJobId
    ensures jobId != "" && job.None? ==> r == JobNotFound
    ensures jobId != "" && job.Some? && job.value.status == JobStatus.Completed && job.value.result.Some? ==>
              r == ResultView(JobStatus.Completed, job.value.result.value, job.value.completedAt)
    ensures jobId != "" && job.Some? && job.value.status == JobStatus.Failed && job.value.error.Some? ==>
              r == ErrorView(JobStatus.Failed, job.value.error.value, job.value.attempts, job.value.completedAt)
    ensures r.ProgressView? <==>
              jobId != "" && job.Some?
              && !(job.value.status == JobStatus.Completed && job.value.result.Some?)
              && !(job.value.status == JobStatus.Failed && job.value.error.Some?)
    ensures r.ProgressView? ==> r == ProgressView(job.value.status, None, job.value.createdAt, job.value.attempts)
  {
    if jobId == "" then MissingJobId
    else if job.None? then JobNotFound
    else
      var j := job.value;
      if j.status == JobStatus.Completed && j.result.Some? then ResultView(j.status, j.result.value, j.completedAt)
      else if j.status == JobStatus.Failed && j.error.Some? then ErrorView(j.status, j.error.value, j.attempts, j.completedAt)
      else ProgressView(j.status, QueuePosition(jobId), j.createdAt, j.attempts)
  }

  /** `getQueuePosition`: not computed by the source; always null. */
  function QueuePosition(jobId: string): (p: Option<int>)
    ensures p.None?
  {
    None
  }

  /** Response fields never copied from a stored result. */
  const ReplayExcluded: seq<string> := ["content-encoding", "content-length", "transfer-encoding"]

  predicate IsReplayExcluded(key: string)
  {
    Lower(key) in ReplayExcluded
  }

  /** `sent` holds exactly the stored fields that may be replayed, unchanged. */
  ghost predicate Replayed(stored: Headers, sent: Headers)
  {
    && (forall k :: k in sent ==> k in stored && !IsReplayExcluded(k) && sent[k] == stored[k])
    && (forall k :: k in stored && !IsReplayExcluded(k) ==> k in sent)
  }

  /** The `forEach` of `getJobResult` that copies headers onto the response. */
  method CopyResultHeaders(stored: Headers) returns (sent: Headers)
    ensures Replayed(stored, sent)
  {
    sent := map[];
    var todo := stored.Keys;
    while todo != {}
      invariant todo <= stored.Keys
      invariant forall k :: k in sent ==> k in stored && k !in todo && !IsReplayExcluded(k) && sent[k] == stored[k]
      invariant forall k :: k in stored && k !in todo && !IsReplayExcluded(k) ==> k in sent
      decreases todo
    {
      var key :| key in todo;
      todo := todo - {key};
      if !IsReplayExcluded(key) {
        sent := sent[key := stored[key]];
      }
    }
  }

  // ------------------------------------------------------------ the controller

  class ProxyController {
    const queueService: RedisQueue.RedisQueueService

    constructor (queueService: RedisQueue.RedisQueueService)
      ensures this.queueService == queueService
    {
      this.queueService := queueService;
    }

    /** The estimate sent with an accepted request. */
    function WaitEstimate(statsFault: bool): (ms: nat)
      reads queueService`waiting, queueService`active, queueService`delayed,
            queueService`completed, queueService`failed
      ensures statsFault ==> ms == 0
      ensures !statsFault ==> ms == (|queueService.waiting| + |queueService.active|) * Config.MinTime
    {
      EstimateWaitTime(queueService.GetQueueStats(statsFault))
    }

    /** `enqueueRequest`: `jobId` is the fresh id the handler draws; the
        estimate is taken after the job was added. */
    method EnqueueRequest(req: InboundRequest, jobId: string, now: int,
                          statsFault: bool, addFault: Option<JsError>, waitFault: bool)
      returns (reply: Reply)
      requires queueService.Valid() && jobId != ""
      modifies queueService`waiting, queueService`jobs
      ensures queueService.Valid()
      ensures old(queueService.QueueFull(statsFault)) ==> reply == QueueFullReply
      ensures !old(queueService.QueueFull(statsFault)) && addFault.Some? ==> reply == EnqueueFailure(addFault.value)
      ensures reply.PassOn? || reply == QueueFullReply ==>
                queueService.waiting == old(queueService.waiting) && queueService.jobs == old(queueService.jobs)
      ensures !old(queueService.QueueFull(statsFault)) && addFault.None? ==>
        && reply == Queued(jobId, "/status/" + jobId, WaitEstimate(waitFault))
        && jobId in queueService.jobs
        && (jobId !in old(queueService.jobs) ==>
              && queueService.waiting == old(queueService.waiting) + [jobId]
              && Extracted(req.headers, queueService.jobs[jobId].data.request.headers)
              && queueService.jobs[jobId].data.id == jobId)
    {
      var headers := ExtractHeaders(req.headers);
      var data := JobData(req, jobId, now, headers);
      var added := queueService.AddJob(data, jobId, now, statsFault, addFault);
      match added {
        case Err(e) =>
          if e == RedisQueue.QueueFullError {
            QueueFullIsUnavailable();
          }
          reply := EnqueueFailure(e);
        case Ok(id) =>
          reply := Queued(id, "/status/" + id, WaitEstimate(waitFault));
      }
    }

    /** `getJobStatus`: the job is looked up only when an id was given. */
    function GetJobStatus(jobId: string, fault: bool, resultFault: bool, parseError: string -> Option<JobError>)
      : (r: Reply)
      reads queueService
      ensures r == StatusReply(jobId, if jobId == "" then None else queueService.GetJob(jobId, fault, resultFault, parseError))
      ensures jobId != "" && !fault && jobId !in queueService.jobs ==> r == JobNotFound
    {
      if jobId == "" then MissingJobId
      else StatusReply(jobId, queueService.GetJob(jobId, fault, resultFault, parseError))
    }

    /** `getJobResult`: the stored result replayed with its status, data and
        the replayable headers, or 404 when there is none. A body stored as
        bytes is replayed as those bytes, not as their JSON form. */
    method GetJobResult(jobId: string, fault: bool) returns (reply: Reply)
      ensures queueService.GetJobResult(jobId, fault).None? ==> reply == ResultNotFound
      ensures queueService.GetJobResult(jobId, fault).Some? ==>
        var result := queueService.GetJobResult(jobId, fault).value;
        && reply.Replay? && reply.status == result.status
        && reply.data == RedisQueue.Revived(result).data
        && Replayed(result.headers, reply.headers)
    {
      var result := queueService.GetJobResult(jobId, fault);
      if result.None? {
        return ResultNotFound;
      }
      var headers := CopyResultHeaders(result.value.headers);
      reply := Replay(result.value.status, headers, RedisQueue.Revived(result.value).data);
    }

    /** A saved result is replayed with the body the job produced, bytes
        included, unless that body is a JSON document shaped like a
        serialized Buffer. */
    lemma SavedResultReplayed(jobId: string, result: JobResult)
      requires RedisQueue.ResultKey(jobId) in queueService.store
      requires queueService.store[RedisQueue.ResultKey(jobId)].value == RedisQueue.Serialized(result)
      requires !(result.data.JsonBody? && RedisQueue.BufferBytes(result.data.json).Some?)
      ensures queueService.GetJobResult(jobId, false) == Some(RedisQueue.Reparsed(result))
      ensures RedisQueue.Revived(queueService.GetJobResult(jobId, false).value) == result
    {
      RedisQueue.RevivedRoundTrip(result);
    }

    /** `cancelJob`: 200 when the queue cancelled the job, 400 otherwise. */
    method CancelJob(jobId: string, fault: bool) returns (reply: Reply)
      requires queueService.Valid()
      modifies queueService`waiting, queueService`delayed, queueService`jobs
      ensures queueService.Valid()
      ensures reply == Cancelled || reply == CannotCancel
      ensures reply == Cancelled <==>
                !fault && jobId in old(queueService.jobs)
                && old(queueService.StateOf(jobId)) in {RedisQueue.Waiting, RedisQueue.Delayed}
      ensures reply == CannotCancel ==>
                queueService.waiting == old(queueService.waiting) && queueService.delayed == old(queueService.delayed)
                && queueService.jobs == old(queueService.jobs)
    {
      var cancelled := queueService.CancelJob(jobId, fault);
      reply := if cancelled then Cancelled else CannotCancel;
    }

    /** `getQueueStats`: the counts plus the configured limits. */
    function GetQueueStats(fault: bool): (r: Reply)
      reads queueService`waiting, queueService`active, queueService`delayed,
            queueService`completed, queueService`failed
      ensures r.StatsView? && StatusCode(r) == Some(200)
      ensures r.maxQueueSize == Config.MaxSize && r.rateLimit == Config.MinTime && r.maxConcurrent == Config.MaxConcurrent
      ensures fault ==> r.stats == ZeroStats
      ensures !fault ==> r.stats.waiting == |queueService.waiting| && r.stats.active == |queueService.active|
                         && r.stats.delayed == |queueService.delayed| && r.stats.completed == |queueService.completed|
                         && r.stats.failed == |queueService.failed|
    {
      StatsView(queueService.GetQueueStats(fault), Config.MaxSize, Config.MinTime, Config.MaxConcurrent)
    }

    /** A job that finished with a stored result is shown with that result;
        a waiting one is shown in progress, without a position. */
    lemma StatusFollowsQueue(jobId: string, parseError: string -> Option<JobError>)
      requires queueService.Valid() && jobId != "" && jobId in queueService.jobs
      ensures var key := RedisQueue.ResultKey(jobId);
        jobId in queueService.completed && key in queueService.store && queueService.store[key].value.Serialized? ==>
          GetJobStatus(jobId, false, false, parseError)
            == ResultView(JobStatus.Completed, RedisQueue.Reparsed(queueService.store[key].value.result),
                          queueService.jobs[jobId].finishedOn)
      ensures jobId in queueService.waiting ==>
          GetJobStatus(jobId, false, false, parseError)
            == ProgressView(Pending, None, queueService.jobs[jobId].timestamp, queueService.jobs[jobId].attemptsMade)
    {
      queueService.ReportedStatus(jobId, parseError);
    }
  }
}
