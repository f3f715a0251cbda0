/** The job records the queue, the dispatcher and the gateway exchange. */
module QueueTypes {
  import opened Common

  /** The status a job is reported with. */
  datatype JobStatus = Pending | Processing | Completed | Failed | Timeout

  /** The wire name of a status. */
  function StatusName(s: JobStatus): string
  {
    match s
    case Pending => "pending"
    case Processing => "processing"
    case Completed => "completed"
    case Failed => "failed"
    case Timeout => "timeout"
  }

  /** The request snapshot stored with a job. */
  datatype RequestSnapshot = RequestSnapshot(
    httpMethod: string,
    url: string,
    headers: Headers,
    body: Option<Body>,
    query: Option<map<string, Json>>)

  datatype Metadata = Metadata(clientIp: Option<string>, userAgent: Option<string>, originalUrl: string)

  datatype QueueJobData = QueueJobData(id: string, timestamp: int, request: RequestSnapshot, metadata: Metadata)

  /** The downstream outcome stored for a finished job. */
  datatype JobResult = JobResult(status: int, headers: Headers, data: Body, duration: int)

  datatype JobError = JobError(message: string, code: Option<string>, status: Option<int>, stack: Option<string>)

  /** Everything the gateway learns about one job. */
  datatype QueueJob = QueueJob(
    id: string,
    data: QueueJobData,
    status: JobStatus,
    attempts: nat,
    createdAt: int,
    processedAt: Option<int>,
    completedAt: Option<int>,
    result: Option<JobResult>,
    error: Option<JobError>)

  datatype QueueStats = QueueStats(waiting: nat, active: nat, completed: nat, failed: nat, delayed: nat)

  const ZeroStats := QueueStats(0, 0, 0, 0, 0)
}
