/** The queue service over an in-memory stand-in for Bull and Redis: the five
    job collections (waiting, active, delayed, completed, failed), the job
    records, and the Redis key space of stored results with their remaining
    time to live. On this state the model verifies the service's own logic:
    admission control, cancellation, result lookup and storage, the sweep,
    statistics, the Bull-state mapping and error parsing. A failing Bull or
    Redis call is an explicit fault parameter. */
module RedisQueue {
  import opened Common
  import opened QueueTypes
  import Config

  // ------------------------------------------------------------ Bull states

  /** The state Bull reports for a job; `Stuck` is its answer for a job found
      in none of the lists. */
  datatype BullState = Waiting | Delayed | Active | Completed | Failed | Stuck

  function StateName(s: BullState): string
  {
    match s
    case Waiting => "waiting"
    case Delayed => "delayed"
    case Active => "active"
    case Completed => "completed"
    case Failed => "failed"
    case Stuck => "stuck"
  }

  /** Bull's state name to the reported status; anything unrecognised is pending. */
  function MapBullStateToJobStatus(state: string): (status: JobStatus)
    ensures status != Timeout
    ensures state == "waiting" || state == "delayed" ==> status == Pending
    ensures status == Processing <==> state == "active"
    ensures status == JobStatus.Completed <==> state == "completed"
    ensures status == JobStatus.Failed <==> state == "failed"
  {
    match state
    case "waiting" => Pending
    case "delayed" => Pending
    case "active" => Processing
    case "completed" => JobStatus.Completed
    case "failed" => JobStatus.Failed
    case _ => Pending
  }

  /** What each Bull state is reported as. */
  lemma StatusOfEveryState(s: BullState)
    ensures var status := MapBullStateToJobStatus(StateName(s));
      && (s == Waiting || s == Delayed || s == Stuck <==> status == Pending)
      && (s == Active <==> status == Processing)
      && (s == BullState.Completed <==> status == JobStatus.Completed)
      && (s == BullState.Failed <==> status == JobStatus.Failed)
  {
  }

  /** The failure reason Bull recorded, read back as a JobError: parsed when
      it is JSON, otherwise wrapped with code UNKNOWN_ERROR. */
  function ParseJobError(failedReason: string, parseJson: string -> Option<JobError>): (e: JobError)
    ensures parseJson(failedReason).Some? ==> e == parseJson(failedReason).value
    ensures parseJson(failedReason).None? ==> e.message == failedReason && e.code == Some("UNKNOWN_ERROR")
    ensures parseJson(failedReason).None? ==> e.status.None? && e.stack.None?
  {
    match parseJson(failedReason)
    case Some(parsed) => parsed
    case None => JobError(failedReason, Some("UNKNOWN_ERROR"), None, None)
  }

  // ------------------------------------------------------------ store data

  /** A Bull job record. */
  datatype BullJob = BullJob(
    data: QueueJobData,
    timestamp: int,
    attemptsMade: nat,
    processedOn: Option<int>,
    finishedOn: Option<int>,
    returnvalue: Option<JobResult>,
    failedReason: Option<string>)

  function NewJob(data: QueueJobData, now: int): BullJob
  {
    BullJob(data, now, 0, None, None, None, None)
  }

  /** The record of a job the worker has picked up. */
  function Started(job: BullJob, now: int): BullJob
  {
    job.(processedOn := Some(now))
  }

  /** The record of a job whose processor returned `value`; Bull keeps the
      value as JSON text and hands back what that text parses to. */
  function Succeeded(job: BullJob, value: JobResult, now: int): BullJob
  {
    job.(returnvalue := Some(Reparsed(value)), finishedOn := Some(now), attemptsMade := job.attemptsMade + 1)
  }

  /** The record of a job whose processor threw `reason` on its last attempt. */
  function FailedWith(job: BullJob, reason: string, now: int): BullJob
  {
    job.(failedReason := Some(reason), finishedOn := Some(now), attemptsMade := job.attemptsMade + 1)
  }

  /** The record of a job whose processor threw `reason` with attempts left:
      Bull counts the attempt and keeps the reason, but the job is not
      finished, so no finish time is set. */
  function Retried(job: BullJob, reason: string): BullJob
  {
    job.(failedReason := Some(reason), attemptsMade := job.attemptsMade + 1)
  }

  // ------------------------------------------------------------ JSON storage

  /** The numbers `JSON.stringify` writes for the bytes of a Buffer. */
  function ByteItems(bytes: seq<byte>): (items: seq<Json>)
    ensures |items| == |bytes|
    ensures forall i :: 0 <= i < |bytes| ==> items[i] == JNumber(bytes[i] as int)
  {
    seq(|bytes|, i requires 0 <= i < |bytes| => JNumber(bytes[i] as int))
  }

  /** `JSON.parse(JSON.stringify(buffer))` for a Node Buffer: a plain object,
      not bytes. */
  function BufferJson(bytes: seq<byte>): Json
  {
    JObject(map["type" := JString("Buffer"), "data" := JArray(ByteItems(bytes))])
  }

  /** A body after a JSON round trip: parsed JSON and text come back as they
      were; raw bytes come back as the Buffer's JSON object. */
  function ReparsedBody(body: Body): (b: Body)
    ensures body.RawBody? ==> b == JsonBody(BufferJson(body.bytes))
    ensures !body.RawBody? ==> b == body
  {
    match body
    case RawBody(bytes) => JsonBody(BufferJson(bytes))
    case _ => body
  }

  /** `JSON.parse(JSON.stringify(result))`: what a stored result reads back as. */
  function Reparsed(result: JobResult): (r: JobResult)
    ensures r.status == result.status && r.headers == result.headers && r.duration == result.duration
    ensures r.data == ReparsedBody(result.data)
  {
    result.(data := ReparsedBody(result.data))
  }

  /** A JSON or text result survives storage unchanged. */
  lemma TextResultSurvivesStorage(result: JobResult)
    requires !result.data.RawBody?
    ensures Reparsed(result) == result
  {
  }

  /** A binary result does not: it reads back as a JSON object, which the
      result endpoint then sends as JSON instead of the bytes. */
  lemma BinaryResultReadBackAsJson(result: JobResult)
    requires result.data.RawBody?
    ensures Reparsed(result) != result
    ensures Reparsed(result).data == JsonBody(BufferJson(result.data.bytes))
  {
  }

  /** Whether every item is a JSON number that fits in a byte. */
  predicate AllBytes(items: seq<Json>)
  {
    forall i :: 0 <= i < |items| ==> items[i].JNumber? && 0 <= items[i].n < 256
  }

  function ToBytes(items: seq<Json>): (bytes: seq<byte>)
    requires AllBytes(items)
    ensures |bytes| == |items|
  {
    seq(|items|, i requires 0 <= i < |items| && AllBytes(items) => items[i].n as byte)
  }

  /** The bytes of a serialized Buffer: an object whose only fields are
      `type: "Buffer"` and a `data` list of byte values. */
  function BufferBytes(j: Json): (bytes: Option<seq<byte>>)
    ensures bytes.Some? ==> j.JObject? && "data" in j.fields && j.fields["data"].JArray?
                            && |bytes.value| == |j.fields["data"].items|
  {
    if && j.JObject? && j.fields.Keys == {"type", "data"}
       && j.fields["type"] == JString("Buffer")
       && j.fields["data"].JArray? && AllBytes(j.fields["data"].items)
    then Some(ToBytes(j.fields["data"].items))
    else None
  }

  /** A read-back result with a serialized Buffer body turned into bytes
      again: the reading the result endpoint needs to replay binary bodies. */
  function Revived(result: JobResult): (r: JobResult)
    ensures r.status == result.status && r.headers == result.headers && r.duration == result.duration
    ensures result.data.JsonBody? && BufferBytes(result.data.json).Some? ==>
              r.data == RawBody(BufferBytes(result.data.json).value)
  {
    if result.data.JsonBody? && BufferBytes(result.data.json).Some?
    then result.(data := RawBody(BufferBytes(result.data.json).value))
    else result
  }

  /** Reviving undoes the JSON round trip for every result whose body is not
      itself a JSON document shaped like a serialized Buffer. */
  lemma RevivedRoundTrip(result: JobResult)
    requires !(result.data.JsonBody? && BufferBytes(result.data.json).Some?)
    ensures Revived(Reparsed(result)) == result
  {
    if result.data.RawBody? {
      var bytes := result.data.bytes;
      var j := BufferJson(bytes);
      assert j.fields.Keys == {"type", "data"};
      assert AllBytes(ByteItems(bytes));
      assert ToBytes(ByteItems(bytes)) == bytes;
    }
  }

  /** A Redis string value: a serialized JobResult, or text that does not
      parse as one. */
  datatype Stored = Serialized(result: JobResult) | Unparseable(raw: string)

  /** A Redis key's value and its remaining time to live in seconds
      (negative: no expiry). */
  datatype Entry = Entry(value: Stored, ttl: int)

  const ResultKeyPrefix := "job:result:"
  /** Retention of a stored result, in seconds. */
  const ResultTtl := 3600

  function ResultKey(jobId: string): (key: string)
    ensures IsResultKey(key)
    ensures |key| == |ResultKeyPrefix| + |jobId| && key[|ResultKeyPrefix|..] == jobId
  {
    ResultKeyPrefix + jobId
  }

  lemma ResultKeyInjective(a: string, b: string)
    requires ResultKey(a) == ResultKey(b)
    ensures a == b
  {
    assert a == ResultKey(a)[|ResultKeyPrefix|..];
  }

  /** The keys the pattern `job:result:*` matches. */
  predicate IsResultKey(key: string)
  {
    |ResultKeyPrefix| <= |key| && key[..|ResultKeyPrefix|] == ResultKeyPrefix
  }

  const QueueFullError := PlainError("Queue is full. Please try again later.")

  /** Whether the sweep deletes a result with remaining TTL `ttl`, as written:
      a TTL above `3600 - olderThanMs / 1000`. For a key that expires this
      holds exactly when the result is YOUNGER than `olderThanMs`. */
  predicate StaleAsWritten(ttl: int, olderThanMs: int): (del: bool)
    ensures ttl < 0 ==> del
    ensures ttl >= 0 ==> (del <==> (ResultTtl - ttl) * 1000 < olderThanMs)
  {
    ttl < 0 || ttl * 1000 > ResultTtl * 1000 - olderThanMs
  }

  /** Whether the sweep deletes a result, as intended: a result with no expiry,
      or one stored more than `olderThanMs` ago. */
  predicate Stale(ttl: int, olderThanMs: int): (del: bool)
    ensures ttl < 0 ==> del
    ensures ttl >= 0 ==> (del <==> (ResultTtl - ttl) * 1000 > olderThanMs)
  {
    ttl < 0 || ttl * 1000 < ResultTtl * 1000 - olderThanMs
  }

  /** A result stored ten seconds ago: the sweep as written (age bound of
      five minutes, the sweep period) deletes it; the intended sweep keeps it
      and removes one stored an hour minus ten seconds ago instead. */
  lemma SweepAsWrittenDeletesFreshResults()
    ensures StaleAsWritten(ResultTtl - 10, 300000) && !Stale(ResultTtl - 10, 300000)
    ensures !StaleAsWritten(10, 300000) && Stale(10, 300000)
  {
  }

  /** A freshly stored result survives every sweep with a non-negative age bound. */
  lemma FreshResultNotStale(olderThanMs: int)
    requires olderThanMs >= 0
    ensures !Stale(ResultTtl, olderThanMs)
  {
  }

  // ------------------------------------------------------------ sequences

  /** `s` with every occurrence of `x` removed. */
  function Without(s: seq<string>, x: string): seq<string>
  {
    if s == [] then []
    else if s[0] == x then Without(s[1..], x)
    else [s[0]] + Without(s[1..], x)
  }

  lemma {:induction false} WithoutContents(s: seq<string>, x: string)
    ensures multiset(Without(s, x)) == multiset(s)[x := 0]
  {
    if s != [] {
      assert s == [s[0]] + s[1..];
      WithoutContents(s[1..], x);
    }
  }

  /** Appending an id that is not there and removing it again gives the
      list back. */
  lemma {:induction false} WithoutAppended(s: seq<string>, x: string)
    requires x !in s
    ensures Without(s + [x], x) == s
  {
    if s == [] {
      assert Without([x], x) == Without([], x);
    } else {
      assert (s + [x])[1..] == s[1..] + [x];
      WithoutAppended(s[1..], x);
    }
  }

  /** `s` with every element of `gone` removed. */
  function RemoveAll(s: seq<string>, gone: set<string>): seq<string>
  {
    if s == [] then []
    else if s[0] in gone then RemoveAll(s[1..], gone)
    else [s[0]] + RemoveAll(s[1..], gone)
  }

  lemma {:induction false} RemoveAllContents(s: seq<string>, gone: set<string>)
    ensures forall y :: multiset(RemoveAll(s, gone))[y] == if y in gone then 0 else multiset(s)[y]
    ensures |RemoveAll(s, gone)| <= |s|
  {
    if s != [] {
      assert s == [s[0]] + s[1..];
      RemoveAllContents(s[1..], gone);
    }
  }

  // ------------------------------------------------------------ the five lists

  /** Every id in the five lists, with multiplicity. */
  ghost function Listed(w: seq<string>, a: seq<string>, d: seq<string>, c: seq<string>, f: seq<string>): multiset<string>
  {
    multiset(w) + multiset(a) + multiset(d) + multiset(c) + multiset(f)
  }

  /** Each id of `keys` sits in exactly one list, once, and the lists hold
      nothing else. */
  ghost predicate Partitioned(w: seq<string>, a: seq<string>, d: seq<string>, c: seq<string>, f: seq<string>, keys: set<string>)
  {
    Listed(w, a, d, c, f) == multiset(keys)
  }

  /** A partitioned id is in exactly one list. */
  lemma ListedOnce(w: seq<string>, a: seq<string>, d: seq<string>, c: seq<string>, f: seq<string>, keys: set<string>, id: string)
    requires Partitioned(w, a, d, c, f, keys)
    ensures id in keys <==> id in w || id in a || id in d || id in c || id in f
    ensures id in keys ==>
      multiset(w)[id] + multiset(a)[id] + multiset(d)[id] + multiset(c)[id] + multiset(f)[id] == 1
  {
    assert Listed(w, a, d, c, f)[id] == multiset(keys)[id];
  }

  /** Every active id has a record. */
  lemma ActiveIsKey(w: seq<string>, a: seq<string>, d: seq<string>, c: seq<string>, f: seq<string>, keys: set<string>, id: string)
    requires Partitioned(w, a, d, c, f, keys) && id in a
    ensures id in keys
  {
    ListedOnce(w, a, d, c, f, keys, id);
  }

  /** Every listed finished id has a record. */
  lemma ListedIsKey(w: seq<string>, a: seq<string>, d: seq<string>, c: seq<string>, f: seq<string>, keys: set<string>)
    requires Partitioned(w, a, d, c, f, keys)
    ensures forall id :: id in c || id in f ==> id in keys
  {
    forall id | id in c || id in f
      ensures id in keys
    {
      ListedOnce(w, a, d, c, f, keys, id);
    }
  }

  /** Bull's add of a new id: it joins the end of the waiting list. */
  lemma AddKeepsPartition(w: seq<string>, a: seq<string>, d: seq<string>, c: seq<string>, f: seq<string>, keys: set<string>, id: string)
    requires Partitioned(w, a, d, c, f, keys) && id !in keys
    ensures Partitioned(w + [id], a, d, c, f, keys + {id})
  {
    assert multiset(keys + {id}) == multiset(keys) + multiset{id};
  }

  /** Removing a waiting or delayed job. */
  lemma RemoveKeepsPartition(w: seq<string>, a: seq<string>, d: seq<string>, c: seq<string>, f: seq<string>, keys: set<string>, id: string)
    requires Partitioned(w, a, d, c, f, keys) && (id in w || id in d)
    ensures Partitioned(Without(w, id), a, Without(d, id), c, f, keys - {id})
  {
    ListedOnce(w, a, d, c, f, keys, id);
    WithoutContents(w, id);
    WithoutContents(d, id);
    assert multiset(keys - {id}) == multiset(keys)[id := 0];
  }

  /** The oldest waiting job becomes active. */
  lemma TakeKeepsPartition(w: seq<string>, a: seq<string>, d: seq<string>, c: seq<string>, f: seq<string>, keys: set<string>)
    requires Partitioned(w, a, d, c, f, keys) && w != []
    ensures Partitioned(w[1..], a + [w[0]], d, c, f, keys)
  {
    assert w == [w[0]] + w[1..];
  }

  /** An active job moves to the completed list. */
  lemma ActiveToCompleted(w: seq<string>, a: seq<string>, d: seq<string>, c: seq<string>, f: seq<string>, keys: set<string>, id: string)
    requires Partitioned(w, a, d, c, f, keys) && id in a
    ensures Partitioned(w, Without(a, id), d, c + [id], f, keys)
  {
    ListedOnce(w, a, d, c, f, keys, id);
    WithoutContents(a, id);
  }

  /** An active job moves to the failed list. */
  lemma ActiveToFailed(w: seq<string>, a: seq<string>, d: seq<string>, c: seq<string>, f: seq<string>, keys: set<string>, id: string)
    requires Partitioned(w, a, d, c, f, keys) && id in a
    ensures Partitioned(w, Without(a, id), d, c, f + [id], keys)
  {
    ListedOnce(w, a, d, c, f, keys, id);
    WithoutContents(a, id);
  }

  /** An active job moves to the delayed list to be tried again. */
  lemma ActiveToDelayed(w: seq<string>, a: seq<string>, d: seq<string>, c: seq<string>, f: seq<string>, keys: set<string>, id: string)
    requires Partitioned(w, a, d, c, f, keys) && id in a
    ensures Partitioned(w, Without(a, id), d + [id], c, f, keys)
  {
    ListedOnce(w, a, d, c, f, keys, id);
    WithoutContents(a, id);
  }

  // ------------------------------------------------------------ job cleaning

  /** The extra age, in milliseconds, `cleanupOldJobs` allows a finished job. */
  const CleanGrace := 5000

  /** When a job stopped: its finish time, or its creation time if it has none. */
  function FinishTime(job: BullJob): int
  {
    if job.finishedOn.Some? then job.finishedOn.value else job.timestamp
  }

  /** Bull's age test in `clean`: the job stopped before the cutoff. */
  predicate FinishedBefore(job: BullJob, cutoff: int)
  {
    FinishTime(job) < cutoff
  }

  /** The recorded jobs that stopped before `cutoff`. */
  function ExpiredAt(jobs: map<string, BullJob>, cutoff: int): (expired: set<string>)
    ensures forall id :: id in expired <==> id in jobs && FinishedBefore(jobs[id], cutoff)
  {
    set id | id in jobs && FinishedBefore(jobs[id], cutoff)
  }

  /** The cutoff `cleanupOldJobs` hands Bull as written: `clean(grace, status,
      olderThanMs)` makes the grace the age bound and `olderThanMs` only a
      limit on how many jobs go, so the cutoff ignores `olderThanMs`. */
  function CleanCutoffAsWritten(now: int, olderThanMs: int): (cutoff: int)
    ensures forall job: BullJob {:trigger FinishedBefore(job, cutoff)} ::
              FinishedBefore(job, cutoff) <==> now - FinishTime(job) > CleanGrace
  {
    now - CleanGrace
  }

  /** The intended cutoff: a finished job goes once it is older than
      `olderThanMs` plus the grace. */
  function CleanCutoff(now: int, olderThanMs: int): (cutoff: int)
    ensures forall job: BullJob {:trigger FinishedBefore(job, cutoff)} ::
              FinishedBefore(job, cutoff) <==> now - FinishTime(job) > olderThanMs + CleanGrace
  {
    now - olderThanMs - CleanGrace
  }

  /** As written, a job that finished ten seconds before a sweep with the
      five-minute retention is cleaned; with the intended cutoff it stays. */
  lemma CleanAsWrittenTakesRecentJobs(job: BullJob, now: int)
    requires job.finishedOn == Some(now - 10000)
    ensures FinishedBefore(job, CleanCutoffAsWritten(now, 300000))
    ensures !FinishedBefore(job, CleanCutoff(now, 300000))
  {
  }

  /** With the intended cutoff, a job is cleaned exactly when it has been
      finished for longer than the retention plus the grace; the as-written
      cutoff cleans every job the intended one does, and more. */
  lemma CleanCutoffKeepsRetention(job: BullJob, now: int, olderThanMs: int)
    requires olderThanMs >= 0
    ensures FinishedBefore(job, CleanCutoff(now, olderThanMs)) <==> now - FinishTime(job) > olderThanMs + CleanGrace
    ensures FinishedBefore(job, CleanCutoff(now, olderThanMs)) ==> FinishedBefore(job, CleanCutoffAsWritten(now, olderThanMs))
  {
  }

  /** The finished jobs among `expired`. */
  ghost function Cleaned(c: seq<string>, f: seq<string>, expired: set<string>): set<string>
  {
    set id | id in expired && (id in c || id in f)
  }

  /** Bull's clean of the finished lists. */
  lemma CleanKeepsPartition(w: seq<string>, a: seq<string>, d: seq<string>, c: seq<string>, f: seq<string>,
                             keys: set<string>, expired: set<string>, kept: set<string>)
    requires Partitioned(w, a, d, c, f, keys)
    requires kept == keys - Cleaned(c, f, expired)
    ensures Partitioned(w, a, d, RemoveAll(c, expired), RemoveAll(f, expired), kept)
    ensures |RemoveAll(c, expired)| <= |c| && |RemoveAll(f, expired)| <= |f|
  {
    RemoveAllContents(c, expired);
    RemoveAllContents(f, expired);
    forall id ensures Listed(w, a, d, RemoveAll(c, expired), RemoveAll(f, expired))[id] == multiset(kept)[id] {
      ListedOnce(w, a, d, c, f, keys, id);
    }
  }

  // ------------------------------------------------------------ the service

  class RedisQueueService {
    var waiting: seq<string>
    var active: seq<string>
    var delayed: seq<string>
    var completed: seq<string>
    var failed: seq<string>
    var jobs: map<string, BullJob>
    /** The Redis key space. */
    var store: map<string, Entry>

    /** Every job id listed, with multiplicity. */
    ghost function Members(): multiset<string>
      reads this`waiting, this`active, this`delayed, this`completed, this`failed
    {
      Listed(waiting, active, delayed, completed, failed)
    }

    /** Each job sits in exactly one list, and the lists hold exactly the
        recorded jobs. */
    ghost predicate Valid()
      reads this`waiting, this`active, this`delayed, this`completed, this`failed, this`jobs
    {
      Partitioned(waiting, active, delayed, completed, failed, jobs.Keys)
    }

    constructor ()
      ensures Valid()
      ensures waiting == [] && active == [] && delayed == [] && completed == [] && failed == []
      ensures jobs == map[] && store == map[]
    {
      waiting, active, delayed, completed, failed := [], [], [], [], [];
      jobs, store := map[], map[];
    }

    /** The state Bull reports for `id`, looking in its lists in Bull's order. */
    function StateOf(id: string): BullState
      reads this`waiting, this`active, this`delayed, this`completed, this`failed
    {
      if id in completed then BullState.Completed
      else if id in failed then BullState.Failed
      else if id in delayed then Delayed
      else if id in active then Active
      else if id in waiting then Waiting
      else Stuck
    }

    /** Jobs that count against admission. */
    function PendingCount(): nat
      reads this`waiting, this`active, this`delayed
    {
      |waiting| + |active| + |delayed|
    }

    /** The five counts, or all zero when Bull cannot be read. */
    function GetQueueStats(fault: bool): (s: QueueStats)
      reads this`waiting, this`active, this`delayed, this`completed, this`failed
      ensures fault ==> s == ZeroStats
      ensures !fault ==> s.waiting + s.active + s.delayed == PendingCount()
      ensures !fault ==> s == QueueStats(|waiting|, |active|, |completed|, |failed|, |delayed|)
    {
      if fault then ZeroStats
      else QueueStats(|waiting|, |active|, |completed|, |failed|, |delayed|)
    }

    /** Whether `addJob` turns a job away: the pending total it reads is at
        least the bound (a failed count reads as zero). */
    function QueueFull(statsFault: bool): (full: bool)
      reads this`waiting, this`active, this`delayed, this`completed, this`failed
      ensures !statsFault ==> (full <==> PendingCount() >= Config.MaxSize)
      ensures statsFault ==> !full
    {
      var stats := GetQueueStats(statsFault);
      stats.waiting + stats.active + stats.delayed >= Config.MaxSize
    }

    /** `addJob`: admission control, then Bull's add under the job's own id
        (or `freshId` when the job has none); Bull keeps an existing job with
        the same id unchanged. */
    method AddJob(data: QueueJobData, freshId: string, now: int, statsFault: bool, addFault: Option<JsError>)
      returns (r: Result<string, JsError>)
      requires Valid()
      requires freshId != ""
      modifies this`waiting, this`jobs
      ensures Valid()
      ensures old(QueueFull(statsFault)) ==> r == Err(QueueFullError)
      ensures !old(QueueFull(statsFault)) && addFault.Some? ==> r == Err(addFault.value)
      ensures r.Err? ==> waiting == old(waiting) && jobs == old(jobs)
      ensures !old(QueueFull(statsFault)) && addFault.None? ==>
        var id := if data.id != "" then data.id else freshId;
        && r == Ok(id)
        && (id !in old(jobs) ==> waiting == old(waiting) + [id] && jobs == old(jobs)[id := NewJob(data, now)])
        && (id in old(jobs) ==> waiting == old(waiting) && jobs == old(jobs))
    {
      var jobId := if data.id != "" then data.id else freshId;
      var stats := GetQueueStats(statsFault);
      if stats.waiting + stats.active + stats.delayed >= Config.MaxSize {
        return Err(QueueFullError);
      }
      if addFault.Some? {
        return Err(addFault.value);
      }
      if jobId !in jobs {
        var added := jobs[jobId := NewJob(data, now)];
        assert added.Keys == jobs.Keys + {jobId};
        AddKeepsPartition(waiting, active, delayed, completed, failed, jobs.Keys, jobId);
        waiting, jobs := waiting + [jobId], added;
      }
      return Ok(jobId);
    }

    /** `cancelJob`: only a waiting or delayed job is removed. */
    method CancelJob(jobId: string, fault: bool) returns (cancelled: bool)
      requires Valid()
      modifies this`waiting, this`delayed, this`jobs
      ensures Valid()
      ensures cancelled <==> !fault && jobId in old(jobs) && old(StateOf(jobId)) in {Waiting, Delayed}
      ensures cancelled ==> jobId !in jobs && jobs == old(jobs) - {jobId}
      ensures cancelled ==> waiting == Without(old(waiting), jobId) && delayed == Without(old(delayed), jobId)
      ensures !cancelled ==> waiting == old(waiting) && delayed == old(delayed) && jobs == old(jobs)
    {
      if fault || jobId !in jobs {
        return false;
      }
      var state := StateOf(jobId);
      if state == Waiting || state == Delayed {
        var remaining := jobs - {jobId};
        assert remaining.Keys == jobs.Keys - {jobId};
        RemoveKeepsPartition(waiting, active, delayed, completed, failed, jobs.Keys, jobId);
        waiting, delayed, jobs := Without(waiting, jobId), Without(delayed, jobId), remaining;
        return true;
      }
      return false;
    }

    /** `getJobResult`: the stored result, as its JSON text parses back, when
        the key holds one; when the key is missing (or empty) the job's return
        value; nothing when the stored text does not parse or the store cannot
        be read. */
    function GetJobResult(jobId: string, fault: bool): (r: Option<JobResult>)
      reads this`jobs, this`store
      ensures fault ==> r.None?
      ensures !fault && ResultKey(jobId) in store && store[ResultKey(jobId)].value.Serialized? ==>
                r == Some(Reparsed(store[ResultKey(jobId)].value.result))
      ensures !fault && (ResultKey(jobId) !in store || store[ResultKey(jobId)].value == Unparseable("")) ==>
                r == (if jobId in jobs then jobs[jobId].returnvalue else None)
      ensures (!fault && ResultKey(jobId) in store && store[ResultKey(jobId)].value.Unparseable?
               && store[ResultKey(jobId)].value.raw != "") ==> r.None?
    {
      var key := ResultKey(jobId);
      if fault then None
      else if key !in store || store[key].value == Unparseable("") then
        if jobId in jobs then jobs[jobId].returnvalue else None
      else
        match store[key].value
        case Serialized(result) => Some(Reparsed(result))
        case Unparseable(_) => None
    }

    /** `saveJobResult`: store under `job:result:<id>` for an hour, or rethrow.
        What is read back is the result after a JSON round trip, which is the
        result itself unless its body is raw bytes. */
    method SaveJobResult(jobId: string, result: JobResult, fault: Option<JsError>) returns (o: Outcome<JsError>)
      modifies this`store
      ensures fault.None? ==> o == Pass && store == old(store)[ResultKey(jobId) := Entry(Serialized(result), ResultTtl)]
      ensures fault.None? ==> GetJobResult(jobId, false) == Some(Reparsed(result))
      ensures fault.None? && !result.data.RawBody? ==> GetJobResult(jobId, false) == Some(result)
      ensures fault.Some? ==> o == Fail(fault.value) && store == old(store)
    {
      if fault.Some? {
        return Fail(fault.value);
      }
      store := store[ResultKey(jobId) := Entry(Serialized(result), ResultTtl)];
      return Pass;
    }

    /** `getJob`: the job's record as the gateway sees it, or nothing. */
    function GetJob(jobId: string, fault: bool, resultFault: bool, parseError: string -> Option<JobError>)
      : (r: Option<QueueJob>)
      reads this
      ensures r.Some? <==> !fault && jobId in jobs
      ensures r.Some? ==>
        && r.value.id == jobId
        && r.value.data == jobs[jobId].data
        && r.value.status == MapBullStateToJobStatus(StateName(StateOf(jobId)))
        && r.value.attempts == jobs[jobId].attemptsMade
        && r.value.createdAt == jobs[jobId].timestamp
        && r.value.processedAt == jobs[jobId].processedOn
        && r.value.completedAt == jobs[jobId].finishedOn
        && r.value.result == GetJobResult(jobId, resultFault)
        && (r.value.error.Some? <==> jobs[jobId].failedReason.Some? && jobs[jobId].failedReason.value != "")
        && (r.value.error.Some? ==> r.value.error.value == ParseJobError(jobs[jobId].failedReason.value, parseError))
    {
      if fault || jobId !in jobs then None
      else
        var job := jobs[jobId];
        Some(QueueJob(
          jobId,
          job.data,
          MapBullStateToJobStatus(StateName(StateOf(jobId))),
          job.attemptsMade,
          job.timestamp,
          job.processedOn,
          job.finishedOn,
          GetJobResult(jobId, resultFault),
          if job.failedReason.Some? && job.failedReason.value != "" then Some(ParseJobError(job.failedReason.value, parseError))
          else None))
    }

    /** The status reported for a recorded job follows the list it is in. */
    lemma ReportedStatus(jobId: string, parseError: string -> Option<JobError>)
      requires Valid() && jobId in jobs
      ensures var status := GetJob(jobId, false, false, parseError).value.status;
        && status != Timeout
        && (status == Pending <==> jobId in waiting || jobId in delayed)
        && (status == Processing <==> jobId in active)
        && (status == JobStatus.Completed <==> jobId in completed)
        && (status == JobStatus.Failed <==> jobId in failed)
    {
      var m := Members();
      assert jobId in m;
      StatusOfEveryState(StateOf(jobId));
      if jobId in waiting { assert multiset(waiting)[jobId] >= 1; }
      if jobId in active { assert multiset(active)[jobId] >= 1; }
      if jobId in delayed { assert multiset(delayed)[jobId] >= 1; }
      if jobId in completed { assert multiset(completed)[jobId] >= 1; }
      if jobId in failed { assert multiset(failed)[jobId] >= 1; }
    }

    // ---------------------------------------------------------- Bull's worker

    /** Bull hands the oldest waiting job to the processor and marks it active. */
    method TakeNext(now: int) returns (id: Option<string>)
      requires Valid()
      modifies this`waiting, this`active, this`jobs
      ensures Valid()
      ensures old(waiting) == [] ==> id.None? && waiting == old(waiting) && active == old(active) && jobs == old(jobs)
      ensures old(waiting) != [] ==>
        && id == Some(old(waiting)[0]) && id.value in old(jobs)
        && waiting == old(waiting)[1..] && active == old(active) + [id.value]
        && jobs == old(jobs)[id.value := Started(old(jobs)[id.value], now)]
    {
      if waiting == [] {
        return None;
      }
      var next := waiting[0];
      ListedOnce(waiting, active, delayed, completed, failed, jobs.Keys, next);
      TakeKeepsPartition(waiting, active, delayed, completed, failed, jobs.Keys);
      waiting := waiting[1..];
      active := active + [next];
      jobs := jobs[next := Started(jobs[next], now)];
      return Some(next);
    }

    /** Bull records the processor's return value and moves the job to completed. */
    method MarkCompleted(id: string, value: JobResult, now: int)
      requires Valid() && id in active
      modifies this`active, this`completed, this`jobs
      ensures id in old(jobs) && Valid()
      ensures id in jobs && id in completed
      ensures active == Without(old(active), id) && completed == old(completed) + [id]
      ensures jobs == old(jobs)[id := Succeeded(old(jobs)[id], value, now)]
    {
      ListedOnce(waiting, active, delayed, completed, failed, jobs.Keys, id);
      ActiveToCompleted(waiting, active, delayed, completed, failed, jobs.Keys, id);
      var recorded := jobs[id := Succeeded(jobs[id], value, now)];
      assert recorded.Keys == jobs.Keys;
      active, completed, jobs := Without(active, id), completed + [id], recorded;
    }

    /** Bull records the message the processor threw and moves the job to
        the failed list. */
    method MarkFailed(id: string, reason: string, now: int)
      requires Valid() && id in active
      modifies this`active, this`failed, this`jobs
      ensures id in old(jobs) && Valid()
      ensures id in jobs && id in failed
      ensures active == Without(old(active), id) && failed == old(failed) + [id]
      ensures jobs == old(jobs)[id := FailedWith(old(jobs)[id], reason, now)]
    {
      ListedOnce(waiting, active, delayed, completed, failed, jobs.Keys, id);
      ActiveToFailed(waiting, active, delayed, completed, failed, jobs.Keys, id);
      var recorded := jobs[id := FailedWith(jobs[id], reason, now)];
      assert recorded.Keys == jobs.Keys;
      active, failed, jobs := Without(active, id), failed + [id], recorded;
    }

    /** Bull records the message the processor threw and parks the job in the
        delayed list, to be tried again after its backoff; the job is not
        finished, so its finish time stays as it was. */
    method MarkRetry(id: string, reason: string)
      requires Valid() && id in active
      modifies this`active, this`delayed, this`jobs
      ensures id in old(jobs) && Valid()
      ensures id in jobs && id in delayed
      ensures active == Without(old(active), id) && delayed == old(delayed) + [id]
      ensures jobs == old(jobs)[id := Retried(old(jobs)[id], reason)]
      ensures jobs[id].finishedOn == old(jobs)[id].finishedOn
    {
      ListedOnce(waiting, active, delayed, completed, failed, jobs.Keys, id);
      ActiveToDelayed(waiting, active, delayed, completed, failed, jobs.Keys, id);
      var recorded := jobs[id := Retried(jobs[id], reason)];
      assert recorded.Keys == jobs.Keys;
      active, delayed, jobs := Without(active, id), delayed + [id], recorded;
    }

    // ---------------------------------------------------------- cleanup

    /** `after` is `before` once the keys in `swept` have been looked at:
        those of them that are result keys with a stale TTL are gone, every
        other key keeps its entry. */
    ghost predicate SweptFrom(before: map<string, Entry>, after: map<string, Entry>, swept: set<string>, olderThanMs: int)
    {
      && (forall k :: k in after <==> k in before && !(k in swept && IsResultKey(k) && Stale(before[k].ttl, olderThanMs)))
      && (forall k :: k in after ==> after[k] == before[k])
    }

    /** `cleanupOldResults`: delete every result key whose TTL is stale; other
        keys are untouched; a failing key listing leaves everything. */
    method CleanupOldResults(olderThanMs: int, keysFault: bool)
      requires Valid()
      modifies this`store
      ensures Valid()
      ensures keysFault ==> store == old(store)
      ensures !keysFault ==> SweptFrom(old(store), store, old(store).Keys, olderThanMs)
    {
      if keysFault {
        return;
      }
      ghost var before := store;
      var keys := set k | k in store && IsResultKey(k);
      ghost var swept: set<string> := before.Keys - keys;
      while keys != {}
        invariant keys <= before.Keys && swept == before.Keys - keys
        invariant forall k :: k in keys ==> IsResultKey(k)
        invariant SweptFrom(before, store, swept, olderThanMs)
        decreases keys
      {
        var key :| key in keys;
        keys := keys - {key};
        swept := swept + {key};
        if Stale(store[key].ttl, olderThanMs) {
          store := store - {key};
        }
      }
    }

    /** Bull's `clean` of the completed and then the failed list: the jobs
        that finished before `cutoff` leave their list and their record; the
        number removed is returned. */
    method CleanFinished(cutoff: int) returns (removed: nat)
      requires Valid()
      modifies this`completed, this`failed, this`jobs
      ensures Valid()
      ensures var expired := ExpiredAt(old(jobs), cutoff);
        && completed == RemoveAll(old(completed), expired) && failed == RemoveAll(old(failed), expired)
        && jobs.Keys == old(jobs).Keys - Cleaned(old(completed), old(failed), expired)
      ensures removed == (|old(completed)| - |completed|) + (|old(failed)| - |failed|)
      ensures forall id :: id in jobs ==> jobs[id] == old(jobs)[id]
      ensures forall id :: id in old(completed) || id in old(failed) ==>
                id in old(jobs) && (id in jobs <==> !FinishedBefore(old(jobs)[id], cutoff))
    {
      var expired := ExpiredAt(jobs, cutoff);
      ListedIsKey(waiting, active, delayed, completed, failed, jobs.Keys);
      var newCompleted := RemoveAll(completed, expired);
      var newFailed := RemoveAll(failed, expired);
      var newJobs := map id | id in jobs && !(id in expired && (id in completed || id in failed)) :: jobs[id];
      assert newJobs.Keys == jobs.Keys - Cleaned(completed, failed, expired);
      CleanKeepsPartition(waiting, active, delayed, completed, failed, jobs.Keys, expired, newJobs.Keys);
      removed := (|completed| - |newCompleted|) + (|failed| - |newFailed|);
      completed, failed, jobs := newCompleted, newFailed, newJobs;
    }

    /** `cleanupOldJobs` at time `now`: the finished jobs older than
        `olderThanMs` plus the grace are cleaned, then old results are swept;
        the count of removed jobs is returned, or 0 when Bull fails first. */
    method CleanupOldJobs(now: int, olderThanMs: int, fault: bool, keysFault: bool) returns (total: nat)
      requires Valid()
      modifies this`completed, this`failed, this`jobs, this`store
      ensures Valid()
      ensures fault ==> total == 0 && completed == old(completed) && failed == old(failed)
                        && jobs == old(jobs) && store == old(store)
      ensures !fault ==>
        var expired := ExpiredAt(old(jobs), CleanCutoff(now, olderThanMs));
        && completed == RemoveAll(old(completed), expired)
        && failed == RemoveAll(old(failed), expired)
        && total == (|old(completed)| - |completed|) + (|old(failed)| - |failed|)
        && jobs.Keys == old(jobs).Keys - Cleaned(old(completed), old(failed), expired)
        && (forall id :: id in jobs ==> jobs[id] == old(jobs)[id])
        && (keysFault ==> store == old(store))
        && (!keysFault ==> SweptFrom(old(store), store, old(store).Keys, olderThanMs))
    {
      if fault {
        return 0;
      }
      total := CleanFinished(CleanCutoff(now, olderThanMs));
      CleanupOldResults(olderThanMs, keysFault);
    }

    /** Redis expiry: `seconds` pass; a key whose TTL runs out disappears. */
    method Elapse(seconds: nat)
      requires Valid()
      modifies this`store
      ensures Valid()
      ensures forall k :: k in store <==> k in old(store) && (old(store)[k].ttl < 0 || old(store)[k].ttl > seconds)
      ensures forall k :: k in store ==> store[k].value == old(store)[k].value
      ensures forall k :: k in store && store[k].ttl >= 0 ==> store[k].ttl == old(store)[k].ttl - seconds
    {
      store := map k | k in store && (store[k].ttl < 0 || store[k].ttl > seconds) ::
        if store[k].ttl < 0 then store[k] else store[k].(ttl := store[k].ttl - seconds);
    }
  }
}
