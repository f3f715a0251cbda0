/** Redis connection set-up: the reconnect backoff handed to the Redis
    client, and the module-level client and queue handles with their
    not-initialised guards. Connecting and Bull's queue are outside the
    model; a handle records only what it was created with. */
module RedisConfig {
  import opened Common

  /** What `reconnectStrategy` tells the client: wait and retry, or stop. */
  datatype Reconnect = RetryAfter(ms: int) | GiveUp(error: JsError)

  const DefaultRedisUrl := "redis://localhost:6379"
  const ReconnectLimitMessage := "Redis reconnection limit reached"

  /** `reconnectStrategy(retries)`. */
  function ReconnectStrategy(retries: nat): (r: Reconnect)
    ensures r.GiveUp? <==> retries > 10
    ensures r.GiveUp? ==> r.error == PlainError(ReconnectLimitMessage)
    ensures r.RetryAfter? ==> r.ms == retries * 100 && 0 <= r.ms <= 1000
  {
    if retries > 10 then GiveUp(PlainError(ReconnectLimitMessage))
    else RetryAfter(Min(retries * 100, 3000))
  }

  /** The backoff never waits less after more retries, as long as it retries. */
  lemma ReconnectMonotone(a: nat, b: nat)
    requires a <= b <= 10
    ensures ReconnectStrategy(a).ms <= ReconnectStrategy(b).ms
  {
  }

  datatype ClientHandle = ClientHandle(url: string)
  datatype QueueHandle = QueueHandle(name: string, url: string)

  /** The two module-level handles, and whether `closeRedis` has closed them. */
  class RedisHandles {
    var redisClient: Option<ClientHandle>
    var requestQueue: Option<QueueHandle>
    var clientQuit: bool
    var queueClosed: bool

    constructor ()
      ensures redisClient.None? && requestQueue.None? && !clientQuit && !queueClosed
    {
      redisClient := None;
      requestQueue := None;
      clientQuit := false;
      queueClosed := false;
    }

    /** `initRedis`: the client is created (and kept) before it connects;
        the queue is created only after the connection succeeded. */
    method InitRedis(envUrl: Option<string>, connectFault: Option<JsError>) returns (o: Outcome<JsError>)
      modifies this`redisClient, this`requestQueue
      ensures redisClient == Some(ClientHandle(OrDefault(envUrl, DefaultRedisUrl)))
      ensures connectFault.Some? ==> o == Fail(connectFault.value) && requestQueue == old(requestQueue)
      ensures connectFault.None? ==>
                o == Pass && requestQueue == Some(QueueHandle("request-queue", OrDefault(envUrl, DefaultRedisUrl)))
    {
      var url := OrDefault(envUrl, DefaultRedisUrl);
      redisClient := Some(ClientHandle(url));
      if connectFault.Some? {
        return Fail(connectFault.value);
      }
      requestQueue := Some(QueueHandle("request-queue", url));
      return Pass;
    }

    /** `getRedisClient`. */
    function GetRedisClient(): (r: Result<ClientHandle, JsError>)
      reads this`redisClient
      ensures redisClient.Some? <==> r.Ok?
      ensures r.Ok? ==> r.value == redisClient.value
      ensures r.Err? ==> r.error == PlainError("Redis client not initialized")
    {
      if redisClient.None? then Err(PlainError("Redis client not initialized")) else Ok(redisClient.value)
    }

    /** `getRequestQueue`. */
    function GetRequestQueue(): (r: Result<QueueHandle, JsError>)
      reads this`requestQueue
      ensures requestQueue.Some? <==> r.Ok?
      ensures r.Ok? ==> r.value == requestQueue.value
      ensures r.Err? ==> r.error == PlainError("Request queue not initialized")
    {
      if requestQueue.None? then Err(PlainError("Request queue not initialized")) else Ok(requestQueue.value)
    }

    /** `closeRedis`: closes the queue, then quits the client, each only when
        it was set; a failure to close the queue stops there. */
    method CloseRedis(closeFault: Option<JsError>, quitFault: Option<JsError>) returns (o: Outcome<JsError>)
      modifies this`clientQuit, this`queueClosed
      ensures requestQueue.Some? && closeFault.Some? ==>
                o == Fail(closeFault.value) && queueClosed == old(queueClosed) && clientQuit == old(clientQuit)
      ensures requestQueue.None? || closeFault.None? ==>
                && queueClosed == (old(queueClosed) || requestQueue.Some?)
                && (redisClient.Some? && quitFault.Some? ==> o == Fail(quitFault.value) && clientQuit == old(clientQuit))
                && (redisClient.None? || quitFault.None? ==> o == Pass && clientQuit == (old(clientQuit) || redisClient.Some?))
    {
      if requestQueue.Some? {
        if closeFault.Some? {
          return Fail(closeFault.value);
        }
        queueClosed := true;
      }
      if redisClient.Some? {
        if quitFault.Some? {
          return Fail(quitFault.value);
        }
        clientQuit := true;
      }
      return Pass;
    }
  }
}
