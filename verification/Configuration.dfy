/** Queue parameters and their validation (config.go, options.go). Durations are nanoseconds. */
module Configuration {
  import opened Basics

  const MILLISECOND: int := 1_000_000

  datatype RetryConfig = RetryConfig(delay: int, maxDuration: int)
  datatype QueueItem = QueueItem(retry: Option<RetryConfig>, consumerOnly: bool)
  type Queues = map<string, QueueItem>
  datatype Config = Config(url: string, reconnectDelay: int, reInitDelay: int, resendDelay: int, queues: Queues)

  datatype ConfigError =
    | EmptyUrl
    | InvalidDelay
    | FailHandlerRequired(queue: string)
    | InvalidRetryConfig(queue: string)

  /** What the retry bound rests on: the delay survives truncation to milliseconds. */
  predicate ValidQueues(queues: Queues, hasFailHandler: bool) {
    forall name :: name in queues && queues[name].retry.Some? ==>
      && hasFailHandler
      && queues[name].retry.value.delay >= MILLISECOND
      && queues[name].retry.value.maxDuration > 0
  }

  predicate ValidConfig(conf: Config, hasFailHandler: bool) {
    && conf.url != ""
    && conf.reconnectDelay > 0 && conf.reInitDelay > 0 && conf.resendDelay > 0
    && ValidQueues(conf.queues, hasFailHandler)
  }

  function ValidateRetryQueue(name: string, item: QueueItem, hasFailHandler: bool): Option<ConfigError> {
    if item.retry.None? then None
    else if !hasFailHandler then Some(FailHandlerRequired(name))
    else if item.retry.value.delay < MILLISECOND then Some(InvalidRetryConfig(name))
    else if item.retry.value.maxDuration <= 0 then Some(InvalidRetryConfig(name))
    else None
  }

  /** `validateConfig`, for every order in which the queue map may be visited. */
  method ValidateConfig(conf: Config, hasFailHandler: bool) returns (err: Option<ConfigError>)
    ensures err.None? <==> ValidConfig(conf, hasFailHandler)
    ensures err == Some(EmptyUrl) <==> conf.url == ""
    ensures err == Some(InvalidDelay) <==>
              conf.url != "" && (conf.reconnectDelay <= 0 || conf.reInitDelay <= 0 || conf.resendDelay <= 0)
    ensures err.Some? && (err.value.FailHandlerRequired? || err.value.InvalidRetryConfig?) ==>
              && err.value.queue in conf.queues && conf.queues[err.value.queue].retry.Some?
              && (err.value.FailHandlerRequired? <==> !hasFailHandler)
              && (err.value.InvalidRetryConfig? ==>
                    || conf.queues[err.value.queue].retry.value.delay < 1_000_000
                    || conf.queues[err.value.queue].retry.value.maxDuration <= 0)
  {
    if conf.url == "" { return Some(EmptyUrl); }
    if conf.reconnectDelay <= 0 { return Some(InvalidDelay); }
    if conf.reInitDelay <= 0 { return Some(InvalidDelay); }
    if conf.resendDelay <= 0 { return Some(InvalidDelay); }
    var rest := conf.queues.Keys;
    while rest != {}
      invariant rest <= conf.queues.Keys
      invariant forall name :: name in conf.queues.Keys - rest ==>
                  ValidateRetryQueue(name, conf.queues[name], hasFailHandler).None?
      decreases rest
    {
      var name :| name in rest;
      err := ValidateRetryQueue(name, conf.queues[name], hasFailHandler);
      if err.Some? { return; }
      rest := rest - {name};
    }
    return None;
  }

  /** The "x-message-ttl" of a delay queue in milliseconds: int64(retryDelay / time.Millisecond). */
  function TtlMillis(retry: RetryConfig): int {
    if retry.delay >= 0 then retry.delay / MILLISECOND else -(-retry.delay / MILLISECOND)
  }

  /** The same time to live as a duration. */
  function Ttl(retry: RetryConfig): int {
    TtlMillis(retry) * MILLISECOND
  }

  /** For a store that New accepted, every retry queue waits at least a millisecond, never longer
      than configured, and less than a millisecond shorter. */
  lemma TtlOfValidQueue(queues: Queues, hasFailHandler: bool, name: string)
    requires ValidQueues(queues, hasFailHandler) && name in queues && queues[name].retry.Some?
    ensures hasFailHandler
    ensures TtlMillis(queues[name].retry.value) >= 1
    ensures var delay := queues[name].retry.value.delay;
            delay - MILLISECOND < Ttl(queues[name].retry.value) <= delay
  {
  }
}
