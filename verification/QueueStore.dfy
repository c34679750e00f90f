/** The store behind the public Queue (queue.go) and how it handles one delivery (delivery.go). */
module QueueStore {
  import opened Basics
  import opened Clients
  import opened Configuration
  import opened RetryableErrors
  import opened Settlement
  import opened Tables
  import Stamp

  datatype Delivery = Delivery(tag: nat, headers: Table, body: string)

  /** What FailJobHandler is called with. */
  datatype FailedJob = FailedJob(queue: string, body: string, err: Error)

  /** The settling calls of amqp.Delivery. */
  datatype Call =
    | AckCall(tag: nat, multiple: bool)
    | NackCall(tag: nat, multiple: bool, requeue: bool)
    | RejectCall(tag: nat, requeue: bool)

  /** What a worker does that others can see, in order; a handler runs with so many in flight. */
  datatype Event = HandlerRan(body: string, inflight: nat) | FailHandlerRan(job: FailedJob) | Settled(call: Call)

  datatype AddError = AlreadyStarted | QueueNotFound

  function CallFor(v: Verdict, tag: nat): Call {
    match v
    case Ack => AckCall(tag, false)
    case Drop => NackCall(tag, false, false)
    case Requeue => NackCall(tag, false, true)
    case Reject => RejectCall(tag, false)
  }

  /** What handling a delivery comes to, with the count of deliveries in flight while its handler
      runs. */
  function DeliveryEvents(queue: string, retry: bool, d: Delivery, outcome: Outcome, now: int, inflight: nat)
    : seq<Event>
  {
    [HandlerRan(d.body, inflight)] + AfterHandler(queue, retry, d, outcome, now)
  }

  function AfterHandler(queue: string, retry: bool, d: Delivery, outcome: Outcome, now: int): seq<Event> {
    var decision := Decide(retry, outcome, Expired(d.headers, now));
    if decision.failed && outcome.Returned? && outcome.err.Some? then
      [FailHandlerRan(FailedJob(queue, d.body, outcome.err.value)), Settled(CallFor(decision.verdict, d.tag))]
    else
      [Settled(CallFor(decision.verdict, d.tag))]
  }

  /** The handler runs first, with this delivery's body and count; then, exactly for an error of retry
      mode that is past its deadline or not retryable, the fail handler with that error; and last and
      once a settlement of this delivery alone: Ack for nil and after the fail handler, Reject(false)
      for the other errors of retry mode, Nack(false, true) for an error without retry and
      Nack(false, false) for a panic. */
  lemma OneSettlement(queue: string, retry: bool, d: Delivery, outcome: Outcome, now: int, inflight: nat)
    ensures var es := DeliveryEvents(queue, retry, d, outcome, now, inflight);
            && |es| >= 2 && es[0] == HandlerRan(d.body, inflight)
            && (forall i :: 0 <= i < |es| ==> (es[i].HandlerRan? <==> i == 0))
            && (forall i :: 0 <= i < |es| ==> (es[i].Settled? <==> i == |es| - 1))
    ensures var es := DeliveryEvents(queue, retry, d, outcome, now, inflight);
            forall job :: FailHandlerRan(job) in es <==>
              && retry && outcome.Returned? && outcome.err.Some?
              && (Expired(d.headers, now) || !IsRetryable(outcome.err))
              && job == FailedJob(queue, d.body, outcome.err.value)
    ensures var es := DeliveryEvents(queue, retry, d, outcome, now, inflight);
            forall call :: Settled(call) in es <==> Settles(call, retry, d, outcome, Expired(d.headers, now))
  {
    var decision := Decide(retry, outcome, Expired(d.headers, now));
    var es := DeliveryEvents(queue, retry, d, outcome, now, inflight);
    if decision.failed {
      assert es == [HandlerRan(d.body, inflight), FailHandlerRan(FailedJob(queue, d.body, outcome.err.value)),
                    Settled(CallFor(decision.verdict, d.tag))];
    } else {
      assert es == [HandlerRan(d.body, inflight), Settled(CallFor(decision.verdict, d.tag))];
    }
  }

  /** The calls that settle, by how the handler ended; never more than this delivery, and never a
      Reject that requeues. */
  predicate Settles(call: Call, retry: bool, d: Delivery, outcome: Outcome, expired: bool) {
    match call
    case AckCall(tag, multiple) =>
      && tag == d.tag && !multiple && outcome.Returned?
      && (outcome.err.None? || (retry && (expired || !IsRetryable(outcome.err))))
    case RejectCall(tag, requeue) =>
      && tag == d.tag && !requeue && outcome.Returned? && outcome.err.Some?
      && retry && !expired && IsRetryable(outcome.err)
    case NackCall(tag, multiple, requeue) =>
      && tag == d.tag && !multiple
      && if requeue then outcome.Returned? && outcome.err.Some? && !retry else outcome.Panicked?
  }

  class Store {
    const queues: Queues
    const hasFailHandler: bool
    var publishers: map<string, Client>
    var consumers: map<string, seq<Client>>
    var consumersStarted: bool
    var inflight: nat
    ghost var events: seq<Event>
    /** Every consumer client whose supervisor this store has started. */
    ghost var spawned: seq<Client>

    ghost predicate Valid()
      reads this
    {
      ValidQueues(queues, hasFailHandler)
    }

    /** `newQueueStore` after validation: one idle publisher for each queue that may publish. */
    constructor (queues: Queues, hasFailHandler: bool)
      requires ValidQueues(queues, hasFailHandler)
      ensures Valid() && this.queues == queues && this.hasFailHandler == hasFailHandler
      ensures publishers.Keys == set name | name in queues && !queues[name].consumerOnly
      ensures forall name :: name in publishers ==>
                && fresh(publishers[name]) && publishers[name].Valid() && !publishers[name].onceUsed
                && publishers[name].name == name && publishers[name].retry == queues[name].retry
      ensures forall m, n :: m in publishers && n in publishers && m != n ==> publishers[m] != publishers[n]
      ensures consumers == map[] && !consumersStarted && inflight == 0 && events == [] && spawned == []
    {
      this.queues, this.hasFailHandler := queues, hasFailHandler;
      publishers, consumers, consumersStarted, inflight, events, spawned := map[], map[], false, 0, [], [];
      new;
      var rest := queues.Keys;
      while rest != {}
        invariant rest <= queues.Keys && fresh(this)
        invariant consumers == map[] && !consumersStarted && inflight == 0 && events == [] && spawned == []
        invariant publishers.Keys == set name | name in queues.Keys - rest && !queues[name].consumerOnly
        invariant forall name :: name in publishers ==>
                    && fresh(publishers[name]) && publishers[name].Valid() && !publishers[name].onceUsed
                    && publishers[name].name == name && publishers[name].retry == queues[name].retry
        invariant forall m, n :: m in publishers && n in publishers && m != n ==> publishers[m] != publishers[n]
        decreases rest
      {
        var name :| name in rest;
        if !queues[name].consumerOnly {
          var channelFault: bool, connectionFault: bool := *, *;
          var clnt := new Client(name, queues[name].retry, channelFault, connectionFault);
          publishers := publishers[name := clnt];
        }
        rest := rest - {name};
      }
    }

    // ---- Registration --------------------------------------------------------------------------------------

    /** `addConsumerClient`. */
    method AddConsumerClient(name: string) returns (err: Option<AddError>, clnt: Client?)
      modifies this`spawned
      ensures err.Some? ==> spawned == old(spawned)
      ensures err == if name in queues then None else Some(QueueNotFound)
      ensures err.None? ==>
                && clnt != null && fresh(clnt) && clnt.Valid() && !clnt.onceUsed
                && clnt.name == name && clnt.retry == queues[name].retry
                && spawned == old(spawned) + [clnt]
    {
      if name !in queues { return Some(QueueNotFound), null; }
      var channelFault: bool, connectionFault: bool := *, *;
      clnt := new Client(name, queues[name].retry, channelFault, connectionFault);
      spawned := spawned + [clnt];
      err := None;
    }

    /** `AddConsumerN`, when another caller starts the consumers while the clients are being made,
        and when none does. All or nothing: on nil exactly max(1, n) fresh clients come after those
        registered before; on an error the registry is as it was and every client whose supervisor
        the call started is closed. */
    method AddConsumerN(name: string, parallelism: int, startedMeanwhile: bool)
      returns (err: Option<AddError>, ghost made: seq<Client>)
      modifies this`consumers, this`consumersStarted, this`spawned
      ensures spawned == old(spawned) + made
      ensures |made| == if old(consumersStarted) || name !in queues then 0
                        else if parallelism <= 0 then 1 else parallelism
      ensures err == if old(consumersStarted) then Some(AlreadyStarted)
                     else if name !in queues then Some(QueueNotFound)
                     else if startedMeanwhile then Some(AlreadyStarted) else None
      ensures forall i :: 0 <= i < |made| ==>
                && fresh(made[i]) && made[i].Valid()
                && made[i].name == name && name in queues && made[i].retry == queues[name].retry
                && made[i].done == err.Some?
      ensures forall i, j :: 0 <= i < j < |made| ==> made[i] != made[j]
      ensures consumersStarted == (old(consumersStarted) || (startedMeanwhile && name in queues))
      ensures err.Some? ==> consumers == old(consumers)
      ensures err.None? ==> consumers == old(consumers)[name := old(RegisteredFor(name)) + made]
    {
      made := [];
      if consumersStarted { return Some(AlreadyStarted), made; }
      if name !in queues { return Some(QueueNotFound), made; }
      var count := if parallelism <= 0 then 1 else parallelism;
      var clients: seq<Client> := [];
      for k := 0 to count
        invariant |clients| == k && consumers == old(consumers) && consumersStarted == old(consumersStarted)
        invariant spawned == old(spawned) + clients
        invariant Idle(clients, name) && forall i :: 0 <= i < k ==> fresh(clients[i])
      {
        var addErr, clnt := AddConsumerClient(name);
        clients := clients + [clnt];
      }
      made := clients;
      if startedMeanwhile { consumersStarted := true; }
      if consumersStarted {
        for k := 0 to |clients|
          invariant consumers == old(consumers) && consumersStarted && spawned == old(spawned) + clients
          invariant forall i :: 0 <= i < |clients| ==>
                      clients[i].Valid() && fresh(clients[i]) && (i < k ==> clients[i].done)
        {
          var _ := clients[k].Close();
        }
        return Some(AlreadyStarted), made;
      }
      consumers := consumers[name := RegisteredFor(name) + clients];
      return None, made;
    }

    function RegisteredFor(name: string): seq<Client>
      reads this
    {
      if name in consumers then consumers[name] else []
    }

    ghost predicate Idle(clients: seq<Client>, name: string)
      requires name in queues
      reads clients
    {
      && (forall i :: 0 <= i < |clients| ==>
            && clients[i].Valid() && !clients[i].onceUsed
            && clients[i].name == name && clients[i].retry == queues[name].retry)
      && (forall i, j :: 0 <= i < j < |clients| ==> clients[i] != clients[j])
    }

    // ---- Deliveries ----------------------------------------------------------------------------------------

    /** `handleDelivery`: the events are those of the specification, the handler runs while this
        delivery is counted in flight too, and the count is restored on every path. */
    method HandleDelivery(clnt: Client, d: Delivery, outcome: Outcome, now: int)
      requires Valid() && clnt.name in queues && clnt.retry == queues[clnt.name].retry
      modifies this`inflight, this`events
      ensures events == old(events) + DeliveryEvents(clnt.name, clnt.retry.Some?, d, outcome, now, old(inflight) + 1)
      ensures inflight == old(inflight)
    {
      inflight := inflight + 1;
      var expired := ExtractExpiredHeader(clnt, d);
      events := events + [HandlerRan(d.body, inflight)];
      match outcome {
        case Panicked =>
          events := events + [Settled(NackCall(d.tag, false, false))];
        case Returned(None) =>
          events := events + [Settled(AckCall(d.tag, false))];
        case Returned(Some(err)) =>
          HandleConsumerError(clnt, d, expired, err, now);
      }
      inflight := inflight - 1;
      Associative(old(events), [HandlerRan(d.body, old(inflight) + 1)],
                  AfterHandler(clnt.name, clnt.retry.Some?, d, outcome, now));
    }

    method ExtractExpiredHeader(clnt: Client, d: Delivery) returns (expired: string)
      ensures expired == TextAt(d.headers, EXPIRED)
    {
      if clnt.retry.None? {
        if EXPIRED in d.headers && d.headers[EXPIRED].Text? { return d.headers[EXPIRED].text; }
        return "";
      }
      if EXPIRED in d.headers && d.headers[EXPIRED].Text? && d.headers[EXPIRED].text != "" {
        return d.headers[EXPIRED].text;
      }
      return "";
    }

    method HandleConsumerError(clnt: Client, d: Delivery, expired: string, err: Error, now: int)
      requires Valid() && clnt.name in queues && clnt.retry == queues[clnt.name].retry
      requires expired == TextAt(d.headers, EXPIRED)
      modifies this`events
      ensures events == old(events) + AfterHandler(clnt.name, clnt.retry.Some?, d, Returned(Some(err)), now)
    {
      var retryable := IsRetryable(Some(err));
      if clnt.retry.Some? {
        HandleRetryError(clnt, d, expired, err, retryable, now);
        return;
      }
      events := events + [Settled(NackCall(d.tag, false, true))];
    }

    method HandleRetryError(clnt: Client, d: Delivery, expired: string, err: Error, retryable: bool, now: int)
      requires Valid() && clnt.name in queues && clnt.retry == queues[clnt.name].retry && clnt.retry.Some?
      modifies this`events
      ensures events == old(events)
                        + (if (expired == "" || Stamp.IsExpired(expired, now)) || !retryable
                           then [FailHandlerRan(FailedJob(clnt.name, d.body, err)), Settled(AckCall(d.tag, false))]
                           else [Settled(RejectCall(d.tag, false))])
    {
      var isExpired := expired == "" || Stamp.IsExpired(expired, now);
      if isExpired || !retryable {
        FinalizeFailedRetry(clnt, d, err);
        return;
      }
      events := events + [Settled(RejectCall(d.tag, false))];
    }

    /** `finalizeFailedRetry`: validation is what makes the fail handler non-nil here. */
    method FinalizeFailedRetry(clnt: Client, d: Delivery, err: Error)
      requires Valid() && clnt.name in queues && queues[clnt.name].retry.Some?
      modifies this`events
      ensures events == old(events)
                        + [FailHandlerRan(FailedJob(clnt.name, d.body, err)), Settled(AckCall(d.tag, false))]
    {
      if hasFailHandler {
        events := events + [FailHandlerRan(FailedJob(clnt.name, d.body, err))];
      }
      events := events + [Settled(AckCall(d.tag, false))];
    }
  }
}
