/** Every run of the delayed-retry protocol: publishers, workers, handlers, settlements, the
    broker's queues and time, interleaved step by step (client.go, delivery.go,
    consumer_loop.go). Times are nanoseconds on one clock that never goes back. */
module RetryProtocol {
  import opened Basics
  import opened Configuration
  import opened Tables
  import opened Topology
  import opened Settlement

  /** Ready in its queue; delivered on a channel of a worker, perhaps with a settlement sent
      but not yet processed; or waiting for its time to live to end. */
  datatype Status =
    | Ready
    | Held(worker: nat, channel: nat, sent: Option<Verdict>)
    | Delayed(until: int)

  datatype Place = Place(queue: string, status: Status)

  /** A copy accepted by the broker, all places it is in, and its history: how often it was
      acknowledged, discarded, delivered, rejected, dropped after a panic, requeued after an
      error, and requeued because its channel was lost; whether a handler returned nil for it
      and whether the fail handler was called with it. */
  datatype Copy = Copy(
    home: string, body: string, headers: Table, acceptedAt: int,
    places: multiset<Place>, acked: nat, discarded: nat,
    deliveries: nat, rejected: nat, panicked: nat, requeued: nat, lost: nat,
    handled: bool, failed: bool)

  datatype Parcel = Parcel(id: nat, channel: nat)

  /** Where a worker is in its loop: between deliveries, inside the handler, or returning from
      handleDelivery after the settlement call. */
  datatype Task = Idle | Busy(parcel: Parcel) | Settled

  datatype Worker = Worker(channel: nat, open: bool, inbox: Option<Parcel>, task: Task)

  /** A call of the fail handler: the queue and the body of the failed copy. */
  datatype Failure = Failure(queue: string, body: string)

  datatype State = State(
    setup: Setup, clock: int, copies: map<nat, Copy>, workers: map<nat, Worker>,
    inflight: int, failLog: seq<Failure>)

  /** The configuration and the queue each client (publisher or worker) serves. */
  datatype World = World(queues: Queues, clients: map<nat, string>)

  datatype Step =
    | Tick(elapsed: nat)
    | Declare(step: SetupStep)
    | Accept(id: nat, client: nat, body: string, headers: Table)
    | StartWorker(worker: nat)
    | Subscribe(worker: nat)
    | LoseChannel(worker: nat)
    | Deliver(id: nat, worker: nat)
    | Enter(worker: nat)
    | Finish(worker: nat, outcome: Outcome)
    | Leave(worker: nat)
    | Process(id: nat, place: Place)
    | Return(id: nat, place: Place)
    | Expire(id: nat, place: Place)

  function Home(w: World, worker: nat): string {
    if worker in w.clients then w.clients[worker] else ""
  }

  predicate Up(w: World, s: State, client: nat) {
    && client in w.clients && client in s.setup.progress && w.clients[client] in w.queues
    && s.setup.progress[client] == |Program(w.clients[client], w.queues[w.clients[client]].retry)|
  }

  /** A message entering a queue waits there when the queue has a time to live. */
  function Arrival(b: Broker, clock: int, queue: string): Status {
    if queue in b.queues && b.queues[queue].ttlMillis.Some?
    then Delayed(clock + b.queues[queue].ttlMillis.value * MILLISECOND)
    else Ready
  }

  function Arrivals(b: Broker, clock: int, targets: set<string>): multiset<Place> {
    multiset(set q | q in targets :: Place(q, Arrival(b, clock, q)))
  }

  function Moved(c: Copy, from: Place, to: Status): Copy {
    c.(places := c.places - multiset{from} + multiset{Place(from.queue, to)})
  }

  function DeliveredTo(c: Copy, from: Place, worker: nat, channel: nat): Copy {
    Moved(c, from, Held(worker, channel, None)).(deliveries := c.deliveries + 1)
  }

  /** The broker takes back a delivery whose channel is gone. */
  function GivenBack(c: Copy, from: Place): Copy {
    Moved(c, from, Ready).(lost := c.lost + 1)
  }

  /** Dead-lettering puts the message wherever the topology says, or discards it. */
  function DeadLettered(b: Broker, clock: int, c: Copy, from: Place): Copy {
    var targets := DeadLetterTargets(b, from.queue);
    c.(places := c.places - multiset{from} + Arrivals(b, clock, targets),
       discarded := c.discarded + (if targets == {} then 1 else 0))
  }

  /** The broker's part of a settlement. */
  function Processed(b: Broker, clock: int, c: Copy, from: Place, verdict: Verdict): Copy {
    match verdict
    case Ack => c.(places := c.places - multiset{from}, acked := c.acked + 1)
    case Requeue => Moved(c, from, Ready).(requeued := c.requeued + 1)
    case Reject => DeadLettered(b, clock, c, from).(rejected := c.rejected + 1)
    case Drop => DeadLettered(b, clock, c, from).(panicked := c.panicked + 1)
  }

  /** The copy is delivered on the given channel of the worker and not yet settled. */
  ghost predicate OutTo(c: Copy, worker: nat, channel: nat) {
    exists p :: p in c.places && p.status.Held? && p.status.worker == worker && p.status.channel == channel
  }

  /** No copy is out on the current channel of the worker: the QoS limit of one. */
  ghost predicate Unoccupied(s: State, worker: nat)
    requires worker in s.workers
  {
    forall id :: id in s.copies ==> !OutTo(s.copies[id], worker, s.workers[worker].channel)
  }

  ghost predicate CanDeliver(w: World, s: State, id: nat, k: nat) {
    && id in s.copies && k in s.workers && s.workers[k].open && s.workers[k].inbox.None?
    && Place(Home(w, k), Ready) in s.copies[id].places && Unoccupied(s, k)
  }

  predicate CanFinish(s: State, k: nat) {
    k in s.workers && s.workers[k].task.Busy? && s.workers[k].task.parcel.id in s.copies
  }

  ghost predicate Enabled(w: World, s: State, step: Step) {
    match step
    case Tick(_) => true
    case Declare(d) => NextSetup(w.queues, w.clients, s.setup, d).Some?
    case Accept(id, client, _, _) => id !in s.copies && Up(w, s, client)
    case StartWorker(k) => k in w.clients && k !in s.workers
    case Subscribe(k) => k in s.workers && !s.workers[k].open && s.workers[k].task.Idle? && Up(w, s, k)
    case LoseChannel(k) => k in s.workers && s.workers[k].open
    case Deliver(id, k) => CanDeliver(w, s, id, k)
    case Enter(k) => k in s.workers && s.workers[k].task.Idle? && s.workers[k].inbox.Some?
    case Finish(k, _) => CanFinish(s, k)
    case Leave(k) => k in s.workers && s.workers[k].task.Settled?
    case Process(id, p) =>
      && id in s.copies && p in s.copies[id].places && p.status.Held? && p.status.sent.Some?
      && p.status.worker in s.workers && s.workers[p.status.worker].open
      && s.workers[p.status.worker].channel == p.status.channel
    case Return(id, p) =>
      && id in s.copies && p in s.copies[id].places && p.status.Held?
      && p.status.worker in s.workers
      && !(s.workers[p.status.worker].open && s.workers[p.status.worker].channel == p.status.channel)
    case Expire(id, p) =>
      && id in s.copies && p in s.copies[id].places && p.status.Delayed? && s.clock >= p.status.until
  }

  function Retrying(w: World, queue: string): bool {
    IsRetry(w.queues, queue)
  }

  function DecisionFor(w: World, c: Copy, outcome: Outcome, clock: int): Decision {
    Decide(Retrying(w, c.home), outcome, Expired(c.headers, clock))
  }

  /** The copy after handleDelivery: the settlement travels on the channel of the delivery, and
      is lost when that delivery is no longer out. */
  function Concluded(c: Copy, worker: nat, channel: nat, outcome: Outcome, decision: Decision): Copy {
    var from := Place(c.home, Held(worker, channel, None));
    var c' := if from in c.places then Moved(c, from, Held(worker, channel, Some(decision.verdict))) else c;
    c'.(handled := c.handled || outcome == Returned(None), failed := c.failed || decision.failed)
  }

  function Put(s: State, id: nat, c: Copy): State {
    s.(copies := s.copies[id := c])
  }

  function PutWorker(s: State, k: nat, x: Worker): State {
    s.(workers := s.workers[k := x])
  }

  function AfterDeliver(w: World, s: State, id: nat, k: nat): State
    requires id in s.copies && k in s.workers
  {
    var channel := s.workers[k].channel;
    PutWorker(Put(s, id, DeliveredTo(s.copies[id], Place(Home(w, k), Ready), k, channel)), k,
              s.workers[k].(inbox := Some(Parcel(id, channel))))
  }

  /** The handler ended: the decision is taken at the clock of this step, the fail handler is
      called if it says so, and the settlement is sent. */
  function AfterFinish(w: World, s: State, k: nat, outcome: Outcome): State
    requires CanFinish(s, k)
  {
    var parcel := s.workers[k].task.parcel;
    var c := s.copies[parcel.id];
    var decision := DecisionFor(w, c, outcome, s.clock);
    PutWorker(Put(s, parcel.id, Concluded(c, k, parcel.channel, outcome, decision)), k,
              s.workers[k].(task := Settled))
      .(failLog := if decision.failed then s.failLog + [Failure(c.home, c.body)] else s.failLog)
  }

  ghost function Next(w: World, s: State, step: Step): State
    requires Enabled(w, s, step)
  {
    match step
    case Tick(elapsed) => s.(clock := s.clock + elapsed)
    case Declare(d) => s.(setup := NextSetup(w.queues, w.clients, s.setup, d).value)
    case Accept(id, client, body, headers) =>
      Put(s, id, NewCopy(s.setup.broker, s.clock, w.clients[client], body, headers))
    case StartWorker(k) => PutWorker(s, k, Worker(0, false, None, Idle))
    case Subscribe(k) => PutWorker(s, k, Worker(s.workers[k].channel + 1, true, None, Idle))
    case LoseChannel(k) => PutWorker(s, k, s.workers[k].(open := false))
    case Deliver(id, k) => AfterDeliver(w, s, id, k)
    case Enter(k) =>
      PutWorker(s, k, s.workers[k].(inbox := None, task := Busy(s.workers[k].inbox.value)))
        .(inflight := s.inflight + 1)
    case Finish(k, outcome) => AfterFinish(w, s, k, outcome)
    case Leave(k) => PutWorker(s, k, s.workers[k].(task := Idle)).(inflight := s.inflight - 1)
    case Process(id, p) =>
      Put(s, id, Processed(s.setup.broker, s.clock, s.copies[id], p, p.status.sent.value))
    case Return(id, p) =>
      Put(s, id, GivenBack(s.copies[id], p))
    case Expire(id, p) =>
      Put(s, id, DeadLettered(s.setup.broker, s.clock, s.copies[id], p))
  }

  /** A publish through the default exchange with the queue's name as routing key. */
  function NewCopy(b: Broker, clock: int, home: string, body: string, headers: Table): Copy {
    Copy(home, body, headers, clock, Arrivals(b, clock, DefaultTargets(b, home)),
         0, 0, 0, 0, 0, 0, 0, false, false)
  }

  function Initial(w: World, clock: int): State {
    State(InitialSetup(w.clients), clock, map[], map[], 0, [])
  }

  /** steps can be taken one after the other from s and lead to t. */
  ghost predicate Runs(w: World, s: State, steps: seq<Step>, t: State)
    decreases |steps|
  {
    if steps == [] then s == t
    else Enabled(w, s, steps[0]) && Runs(w, Next(w, s, steps[0]), steps[1..], t)
  }

  /** A configuration that New accepts, without a clash of names, and clients that serve it. */
  ghost predicate ValidWorld(w: World) {
    ValidQueues(w.queues, true) && NoClash(w.queues) && Serves(w.queues, w.clients)
  }

  // ---- The invariant -------------------------------------------------------------------------------

  /** The time to live of a retry queue. */
  function TtlOf(w: World, queue: string): int
    requires IsRetry(w.queues, queue)
  {
    Ttl(w.queues[queue].retry.value)
  }

  /** The earliest time at which the copy can be handled after its rejections so far. */
  function Due(w: World, c: Copy): int {
    if IsRetry(w.queues, c.home) then c.acceptedAt + c.rejected * TtlOf(w, c.home) else c.acceptedAt
  }

  ghost predicate PlaceInv(w: World, clock: int, c: Copy, p: Place) {
    match p.status
    case Ready => p.queue == c.home && clock >= Due(w, c)
    case Held(_, _, sent) =>
      && p.queue == c.home && clock >= Due(w, c)
      && (sent == Some(Ack) ==> Excused(w, c))
      && (sent == Some(Requeue) ==> !IsRetry(w.queues, c.home))
      && (sent == Some(Reject) ==> IsRetry(w.queues, c.home) && !Expired(c.headers, Due(w, c)))
    case Delayed(until) => IsRetry(w.queues, c.home) && p.queue == Delay(c.home) && until >= Due(w, c)
  }

  /** Why a copy may be acknowledged. */
  predicate Excused(w: World, c: Copy) {
    c.handled || (c.failed && IsRetry(w.queues, c.home))
  }

  ghost function Out(c: Copy): nat {
    if exists p :: p in c.places && p.status.Held? then 1 else 0
  }

  /** One copy, one place; every delivery came back in one of five ways. */
  ghost predicate CopyInv(w: World, b: Broker, clock: int, c: Copy) {
    && c.home in w.queues
    && HoldsAll(b, Program(c.home, w.queues[c.home].retry))
    && c.acceptedAt <= clock
    && |c.places| + c.acked + c.discarded == 1
    && (forall p :: p in c.places ==> PlaceInv(w, clock, c, p))
    && c.deliveries == c.acked + c.rejected + c.panicked + c.requeued + c.lost + Out(c)
    && (c.acked > 0 ==> Excused(w, c))
    && (c.discarded > 0 ==> !IsRetry(w.queues, c.home) && c.panicked > 0)
    && (!IsRetry(w.queues, c.home) ==> c.rejected == 0 && !c.failed)
    && (IsRetry(w.queues, c.home) ==> c.requeued == 0)
    && (c.rejected > 0 && IsRetry(w.queues, c.home) ==>
          !Expired(c.headers, Due(w, c) - TtlOf(w, c.home)))
  }
}
