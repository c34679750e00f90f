/** The invariant of the retry protocol holds in every reachable state. */
module RetryInvariant {
  import opened Basics
  import opened Configuration
  import opened Tables
  import opened Topology
  import opened Settlement
  import opened RetryProtocol

  // ---- One copy --------------------------------------------------------------------------------

  lemma OnlyPlace(c: Copy, p: Place)
    requires p in c.places && |c.places| <= 1
    ensures c.places == multiset{p}
  {
    assert |c.places - multiset{p}| == 0;
    assert c.places == (c.places - multiset{p}) + multiset{p};
  }

  lemma MovedPlaces(c: Copy, p: Place, to: Status)
    requires c.places == multiset{p}
    ensures Moved(c, p, to).places == multiset{Place(p.queue, to)}
  {
  }

  lemma OutOf(c: Copy, p: Place)
    requires c.places == multiset{p}
    ensures Out(c) == if p.status.Held? then 1 else 0
  {
    assert p in c.places;
  }

  lemma ArrivalsAt(b: Broker, clock: int, targets: set<string>, q: string)
    requires targets == {q}
    ensures Arrivals(b, clock, targets) == multiset{Place(q, Arrival(b, clock, q))}
  {
    assert (set x | x in targets :: Place(x, Arrival(b, clock, x))) == {Place(q, Arrival(b, clock, q))};
  }

  lemma DeadLetteredPlaces(b: Broker, clock: int, c: Copy, p: Place)
    requires c.places == multiset{p}
    ensures forall q :: DeadLetterTargets(b, p.queue) == {q} ==>
              && DeadLettered(b, clock, c, p).places == multiset{Place(q, Arrival(b, clock, q))}
              && DeadLettered(b, clock, c, p).discarded == c.discarded
    ensures DeadLetterTargets(b, p.queue) == {} ==>
              && DeadLettered(b, clock, c, p).places == multiset{}
              && DeadLettered(b, clock, c, p).discarded == c.discarded + 1
  {
    forall q | DeadLetterTargets(b, p.queue) == {q}
      ensures DeadLettered(b, clock, c, p).places == multiset{Place(q, Arrival(b, clock, q))}
    {
      ArrivalsAt(b, clock, DeadLetterTargets(b, p.queue), q);
    }
  }

  /** What CopyInv says of a copy known to be in one place. */
  ghost predicate CopyInvAt(w: World, b: Broker, clock: int, c: Copy, p: Place) {
    && c.home in w.queues
    && HoldsAll(b, Program(c.home, w.queues[c.home].retry))
    && c.acceptedAt <= clock
    && c.places == multiset{p} && c.acked == 0 && c.discarded == 0
    && PlaceInv(w, clock, c, p)
    && c.deliveries == c.rejected + c.panicked + c.requeued + c.lost + (if p.status.Held? then 1 else 0)
    && HistoryInv(w, c)
  }

  ghost predicate HistoryInv(w: World, c: Copy)
    requires c.home in w.queues
  {
    && (!IsRetry(w.queues, c.home) ==> c.rejected == 0 && !c.failed)
    && (IsRetry(w.queues, c.home) ==> c.requeued == 0)
    && (c.rejected > 0 && IsRetry(w.queues, c.home) ==> !Expired(c.headers, Due(w, c) - TtlOf(w, c.home)))
  }

  lemma CopyInvFromAt(w: World, b: Broker, clock: int, c: Copy, p: Place)
    requires CopyInvAt(w, b, clock, c, p)
    ensures CopyInv(w, b, clock, c)
  {
    OutOf(c, p);
  }

  lemma CopyInvToAt(w: World, b: Broker, clock: int, c: Copy, p: Place)
    requires CopyInv(w, b, clock, c) && p in c.places
    ensures CopyInvAt(w, b, clock, c, p)
  {
    OnlyPlace(c, p);
    OutOf(c, p);
  }

  lemma CopyInvGone(w: World, b: Broker, clock: int, c: Copy)
    requires c.home in w.queues && HoldsAll(b, Program(c.home, w.queues[c.home].retry))
    requires c.acceptedAt <= clock && HistoryInv(w, c)
    requires c.places == multiset{} && c.acked + c.discarded == 1
    requires c.deliveries == c.acked + c.rejected + c.panicked + c.requeued + c.lost
    requires c.acked > 0 ==> Excused(w, c)
    requires c.discarded > 0 ==> !IsRetry(w.queues, c.home) && c.panicked > 0
    ensures CopyInv(w, b, clock, c)
  {
  }

  lemma CopyInvLater(w: World, b: Broker, clock: int, b': Broker, clock': int, c: Copy)
    requires CopyInv(w, b, clock, c) && clock <= clock'
    requires forall op :: Holds(b, op) ==> Holds(b', op)
    ensures CopyInv(w, b', clock', c)
  {
  }

  lemma NewCopyInv(w: World, b: Broker, clock: int, home: string, body: string, headers: Table)
    requires NoClash(w.queues) && Within(b, w.queues)
    requires home in w.queues && HoldsAll(b, Program(home, w.queues[home].retry))
    ensures CopyInv(w, b, clock, NewCopy(b, clock, home, body, headers))
  {
    DeadLetterCycle(b, w.queues, home);
    HeldItems(b, w.queues, home);
    ArrivalsAt(b, clock, {home}, home);
    CopyInvFromAt(w, b, clock, NewCopy(b, clock, home, body, headers), Place(home, Ready));
  }

  lemma DeliverKeeps(w: World, b: Broker, clock: int, c: Copy, worker: nat, channel: nat)
    requires CopyInv(w, b, clock, c) && Place(c.home, Ready) in c.places
    ensures CopyInv(w, b, clock, DeliveredTo(c, Place(c.home, Ready), worker, channel))
  {
    var p := Place(c.home, Ready);
    CopyInvToAt(w, b, clock, c, p);
    MovedPlaces(c, p, Held(worker, channel, None));
    CopyInvFromAt(w, b, clock, DeliveredTo(c, p, worker, channel), Place(c.home, Held(worker, channel, None)));
  }

  lemma ReturnKeeps(w: World, b: Broker, clock: int, c: Copy, p: Place)
    requires CopyInv(w, b, clock, c) && p in c.places && p.status.Held?
    ensures CopyInv(w, b, clock, GivenBack(c, p))
  {
    CopyInvToAt(w, b, clock, c, p);
    MovedPlaces(c, p, Ready);
    CopyInvFromAt(w, b, clock, GivenBack(c, p), Place(p.queue, Ready));
  }

  lemma EarlierIsNotExpired(headers: Table, earlier: int, now: int)
    requires earlier <= now && !Expired(headers, now)
    ensures !Expired(headers, earlier)
  {
    if Expired(headers, earlier) { ExpiredIsMonotone(headers, earlier, now); }
  }

  /** The settlement that the decision sends is one the invariant allows. */
  lemma ConcludeKeeps(w: World, b: Broker, clock: int, c: Copy, worker: nat, channel: nat, outcome: Outcome)
    requires CopyInv(w, b, clock, c)
    ensures CopyInv(w, b, clock, Concluded(c, worker, channel, outcome, DecisionFor(w, c, outcome, clock)))
  {
    var d := DecisionFor(w, c, outcome, clock);
    var from := Place(c.home, Held(worker, channel, None));
    if from in c.places {
      SentKeeps(w, b, clock, c, worker, channel, outcome);
    } else {
      NotedKeeps(w, b, clock, c, outcome == Returned(None), d.failed);
    }
  }

  lemma NotedKeeps(w: World, b: Broker, clock: int, c: Copy, handled: bool, failed: bool)
    requires CopyInv(w, b, clock, c) && (failed ==> IsRetry(w.queues, c.home))
    ensures CopyInv(w, b, clock, c.(handled := c.handled || handled, failed := c.failed || failed))
  {
    var c' := c.(handled := c.handled || handled, failed := c.failed || failed);
    assert Out(c') == Out(c);
    forall p | p in c'.places ensures PlaceInv(w, clock, c', p) {
      assert PlaceInv(w, clock, c, p);
    }
  }

  lemma SentKeeps(w: World, b: Broker, clock: int, c: Copy, worker: nat, channel: nat, outcome: Outcome)
    requires CopyInv(w, b, clock, c) && Place(c.home, Held(worker, channel, None)) in c.places
    ensures CopyInv(w, b, clock, Concluded(c, worker, channel, outcome, DecisionFor(w, c, outcome, clock)))
  {
    var d := DecisionFor(w, c, outcome, clock);
    var from := Place(c.home, Held(worker, channel, None));
    var to := Place(c.home, Held(worker, channel, Some(d.verdict)));
    CopyInvToAt(w, b, clock, c, from);
    MovedPlaces(c, from, to.status);
    if d.verdict == Reject { EarlierIsNotExpired(c.headers, Due(w, c), clock); }
    CopyInvFromAt(w, b, clock, Concluded(c, worker, channel, outcome, d), to);
  }

  lemma DueAfterRejection(w: World, c: Copy, c': Copy)
    requires IsRetry(w.queues, c.home) && c'.home == c.home
    requires c'.acceptedAt == c.acceptedAt && c'.rejected == c.rejected + 1
    ensures Due(w, c') == Due(w, c) + TtlOf(w, c.home)
  {
    assert (c.rejected + 1) * TtlOf(w, c.home) == c.rejected * TtlOf(w, c.home) + TtlOf(w, c.home);
  }

  /** What a retry queue's dead letter looks like after the broker moved it. */
  lemma RetryDeadLetter(w: World, b: Broker, clock: int, c: Copy, p: Place)
    requires NoClash(w.queues) && Within(b, w.queues) && IsRetry(w.queues, c.home)
    requires HoldsAll(b, Program(c.home, w.queues[c.home].retry))
    requires c.places == multiset{p} && p.queue == c.home
    ensures DeadLettered(b, clock, c, p)
            == c.(places := multiset{Place(Delay(c.home), Delayed(clock + TtlOf(w, c.home)))})
  {
    DeadLetterCycle(b, w.queues, c.home);
    HeldItems(b, w.queues, c.home);
    DeadLetteredPlaces(b, clock, c, p);
  }

  lemma RejectKeeps(w: World, b: Broker, clock: int, c: Copy, p: Place)
    requires NoClash(w.queues) && Within(b, w.queues)
    requires CopyInv(w, b, clock, c) && p in c.places
    requires p.status.Held? && p.status.sent == Some(Reject)
    ensures CopyInv(w, b, clock, Processed(b, clock, c, p, Reject))
  {
    CopyInvToAt(w, b, clock, c, p);
    RetryDeadLetter(w, b, clock, c, p);
    var c' := Processed(b, clock, c, p, Reject);
    DueAfterRejection(w, c, c');
    CopyInvFromAt(w, b, clock, c', Place(Delay(c.home), Delayed(clock + TtlOf(w, c.home))));
  }

  lemma DropKeeps(w: World, b: Broker, clock: int, c: Copy, p: Place)
    requires NoClash(w.queues) && Within(b, w.queues) && ValidQueues(w.queues, true)
    requires CopyInv(w, b, clock, c) && p in c.places
    requires p.status.Held? && p.status.sent == Some(Drop)
    ensures CopyInv(w, b, clock, Processed(b, clock, c, p, Drop))
  {
    CopyInvToAt(w, b, clock, c, p);
    var c' := Processed(b, clock, c, p, Drop);
    if IsRetry(w.queues, c.home) {
      RetryDeadLetter(w, b, clock, c, p);
      TtlOfValidQueue(w.queues, true, c.home);
      CopyInvFromAt(w, b, clock, c', Place(Delay(c.home), Delayed(clock + TtlOf(w, c.home))));
    } else {
      DeadLetterCycle(b, w.queues, c.home);
      DeadLetteredPlaces(b, clock, c, p);
      CopyInvGone(w, b, clock, c');
    }
  }

  lemma ProcessKeeps(w: World, b: Broker, clock: int, c: Copy, p: Place)
    requires NoClash(w.queues) && Within(b, w.queues) && ValidQueues(w.queues, true)
    requires CopyInv(w, b, clock, c) && p in c.places && p.status.Held? && p.status.sent.Some?
    ensures CopyInv(w, b, clock, Processed(b, clock, c, p, p.status.sent.value))
  {
    match p.status.sent.value
    case Reject => RejectKeeps(w, b, clock, c, p);
    case Drop => DropKeeps(w, b, clock, c, p);
    case Ack =>
      CopyInvToAt(w, b, clock, c, p);
      CopyInvGone(w, b, clock, Processed(b, clock, c, p, Ack));
    case Requeue =>
      CopyInvToAt(w, b, clock, c, p);
      MovedPlaces(c, p, Ready);
      CopyInvFromAt(w, b, clock, Processed(b, clock, c, p, Requeue), Place(p.queue, Ready));
  }

  lemma ExpireKeeps(w: World, b: Broker, clock: int, c: Copy, p: Place)
    requires NoClash(w.queues) && Within(b, w.queues)
    requires CopyInv(w, b, clock, c) && p in c.places
    requires p.status.Delayed? && clock >= p.status.until
    ensures CopyInv(w, b, clock, DeadLettered(b, clock, c, p))
  {
    CopyInvToAt(w, b, clock, c, p);
    DeadLetterCycle(b, w.queues, c.home);
    HeldItems(b, w.queues, c.home);
    DeadLetteredPlaces(b, clock, c, p);
    CopyInvFromAt(w, b, clock, DeadLettered(b, clock, c, p), Place(c.home, Ready));
  }

  // ---- The whole state --------------------------------------------------------------------------------

  /** Workers inside handleDelivery. */
  function Inside(s: State): set<nat> {
    set k | k in s.workers && !s.workers[k].task.Idle?
  }

  ghost predicate CopiesInv(w: World, s: State) {
    && SetupInv(w.queues, w.clients, s.setup)
    && forall id :: id in s.copies ==> CopyInv(w, s.setup.broker, s.clock, s.copies[id])
  }

  ghost predicate TokenOk(w: World, s: State, id: nat, k: nat, channel: nat)
    requires id in s.copies
  {
    k in s.workers && channel <= s.workers[k].channel && Home(w, k) == s.copies[id].home
  }

  /** Deliveries are out to started workers of the right queue, one per channel. */
  ghost predicate TokensInv(w: World, s: State) {
    && (forall id, k, channel :: id in s.copies && OutTo(s.copies[id], k, channel) ==> TokenOk(w, s, id, k, channel))
    && (forall id, id', k, channel ::
          (id in s.copies && id' in s.copies && OutTo(s.copies[id], k, channel) && OutTo(s.copies[id'], k, channel))
          ==> id == id')
  }

  ghost predicate ParcelOk(w: World, s: State, k: nat, parcel: Parcel) {
    parcel.id in s.copies && s.copies[parcel.id].home == Home(w, k)
  }

  ghost predicate ParcelsOk(w: World, s: State, k: nat) {
    && k in s.workers && k in w.clients
    && (s.workers[k].inbox.Some? ==> ParcelOk(w, s, k, s.workers[k].inbox.value))
    && (s.workers[k].task.Busy? ==> ParcelOk(w, s, k, s.workers[k].task.parcel))
  }

  ghost predicate WorkersInv(w: World, s: State) {
    && s.inflight == |Inside(s)|
    && s.workers.Keys <= w.clients.Keys
    && (forall k :: k in s.workers ==> ParcelsOk(w, s, k))
  }

  /** The fail handler is called for retry queues only, with the body of the failed copy. */
  ghost predicate FailInv(w: World, s: State) {
    && (forall job :: job in s.failLog ==> IsRetry(w.queues, job.queue))
    && (forall id :: id in s.copies && s.copies[id].failed ==>
          Failure(s.copies[id].home, s.copies[id].body) in s.failLog)
  }

  ghost predicate Inv(w: World, s: State) {
    CopiesInv(w, s) && TokensInv(w, s) && WorkersInv(w, s) && FailInv(w, s)
  }

  lemma InitialInv(w: World, clock: int)
    requires ValidWorld(w)
    ensures Inv(w, Initial(w, clock))
  {
  }

  /** What the lemmas below need to know of a state change that leaves the copies alone. */
  ghost predicate CopiesUntouched(w: World, s: State, s': State) {
    && SetupInv(w.queues, w.clients, s'.setup) && s.clock <= s'.clock
    && (forall op :: Holds(s.setup.broker, op) ==> Holds(s'.setup.broker, op))
    && s'.copies == s.copies && s'.failLog == s.failLog
    && WorkersGrow(s, s')
  }

  ghost predicate WorkersGrow(s: State, s': State) {
    && s.workers.Keys <= s'.workers.Keys
    && forall k :: k in s.workers ==> s.workers[k].channel <= s'.workers[k].channel
  }

  lemma UntouchedCopies(w: World, s: State, s': State)
    requires CopiesInv(w, s) && CopiesUntouched(w, s, s')
    ensures CopiesInv(w, s')
  {
    forall id | id in s'.copies ensures CopyInv(w, s'.setup.broker, s'.clock, s'.copies[id]) {
      CopyInvLater(w, s.setup.broker, s.clock, s'.setup.broker, s'.clock, s.copies[id]);
    }
  }

  lemma UntouchedTokens(w: World, s: State, s': State)
    requires TokensInv(w, s) && s'.copies == s.copies && WorkersGrow(s, s')
    ensures TokensInv(w, s')
  {
    forall id, k, channel | id in s'.copies && OutTo(s'.copies[id], k, channel)
      ensures TokenOk(w, s', id, k, channel)
    {
      assert TokenOk(w, s, id, k, channel);
    }
  }

  lemma UntouchedKeeps(w: World, s: State, s': State)
    requires Inv(w, s) && CopiesUntouched(w, s, s') && WorkersInv(w, s')
    ensures Inv(w, s')
  {
    UntouchedCopies(w, s, s');
    UntouchedTokens(w, s, s');
  }

  // ---- Deliveries that are out ------------------------------------------------------------------------

  ghost predicate NoNewToken(c: Copy, c': Copy) {
    forall k, channel :: OutTo(c', k, channel) ==> OutTo(c, k, channel)
  }

  lemma OutToAt(c: Copy, p: Place)
    requires c.places == multiset{p}
    ensures forall k, channel :: OutTo(c, k, channel)
              <==> p.status.Held? && p.status.worker == k && p.status.channel == channel
  {
    assert p in c.places;
  }

  lemma OutToGone(c: Copy)
    requires forall p :: p in c.places ==> !p.status.Held?
    ensures forall k, channel :: !OutTo(c, k, channel)
  {
  }

  lemma DeadLetteredNotOut(b: Broker, clock: int, c: Copy, p: Place)
    requires c.places == multiset{p}
    ensures forall k, channel :: !OutTo(DeadLettered(b, clock, c, p), k, channel)
  {
    OutToGone(DeadLettered(b, clock, c, p));
  }

  lemma ConcludedTokens(c: Copy, k: nat, channel: nat, outcome: Outcome, d: Decision)
    requires |c.places| <= 1
    ensures NoNewToken(c, Concluded(c, k, channel, outcome, d))
    ensures SameIdentity(c, Concluded(c, k, channel, outcome, d))
  {
    var from := Place(c.home, Held(k, channel, None));
    if from in c.places {
      OnlyPlace(c, from);
      MovedPlaces(c, from, Held(k, channel, Some(d.verdict)));
      OutToAt(c, from);
      OutToAt(Concluded(c, k, channel, outcome, d), Place(c.home, Held(k, channel, Some(d.verdict))));
    }
  }

  ghost predicate SameIdentity(c: Copy, c': Copy) {
    c'.home == c.home && c'.body == c.body && c'.headers == c.headers && c'.acceptedAt == c.acceptedAt
  }

  /** A state change that replaces one copy, opening no new delivery. */
  ghost predicate OneCopyChanged(w: World, s: State, s': State, id: nat) {
    && s'.setup == s.setup && s'.clock == s.clock && WorkersGrow(s, s')
    && id in s'.copies && s'.copies == s.copies[id := s'.copies[id]]
    && CopyInv(w, s.setup.broker, s.clock, s'.copies[id])
    && (id in s.copies ==> SameIdentity(s.copies[id], s'.copies[id]) && NoNewToken(s.copies[id], s'.copies[id]))
    && (id !in s.copies ==> forall k, channel :: !OutTo(s'.copies[id], k, channel))
  }

  lemma OneCopyCopies(w: World, s: State, s': State, id: nat)
    requires CopiesInv(w, s) && OneCopyChanged(w, s, s', id)
    ensures CopiesInv(w, s')
  {
  }

  lemma OneCopyTokens(w: World, s: State, s': State, id: nat)
    requires TokensInv(w, s) && OneCopyChanged(w, s, s', id)
    ensures TokensInv(w, s')
  {
    forall id', k, channel | id' in s'.copies && OutTo(s'.copies[id'], k, channel)
      ensures id' in s.copies && OutTo(s.copies[id'], k, channel) && TokenOk(w, s', id', k, channel)
    {
      assert id' in s.copies && OutTo(s.copies[id'], k, channel);
      assert TokenOk(w, s, id', k, channel);
    }
  }

  lemma OneCopyFail(w: World, s: State, s': State, id: nat)
    requires FailInv(w, s) && OneCopyChanged(w, s, s', id)
    requires s.failLog <= s'.failLog
    requires forall job :: job in s'.failLog ==> IsRetry(w.queues, job.queue)
    requires s'.copies[id].failed ==> Failure(s'.copies[id].home, s'.copies[id].body) in s'.failLog
    ensures FailInv(w, s')
  {
    assert forall job :: job in s.failLog ==> job in s'.failLog;
  }

  lemma OneCopyWorkers(w: World, s: State, s': State, id: nat)
    requires WorkersInv(w, s) && OneCopyChanged(w, s, s', id) && s'.workers == s.workers && s'.inflight == s.inflight
    ensures WorkersInv(w, s')
  {
    assert Inside(s') == Inside(s);
    forall k | k in s'.workers ensures ParcelsOk(w, s', k) {
      assert ParcelsOk(w, s, k);
    }
  }

  lemma OneCopyKeeps(w: World, s: State, s': State, id: nat)
    requires Inv(w, s) && OneCopyChanged(w, s, s', id)
    requires s'.workers == s.workers && s'.inflight == s.inflight && s'.failLog == s.failLog
    requires s'.copies[id].failed ==> id in s.copies && s.copies[id].failed
    ensures Inv(w, s')
  {
    OneCopyCopies(w, s, s', id);
    OneCopyTokens(w, s, s', id);
    OneCopyFail(w, s, s', id);
    OneCopyWorkers(w, s, s', id);
  }

  // ---- One lemma for each step ------------------------------------------------------------------------

  lemma TickKeeps(w: World, s: State, elapsed: nat)
    requires Inv(w, s)
    ensures Inv(w, Next(w, s, Tick(elapsed)))
  {
    var s' := Next(w, s, Tick(elapsed));
    assert Inside(s') == Inside(s);
    SameWorkersInv(w, s, s');
    UntouchedKeeps(w, s, s');
  }

  lemma SameWorkersInv(w: World, s: State, s': State)
    requires WorkersInv(w, s) && s'.workers == s.workers && s'.inflight == s.inflight && s'.copies == s.copies
    ensures WorkersInv(w, s')
  {
    assert Inside(s') == Inside(s);
    forall k | k in s'.workers ensures ParcelsOk(w, s', k) {
      assert ParcelsOk(w, s, k);
    }
  }

  lemma BrokerGrows(w: World, setup: Setup, d: SetupStep)
    requires NextSetup(w.queues, w.clients, setup, d).Some?
    ensures forall op :: Holds(setup.broker, op) ==>
              Holds(NextSetup(w.queues, w.clients, setup, d).value.broker, op)
  {
  }

  lemma DeclareKeeps(w: World, s: State, d: SetupStep)
    requires ValidWorld(w) && Inv(w, s) && Enabled(w, s, Declare(d))
    ensures Inv(w, Next(w, s, Declare(d)))
  {
    var s' := Next(w, s, Declare(d));
    SetupStepKeeps(w.queues, w.clients, s.setup, d);
    BrokerGrows(w, s.setup, d);
    SameWorkersInv(w, s, s');
    UntouchedKeeps(w, s, s');
  }

  predicate IsInside(s: State, k: nat) {
    k in s.workers && !s.workers[k].task.Idle?
  }

  lemma InsideCount(s: State, s': State, k: nat)
    requires k in s'.workers && s'.workers == s.workers[k := s'.workers[k]]
    ensures |Inside(s')| == |Inside(s)| + One(IsInside(s', k)) - One(IsInside(s, k))
  {
    if IsInside(s', k) {
      assert Inside(s') == Inside(s) + {k};
    } else {
      assert Inside(s') == Inside(s) - {k};
    }
  }

  /** A worker record is replaced; the counter follows the set of workers inside. */
  lemma OneWorkerInv(w: World, s: State, s': State, k: nat)
    requires WorkersInv(w, s) && ParcelsOk(w, s', k)
    requires s'.workers == s.workers[k := s'.workers[k]]
    requires forall id :: id in s.copies ==> id in s'.copies && s'.copies[id].home == s.copies[id].home
    requires s'.inflight == s.inflight + One(IsInside(s', k)) - One(IsInside(s, k))
    ensures WorkersInv(w, s')
  {
    InsideCount(s, s', k);
    forall k' | k' in s'.workers ensures ParcelsOk(w, s', k') {
      if k' != k { assert ParcelsOk(w, s, k'); }
    }
  }

  predicate WorkerStep(step: Step) {
    step.StartWorker? || step.Subscribe? || step.LoseChannel? || step.Enter? || step.Leave?
  }

  lemma WorkerStepParcels(w: World, s: State, step: Step)
    requires WorkersInv(w, s) && WorkerStep(step) && Enabled(w, s, step)
    ensures ParcelsOk(w, Next(w, s, step), step.worker)
  {
    if step.worker in s.workers { assert ParcelsOk(w, s, step.worker); }
  }

  /** A worker's own step replaces its record and keeps the counter in step with it. */
  lemma WorkerStepShape(w: World, s: State, step: Step)
    requires WorkerStep(step) && Enabled(w, s, step)
    ensures var s' := Next(w, s, step);
            var k := step.worker;
            && s'.setup == s.setup && s'.clock == s.clock && s'.copies == s.copies && s'.failLog == s.failLog
            && k in s'.workers && s'.workers == s.workers[k := s'.workers[k]]
            && (k in s.workers ==> s.workers[k].channel <= s'.workers[k].channel)
            && s'.inflight == s.inflight + One(IsInside(s', k)) - One(IsInside(s, k))
  {
  }

  lemma WorkerStepWorkers(w: World, s: State, step: Step)
    requires WorkersInv(w, s) && WorkerStep(step) && Enabled(w, s, step)
    ensures WorkersInv(w, Next(w, s, step))
  {
    WorkerStepShape(w, s, step);
    WorkerStepParcels(w, s, step);
    OneWorkerInv(w, s, Next(w, s, step), step.worker);
  }

  lemma WorkerStepCopies(w: World, s: State, step: Step)
    requires SetupInv(w.queues, w.clients, s.setup) && WorkerStep(step) && Enabled(w, s, step)
    ensures CopiesUntouched(w, s, Next(w, s, step))
  {
    WorkerStepShape(w, s, step);
  }

  lemma WorkerStepKeeps(w: World, s: State, step: Step)
    requires Inv(w, s) && WorkerStep(step) && Enabled(w, s, step)
    ensures Inv(w, Next(w, s, step))
  {
    WorkerStepWorkers(w, s, step);
    WorkerStepCopies(w, s, step);
    UntouchedKeeps(w, s, Next(w, s, step));
  }

  lemma AcceptChanged(w: World, s: State, id: nat, client: nat, body: string, headers: Table)
    requires NoClash(w.queues) && CopiesInv(w, s) && id !in s.copies && Up(w, s, client)
    ensures OneCopyChanged(w, s, Put(s, id, NewCopy(s.setup.broker, s.clock, w.clients[client], body, headers)), id)
  {
    var home := w.clients[client];
    assert Program(home, w.queues[home].retry)[..s.setup.progress[client]] == Program(home, w.queues[home].retry);
    NewCopyInv(w, s.setup.broker, s.clock, home, body, headers);
    OutToGone(NewCopy(s.setup.broker, s.clock, home, body, headers));
  }

  lemma AcceptKeeps(w: World, s: State, id: nat, client: nat, body: string, headers: Table)
    requires ValidWorld(w) && Inv(w, s) && Enabled(w, s, Accept(id, client, body, headers))
    ensures Inv(w, Next(w, s, Accept(id, client, body, headers)))
  {
    AcceptChanged(w, s, id, client, body, headers);
    OneCopyKeeps(w, s, Next(w, s, Accept(id, client, body, headers)), id);
  }

  lemma ProcessStepKeeps(w: World, s: State, id: nat, p: Place)
    requires ValidWorld(w) && Inv(w, s) && Enabled(w, s, Process(id, p))
    ensures Inv(w, Next(w, s, Process(id, p)))
  {
    var c := s.copies[id];
    var s' := Next(w, s, Process(id, p));
    ProcessKeeps(w, s.setup.broker, s.clock, c, p);
    ProcessedNotOut(s.setup.broker, s.clock, c, p, p.status.sent.value);
    OneCopyKeeps(w, s, s', id);
  }

  lemma ProcessedNotOut(b: Broker, clock: int, c: Copy, p: Place, verdict: Verdict)
    requires p in c.places && |c.places| <= 1
    ensures forall k, channel :: !OutTo(Processed(b, clock, c, p, verdict), k, channel)
    ensures SameIdentity(c, Processed(b, clock, c, p, verdict))
    ensures Processed(b, clock, c, p, verdict).failed == c.failed
  {
    OnlyPlace(c, p);
    DeadLetteredNotOut(b, clock, c, p);
    OutToGone(Processed(b, clock, c, p, verdict));
  }

  lemma ReturnedNotOut(c: Copy, p: Place)
    requires p in c.places && |c.places| <= 1
    ensures forall k, channel :: !OutTo(GivenBack(c, p), k, channel)
    ensures SameIdentity(c, GivenBack(c, p)) && GivenBack(c, p).failed == c.failed
  {
    OnlyPlace(c, p);
    OutToGone(GivenBack(c, p));
  }

  lemma ReturnStepKeeps(w: World, s: State, id: nat, p: Place)
    requires Inv(w, s) && Enabled(w, s, Return(id, p))
    ensures Inv(w, Next(w, s, Return(id, p)))
  {
    var c := s.copies[id];
    var s' := Next(w, s, Return(id, p));
    ReturnKeeps(w, s.setup.broker, s.clock, c, p);
    ReturnedNotOut(c, p);
    OneCopyKeeps(w, s, s', id);
  }

  lemma ExpireStepKeeps(w: World, s: State, id: nat, p: Place)
    requires ValidWorld(w) && Inv(w, s) && Enabled(w, s, Expire(id, p))
    ensures Inv(w, Next(w, s, Expire(id, p)))
  {
    var c := s.copies[id];
    var s' := Next(w, s, Expire(id, p));
    ExpireKeeps(w, s.setup.broker, s.clock, c, p);
    OnlyPlace(c, p);
    DeadLetteredNotOut(s.setup.broker, s.clock, c, p);
    OneCopyKeeps(w, s, s', id);
  }

  lemma FinishChanged(w: World, s: State, k: nat, outcome: Outcome)
    requires CopiesInv(w, s) && CanFinish(s, k)
    ensures OneCopyChanged(w, s, AfterFinish(w, s, k, outcome), s.workers[k].task.parcel.id)
  {
    var parcel := s.workers[k].task.parcel;
    var c := s.copies[parcel.id];
    ConcludeKeeps(w, s.setup.broker, s.clock, c, k, parcel.channel, outcome);
    ConcludedTokens(c, k, parcel.channel, outcome, DecisionFor(w, c, outcome, s.clock));
  }

  lemma FinishKeeps(w: World, s: State, k: nat, outcome: Outcome)
    requires ValidWorld(w) && Inv(w, s) && CanFinish(s, k)
    ensures Inv(w, AfterFinish(w, s, k, outcome))
  {
    var parcel := s.workers[k].task.parcel;
    var s' := AfterFinish(w, s, k, outcome);
    FinishChanged(w, s, k, outcome);
    assert CopiesInv(w, s') by { OneCopyCopies(w, s, s', parcel.id); }
    assert TokensInv(w, s') by { OneCopyTokens(w, s, s', parcel.id); }
    assert FailInv(w, s') by { FinishFail(w, s, k, outcome); }
    assert WorkersInv(w, s') by { FinishWorkers(w, s, k, outcome); }
  }

  lemma FinishWorkers(w: World, s: State, k: nat, outcome: Outcome)
    requires WorkersInv(w, s) && CanFinish(s, k)
    ensures WorkersInv(w, AfterFinish(w, s, k, outcome))
  {
    var s' := AfterFinish(w, s, k, outcome);
    assert ParcelsOk(w, s, k);
    assert ParcelsOk(w, s', k);
    OneWorkerInv(w, s, s', k);
  }

  lemma FinishFail(w: World, s: State, k: nat, outcome: Outcome)
    requires FailInv(w, s) && CanFinish(s, k)
    ensures FailInv(w, AfterFinish(w, s, k, outcome))
  {
    var s' := AfterFinish(w, s, k, outcome);
    assert forall job :: job in s.failLog ==> job in s'.failLog;
  }

  lemma DeliverTokens(w: World, s: State, s': State, id: nat, k: nat, channel: nat)
    requires TokensInv(w, s) && id in s.copies && k in s.workers && Unoccupied(s, k)
    requires channel == s.workers[k].channel && Home(w, k) == s.copies[id].home && WorkersGrow(s, s')
    requires id in s'.copies && s'.copies == s.copies[id := s'.copies[id]] && s'.copies[id].home == s.copies[id].home
    requires forall k', channel' :: OutTo(s'.copies[id], k', channel') <==> k' == k && channel' == channel
    ensures TokensInv(w, s')
  {
    forall id', k', channel' | id' in s'.copies && OutTo(s'.copies[id'], k', channel')
      ensures TokenOk(w, s', id', k', channel')
    {
      if id' != id { assert TokenOk(w, s, id', k', channel'); }
    }
  }

  lemma DeliveredOut(c: Copy, p: Place, k: nat, channel: nat)
    requires p in c.places && |c.places| <= 1
    ensures forall k', channel' :: OutTo(DeliveredTo(c, p, k, channel), k', channel')
                                   <==> k' == k && channel' == channel
    ensures SameIdentity(c, DeliveredTo(c, p, k, channel)) && DeliveredTo(c, p, k, channel).failed == c.failed
  {
    OnlyPlace(c, p);
    MovedPlaces(c, p, Held(k, channel, None));
    OutToAt(DeliveredTo(c, p, k, channel), Place(p.queue, Held(k, channel, None)));
  }

  lemma DeliverWorkers(w: World, s: State, id: nat, k: nat)
    requires WorkersInv(w, s) && id in s.copies && k in s.workers && s.copies[id].home == Home(w, k)
    ensures WorkersInv(w, AfterDeliver(w, s, id, k))
  {
    var s' := AfterDeliver(w, s, id, k);
    assert ParcelsOk(w, s, k);
    assert ParcelsOk(w, s', k);
    OneWorkerInv(w, s, s', k);
  }

  lemma DeliverCopies(w: World, s: State, s': State, id: nat, p: Place, k: nat, channel: nat)
    requires CopiesInv(w, s) && id in s.copies && p == Place(s.copies[id].home, Ready) && p in s.copies[id].places
    requires s'.setup == s.setup && s'.clock == s.clock
    requires s'.copies == s.copies[id := DeliveredTo(s.copies[id], p, k, channel)]
    ensures CopiesInv(w, s')
  {
    DeliverKeeps(w, s.setup.broker, s.clock, s.copies[id], k, channel);
  }

  lemma DeliverFail(w: World, s: State, s': State, id: nat, p: Place, k: nat, channel: nat)
    requires FailInv(w, s) && id in s.copies && s'.failLog == s.failLog
    requires s'.copies == s.copies[id := DeliveredTo(s.copies[id], p, k, channel)]
    ensures FailInv(w, s')
  {
  }

  lemma DeliverTokensStep(w: World, s: State, id: nat, k: nat)
    requires TokensInv(w, s) && CanDeliver(w, s, id, k)
    requires s.copies[id].home == Home(w, k) && |s.copies[id].places| <= 1
    ensures TokensInv(w, AfterDeliver(w, s, id, k))
  {
    var channel := s.workers[k].channel;
    DeliveredOut(s.copies[id], Place(Home(w, k), Ready), k, channel);
    DeliverTokens(w, s, AfterDeliver(w, s, id, k), id, k, channel);
  }

  lemma ReadyAtHome(w: World, s: State, id: nat, k: nat)
    requires CopiesInv(w, s) && CanDeliver(w, s, id, k)
    ensures s.copies[id].home == Home(w, k) && |s.copies[id].places| <= 1
  {
    assert PlaceInv(w, s.clock, s.copies[id], Place(Home(w, k), Ready));
  }

  lemma DeliverCopiesStep(w: World, s: State, id: nat, k: nat)
    requires CopiesInv(w, s) && FailInv(w, s) && CanDeliver(w, s, id, k) && s.copies[id].home == Home(w, k)
    ensures CopiesInv(w, AfterDeliver(w, s, id, k)) && FailInv(w, AfterDeliver(w, s, id, k))
  {
    var p := Place(Home(w, k), Ready);
    var s' := AfterDeliver(w, s, id, k);
    DeliverCopies(w, s, s', id, p, k, s.workers[k].channel);
    DeliverFail(w, s, s', id, p, k, s.workers[k].channel);
  }

  lemma DeliverStepKeeps(w: World, s: State, id: nat, k: nat)
    requires ValidWorld(w) && Inv(w, s) && CanDeliver(w, s, id, k)
    ensures Inv(w, AfterDeliver(w, s, id, k))
  {
    ReadyAtHome(w, s, id, k);
    DeliverCopiesStep(w, s, id, k);
    DeliverWorkers(w, s, id, k);
    DeliverTokensStep(w, s, id, k);
  }

  lemma BrokerStepKeeps(w: World, s: State, step: Step)
    requires ValidWorld(w) && Inv(w, s) && Enabled(w, s, step)
    requires step.Process? || step.Return? || step.Expire?
    ensures Inv(w, Next(w, s, step))
  {
    match step
    case Process(id, p) => ProcessStepKeeps(w, s, id, p);
    case Return(id, p) => ReturnStepKeeps(w, s, id, p);
    case Expire(id, p) => ExpireStepKeeps(w, s, id, p);
  }

  lemma HandlingKeeps(w: World, s: State, step: Step)
    requires ValidWorld(w) && Inv(w, s) && Enabled(w, s, step)
    requires step.Accept? || step.Deliver? || step.Finish?
    ensures Inv(w, Next(w, s, step))
  {
    match step
    case Accept(id, client, body, headers) => AcceptKeeps(w, s, id, client, body, headers);
    case Deliver(id, k) => DeliverStepKeeps(w, s, id, k);
    case Finish(k, outcome) => FinishKeeps(w, s, k, outcome);
  }

  lemma StepKeeps(w: World, s: State, step: Step)
    requires ValidWorld(w) && Inv(w, s) && Enabled(w, s, step)
    ensures Inv(w, Next(w, s, step))
  {
    if step.Tick? {
      TickKeeps(w, s, step.elapsed);
    } else if step.Declare? {
      DeclareKeeps(w, s, step.step);
    } else if WorkerStep(step) {
      WorkerStepKeeps(w, s, step);
    } else if step.Process? || step.Return? || step.Expire? {
      BrokerStepKeeps(w, s, step);
    } else {
      HandlingKeeps(w, s, step);
    }
  }

  lemma {:induction false} RunKeeps(w: World, s: State, steps: seq<Step>, t: State)
    requires ValidWorld(w) && Inv(w, s) && Runs(w, s, steps, t)
    ensures Inv(w, t)
    decreases |steps|
  {
    if steps != [] {
      StepKeeps(w, s, steps[0]);
      RunKeeps(w, Next(w, s, steps[0]), steps[1..], t);
    }
  }
}
