/** What every run of the delayed-retry protocol guarantees, and what it does not. */
module RetryTheorems {
  import opened Basics
  import opened Configuration
  import opened Topology
  import opened Settlement
  import opened RetryProtocol
  import opened RetryInvariant

  lemma ReachedInv(w: World, start: int, steps: seq<Step>, s: State)
    requires ValidWorld(w) && Runs(w, Initial(w, start), steps, s)
    ensures Inv(w, s)
  {
    InitialInv(w, start);
    RunKeeps(w, Initial(w, start), steps, s);
  }

  // ---- Conservation --------------------------------------------------------------------------------

  predicate InQueue(c: Copy, p: Place) {
    p.queue == c.home && !p.status.Delayed?
  }

  predicate InDelay(c: Copy, p: Place) {
    p.queue == Delay(c.home) && p.status.Delayed?
  }

  /** The copy is in exactly one place of its own two queues, or acknowledged once. */
  ghost predicate Conserved(c: Copy) {
    || (c.acked == 0 && exists p :: c.places == multiset{p} && (InQueue(c, p) || InDelay(c, p)))
    || (c.acked == 1 && c.places == multiset{})
  }

  /** Retry mode, in every reachable state: no copy is lost, doubled or misrouted, and an
      acknowledged one was handled or given to the fail handler with its body. */
  lemma RetryPlaces(w: World, start: int, steps: seq<Step>, s: State, id: nat)
    requires ValidWorld(w) && Runs(w, Initial(w, start), steps, s)
    requires id in s.copies && IsRetry(w.queues, s.copies[id].home)
    ensures Conserved(s.copies[id]) && s.copies[id].discarded == 0
    ensures s.copies[id].acked == 1 ==>
              || s.copies[id].handled
              || (s.copies[id].failed && Failure(s.copies[id].home, s.copies[id].body) in s.failLog)
  {
    ReachedInv(w, start, steps, s);
    var c := s.copies[id];
    PlacesCount(c);
    if |c.places| == 1 {
      var p :| p in c.places;
      OnlyPlace(c, p);
      assert PlaceInv(w, s.clock, c, p);
    }
  }

  lemma PlacesCount(c: Copy)
    ensures |c.places| == 0 <==> c.places == multiset{}
    ensures |c.places| > 0 ==> exists p :: p in c.places
  {
    if c.places != multiset{} {
      var p :| p in c.places;
    }
  }

  /** Without retry a copy is in its queue, acknowledged, or discarded, and the fail handler is never
      called. */
  lemma PlainPlaces(w: World, start: int, steps: seq<Step>, s: State, id: nat)
    requires ValidWorld(w) && Runs(w, Initial(w, start), steps, s)
    requires id in s.copies && !IsRetry(w.queues, s.copies[id].home)
    ensures var c := s.copies[id];
            || (c.acked == 0 && c.discarded == 0 && exists p :: c.places == multiset{p} && InQueue(c, p))
            || (c.acked == 1 && c.discarded == 0 && c.places == multiset{} && c.handled)
            || (c.acked == 0 && c.discarded == 1 && c.places == multiset{} && c.panicked > 0)
    ensures !s.copies[id].failed && forall job :: job in s.failLog ==> job.queue != s.copies[id].home
  {
    ReachedInv(w, start, steps, s);
    var c := s.copies[id];
    PlacesCount(c);
    if |c.places| == 1 {
      var p :| p in c.places;
      OnlyPlace(c, p);
      assert PlaceInv(w, s.clock, c, p);
    }
  }

  /** What a step makes of one copy. */
  function Becomes(w: World, s: State, step: Step, id: nat): Copy
    requires id in s.copies
  {
    var c := s.copies[id];
    match step
    case Deliver(i, k) =>
      if i == id && k in s.workers then DeliveredTo(c, Place(Home(w, k), Ready), k, s.workers[k].channel) else c
    case Finish(k, outcome) =>
      if CanFinish(s, k) && s.workers[k].task.parcel.id == id
      then Concluded(c, k, s.workers[k].task.parcel.channel, outcome, DecisionFor(w, c, outcome, s.clock))
      else c
    case Process(i, p) =>
      if i == id && p.status.Held? && p.status.sent.Some?
      then Processed(s.setup.broker, s.clock, c, p, p.status.sent.value) else c
    case Return(i, p) => if i == id then GivenBack(c, p) else c
    case Expire(i, p) => if i == id then DeadLettered(s.setup.broker, s.clock, c, p) else c
    case _ => c
  }

  lemma StepBecomes(w: World, s: State, step: Step, id: nat)
    requires Enabled(w, s, step) && id in s.copies
    ensures id in Next(w, s, step).copies && Next(w, s, step).copies[id] == Becomes(w, s, step, id)
    ensures Next(w, s, step).clock >= s.clock
  {
    match step
    case Deliver(i, k) => assert Next(w, s, step) == AfterDeliver(w, s, i, k);
    case Finish(k, outcome) => assert Next(w, s, step) == AfterFinish(w, s, k, outcome);
    case _ =>
  }

  lemma DeadLetteredSameIdentity(b: Broker, clock: int, c: Copy, p: Place)
    ensures SameIdentity(c, DeadLettered(b, clock, c, p))
    ensures DeadLettered(b, clock, c, p).rejected == c.rejected
  {
  }

  lemma ProcessedSameIdentity(b: Broker, clock: int, c: Copy, p: Place, verdict: Verdict)
    ensures SameIdentity(c, Processed(b, clock, c, p, verdict))
    ensures verdict != Reject ==> Processed(b, clock, c, p, verdict).rejected == c.rejected
  {
    DeadLetteredSameIdentity(b, clock, c, p);
  }

  lemma ConcludedSameIdentity(c: Copy, k: nat, channel: nat, outcome: Outcome, d: Decision)
    ensures SameIdentity(c, Concluded(c, k, channel, outcome, d))
    ensures Concluded(c, k, channel, outcome, d).rejected == c.rejected
  {
  }

  lemma SettledSameIdentity(w: World, s: State, step: Step, id: nat)
    requires id in s.copies && (step.Process? || step.Expire?)
    ensures SameIdentity(s.copies[id], Becomes(w, s, step, id))
  {
    var c := s.copies[id];
    match step
    case Process(_, p) =>
      if p.status.Held? && p.status.sent.Some? {
        ProcessedSameIdentity(s.setup.broker, s.clock, c, p, p.status.sent.value);
      }
    case Expire(_, p) => DeadLetteredSameIdentity(s.setup.broker, s.clock, c, p);
  }

  lemma FinishedSameIdentity(w: World, s: State, k: nat, outcome: Outcome, id: nat)
    requires id in s.copies
    ensures SameIdentity(s.copies[id], Becomes(w, s, Finish(k, outcome), id))
  {
    var c := s.copies[id];
    if CanFinish(s, k) {
      ConcludedSameIdentity(c, k, s.workers[k].task.parcel.channel, outcome, DecisionFor(w, c, outcome, s.clock));
    }
  }

  lemma BecomesSameIdentity(w: World, s: State, step: Step, id: nat)
    requires id in s.copies
    ensures SameIdentity(s.copies[id], Becomes(w, s, step, id))
  {
    if step.Process? || step.Expire? {
      SettledSameIdentity(w, s, step, id);
    } else if step.Finish? {
      FinishedSameIdentity(w, s, step.worker, step.outcome, id);
    }
  }

  /** An accepted copy is never forgotten, and its body and headers never change. */
  lemma {:induction false} RunKeepsIdentity(w: World, s: State, steps: seq<Step>, t: State)
    requires Runs(w, s, steps, t)
    ensures forall id :: id in s.copies ==> id in t.copies && SameIdentity(s.copies[id], t.copies[id])
    decreases |steps|
  {
    if steps != [] {
      forall id | id in s.copies
        ensures id in Next(w, s, steps[0]).copies && SameIdentity(s.copies[id], Next(w, s, steps[0]).copies[id])
      {
        StepBecomes(w, s, steps[0], id);
        BecomesSameIdentity(w, s, steps[0], id);
      }
      RunKeepsIdentity(w, Next(w, s, steps[0]), steps[1..], t);
    }
  }

  // ---- The retry bound ----------------------------------------------------------------------------------

  function MaxRejections(duration: int, ttl: int): int
    requires ttl > 0
  {
    if duration < 0 then 0 else duration / ttl + 1
  }

  lemma Cancel(a: int, b: int, t: int)
    requires t > 0 && a * t < b * t
    ensures a < b
  {
    assert (b - a) * t > 0;
  }

  lemma CountWithin(n: int, ttl: int, duration: int)
    requires ttl > 0 && n > 0 && (n - 1) * ttl <= duration
    ensures duration >= 0 && n <= duration / ttl + 1
  {
    assert (n - 1) * ttl >= 0;
    assert duration < (duration / ttl + 1) * ttl;
    Cancel(n - 1, duration / ttl + 1, ttl);
  }

  lemma OneLess(n: int, t: int)
    ensures (n - 1) * t == n * t - t
  {
  }

  /** The last rejection was decided before the deadline, and every earlier one at least a time
      to live before the next. */
  lemma RejectedInTime(w: World, b: Broker, clock: int, c: Copy, limit: int)
    requires CopyInv(w, b, clock, c) && IsRetry(w.queues, c.home) && c.rejected > 0
    requires ExpiresBy(c.headers, limit)
    ensures (c.rejected - 1) * TtlOf(w, c.home) <= limit - c.acceptedAt
  {
    var decided := Due(w, c) - TtlOf(w, c.home);
    assert !Expired(c.headers, decided);
    assert decided <= limit;
    OneLess(c.rejected, TtlOf(w, c.home));
  }

  lemma RejectionsWithin(w: World, b: Broker, clock: int, c: Copy, publishedAt: int, duration: int)
    requires CopyInv(w, b, clock, c) && IsRetry(w.queues, c.home) && TtlOf(w, c.home) > 0
    requires ExpiresBy(c.headers, publishedAt + duration) && publishedAt <= c.acceptedAt
    ensures c.rejected <= MaxRejections(duration, TtlOf(w, c.home))
  {
    if c.rejected > 0 {
      RejectedInTime(w, b, clock, c, publishedAt + duration);
      CountWithin(c.rejected, TtlOf(w, c.home), duration);
    }
  }

  /** One copy published with a retry duration is rejected at most duration / ttl + 1 times, and
      never for a negative duration, over every run: panics, lost settlements and lost channels
      included, and for deadlines in any year. */
  lemma RetryBound(w: World, start: int, steps: seq<Step>, s: State, id: nat,
                   publishedAt: int, duration: int, deadline: int)
    requires ValidWorld(w) && Runs(w, Initial(w, start), steps, s)
    requires id in s.copies && IsRetry(w.queues, s.copies[id].home)
    requires Stamped(s.copies[id].headers, deadline) && deadline == publishedAt + duration
    requires publishedAt <= s.copies[id].acceptedAt
    ensures TtlOf(w, s.copies[id].home) > 0
    ensures s.copies[id].rejected <= MaxRejections(duration, TtlOf(w, s.copies[id].home))
  {
    StampedExpiresBy(s.copies[id].headers, deadline);
    BoundedOnceExpiring(w, start, steps, s, id, publishedAt, duration);
  }

  lemma BoundedOnceExpiring(w: World, start: int, steps: seq<Step>, s: State, id: nat, publishedAt: int, duration: int)
    requires ValidWorld(w) && Runs(w, Initial(w, start), steps, s)
    requires id in s.copies && IsRetry(w.queues, s.copies[id].home)
    requires ExpiresBy(s.copies[id].headers, publishedAt + duration) && publishedAt <= s.copies[id].acceptedAt
    ensures TtlOf(w, s.copies[id].home) > 0
    ensures s.copies[id].rejected <= MaxRejections(duration, TtlOf(w, s.copies[id].home))
  {
    ReachedInv(w, start, steps, s);
    TtlOfValidQueue(w.queues, true, s.copies[id].home);
    RejectionsWithin(w, s.setup.broker, s.clock, s.copies[id], publishedAt, duration);
  }

  /** Every delivery is accounted for: it is still out, or it ended in an acknowledgement, a
      rejection, a panic, a requeue or a lost channel. So in retry mode the deliveries are
      bounded by the rejections, the panics and the losses; and without panics and losses a copy
      that came back from one delivery more than it can be rejected is acknowledged. */
  lemma DeliveryBound(w: World, start: int, steps: seq<Step>, s: State, id: nat,
                      publishedAt: int, duration: int, deadline: int)
    requires ValidWorld(w) && Runs(w, Initial(w, start), steps, s)
    requires id in s.copies && IsRetry(w.queues, s.copies[id].home)
    requires Stamped(s.copies[id].headers, deadline) && deadline == publishedAt + duration
    requires publishedAt <= s.copies[id].acceptedAt
    ensures TtlOf(w, s.copies[id].home) > 0
    ensures var c := s.copies[id];
            && c.deliveries == c.acked + c.rejected + c.panicked + c.lost + Out(c)
            && c.acked + Out(c) <= 1
            && c.deliveries <= MaxRejections(duration, TtlOf(w, c.home)) + 1 + c.panicked + c.lost
    ensures var c := s.copies[id];
            c.panicked == 0 && c.lost == 0 && Out(c) == 0 && c.deliveries > MaxRejections(duration, TtlOf(w, c.home))
            ==> c.acked == 1
  {
    ReachedInv(w, start, steps, s);
    RetryBound(w, start, steps, s, id, publishedAt, duration, deadline);
    var c := s.copies[id];
    PlacesCount(c);
  }

  // ---- After the deadline ---------------------------------------------------------------------------------

  /** The copy is past its deadline and no rejection of it is on its way. */
  ghost predicate Late(c: Copy, clock: int) {
    Expired(c.headers, clock) && NoRejection(c)
  }

  ghost predicate NoRejection(c: Copy) {
    forall p :: p in c.places && p.status.Held? ==> p.status.sent != Some(Reject)
  }

  /** After the deadline every error goes to the fail handler and then to Ack, and only a panic
      sends the copy to the delay queue. */
  lemma LateDecision(w: World, c: Copy, outcome: Outcome, clock: int)
    requires Expired(c.headers, clock) && IsRetry(w.queues, c.home)
    ensures DecisionFor(w, c, outcome, clock).verdict != Reject
    ensures DecisionFor(w, c, outcome, clock).verdict == Drop <==> outcome.Panicked?
    ensures outcome.Returned? && outcome.err.Some? ==> DecisionFor(w, c, outcome, clock) == Decision(Ack, true)
  {
  }

  lemma ProcessedNoRejection(b: Broker, clock: int, c: Copy, p: Place, verdict: Verdict)
    requires p in c.places && |c.places| <= 1
    ensures NoRejection(Processed(b, clock, c, p, verdict)) && NoRejection(DeadLettered(b, clock, c, p))
  {
    OnlyPlace(c, p);
  }

  lemma ConcludedNoRejection(c: Copy, k: nat, channel: nat, outcome: Outcome, d: Decision)
    requires NoRejection(c) && d.verdict != Reject
    ensures NoRejection(Concluded(c, k, channel, outcome, d))
  {
  }

  lemma MovedNoRejection(c: Copy, p: Place, k: nat, channel: nat)
    requires NoRejection(c)
    ensures NoRejection(DeliveredTo(c, p, k, channel)) && NoRejection(GivenBack(c, p))
  {
  }

  lemma LateConcluded(w: World, c: Copy, clock: int, k: nat, channel: nat, outcome: Outcome)
    requires Late(c, clock) && IsRetry(w.queues, c.home)
    ensures var c' := Concluded(c, k, channel, outcome, DecisionFor(w, c, outcome, clock));
            NoRejection(c') && c'.rejected == c.rejected
  {
    var d := DecisionFor(w, c, outcome, clock);
    LateDecision(w, c, outcome, clock);
    ConcludedNoRejection(c, k, channel, outcome, d);
    ConcludedSameIdentity(c, k, channel, outcome, d);
  }

  lemma LateProcessed(b: Broker, clock: int, c: Copy, p: Place)
    requires NoRejection(c) && p in c.places && |c.places| <= 1
    requires p.status.Held? && p.status.sent.Some?
    ensures var c' := Processed(b, clock, c, p, p.status.sent.value);
            NoRejection(c') && c'.rejected == c.rejected
  {
    ProcessedNoRejection(b, clock, c, p, p.status.sent.value);
    ProcessedSameIdentity(b, clock, c, p, p.status.sent.value);
  }

  lemma LateDelivered(w: World, s: State, i: nat, k: nat, id: nat)
    requires id in s.copies && NoRejection(s.copies[id])
    ensures NoRejection(Becomes(w, s, Deliver(i, k), id))
    ensures Becomes(w, s, Deliver(i, k), id).rejected == s.copies[id].rejected
  {
    if k in s.workers { MovedNoRejection(s.copies[id], Place(Home(w, k), Ready), k, s.workers[k].channel); }
  }

  lemma LateReturned(w: World, s: State, i: nat, p: Place, id: nat)
    requires id in s.copies && NoRejection(s.copies[id])
    ensures NoRejection(Becomes(w, s, Return(i, p), id))
    ensures Becomes(w, s, Return(i, p), id).rejected == s.copies[id].rejected
  {
    MovedNoRejection(s.copies[id], p, 0, 0);
  }

  lemma LateFinished(w: World, s: State, k: nat, outcome: Outcome, id: nat)
    requires id in s.copies && CanFinish(s, k)
    requires Late(s.copies[id], s.clock) && IsRetry(w.queues, s.copies[id].home)
    ensures NoRejection(Becomes(w, s, Finish(k, outcome), id))
    ensures Becomes(w, s, Finish(k, outcome), id).rejected == s.copies[id].rejected
  {
    LateConcluded(w, s.copies[id], s.clock, k, s.workers[k].task.parcel.channel, outcome);
  }

  lemma LateSettled(w: World, s: State, i: nat, p: Place, id: nat)
    requires id in s.copies && NoRejection(s.copies[id]) && |s.copies[id].places| <= 1
    requires i == id ==> p in s.copies[id].places && p.status.Held? && p.status.sent.Some?
    ensures NoRejection(Becomes(w, s, Process(i, p), id))
    ensures Becomes(w, s, Process(i, p), id).rejected == s.copies[id].rejected
  {
    if i == id { LateProcessed(s.setup.broker, s.clock, s.copies[id], p); }
  }

  lemma LateExpired(w: World, s: State, i: nat, p: Place, id: nat)
    requires id in s.copies && NoRejection(s.copies[id]) && |s.copies[id].places| <= 1
    requires i == id ==> p in s.copies[id].places
    ensures NoRejection(Becomes(w, s, Expire(i, p), id))
    ensures Becomes(w, s, Expire(i, p), id).rejected == s.copies[id].rejected
  {
    if i == id {
      ProcessedNoRejection(s.setup.broker, s.clock, s.copies[id], p, Ack);
      DeadLetteredSameIdentity(s.setup.broker, s.clock, s.copies[id], p);
    }
  }

  lemma LateBecomes(w: World, s: State, step: Step, id: nat)
    requires id in s.copies && Enabled(w, s, step) && |s.copies[id].places| <= 1
    requires Late(s.copies[id], s.clock) && IsRetry(w.queues, s.copies[id].home)
    ensures NoRejection(Becomes(w, s, step, id))
    ensures Becomes(w, s, step, id).rejected == s.copies[id].rejected
  {
    match step
    case Deliver(i, k) => LateDelivered(w, s, i, k, id);
    case Return(i, p) => LateReturned(w, s, i, p, id);
    case Finish(k, outcome) => LateFinished(w, s, k, outcome, id);
    case Process(i, p) => LateSettled(w, s, i, p, id);
    case Expire(i, p) => LateExpired(w, s, i, p, id);
    case _ =>
  }

  lemma LateStep(w: World, s: State, step: Step, id: nat)
    requires Inv(w, s) && Enabled(w, s, step) && id in s.copies
    requires Late(s.copies[id], s.clock) && IsRetry(w.queues, s.copies[id].home)
    ensures id in Next(w, s, step).copies
    ensures var c' := Next(w, s, step).copies[id];
            Late(c', Next(w, s, step).clock) && c'.rejected == s.copies[id].rejected && c'.home == s.copies[id].home
  {
    StepBecomes(w, s, step, id);
    BecomesSameIdentity(w, s, step, id);
    assert |s.copies[id].places| <= 1;
    LateBecomes(w, s, step, id);
    ExpiredIsMonotone(s.copies[id].headers, s.clock, Next(w, s, step).clock);
  }

  /** Past the deadline a copy enters the delay queue again only through panics: over any
      continuation its rejections stay what they were. */
  lemma {:induction false} LateNeverRejected(w: World, s: State, steps: seq<Step>, t: State, id: nat)
    requires ValidWorld(w) && Inv(w, s) && Runs(w, s, steps, t)
    requires id in s.copies && Late(s.copies[id], s.clock) && IsRetry(w.queues, s.copies[id].home)
    ensures id in t.copies && t.copies[id].rejected == s.copies[id].rejected
    decreases |steps|
  {
    if steps != [] {
      StepKeeps(w, s, steps[0]);
      LateStep(w, s, steps[0], id);
      LateNeverRejected(w, Next(w, s, steps[0]), steps[1..], t, id);
    }
  }

  // ---- Workers -----------------------------------------------------------------------------------------------

  /** In every reachable state the in-flight counter is the number of workers inside
      handleDelivery, at most the number started, and two deliveries out on one channel of a
      worker are the same delivery. */
  lemma InFlight(w: World, start: int, steps: seq<Step>, s: State)
    requires ValidWorld(w) && Runs(w, Initial(w, start), steps, s)
    ensures s.inflight == |Inside(s)| <= |s.workers.Keys|
    ensures forall id, id', k, channel ::
              (id in s.copies && id' in s.copies && OutTo(s.copies[id], k, channel) && OutTo(s.copies[id'], k, channel))
              ==> id == id'
    ensures forall id, k, channel :: id in s.copies && OutTo(s.copies[id], k, channel) ==>
              k in s.workers && Home(w, k) == s.copies[id].home
  {
    ReachedInv(w, start, steps, s);
    SubsetSize(Inside(s), s.workers.Keys);
    forall id, k, channel | id in s.copies && OutTo(s.copies[id], k, channel)
      ensures k in s.workers && Home(w, k) == s.copies[id].home
    {
      assert TokenOk(w, s, id, k, channel);
    }
  }
}
