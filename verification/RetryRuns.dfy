/** Runs that exist: what one delivery leads to, and why panics are not bounded. */
module RetryRuns {
  import opened Basics
  import opened RetryableErrors
  import opened Configuration
  import opened Topology
  import opened Settlement
  import opened Tables
  import opened RetryProtocol
  import opened RetryInvariant
  import opened RetryTheorems

  /** The copy is in one known place, worker k is subscribed and in a known stage, and nothing
      but the copy and the worker changed since s0. */
  ghost predicate Shape(w: World, s0: State, s: State, id: nat, k: nat, p: Place, inbox: Option<Parcel>, task: Task) {
    && s.setup == s0.setup && s0.clock <= s.clock
    && id in s0.copies && id in s.copies && s.copies == s0.copies[id := s.copies[id]]
    && s.copies[id].home == Home(w, k) && IsRetry(w.queues, Home(w, k))
    && s.copies[id].headers == s0.copies[id].headers && s.copies[id].body == s0.copies[id].body
    && s.copies[id].places == multiset{p}
    && k in s0.workers && k in s.workers
    && s.workers[k] == Worker(s0.workers[k].channel, true, inbox, task)
  }

  ghost predicate Stage(w: World, s0: State, s: State, id: nat, k: nat, p: Place, inbox: Option<Parcel>, task: Task) {
    Inv(w, s) && Shape(w, s0, s, id, k, p, inbox, task)
  }

  /** The copy's counters moved by this much. */
  ghost predicate Counted(c: Copy, c': Copy, deliveries: nat, rejected: nat, panicked: nat) {
    && c'.deliveries == c.deliveries + deliveries
    && c'.rejected == c.rejected + rejected
    && c'.panicked == c.panicked + panicked
  }

  /** A ready copy of a retry queue and a subscribed worker with nothing to do. */
  ghost predicate Positioned(w: World, s: State, id: nat, k: nat) {
    Stage(w, s, s, id, k, Place(Home(w, k), Ready), None, Idle) && Unoccupied(s, k)
  }

  function Channel(s0: State, k: nat): nat {
    if k in s0.workers then s0.workers[k].channel else 0
  }

  lemma DeliverStage(w: World, s0: State, id: nat, k: nat)
    requires ValidWorld(w) && Positioned(w, s0, id, k)
    ensures Enabled(w, s0, Deliver(id, k))
    ensures var s := Next(w, s0, Deliver(id, k));
            && Stage(w, s0, s, id, k, Place(Home(w, k), Held(k, Channel(s0, k), None)),
                     Some(Parcel(id, Channel(s0, k))), Idle)
            && Counted(s0.copies[id], s.copies[id], 1, 0, 0)
            && s.failLog == s0.failLog && s.clock == s0.clock
  {
    var p := Place(Home(w, k), Ready);
    assert p in s0.copies[id].places;
    DeliverStepKeeps(w, s0, id, k);
    MovedPlaces(s0.copies[id], p, Held(k, Channel(s0, k), None));
  }

  lemma EnterStage(w: World, s0: State, s: State, id: nat, k: nat, p: Place)
    requires ValidWorld(w) && Stage(w, s0, s, id, k, p, Some(Parcel(id, Channel(s0, k))), Idle)
    ensures Enabled(w, s, Enter(k))
    ensures Stage(w, s0, Next(w, s, Enter(k)), id, k, p, None, Busy(Parcel(id, Channel(s0, k))))
    ensures Next(w, s, Enter(k)).copies == s.copies && Next(w, s, Enter(k)).failLog == s.failLog
    ensures Next(w, s, Enter(k)).clock == s.clock
  {
    WorkerStepKeeps(w, s, Enter(k));
  }

  lemma FinishShape(w: World, s0: State, s: State, id: nat, k: nat, outcome: Outcome)
    requires Shape(w, s0, s, id, k, Place(Home(w, k), Held(k, Channel(s0, k), None)), None,
                   Busy(Parcel(id, Channel(s0, k))))
    ensures CanFinish(s, k)
    ensures var s' := AfterFinish(w, s, k, outcome);
            var d := DecisionFor(w, s.copies[id], outcome, s.clock);
            && Shape(w, s0, s', id, k, Place(Home(w, k), Held(k, Channel(s0, k), Some(d.verdict))), None, Settled)
            && Counted(s.copies[id], s'.copies[id], 0, 0, 0) && s'.clock == s.clock
            && s'.failLog == if d.failed then s.failLog + [Failure(s.copies[id].home, s.copies[id].body)] else s.failLog
  {
    var c := s.copies[id];
    var d := DecisionFor(w, c, outcome, s.clock);
    ConcludedAt(c, k, Channel(s0, k), outcome, d);
  }

  lemma ConcludedAt(c: Copy, k: nat, channel: nat, outcome: Outcome, d: Decision)
    requires c.places == multiset{Place(c.home, Held(k, channel, None))}
    ensures var c' := Concluded(c, k, channel, outcome, d);
            && c'.places == multiset{Place(c.home, Held(k, channel, Some(d.verdict)))}
            && SameIdentity(c, c') && Counted(c, c', 0, 0, 0)
  {
    var from := Place(c.home, Held(k, channel, None));
    assert from in c.places;
    MovedPlaces(c, from, Held(k, channel, Some(d.verdict)));
  }

  lemma FinishStage(w: World, s0: State, s: State, id: nat, k: nat, outcome: Outcome)
    requires ValidWorld(w)
    requires Stage(w, s0, s, id, k, Place(Home(w, k), Held(k, Channel(s0, k), None)), None,
                   Busy(Parcel(id, Channel(s0, k))))
    ensures CanFinish(s, k)
    ensures var s' := AfterFinish(w, s, k, outcome);
            var d := DecisionFor(w, s.copies[id], outcome, s.clock);
            && Stage(w, s0, s', id, k, Place(Home(w, k), Held(k, Channel(s0, k), Some(d.verdict))), None, Settled)
            && Counted(s.copies[id], s'.copies[id], 0, 0, 0) && s'.clock == s.clock
            && s'.failLog == if d.failed then s.failLog + [Failure(s.copies[id].home, s.copies[id].body)] else s.failLog
  {
    FinishShape(w, s0, s, id, k, outcome);
    FinishKeeps(w, s, k, outcome);
  }

  // ---- One more delivery ends it --------------------------------------------------------------------

  lemma RunsCons(w: World, s: State, step: Step, rest: seq<Step>, t: State)
    requires Enabled(w, s, step) && Runs(w, Next(w, s, step), rest, t)
    ensures Runs(w, s, [step] + rest, t)
  {
    assert ([step] + rest)[1..] == rest;
  }

  lemma AckStage(w: World, s: State, id: nat, p: Place)
    requires ValidWorld(w) && Inv(w, s) && id in s.copies && s.copies[id].places == multiset{p}
    requires p.status.Held? && p.status.sent == Some(Ack) && Enabled(w, s, Process(id, p))
    ensures var t := Next(w, s, Process(id, p));
            id in t.copies && t.copies[id].acked == 1 && t.failLog == s.failLog
  {
    ProcessStepKeeps(w, s, id, p);
    assert |s.copies[id].places| == 1;
  }

  /** Past the deadline, the next delivery whose handler returns an error and whose settlement
      arrives calls the fail handler with the body and acknowledges the copy; a nil result
      acknowledges it at any time. */
  lemma NextDeliveryEnds(w: World, s: State, id: nat, k: nat, outcome: Outcome) returns (steps: seq<Step>, t: State)
    requires ValidWorld(w) && Positioned(w, s, id, k) && outcome.Returned?
    requires outcome.err.None? || Expired(s.copies[id].headers, s.clock)
    ensures Runs(w, s, steps, t) && id in t.copies && t.copies[id].acked == 1
    ensures outcome.err.Some? ==> t.failLog == s.failLog + [Failure(s.copies[id].home, s.copies[id].body)]
    ensures outcome.err.None? ==> t.failLog == s.failLog
  {
    var s3, first := HandleOnce(w, s, id, k, outcome);
    if outcome.err.Some? { LateDecision(w, s.copies[id], outcome, s.clock); }
    var sent := Place(Home(w, k), Held(k, Channel(s, k), Some(Ack)));
    assert sent in s3.copies[id].places;
    AckStage(w, s3, id, sent);
    t := Next(w, s3, Process(id, sent));
    steps := first + ([Process(id, sent)] + []);
    RunsCons(w, s3, Process(id, sent), [], t);
    RunsAppend(w, s, first, s3, [Process(id, sent)] + [], t);
  }

  /** Deliver, call the handler, decide and send. */
  lemma HandleOnce(w: World, s: State, id: nat, k: nat, outcome: Outcome) returns (t: State, steps: seq<Step>)
    requires ValidWorld(w) && Positioned(w, s, id, k)
    ensures Runs(w, s, steps, t)
    ensures var d := DecisionFor(w, s.copies[id], outcome, s.clock);
            && Stage(w, s, t, id, k, Place(Home(w, k), Held(k, Channel(s, k), Some(d.verdict))), None, Settled)
            && t.failLog == if d.failed then s.failLog + [Failure(s.copies[id].home, s.copies[id].body)] else s.failLog
    ensures Counted(s.copies[id], t.copies[id], 1, 0, 0) && t.clock == s.clock
  {
    var held := Place(Home(w, k), Held(k, Channel(s, k), None));
    DeliverStage(w, s, id, k);
    var s1 := Next(w, s, Deliver(id, k));
    EnterStage(w, s, s1, id, k, held);
    var s2 := Next(w, s1, Enter(k));
    FinishStage(w, s, s2, id, k, outcome);
    t := Next(w, s2, Finish(k, outcome));
    steps := [Deliver(id, k)] + ([Enter(k)] + ([Finish(k, outcome)] + []));
    RunsCons(w, s2, Finish(k, outcome), [], t);
    RunsCons(w, s1, Enter(k), [Finish(k, outcome)] + [], t);
    RunsCons(w, s, Deliver(id, k), [Enter(k)] + ([Finish(k, outcome)] + []), t);
  }

  // ---- Through the delay queue and back ---------------------------------------------------------------

  /** Where a copy that enters the delay queue of a retry queue waits. */
  function DelayPlace(w: World, home: string, clock: int): Place {
    Place(Delay(home), Delayed(if IsRetry(w.queues, home) then clock + TtlOf(w, home) else clock))
  }

  predicate ToDelay(verdict: Verdict) {
    verdict == Drop || verdict == Reject
  }

  /** A rejected or dropped delivery's copy in the delay queue. */
  lemma DeadLetterAt(w: World, b: Broker, clock: int, c: Copy, p: Place, verdict: Verdict)
    requires NoClash(w.queues) && Within(b, w.queues) && IsRetry(w.queues, c.home)
    requires HoldsAll(b, Program(c.home, w.queues[c.home].retry))
    requires c.places == multiset{p} && p.queue == c.home && ToDelay(verdict)
    ensures var c' := Processed(b, clock, c, p, verdict);
            && c'.places == multiset{DelayPlace(w, c.home, clock)}
            && SameIdentity(c, c') && Counted(c, c', 0, One(verdict == Reject), One(verdict == Drop))
  {
    RetryDeadLetter(w, b, clock, c, p);
    DeadLetterCounted(b, clock, c, p, verdict);
  }

  lemma DeadLetterCounted(b: Broker, clock: int, c: Copy, p: Place, verdict: Verdict)
    requires ToDelay(verdict)
    ensures var c' := Processed(b, clock, c, p, verdict);
            && c'.places == DeadLettered(b, clock, c, p).places
            && SameIdentity(c, c') && Counted(c, c', 0, One(verdict == Reject), One(verdict == Drop))
  {
  }

  lemma PutShape(w: World, s0: State, s: State, id: nat, k: nat, p: Place, c: Copy, p': Place,
                 inbox: Option<Parcel>, task: Task)
    requires Shape(w, s0, s, id, k, p, inbox, task)
    requires SameIdentity(s.copies[id], c) && c.places == multiset{p'}
    ensures Shape(w, s0, Put(s, id, c), id, k, p', inbox, task)
    ensures Put(s, id, c).copies[id] == c && Put(s, id, c).clock == s.clock
  {
  }

  lemma ProcessShape(w: World, s0: State, s: State, id: nat, k: nat, p: Place, verdict: Verdict)
    requires ValidWorld(w) && CopiesInv(w, s) && p == Place(Home(w, k), Held(k, Channel(s0, k), Some(verdict)))
    requires Shape(w, s0, s, id, k, p, None, Settled)
    ensures Enabled(w, s, Process(id, p))
    ensures Next(w, s, Process(id, p)) == Put(s, id, Processed(s.setup.broker, s.clock, s.copies[id], p, verdict))
  {
    assert p in s.copies[id].places;
  }

  lemma DeadLetterStage(w: World, s0: State, s: State, id: nat, k: nat, p: Place, verdict: Verdict)
    requires ValidWorld(w) && p == Place(Home(w, k), Held(k, Channel(s0, k), Some(verdict))) && ToDelay(verdict)
    requires Stage(w, s0, s, id, k, p, None, Settled)
    ensures Enabled(w, s, Process(id, p))
    ensures Stage(w, s0, Next(w, s, Process(id, p)), id, k, DelayPlace(w, Home(w, k), s.clock), None, Settled)
    ensures Next(w, s, Process(id, p)).clock == s.clock
    ensures Counted(s.copies[id], Next(w, s, Process(id, p)).copies[id], 0, One(verdict == Reject), One(verdict == Drop))
  {
    ProcessShape(w, s0, s, id, k, p, verdict);
    assert Inv(w, Next(w, s, Process(id, p))) by { ProcessStepKeeps(w, s, id, p); }
    var c := Processed(s.setup.broker, s.clock, s.copies[id], p, verdict);
    DeadLetterAt(w, s.setup.broker, s.clock, s.copies[id], p, verdict);
    PutShape(w, s0, s, id, k, p, c, DelayPlace(w, Home(w, k), s.clock), None, Settled);
  }

  lemma LeaveStage(w: World, s0: State, s: State, id: nat, k: nat, p: Place)
    requires ValidWorld(w) && Stage(w, s0, s, id, k, p, None, Settled)
    ensures Enabled(w, s, Leave(k)) && Stage(w, s0, Next(w, s, Leave(k)), id, k, p, None, Idle)
    ensures Next(w, s, Leave(k)).copies == s.copies && Next(w, s, Leave(k)).clock == s.clock
  {
    WorkerStepKeeps(w, s, Leave(k));
  }

  lemma WaitStage(w: World, s0: State, s: State, id: nat, k: nat, p: Place)
    requires ValidWorld(w) && Stage(w, s0, s, id, k, p, None, Idle) && TtlOf(w, Home(w, k)) >= 0
    ensures var s' := Next(w, s, Tick(TtlOf(w, Home(w, k))));
            Stage(w, s0, s', id, k, p, None, Idle) && s'.copies == s.copies && s'.clock == s.clock + TtlOf(w, Home(w, k))
  {
    TickKeeps(w, s, TtlOf(w, Home(w, k)));
  }

  lemma ExpireAt(w: World, b: Broker, clock: int, c: Copy, p: Place)
    requires ValidWorld(w) && Within(b, w.queues) && CopyInv(w, b, clock, c) && IsRetry(w.queues, c.home)
    requires c.places == multiset{p} && p.queue == Delay(c.home)
    ensures var c' := DeadLettered(b, clock, c, p);
            && c'.places == multiset{Place(c.home, Ready)}
            && SameIdentity(c, c') && Counted(c, c', 0, 0, 0)
  {
    DeadLetterCycle(b, w.queues, c.home);
    HeldItems(b, w.queues, c.home);
    DeadLetteredPlaces(b, clock, c, p);
    DeadLetteredSameIdentity(b, clock, c, p);
  }

  lemma ExpireShape(w: World, s0: State, s: State, id: nat, k: nat, p: Place)
    requires ValidWorld(w) && CopiesInv(w, s) && p.status.Delayed? && p.queue == Delay(Home(w, k))
    requires Shape(w, s0, s, id, k, p, None, Idle) && p.status.until <= s.clock
    ensures Enabled(w, s, Expire(id, p))
    ensures var s' := Next(w, s, Expire(id, p));
            && Shape(w, s0, s', id, k, Place(Home(w, k), Ready), None, Idle)
            && Counted(s.copies[id], s'.copies[id], 0, 0, 0) && s'.clock == s.clock
  {
    assert p in s.copies[id].places;
    ExpireAt(w, s.setup.broker, s.clock, s.copies[id], p);
    PutShape(w, s0, s, id, k, p, DeadLettered(s.setup.broker, s.clock, s.copies[id], p),
             Place(Home(w, k), Ready), None, Idle);
  }

  lemma ExpireStage(w: World, s0: State, s: State, id: nat, k: nat, p: Place)
    requires ValidWorld(w) && p.status.Delayed? && p.queue == Delay(Home(w, k))
    requires Stage(w, s0, s, id, k, p, None, Idle) && p.status.until <= s.clock
    ensures Enabled(w, s, Expire(id, p))
    ensures var s' := Next(w, s, Expire(id, p));
            && Stage(w, s0, s', id, k, Place(Home(w, k), Ready), None, Idle)
            && Counted(s.copies[id], s'.copies[id], 0, 0, 0) && s'.clock == s.clock
  {
    ExpireShape(w, s0, s, id, k, p);
    ExpireStepKeeps(w, s, id, p);
  }

  lemma OthersUnoccupied(w: World, s0: State, s: State, id: nat, k: nat)
    requires Shape(w, s0, s, id, k, Place(Home(w, k), Ready), None, Idle) && Unoccupied(s0, k)
    ensures Unoccupied(s, k)
  {
    OutToGone(s.copies[id]);
    forall id' | id' in s.copies ensures !OutTo(s.copies[id'], k, s.workers[k].channel) {
      if id' != id { assert s.copies[id'] == s0.copies[id']; }
    }
  }

  lemma BackInPosition(w: World, s0: State, s: State, id: nat, k: nat)
    requires Unoccupied0(s0, k) && Stage(w, s0, s, id, k, Place(Home(w, k), Ready), None, Idle)
    ensures Positioned(w, s, id, k)
  {
    OthersUnoccupied(w, s0, s, id, k);
  }

  ghost predicate Unoccupied0(s: State, k: nat) {
    k in s.workers && Unoccupied(s, k)
  }

  /** A panic or a retried error, the trip through the delay queue, and the copy is where it was,
      one time to live later. */
  lemma RetryCycle(w: World, s: State, id: nat, k: nat, outcome: Outcome) returns (steps: seq<Step>, t: State)
    requires ValidWorld(w) && Positioned(w, s, id, k)
    requires ToDelay(DecisionFor(w, s.copies[id], outcome, s.clock).verdict)
    ensures Runs(w, s, steps, t) && Positioned(w, t, id, k) && t.clock == s.clock + TtlOf(w, Home(w, k))
    ensures var verdict := DecisionFor(w, s.copies[id], outcome, s.clock).verdict;
            Counted(s.copies[id], t.copies[id], 1, One(verdict == Reject), One(verdict == Drop))
    ensures t.copies[id].headers == s.copies[id].headers
  {
    var mid, first := IntoDelay(w, s, id, k, outcome);
    var second;
    t, second := DelayToReady(w, s, mid, id, k);
    steps := first + second;
    RunsAppend(w, s, first, mid, second, t);
    BackInPosition(w, s, t, id, k);
  }

  lemma IntoDelay(w: World, s: State, id: nat, k: nat, outcome: Outcome) returns (t: State, steps: seq<Step>)
    requires ValidWorld(w) && Positioned(w, s, id, k)
    requires ToDelay(DecisionFor(w, s.copies[id], outcome, s.clock).verdict)
    ensures Runs(w, s, steps, t) && t.clock == s.clock
    ensures Stage(w, s, t, id, k, DelayPlace(w, Home(w, k), t.clock), None, Settled)
    ensures var verdict := DecisionFor(w, s.copies[id], outcome, s.clock).verdict;
            Counted(s.copies[id], t.copies[id], 1, One(verdict == Reject), One(verdict == Drop))
  {
    var verdict := DecisionFor(w, s.copies[id], outcome, s.clock).verdict;
    var sent := Place(Home(w, k), Held(k, Channel(s, k), Some(verdict)));
    var s3, first := HandleOnce(w, s, id, k, outcome);
    DeadLetterStage(w, s, s3, id, k, sent, verdict);
    t := Next(w, s3, Process(id, sent));
    steps := first + ([Process(id, sent)] + []);
    RunsCons(w, s3, Process(id, sent), [], t);
    RunsAppend(w, s, first, s3, [Process(id, sent)] + [], t);
  }

  lemma DelayToReady(w: World, s0: State, s: State, id: nat, k: nat) returns (t: State, steps: seq<Step>)
    requires ValidWorld(w) && Stage(w, s0, s, id, k, DelayPlace(w, Home(w, k), s.clock), None, Settled)
    ensures Runs(w, s, steps, t) && Stage(w, s0, t, id, k, Place(Home(w, k), Ready), None, Idle)
    ensures Counted(s.copies[id], t.copies[id], 0, 0, 0) && t.clock == s.clock + TtlOf(w, Home(w, k))
  {
    var p := DelayPlace(w, Home(w, k), s.clock);
    TtlOfValidQueue(w.queues, true, Home(w, k));
    var ttl := TtlOf(w, Home(w, k));
    LeaveStage(w, s0, s, id, k, p);
    var s1 := Next(w, s, Leave(k));
    WaitStage(w, s0, s1, id, k, p);
    var s2 := Next(w, s1, Tick(ttl));
    ExpireStage(w, s0, s2, id, k, p);
    t := Next(w, s2, Expire(id, p));
    RunsCons(w, s2, Expire(id, p), [], t);
    RunsCons(w, s1, Tick(ttl), [Expire(id, p)] + [], t);
    steps := [Leave(k)] + ([Tick(ttl)] + ([Expire(id, p)] + []));
    RunsCons(w, s, Leave(k), [Tick(ttl)] + ([Expire(id, p)] + []), t);
  }

  lemma {:induction false} RunsAppend(w: World, s: State, first: seq<Step>, mid: State, second: seq<Step>, t: State)
    requires Runs(w, s, first, mid) && Runs(w, mid, second, t)
    ensures Runs(w, s, first + second, t)
    decreases |first|
  {
    if first == [] {
      assert first + second == second;
    } else {
      RunsAppend(w, Next(w, s, first[0]), first[1..], mid, second, t);
      assert (first + second)[1..] == first[1..] + second;
    }
  }

  // ---- Panics without end, and as many rejections as the deadline allows ------------------------------------

  /** A handler that keeps panicking is called any number of times with one copy, whatever its
      deadline: no bound on deliveries holds without counting panics. */
  lemma {:induction false} PanicsAreUnbounded(w: World, s: State, id: nat, k: nat, n: nat)
    returns (steps: seq<Step>, t: State)
    requires ValidWorld(w) && Positioned(w, s, id, k)
    ensures Runs(w, s, steps, t) && Positioned(w, t, id, k)
    ensures Counted(s.copies[id], t.copies[id], n, 0, n)
    decreases n
  {
    if n == 0 {
      steps, t := [], s;
    } else {
      var first, mid := RetryCycle(w, s, id, k, Panicked);
      var rest;
      rest, t := PanicsAreUnbounded(w, mid, id, k, n - 1);
      steps := first + rest;
      RunsAppend(w, s, first, mid, rest, t);
    }
  }

  const TRY_AGAIN: Outcome := Returned(Some(RetryableError(None)))

  /** Up to the limit an error marked for retry is decided to be rejected. */
  ghost predicate RejectsUntil(w: World, home: string, headers: Table, limit: int) {
    forall c: Copy, now: int {:trigger DecisionFor(w, c, TRY_AGAIN, now)} ::
      c.home == home && c.headers == headers && now <= limit ==> DecisionFor(w, c, TRY_AGAIN, now).verdict == Reject
  }

  /** Times one time to live apart, none past the limit. */
  ghost predicate Steady(times: seq<int>, ttl: int, limit: int) {
    && (forall i :: 0 <= i < |times| ==> times[i] <= limit)
    && (forall i, j :: 0 <= i && j == i + 1 && j < |times| ==> times[j] == times[i] + ttl)
  }

  /** The copy waits for its i-th rejection. */
  ghost predicate Waiting(w: World, s: State, id: nat, k: nat, headers: Table, times: seq<int>, i: nat) {
    && Positioned(w, s, id, k) && s.copies[id].headers == headers
    && i <= |times| && (i < |times| ==> times[i] == s.clock)
  }

  lemma OneRejection(w: World, s: State, id: nat, k: nat, headers: Table, limit: int, times: seq<int>, i: nat)
    returns (steps: seq<Step>, t: State)
    requires ValidWorld(w) && Waiting(w, s, id, k, headers, times, i) && i < |times|
    requires Steady(times, TtlOf(w, Home(w, k)), limit) && RejectsUntil(w, Home(w, k), headers, limit)
    ensures Runs(w, s, steps, t) && Waiting(w, t, id, k, headers, times, i + 1)
    ensures id in s.copies && id in t.copies && Counted(s.copies[id], t.copies[id], 1, 1, 0)
  {
    steps, t := RetryCycle(w, s, id, k, TRY_AGAIN);
    assert i + 1 < |times| ==> times[i + 1] == t.clock;
  }

  /** A handler that keeps asking for a retry gets a rejection at every time up to the limit. */
  lemma {:induction false} RejectionsAtTimes(w: World, s: State, id: nat, k: nat, headers: Table,
                                             limit: int, times: seq<int>, i: nat)
    returns (steps: seq<Step>, t: State)
    requires ValidWorld(w) && Waiting(w, s, id, k, headers, times, i)
    requires Steady(times, TtlOf(w, Home(w, k)), limit) && RejectsUntil(w, Home(w, k), headers, limit)
    ensures Runs(w, s, steps, t)
    ensures id in s.copies && id in t.copies && Counted(s.copies[id], t.copies[id], |times| - i, |times| - i, 0)
    decreases |times| - i
  {
    if i == |times| {
      steps, t := [], s;
    } else {
      var first, mid := OneRejection(w, s, id, k, headers, limit, times, i);
      var rest;
      rest, t := RejectionsAtTimes(w, mid, id, k, headers, limit, times, i + 1);
      steps := first + rest;
      CyclesAppend(w, s, first, mid, rest, t, id, |times| - i - 1);
    }
  }

  lemma CyclesAppend(w: World, s: State, first: seq<Step>, mid: State, rest: seq<Step>, t: State, id: nat, n: nat)
    requires Runs(w, s, first, mid) && Runs(w, mid, rest, t) && id in s.copies && id in mid.copies && id in t.copies
    requires Counted(s.copies[id], mid.copies[id], 1, 1, 0) && Counted(mid.copies[id], t.copies[id], n, n, 0)
    ensures Runs(w, s, first + rest, t) && Counted(s.copies[id], t.copies[id], n + 1, n + 1, 0)
  {
    RunsAppend(w, s, first, mid, rest, t);
  }
}
