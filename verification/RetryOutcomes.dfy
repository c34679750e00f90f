/** What the handlers' results do to a copy: why it was acknowledged or discarded in a run, and what
    each way to end leaves behind. The run's own steps are the reasons, not the decisions taken. */
module RetryOutcomes {
  import opened Basics
  import opened Configuration
  import opened RetryableErrors
  import opened Settlement
  import opened Topology
  import opened RetryProtocol
  import opened RetryInvariant
  import opened RetryTheorems
  import opened RetryProgress
  import opened RetryAccounts

  // ---- Why a copy left ------------------------------------------------------------------------------------

  /** In m a handler of this copy ends, with its delivery out and with this outcome, and the rest of
      the run goes on from there. */
  ghost predicate HandlerEnds(w: World, m: State, rest: seq<Step>, t: State, id: nat, outcome: Outcome)
    requires id in t.copies
  {
    && rest != [] && Runs(w, m, rest, t)
    && rest[0].Finish? && rest[0].outcome == outcome && CanFinish(m, rest[0].worker)
    && m.workers[rest[0].worker].task.parcel.id == id && id in m.copies && SameIdentity(m.copies[id], t.copies[id])
    && Place(t.copies[id].home, Held(rest[0].worker, m.workers[rest[0].worker].task.parcel.channel, None))
       in m.copies[id].places
  }

  lemma PrefixLater(w: World, s: State, steps: seq<Step>, j: nat, m: State)
    requires j < |steps| && Enabled(w, s, steps[0]) && Runs(w, Next(w, s, steps[0]), steps[1..][..j], m)
    ensures Runs(w, s, steps[..j + 1], m)
  {
    assert steps[..j + 1][0] == steps[0] && steps[..j + 1][1..] == steps[1..][..j];
  }

  /** Somewhere in the run a handler of this copy ended in a way that asks for v. */
  lemma {:induction false} EndedSomewhere(w: World, s: State, steps: seq<Step>, t: State, id: nat, v: Verdict)
      returns (i: nat, m: State)
    requires Runs(w, s, steps, t) && EndedIn(w, s, steps, id, v) > 0
    ensures i < |steps| && Runs(w, s, steps[..i], m) && Runs(w, m, steps[i..], t) && EndsNow(w, m, steps[i], id, v)
    decreases |steps|
  {
    if EndsNow(w, s, steps[0], id, v) {
      i, m := 0, s;
      assert steps[..0] == [] && steps[0..] == steps;
    } else {
      var j, m' := EndedSomewhere(w, Next(w, s, steps[0]), steps[1..], t, id, v);
      i, m := j + 1, m';
      PrefixLater(w, s, steps, j, m);
      assert steps[1..][j..] == steps[i..];
    }
  }

  /** From a new system: handlers that ended with the delivery out in a way that asks for v are as
      many as the settlements v that arrived, were lost, or are under way; and one that arrived has
      such a handler in the run. */
  lemma Asked(w: World, start: int, steps: seq<Step>, s: State, id: nat, v: Verdict) returns (i: nat, m: State)
    requires ValidWorld(w) && Runs(w, Initial(w, start), steps, s) && id in s.copies
    ensures EndedIn(w, Initial(w, start), steps, id, v)
            == Counter(s.copies[id], v) + LostIn(steps, id, v) + One(Sent(s.copies[id], v))
    ensures i <= |steps|
    ensures Counter(s.copies[id], v) > 0 ==>
              && i < |steps| && Runs(w, Initial(w, start), steps[..i], m)
              && EndsNow(w, m, steps[i], id, v) && HandlerEnds(w, m, steps[i..], s, id, steps[i].outcome)
  {
    InitialInv(w, start);
    SettlementsBalance(w, Initial(w, start), steps, s, id, v);
    i, m := 0, s;
    if Counter(s.copies[id], v) > 0 {
      i, m := EndedSomewhere(w, Initial(w, start), steps, s, id, v);
      RunKeepsIdentity(w, m, steps[i..], s);
    }
  }

  /** The run has such an end of a handler, after the steps before i. */
  ghost predicate EndsAfter(w: World, start: int, steps: seq<Step>, i: nat, m: State, t: State, id: nat, outcome: Outcome)
    requires id in t.copies
  {
    i < |steps| && Runs(w, Initial(w, start), steps[..i], m) && HandlerEnds(w, m, steps[i..], t, id, outcome)
  }

  /** Without retry: a copy stays in its queue until it is acknowledged or discarded. It is discarded
      only if in the run its handler panicked while the delivery was out, acknowledged only if its
      handler so returned nil, and an error never ends it. */
  lemma PlainConservation(w: World, start: int, steps: seq<Step>, s: State, id: nat)
    requires ValidWorld(w) && Runs(w, Initial(w, start), steps, s)
    requires id in s.copies && !IsRetry(w.queues, s.copies[id].home)
    ensures var c := s.copies[id];
            || (c.acked == 0 && c.discarded == 0 && exists p :: c.places == multiset{p} && InQueue(c, p))
            || (c.acked == 1 && c.discarded == 0 && c.places == multiset{})
            || (c.acked == 0 && c.discarded == 1 && c.places == multiset{})
    ensures s.copies[id].discarded == 1 ==>
              exists i: nat, m: State :: EndsAfter(w, start, steps, i, m, s, id, Panicked)
    ensures s.copies[id].acked == 1 ==>
              exists i: nat, m: State :: EndsAfter(w, start, steps, i, m, s, id, Returned(None))
    ensures !s.copies[id].failed && forall job :: job in s.failLog ==> job.queue != s.copies[id].home
  {
    PlainPlaces(w, start, steps, s, id);
    var i, m := Asked(w, start, steps, s, id, Drop);
    if s.copies[id].panicked > 0 { assert EndsAfter(w, start, steps, i, m, s, id, Panicked); }
    i, m := Asked(w, start, steps, s, id, Ack);
    if s.copies[id].acked > 0 { assert EndsAfter(w, start, steps, i, m, s, id, Returned(None)); }
  }

  /** Retry mode, in every reachable state, whatever errors, panics, lost settlements, lost channels
      and expiries happened: no copy is lost, doubled or misrouted. It is acknowledged only if in
      the run its handler, with the delivery out, returned nil, or an error past the deadline or not
      marked for retry, for which the fail handler was called with its queue and body. */
  lemma RetryConservation(w: World, start: int, steps: seq<Step>, s: State, id: nat)
    requires ValidWorld(w) && Runs(w, Initial(w, start), steps, s)
    requires id in s.copies && IsRetry(w.queues, s.copies[id].home)
    ensures Conserved(s.copies[id]) && s.copies[id].discarded == 0
    ensures s.copies[id].acked == 1 ==>
              exists i: nat, m: State, outcome ::
                && EndsAfter(w, start, steps, i, m, s, id, outcome)
                && (outcome == Returned(None) || FailsFinally(w, m, steps[i], s.copies[id], outcome))
    ensures s.copies[id].acked == 1 ==>
              || s.copies[id].handled
              || (s.copies[id].failed && Failure(s.copies[id].home, s.copies[id].body) in s.failLog)
  {
    RetryPlaces(w, start, steps, s, id);
    var i, m := Asked(w, start, steps, s, id, Ack);
    if s.copies[id].acked > 0 { AckExplained(w, m, steps[i], s.copies[id]); }
  }

  lemma AckExplained(w: World, m: State, step: Step, c: Copy)
    requires IsRetry(w.queues, c.home)
    requires step.Finish? && CanFinish(m, step.worker)
    requires var id := m.workers[step.worker].task.parcel.id;
             SameIdentity(m.copies[id], c) && EndsNow(w, m, step, id, Ack)
    ensures step.outcome == Returned(None) || FailsFinally(w, m, step, c, step.outcome)
  {
    FinallyFailsCalls(w, m, step.worker, step.outcome);
  }

  /** The step is the end of a handler with a final failure of the copy: the fail handler is called. */
  ghost predicate FailsFinally(w: World, m: State, step: Step, c: Copy, outcome: Outcome) {
    && outcome.Returned? && outcome.err.Some? && (Expired(c.headers, m.clock) || !IsRetryable(outcome.err))
    && Enabled(w, m, step) && Next(w, m, step).failLog == m.failLog + [Failure(c.home, c.body)]
  }

  lemma FinallyFailsCalls(w: World, m: State, k: nat, outcome: Outcome)
    requires CanFinish(m, k)
    ensures var c := m.copies[m.workers[k].task.parcel.id];
            AfterFinish(w, m, k, outcome).failLog
            == if FinallyFails(IsRetry(w.queues, c.home), outcome, Expired(c.headers, m.clock))
               then m.failLog + [Failure(c.home, c.body)] else m.failLog
  {
    var c := m.copies[m.workers[k].task.parcel.id];
    DecideIs(IsRetry(w.queues, c.home), outcome, Expired(c.headers, m.clock), Ack);
  }

  // ---- Where copies come from -----------------------------------------------------------------------------

  /** The step is a publish that the broker takes as this copy: with the step's body and headers, for
      the queue of the publishing client, at this time, ready in that queue and nowhere else. */
  ghost predicate TakenIn(w: World, m: State, step: Step, id: nat, c: Copy) {
    && step.Accept? && step.id == id && id !in m.copies && Up(w, m, step.client)
    && c.home == w.clients[step.client] && c.body == step.body && c.headers == step.headers && c.acceptedAt == m.clock
    && c.places == multiset{Place(c.home, Ready)}
  }

  lemma AppearsTaken(w: World, s: State, step: Step, id: nat)
    requires NoClash(w.queues) && CopiesInv(w, s) && Enabled(w, s, step)
    requires id !in s.copies && id in Next(w, s, step).copies
    ensures TakenIn(w, s, step, id, Next(w, s, step).copies[id])
  {
    KeysGrow(w, s, step);
    FreshPlace(w, s, step);
  }

  /** Every copy comes from one publish of the run. */
  lemma {:induction false} ComesFromPublish(w: World, s: State, steps: seq<Step>, t: State, id: nat)
      returns (i: nat, m: State, c: Copy)
    requires ValidWorld(w) && Inv(w, s) && Runs(w, s, steps, t) && id !in s.copies && id in t.copies
    ensures i < |steps| && Runs(w, s, steps[..i], m)
    ensures TakenIn(w, m, steps[i], id, c) && SameIdentity(c, t.copies[id])
    decreases |steps|
  {
    var s' := Next(w, s, steps[0]);
    if id in s'.copies {
      i, m, c := 0, s, s'.copies[id];
      AppearsTaken(w, s, steps[0], id);
      assert steps[..0] == [];
      RunKeepsIdentity(w, s', steps[1..], t);
    } else {
      StepKeeps(w, s, steps[0]);
      var j;
      j, m, c := ComesFromPublish(w, s', steps[1..], t, id);
      i := j + 1;
      PrefixLater(w, s, steps, j, m);
    }
  }

  lemma FreshPlace(w: World, s: State, step: Step)
    requires NoClash(w.queues) && CopiesInv(w, s) && step.Accept? && Enabled(w, s, step)
    ensures NewCopy(s.setup.broker, s.clock, w.clients[step.client], step.body, step.headers).places
            == multiset{Place(w.clients[step.client], Ready)}
  {
    var home := w.clients[step.client];
    assert Program(home, w.queues[home].retry)[..s.setup.progress[step.client]] == Program(home, w.queues[home].retry);
    DeadLetterCycle(s.setup.broker, w.queues, home);
    HeldItems(s.setup.broker, w.queues, home);
    ArrivalsAt(s.setup.broker, s.clock, DefaultTargets(s.setup.broker, home), home);
  }

  // ---- Lost channels -----------------------------------------------------------------------------------------

  /** The worker has had this channel and has it no more. */
  predicate Gone(s: State, k: nat, channel: nat) {
    && k in s.workers && channel <= s.workers[k].channel
    && !(s.workers[k].open && s.workers[k].channel == channel)
  }

  lemma GoneStays(w: World, s: State, step: Step, k: nat, channel: nat)
    requires Enabled(w, s, step) && Gone(s, k, channel)
    ensures Gone(Next(w, s, step), k, channel)
  {
    if WorkerStep(step) {
      WorkerStepGone(w, s, step, k, channel);
    } else {
      SameChannels(w, s, step, k);
    }
  }

  lemma WorkerStepGone(w: World, s: State, step: Step, k: nat, channel: nat)
    requires WorkerStep(step) && Enabled(w, s, step) && Gone(s, k, channel)
    ensures Gone(Next(w, s, step), k, channel)
  {
  }

  lemma SameChannels(w: World, s: State, step: Step, k: nat)
    requires Enabled(w, s, step) && !WorkerStep(step) && k in s.workers
    ensures var s' := Next(w, s, step);
            k in s'.workers && s'.workers[k].channel == s.workers[k].channel && s'.workers[k].open == s.workers[k].open
  {
    match step
    case Deliver(i, j) => assert Next(w, s, step) == AfterDeliver(w, s, i, j);
    case Finish(j, outcome) => assert Next(w, s, step) == AfterFinish(w, s, j, outcome);
    case _ =>
  }

  /** A settlement sent on a channel that is gone never arrives, whatever comes later, a new
      subscription of the same worker included: that delivery can only be given back. */
  lemma {:induction false} LostNeverSettles(w: World, s: State, steps: seq<Step>, t: State, k: nat, channel: nat, i: nat)
    requires Runs(w, s, steps, t) && Gone(s, k, channel) && i < |steps|
    requires steps[i].Process? && steps[i].place.status.Held? && steps[i].place.status.worker == k
    ensures steps[i].place.status.channel != channel
    decreases |steps|
  {
    if i > 0 {
      GoneStays(w, s, steps[0], k, channel);
      LostNeverSettles(w, Next(w, s, steps[0]), steps[1..], t, k, channel, i - 1);
    }
  }

  // ---- Entries into the delay queue -----------------------------------------------------------------------

  /** Over any run the entries of a copy into the delay queue are the panics and the errors marked
      for retry before the deadline, of handlers that ended with the delivery out, but for the
      settlements that were lost or are under way. */
  lemma EntriesAreOutcomes(w: World, s: State, steps: seq<Step>, t: State, id: nat)
    requires ValidWorld(w) && Inv(w, s) && Runs(w, s, steps, t)
    requires id in s.copies && IsRetry(w.queues, s.copies[id].home)
    ensures EntriesIn(w, s, steps, id) + LostIn(steps, id, Reject) + LostIn(steps, id, Drop)
              + One(SentAt(t, id, Reject)) + One(SentAt(t, id, Drop))
            == EndedIn(w, s, steps, id, Reject) + EndedIn(w, s, steps, id, Drop)
              + One(SentAt(s, id, Reject)) + One(SentAt(s, id, Drop))
  {
    assert EntriesIn(w, s, steps, id) == SettledIn(steps, id, Reject) + SettledIn(steps, id, Drop) by {
      EntriesAreSettlements(w, s, steps, t, id);
    }
    Balance(w, s, steps, t, id, Reject);
    Balance(w, s, steps, t, id, Drop);
  }

  lemma Balance(w: World, s: State, steps: seq<Step>, t: State, id: nat, v: Verdict)
    requires ValidWorld(w) && Inv(w, s) && Runs(w, s, steps, t)
    ensures EndedIn(w, s, steps, id, v) + One(SentAt(s, id, v))
            == SettledIn(steps, id, v) + LostIn(steps, id, v) + One(SentAt(t, id, v))
  {
    SettlementsBalance(w, s, steps, t, id, v);
  }

  lemma EntriesAreSettlements(w: World, s: State, steps: seq<Step>, t: State, id: nat)
    requires ValidWorld(w) && Inv(w, s) && Runs(w, s, steps, t)
    requires id in s.copies && IsRetry(w.queues, s.copies[id].home)
    ensures EntriesIn(w, s, steps, id) == SettledIn(steps, id, Reject) + SettledIn(steps, id, Drop)
  {
    EntriesCounted(w, s, steps, t, id);
    CounterGrows(w, s, steps, t, id, Reject);
    CounterGrows(w, s, steps, t, id, Drop);
    Tally(s.copies[id], t.copies[id], EntriesIn(w, s, steps, id), SettledIn(steps, id, Reject), SettledIn(steps, id, Drop));
  }

  lemma Tally(c: Copy, c': Copy, entries: nat, rejections: nat, drops: nat)
    requires entries == (c'.rejected - c.rejected) + (c'.panicked - c.panicked)
    requires Counter(c', Reject) == Counter(c, Reject) + rejections && Counter(c', Drop) == Counter(c, Drop) + drops
    ensures entries == rejections + drops
  {
  }

  lemma CounterGrows(w: World, s: State, steps: seq<Step>, t: State, id: nat, v: Verdict)
    requires ValidWorld(w) && Inv(w, s) && Runs(w, s, steps, t) && id in s.copies && id in t.copies
    ensures Counter(t.copies[id], v) == Counter(s.copies[id], v) + SettledIn(steps, id, v)
  {
    SettlementsBalance(w, s, steps, t, id, v);
  }

  /** Past its deadline, with no rejection on its way, a copy enters the delay queue through panics
      only: over any continuation the entries are the handlers that panicked with the delivery out,
      but for the settlements that were lost or are under way. */
  lemma LateEntriesArePanics(w: World, s: State, steps: seq<Step>, t: State, id: nat)
    requires ValidWorld(w) && Inv(w, s) && Runs(w, s, steps, t)
    requires id in s.copies && Late(s.copies[id], s.clock) && IsRetry(w.queues, s.copies[id].home)
    ensures id in t.copies && t.copies[id].rejected == s.copies[id].rejected
    ensures EntriesIn(w, s, steps, id) == t.copies[id].panicked - s.copies[id].panicked
    ensures EntriesIn(w, s, steps, id) + LostIn(steps, id, Drop) + One(SentAt(t, id, Drop))
            == EndedIn(w, s, steps, id, Drop) + One(SentAt(s, id, Drop))
  {
    EntriesCounted(w, s, steps, t, id);
    LateNeverRejected(w, s, steps, t, id);
    Balance(w, s, steps, t, id, Drop);
    CounterGrows(w, s, steps, t, id, Drop);
  }

  // ---- The fail handler ---------------------------------------------------------------------------------

  /** A handler of the copy fails it for good. */
  ghost predicate FailsNow(w: World, s: State, step: Step, id: nat) {
    && id in s.copies && Concludes(s, step, id)
    && FinallyFails(IsRetry(w.queues, s.copies[id].home), step.outcome, Expired(s.copies[id].headers, s.clock))
  }

  /** The call of the fail handler that a step makes, if any: the failed copy's queue and body. */
  ghost function FailureAt(w: World, s: State, step: Step): seq<Failure> {
    if step.Finish? && CanFinish(s, step.worker) && FailsNow(w, s, step, s.workers[step.worker].task.parcel.id)
    then var c := s.copies[s.workers[step.worker].task.parcel.id]; [Failure(c.home, c.body)]
    else []
  }

  ghost function FailuresIn(w: World, s: State, steps: seq<Step>): seq<Failure>
    decreases |steps|
  {
    if steps == [] || !Enabled(w, s, steps[0]) then []
    else FailureAt(w, s, steps[0]) + FailuresIn(w, Next(w, s, steps[0]), steps[1..])
  }

  lemma StepFails(w: World, s: State, step: Step)
    requires Enabled(w, s, step)
    ensures Next(w, s, step).failLog == s.failLog + FailureAt(w, s, step)
  {
    if step.Finish? {
      FinallyFailsCalls(w, s, step.worker, step.outcome);
    } else if WorkerStep(step) {
      WorkerStepShape(w, s, step);
    }
  }

  /** The fail handler is called once for every error past the deadline or not marked for retry, in
      that order, with that copy's queue and body, and at no other time. */
  lemma {:induction false} FailLogIsExact(w: World, s: State, steps: seq<Step>, t: State)
    requires Runs(w, s, steps, t)
    ensures t.failLog == s.failLog + FailuresIn(w, s, steps)
    decreases |steps|
  {
    if steps != [] {
      var s' := Next(w, s, steps[0]);
      assert s'.failLog == s.failLog + FailureAt(w, s, steps[0]) by { StepFails(w, s, steps[0]); }
      FailLogIsExact(w, s', steps[1..], t);
      Associative(s.failLog, FailureAt(w, s, steps[0]), FailuresIn(w, s', steps[1..]));
    }
  }

  // ---- One delivery -----------------------------------------------------------------------------------------

  /** The copy is out with worker k, whose handler is running. */
  ghost predicate OutWith(s: State, id: nat, k: nat) {
    && CanFinish(s, k) && s.workers[k].task.parcel.id == id
    && Place(s.copies[id].home, Held(k, s.workers[k].task.parcel.channel, None)) in s.copies[id].places
  }

  ghost predicate Now(c: Copy, c': Copy, acked: nat, discarded: nat, places: multiset<Place>) {
    c'.acked == c.acked + acked && c'.discarded == c.discarded + discarded && c'.places == places
  }

  /** What is left of a copy without retry once the settlement has arrived: nil ends it, an error
      puts it back into its queue, a panic discards it. */
  ghost predicate PlainLeft(c: Copy, outcome: Outcome, c': Copy) {
    match outcome
    case Panicked => Now(c, c', 0, 1, multiset{})
    case Returned(None) => Now(c, c', 1, 0, multiset{})
    case Returned(_) => Now(c, c', 0, 0, multiset{Place(c.home, Ready)})
  }

  /** With retry: nil ends it; a panic, and an error marked for retry before the deadline, put it into
      the delay queue for the time to live; every other error ends it. */
  ghost predicate RetryLeft(c: Copy, outcome: Outcome, expired: bool, until: int, c': Copy) {
    match outcome
    case Panicked => Now(c, c', 0, 0, multiset{Place(Delay(c.home), Delayed(until))})
    case Returned(None) => Now(c, c', 1, 0, multiset{})
    case Returned(err) =>
      if IsRetryable(err) && !expired then Now(c, c', 0, 0, multiset{Place(Delay(c.home), Delayed(until))})
      else Now(c, c', 1, 0, multiset{})
  }

  lemma ConcludedPlace(c: Copy, k: nat, channel: nat, outcome: Outcome, d: Decision)
    requires Place(c.home, Held(k, channel, None)) in c.places && |c.places| <= 1
    ensures Concluded(c, k, channel, outcome, d).places == multiset{Place(c.home, Held(k, channel, Some(d.verdict)))}
  {
    OnlyPlace(c, Place(c.home, Held(k, channel, None)));
    MovedPlaces(c, Place(c.home, Held(k, channel, None)), Held(k, channel, Some(d.verdict)));
  }

  lemma PlainProcessed(b: Broker, clock: int, c: Copy, p: Place, verdict: Verdict)
    requires DeadLetterTargets(b, p.queue) == {} && c.places == multiset{p}
    ensures var c' := Processed(b, clock, c, p, verdict);
            && (verdict == Ack ==> Now(c, c', 1, 0, multiset{}))
            && (verdict == Drop ==> Now(c, c', 0, 1, multiset{}))
            && (verdict == Requeue ==> Now(c, c', 0, 0, multiset{Place(p.queue, Ready)}))
  {
    match verdict
    case Requeue => MovedPlaces(c, p, Ready);
    case Drop => DeadLetteredPlaces(b, clock, c, p);
    case _ =>
  }

  lemma RetryProcessed(b: Broker, clock: int, c: Copy, p: Place, verdict: Verdict, p': Place)
    requires c.places == multiset{p} && verdict != Requeue
    requires DeadLettered(b, clock, c, p) == c.(places := multiset{p'})
    ensures var c' := Processed(b, clock, c, p, verdict);
            if verdict == Ack then Now(c, c', 1, 0, multiset{}) else Now(c, c', 0, 0, multiset{p'})
  {
  }

  function Until(w: World, clock: int, c: Copy): int {
    if IsRetry(w.queues, c.home) then clock + TtlOf(w, c.home) else clock
  }

  /** What is left of a copy once its handler has ended and the settlement sent for it has arrived. */
  ghost predicate LeftBehind(retry: bool, c: Copy, outcome: Outcome, expired: bool, until: int, c': Copy) {
    if retry then RetryLeft(c, outcome, expired, until, c') else PlainLeft(c, outcome, c')
  }

  /** What the two steps need to know of the copy and the broker. */
  ghost predicate Declared(w: World, b: Broker, c: Copy) {
    && Within(b, w.queues) && c.home in w.queues && HoldsAll(b, Program(c.home, w.queues[c.home].retry))
    && |c.places| <= 1
  }

  /** The copy after the handler's end and the arrival of what was sent for it. */
  function Ended(b: Broker, clock: int, c: Copy, k: nat, channel: nat, outcome: Outcome, d: Decision): Copy {
    Processed(b, clock, Concluded(c, k, channel, outcome, d), Place(c.home, Held(k, channel, Some(d.verdict))),
              d.verdict)
  }

  lemma PlainEnded(w: World, b: Broker, clock: int, c: Copy, k: nat, channel: nat, outcome: Outcome, expired: bool)
    requires Place(c.home, Held(k, channel, None)) in c.places && |c.places| <= 1
    requires DeadLetterTargets(b, c.home) == {}
    ensures LeftBehind(false, c, outcome, expired, Until(w, clock, c),
                       Ended(b, clock, c, k, channel, outcome, Decide(false, outcome, expired)))
  {
    var d := Decide(false, outcome, expired);
    ConcludedPlace(c, k, channel, outcome, d);
    PlainProcessed(b, clock, Concluded(c, k, channel, outcome, d), Place(c.home, Held(k, channel, Some(d.verdict))),
                   d.verdict);
  }

  lemma RetryNow(c: Copy, c': Copy, outcome: Outcome, expired: bool, until: int, d: Decision, c'': Copy)
    requires d == Decide(true, outcome, expired) && c'.acked == c.acked && c'.discarded == c.discarded
    requires if d.verdict == Ack then Now(c', c'', 1, 0, multiset{})
             else Now(c', c'', 0, 0, multiset{Place(Delay(c.home), Delayed(until))})
    ensures LeftBehind(true, c, outcome, expired, until, c'')
  {
  }

  lemma GoesToDelay(w: World, b: Broker, clock: int, c: Copy, c': Copy, p: Place)
    requires NoClash(w.queues) && Declared(w, b, c) && IsRetry(w.queues, c.home)
    requires c'.home == c.home && c'.places == multiset{p} && p.queue == c.home
    ensures DeadLettered(b, clock, c', p)
            == c'.(places := multiset{Place(Delay(c.home), Delayed(Until(w, clock, c)))})
  {
    RetryDeadLetter(w, b, clock, c', p);
  }

  lemma RetryEnded(w: World, b: Broker, clock: int, c: Copy, k: nat, channel: nat, outcome: Outcome, expired: bool)
    requires Place(c.home, Held(k, channel, None)) in c.places && Declared(w, b, c)
    requires NoClash(w.queues) && IsRetry(w.queues, c.home)
    ensures LeftBehind(true, c, outcome, expired, Until(w, clock, c),
                       Ended(b, clock, c, k, channel, outcome, Decide(true, outcome, expired)))
  {
    var d := Decide(true, outcome, expired);
    var c' := Concluded(c, k, channel, outcome, d);
    var p := Place(c.home, Held(k, channel, Some(d.verdict)));
    var delayed := Place(Delay(c.home), Delayed(Until(w, clock, c)));
    ConcludedPlace(c, k, channel, outcome, d);
    ConcludedSameIdentity(c, k, channel, outcome, d);
    GoesToDelay(w, b, clock, c, c', p);
    RetryProcessed(b, clock, c', p, d.verdict, delayed);
    RetryNow(c, c', outcome, expired, Until(w, clock, c), d, Processed(b, clock, c', p, d.verdict));
  }

  function ChannelOf(s: State, k: nat): nat
    requires CanFinish(s, k)
  {
    s.workers[k].task.parcel.channel
  }

  lemma FinishedState(w: World, s: State, k: nat, outcome: Outcome)
    requires CanFinish(s, k)
    ensures var s' := AfterFinish(w, s, k, outcome);
            var id := s.workers[k].task.parcel.id;
            && s'.copies == s.copies[id := Concluded(s.copies[id], k, ChannelOf(s, k), outcome,
                                                     DecisionFor(w, s.copies[id], outcome, s.clock))]
            && s'.setup == s.setup && s'.clock == s.clock && s'.workers == s.workers[k := s.workers[k].(task := Settled)]
  {
  }

  lemma ConcludedAt(c: Copy, k: nat, channel: nat, outcome: Outcome, d: Decision, p: Place)
    requires Place(c.home, Held(k, channel, None)) in c.places && |c.places| <= 1
    requires p in Concluded(c, k, channel, outcome, d).places
    ensures p == Place(c.home, Held(k, channel, Some(d.verdict)))
  {
    ConcludedPlace(c, k, channel, outcome, d);
  }

  /** The settlement that was sent can arrive while the channel of the delivery lives. */
  lemma SettlementCanArrive(w: World, s: State, id: nat, k: nat, outcome: Outcome) returns (p: Place)
    requires OutWith(s, id, k) && |s.copies[id].places| <= 1
    requires s.workers[k].open && s.workers[k].channel == ChannelOf(s, k)
    ensures Enabled(w, AfterFinish(w, s, k, outcome), Process(id, p))
  {
    FinishedState(w, s, k, outcome);
    var d := DecisionFor(w, s.copies[id], outcome, s.clock);
    ConcludedPlace(s.copies[id], k, ChannelOf(s, k), outcome, d);
    p := Place(s.copies[id].home, Held(k, ChannelOf(s, k), Some(d.verdict)));
    assert p in AfterFinish(w, s, k, outcome).copies[id].places;
  }

  /** The two steps together replace the copy by Ended and leave every other copy. */
  lemma EndedState(w: World, s: State, id: nat, k: nat, outcome: Outcome, p: Place)
    requires OutWith(s, id, k) && |s.copies[id].places| <= 1
    requires Enabled(w, AfterFinish(w, s, k, outcome), Process(id, p))
    ensures Next(w, AfterFinish(w, s, k, outcome), Process(id, p)).copies
            == s.copies[id := Ended(s.setup.broker, s.clock, s.copies[id], k, ChannelOf(s, k), outcome,
                                    DecisionFor(w, s.copies[id], outcome, s.clock))]
  {
    FinishedState(w, s, k, outcome);
    ConcludedAt(s.copies[id], k, ChannelOf(s, k), outcome, DecisionFor(w, s.copies[id], outcome, s.clock), p);
  }

  lemma IsDeclared(w: World, s: State, id: nat)
    requires CopiesInv(w, s) && id in s.copies
    ensures Declared(w, s.setup.broker, s.copies[id])
  {
    assert CopyInv(w, s.setup.broker, s.clock, s.copies[id]);
  }

  lemma EndedIsLeft(w: World, b: Broker, clock: int, c: Copy, k: nat, channel: nat, outcome: Outcome, expired: bool)
    requires NoClash(w.queues) && Declared(w, b, c) && Place(c.home, Held(k, channel, None)) in c.places
    ensures var retry := IsRetry(w.queues, c.home);
            LeftBehind(retry, c, outcome, expired, Until(w, clock, c),
                 Ended(b, clock, c, k, channel, outcome, Decide(retry, outcome, expired)))
  {
    if IsRetry(w.queues, c.home) {
      RetryEnded(w, b, clock, c, k, channel, outcome, expired);
    } else {
      PlainHasNoDeadLetter(w, b, c.home);
      PlainEnded(w, b, clock, c, k, channel, outcome, expired);
    }
  }

  lemma PlainHasNoDeadLetter(w: World, b: Broker, n: string)
    requires NoClash(w.queues) && Within(b, w.queues) && n in w.queues && HoldsAll(b, Program(n, w.queues[n].retry))
    requires !IsRetry(w.queues, n)
    ensures DeadLetterTargets(b, n) == {}
  {
    DeadLetterCycle(b, w.queues, n);
  }

  lemma DeclaredDecides(w: World, s: State, id: nat, k: nat, outcome: Outcome, p: Place)
    requires NoClash(w.queues) && OutWith(s, id, k) && Declared(w, s.setup.broker, s.copies[id])
    requires Enabled(w, AfterFinish(w, s, k, outcome), Process(id, p))
    ensures Decided(w, s, id, outcome, Next(w, AfterFinish(w, s, k, outcome), Process(id, p)))
  {
    var c := s.copies[id];
    var c' := Ended(s.setup.broker, s.clock, c, k, ChannelOf(s, k), outcome, DecisionFor(w, c, outcome, s.clock));
    assert Next(w, AfterFinish(w, s, k, outcome), Process(id, p)).copies == s.copies[id := c'] by {
      EndedState(w, s, id, k, outcome, p);
    }
    assert LeftBehind(IsRetry(w.queues, c.home), c, outcome, Expired(c.headers, s.clock), Until(w, s.clock, c), c') by {
      EndedIsLeft(w, s.setup.broker, s.clock, c, k, ChannelOf(s, k), outcome, Expired(c.headers, s.clock));
    }
  }

  /** Between s and t the copy became what its handler's outcome says, and no other copy changed. */
  ghost predicate Decided(w: World, s: State, id: nat, outcome: Outcome, t: State)
    requires id in s.copies
  {
    var c := s.copies[id];
    && id in t.copies && t.copies == s.copies[id := t.copies[id]]
    && LeftBehind(IsRetry(w.queues, c.home), c, outcome, Expired(c.headers, s.clock), Until(w, s.clock, c), t.copies[id])
  }

  ghost predicate Takes(w: World, s: State, step: Step, t: State) {
    Enabled(w, s, step) && Next(w, s, step) == t
  }

  lemma TakesFinish(w: World, s: State, k: nat, outcome: Outcome, t: State)
    requires Takes(w, s, Finish(k, outcome), t)
    ensures CanFinish(s, k) && t == AfterFinish(w, s, k, outcome)
  {
  }

  /** A handler ends with the delivery out, and the settlement sent for it arrives, whichever it is:
      what is left of the copy follows from the outcome alone, and no other copy changes. */
  lemma OutcomeDecides(w: World, s: State, id: nat, k: nat, outcome: Outcome, m: State, p: Place, t: State)
    requires NoClash(w.queues) && CopiesInv(w, s) && OutWith(s, id, k)
    requires Takes(w, s, Finish(k, outcome), m) && Takes(w, m, Process(id, p), t)
    ensures Decided(w, s, id, outcome, t)
  {
    IsDeclared(w, s, id);
    TakesFinish(w, s, k, outcome, m);
    DeclaredDecides(w, s, id, k, outcome, p);
  }
}
