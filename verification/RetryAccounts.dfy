/** What a run did to one copy, counted from its steps: how its handlers ended while the copy was
    out, which settlements arrived, which were lost. */
module RetryAccounts {
  import opened Basics
  import opened Configuration
  import opened Settlement
  import opened Topology
  import opened RetryProtocol
  import opened RetryInvariant
  import opened RetryTheorems
  import opened RetryProgress

  // ---- What one step is for one copy ---------------------------------------------------------------------

  /** A handler of this copy ends. */
  ghost predicate Concludes(s: State, step: Step, id: nat) {
    step.Finish? && CanFinish(s, step.worker) && s.workers[step.worker].task.parcel.id == id
  }

  /** Its delivery is still out, with nothing sent for it. */
  ghost predicate StillOut(s: State, k: nat, id: nat)
    requires CanFinish(s, k) && id in s.copies
  {
    Place(s.copies[id].home, Held(k, s.workers[k].task.parcel.channel, None)) in s.copies[id].places
  }

  /** A handler of this copy ends while its delivery is out, in a way that asks for v. */
  ghost predicate EndsNow(w: World, s: State, step: Step, id: nat, v: Verdict) {
    && id in s.copies && Concludes(s, step, id) && StillOut(s, step.worker, id)
    && Ends(IsRetry(w.queues, s.copies[id].home), step.outcome, Expired(s.copies[id].headers, s.clock), v)
  }

  /** The broker processes v for this copy. */
  predicate SettlesNow(step: Step, id: nat, v: Verdict) {
    step.Process? && step.id == id && step.place.status.Held? && step.place.status.sent == Some(v)
  }

  /** The channel of the delivery is gone before the broker processed v. */
  predicate LosesNow(step: Step, id: nat, v: Verdict) {
    step.Return? && step.id == id && step.place.status.Held? && step.place.status.sent == Some(v)
  }

  ghost function EndedIn(w: World, s: State, steps: seq<Step>, id: nat, v: Verdict): nat
    decreases |steps|
  {
    if steps == [] || !Enabled(w, s, steps[0]) then 0
    else One(EndsNow(w, s, steps[0], id, v)) + EndedIn(w, Next(w, s, steps[0]), steps[1..], id, v)
  }

  function SettledIn(steps: seq<Step>, id: nat, v: Verdict): nat {
    if steps == [] then 0 else One(SettlesNow(steps[0], id, v)) + SettledIn(steps[1..], id, v)
  }

  function LostIn(steps: seq<Step>, id: nat, v: Verdict): nat {
    if steps == [] then 0 else One(LosesNow(steps[0], id, v)) + LostIn(steps[1..], id, v)
  }

  function DeliveredIn(steps: seq<Step>, id: nat): nat {
    if steps == [] then 0 else One(steps[0].Deliver? && steps[0].id == id) + DeliveredIn(steps[1..], id)
  }

  function ReturnedIn(steps: seq<Step>, id: nat): nat {
    if steps == [] then 0 else One(steps[0].Return? && steps[0].id == id) + ReturnedIn(steps[1..], id)
  }

  /** A settlement v was sent for the copy and is on its way. */
  ghost predicate Sent(c: Copy, v: Verdict) {
    exists p :: p in c.places && p.status.Held? && p.status.sent == Some(v)
  }

  ghost predicate SentAt(s: State, id: nat, v: Verdict) {
    id in s.copies && Sent(s.copies[id], v)
  }

  /** How often the broker has processed v for the copy, by its own count. */
  function Counter(c: Copy, v: Verdict): nat {
    match v
    case Ack => c.acked
    case Drop => c.panicked
    case Requeue => c.requeued
    case Reject => c.rejected
  }

  function CounterAt(s: State, id: nat, v: Verdict): nat {
    if id in s.copies then Counter(s.copies[id], v) else 0
  }

  // ---- One step ----------------------------------------------------------------------------------------------

  lemma NotOutNotSent(c: Copy, v: Verdict)
    requires forall k, channel :: !OutTo(c, k, channel)
    ensures !Sent(c, v)
  {
    if Sent(c, v) {
      var p :| p in c.places && p.status.Held? && p.status.sent == Some(v);
      assert OutTo(c, p.status.worker, p.status.channel);
    }
  }

  lemma SentOnly(c: Copy, p: Place, v: Verdict)
    requires c.places == multiset{p}
    ensures Sent(c, v) <==> p.status.Held? && p.status.sent == Some(v)
  {
    assert p in c.places;
  }

  lemma ConcludedSends(c: Copy, k: nat, channel: nat, outcome: Outcome, d: Decision, v: Verdict)
    requires |c.places| <= 1
    ensures var c' := Concluded(c, k, channel, outcome, d);
            && Counter(c', v) == Counter(c, v)
            && if Place(c.home, Held(k, channel, None)) in c.places
               then !Sent(c, v) && (Sent(c', v) <==> d.verdict == v)
               else Sent(c', v) == Sent(c, v)
  {
    var from := Place(c.home, Held(k, channel, None));
    if from in c.places {
      OnlyPlace(c, from);
      MovedPlaces(c, from, Held(k, channel, Some(d.verdict)));
      SentOnly(c, from, v);
      SentOnly(Concluded(c, k, channel, outcome, d), Place(c.home, Held(k, channel, Some(d.verdict))), v);
    }
  }

  lemma ProcessedCounts(b: Broker, clock: int, c: Copy, p: Place, verdict: Verdict, v: Verdict)
    requires p in c.places && |c.places| <= 1 && p.status.Held? && p.status.sent == Some(verdict)
    ensures var c' := Processed(b, clock, c, p, verdict);
            && (Sent(c, v) <==> verdict == v) && !Sent(c', v)
            && Counter(c', v) == Counter(c, v) + One(verdict == v)
            && c'.deliveries == c.deliveries && c'.lost == c.lost
  {
    OnlyPlace(c, p);
    SentOnly(c, p, v);
    ProcessedNotOut(b, clock, c, p, verdict);
    NotOutNotSent(Processed(b, clock, c, p, verdict), v);
  }

  lemma ReturnedCounts(c: Copy, p: Place, v: Verdict)
    requires p in c.places && |c.places| <= 1 && p.status.Held?
    ensures (Sent(c, v) <==> p.status.sent == Some(v)) && !Sent(GivenBack(c, p), v)
    ensures Counter(GivenBack(c, p), v) == Counter(c, v)
  {
    OnlyPlace(c, p);
    SentOnly(c, p, v);
    ReturnedNotOut(c, p);
    NotOutNotSent(GivenBack(c, p), v);
  }

  lemma DeliveredCounts(c: Copy, p: Place, k: nat, channel: nat, v: Verdict)
    requires p in c.places && |c.places| <= 1 && p.status.Ready?
    ensures !Sent(c, v) && !Sent(DeliveredTo(c, p, k, channel), v)
    ensures Counter(DeliveredTo(c, p, k, channel), v) == Counter(c, v)
  {
    OnlyPlace(c, p);
    SentOnly(c, p, v);
    MovedPlaces(c, p, Held(k, channel, None));
    SentOnly(DeliveredTo(c, p, k, channel), Place(p.queue, Held(k, channel, None)), v);
  }

  lemma ExpiredCounts(b: Broker, clock: int, c: Copy, p: Place, v: Verdict)
    requires p in c.places && |c.places| <= 1 && p.status.Delayed?
    ensures !Sent(c, v) && !Sent(DeadLettered(b, clock, c, p), v)
    ensures Counter(DeadLettered(b, clock, c, p), v) == Counter(c, v)
  {
    OnlyPlace(c, p);
    SentOnly(c, p, v);
    DeadLetteredNotOut(b, clock, c, p);
    NotOutNotSent(DeadLettered(b, clock, c, p), v);
  }

  lemma FreshCounts(b: Broker, clock: int, home: string, body: string, headers: Tables.Table, v: Verdict)
    ensures var c := NewCopy(b, clock, home, body, headers);
            !Sent(c, v) && Counter(c, v) == 0 && c.deliveries == 0 && c.lost == 0 && !c.handled && !c.failed
  {
    var c := NewCopy(b, clock, home, body, headers);
    OutToGone(c);
    NotOutNotSent(c, v);
  }

  /** Handlers that ended, and what was on its way, against what arrived, what was lost, and what is
      on its way now. */
  ghost predicate Balances(ended: bool, sent: bool, settled: bool, lost: bool, sent': bool) {
    One(ended) + One(sent) == One(settled) + One(lost) + One(sent')
  }

  ghost predicate BalancedStep(w: World, s: State, step: Step, t: State, id: nat, v: Verdict) {
    && Balances(EndsNow(w, s, step, id, v), SentAt(s, id, v), SettlesNow(step, id, v), LosesNow(step, id, v),
                SentAt(t, id, v))
    && CounterAt(t, id, v) == CounterAt(s, id, v) + One(SettlesNow(step, id, v))
  }

  lemma FinishBalanced(w: World, s: State, k: nat, outcome: Outcome, id: nat, v: Verdict)
    requires id in s.copies && CanFinish(s, k) && |s.copies[id].places| <= 1
    requires s.workers[k].task.parcel.id == id
    ensures var c' := Becomes(w, s, Finish(k, outcome), id);
            && Balances(EndsNow(w, s, Finish(k, outcome), id, v), Sent(s.copies[id], v), false, false, Sent(c', v))
            && Counter(c', v) == Counter(s.copies[id], v)
  {
    var c := s.copies[id];
    var expired := Expired(c.headers, s.clock);
    assert Concluded(c, k, s.workers[k].task.parcel.channel, outcome, Decide(IsRetry(w.queues, c.home), outcome, expired))
      == Becomes(w, s, Finish(k, outcome), id);
    ConcludedSends(c, k, s.workers[k].task.parcel.channel, outcome,
                   Decide(IsRetry(w.queues, c.home), outcome, expired), v);
    DecideIs(IsRetry(w.queues, c.home), outcome, expired, v);
  }

  /** What the other steps do to a copy that is there. */
  lemma OthersBalanced(w: World, s: State, step: Step, id: nat, v: Verdict)
    requires Enabled(w, s, step) && id in s.copies && |s.copies[id].places| <= 1 && !step.Finish?
    ensures var c' := Becomes(w, s, step, id);
            && Balances(false, Sent(s.copies[id], v), SettlesNow(step, id, v), LosesNow(step, id, v), Sent(c', v))
            && Counter(c', v) == Counter(s.copies[id], v) + One(SettlesNow(step, id, v))
  {
    var c := s.copies[id];
    match step
    case Deliver(i, k) => if i == id { DeliveredCounts(c, Place(Home(w, k), Ready), k, s.workers[k].channel, v); }
    case Process(i, p) => if i == id { ProcessedCounts(s.setup.broker, s.clock, c, p, p.status.sent.value, v); }
    case Return(i, p) => if i == id { ReturnedCounts(c, p, v); }
    case Expire(i, p) => if i == id { ExpiredCounts(s.setup.broker, s.clock, c, p, v); }
    case _ =>
  }

  /** Only an accepted publish adds a copy. */
  lemma KeysGrow(w: World, s: State, step: Step)
    requires Enabled(w, s, step)
    ensures step.Accept? ==>
              Next(w, s, step).copies
              == s.copies[step.id := NewCopy(s.setup.broker, s.clock, w.clients[step.client], step.body, step.headers)]
    ensures !step.Accept? ==> Next(w, s, step).copies.Keys == s.copies.Keys
  {
    if WorkerStep(step) {
      WorkerStepShape(w, s, step);
    } else {
      CopyStepKeys(w, s, step);
    }
  }

  lemma CopyStepKeys(w: World, s: State, step: Step)
    requires Enabled(w, s, step) && !WorkerStep(step)
    ensures step.Accept? ==>
              Next(w, s, step).copies
              == s.copies[step.id := NewCopy(s.setup.broker, s.clock, w.clients[step.client], step.body, step.headers)]
    ensures !step.Accept? ==> Next(w, s, step).copies.Keys == s.copies.Keys
  {
    match step
    case Deliver(i, k) => assert Next(w, s, step) == AfterDeliver(w, s, i, k);
    case Finish(k, outcome) => assert Next(w, s, step) == AfterFinish(w, s, k, outcome);
    case _ =>
  }

  lemma AbsentBalanced(w: World, s: State, step: Step, id: nat, v: Verdict)
    requires Enabled(w, s, step) && id !in s.copies
    ensures BalancedStep(w, s, step, Next(w, s, step), id, v)
  {
    KeysGrow(w, s, step);
    assert !SettlesNow(step, id, v) && !LosesNow(step, id, v);
    if step.Accept? && step.id == id {
      FreshCounts(s.setup.broker, s.clock, w.clients[step.client], step.body, step.headers, v);
    }
  }

  lemma PresentBalanced(w: World, s: State, step: Step, id: nat, v: Verdict)
    requires Enabled(w, s, step) && id in s.copies && |s.copies[id].places| <= 1
    ensures var c' := Becomes(w, s, step, id);
            && Balances(EndsNow(w, s, step, id, v), Sent(s.copies[id], v), SettlesNow(step, id, v), LosesNow(step, id, v),
                        Sent(c', v))
            && Counter(c', v) == Counter(s.copies[id], v) + One(SettlesNow(step, id, v))
  {
    if Concludes(s, step, id) {
      FinishBalanced(w, s, step.worker, step.outcome, id, v);
    } else if !step.Finish? {
      OthersBalanced(w, s, step, id, v);
    }
  }

  lemma StepBalanced(w: World, s: State, step: Step, id: nat, v: Verdict)
    requires Enabled(w, s, step) && (id in s.copies ==> |s.copies[id].places| <= 1)
    ensures BalancedStep(w, s, step, Next(w, s, step), id, v)
  {
    if id !in s.copies {
      AbsentBalanced(w, s, step, id, v);
    } else {
      StepBecomes(w, s, step, id);
      PresentBalanced(w, s, step, id, v);
    }
  }

  // ---- Every run -----------------------------------------------------------------------------------------------

  lemma OnePlaceAtMost(w: World, s: State, id: nat)
    requires CopiesInv(w, s)
    ensures id in s.copies ==> |s.copies[id].places| <= 1
  {
  }

  /** Over any run, for each of the four settlements: the handlers that ended while the copy was out
      in a way that asks for it are those whose settlement arrived, was lost with its channel, or is
      still on its way; and the copy's own counter is the number that arrived. */
  lemma {:induction false} SettlementsBalance(w: World, s: State, steps: seq<Step>, t: State, id: nat, v: Verdict)
    requires ValidWorld(w) && Inv(w, s) && Runs(w, s, steps, t)
    ensures EndedIn(w, s, steps, id, v) + One(SentAt(s, id, v))
            == SettledIn(steps, id, v) + LostIn(steps, id, v) + One(SentAt(t, id, v))
    ensures CounterAt(t, id, v) == CounterAt(s, id, v) + SettledIn(steps, id, v)
    decreases |steps|
  {
    if steps != [] {
      StepKeeps(w, s, steps[0]);
      OnePlaceAtMost(w, s, id);
      StepBalanced(w, s, steps[0], id, v);
      SettlementsBalance(w, Next(w, s, steps[0]), steps[1..], t, id, v);
    }
  }

  function DeliveriesAt(s: State, id: nat): nat {
    if id in s.copies then s.copies[id].deliveries else 0
  }

  function LossesAt(s: State, id: nat): nat {
    if id in s.copies then s.copies[id].lost else 0
  }

  ghost predicate HistoryStep(c: Copy, step: Step, id: nat, c': Copy) {
    && c'.deliveries == c.deliveries + One(step.Deliver? && step.id == id)
    && c'.lost == c.lost + One(step.Return? && step.id == id)
  }

  lemma BecomesHistory(w: World, s: State, step: Step, id: nat)
    requires Enabled(w, s, step) && id in s.copies
    ensures HistoryStep(s.copies[id], step, id, Becomes(w, s, step, id))
  {
    match step
    case Deliver(i, k) => assert k in s.workers && i in s.copies;
    case _ =>
  }

  lemma StepHistory(w: World, s: State, step: Step, id: nat)
    requires Enabled(w, s, step)
    ensures DeliveriesAt(Next(w, s, step), id) == DeliveriesAt(s, id) + One(step.Deliver? && step.id == id)
    ensures LossesAt(Next(w, s, step), id) == LossesAt(s, id) + One(step.Return? && step.id == id)
  {
    if id in s.copies {
      StepBecomes(w, s, step, id);
      BecomesHistory(w, s, step, id);
    } else {
      KeysGrow(w, s, step);
    }
  }

  /** Over any run the deliveries of a copy are the steps that deliver it, and its losses those that
      give it back with its channel. */
  lemma {:induction false} DeliveriesCounted(w: World, s: State, steps: seq<Step>, t: State, id: nat)
    requires Runs(w, s, steps, t)
    ensures DeliveriesAt(t, id) == DeliveriesAt(s, id) + DeliveredIn(steps, id)
    ensures LossesAt(t, id) == LossesAt(s, id) + ReturnedIn(steps, id)
    decreases |steps|
  {
    if steps != [] {
      StepHistory(w, s, steps[0], id);
      DeliveriesCounted(w, Next(w, s, steps[0]), steps[1..], t, id);
    }
  }
}
