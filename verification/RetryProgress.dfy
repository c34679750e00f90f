/** What moves a copy of a retry queue forward: how often it enters the delay queue, and the
    measure that every settlement without a panic lowers. */
module RetryProgress {
  import opened Basics
  import opened Configuration
  import opened Topology
  import opened Settlement
  import opened RetryProtocol
  import opened RetryInvariant
  import opened RetryTheorems

  // ---- Entries into the delay queue ------------------------------------------------------------------

  ghost predicate Delays(c: Copy) {
    exists p :: p in c.places && p.status.Delayed?
  }

  /** Between the two the copy went into the delay queue. */
  ghost function Entered(c: Copy, c': Copy): nat {
    if !Delays(c) && Delays(c') then 1 else 0
  }

  /** How often the copy enters the delay queue in a run. */
  ghost function EntriesIn(w: World, s: State, steps: seq<Step>, id: nat): nat
    decreases |steps|
  {
    if steps == [] || !Enabled(w, s, steps[0]) then 0
    else
      var t := Next(w, s, steps[0]);
      (if id in s.copies && id in t.copies then Entered(s.copies[id], t.copies[id]) else 0)
      + EntriesIn(w, t, steps[1..], id)
  }

  /** Entered is what the counters of rejections and panics grew by. */
  ghost predicate Accounted(c: Copy, c': Copy) {
    Entered(c, c') == (c'.rejected - c.rejected) + (c'.panicked - c.panicked)
  }

  lemma MovedAccounted(c: Copy, from: Place, to: Status, c': Copy)
    requires !to.Delayed? && c'.places == Moved(c, from, to).places
    requires c'.rejected == c.rejected && c'.panicked == c.panicked
    ensures Accounted(c, c')
  {
    if Delays(c') {
      var p :| p in c'.places && p.status.Delayed?;
      assert p in c.places;
    }
  }

  lemma ConcludedAccounted(c: Copy, k: nat, channel: nat, outcome: Outcome, d: Decision)
    ensures Accounted(c, Concluded(c, k, channel, outcome, d))
  {
    var from := Place(c.home, Held(k, channel, None));
    if from in c.places {
      MovedAccounted(c, from, Held(k, channel, Some(d.verdict)), Concluded(c, k, channel, outcome, d));
    }
  }

  lemma ProcessedAccounted(w: World, b: Broker, clock: int, c: Copy, p: Place)
    requires NoClash(w.queues) && Within(b, w.queues) && CopyInv(w, b, clock, c) && IsRetry(w.queues, c.home)
    requires p in c.places && p.status.Held? && p.status.sent.Some?
    ensures Accounted(c, Processed(b, clock, c, p, p.status.sent.value))
  {
    OnlyPlace(c, p);
    assert PlaceInv(w, clock, c, p);
    match p.status.sent.value
    case Ack => assert Processed(b, clock, c, p, Ack).places == multiset{};
    case Drop => DeadLetterEnters(w, b, clock, c, p, Drop);
    case Reject => DeadLetterEnters(w, b, clock, c, p, Reject);
  }

  lemma DeadLetterEnters(w: World, b: Broker, clock: int, c: Copy, p: Place, verdict: Verdict)
    requires NoClash(w.queues) && Within(b, w.queues) && IsRetry(w.queues, c.home)
    requires HoldsAll(b, Program(c.home, w.queues[c.home].retry))
    requires c.places == multiset{p} && p.queue == c.home && p.status.Held? && (verdict == Drop || verdict == Reject)
    ensures Accounted(c, Processed(b, clock, c, p, verdict))
  {
    RetryDeadLetter(w, b, clock, c, p);
    assert Place(Delay(c.home), Delayed(clock + TtlOf(w, c.home))) in Processed(b, clock, c, p, verdict).places;
  }

  lemma ExpiredAccounted(b: Broker, clock: int, c: Copy, p: Place)
    requires p in c.places && p.status.Delayed?
    ensures Accounted(c, DeadLettered(b, clock, c, p))
  {
  }

  lemma StepAccounted(w: World, s: State, step: Step, id: nat)
    requires ValidWorld(w) && Inv(w, s) && Enabled(w, s, step) && id in s.copies && IsRetry(w.queues, s.copies[id].home)
    ensures id in Next(w, s, step).copies && Accounted(s.copies[id], Next(w, s, step).copies[id])
  {
    StepBecomes(w, s, step, id);
    BecomesAccounted(w, s, step, id);
  }

  lemma HandledAccounted(w: World, s: State, step: Step, id: nat)
    requires id in s.copies && (step.Deliver? || step.Return? || step.Finish?)
    requires step.Finish? ==> CanFinish(s, step.worker)
    requires step.Deliver? ==> step.worker in s.workers
    ensures Accounted(s.copies[id], Becomes(w, s, step, id))
  {
    var c := s.copies[id];
    var c' := Becomes(w, s, step, id);
    match step
    case Deliver(i, k) =>
      if i == id { MovedAccounted(c, Place(Home(w, k), Ready), Held(k, s.workers[k].channel, None), c'); }
    case Return(i, p) => if i == id { MovedAccounted(c, p, Ready, c'); }
    case Finish(k, outcome) =>
      ConcludedAccounted(c, k, s.workers[k].task.parcel.channel, outcome, DecisionFor(w, c, outcome, s.clock));
  }

  lemma BecomesAccounted(w: World, s: State, step: Step, id: nat)
    requires ValidWorld(w) && Enabled(w, s, step) && id in s.copies && IsRetry(w.queues, s.copies[id].home)
    requires Within(s.setup.broker, w.queues) && CopyInv(w, s.setup.broker, s.clock, s.copies[id])
    ensures Accounted(s.copies[id], Becomes(w, s, step, id))
  {
    var c := s.copies[id];
    if step.Deliver? || step.Return? || step.Finish? {
      HandledAccounted(w, s, step, id);
    } else if step.Process? && step.id == id {
      ProcessedAccounted(w, s.setup.broker, s.clock, c, step.place);
    } else if step.Expire? && step.id == id {
      ExpiredAccounted(s.setup.broker, s.clock, c, step.place);
    }
  }

  /** Over any run a copy of a retry queue enters the delay queue once for each rejection and once
      for each panic, and never otherwise. */
  lemma {:induction false} EntriesCounted(w: World, s: State, steps: seq<Step>, t: State, id: nat)
    requires ValidWorld(w) && Inv(w, s) && Runs(w, s, steps, t)
    requires id in s.copies && IsRetry(w.queues, s.copies[id].home)
    ensures id in t.copies
    ensures EntriesIn(w, s, steps, id)
            == (t.copies[id].rejected - s.copies[id].rejected) + (t.copies[id].panicked - s.copies[id].panicked)
    decreases |steps|
  {
    if steps != [] {
      var s' := Next(w, s, steps[0]);
      StepKeeps(w, s, steps[0]);
      StepAccounted(w, s, steps[0], id);
      SameHome(w, s, steps[0], id);
      EntriesCounted(w, s', steps[1..], t, id);
    }
  }

  lemma SameHome(w: World, s: State, step: Step, id: nat)
    requires Enabled(w, s, step) && id in s.copies
    ensures id in Next(w, s, step).copies && Next(w, s, step).copies[id].home == s.copies[id].home
  {
    StepBecomes(w, s, step, id);
    BecomesSameIdentity(w, s, step, id);
  }

  // ---- The measure ------------------------------------------------------------------------------------------

  /** The rejections that are still possible before the limit. */
  function Left(w: World, c: Copy, limit: int): int
    requires IsRetry(w.queues, c.home) && TtlOf(w, c.home) > 0
  {
    MaxRejections(limit - Due(w, c), TtlOf(w, c.home))
  }

  lemma Quotient(d: int, ttl: int, q: int)
    requires ttl > 0 && q * ttl <= d < (q + 1) * ttl
    ensures d / ttl == q
  {
    assert (d / ttl) * ttl <= d < (d / ttl + 1) * ttl;
    Cancel(q, d / ttl + 1, ttl);
    Cancel(d / ttl, q + 1, ttl);
  }

  lemma OneFewer(d: int, ttl: int)
    requires ttl > 0 && d >= 0
    ensures MaxRejections(d - ttl, ttl) == MaxRejections(d, ttl) - 1
  {
    if d < ttl {
      Quotient(d, ttl, 0);
    } else {
      var q := d / ttl;
      OneLess(q, ttl);
      OneLess(q + 1, ttl);
      Quotient(d - ttl, ttl, q - 1);
    }
  }

  lemma RejectionLowers(w: World, c: Copy, c': Copy, limit: int)
    requires IsRetry(w.queues, c.home) && TtlOf(w, c.home) > 0 && Due(w, c) <= limit
    requires c'.home == c.home && c'.acceptedAt == c.acceptedAt && c'.rejected == c.rejected + 1
    ensures Left(w, c', limit) == Left(w, c, limit) - 1
  {
    DueAfterRejection(w, c, c');
    OneFewer(limit - Due(w, c), TtlOf(w, c.home));
  }

  /** The copy ended with an acknowledgement, or it has one rejection fewer left. */
  ghost predicate Progressed(w: World, c: Copy, c': Copy, limit: int) {
    && c'.home == c.home && IsRetry(w.queues, c.home) && TtlOf(w, c.home) > 0
    && ((c'.acked == 1 && c'.places == multiset{}) || 0 <= Left(w, c', limit) == Left(w, c, limit) - 1)
  }

  /** Every settlement that the broker processes, of a copy that expires by the limit and did not
      panic, either ends the copy with an acknowledgement or lowers the rejections left by one. */
  lemma SettlementProgress(w: World, s: State, id: nat, p: Place, limit: int)
    requires id in s.copies && IsRetry(w.queues, s.copies[id].home) && p.status.Held? && p.status.sent != Some(Drop)
    requires Enabled(w, s, Process(id, p)) && ExpiresBy(s.copies[id].headers, limit)
    requires ValidWorld(w) && Inv(w, s)
    ensures id in Next(w, s, Process(id, p)).copies
            && Progressed(w, s.copies[id], Next(w, s, Process(id, p)).copies[id], limit)
  {
    var c := s.copies[id];
    TtlOfValidQueue(w.queues, true, c.home);
    StepBecomes(w, s, Process(id, p), id);
    BecomesSameIdentity(w, s, Process(id, p), id);
    SettledOnce(w, s.setup.broker, s.clock, c, p, limit);
  }

  lemma SettledOnce(w: World, b: Broker, clock: int, c: Copy, p: Place, limit: int)
    requires CopyInv(w, b, clock, c) && IsRetry(w.queues, c.home) && TtlOf(w, c.home) > 0
    requires p in c.places && p.status.Held? && p.status.sent.Some? && p.status.sent != Some(Drop)
    requires ExpiresBy(c.headers, limit)
    ensures Progressed(w, c, Processed(b, clock, c, p, p.status.sent.value), limit)
  {
    OnlyPlace(c, p);
    assert PlaceInv(w, clock, c, p);
    match p.status.sent.value
    case Reject => RejectedOnce(w, b, clock, c, p, limit);
    case Ack => assert Processed(b, clock, c, p, Ack).places == multiset{};
  }

  lemma RejectedOnce(w: World, b: Broker, clock: int, c: Copy, p: Place, limit: int)
    requires IsRetry(w.queues, c.home) && TtlOf(w, c.home) > 0
    requires !Expired(c.headers, Due(w, c)) && ExpiresBy(c.headers, limit)
    ensures Progressed(w, c, Processed(b, clock, c, p, Reject), limit)
  {
    assert Due(w, c) <= limit;
    ProcessedSameIdentity(b, clock, c, p, Reject);
    RejectionLowers(w, c, Processed(b, clock, c, p, Reject), limit);
    LeftIsNatural(w, Processed(b, clock, c, p, Reject), limit);
  }

  lemma LeftIsNatural(w: World, c: Copy, limit: int)
    requires IsRetry(w.queues, c.home) && TtlOf(w, c.home) > 0
    ensures Left(w, c, limit) >= 0
  {
  }
}
