/** The counters of the ledgers, which confirm alignment is stated with, counted from the steps of a
    run: how waits ended, and which confirms went elsewhere (client.go, waitPublishConfirm). */
module ClientLedgers {
  import opened Basics
  import opened Topology
  import opened ClientMachine
  import opened BookInvariant
  import opened ClientTheorems

  /** How a wait for a publish of a channel, or one of its confirms, went astray: the wait was
      cancelled; it ended on another channel's confirms; it found its own closed; the confirm went to
      another channel's publish; nobody listened to it. */
  datatype Kind = Cancelled | Crossed | Closed | Foreign | Unheard

  function Of(l: Ledger, kind: Kind): nat {
    match kind
    case Cancelled => l.cancelled
    case Crossed => l.crossed
    case Closed => l.closed
    case Foreign => l.foreign
    case Unheard => l.unheard
  }

  function CounterAt(b: Book, e: nat, kind: Kind): nat {
    if e < |b.ledgers| then Of(b.ledgers[e], kind) else 0
  }

  /** The wait of a push that published on channel on and selects on the confirms of source ends with
      act in such a way for channel e. */
  predicate EndsAstray(act: PushStep, on: nat, source: nat, e: nat, kind: Kind) {
    match kind
    case Cancelled => act.Abandon? && on == e
    case Crossed => (act.TakeConfirm? || act.TakeClosed?) && on == e && source != e
    case Closed => act.TakeClosed? && on == e && source == e
    case Foreign => act.TakeConfirm? && on != e && source == e
    case Unheard => false
  }

  predicate GoesAstray(s: State, step: Step, e: nat, kind: Kind) {
    match step
    case OnPush(p, act) =>
      && p in s.book.pushes && s.book.pushes[p].stage.Awaiting?
      && EndsAstray(act, s.book.pushes[p].stage.e, s.book.pushes[p].stage.source, e, kind)
    case BrokerConfirms(channel, _) =>
      kind.Unheard? && channel == e && e < |s.wire.chans| && !s.wire.chans[e].listening
    case _ => false
  }

  function AstrayIn(program: seq<Op>, s: State, steps: seq<Step>, e: nat, kind: Kind): nat
    decreases |steps|
  {
    if steps == [] || Take(program, s, steps[0]).None? then 0
    else One(GoesAstray(s, steps[0], e, kind))
         + AstrayIn(program, Take(program, s, steps[0]).value, steps[1..], e, kind)
  }

  lemma TookCounts(b: Book, p: nat, x: Push, on: nat, f: nat, e: nat, kind: Kind)
    requires on < |b.ledgers| && f < |b.ledgers| && b.ledgers[f].owed != [] && b.ledgers[f].owed[0].outcome.Some?
    ensures CounterAt(Took(b, p, x, on, f), e, kind)
            == CounterAt(b, e, kind) + One(EndsAstray(TakeConfirm, on, f, e, kind))
  {
  }

  lemma TakeConfirmCounts(s: State, p: nat, e: nat, kind: Kind)
    requires PushNext(s.wire, s.book, p, TakeConfirm).Some?
    ensures CounterAt(PushNext(s.wire, s.book, p, TakeConfirm).value, e, kind)
            == CounterAt(s.book, e, kind) + One(GoesAstray(s, OnPush(p, TakeConfirm), e, kind))
  {
    var x := s.book.pushes[p];
    TookCounts(s.book, p, x, x.stage.e, x.stage.source, e, kind);
  }

  lemma TakeClosedCounts(s: State, p: nat, e: nat, kind: Kind)
    requires PushNext(s.wire, s.book, p, TakeClosed).Some?
    ensures CounterAt(PushNext(s.wire, s.book, p, TakeClosed).value, e, kind)
            == CounterAt(s.book, e, kind) + One(GoesAstray(s, OnPush(p, TakeClosed), e, kind))
  {
  }

  lemma AbandonCounts(s: State, p: nat, e: nat, kind: Kind)
    requires PushNext(s.wire, s.book, p, Abandon).Some?
    ensures CounterAt(PushNext(s.wire, s.book, p, Abandon).value, e, kind)
            == CounterAt(s.book, e, kind) + One(GoesAstray(s, OnPush(p, Abandon), e, kind))
  {
  }

  lemma SendCounts(s: State, p: nat, e: nat, kind: Kind)
    requires PushNext(s.wire, s.book, p, Send).Some?
    ensures CounterAt(PushNext(s.wire, s.book, p, Send).value, e, kind) == CounterAt(s.book, e, kind)
  {
  }

  lemma QuietCounts(s: State, p: nat, act: PushStep)
    requires !act.Abandon? && !act.TakeClosed? && !act.TakeConfirm? && !act.Send?
    requires PushNext(s.wire, s.book, p, act).Some?
    ensures PushNext(s.wire, s.book, p, act).value.ledgers == s.book.ledgers
  {
  }

  lemma QuietIsNotAstray(s: State, p: nat, act: PushStep, e: nat, kind: Kind)
    requires !act.Abandon? && !act.TakeClosed? && !act.TakeConfirm?
    ensures !GoesAstray(s, OnPush(p, act), e, kind)
  {
  }

  lemma PushCounts(s: State, p: nat, act: PushStep, e: nat, kind: Kind)
    requires PushNext(s.wire, s.book, p, act).Some?
    ensures CounterAt(PushNext(s.wire, s.book, p, act).value, e, kind)
            == CounterAt(s.book, e, kind) + One(GoesAstray(s, OnPush(p, act), e, kind))
  {
    if act.TakeConfirm? {
      TakeConfirmCounts(s, p, e, kind);
    } else if act.TakeClosed? {
      TakeClosedCounts(s, p, e, kind);
    } else if act.Abandon? {
      AbandonCounts(s, p, e, kind);
    } else {
      QuietIsNotAstray(s, p, act, e, kind);
      if act.Send? { SendCounts(s, p, e, kind); } else { QuietCounts(s, p, act); }
    }
  }

  lemma ConfirmCounts(s: State, channel: nat, ack: bool, e: nat, kind: Kind)
    requires ConfirmNext(s.wire, s.book, channel, ack).Some?
    ensures CounterAt(ConfirmNext(s.wire, s.book, channel, ack).value, e, kind)
            == CounterAt(s.book, e, kind) + One(GoesAstray(s, BrokerConfirms(channel, ack), e, kind))
  {
  }

  lemma GrownCounts(w: Wire, b: Book, e: nat, kind: Kind)
    ensures CounterAt(Grown(w, b), e, kind) == CounterAt(b, e, kind)
  {
  }

  lemma StepCounts(program: seq<Op>, s: State, step: Step, e: nat, kind: Kind)
    requires Take(program, s, step).Some?
    ensures CounterAt(Take(program, s, step).value.book, e, kind)
            == CounterAt(s.book, e, kind) + One(GoesAstray(s, step, e, kind))
  {
    match step
    case OnWire(x) => GrownCounts(WireNext(program, s.wire, x).value, s.book, e, kind);
    case OnPush(p, act) => PushCounts(s, p, act, e, kind);
    case BrokerAccepts(pub) =>
    case BrokerConfirms(channel, ack) => ConfirmCounts(s, channel, ack, e, kind);
  }

  /** Over any run the counters of every ledger are the numbers of such steps. */
  lemma {:induction false} AstrayCounted(program: seq<Op>, s: State, steps: seq<Step>, e: nat, kind: Kind)
    requires Run(program, s, steps).Some?
    ensures CounterAt(Run(program, s, steps).value.book, e, kind)
            == CounterAt(s.book, e, kind) + AstrayIn(program, s, steps, e, kind)
    decreases |steps|
  {
    if steps != [] {
      StepCounts(program, s, steps[0], e, kind);
      AstrayCounted(program, Take(program, s, steps[0]).value, steps[1..], e, kind);
    }
  }

  /** Confirm alignment over the steps of a run: whenever pushMu is free, the confirms owed on a
      channel, with those that went elsewhere, are the waits for its publishes that ended without one;
      on a live channel they are at most those that were cancelled or ended on another channel. */
  lemma OwedAreAstray(program: seq<Op>, steps: seq<Step>, s: State, e: nat)
    requires Run(program, INITIAL, steps) == Some(s) && s.book.lock.None? && e < |s.wire.chans|
    ensures e < |s.book.ledgers|
    ensures |s.book.ledgers[e].owed| + AstrayIn(program, INITIAL, steps, e, Foreign)
              + AstrayIn(program, INITIAL, steps, e, Unheard)
            == AstrayIn(program, INITIAL, steps, e, Cancelled) + AstrayIn(program, INITIAL, steps, e, Crossed)
               + AstrayIn(program, INITIAL, steps, e, Closed)
    ensures s.wire.chans[e].alive ==>
              |s.book.ledgers[e].owed|
              <= AstrayIn(program, INITIAL, steps, e, Cancelled) + AstrayIn(program, INITIAL, steps, e, Crossed)
  {
    ConfirmAlignment(program, s, e);
    forall kind ensures Of(s.book.ledgers[e], kind) == AstrayIn(program, INITIAL, steps, e, kind) {
      AstrayCounted(program, INITIAL, steps, e, kind);
    }
  }

  /** No wait for a publish of this channel went astray in the run. */
  predicate CleanIn(program: seq<Op>, steps: seq<Step>, e: nat) {
    && AstrayIn(program, INITIAL, steps, e, Cancelled) == 0 && AstrayIn(program, INITIAL, steps, e, Crossed) == 0
    && AstrayIn(program, INITIAL, steps, e, Closed) == 0
  }

  lemma CleanMissedNone(program: seq<Op>, steps: seq<Step>, s: State, e: nat)
    requires Run(program, INITIAL, steps) == Some(s) && CleanIn(program, steps, e) && e < |s.book.ledgers|
    ensures Missed(s.book.ledgers[e]) == 0
  {
    AstrayCounted(program, INITIAL, steps, e, Cancelled);
    AstrayCounted(program, INITIAL, steps, e, Crossed);
    AstrayCounted(program, INITIAL, steps, e, Closed);
  }

  lemma TookClean(s: State, p: nat)
    requires p in s.book.pushes && s.book.pushes[p].stage.Awaiting? && PushNext(s.wire, s.book, p, TakeConfirm).Some?
    ensures var f := s.book.pushes[p].stage.source;
            var b := PushNext(s.wire, s.book, p, TakeConfirm).value;
            f < |s.book.ledgers| && p in b.pushes && (Missed(s.book.ledgers[f]) == 0 ==> b.pushes[p].clean)
  {
  }

  lemma CleanWin(b: Book, p: nat)
    requires p in b.pushes && PushOk(b, p) && b.pushes[p].stage.Won? && b.pushes[p].clean
    ensures var x := b.pushes[p];
            x.pubs != [] && x.took == Some(x.pubs[|x.pubs| - 1]) && x.pubs[|x.pubs| - 1] in b.acked
  {
  }

  /** A push that takes an acknowledgement from the confirms of a channel on which no wait of the whole
      run went astray has its own last publish acknowledged. */
  lemma WinsOnCleanChannel(program: seq<Op>, steps: seq<Step>, s: State, p: nat, t: State)
    requires Run(program, INITIAL, steps) == Some(s) && Take(program, s, OnPush(p, TakeConfirm)) == Some(t)
    requires p in s.book.pushes && s.book.pushes[p].stage.Awaiting?
    requires CleanIn(program, steps, s.book.pushes[p].stage.source)
    ensures p in t.book.pushes
    ensures var x := t.book.pushes[p];
            x.stage.Won? ==> x.pubs != [] && x.took == Some(x.pubs[|x.pubs| - 1]) && x.pubs[|x.pubs| - 1] in t.book.acked
  {
    TookClean(s, p);
    CleanMissedNone(program, steps, s, s.book.pushes[p].stage.source);
    ReachesStep(program, INITIAL, s, OnPush(p, TakeConfirm));
    assert PushOk(t.book, p) by { ReachedInv(program, t); }
    if t.book.pushes[p].stage.Won? { CleanWin(t.book, p); }
  }
}
