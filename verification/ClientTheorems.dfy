/** What holds of the client in every reachable state, and what does not. */
module ClientTheorems {
  import opened Basics
  import opened Configuration
  import opened Topology
  import opened ClientMachine
  import opened WireInvariant
  import opened BookInvariant

  ghost predicate Inv(program: seq<Op>, s: State) {
    WireInv(program, s.wire) && BookInv(s.wire, s.book)
  }

  lemma InitialInv(program: seq<Op>)
    ensures Inv(program, INITIAL)
  {
    NewWireInv(program);
    assert INITIAL.book.pushes == map[] && INITIAL.book.ledgers == [] && INITIAL.wire.chans == [];
    assert NumbersInv(INITIAL.book) && LockInv(INITIAL.book) && LedgersInv(INITIAL.wire, INITIAL.book);
  }

  /** Channels are opened one at a time, none wakes, none stops listening, no signal reopens. */
  ghost predicate Forward(w: Wire, w': Wire) {
    && |w.chans| <= |w'.chans| <= |w.chans| + 1
    && (forall i :: 0 <= i < |w.chans| ==> (w'.chans[i].alive ==> w.chans[i].alive))
    && (forall i :: 0 <= i < |w.chans| ==> (w.chans[i].listening ==> w'.chans[i].listening))
    && (w.readyClosed ==> w'.readyClosed) && (w.doneClosed ==> w'.doneClosed)
  }

  lemma ReplacedForward(w: Wire, w': Wire, e: nat, c: Chan)
    requires e < |w.chans| && w'.chans == w.chans[e := c]
    requires (c.alive ==> w.chans[e].alive) && (w.chans[e].listening ==> c.listening)
    requires w'.readyClosed == w.readyClosed && w'.doneClosed == w.doneClosed
    ensures Forward(w, w')
  {
  }

  lemma InitForward(program: seq<Op>, w: Wire, ok: bool)
    requires SuperviseNext(program, w, ok).Some?
    requires w.sup.Confirming? || w.sup.AssigningConfirms? || w.sup.Declaring? || w.sup.Failing?
    ensures Forward(w, SuperviseNext(program, w, ok).value)
  {
    var w' := SuperviseNext(program, w, ok).value;
    var e := w.sup.e;
    if e < |w.chans| {
      assert w'.chans == w.chans[e := w'.chans[e]];
      ReplacedForward(w, w', e, w'.chans[e]);
    }
  }

  lemma OpeningForward(program: seq<Op>, w: Wire, ok: bool)
    requires SuperviseNext(program, w, ok).Some?
    requires !w.sup.Confirming? && !w.sup.AssigningConfirms? && !w.sup.Declaring? && !w.sup.Failing?
    ensures Forward(w, SuperviseNext(program, w, ok).value)
  {
    assert w.chans <= SuperviseNext(program, w, ok).value.chans;
  }

  lemma WireForward(program: seq<Op>, w: Wire, step: WireStep)
    requires WireNext(program, w, step).Some?
    ensures Forward(w, WireNext(program, w, step).value)
  {
    match step
    case Supervise(ok) =>
      if w.sup.Confirming? || w.sup.AssigningConfirms? || w.sup.Declaring? || w.sup.Failing? {
        InitForward(program, w, ok);
      } else {
        OpeningForward(program, w, ok);
      }
    case Close => CloseForward(w);
    case _ =>
  }

  lemma CloseForward(w: Wire)
    requires CloseNext(w).Some?
    ensures Forward(w, CloseNext(w).value)
  {
    var w' := CloseNext(w).value;
    assert |w'.chans| == |w.chans|;
    assert w'.readyClosed == w.readyClosed && (w.doneClosed ==> w'.doneClosed);
    forall i | 0 <= i < |w.chans|
      ensures w'.chans[i] == w.chans[i] || w'.chans[i] == w.chans[i].(alive := false)
    {
    }
  }

  lemma SendKeeps(program: seq<Op>, s: State, p: nat, act: PushStep)
    requires Inv(program, s) && (act.Send? || act.SendFails?) && Take(program, s, OnPush(p, act)).Some?
    ensures Inv(program, Take(program, s, OnPush(p, act)).value)
  {
    var (w, b) := (s.wire, s.book);
    var b' := PushNext(w, b, p, act).value;
    if act == SendFails(true) {
      EscapedKeeps(w, b, p, w.ch.value);
      var w' := w.(chans := Kill(w.chans), connected := false);
      DeathsKeep(program, w, w');
      WireStepKeepsBook(w, w', b');
    } else if act.Send? && w.ch.Some? {
      PublishedKeeps(w, b, p, w.ch.value);
    } else {
      UnsentKeeps(w, b, p, act);
    }
  }

  lemma PushKeeps(program: seq<Op>, s: State, p: nat, act: PushStep)
    requires Inv(program, s) && Take(program, s, OnPush(p, act)).Some?
    ensures Inv(program, Take(program, s, OnPush(p, act)).value)
  {
    match act
    case Send => SendKeeps(program, s, p, act);
    case SendFails(_) => SendKeeps(program, s, p, act);
    case TakeConfirm => TakeConfirmKeeps(s.wire, s.book, p);
    case TakeClosed => TakeClosedKeeps(s.wire, s.book, p);
    case Abandon => AbandonKeeps(s.wire, s.book, p);
    case _ => QuietKeeps(program, s.wire, s.book, p, act);
  }

  lemma StepKeeps(program: seq<Op>, s: State, step: Step)
    requires Inv(program, s) && Take(program, s, step).Some?
    ensures Inv(program, Take(program, s, step).value)
  {
    match step
    case OnWire(x) =>
      WireKeeps(program, s.wire, x);
      WireForward(program, s.wire, x);
      WireStepKeepsBook(s.wire, WireNext(program, s.wire, x).value, s.book);
    case OnPush(p, act) => PushKeeps(program, s, p, act);
    case BrokerAccepts(pub) => AcceptKeeps(s.wire, s.book, pub);
    case BrokerConfirms(e, ack) => ConfirmKeeps(s.wire, s.book, e, ack);
  }

  lemma {:induction false} RunKeeps(program: seq<Op>, s: State, steps: seq<Step>)
    requires Inv(program, s) && Run(program, s, steps).Some?
    ensures Inv(program, Run(program, s, steps).value)
    decreases |steps|
  {
    if steps != [] {
      StepKeeps(program, s, steps[0]);
      RunKeeps(program, Take(program, s, steps[0]).value, steps[1..]);
    }
  }

  /** t is reached from s by some run. */
  ghost predicate Reaches(program: seq<Op>, s: State, t: State) {
    exists steps :: Run(program, s, steps) == Some(t)
  }

  lemma ReachedInv(program: seq<Op>, s: State)
    requires Reaches(program, INITIAL, s)
    ensures Inv(program, s)
  {
    var steps :| Run(program, INITIAL, steps) == Some(s);
    InitialInv(program);
    RunKeeps(program, INITIAL, steps);
  }

  lemma {:induction false} RunAppend(program: seq<Op>, s: State, first: seq<Step>, second: seq<Step>)
    requires Run(program, s, first).Some?
    ensures Run(program, s, first + second) == Run(program, Run(program, s, first).value, second)
    decreases |first|
  {
    if first == [] {
      assert first + second == second;
    } else {
      var r := Take(program, s, first[0]);
      assert (first + second)[1..] == first[1..] + second;
      RunAppend(program, r.value, first[1..], second);
    }
  }

  lemma ReachesSelf(program: seq<Op>, s: State)
    ensures Reaches(program, s, s)
  {
    assert Run(program, s, []) == Some(s);
  }

  lemma ReachesStep(program: seq<Op>, s0: State, s: State, step: Step)
    requires Reaches(program, s0, s) && Take(program, s, step).Some?
    ensures Reaches(program, s0, Take(program, s, step).value)
  {
    var steps :| Run(program, s0, steps) == Some(s);
    assert Run(program, s, [step]) == Take(program, s, step) by {
      assert [step][1..] == [];
    }
    RunAppend(program, s0, steps, [step]);
    assert Run(program, s0, steps + [step]) == Some(Take(program, s, step).value);
  }

  // ---- Supervisor and close -----------------------------------------------------------------------------

  /** Whenever isReady is 1, under every interleaving: the channel is set, in confirm mode, its
      confirms are listened to, and the whole declaration program of the queue ran on it, ending
      with QoS 1. */
  lemma ReadyMeansDeclared(name: string, retry: Option<RetryConfig>, s: State)
    requires Reaches(Program(name, retry), INITIAL, s) && s.wire.isReady
    ensures FullyUp(Program(name, retry), s.wire)
    ensures var done := s.wire.chans[s.wire.ch.value].done;
            done != [] && done[|done| - 1] == SetQos(1)
  {
    ReachedInv(Program(name, retry), s);
  }

  /** However often publishing starts it, there is one supervisor; the ready channel is closed
      once, by the first init that completes; done is closed at most once. */
  lemma OneSupervisorAndOneSignal(program: seq<Op>, s: State)
    requires Reaches(program, INITIAL, s)
    ensures s.wire.spawned <= 1 && s.wire.readyCloses <= 1 && s.wire.doneCloses <= 1
    ensures s.wire.readyClosed ==> s.wire.inits >= 1
    ensures s.wire.inits > 0 && !s.wire.readyClosed ==> s.wire.inits == 1 && s.wire.sup.Announcing?
  {
    ReachedInv(program, s);
  }

  lemma SignalsStay(program: seq<Op>, s: State, step: Step)
    requires Take(program, s, step).Some?
    ensures s.wire.readyClosed ==> Take(program, s, step).value.wire.readyClosed
    ensures s.wire.doneClosed ==> Take(program, s, step).value.wire.doneClosed
  {
    match step
    case OnWire(x) => WireForward(program, s.wire, x);
    case OnPush(p, act) =>
    case _ =>
  }

  /** Neither signal is ever taken back. */
  lemma {:induction false} SignalsNeverReopen(program: seq<Op>, s: State, steps: seq<Step>)
    requires Run(program, s, steps).Some?
    ensures s.wire.readyClosed ==> Run(program, s, steps).value.wire.readyClosed
    ensures s.wire.doneClosed ==> Run(program, s, steps).value.wire.doneClosed
    decreases |steps|
  {
    if steps != [] {
      SignalsStay(program, s, steps[0]);
      SignalsNeverReopen(program, Take(program, s, steps[0]).value, steps[1..]);
    }
  }

  // ---- Confirms ------------------------------------------------------------------------------------------------

  /** Whenever pushMu is free: the confirms owed on a channel, together with those taken by
      publishes of other channels and those nobody heard, are exactly the waits that ended
      without taking one; so on a live channel they are at most the waits that were cancelled or
      that selected on another channel's confirms. */
  lemma ConfirmAlignment(program: seq<Op>, s: State, e: nat)
    requires Reaches(program, INITIAL, s) && s.book.lock.None? && e < |s.wire.chans|
    ensures e < |s.book.ledgers|
    ensures var l := s.book.ledgers[e];
            && |l.owed| + l.foreign + l.unheard == l.cancelled + l.crossed + l.closed
            && (s.wire.chans[e].alive ==> |l.owed| <= l.cancelled + l.crossed)
  {
    ReachedInv(program, s);
    assert LedgerInv(s.wire, s.book, e);
  }

  /** The confirm a waiting push is about to take is its own exactly when it published on that
      channel and no other confirm is owed there. */
  lemma TakesOwnConfirmIff(program: seq<Op>, s: State, p: nat)
    requires Reaches(program, INITIAL, s) && p in s.book.pushes
    requires Take(program, s, OnPush(p, TakeConfirm)).Some?
    ensures var x := s.book.pushes[p];
            var t := Take(program, s, OnPush(p, TakeConfirm)).value;
            && p in t.book.pushes && t.book.pushes[p].took.Some? && x.stage.Awaiting?
            && x.stage.source < |s.book.ledgers|
            && (t.book.pushes[p].took.value == x.stage.pub
                <==> x.stage.e == x.stage.source && |s.book.ledgers[x.stage.source].owed| == 1)
  {
    ReachedInv(program, s);
    HeadIsOwnIff(s.wire, s.book, p);
  }

  function AcceptedCopies(b: Book, x: Push): set<nat> {
    set pub | pub in x.pubs && pub in b.accepted
  }

  function Elements(s: seq<nat>): set<nat> {
    set x | x in s
  }

  lemma {:induction false} ElementsCount(s: seq<nat>)
    ensures |Elements(s)| <= |s|
  {
    if s == [] {
      assert Elements(s) == {};
    } else {
      ElementsCount(s[1..]);
      assert Elements(s) == {s[0]} + Elements(s[1..]);
    }
  }

  /** A push that returned nil on a channel that had missed no confirm was acknowledged for its
      own last publish, and the broker accepted between one and all of its publishes. */
  lemma NilPushOnCleanChannel(program: seq<Op>, s: State, p: nat)
    requires Reaches(program, INITIAL, s)
    requires p in s.book.pushes && s.book.pushes[p].stage == Returned(true) && s.book.pushes[p].clean
    ensures var x := s.book.pushes[p];
            && x.pubs != [] && x.pubs[|x.pubs| - 1] in s.book.acked
            && 1 <= |AcceptedCopies(s.book, x)| <= |x.pubs|
  {
    ReachedInv(program, s);
    assert PushOk(s.book, p);
    var x := s.book.pushes[p];
    var last := x.pubs[|x.pubs| - 1];
    assert last in AcceptedCopies(s.book, x);
    SubsetSize({last}, AcceptedCopies(s.book, x));
    SubsetSize(AcceptedCopies(s.book, x), Elements(x.pubs));
    ElementsCount(x.pubs);
  }

  /** A push whose priority is above 9 publishes nothing and never returns nil. */
  lemma InvalidNeverPublished(program: seq<Op>, s: State, p: nat)
    requires Reaches(program, INITIAL, s) && p in s.book.pushes && !s.book.pushes[p].valid
    ensures s.book.pushes[p].pubs == [] && s.book.pushes[p].stage != Returned(true)
  {
    ReachedInv(program, s);
    assert PushOk(s.book, p);
  }
}
