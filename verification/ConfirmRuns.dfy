/** Runs in which a push returns nil for a message the broker did not take, and one in which a
    push finds its channel gone. */
module ConfirmRuns {
  import opened Basics
  import opened Topology
  import opened ClientMachine
  import opened ClientTheorems

  const PLAIN: seq<Op> := Program("jobs", None)

  // ---- The supervisor's steps ----------------------------------------------------------------------------

  ghost predicate WireAt(w: Wire, sup: Supervisor, ch: Option<nat>, confirms: Option<nat>, chans: seq<Chan>) {
    w.connected && w.sup == sup && w.ch == ch && w.confirms == confirms && w.chans == chans
  }

  /** A reached state with such a wire and one ledger for each channel. */
  ghost predicate At(s: State, sup: Supervisor, ch: Option<nat>, confirms: Option<nat>, chans: seq<Chan>) {
    Reaches(PLAIN, INITIAL, s) && WireAt(s.wire, sup, ch, confirms, chans) && |s.book.ledgers| == |chans|
  }

  /** One supervisor step. */
  lemma Go(s: State, ok: bool) returns (t: State)
    requires Reaches(PLAIN, INITIAL, s) && SuperviseNext(PLAIN, s.wire, ok).Some?
    ensures t == State(SuperviseNext(PLAIN, s.wire, ok).value, Grown(SuperviseNext(PLAIN, s.wire, ok).value, s.book))
    ensures Reaches(PLAIN, INITIAL, t)
  {
    ReachesStep(PLAIN, INITIAL, s, OnWire(Supervise(ok)));
    t := Take(PLAIN, s, OnWire(Supervise(ok))).value;
  }

  lemma Opens(s: State, ch: Option<nat>, confirms: Option<nat>, front: seq<Chan>) returns (t: State)
    requires At(s, Opening, ch, confirms, front)
    ensures At(t, Confirming(|front|), ch, confirms, front + [Chan(true, false, false, [])])
    ensures t.book == s.book.(ledgers := s.book.ledgers + [NEW_LEDGER]) && t.wire.readyClosed == s.wire.readyClosed
  {
    t := Go(s, true);
  }

  lemma EntersConfirmMode(s: State, ch: Option<nat>, confirms: Option<nat>, front: seq<Chan>) returns (t: State)
    requires At(s, Confirming(|front|), ch, confirms, front + [Chan(true, false, false, [])])
    ensures At(t, AssigningChannel(|front|), ch, confirms, front + [Chan(true, true, false, [])])
    ensures t.book == s.book && t.wire.readyClosed == s.wire.readyClosed
  {
    t := Go(s, true);
    assert t.wire.chans == front + [Chan(true, true, false, [])];
  }

  lemma AssignsChannel(s: State, ch: Option<nat>, confirms: Option<nat>, front: seq<Chan>) returns (t: State)
    requires At(s, AssigningChannel(|front|), ch, confirms, front + [Chan(true, true, false, [])])
    ensures At(t, AssigningConfirms(|front|), Some(|front|), confirms, front + [Chan(true, true, false, [])])
    ensures t.book == s.book && t.wire.readyClosed == s.wire.readyClosed
  {
    t := Go(s, true);
  }

  lemma AssignsConfirms(s: State, confirms: Option<nat>, front: seq<Chan>) returns (t: State)
    requires At(s, AssigningConfirms(|front|), Some(|front|), confirms, front + [Chan(true, true, false, [])])
    ensures At(t, Declaring(|front|), Some(|front|), Some(|front|), front + [Chan(true, true, true, [])])
    ensures t.book == s.book && t.wire.readyClosed == s.wire.readyClosed
  {
    t := Go(s, true);
    assert t.wire.chans == front + [Chan(true, true, true, [])];
  }

  lemma DeclaresNext(s: State, front: seq<Chan>, done: seq<Op>, op: Op) returns (t: State)
    requires At(s, Declaring(|front|), Some(|front|), Some(|front|), front + [Chan(true, true, true, done)])
    requires |done| < |PLAIN| && op == PLAIN[|done|]
    ensures At(t, Declaring(|front|), Some(|front|), Some(|front|), front + [Chan(true, true, true, done + [op])])
    ensures t.book == s.book && t.wire.readyClosed == s.wire.readyClosed
  {
    t := Go(s, true);
    assert t.wire.chans == front + [Chan(true, true, true, done + [op])];
  }

  lemma Declares(s: State, front: seq<Chan>) returns (t: State)
    requires At(s, Declaring(|front|), Some(|front|), Some(|front|), front + [Chan(true, true, true, [])])
    ensures At(t, Declaring(|front|), Some(|front|), Some(|front|), front + [Chan(true, true, true, PLAIN)])
    ensures t.book == s.book && t.wire.readyClosed == s.wire.readyClosed
  {
    var s1 := DeclaresNext(s, front, [], PLAIN[0]);
    var s2 := DeclaresNext(s1, front, [] + [PLAIN[0]], PLAIN[1]);
    assert [] + [PLAIN[0]] + [PLAIN[1]] == PLAIN;
    t := s2;
  }

  lemma EndsDeclaring(s: State, front: seq<Chan>) returns (t: State)
    requires At(s, Declaring(|front|), Some(|front|), Some(|front|), front + [Chan(true, true, true, PLAIN)])
    ensures At(t, Storing(|front|), Some(|front|), Some(|front|), front + [Chan(true, true, true, PLAIN)])
    ensures t.book == s.book && t.wire.readyClosed == s.wire.readyClosed
  {
    t := Go(s, true);
  }

  lemma StoresReady(s: State, front: seq<Chan>, chans: seq<Chan>) returns (t: State)
    requires At(s, Storing(|front|), Some(|front|), Some(|front|), chans)
    ensures At(t, Announcing(|front|), Some(|front|), Some(|front|), chans)
    ensures t.book == s.book && t.wire.readyClosed == s.wire.readyClosed && t.wire.isReady
  {
    t := Go(s, true);
  }

  lemma Announces(s: State, front: seq<Chan>, chans: seq<Chan>) returns (t: State)
    requires At(s, Announcing(|front|), Some(|front|), Some(|front|), chans)
    ensures At(t, Established(|front|), Some(|front|), Some(|front|), chans)
    ensures t.book == s.book && t.wire.readyClosed && t.wire.isReady == s.wire.isReady
  {
    t := Go(s, true);
  }

  /** From a connection to a channel assigned but its confirms not yet. */
  lemma OpensChannel(s: State, ch: Option<nat>, confirms: Option<nat>, front: seq<Chan>) returns (t: State)
    requires At(s, Opening, ch, confirms, front)
    ensures At(t, AssigningConfirms(|front|), Some(|front|), confirms, front + [Chan(true, true, false, [])])
    ensures t.book == s.book.(ledgers := s.book.ledgers + [NEW_LEDGER]) && t.wire.readyClosed == s.wire.readyClosed
  {
    var s1 := Opens(s, ch, confirms, front);
    var s2 := EntersConfirmMode(s1, ch, confirms, front);
    t := AssignsChannel(s2, ch, confirms, front);
  }

  /** From there to ready. */
  lemma GetsReady(s: State, confirms: Option<nat>, front: seq<Chan>) returns (t: State)
    requires At(s, AssigningConfirms(|front|), Some(|front|), confirms, front + [Chan(true, true, false, [])])
    ensures At(t, Established(|front|), Some(|front|), Some(|front|), front + [Chan(true, true, true, PLAIN)])
    ensures t.book == s.book && t.wire.readyClosed && t.wire.isReady
  {
    var s1 := AssignsConfirms(s, confirms, front);
    var s2 := Declares(s1, front);
    var s3 := EndsDeclaring(s2, front);
    var s4 := StoresReady(s3, front, front + [Chan(true, true, true, PLAIN)]);
    t := Announces(s4, front, front + [Chan(true, true, true, PLAIN)]);
  }

  lemma Connects() returns (s: State)
    ensures At(s, Opening, None, None, []) && s.book == INITIAL.book
  {
    ReachesSelf(PLAIN, INITIAL);
    ReachesStep(PLAIN, INITIAL, INITIAL, OnWire(EnsureConnected));
    var s1 := Take(PLAIN, INITIAL, OnWire(EnsureConnected)).value;
    var s2 := Go(s1, true);
    var s3 := Go(s2, true);
    s := Go(s3, true);
  }

  const UP: Chan := Chan(true, true, true, PLAIN)
  const DEAD: Chan := Chan(false, true, true, PLAIN)
  const FRESH: Chan := Chan(true, true, false, [])

  /** A freshly connected client with no push yet. */
  lemma ConnectUp() returns (s: State)
    ensures At(s, Established(0), Some(0), Some(0), [UP]) && s.wire.isReady && s.wire.readyClosed
    ensures s.book == INITIAL.book.(ledgers := [NEW_LEDGER])
  {
    var s1 := Connects();
    var s2 := OpensChannel(s1, None, None, []);
    s := GetsReady(s2, None, []);
    assert [] + [UP] == [UP] && INITIAL.book.ledgers + [NEW_LEDGER] == [NEW_LEDGER];
  }

  // ---- The steps of a push ----------------------------------------------------------------------------------

  lemma Act(s: State, p: nat, act: PushStep) returns (t: State)
    requires Reaches(PLAIN, INITIAL, s) && PushNext(s.wire, s.book, p, act).Some? && !act.SendFails?
    ensures t == State(s.wire, PushNext(s.wire, s.book, p, act).value) && Reaches(PLAIN, INITIAL, t)
  {
    ReachesStep(PLAIN, INITIAL, s, OnPush(p, act));
    t := Take(PLAIN, s, OnPush(p, act)).value;
  }

  /** The push inside the lock, and everything a run about confirms looks at. */
  ghost predicate Inside(s: State, p: nat, x: Push, ledgers: seq<Ledger>, next: nat,
                         accepted: set<nat>, acked: set<nat>)
  {
    && Reaches(PLAIN, INITIAL, s)
    && s.book.lock == Some(p) && p in s.book.pushes && s.book.pushes[p] == x && s.book.ledgers == ledgers
    && s.book.next == next && s.book.accepted == accepted && s.book.acked == acked
  }

  const SENDING: Push := Push(Sending, true, [], None, false)

  /** A push past the readiness check. */
  lemma StartPush(s: State, p: nat) returns (t: State)
    requires Reaches(PLAIN, INITIAL, s) && p !in s.book.pushes && s.book.lock.None?
    requires s.wire.isReady && s.wire.readyClosed
    ensures Inside(t, p, SENDING, s.book.ledgers, s.book.next, s.book.accepted, s.book.acked)
    ensures t.wire == s.wire && t.book.pushes.Keys == s.book.pushes.Keys + {p}
  {
    var s1 := Act(s, p, Begin(true));
    t := Locks(s1, p);
  }

  lemma Locks(s: State, p: nat) returns (t: State)
    requires Reaches(PLAIN, INITIAL, s) && s.book.lock.None? && s.wire.isReady
    requires p in s.book.pushes && s.book.pushes[p] == Push(Queued, true, [], None, false)
    ensures Inside(t, p, SENDING, s.book.ledgers, s.book.next, s.book.accepted, s.book.acked)
    ensures t.wire == s.wire && t.book.pushes.Keys == s.book.pushes.Keys
  {
    var s1 := Act(s, p, Lock);
    t := Act(s1, p, Check);
  }

  function Waiting(pub: nat, e: nat, source: nat): Push {
    Push(Awaiting(pub, e, source), true, [pub], None, false)
  }

  /** It publishes on one channel and selects on the confirms of another or the same. */
  lemma SendAndSelect(s: State, p: nat, e: nat, f: nat, ledgers: seq<Ledger>, next: nat,
                      accepted: set<nat>, acked: set<nat>)
    returns (t: State)
    requires Inside(s, p, SENDING, ledgers, next, accepted, acked) && e < |ledgers|
    requires s.wire.ch == Some(e) && s.wire.confirms == Some(f) && e < |s.wire.chans| && s.wire.chans[e].alive
    ensures Inside(t, p, Waiting(next, e, f), ledgers[e := ledgers[e].(owed := ledgers[e].owed + [Owed(next, None)])],
                   next + 1, accepted, acked)
    ensures t.wire == s.wire && t.book.pushes.Keys == s.book.pushes.Keys
  {
    var s1 := Act(s, p, Send);
    assert [] + [next] == [next];
    assert s1.book.pushes[p] == Push(Sent(next, e), true, [next], None, false);
    t := Act(s1, p, Select);
  }

  lemma Unlocks(s: State, p: nat) returns (t: State)
    requires Reaches(PLAIN, INITIAL, s) && p in s.book.pushes && s.book.pushes[p].stage.Lost?
    ensures Reaches(PLAIN, INITIAL, t) && t.wire == s.wire && t.book.lock.None?
    ensures t.book == s.book.(lock := None, pushes := t.book.pushes) && t.book.pushes.Keys == s.book.pushes.Keys
  {
    t := Act(s, p, Unlock);
  }

  lemma Abandons(s: State, p: nat, pub: nat, e: nat, f: nat, l: Ledger, next: nat) returns (t: State)
    requires Inside(s, p, Waiting(pub, e, f), [l], next, {}, {}) && e == 0
    ensures Reaches(PLAIN, INITIAL, t) && t.wire == s.wire && t.book.lock.None?
    ensures t.book.ledgers == [l.(cancelled := l.cancelled + 1)] && t.book.pushes.Keys == s.book.pushes.Keys
    ensures t.book.next == next && t.book.accepted == {} && t.book.acked == {}
  {
    var s1 := Act(s, p, Abandon);
    assert s1.book.ledgers == [l.(cancelled := l.cancelled + 1)];
    t := Unlocks(s1, p);
  }

  /** The waiting push takes the confirm at the head of its channel and returns nil. */
  lemma TakeAndWin(s: State, p: nat, pub: nat, e: nat, ledgers: seq<Ledger>, next: nat,
                   accepted: set<nat>, acked: set<nat>)
    returns (t: State)
    requires Inside(s, p, Waiting(pub, e, e), ledgers, next, accepted, acked) && e < |ledgers|
    requires ledgers[e].owed != [] && ledgers[e].owed[0].outcome == Some(true)
    ensures Reaches(PLAIN, INITIAL, t) && p in t.book.pushes
    ensures t.book.pushes[p].stage == Returned(true) && t.book.pushes[p].pubs == [pub]
    ensures t.book.accepted == accepted && t.book.acked == acked
    ensures t.book.ledgers == ledgers[e := ledgers[e].(owed := ledgers[e].owed[1..])]
  {
    var s1 := Act(s, p, TakeConfirm);
    t := Act(s1, p, Unlock);
  }

  /** The broker takes and acknowledges the first of two publishes owed on a channel. */
  lemma FirstConfirmed(s: State, p: nat, x: Push, e: nat, ledgers: seq<Ledger>) returns (t: State)
    requires Inside(s, p, x, ledgers, 2, {}, {}) && e < |ledgers|
    requires e < |s.wire.chans| && s.wire.chans[e].alive && s.wire.chans[e].listening
    requires ledgers[e].owed == [Owed(0, None), Owed(1, None)]
    ensures Inside(t, p, x, ledgers[e := ledgers[e].(owed := [Owed(0, Some(true)), Owed(1, None)])], 2, {0}, {0})
  {
    ReachesStep(PLAIN, INITIAL, s, BrokerAccepts(0));
    var s1 := Take(PLAIN, s, BrokerAccepts(0)).value;
    t := FirstAcked(s1, p, x, e, ledgers);
  }

  lemma FirstAcked(s: State, p: nat, x: Push, e: nat, ledgers: seq<Ledger>) returns (t: State)
    requires Inside(s, p, x, ledgers, 2, {0}, {}) && e < |ledgers|
    requires e < |s.wire.chans| && s.wire.chans[e].alive && s.wire.chans[e].listening
    requires ledgers[e].owed == [Owed(0, None), Owed(1, None)]
    ensures Inside(t, p, x, ledgers[e := ledgers[e].(owed := [Owed(0, Some(true)), Owed(1, None)])], 2, {0}, {0})
  {
    assert FirstUndecided(ledgers[e].owed) == 0;
    ReachesStep(PLAIN, INITIAL, s, BrokerConfirms(e, true));
    t := Take(PLAIN, s, BrokerConfirms(e, true)).value;
    assert ledgers[e].owed[0 := Owed(0, Some(true))] == [Owed(0, Some(true)), Owed(1, None)];
  }

  // ---- A confirm left by a cancelled wait ---------------------------------------------------------------------

  lemma FirstAbandoned() returns (s: State)
    ensures At(s, Established(0), Some(0), Some(0), [UP]) && s.wire.isReady && s.wire.readyClosed
    ensures s.book.ledgers == [Ledger([Owed(0, None)], 1, 0, 0, 0, 0)] && s.book.next == 1 && s.book.lock.None?
    ensures s.book.accepted == {} && s.book.acked == {} && s.book.pushes.Keys == {0}
  {
    var s0 := ConnectUp();
    var s1 := StartPush(s0, 0);
    var s2 := SendAndSelect(s1, 0, 0, 0, [NEW_LEDGER], 0, {}, {});
    assert NEW_LEDGER.owed + [Owed(0, None)] == [Owed(0, None)];
    var l := Ledger([Owed(0, None)], 0, 0, 0, 0, 0);
    assert s2.book.ledgers == [l];
    s := Abandons(s2, 0, 0, 0, 0, l, 1);
  }

  /** One abandoned wait is enough: the next push takes the abandoned confirm, and returns nil
      for a message that the broker neither acknowledged nor accepted. */
  lemma NilPushUnaccepted() returns (s: State)
    ensures Reaches(PLAIN, INITIAL, s) && 1 in s.book.pushes
    ensures s.book.pushes[1].stage == Returned(true) && s.book.pushes[1].pubs == [1]
    ensures 1 !in s.book.accepted && 1 !in s.book.acked
  {
    var s1 := FirstAbandoned();
    var s2 := StartPush(s1, 1);
    var left := Ledger([Owed(0, None)], 1, 0, 0, 0, 0);
    var s3 := SendAndSelect(s2, 1, 0, 0, [left], 1, {}, {});
    var l := Ledger([Owed(0, None), Owed(1, None)], 1, 0, 0, 0, 0);
    assert left.owed + [Owed(1, None)] == l.owed;
    assert s3.book.ledgers == [l];
    s := SecondWins(s3, 0, [l]);
  }

  /** The second push takes the confirm of the first. */
  lemma SecondWins(s: State, e: nat, ledgers: seq<Ledger>) returns (t: State)
    requires Inside(s, 1, Waiting(1, e, e), ledgers, 2, {}, {}) && e < |ledgers|
    requires e < |s.wire.chans| && s.wire.chans[e].alive && s.wire.chans[e].listening
    requires ledgers[e].owed == [Owed(0, None), Owed(1, None)]
    ensures Reaches(PLAIN, INITIAL, t) && 1 in t.book.pushes
    ensures t.book.pushes[1].stage == Returned(true) && t.book.pushes[1].pubs == [1]
    ensures 1 !in t.book.accepted && 1 !in t.book.acked && |t.book.ledgers| == |ledgers|
    ensures forall i :: 0 <= i < |ledgers| ==> t.book.ledgers[i].cancelled == ledgers[i].cancelled
  {
    var s1 := FirstConfirmed(s, 1, Waiting(1, e, e), e, ledgers);
    var confirmed := ledgers[e := ledgers[e].(owed := [Owed(0, Some(true)), Owed(1, None)])];
    t := TakeAndWin(s1, 1, 1, e, confirmed, 2, {0}, {0});
  }

  // ---- A confirm left although no wait was cancelled ------------------------------------------------------------

  /** The channel is lost while a push is past its readiness check. */
  lemma SendingOnDeadChannel() returns (s: State)
    ensures At(s, Established(0), Some(0), Some(0), [DEAD]) && s.wire.readyClosed
    ensures Inside(s, 0, SENDING, [NEW_LEDGER], 0, {}, {}) && s.book.pushes.Keys == {0}
  {
    var s0 := ConnectUp();
    var s1 := StartPush(s0, 0);
    ReachesStep(PLAIN, INITIAL, s1, OnWire(ChannelDies(0)));
    s := Take(PLAIN, s1, OnWire(ChannelDies(0))).value;
    assert s.wire.chans == [DEAD];
  }

  lemma Reopens(s: State) returns (t: State)
    requires At(s, Established(0), Some(0), Some(0), [DEAD])
    ensures At(t, Opening, Some(0), Some(0), [DEAD]) && t.book == s.book && t.wire.readyClosed == s.wire.readyClosed
  {
    var s1 := Go(s, true);
    t := Go(s1, true);
  }

  /** The next channel is assigned while the push is still about to publish. */
  lemma SendingOnNextChannel() returns (s: State)
    ensures At(s, AssigningConfirms(1), Some(1), Some(0), [DEAD, FRESH]) && s.wire.readyClosed
    ensures Inside(s, 0, SENDING, [NEW_LEDGER, NEW_LEDGER], 0, {}, {}) && s.book.pushes.Keys == {0}
  {
    var s1 := SendingOnDeadChannel();
    var s2 := Reopens(s1);
    s := OpensChannel(s2, Some(0), Some(0), [DEAD]);
    assert [DEAD] + [FRESH] == [DEAD, FRESH] && [NEW_LEDGER] + [NEW_LEDGER] == [NEW_LEDGER, NEW_LEDGER];
  }

  /** A confirm left behind on the second channel, no wait cancelled on either, and nothing taken
      by the broker so far. */
  ghost predicate Crossed(s: State) {
    && s.book.ledgers == [NEW_LEDGER, Ledger([Owed(0, None)], 0, 1, 0, 0, 0)]
    && s.book.pushes.Keys == {0} && s.book.lock.None? && s.book.next == 1
    && s.book.accepted == {} && s.book.acked == {}
  }

  /** A push that passed the readiness check publishes on the channel of the next init while
      notifyConfirm is still the closed one of the channel before. */
  lemma CrossedWithoutCancel() returns (s: State)
    ensures At(s, AssigningConfirms(1), Some(1), Some(0), [DEAD, FRESH]) && Crossed(s)
  {
    var s1 := SendingOnNextChannel();
    var s2 := SendAndSelect(s1, 0, 1, 0, [NEW_LEDGER, NEW_LEDGER], 0, {}, {});
    assert NEW_LEDGER.owed + [Owed(0, None)] == [Owed(0, None)];
    assert s2.book.ledgers == [NEW_LEDGER, NEW_LEDGER.(owed := [Owed(0, None)])];
    s := Misses(s2);
  }

  lemma Misses(s: State) returns (t: State)
    requires At(s, AssigningConfirms(1), Some(1), Some(0), [DEAD, FRESH]) && s.book.pushes.Keys == {0}
    requires Inside(s, 0, Waiting(0, 1, 0), [NEW_LEDGER, NEW_LEDGER.(owed := [Owed(0, None)])], 1, {}, {})
    ensures At(t, AssigningConfirms(1), Some(1), Some(0), [DEAD, FRESH]) && Crossed(t)
  {
    var s1 := Act(s, 0, TakeClosed);
    assert s1.book.ledgers == [NEW_LEDGER, Ledger([Owed(0, None)], 0, 1, 0, 0, 0)];
    t := Unlocks(s1, 0);
  }

  /** So a push returns nil for a message that the broker neither acknowledged nor accepted
      although no wait on any channel was ever cancelled. */
  lemma NilPushUnacceptedWithoutCancel() returns (s: State)
    ensures Reaches(PLAIN, INITIAL, s) && 1 in s.book.pushes
    ensures s.book.pushes[1].stage == Returned(true) && s.book.pushes[1].pubs == [1]
    ensures 1 !in s.book.accepted && 1 !in s.book.acked
    ensures forall e :: 0 <= e < |s.book.ledgers| ==> s.book.ledgers[e].cancelled == 0
  {
    var s1 := CrossedWithoutCancel();
    assert [DEAD] + [FRESH] == [DEAD, FRESH];
    var s2 := GetsReady(s1, Some(0), [DEAD]);
    s := BehindTheCrossed(s2);
  }

  lemma BehindTheCrossed(s: State) returns (t: State)
    requires At(s, Established(1), Some(1), Some(1), [DEAD] + [UP]) && Crossed(s) && s.wire.isReady && s.wire.readyClosed
    ensures Reaches(PLAIN, INITIAL, t) && 1 in t.book.pushes
    ensures t.book.pushes[1].stage == Returned(true) && t.book.pushes[1].pubs == [1]
    ensures 1 !in t.book.accepted && 1 !in t.book.acked
    ensures forall e :: 0 <= e < |t.book.ledgers| ==> t.book.ledgers[e].cancelled == 0
  {
    var left := Ledger([Owed(0, None)], 0, 1, 0, 0, 0);
    var both := Ledger([Owed(0, None), Owed(1, None)], 0, 1, 0, 0, 0);
    var s1 := StartPush(s, 1);
    var s2 := SendAndSelect(s1, 1, 1, 1, [NEW_LEDGER, left], 1, {}, {});
    assert left.owed + [Owed(1, None)] == both.owed;
    assert [NEW_LEDGER, left][1 := both] == [NEW_LEDGER, both];
    t := SecondWins(s2, 1, [NEW_LEDGER, both]);
  }

  // ---- A channel that is gone --------------------------------------------------------------------------------------

  /** A push between its readiness check and its publish finds the channel nil, with pushMu held:
      meanwhile the channel was lost and the next init failed and cleared it. */
  lemma PushFindsNoChannel() returns (s: State)
    ensures Reaches(PLAIN, INITIAL, s) && s.wire.ch.None?
    ensures 0 in s.book.pushes && s.book.pushes[0].stage.Crashed? && s.book.lock == Some(0)
  {
    var s1 := SendingOnNextChannel();
    assert [DEAD] + [FRESH] == [DEAD, FRESH];
    var s2 := AssignsConfirms(s1, Some(0), [DEAD]);
    var s3 := FailsToDeclare(s2, [DEAD]);
    s := Act(s3, 0, Send);
  }

  lemma FailsToDeclare(s: State, front: seq<Chan>) returns (t: State)
    requires At(s, Declaring(|front|), Some(|front|), Some(|front|), front + [Chan(true, true, true, [])])
    ensures Reaches(PLAIN, INITIAL, t) && t.wire.ch.None? && t.book == s.book
  {
    var s1 := Go(s, false);
    assert s1.wire.sup == Failing(|front|) && s1.wire.chans == front + [Chan(true, true, true, [])];
    t := Go(s1, false);
  }
}
