/** Who wrote what the client's other goroutines read: isReady, done, and the place of the
    supervisor, over every run (client.go, handleReconnect, init, close). */
module ClientWrites {
  import opened Basics
  import opened Topology
  import opened ClientMachine
  import opened WireInvariant
  import opened BookInvariant
  import opened ClientTheorems
  import opened ClientRuns

  // ---- The last write to isReady ---------------------------------------------------------------------------

  /** The supervisor's step out of Storing: the end of an init. */
  predicate Stores(s: State, step: Step) {
    step.OnWire? && step.step.Supervise? && s.wire.sup.Storing?
  }

  /** The first step of close. */
  predicate BeginsClose(s: State, step: Step) {
    step == OnWire(Close) && s.wire.closer.NotClosing?
  }

  /** The supervisor on top of one of its loops. */
  predicate Restarts(s: State, step: Step) {
    step.OnWire? && step.step.Supervise? && (s.wire.sup.Top? || s.wire.sup.InitTop?)
  }

  /** The value of isReady after steps, when it is was before them. */
  function LastStored(program: seq<Op>, s: State, steps: seq<Step>, was: bool): bool
    decreases |steps|
  {
    if steps == [] || Take(program, s, steps[0]).None? then was
    else LastStored(program, Take(program, s, steps[0]).value, steps[1..],
                    Stores(s, steps[0]) || (was && !BeginsClose(s, steps[0]) && !Restarts(s, steps[0])))
  }

  lemma SuperviseStores(program: seq<Op>, w: Wire, ok: bool)
    requires SuperviseNext(program, w, ok).Some?
    ensures SuperviseNext(program, w, ok).value.isReady
            == (w.sup.Storing? || (w.isReady && !w.sup.Top? && !w.sup.InitTop?))
    ensures SuperviseNext(program, w, ok).value.closer == w.closer
    ensures w.sup.Stopped? ==> SuperviseNext(program, w, ok).value.sup.Stopped?
  {
  }

  /** isReady becomes 1 at the end of an init and 0 when close begins or the supervisor restarts,
      and no other step of anybody writes it. */
  lemma StepStores(program: seq<Op>, s: State, step: Step)
    requires Take(program, s, step).Some?
    ensures Take(program, s, step).value.wire.isReady
            == (Stores(s, step) || (s.wire.isReady && !BeginsClose(s, step) && !Restarts(s, step)))
  {
    match step
    case OnWire(Supervise(ok)) => SuperviseStores(program, s.wire, ok);
    case OnWire(Close) => assert CloseNext(s.wire).Some?;
    case OnPush(p, act) =>
    case _ =>
  }

  /** Over every run isReady is what the last of these wrote. */
  lemma {:induction false} ReadyIsLastStored(program: seq<Op>, s: State, steps: seq<Step>)
    requires Run(program, s, steps).Some?
    ensures Run(program, s, steps).value.wire.isReady == LastStored(program, s, steps, s.wire.isReady)
    decreases |steps|
  {
    if steps != [] {
      StepStores(program, s, steps[0]);
      ReadyIsLastStored(program, Take(program, s, steps[0]).value, steps[1..]);
    }
  }

  // ---- isReady after close ------------------------------------------------------------------------------------

  /** The run is in m after its first i steps. */
  ghost predicate At(program: seq<Op>, s: State, steps: seq<Step>, i: nat, m: State) {
    i <= |steps| && Run(program, s, steps[..i]) == Some(m)
  }

  /** Somewhere from step i on the supervisor ends an init. */
  ghost predicate StoresFrom(program: seq<Op>, s: State, steps: seq<Step>, i: nat) {
    exists j: nat, m: State :: i <= j < |steps| && At(program, s, steps, j, m) && Stores(m, steps[j])
  }

  lemma AtLater(program: seq<Op>, s: State, steps: seq<Step>, i: nat, m: State)
    requires steps != [] && Take(program, s, steps[0]).Some?
    requires At(program, Take(program, s, steps[0]).value, steps[1..], i, m)
    ensures At(program, s, steps, i + 1, m)
  {
    assert steps[..i + 1][0] == steps[0] && steps[..i + 1][1..] == steps[1..][..i];
  }

  lemma StoresLater(program: seq<Op>, s: State, steps: seq<Step>, i: nat)
    requires steps != [] && Take(program, s, steps[0]).Some?
    requires StoresFrom(program, Take(program, s, steps[0]).value, steps[1..], i)
    ensures StoresFrom(program, s, steps, i + 1)
  {
    var j: nat, m: State :| i <= j < |steps| - 1 && At(program, Take(program, s, steps[0]).value, steps[1..], j, m)
                            && Stores(m, steps[1..][j]);
    AtLater(program, s, steps, j, m);
    assert Stores(m, steps[j + 1]);
  }

  /** isReady goes from 0 to 1 only at the end of an init. */
  lemma {:induction false} UpOnlyByStoring(program: seq<Op>, s: State, steps: seq<Step>)
    requires Run(program, s, steps).Some? && !s.wire.isReady && Run(program, s, steps).value.wire.isReady
    ensures StoresFrom(program, s, steps, 0)
    decreases |steps|
  {
    var s' := Take(program, s, steps[0]).value;
    StepStores(program, s, steps[0]);
    if Stores(s, steps[0]) {
      assert At(program, s, steps, 0, s) by { assert steps[..0] == []; }
    } else {
      UpOnlyByStoring(program, s', steps[1..]);
      StoresLater(program, s, steps, 0);
      var j: nat, m: State :| 1 <= j < |steps| && At(program, s, steps, j, m) && Stores(m, steps[j]);
    }
  }

  /** A run in which close has begun has one step that began it; and if isReady is 1 at its end, the
      supervisor ended an init after that step. */
  lemma {:induction false} ReadyNeedsLaterInit(program: seq<Op>, s: State, steps: seq<Step>) returns (i: nat, m: State)
    requires Run(program, s, steps).Some? && s.wire.closer.NotClosing?
    requires !Run(program, s, steps).value.wire.closer.NotClosing?
    ensures i < |steps| && At(program, s, steps, i, m) && BeginsClose(m, steps[i])
    ensures Run(program, s, steps).value.wire.isReady ==> StoresFrom(program, s, steps, i + 1)
    decreases |steps|
  {
    var s' := Take(program, s, steps[0]).value;
    if BeginsClose(s, steps[0]) {
      i, m := 0, s;
      assert steps[..0] == [];
      StepStores(program, s, steps[0]);
      if Run(program, s, steps).value.wire.isReady {
        UpOnlyByStoring(program, s', steps[1..]);
        StoresLater(program, s, steps, 0);
      }
    } else {
      CloserStays(program, s, steps[0]);
      var j;
      j, m := ReadyNeedsLaterInit(program, s', steps[1..]);
      AtLater(program, s, steps, j, m);
      i := j + 1;
      if Run(program, s, steps).value.wire.isReady { StoresLater(program, s, steps, j + 1); }
    }
  }

  /** Nothing else begins a close. */
  lemma CloserStays(program: seq<Op>, s: State, step: Step)
    requires Take(program, s, step).Some? && !BeginsClose(s, step) && s.wire.closer.NotClosing?
    ensures Take(program, s, step).value.wire.closer.NotClosing?
  {
    match step
    case OnWire(Supervise(ok)) => SuperviseStores(program, s.wire, ok);
    case _ =>
  }

  lemma StaysStopped(program: seq<Op>, s: State, step: Step)
    requires Take(program, s, step).Some? && s.wire.sup.Stopped?
    ensures Take(program, s, step).value.wire.sup.Stopped?
  {
    match step
    case OnWire(Supervise(ok)) => SuperviseStores(program, s.wire, ok);
    case OnPush(p, act) =>
    case _ =>
  }

  /** A supervisor that has returned leaves isReady to close: once close has begun it is 0 for ever. */
  lemma StoppedThenClosed(program: seq<Op>, s: State, steps: seq<Step>)
    requires s.wire.sup.Stopped? && s.wire.closer.NotClosing?
    requires Run(program, Take(program, s, OnWire(Close)).value, steps).Some?
    ensures !Run(program, Take(program, s, OnWire(Close)).value, steps).value.wire.isReady
  {
    StepStores(program, s, OnWire(Close));
    StaysStopped(program, s, OnWire(Close));
    RunStaysDown(program, Take(program, s, OnWire(Close)).value, steps);
  }

  // ---- done, and the end of the supervisor and of close -----------------------------------------------------

  /** done is closed exactly when close is past its second step; and the supervisor has returned only
      after that. */
  lemma DoneIffClosing(program: seq<Op>, s: State)
    requires Reaches(program, INITIAL, s)
    ensures s.wire.doneClosed <==> !s.wire.closer.NotClosing? && !s.wire.closer.ReadyCleared?
    ensures s.wire.sup.Stopped? ==> s.wire.doneClosed
  {
    ReachedInv(program, s);
    var steps :| Run(program, INITIAL, steps) == Some(s);
    StoppedMeansDone(program, INITIAL, steps);
  }

  lemma SuperviseReturns(program: seq<Op>, w: Wire, ok: bool)
    requires SuperviseNext(program, w, ok).Some? && !w.sup.Stopped?
    ensures !SuperviseNext(program, w, ok).value.sup.Stopped?
  {
  }

  lemma {:induction false} StoppedMeansDone(program: seq<Op>, s: State, steps: seq<Step>)
    requires Run(program, s, steps).Some? && (s.wire.sup.Stopped? ==> s.wire.doneClosed)
    ensures Run(program, s, steps).value.wire.sup.Stopped? ==> Run(program, s, steps).value.wire.doneClosed
    decreases |steps|
  {
    if steps != [] {
      SignalsStay(program, s, steps[0]);
      ReturnsOnDone(program, s, steps[0]);
      StoppedMeansDone(program, Take(program, s, steps[0]).value, steps[1..]);
    }
  }

  lemma ReturnsOnDone(program: seq<Op>, s: State, step: Step)
    requires Take(program, s, step).Some?
    ensures Take(program, s, step).value.wire.sup.Stopped? ==> s.wire.sup.Stopped? || s.wire.doneClosed
  {
    match step
    case OnWire(Supervise(ok)) => if !s.wire.sup.Stopped? { SuperviseReturns(program, s.wire, ok); }
    case OnPush(p, act) =>
    case _ =>
  }

  /** How many inits end in a run. */
  function StoresIn(program: seq<Op>, s: State, steps: seq<Step>): nat
    decreases |steps|
  {
    if steps == [] || Take(program, s, steps[0]).None? then 0
    else One(Stores(s, steps[0])) + StoresIn(program, Take(program, s, steps[0]).value, steps[1..])
  }

  lemma SuperviseInits(program: seq<Op>, w: Wire, ok: bool)
    requires SuperviseNext(program, w, ok).Some?
    ensures SuperviseNext(program, w, ok).value.inits == w.inits + One(w.sup.Storing?)
  {
  }

  lemma SuperviseStarted(program: seq<Op>, w: Wire, ok: bool)
    requires SuperviseNext(program, w, ok).Some?
    ensures !SuperviseNext(program, w, ok).value.sup.NotStarted?
  {
    if InInit(w.sup) { InitGoesOn(program, w, ok); }
  }

  lemma StepInits(program: seq<Op>, s: State, step: Step)
    requires Take(program, s, step).Some?
    ensures Take(program, s, step).value.wire.inits == s.wire.inits + One(Stores(s, step))
  {
    match step
    case OnWire(Supervise(ok)) => SuperviseInits(program, s.wire, ok);
    case OnPush(p, act) =>
    case _ =>
  }

  lemma StepStarted(program: seq<Op>, s: State, step: Step)
    requires Take(program, s, step).Some? && !s.wire.sup.NotStarted?
    ensures !Take(program, s, step).value.wire.sup.NotStarted?
  {
    match step
    case OnWire(Supervise(ok)) => SuperviseStarted(program, s.wire, ok);
    case OnPush(p, act) =>
    case _ =>
  }

  /** The supervisor is started once: over any run it is never again not started, and never runs again
      after its return. Its inits are those that end in the run. */
  lemma {:induction false} SupervisorRunsOnce(program: seq<Op>, s: State, steps: seq<Step>)
    requires Run(program, s, steps).Some?
    ensures var w := Run(program, s, steps).value.wire;
            && w.inits == s.wire.inits + StoresIn(program, s, steps)
            && (!s.wire.sup.NotStarted? ==> !w.sup.NotStarted?) && (s.wire.sup.Stopped? ==> w.sup.Stopped?)
    decreases |steps|
  {
    if steps != [] {
      StepInits(program, s, steps[0]);
      if !s.wire.sup.NotStarted? { StepStarted(program, s, steps[0]); }
      if s.wire.sup.Stopped? { StaysStopped(program, s, steps[0]); }
      SupervisorRunsOnce(program, Take(program, s, steps[0]).value, steps[1..]);
    }
  }

  /** Once done is closed the supervisor can always get to its return: nothing it waits for keeps it
      from its next select for ever. */
  lemma CanReturn(program: seq<Op>, s: State) returns (steps: seq<Step>)
    requires Reaches(program, INITIAL, s) && s.wire.doneClosed
    ensures Run(program, s, steps).Some? && Run(program, s, steps).value.wire.sup.Stopped?
  {
    if s.wire.sup.Stopped? {
      steps := [];
    } else {
      var w := WireNext(program, s.wire, ConnectionDies).value;
      assert AllDead(w.chans) && (Working(w.sup) ==> w.sup.e < |w.chans|) by { ReachedInv(program, s); }
      var home, top := ComesHome(program, w);
      LeadsCons(program, s.wire, ConnectionDies, home, top);
      var first := OnWires([ConnectionDies] + home);
      LeadsIsRun(program, s, [ConnectionDies] + home, top);
      var t := Run(program, s, first).value;
      SignalsNeverReopen(program, s, first);
      steps := first + [OnWire(Supervise(true)), OnWire(Supervise(false)), OnWire(TakeDone)];
      RunAppend(program, s, first, [OnWire(Supervise(true)), OnWire(Supervise(false)), OnWire(TakeDone)]);
      ReturnsFromTop(program, t);
    }
  }

  lemma ReturnsFromTop(program: seq<Op>, s: State)
    requires s.wire.sup.Top? && s.wire.doneClosed
    ensures var steps := [OnWire(Supervise(true)), OnWire(Supervise(false)), OnWire(TakeDone)];
            Run(program, s, steps).Some? && Run(program, s, steps).value.wire.sup.Stopped?
  {
    var steps := [OnWire(Supervise(true)), OnWire(Supervise(false)), OnWire(TakeDone)];
    var s1 := Take(program, s, steps[0]).value;
    var s2 := Take(program, s1, steps[1]).value;
    var s3 := Take(program, s2, steps[2]).value;
    assert steps[1..] == [steps[1], steps[2]] && [steps[1], steps[2]][1..] == [steps[2]] && [steps[2]][1..] == [];
    assert Run(program, s3, []) == Some(s3);
    assert Run(program, s2, [steps[2]]) == Some(s3);
    assert Run(program, s1, [steps[1], steps[2]]) == Some(s3);
  }

  /** When close has ended, there was a moment since its begin at which the connection and every
      channel were dead. */
  lemma {:induction false} CloseTakesDown(program: seq<Op>, s: State, steps: seq<Step>) returns (i: nat, m: State)
    requires Run(program, s, steps).Some? && !s.wire.closer.Finished?
    requires Run(program, s, steps).value.wire.closer.Finished?
    ensures At(program, s, steps, i, m) && m.wire.closer.Finished? && !m.wire.connected && AllDead(m.wire.chans)
    decreases |steps|
  {
    var s' := Take(program, s, steps[0]).value;
    CloseEnds(program, s, steps[0]);
    if s'.wire.closer.Finished? {
      i, m := 1, s';
      assert steps[..1][0] == steps[0] && steps[..1][1..] == [];
      assert Run(program, s', []) == Some(s');
    } else {
      var j;
      j, m := CloseTakesDown(program, s', steps[1..]);
      AtLater(program, s, steps, j, m);
      i := j + 1;
    }
  }

  lemma CloseEnds(program: seq<Op>, s: State, step: Step)
    requires Take(program, s, step).Some? && !s.wire.closer.Finished?
    ensures var w := Take(program, s, step).value.wire;
            w.closer.Finished? ==> !w.connected && AllDead(w.chans)
  {
    match step
    case OnWire(Supervise(ok)) => SuperviseStores(program, s.wire, ok);
    case OnPush(p, act) =>
    case _ =>
  }

  // ---- One connection, one channel ----------------------------------------------------------------------------

  predicate BeforeDial(sup: Supervisor) {
    sup.NotStarted? || sup.Top? || sup.Dialing? || sup.DialPause?
  }

  /** Between the opening of a channel and the end of its init. */
  predicate InInit(sup: Supervisor) {
    sup.Confirming? || sup.AssigningChannel? || sup.AssigningConfirms? || sup.Declaring?
  }

  lemma InitGoesOn(program: seq<Op>, w: Wire, ok: bool)
    requires SuperviseNext(program, w, ok).Some? && InInit(w.sup)
    ensures var sup := SuperviseNext(program, w, ok).value.sup;
            InInit(sup) || sup.InitPause? || sup.Failing? || sup.Storing?
  {
  }

  lemma RestGoesOn(program: seq<Op>, w: Wire, ok: bool)
    requires SuperviseNext(program, w, ok).Some? && !BeforeDial(w.sup) && !InInit(w.sup)
    ensures !BeforeDial(SuperviseNext(program, w, ok).value.sup)
  {
  }

  lemma SuperviseDials(program: seq<Op>, w: Wire, ok: bool)
    requires SuperviseNext(program, w, ok).Some? && (BeforeDial(w.sup) ==> !w.connected)
    ensures var w' := SuperviseNext(program, w, ok).value; BeforeDial(w'.sup) ==> !w'.connected
  {
    if InInit(w.sup) {
      InitGoesOn(program, w, ok);
    } else if !BeforeDial(w.sup) {
      RestGoesOn(program, w, ok);
    }
  }

  lemma StepDials(program: seq<Op>, s: State, step: Step)
    requires Take(program, s, step).Some? && (BeforeDial(s.wire.sup) ==> !s.wire.connected)
    ensures var w := Take(program, s, step).value.wire; BeforeDial(w.sup) ==> !w.connected
  {
    match step
    case OnWire(Supervise(ok)) => SuperviseDials(program, s.wire, ok);
    case OnPush(p, act) =>
    case _ =>
  }

  lemma {:induction false} RunDials(program: seq<Op>, s: State, steps: seq<Step>)
    requires Run(program, s, steps).Some? && (BeforeDial(s.wire.sup) ==> !s.wire.connected)
    ensures var w := Run(program, s, steps).value.wire; BeforeDial(w.sup) ==> !w.connected
    decreases |steps|
  {
    if steps != [] {
      StepDials(program, s, steps[0]);
      RunDials(program, Take(program, s, steps[0]).value, steps[1..]);
    }
  }

  /** In every reachable state: the supervisor dials only when no connection is up, one channel at most
      is alive, the one opened last, and none without a connection. */
  lemma OneConnectionOneChannel(program: seq<Op>, s: State)
    requires Reaches(program, INITIAL, s)
    ensures s.wire.sup.Dialing? ==> !s.wire.connected
    ensures forall e :: 0 <= e < |s.wire.chans| && s.wire.chans[e].alive ==> s.wire.connected && e == |s.wire.chans| - 1
    ensures s.wire.sup.Opening? ==> AllDead(s.wire.chans)
  {
    ReachedInv(program, s);
    var steps :| Run(program, INITIAL, steps) == Some(s);
    RunDials(program, INITIAL, steps);
  }

  // ---- What a push finds ---------------------------------------------------------------------------------------

  /** In the run a push passed its check. */
  ghost predicate Passed(program: seq<Op>, s: State, steps: seq<Step>, p: nat) {
    exists j: nat, m: State ::
      && j < |steps| && At(program, s, steps, j, m) && steps[j] == OnPush(p, Check)
      && m.wire.isReady && p in m.book.pushes && m.book.pushes[p].valid
  }

  predicate AboutToPublish(s: State, p: nat) {
    p in s.book.pushes && s.book.pushes[p].stage.Sending?
  }

  /** A push gets to its publish call only through a check that finds isReady 1 and a valid priority,
      and its first stage only when ready has been closed. */
  lemma PushMoves(program: seq<Op>, s: State, step: Step, p: nat)
    requires Take(program, s, step).Some?
    ensures AboutToPublish(Take(program, s, step).value, p) && !AboutToPublish(s, p) ==>
              step == OnPush(p, Check) && s.wire.isReady && p in s.book.pushes && s.book.pushes[p].valid
    ensures p in Take(program, s, step).value.book.pushes && p !in s.book.pushes ==> s.wire.readyClosed
  {
    match step
    case OnPush(q, act) => if q != p { OtherPush(s, p, q, act); }
    case _ =>
  }

  lemma OtherPush(s: State, p: nat, q: nat, act: PushStep)
    requires q != p && PushNext(s.wire, s.book, q, act).Some?
    ensures var b := PushNext(s.wire, s.book, q, act).value;
            (p in b.pushes <==> p in s.book.pushes) && (p in b.pushes ==> b.pushes[p] == s.book.pushes[p])
  {
  }

  lemma PassedLater(program: seq<Op>, s: State, steps: seq<Step>, p: nat)
    requires steps != [] && Take(program, s, steps[0]).Some?
    requires Passed(program, Take(program, s, steps[0]).value, steps[1..], p)
    ensures Passed(program, s, steps, p)
  {
    var j: nat, m: State :|
      && j < |steps| - 1 && At(program, Take(program, s, steps[0]).value, steps[1..], j, m)
      && steps[1..][j] == OnPush(p, Check) && m.wire.isReady && p in m.book.pushes && m.book.pushes[p].valid;
    AtLater(program, s, steps, j, m);
    assert steps[j + 1] == OnPush(p, Check);
  }

  lemma {:induction false} PublishNeedsReady(program: seq<Op>, s: State, steps: seq<Step>, p: nat)
    requires Run(program, s, steps).Some? && !AboutToPublish(s, p)
    requires AboutToPublish(Run(program, s, steps).value, p)
    ensures Passed(program, s, steps, p)
    decreases |steps|
  {
    var s' := Take(program, s, steps[0]).value;
    if AboutToPublish(s', p) {
      PushMoves(program, s, steps[0], p);
      assert At(program, s, steps, 0, s) by { assert steps[..0] == []; }
    } else {
      PublishNeedsReady(program, s', steps[1..], p);
      PassedLater(program, s, steps, p);
    }
  }

  /** In every reachable state: pushes exist only once an init has completed, at most one of them is
      between Lock and Unlock, and one that returned nil took an acknowledgement of the broker. */
  lemma PushFacts(program: seq<Op>, s: State, p: nat)
    requires Reaches(program, INITIAL, s) && p in s.book.pushes
    ensures s.wire.readyClosed && s.wire.inits >= 1
    ensures Holding(s.book.pushes[p].stage) <==> s.book.lock == Some(p)
    ensures s.book.pushes[p].stage == Returned(true) ==>
              s.book.pushes[p].took.Some? && s.book.pushes[p].took.value in s.book.acked && s.book.acked <= s.book.accepted
  {
    ReachedInv(program, s);
    assert PushOk(s.book, p);
    var steps :| Run(program, INITIAL, steps) == Some(s);
    PushesAreReady(program, INITIAL, steps, p);
  }

  lemma {:induction false} PushesAreReady(program: seq<Op>, s: State, steps: seq<Step>, p: nat)
    requires Run(program, s, steps).Some? && (p in s.book.pushes ==> s.wire.readyClosed)
    ensures p in Run(program, s, steps).value.book.pushes ==> Run(program, s, steps).value.wire.readyClosed
    decreases |steps|
  {
    if steps != [] {
      PushMoves(program, s, steps[0], p);
      SignalsStay(program, s, steps[0]);
      PushesAreReady(program, Take(program, s, steps[0]).value, steps[1..], p);
    }
  }
}
