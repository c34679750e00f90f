/** When a push or close finds the channel field nil: init clears it after a failed declaration
    without asking for pushMu (client.go, init, unsafePush, close). */
module ClientCrashes {
  import opened Basics
  import opened Configuration
  import opened Topology
  import opened ClientMachine
  import opened WireInvariant
  import opened BookInvariant
  import opened ClientTheorems
  import opened ClientRuns

  // ---- The last write to ch ------------------------------------------------------------------------------

  /** What a step does to the field ch: nothing, or init's assignment of a new channel, or init's
      clearing of it after a failed declaration. */
  datatype ChWrite = NoWrite | Assigned(channel: nat) | Cleared

  function WriteOf(w: Wire, step: Step): ChWrite {
    if !step.OnWire? || !step.step.Supervise? then NoWrite
    else if w.sup.AssigningChannel? then Assigned(w.sup.e)
    else if w.sup.Failing? then Cleared
    else NoWrite
  }

  function LastWrite(program: seq<Op>, s: State, steps: seq<Step>): ChWrite
    decreases |steps|
  {
    if steps == [] || Take(program, s, steps[0]).None? then NoWrite
    else
      var later := LastWrite(program, Take(program, s, steps[0]).value, steps[1..]);
      if later.NoWrite? then WriteOf(s.wire, steps[0]) else later
  }

  function After(ch: Option<nat>, write: ChWrite): Option<nat> {
    match write
    case NoWrite => ch
    case Assigned(e) => Some(e)
    case Cleared => None
  }

  lemma SuperviseWrites(program: seq<Op>, w: Wire, ok: bool)
    requires SuperviseNext(program, w, ok).Some?
    ensures SuperviseNext(program, w, ok).value.ch == After(w.ch, WriteOf(w, OnWire(Supervise(ok))))
  {
  }

  lemma WireWrites(program: seq<Op>, w: Wire, step: WireStep)
    requires WireNext(program, w, step).Some?
    ensures WireNext(program, w, step).value.ch == After(w.ch, WriteOf(w, OnWire(step)))
  {
    match step
    case Supervise(ok) => SuperviseWrites(program, w, ok);
    case Close => assert CloseNext(w).value.ch == w.ch;
    case _ =>
  }

  lemma StepWrites(program: seq<Op>, s: State, step: Step)
    requires Take(program, s, step).Some?
    ensures Take(program, s, step).value.wire.ch == After(s.wire.ch, WriteOf(s.wire, step))
  {
    match step
    case OnWire(x) => WireWrites(program, s.wire, x);
    case OnPush(p, act) =>
    case _ =>
  }

  /** The field holds what was last written to it. */
  lemma {:induction false} ChannelAfter(program: seq<Op>, s: State, steps: seq<Step>)
    requires Run(program, s, steps).Some?
    ensures Run(program, s, steps).value.wire.ch == After(s.wire.ch, LastWrite(program, s, steps))
    decreases |steps|
  {
    if steps != [] {
      StepWrites(program, s, steps[0]);
      ChannelAfter(program, Take(program, s, steps[0]).value, steps[1..]);
    }
  }

  // ---- Which publish call panics ---------------------------------------------------------------------------

  lemma CheckPasses(s: State, p: nat)
    requires p in s.book.pushes && s.book.pushes[p].stage.Checking? && s.book.pushes[p].valid && s.wire.isReady
    ensures PushNext(s.wire, s.book, p, Check).Some?
    ensures var b := PushNext(s.wire, s.book, p, Check).value; p in b.pushes && b.pushes[p].stage.Sending?
  {
  }

  lemma SendCrashes(w: Wire, b: Book, p: nat)
    requires p in b.pushes && b.pushes[p].stage.Sending? && PushNext(w, b, p, Send).Some?
    ensures p in PushNext(w, b, p, Send).value.pushes
    ensures PushNext(w, b, p, Send).value.pushes[p].stage.Crashed? <==> w.ch.None?
  {
  }

  /** For every push that passes the readiness check and every run up to its publish call: the call
      panics exactly when the last write to ch since the check is the clearing by a failed init. */
  lemma SendCrashesIff(program: seq<Op>, s: State, p: nat, s1: State, steps: seq<Step>, t: State)
    requires Reaches(program, INITIAL, s) && s.wire.isReady
    requires p in s.book.pushes && s.book.pushes[p].stage.Checking? && s.book.pushes[p].valid
    requires Take(program, s, OnPush(p, Check)) == Some(s1) && Run(program, s1, steps) == Some(t)
    requires p in t.book.pushes && t.book.pushes[p].stage.Sending? && Take(program, t, OnPush(p, Send)).Some?
    ensures p in s1.book.pushes && s1.book.pushes[p].stage.Sending?
    ensures var t' := Take(program, t, OnPush(p, Send)).value;
            p in t'.book.pushes && (t'.book.pushes[p].stage.Crashed? <==> LastWrite(program, s1, steps) == Cleared)
  {
    CheckPasses(s, p);
    assert s.wire.ch.Some? by { ReachedInv(program, s); }
    ChannelAfter(program, s1, steps);
    SendCrashes(t.wire, t.book, p);
  }

  /** The same for close, which reads ch once for its nil test and again for the call. */
  lemma CloseCrashesIff(program: seq<Op>, s: State, steps: seq<Step>, t: State)
    requires s.wire.closer.Signalled? && s.wire.ch.Some?
    requires Run(program, Take(program, s, OnWire(Close)).value, steps) == Some(t) && t.wire.closer.Closing?
    ensures Take(program, s, OnWire(Close)).value.wire.closer.Closing? && Take(program, t, OnWire(Close)).Some?
    ensures Take(program, t, OnWire(Close)).value.wire.closer.CloseCrashed?
            <==> LastWrite(program, Take(program, s, OnWire(Close)).value, steps) == Cleared
  {
    ChannelAfter(program, Take(program, s, OnWire(Close)).value, steps);
  }

  // ---- When it can still happen -------------------------------------------------------------------------------

  /** From the top of handleReconnect through an init whose first declaration fails. */
  lemma ClearsFromTop(program: seq<Op>, w: Wire) returns (steps: seq<WireStep>, t: Wire)
    requires w.sup.Top? && program != []
    ensures Leads(program, w, steps, t) && t.ch.None?
  {
    var go := Supervise(true);
    var w1 := WireNext(program, w, go).value;
    var w2 := WireNext(program, w1, go).value;
    var w3 := WireNext(program, w2, go).value;
    var rest;
    rest, t := ClearsFromOpening(program, w3);
    LeadsCons(program, w2, go, rest, t);
    LeadsCons(program, w1, go, [go] + rest, t);
    steps := [go] + ([go] + ([go] + rest));
    LeadsCons(program, w, go, [go] + ([go] + rest), t);
  }

  lemma ClearsFromOpening(program: seq<Op>, w: Wire) returns (steps: seq<WireStep>, t: Wire)
    requires w.sup.Opening? && w.connected && program != []
    ensures Leads(program, w, steps, t) && t.ch.None?
  {
    var go := Supervise(true);
    var w1 := WireNext(program, w, go).value;
    var w2 := WireNext(program, w1, go).value;
    var w3 := WireNext(program, w2, go).value;
    var w4 := WireNext(program, w3, go).value;
    var rest;
    rest, t := ClearsFromDeclaring(program, w4);
    LeadsCons(program, w3, go, rest, t);
    LeadsCons(program, w2, go, [go] + rest, t);
    LeadsCons(program, w1, go, [go] + ([go] + rest), t);
    steps := [go] + ([go] + ([go] + ([go] + rest)));
    LeadsCons(program, w, go, [go] + ([go] + ([go] + rest)), t);
  }

  lemma ClearsFromDeclaring(program: seq<Op>, w: Wire) returns (steps: seq<WireStep>, t: Wire)
    requires w.sup.Declaring? && w.sup.e < |w.chans| && |w.chans[w.sup.e].done| < |program|
    ensures Leads(program, w, steps, t) && t.ch.None?
  {
    var fail := Supervise(false);
    var w1 := WireNext(program, w, fail).value;
    t := WireNext(program, w1, fail).value;
    LeadsCons(program, w1, fail, [], t);
    steps := [fail] + ([fail] + []);
    LeadsCons(program, w, fail, [fail] + [], t);
  }

  ghost predicate CanCrash(program: seq<Op>, s: State, p: nat) {
    exists steps :: CrashesIn(program, s, p, steps)
  }

  ghost predicate CrashesIn(program: seq<Op>, s: State, p: nat, steps: seq<Step>) {
    && Run(program, s, steps).Some? && p in Run(program, s, steps).value.book.pushes
    && Run(program, s, steps).value.book.pushes[p].stage.Crashed?
  }

  /** A supervisor that has returned writes ch no more, and no step but a publish call crashes. */
  lemma StoppedIsSafe(program: seq<Op>, s: State, step: Step)
    requires s.wire.sup.Stopped? && s.wire.ch.Some? && Take(program, s, step).Some?
    ensures var t := Take(program, s, step).value;
            && t.wire.sup.Stopped? && t.wire.ch.Some?
            && forall p :: p in t.book.pushes && t.book.pushes[p].stage.Crashed? ==>
                 p in s.book.pushes && s.book.pushes[p].stage.Crashed?
  {
    match step
    case OnWire(x) => StepWrites(program, s, step);
    case OnPush(p, act) => PushIsSafe(s.wire, s.book, p, act);
    case _ =>
  }

  lemma PushIsSafe(w: Wire, b: Book, q: nat, act: PushStep)
    requires w.ch.Some? && PushNext(w, b, q, act).Some?
    ensures var b' := PushNext(w, b, q, act).value;
            forall p :: p in b'.pushes && b'.pushes[p].stage.Crashed? ==> p in b.pushes && b.pushes[p].stage.Crashed?
  {
  }

  lemma {:induction false} StoppedStaysSafe(program: seq<Op>, s: State, steps: seq<Step>, p: nat)
    requires s.wire.sup.Stopped? && s.wire.ch.Some? && CrashesIn(program, s, p, steps)
    ensures p in s.book.pushes && s.book.pushes[p].stage.Crashed?
    decreases |steps|
  {
    if steps != [] {
      StoppedIsSafe(program, s, steps[0]);
      StoppedStaysSafe(program, Take(program, s, steps[0]).value, steps[1..], p);
    }
  }

  lemma CrashesAfter(program: seq<Op>, s: State, steps: seq<Step>, p: nat)
    requires Run(program, s, steps).Some? && Run(program, s, steps).value.wire.ch.None?
    requires p in Run(program, s, steps).value.book.pushes
    requires Run(program, s, steps).value.book.pushes[p].stage.Sending?
    ensures CanCrash(program, s, p)
  {
    var t := Run(program, s, steps).value;
    var crash := OnPush(p, Send);
    assert Run(program, t, [crash]) == Take(program, t, crash) by { assert [crash][1..] == []; }
    RunAppend(program, s, steps, [crash]);
    assert CrashesIn(program, s, p, steps + [crash]);
  }

  /** A push past its readiness check can still panic exactly while ch is nil or the supervisor has
      not returned. */
  lemma CanCrashIff(name: string, retry: Option<RetryConfig>, s: State, p: nat)
    requires Reaches(Program(name, retry), INITIAL, s)
    requires p in s.book.pushes && s.book.pushes[p].stage.Sending?
    ensures CanCrash(Program(name, retry), s, p) <==> s.wire.ch.None? || !s.wire.sup.Stopped?
  {
    var program := Program(name, retry);
    if s.wire.ch.None? {
      CrashesAfter(program, s, [], p);
    } else if s.wire.sup.Stopped? {
      if CanCrash(program, s, p) {
        var steps :| CrashesIn(program, s, p, steps);
        StoppedStaysSafe(program, s, steps, p);
        assert false;
      }
    } else {
      var steps := Clearing(program, s);
      CrashesAfter(program, s, steps, p);
    }
  }

  /** The connection dies, the supervisor connects again, and its init fails and clears ch. */
  lemma Clearing(program: seq<Op>, s: State) returns (steps: seq<Step>)
    requires Reaches(program, INITIAL, s) && program != [] && !s.wire.sup.Stopped?
    ensures Run(program, s, steps).Some?
    ensures Run(program, s, steps).value.wire.ch.None? && Run(program, s, steps).value.book.pushes == s.book.pushes
  {
    var w := WireNext(program, s.wire, ConnectionDies).value;
    assert AllDead(w.chans) && (Working(w.sup) ==> w.sup.e < |w.chans|) by { ReachedInv(program, s); }
    var home, top := ComesHome(program, w);
    var rest, t := ClearsFromTop(program, top);
    LeadsAppend(program, w, home, top, rest, t);
    LeadsCons(program, s.wire, ConnectionDies, home + rest, t);
    LeadsIsRun(program, s, [ConnectionDies] + (home + rest), t);
    steps := OnWires([ConnectionDies] + (home + rest));
  }

  // ---- After a crash ---------------------------------------------------------------------------------------------

  /** The push that panicked keeps pushMu; everybody else is outside. */
  ghost predicate Stuck(b: Book, p: nat) {
    && p in b.pushes && b.pushes[p].stage.Crashed? && b.lock == Some(p)
    && forall q :: q in b.pushes && q != p ==> !Holding(b.pushes[q].stage)
  }

  lemma PushStaysStuck(w: Wire, b: Book, p: nat, q: nat, act: PushStep)
    requires Stuck(b, p) && PushNext(w, b, q, act).Some?
    ensures Stuck(PushNext(w, b, q, act).value, p)
    ensures forall r :: r in PushNext(w, b, q, act).value.pushes
                        && PushNext(w, b, q, act).value.pushes[r].stage == Returned(true) ==>
                          r in b.pushes && b.pushes[r].stage == Returned(true)
  {
    if q in b.pushes && q != p { assert !Holding(b.pushes[q].stage); }
  }

  lemma StepStaysStuck(program: seq<Op>, s: State, step: Step, p: nat)
    requires Stuck(s.book, p) && Take(program, s, step).Some?
    ensures Stuck(Take(program, s, step).value.book, p)
    ensures forall r :: r in Take(program, s, step).value.book.pushes
                        && Take(program, s, step).value.book.pushes[r].stage == Returned(true) ==>
                          r in s.book.pushes && s.book.pushes[r].stage == Returned(true)
  {
    match step
    case OnWire(x) =>
    case OnPush(q, act) => PushStaysStuck(s.wire, s.book, p, q, act);
    case _ =>
  }

  lemma {:induction false} RunStaysStuck(program: seq<Op>, s: State, steps: seq<Step>, p: nat)
    requires Stuck(s.book, p) && Run(program, s, steps).Some?
    ensures Stuck(Run(program, s, steps).value.book, p)
    ensures forall r :: r in Run(program, s, steps).value.book.pushes
                        && Run(program, s, steps).value.book.pushes[r].stage == Returned(true) ==>
                          r in s.book.pushes && s.book.pushes[r].stage == Returned(true)
    decreases |steps|
  {
    if steps != [] {
      StepStaysStuck(program, s, steps[0], p);
      RunStaysStuck(program, Take(program, s, steps[0]).value, steps[1..], p);
    }
  }

  /** After a publish call has panicked, in every continuation pushMu stays taken, no other push is
      ever past its lock, and no push returns nil any more. */
  lemma CrashIsForever(program: seq<Op>, s: State, p: nat, steps: seq<Step>)
    requires Reaches(program, INITIAL, s) && p in s.book.pushes && s.book.pushes[p].stage.Crashed?
    requires Run(program, s, steps).Some?
    ensures var b := Run(program, s, steps).value.book;
            && b.lock == Some(p) && p in b.pushes && b.pushes[p].stage.Crashed?
            && (forall q :: q in b.pushes && q != p ==>
                  b.pushes[q].stage.Queued? || b.pushes[q].stage.Resting? || b.pushes[q].stage.Returned?)
            && (forall q :: q in b.pushes && b.pushes[q].stage == Returned(true) ==>
                  q in s.book.pushes && s.book.pushes[q].stage == Returned(true))
  {
    assert Stuck(s.book, p) by { ReachedInv(program, s); }
    RunStaysStuck(program, s, steps, p);
  }
}
