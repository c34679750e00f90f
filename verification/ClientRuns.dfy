/** Where the supervisor can get to: when isReady can be 1 after close. */
module ClientRuns {
  import opened Basics
  import opened Topology
  import opened ClientMachine
  import opened WireInvariant
  import opened ClientTheorems

  // ---- isReady after close ------------------------------------------------------------------------------

  /** After close has begun with the supervisor gone and isReady 0, it stays 0. */
  lemma StaysDown(program: seq<Op>, s: State, step: Step)
    requires s.wire.sup.Stopped? && !s.wire.isReady && Take(program, s, step).Some?
    ensures var w := Take(program, s, step).value.wire; w.sup.Stopped? && !w.isReady
  {
  }

  lemma {:induction false} RunStaysDown(program: seq<Op>, s: State, steps: seq<Step>)
    requires s.wire.sup.Stopped? && !s.wire.isReady && Run(program, s, steps).Some?
    ensures !Run(program, s, steps).value.wire.isReady
    decreases |steps|
  {
    if steps != [] {
      StaysDown(program, s, steps[0]);
      RunStaysDown(program, Take(program, s, steps[0]).value, steps[1..]);
    }
  }

  /** Wire steps alone, leading from one wire to another. */
  ghost predicate Leads(program: seq<Op>, w: Wire, steps: seq<WireStep>, t: Wire)
    decreases |steps|
  {
    if steps == [] then w == t
    else WireNext(program, w, steps[0]).Some? && Leads(program, WireNext(program, w, steps[0]).value, steps[1..], t)
  }

  function OnWires(steps: seq<WireStep>): seq<Step> {
    seq(|steps|, i requires 0 <= i < |steps| => OnWire(steps[i]))
  }

  lemma {:induction false} LeadsIsRun(program: seq<Op>, s: State, steps: seq<WireStep>, t: Wire)
    requires Leads(program, s.wire, steps, t)
    ensures Run(program, s, OnWires(steps)).Some? && Run(program, s, OnWires(steps)).value.wire == t
    ensures Run(program, s, OnWires(steps)).value.book.pushes == s.book.pushes
    decreases |steps|
  {
    if steps != [] {
      var s' := Take(program, s, OnWire(steps[0])).value;
      LeadsIsRun(program, s', steps[1..], t);
      assert OnWires(steps)[1..] == OnWires(steps[1..]);
    }
  }

  lemma {:induction false} LeadsAppend(program: seq<Op>, w: Wire, first: seq<WireStep>, mid: Wire,
                                       second: seq<WireStep>, t: Wire)
    requires Leads(program, w, first, mid) && Leads(program, mid, second, t)
    ensures Leads(program, w, first + second, t)
    decreases |first|
  {
    if first == [] {
      assert first + second == second;
    } else {
      assert (first + second)[1..] == first[1..] + second;
      LeadsAppend(program, WireNext(program, w, first[0]).value, first[1..], mid, second, t);
    }
  }

  lemma LeadsCons(program: seq<Op>, w: Wire, step: WireStep, steps: seq<WireStep>, t: Wire)
    requires WireNext(program, w, step).Some? && Leads(program, WireNext(program, w, step).value, steps, t)
    ensures Leads(program, w, [step] + steps, t)
  {
    assert ([step] + steps)[1..] == steps;
  }

  /** From the end of the declarations the supervisor gets to isReady. */
  lemma {:induction false} DeclareUp(program: seq<Op>, w: Wire) returns (steps: seq<WireStep>, t: Wire)
    requires w.sup.Declaring? && w.sup.e < |w.chans| && w.chans[w.sup.e].alive
    requires |w.chans[w.sup.e].done| <= |program|
    ensures Leads(program, w, steps, t) && t.isReady
    decreases |program| - |w.chans[w.sup.e].done|
  {
    var w' := WireNext(program, w, Supervise(true)).value;
    if w'.sup.Storing? {
      var w'' := WireNext(program, w', Supervise(true)).value;
      t := w'';
      LeadsCons(program, w', Supervise(true), [], t);
      steps := [Supervise(true)] + ([Supervise(true)] + []);
      LeadsCons(program, w, Supervise(true), [Supervise(true)] + [], t);
    } else {
      var rest;
      rest, t := DeclareUp(program, w');
      steps := [Supervise(true)] + rest;
      LeadsCons(program, w, Supervise(true), rest, t);
    }
  }

  /** From the opening of a channel on a live connection to isReady. */
  lemma OpenUp(program: seq<Op>, w: Wire) returns (steps: seq<WireStep>, t: Wire)
    requires w.sup.Opening? && w.connected
    ensures Leads(program, w, steps, t) && t.isReady
  {
    var go := Supervise(true);
    var w1 := WireNext(program, w, go).value;
    var w2 := WireNext(program, w1, go).value;
    var w3 := WireNext(program, w2, go).value;
    var w4 := WireNext(program, w3, go).value;
    var rest;
    rest, t := DeclareUp(program, w4);
    LeadsCons(program, w3, go, rest, t);
    LeadsCons(program, w2, go, [go] + rest, t);
    LeadsCons(program, w1, go, [go] + ([go] + rest), t);
    steps := [go] + ([go] + ([go] + ([go] + rest)));
    LeadsCons(program, w, go, [go] + ([go] + ([go] + rest)), t);
  }

  /** From the top of handleReconnect to isReady. */
  lemma DialUp(program: seq<Op>, w: Wire) returns (steps: seq<WireStep>, t: Wire)
    requires w.sup.Top?
    ensures Leads(program, w, steps, t) && t.isReady
  {
    var go := Supervise(true);
    var w1 := WireNext(program, w, go).value;
    var w2 := WireNext(program, w1, go).value;
    var w3 := WireNext(program, w2, go).value;
    var rest;
    rest, t := OpenUp(program, w3);
    LeadsCons(program, w2, go, rest, t);
    LeadsCons(program, w1, go, [go] + rest, t);
    steps := [go] + ([go] + ([go] + rest));
    LeadsCons(program, w, go, [go] + ([go] + rest), t);
  }

  /** How far the supervisor is from the next select or the top. */
  function Remaining(sup: Supervisor): nat {
    match sup
    case NotStarted => 1
    case Dialing => 2
    case InitTop => 10
    case Opening => 9
    case Confirming(_) => 9
    case AssigningChannel(_) => 8
    case AssigningConfirms(_) => 7
    case Declaring(_) => 6
    case Failing(_) => 5
    case Storing(_) => 5
    case Announcing(_) => 4
    case Established(_) => 1
    case InitPause => 1
    case DialPause => 1
    case Top => 0
    case Stopped => 0
  }

  function Homeward(w: Wire): WireStep {
    match w.sup
    case NotStarted => EnsureConnected
    case Established(_) => TakeConnClose
    case InitPause => TakeConnClose
    case _ => Supervise(false)
  }

  /** On a dead connection every supervisor that has not returned gets back to the top. */
  lemma {:induction false} ComesHome(program: seq<Op>, w: Wire) returns (steps: seq<WireStep>, t: Wire)
    requires !w.connected && !w.sup.Stopped? && AllDead(w.chans)
    requires Working(w.sup) ==> w.sup.e < |w.chans|
    ensures Leads(program, w, steps, t) && t.sup.Top?
    decreases Remaining(w.sup)
  {
    if w.sup.Top? {
      steps, t := [], w;
    } else {
      var step := Homeward(w);
      var w' := WireNext(program, w, step).value;
      HomewardStep(program, w);
      var rest;
      rest, t := ComesHome(program, w');
      steps := [step] + rest;
      LeadsCons(program, w, step, rest, t);
    }
  }

  /** From there it gets to isReady. */
  lemma ComesUp(program: seq<Op>, w: Wire) returns (steps: seq<WireStep>, t: Wire)
    requires !w.connected && !w.sup.Stopped? && AllDead(w.chans)
    requires Working(w.sup) ==> w.sup.e < |w.chans|
    ensures Leads(program, w, steps, t) && t.isReady
  {
    var home, w' := ComesHome(program, w);
    var up;
    up, t := DialUp(program, w');
    LeadsAppend(program, w, home, w', up, t);
    steps := home + up;
  }

  ghost predicate Nearer(w: Wire, w': Wire) {
    && !w'.connected && !w'.sup.Stopped? && AllDead(w'.chans)
    && (Working(w'.sup) ==> w'.sup.e < |w'.chans|)
    && Remaining(w'.sup) < Remaining(w.sup)
  }

  predicate Replacing(sup: Supervisor) {
    sup.Confirming? || sup.AssigningConfirms? || sup.Declaring? || sup.Failing?
  }

  lemma HomewardReplacing(program: seq<Op>, w: Wire)
    requires !w.connected && Replacing(w.sup) && AllDead(w.chans) && w.sup.e < |w.chans|
    ensures SuperviseNext(program, w, false).Some? && Nearer(w, SuperviseNext(program, w, false).value)
  {
    var w' := SuperviseNext(program, w, false).value;
    assert |w'.chans| == |w.chans|;
    assert forall i :: 0 <= i < |w.chans| ==> !w'.chans[i].alive;
  }

  lemma HomewardStep(program: seq<Op>, w: Wire)
    requires !w.connected && !w.sup.Stopped? && !w.sup.Top? && AllDead(w.chans)
    requires Working(w.sup) ==> w.sup.e < |w.chans|
    ensures WireNext(program, w, Homeward(w)).Some?
    ensures Nearer(w, WireNext(program, w, Homeward(w)).value)
  {
    if Replacing(w.sup) {
      HomewardReplacing(program, w);
    } else if w.sup.NotStarted? || w.sup.Established? || w.sup.InitPause? {
      assert WireNext(program, w, Homeward(w)).value.chans == w.chans;
    } else {
      HomewardQuiet(program, w);
    }
  }

  lemma HomewardQuiet(program: seq<Op>, w: Wire)
    requires !w.connected && !Replacing(w.sup) && AllDead(w.chans) && (Working(w.sup) ==> w.sup.e < |w.chans|)
    requires !w.sup.NotStarted? && !w.sup.Established? && !w.sup.InitPause? && !w.sup.Stopped? && !w.sup.Top?
    ensures SuperviseNext(program, w, false).Some? && Nearer(w, SuperviseNext(program, w, false).value)
  {
    assert SuperviseNext(program, w, false).value.chans == w.chans;
  }

  ghost predicate CanBecomeReady(program: seq<Op>, s: State) {
    exists steps :: Run(program, s, steps).Some? && Run(program, s, steps).value.wire.isReady
  }

  /** After close has finished, isReady can still be or become 1 exactly when it is or the supervisor
      has not returned yet: close does not wait for it, and init stores 1 without asking done. */
  lemma ReadyAfterCloseIff(program: seq<Op>, s: State)
    requires Reaches(program, INITIAL, s) && s.wire.closer.Finished?
    ensures CanBecomeReady(program, s) <==> s.wire.isReady || !s.wire.sup.Stopped?
  {
    ReachedInv(program, s);
    if s.wire.isReady {
      assert Run(program, s, []) == Some(s);
    } else if s.wire.sup.Stopped? {
      forall steps | Run(program, s, steps).Some? ensures !Run(program, s, steps).value.wire.isReady {
        RunStaysDown(program, s, steps);
      }
    } else {
      var w := WireNext(program, s.wire, ConnectionDies).value;
      var rest, t := ComesUp(program, w);
      LeadsCons(program, s.wire, ConnectionDies, rest, t);
      LeadsIsRun(program, s, [ConnectionDies] + rest, t);
    }
  }
}
