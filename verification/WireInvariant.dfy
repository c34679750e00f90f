/** The supervisor and close under every interleaving. */
module WireInvariant {
  import opened Basics
  import opened Topology
  import opened ClientMachine

  ghost predicate AllDead(chans: seq<Chan>) {
    forall i :: 0 <= i < |chans| ==> !chans[i].alive
  }

  /** Between channels: nothing that was opened is alive. */
  predicate Idle(sup: Supervisor) {
    sup in {NotStarted, Top, Dialing, DialPause, InitTop, Opening, InitPause}
  }

  predicate Working(sup: Supervisor) {
    || sup.Confirming? || sup.AssigningChannel? || sup.AssigningConfirms? || sup.Declaring?
    || sup.Failing? || sup.Storing? || sup.Announcing? || sup.Established?
  }

  /** A channel is opened only after every earlier one died, and it is declared in order. */
  ghost predicate ChansInv(program: seq<Op>, w: Wire) {
    && (forall i :: 0 <= i < |w.chans| - 1 ==> !w.chans[i].alive)
    && (!w.connected ==> AllDead(w.chans))
    && (Idle(w.sup) ==> AllDead(w.chans))
    && (forall i :: 0 <= i < |w.chans| ==> w.chans[i].done <= program)
    && (w.ch.Some? ==> w.ch.value < |w.chans|)
    && (w.confirms.Some? ==> w.confirms.value < |w.chans|)
  }

  /** How far the newest channel is at each point of init. */
  ghost predicate StageInv(program: seq<Op>, w: Wire) {
    Working(w.sup) ==>
      && w.sup.e == |w.chans| - 1
      && (!w.sup.Confirming? ==> w.chans[w.sup.e].confirming)
      && (!w.sup.Confirming? && !w.sup.AssigningChannel? ==> w.ch == Some(w.sup.e))
      && (!w.sup.Confirming? && !w.sup.AssigningChannel? && !w.sup.AssigningConfirms? ==>
            w.confirms == Some(w.sup.e) && w.chans[w.sup.e].listening)
      && (w.sup.Storing? || w.sup.Announcing? || w.sup.Established? ==> w.chans[w.sup.e].done == program)
  }

  /** The current channel is in confirm mode, heard, and fully declared. */
  ghost predicate FullyUp(program: seq<Op>, w: Wire) {
    && w.ch.Some? && w.ch.value == |w.chans| - 1 && w.confirms == w.ch
    && w.chans[w.ch.value].confirming && w.chans[w.ch.value].listening
    && w.chans[w.ch.value].done == program
  }

  ghost predicate FlagsInv(program: seq<Op>, w: Wire) {
    && (w.isReady ==> FullyUp(program, w))
    && (w.isReady ==> w.sup.Announcing? || w.sup.Established? || w.sup in {Top, InitTop, Stopped})
  }

  ghost predicate SignalsInv(w: Wire) {
    && w.readyCloses == (if w.readyClosed then 1 else 0)
    && (w.readyClosed ==> w.inits >= 1 && w.confirms.Some?)
    && (w.sup.Announcing? ==> w.inits >= 1)
    && (w.inits >= 1 && !w.readyClosed ==> w.inits == 1 && w.sup.Announcing?)
    && w.doneCloses == (if w.doneClosed then 1 else 0)
    && (w.doneClosed <==> !w.closer.NotClosing? && !w.closer.ReadyCleared?)
    && w.spawned == (if w.sup.NotStarted? then 0 else 1)
  }

  ghost predicate WireInv(program: seq<Op>, w: Wire) {
    ChansInv(program, w) && StageInv(program, w) && FlagsInv(program, w) && SignalsInv(w)
  }

  /** Only the lives of channels and of the connection changed. */
  ghost predicate OnlyDeaths(w: Wire, w': Wire) {
    && |w'.chans| == |w.chans|
    && (forall i :: 0 <= i < |w.chans| ==>
          w'.chans[i] == w.chans[i] || w'.chans[i] == w.chans[i].(alive := false))
    && (!w'.connected ==> !w.connected || AllDead(w'.chans))
    && w' == w.(chans := w'.chans, connected := w'.connected)
    && (w'.connected ==> w.connected)
  }

  lemma DeathsKeep(program: seq<Op>, w: Wire, w': Wire)
    requires WireInv(program, w) && OnlyDeaths(w, w')
    ensures WireInv(program, w')
  {
  }

  lemma IdleKeeps(program: seq<Op>, w: Wire, ok: bool)
    requires WireInv(program, w) && SuperviseNext(program, w, ok).Some?
    requires Idle(w.sup) && !w.sup.Opening?
    ensures WireInv(program, SuperviseNext(program, w, ok).value)
  {
  }

  lemma OpeningKeeps(program: seq<Op>, w: Wire, ok: bool)
    requires WireInv(program, w) && w.sup.Opening?
    ensures WireInv(program, SuperviseNext(program, w, ok).value)
  {
  }

  /** One channel record is replaced by one no more alive that has declared at least as much. */
  lemma ChanReplaced(program: seq<Op>, w: Wire, w': Wire, e: nat, c: Chan)
    requires ChansInv(program, w) && e == |w.chans| - 1 && w'.chans == w.chans[e := c]
    requires w'.connected == w.connected && (c.alive ==> w.chans[e].alive && !Idle(w'.sup))
    requires c.done <= program
    requires w'.ch.Some? ==> w'.ch.value <= e
    requires w'.confirms.Some? ==> w'.confirms.value <= e
    ensures ChansInv(program, w')
  {
  }

  lemma ConfirmingKeeps(program: seq<Op>, w: Wire, ok: bool)
    requires WireInv(program, w) && w.sup.Confirming?
    ensures WireInv(program, SuperviseNext(program, w, ok).value)
  {
    var w' := SuperviseNext(program, w, ok).value;
    ChanReplaced(program, w, w', w.sup.e, w'.chans[w.sup.e]);
  }

  lemma AssigningKeeps(program: seq<Op>, w: Wire, ok: bool)
    requires WireInv(program, w) && (w.sup.AssigningChannel? || w.sup.AssigningConfirms?)
    ensures WireInv(program, SuperviseNext(program, w, ok).value)
  {
    var w' := SuperviseNext(program, w, ok).value;
    assert w'.chans == w.chans[w.sup.e := w'.chans[w.sup.e]];
    ChanReplaced(program, w, w', w.sup.e, w'.chans[w.sup.e]);
  }

  lemma DeclaringKeeps(program: seq<Op>, w: Wire, ok: bool)
    requires WireInv(program, w) && (w.sup.Declaring? || w.sup.Failing?)
    ensures WireInv(program, SuperviseNext(program, w, ok).value)
  {
    var w' := SuperviseNext(program, w, ok).value;
    var e := w.sup.e;
    assert w'.chans == w.chans[e := w'.chans[e]];
    assert w'.chans[e].done <= program;
    ChanReplaced(program, w, w', e, w'.chans[e]);
  }

  lemma UpKeeps(program: seq<Op>, w: Wire, ok: bool)
    requires WireInv(program, w) && SuperviseNext(program, w, ok).Some?
    requires w.sup.Storing? || w.sup.Announcing? || w.sup.Established?
    ensures WireInv(program, SuperviseNext(program, w, ok).value)
  {
  }

  lemma SuperviseKeeps(program: seq<Op>, w: Wire, ok: bool)
    requires WireInv(program, w) && SuperviseNext(program, w, ok).Some?
    ensures WireInv(program, SuperviseNext(program, w, ok).value)
  {
    match w.sup
    case Opening => OpeningKeeps(program, w, ok);
    case Confirming(_) => ConfirmingKeeps(program, w, ok);
    case AssigningChannel(_) => AssigningKeeps(program, w, ok);
    case AssigningConfirms(_) => AssigningKeeps(program, w, ok);
    case Declaring(_) => DeclaringKeeps(program, w, ok);
    case Failing(_) => DeclaringKeeps(program, w, ok);
    case Storing(_) => UpKeeps(program, w, ok);
    case Announcing(_) => UpKeeps(program, w, ok);
    case Established(_) => UpKeeps(program, w, ok);
    case _ => IdleKeeps(program, w, ok);
  }

  lemma CloserMoves(program: seq<Op>, w: Wire, closer: Closer)
    requires WireInv(program, w) && !w.closer.NotClosing? && !w.closer.ReadyCleared?
    requires !closer.NotClosing? && !closer.ReadyCleared?
    ensures WireInv(program, w.(closer := closer))
  {
  }

  lemma CloseBeginKeeps(program: seq<Op>, w: Wire)
    requires WireInv(program, w) && (w.closer.NotClosing? || w.closer.ReadyCleared?)
    ensures WireInv(program, CloseNext(w).value)
  {
  }

  lemma CloseEndKeeps(program: seq<Op>, w: Wire)
    requires WireInv(program, w) && w.closer in {Signalled, Closing, ChannelClosed}
    ensures WireInv(program, CloseNext(w).value)
  {
    var w' := CloseNext(w).value;
    var deaths := w.(chans := w'.chans, connected := w'.connected);
    assert OnlyDeaths(w, deaths);
    DeathsKeep(program, w, deaths);
    CloserMoves(program, deaths, w'.closer);
    assert w' == deaths.(closer := w'.closer);
  }

  lemma CloseKeeps(program: seq<Op>, w: Wire)
    requires WireInv(program, w) && CloseNext(w).Some?
    ensures WireInv(program, CloseNext(w).value)
  {
    match w.closer
    case NotClosing => CloseBeginKeeps(program, w);
    case ReadyCleared => CloseBeginKeeps(program, w);
    case Signalled => CloseEndKeeps(program, w);
    case Closing => CloseEndKeeps(program, w);
    case ChannelClosed => CloseEndKeeps(program, w);
    case Finished =>
  }

  lemma WireKeeps(program: seq<Op>, w: Wire, step: WireStep)
    requires WireInv(program, w) && WireNext(program, w, step).Some?
    ensures WireInv(program, WireNext(program, w, step).value)
  {
    match step
    case Supervise(ok) => SuperviseKeeps(program, w, ok);
    case Close => CloseKeeps(program, w);
    case ChannelDies(e) => DeathsKeep(program, w, w.(chans := KillOne(w.chans, e)));
    case ConnectionDies => DeathsKeep(program, w, w.(chans := Kill(w.chans), connected := false));
    case EnsureConnected => TurnKeeps(program, w);
    case TakeDone => TurnKeeps(program, w);
    case TakeConnClose => TurnKeeps(program, w);
  }

  /** Starting the supervisor, and the two ways out of its selects. */
  lemma TurnKeeps(program: seq<Op>, w: Wire)
    requires WireInv(program, w)
    ensures w.sup.NotStarted? ==> WireInv(program, w.(sup := Top, spawned := w.spawned + 1))
    ensures AtSelect(w.sup) ==> WireInv(program, w.(sup := Stopped))
    ensures !w.connected && (w.sup.InitPause? || w.sup.Established?) ==> WireInv(program, w.(sup := Top))
  {
  }

  lemma NewWireInv(program: seq<Op>)
    ensures WireInv(program, NEW_WIRE)
  {
  }
}
