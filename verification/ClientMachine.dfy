/** The client as a concurrent state machine (client.go): the reconnect supervisor, close, any
    number of pushes under pushMu, the connection and its channels, and the broker's publisher
    confirms. A step is one access of the code to shared state, or one event outside it. Two places
    take several accesses together: init's lines 159-162, and closing the channel with clearing ch
    after a failed declaration (178-179); what could come between them is also an event before. */
module ClientMachine {
  import opened Basics
  import opened Topology

  // ---- The wire: supervisor, close, connection and channels --------------------------------------------

  /** A channel the supervisor opened; channels are numbered in the order of opening. */
  datatype Chan = Chan(alive: bool, confirming: bool, listening: bool, done: seq<Op>)

  /** Where handleReconnect, handleReInit and init are; e is the channel being worked on. */
  datatype Supervisor =
    | NotStarted
    | Top
    | Dialing
    | DialPause
    | InitTop
    | Opening
    | Confirming(e: nat)
    | AssigningChannel(e: nat)
    | AssigningConfirms(e: nat)
    | Declaring(e: nat)
    | Failing(e: nat)
    | Storing(e: nat)
    | Announcing(e: nat)
    | InitPause
    | Established(e: nat)
    | Stopped

  /** Where close is inside its closeOnce body. */
  datatype Closer = NotClosing | ReadyCleared | Signalled | Closing | ChannelClosed | Finished | CloseCrashed

  datatype Wire = Wire(
    isReady: bool, readyClosed: bool, doneClosed: bool,
    ch: Option<nat>, confirms: Option<nat>, connected: bool, chans: seq<Chan>,
    sup: Supervisor, closer: Closer,
    spawned: nat, readyCloses: nat, doneCloses: nat, inits: nat)

  const NEW_WIRE: Wire :=
    Wire(false, false, false, None, None, false, [], NotStarted, NotClosing, 0, 0, 0, 0)

  /** ok tells which way a call that can fail went. */
  datatype WireStep =
    | EnsureConnected
    | Supervise(ok: bool)
    | TakeDone
    | TakeConnClose
    | Close
    | ChannelDies(channel: nat)
    | ConnectionDies

  function Kill(chans: seq<Chan>): seq<Chan> {
    seq(|chans|, i requires 0 <= i < |chans| => chans[i].(alive := false))
  }

  function KillOne(chans: seq<Chan>, e: nat): seq<Chan> {
    if e < |chans| then chans[e := chans[e].(alive := false)] else chans
  }

  /** The next step of the supervisor goroutine when no select takes done or the connection's
      close notification; None when it has to wait. */
  function SuperviseNext(program: seq<Op>, w: Wire, ok: bool): Option<Wire> {
    match w.sup
    case NotStarted => None
    case Top => Some(w.(isReady := false, sup := Dialing))
    case Dialing => if ok then Some(w.(connected := true, sup := InitTop)) else Some(w.(sup := DialPause))
    case DialPause => Some(w.(sup := Top))
    case InitTop => Some(w.(isReady := false, sup := Opening))
    case Opening =>
      if ok && w.connected
      then Some(w.(chans := w.chans + [Chan(true, false, false, [])], sup := Confirming(|w.chans|)))
      else Some(w.(sup := InitPause))
    case Confirming(e) =>
      if e >= |w.chans| then None
      else if ok && w.chans[e].alive
      then Some(w.(chans := w.chans[e := w.chans[e].(confirming := true)], sup := AssigningChannel(e)))
      else Some(w.(chans := KillOne(w.chans, e), sup := InitPause))
    case AssigningChannel(e) => Some(w.(ch := Some(e), sup := AssigningConfirms(e)))
    case AssigningConfirms(e) =>
      if e >= |w.chans| then None
      else Some(w.(confirms := Some(e), chans := w.chans[e := w.chans[e].(listening := true)], sup := Declaring(e)))
    case Declaring(e) =>
      if e >= |w.chans| then None
      else if |w.chans[e].done| >= |program| then Some(w.(sup := Storing(e)))
      else if ok && w.chans[e].alive
      then Some(w.(chans := w.chans[e := w.chans[e].(done := w.chans[e].done + [program[|w.chans[e].done|]])]))
      else Some(w.(sup := Failing(e)))
    case Failing(e) => Some(w.(chans := KillOne(w.chans, e), ch := None, sup := InitPause))
    case Storing(e) =>
      Some(w.(isReady := true, inits := w.inits + 1, sup := Announcing(e)))
    case Announcing(e) =>
      if w.readyClosed then Some(w.(sup := Established(e)))
      else Some(w.(readyClosed := true, readyCloses := w.readyCloses + 1, sup := Established(e)))
    case InitPause => Some(w.(sup := InitTop))
    case Established(e) =>
      if e < |w.chans| && !w.chans[e].alive then Some(w.(sup := InitTop)) else None
    case Stopped => None
  }

  predicate AtSelect(sup: Supervisor) {
    sup.DialPause? || sup.InitPause? || sup.Established?
  }

  function CloseNext(w: Wire): Option<Wire> {
    match w.closer
    case NotClosing => Some(w.(isReady := false, closer := ReadyCleared))
    case ReadyCleared =>
      if w.doneClosed then Some(w.(closer := Signalled))
      else Some(w.(doneClosed := true, doneCloses := w.doneCloses + 1, closer := Signalled))
    case Signalled => Some(w.(closer := if w.ch.Some? then Closing else ChannelClosed))
    case Closing =>
      // The field is read again for the call, and the call on nil panics.
      if w.ch.Some? then Some(w.(chans := KillOne(w.chans, w.ch.value), closer := ChannelClosed))
      else Some(w.(closer := CloseCrashed))
    case ChannelClosed => Some(w.(chans := Kill(w.chans), connected := false, closer := Finished))
    case Finished => Some(w)
    case CloseCrashed => None
  }

  function WireNext(program: seq<Op>, w: Wire, step: WireStep): Option<Wire> {
    match step
    case EnsureConnected =>
      if w.sup.NotStarted? then Some(w.(sup := Top, spawned := w.spawned + 1)) else Some(w)
    case Supervise(ok) => SuperviseNext(program, w, ok)
    case TakeDone => if w.doneClosed && AtSelect(w.sup) then Some(w.(sup := Stopped)) else None
    case TakeConnClose =>
      if !w.connected && (w.sup.InitPause? || w.sup.Established?) then Some(w.(sup := Top)) else None
    case Close => CloseNext(w)
    case ChannelDies(e) => Some(w.(chans := KillOne(w.chans, e)))
    case ConnectionDies => Some(w.(chans := Kill(w.chans), connected := false))
  }

  // ---- The book: pushes, and confirms owed on each channel -------------------------------------------------

  /** A confirm not yet received by a push: undecided, or in the notifyConfirm buffer. */
  datatype Owed = Owed(pub: nat, outcome: Option<bool>)

  /** Per channel: the confirms owed in order, and how waits for its publishes ended without
      taking a confirm from it (cancelled; ended on another channel; found it closed), how many
      of its confirms went to publishes of another channel, and how many came before anybody
      listened. */
  datatype Ledger = Ledger(owed: seq<Owed>, cancelled: nat, crossed: nat, closed: nat, foreign: nat, unheard: nat)

  const NEW_LEDGER: Ledger := Ledger([], 0, 0, 0, 0, 0)

  /** Where a push is: before the lock; holding it while checking isReady, publishing, about to
      select, selecting on the confirms of channel source, or about to unlock; or after it. */
  datatype Stage =
    | Queued
    | Checking
    | Sending
    | Sent(pub: nat, e: nat)
    | Awaiting(pub: nat, e: nat, source: nat)
    | Lost
    | Won
    | Resting
    | Returned(ok: bool)
    | Crashed

  /** A push: its stage, whether the priority is at most 9, its publishes so far, the publish
      whose confirm it took when it won, and whether that channel had never missed a confirm. */
  datatype Push = Push(stage: Stage, valid: bool, pubs: seq<nat>, took: Option<nat>, clean: bool)

  datatype Book = Book(
    lock: Option<nat>, pushes: map<nat, Push>, ledgers: seq<Ledger>,
    next: nat, sentOn: map<nat, nat>, accepted: set<nat>, acked: set<nat>)

  datatype State = State(wire: Wire, book: Book)

  const INITIAL: State := State(NEW_WIRE, Book(None, map[], [], 0, map[], {}, {}))

  datatype PushStep =
    | Begin(valid: bool)
    | Lock
    | Check
    | Send
    | SendFails(reached: bool)
    | Select
    | TakeConfirm
    | TakeClosed
    | Abandon
    | Unlock
    | Retry
    | GiveUp

  datatype Step =
    | OnWire(step: WireStep)
    | OnPush(push: nat, act: PushStep)
    | BrokerAccepts(pub: nat)
    | BrokerConfirms(channel: nat, ack: bool)

  function Missed(l: Ledger): nat {
    l.cancelled + l.crossed + l.closed
  }

  function PutLedger(b: Book, e: nat, l: Ledger): Book {
    if e < |b.ledgers| then b.(ledgers := b.ledgers[e := l]) else b
  }

  function PutStage(b: Book, p: nat, x: Push, stage: Stage): Book {
    b.(pushes := b.pushes[p := x.(stage := stage)])
  }

  /** Publishing on channel e: the confirm is owed from now on. */
  function Published(b: Book, p: nat, x: Push, e: nat): Book
    requires e < |b.ledgers|
  {
    var l := b.ledgers[e];
    b.(ledgers := b.ledgers[e := l.(owed := l.owed + [Owed(b.next, None)])],
       sentOn := b.sentOn[b.next := e], next := b.next + 1,
       pushes := b.pushes[p := x.(stage := Sent(b.next, e), pubs := x.pubs + [b.next])])
  }

  /** A publish that reported an error although its frame got out: it is owed nothing. */
  function Escaped(b: Book, p: nat, x: Push, e: nat): Book {
    b.(accepted := b.accepted + {b.next}, sentOn := b.sentOn[b.next := e], next := b.next + 1,
       pushes := b.pushes[p := x.(stage := Lost, pubs := x.pubs + [b.next])])
  }

  function Took(b: Book, p: nat, x: Push, e: nat, f: nat): Book
    requires e < |b.ledgers| && f < |b.ledgers| && b.ledgers[f].owed != []
    requires b.ledgers[f].owed[0].outcome.Some?
  {
    var head := b.ledgers[f].owed[0];
    var l := b.ledgers[f];
    var l' := l.(owed := l.owed[1..], foreign := l.foreign + (if e == f then 0 else 1));
    var b' := b.(ledgers := b.ledgers[f := l']);
    var b'' := if e == f then b' else PutLedger(b', e, b.ledgers[e].(crossed := b.ledgers[e].crossed + 1));
    b''.(pushes := b.pushes[p := x.(stage := if head.outcome.value then Won else Lost,
                                    took := Some(head.pub), clean := Missed(l) == 0)])
  }

  function PushNext(w: Wire, b: Book, p: nat, act: PushStep): Option<Book> {
    if act.Begin? then
      if p !in b.pushes && w.readyClosed
      then Some(b.(pushes := b.pushes[p := Push(Queued, act.valid, [], None, false)])) else None
    else if p !in b.pushes then None
    else
      var x := b.pushes[p];
      match (act, x.stage)
      case (Lock, Queued) =>
        if b.lock.None? then Some(PutStage(b, p, x, Checking).(lock := Some(p))) else None
      case (Check, Checking) => Some(PutStage(b, p, x, if w.isReady && x.valid then Sending else Lost))
      case (Send, Sending) =>
        if w.ch.None? then Some(PutStage(b, p, x, Crashed))
        else if w.ch.value < |w.chans| && w.chans[w.ch.value].alive && w.ch.value < |b.ledgers|
        then Some(Published(b, p, x, w.ch.value))
        else None
      case (SendFails(reached), Sending) =>
        if w.ch.None? then None
        else if reached then Some(Escaped(b, p, x, w.ch.value))
        else Some(PutStage(b, p, x, Lost))
      case (Select, Sent(pub, e)) =>
        if w.confirms.Some? then Some(PutStage(b, p, x, Awaiting(pub, e, w.confirms.value))) else None
      case (TakeConfirm, Awaiting(pub, e, f)) =>
        if e < |b.ledgers| && f < |b.ledgers| && b.ledgers[f].owed != [] && b.ledgers[f].owed[0].outcome.Some?
        then Some(Took(b, p, x, e, f)) else None
      case (TakeClosed, Awaiting(pub, e, f)) =>
        if f < |w.chans| && !w.chans[f].alive && e < |b.ledgers| then
          var l := b.ledgers[e];
          Some(PutStage(PutLedger(b, e, if e == f then l.(closed := l.closed + 1) else l.(crossed := l.crossed + 1)),
                        p, x, Lost))
        else None
      case (Abandon, Awaiting(pub, e, f)) =>
        if e < |b.ledgers|
        then Some(PutStage(PutLedger(b, e, b.ledgers[e].(cancelled := b.ledgers[e].cancelled + 1)), p, x, Lost))
        else None
      case (Unlock, Lost) => Some(PutStage(b, p, x, Resting).(lock := None))
      case (Unlock, Won) => Some(PutStage(b, p, x, Returned(true)).(lock := None))
      case (Retry, Resting) => Some(PutStage(b, p, x, Queued))
      case (GiveUp, Resting) => Some(PutStage(b, p, x, Returned(false)))
      case _ => None
  }

  function FirstUndecided(owed: seq<Owed>): (i: nat)
    ensures i <= |owed|
    ensures i < |owed| ==> owed[i].outcome.None?
    ensures forall j :: 0 <= j < i ==> owed[j].outcome.Some?
  {
    if owed == [] || owed[0].outcome.None? then 0 else 1 + FirstUndecided(owed[1..])
  }

  /** The broker confirms publishes of a channel in order; an acknowledged one is accepted. A
      confirm that arrives before NotifyPublish is dropped by the library. */
  function ConfirmNext(w: Wire, b: Book, e: nat, ack: bool): Option<Book> {
    if e >= |w.chans| || e >= |b.ledgers| || !w.chans[e].alive then None
    else
      var l := b.ledgers[e];
      var i := if w.chans[e].listening then FirstUndecided(l.owed) else 0;
      if i >= |l.owed| then None
      else
        var pub := l.owed[i].pub;
        if ack && pub !in b.accepted then None
        else
          var l' := if w.chans[e].listening then l.(owed := l.owed[i := Owed(pub, Some(ack))])
                    else l.(owed := l.owed[1..], unheard := l.unheard + 1);
          Some(b.(ledgers := b.ledgers[e := l'], acked := if ack then b.acked + {pub} else b.acked))
  }

  /** Opening a channel opens its ledger. */
  function Grown(w: Wire, b: Book): Book {
    if |w.chans| > |b.ledgers| then b.(ledgers := b.ledgers + [NEW_LEDGER]) else b
  }

  function Take(program: seq<Op>, s: State, step: Step): Option<State> {
    match step
    case OnWire(x) =>
      (match WireNext(program, s.wire, x)
       case None => None
       case Some(w) => Some(State(w, Grown(w, s.book))))
    case OnPush(p, act) =>
      (match PushNext(s.wire, s.book, p, act)
       case None => None
       case Some(b) =>
         // A publish error after the frame was written takes the connection down.
         if act == SendFails(true)
         then Some(State(s.wire.(chans := Kill(s.wire.chans), connected := false), b))
         else Some(State(s.wire, b)))
    case BrokerAccepts(pub) =>
      if pub < s.book.next then Some(s.(book := s.book.(accepted := s.book.accepted + {pub}))) else None
    case BrokerConfirms(e, ack) =>
      (match ConfirmNext(s.wire, s.book, e, ack)
       case None => None
       case Some(b) => Some(s.(book := b)))
  }

  function Run(program: seq<Op>, s: State, steps: seq<Step>): Option<State>
    decreases |steps|
  {
    if steps == [] then Some(s)
    else match Take(program, s, steps[0])
      case None => None
      case Some(s') => Run(program, s', steps[1..])
  }
}
