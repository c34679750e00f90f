/** Confirms and pushes under every interleaving: what is owed on a channel is exactly what
    ended waits left behind. */
module BookInvariant {
  import opened Basics
  import opened Topology
  import opened ClientMachine
  import opened WireInvariant

  /** Stages between Lock and Unlock; a push that crashed never unlocks. */
  predicate Holding(stage: Stage) {
    stage.Checking? || stage.Sending? || stage.Sent? || stage.Awaiting? || stage.Lost? || stage.Won? || stage.Crashed?
  }

  predicate Pending(stage: Stage) {
    stage.Sent? || stage.Awaiting?
  }

  ghost predicate LockInv(b: Book) {
    && (b.lock.Some? ==> b.lock.value in b.pushes && Holding(b.pushes[b.lock.value].stage))
    && (forall p :: p in b.pushes && Holding(b.pushes[p].stage) ==> b.lock == Some(p))
  }

  /** The channel whose confirm the push inside the lock is waiting for, if any. */
  function PendingOn(b: Book): Option<nat> {
    if b.lock.Some? && b.lock.value in b.pushes && Pending(b.pushes[b.lock.value].stage)
    then Some(b.pushes[b.lock.value].stage.e) else None
  }

  ghost predicate Balanced(l: Ledger, pending: bool) {
    |l.owed| + l.foreign + l.unheard == Missed(l) + (if pending then 1 else 0)
  }

  /** Publishes are numbered in order, each sent on one channel. */
  ghost predicate EntriesInv(b: Book, e: nat, owed: seq<Owed>) {
    && (forall i :: 0 <= i < |owed| ==> owed[i].pub in b.sentOn && b.sentOn[owed[i].pub] == e)
    && (forall i, j :: 0 <= i < j < |owed| ==> owed[i].pub < owed[j].pub)
    && (forall i :: 0 <= i < |owed| && owed[i].outcome == Some(true) ==> owed[i].pub in b.acked)
  }

  ghost predicate LedgerInv(w: Wire, b: Book, e: nat)
    requires e < |b.ledgers| && e < |w.chans|
  {
    && EntriesInv(b, e, b.ledgers[e].owed)
    && Balanced(b.ledgers[e], PendingOn(b) == Some(e))
    && (b.ledgers[e].closed > 0 ==> !w.chans[e].alive)
    && (!w.chans[e].listening ==> Undecided(b.ledgers[e].owed))
  }

  ghost predicate LedgersInv(w: Wire, b: Book) {
    && |b.ledgers| == |w.chans|
    && forall e :: 0 <= e < |b.ledgers| ==> LedgerInv(w, b, e)
  }

  ghost predicate Undecided(owed: seq<Owed>) {
    forall i :: 0 <= i < |owed| ==> owed[i].outcome.None?
  }

  ghost predicate NumbersInv(b: Book) {
    && (forall pub: nat :: pub in b.sentOn <==> pub < b.next)
    && (forall pub :: pub in b.accepted ==> pub < b.next)
    && b.acked <= b.accepted
  }

  ghost predicate Increasing(s: seq<nat>) {
    forall i, j :: 0 <= i < j < |s| ==> s[i] < s[j]
  }

  /** One push: its publishes are its own, and while it waits its publish is the newest entry. */
  ghost predicate PushInv(b: Book, x: Push) {
    && Increasing(x.pubs) && (forall i :: 0 <= i < |x.pubs| ==> x.pubs[i] < b.next)
    && (Pending(x.stage) ==>
          && x.pubs != [] && x.pubs[|x.pubs| - 1] == x.stage.pub
          && x.stage.e < |b.ledgers| && x.stage.pub in b.sentOn && b.sentOn[x.stage.pub] == x.stage.e
          && NewestIs(b.ledgers[x.stage.e].owed, x.stage.pub))
    && (x.stage.Awaiting? ==> x.stage.source < |b.ledgers|)
    && (x.stage.Won? || x.stage == Returned(true) ==> WonInv(b, x))
  }

  ghost predicate NewestIs(owed: seq<Owed>, pub: nat) {
    owed != [] ==> owed[|owed| - 1].pub == pub
  }

  /** A push that returned nil took the acknowledgement of some publish, and of its own last one
      when the channel had not missed a confirm before. */
  ghost predicate WonInv(b: Book, x: Push) {
    && x.pubs != [] && x.took.Some? && x.took.value in b.acked
    && (x.clean ==> x.took.value == x.pubs[|x.pubs| - 1])
  }

  /** A push with a priority above 9 never gets past the check. */
  ghost predicate ValidInv(x: Push) {
    x.valid || (x.pubs == [] && !Pending(x.stage) && !x.stage.Sending? && !x.stage.Won? && !x.stage.Crashed?
                && x.stage != Returned(true))
  }

  ghost predicate PushOk(b: Book, p: nat)
    requires p in b.pushes
  {
    PushInv(b, b.pushes[p]) && ValidInv(b.pushes[p])
  }

  ghost predicate PushesInv(b: Book) {
    forall p :: p in b.pushes ==> PushOk(b, p)
  }

  ghost predicate BookInv(w: Wire, b: Book) {
    LockInv(b) && LedgersInv(w, b) && NumbersInv(b) && PushesInv(b)
  }

  // ---- Wire steps ------------------------------------------------------------------------------------

  /** A wire step keeps the book: channels only appear, die, or start listening. */
  lemma WireStepKeepsBook(w: Wire, w': Wire, b: Book)
    requires BookInv(w, b) && |w.chans| <= |w'.chans| <= |w.chans| + 1
    requires forall i :: 0 <= i < |w.chans| ==> (w'.chans[i].alive ==> w.chans[i].alive)
    requires forall i :: 0 <= i < |w.chans| ==> (w.chans[i].listening ==> w'.chans[i].listening)
    ensures BookInv(w', Grown(w', b))
  {
    var b' := Grown(w', b);
    GrownPushes(w, w', b);
    assert PendingOn(b') == PendingOn(b);
    forall e | 0 <= e < |b'.ledgers| ensures LedgerInv(w', b', e) {
      if e < |b.ledgers| {
        assert LedgerInv(w, b, e) && b'.ledgers[e] == b.ledgers[e];
      } else {
        NothingPendingBeyond(w, b, e);
      }
    }
  }

  lemma NothingPendingBeyond(w: Wire, b: Book, e: nat)
    requires BookInv(w, b) && e >= |b.ledgers|
    ensures PendingOn(b) != Some(e)
  {
    if b.lock.Some? { assert PushOk(b, b.lock.value); }
  }

  lemma GrownPushes(w: Wire, w': Wire, b: Book)
    requires BookInv(w, b)
    ensures forall p :: p in b.pushes ==> PushOk(Grown(w', b), p)
  {
    forall p | p in b.pushes ensures PushOk(Grown(w', b), p) {
      assert PushOk(b, p);
    }
  }

  // ---- Push steps ----------------------------------------------------------------------------------------

  /** What a push that is not waiting depends on only grows. */
  lemma OtherPush(b: Book, b': Book, x: Push)
    requires PushInv(b, x) && !Pending(x.stage)
    requires b.next <= b'.next && b.acked <= b'.acked
    ensures PushInv(b', x)
  {
  }

  lemma OnlyHolderPends(b: Book, p: nat)
    requires LockInv(b) && p in b.pushes && Holding(b.pushes[p].stage)
    ensures b.lock == Some(p)
    ensures forall q :: q in b.pushes && q != p ==> !Holding(b.pushes[q].stage) && !Pending(b.pushes[q].stage)
  {
  }

  /** What a change of one push's stage leaves alone. */
  ghost predicate OnlyPush(b: Book, b': Book, p: nat) {
    && p in b'.pushes && b'.pushes == b.pushes[p := b'.pushes[p]]
    && b'.ledgers == b.ledgers && b'.next == b.next && b'.sentOn == b.sentOn
    && b'.accepted == b.accepted && b'.acked == b.acked
  }

  lemma StageMovesPushes(b: Book, b': Book, p: nat)
    requires PushesInv(b) && OnlyPush(b, b', p) && PushOk(b', p)
    ensures PushesInv(b')
  {
    forall q | q in b'.pushes ensures PushOk(b', q) {
      if q != p { assert PushOk(b, q); }
    }
  }

  lemma StageMovesLedgers(w: Wire, b: Book, b': Book)
    requires LedgersInv(w, b) && b'.ledgers == b.ledgers && b'.sentOn == b.sentOn && b'.acked == b.acked
    requires PendingOn(b') == PendingOn(b)
    ensures LedgersInv(w, b')
  {
    forall e | 0 <= e < |b'.ledgers| ensures LedgerInv(w, b', e) {
      assert LedgerInv(w, b, e);
    }
  }

  /** A step that moves one push between stages without touching a ledger. */
  lemma StageMoves(w: Wire, b: Book, b': Book, p: nat)
    requires BookInv(w, b) && OnlyPush(b, b', p) && PushOk(b', p)
    requires LockInv(b') && PendingOn(b') == PendingOn(b)
    ensures BookInv(w, b')
  {
    StageMovesPushes(b, b', p);
    StageMovesLedgers(w, b, b');
  }

  predicate QuietAct(act: PushStep) {
    act.Begin? || act.Lock? || act.Check? || act.Select? || act.Unlock? || act.Retry? || act.GiveUp?
  }

  lemma BeginPush(w: Wire, b: Book, p: nat, act: PushStep)
    requires act.Begin? && PushNext(w, b, p, act).Some?
    ensures OnlyPush(b, PushNext(w, b, p, act).value, p) && PushOk(PushNext(w, b, p, act).value, p)
  {
  }

  lemma SelectPush(w: Wire, b: Book, p: nat)
    requires p in b.pushes && PushOk(b, p) && PushNext(w, b, p, Select).Some?
    requires w.confirms.Some? ==> w.confirms.value < |b.ledgers|
    ensures OnlyPush(b, PushNext(w, b, p, Select).value, p) && PushOk(PushNext(w, b, p, Select).value, p)
  {
  }

  lemma LockingPush(w: Wire, b: Book, p: nat, act: PushStep)
    requires p in b.pushes && PushOk(b, p) && PushNext(w, b, p, act).Some?
    requires act.Lock? || act.Check? || act.Unlock?
    ensures OnlyPush(b, PushNext(w, b, p, act).value, p) && PushOk(PushNext(w, b, p, act).value, p)
  {
  }

  lemma RestingPush(w: Wire, b: Book, p: nat, act: PushStep)
    requires p in b.pushes && PushOk(b, p) && PushNext(w, b, p, act).Some?
    requires act.Retry? || act.GiveUp?
    ensures OnlyPush(b, PushNext(w, b, p, act).value, p) && PushOk(PushNext(w, b, p, act).value, p)
  {
  }

  lemma QuietPush(w: Wire, b: Book, p: nat, act: PushStep)
    requires QuietAct(act) && PushNext(w, b, p, act).Some? && (p in b.pushes ==> PushOk(b, p))
    requires w.confirms.Some? ==> w.confirms.value < |b.ledgers|
    ensures OnlyPush(b, PushNext(w, b, p, act).value, p) && PushOk(PushNext(w, b, p, act).value, p)
  {
    if act.Begin? {
      BeginPush(w, b, p, act);
    } else if act.Select? {
      SelectPush(w, b, p);
    } else if act.Retry? || act.GiveUp? {
      RestingPush(w, b, p, act);
    } else {
      LockingPush(w, b, p, act);
    }
  }

  lemma QuietKeeps(program: seq<Op>, w: Wire, b: Book, p: nat, act: PushStep)
    requires WireInv(program, w) && BookInv(w, b) && QuietAct(act) && PushNext(w, b, p, act).Some?
    ensures BookInv(w, PushNext(w, b, p, act).value)
  {
    QuietPush(w, b, p, act);
    QuietLock(w, b, p, act);
    StageMoves(w, b, PushNext(w, b, p, act).value, p);
  }

  lemma QuietLock(w: Wire, b: Book, p: nat, act: PushStep)
    requires LockInv(b) && QuietAct(act) && PushNext(w, b, p, act).Some?
    ensures LockInv(PushNext(w, b, p, act).value)
    ensures PendingOn(PushNext(w, b, p, act).value) == PendingOn(b)
  {
    if p in b.pushes && Holding(b.pushes[p].stage) { OnlyHolderPends(b, p); }
  }

  /** A failed check of the channel: the push panics, or gives the attempt up unpublished. */
  lemma UnsentKeeps(w: Wire, b: Book, p: nat, act: PushStep)
    requires BookInv(w, b) && p in b.pushes && b.pushes[p].stage.Sending?
    ensures BookInv(w, PutStage(b, p, b.pushes[p], Crashed))
    ensures BookInv(w, PutStage(b, p, b.pushes[p], Lost))
  {
    OnlyHolderPends(b, p);
    assert PushOk(b, p);
    StageMoves(w, b, PutStage(b, p, b.pushes[p], Crashed), p);
    StageMoves(w, b, PutStage(b, p, b.pushes[p], Lost), p);
  }

  lemma IncreasingSnoc(s: seq<nat>, n: nat)
    requires Increasing(s) && forall i :: 0 <= i < |s| ==> s[i] < n
    ensures Increasing(s + [n])
  {
  }

  lemma EscapedPushes(b: Book, p: nat, e: nat)
    requires PushesInv(b) && p in b.pushes && b.pushes[p].stage.Sending?
    requires forall q :: q in b.pushes && q != p ==> !Pending(b.pushes[q].stage)
    ensures PushesInv(Escaped(b, p, b.pushes[p], e))
  {
    var b' := Escaped(b, p, b.pushes[p], e);
    assert PushOk(b, p);
    IncreasingSnoc(b.pushes[p].pubs, b.next);
    forall q | q in b'.pushes ensures PushOk(b', q) {
      if q != p {
        assert PushOk(b, q);
        OtherPush(b, b', b.pushes[q]);
      }
    }
  }

  lemma EscapedLedgers(w: Wire, b: Book, b': Book, e: nat)
    requires LedgersInv(w, b) && NumbersInv(b) && PendingOn(b') == PendingOn(b)
    requires b'.ledgers == b.ledgers && b'.sentOn == b.sentOn[b.next := e] && b'.acked == b.acked
    ensures LedgersInv(w, b')
  {
    forall i | 0 <= i < |b'.ledgers| ensures LedgerInv(w, b', i) {
      assert LedgerInv(w, b, i);
    }
  }

  lemma EscapedKeeps(w: Wire, b: Book, p: nat, e: nat)
    requires BookInv(w, b) && p in b.pushes && b.pushes[p].stage.Sending?
    ensures BookInv(w, Escaped(b, p, b.pushes[p], e))
  {
    OnlyHolderPends(b, p);
    EscapedPushes(b, p, e);
    EscapedLedgers(w, b, Escaped(b, p, b.pushes[p], e), e);
  }

  lemma EntriesSnoc(b: Book, b': Book, e: nat, owed: seq<Owed>)
    requires EntriesInv(b, e, owed) && NumbersInv(b)
    requires b'.sentOn == b.sentOn[b.next := e] && b'.acked == b.acked
    ensures EntriesInv(b', e, owed + [Owed(b.next, None)])
  {
  }

  lemma PublishedPushes(b: Book, p: nat, e: nat)
    requires PushesInv(b) && p in b.pushes && b.pushes[p].stage.Sending? && e < |b.ledgers|
    requires forall q :: q in b.pushes && q != p ==> !Pending(b.pushes[q].stage)
    ensures PushesInv(Published(b, p, b.pushes[p], e))
  {
    var b' := Published(b, p, b.pushes[p], e);
    assert PushOk(b, p);
    IncreasingSnoc(b.pushes[p].pubs, b.next);
    forall q | q in b'.pushes ensures PushOk(b', q) {
      if q != p {
        assert PushOk(b, q);
        OtherPush(b, b', b.pushes[q]);
      }
    }
  }

  lemma PublishedLedgers(w: Wire, b: Book, b': Book, e: nat)
    requires LedgersInv(w, b) && NumbersInv(b) && e < |b.ledgers| && w.chans[e].alive
    requires PendingOn(b).None? && PendingOn(b') == Some(e)
    requires b'.ledgers == b.ledgers[e := b.ledgers[e].(owed := b.ledgers[e].owed + [Owed(b.next, None)])]
    requires b'.sentOn == b.sentOn[b.next := e] && b'.acked == b.acked
    ensures LedgersInv(w, b')
  {
    forall i | 0 <= i < |b'.ledgers| ensures LedgerInv(w, b', i) {
      assert LedgerInv(w, b, i);
      if i == e { EntriesSnoc(b, b', e, b.ledgers[e].owed); }
    }
  }

  lemma PublishedKeeps(w: Wire, b: Book, p: nat, e: nat)
    requires BookInv(w, b) && p in b.pushes && b.pushes[p].stage.Sending?
    requires e < |b.ledgers| && w.chans[e].alive
    ensures BookInv(w, Published(b, p, b.pushes[p], e))
  {
    OnlyHolderPends(b, p);
    PublishedPushes(b, p, e);
    PublishedLedgers(w, b, Published(b, p, b.pushes[p], e), e);
  }

  // ---- A wait ends ---------------------------------------------------------------------------------------

  lemma WaitEndsPushes(b: Book, b': Book, p: nat)
    requires PushesInv(b) && p in b'.pushes && PushOk(b', p) && b'.pushes == b.pushes[p := b'.pushes[p]]
    requires b'.next == b.next && b'.acked == b.acked
    requires forall q :: q in b.pushes && q != p ==> !Pending(b.pushes[q].stage)
    ensures PushesInv(b')
  {
    forall q | q in b'.pushes ensures PushOk(b', q) {
      if q != p {
        assert PushOk(b, q);
        OtherPush(b, b', b.pushes[q]);
      }
    }
  }

  lemma WaitEndsLedgers(w: Wire, b: Book, b': Book)
    requires LedgersInv(w, b) && b'.sentOn == b.sentOn && b'.acked == b.acked && |b'.ledgers| == |b.ledgers|
    requires PendingOn(b').None?
    requires forall e :: 0 <= e < |b'.ledgers| ==>
               && LedgerShrinks(b.ledgers[e], b'.ledgers[e])
               && Balanced(b'.ledgers[e], false)
               && (b'.ledgers[e].closed > b.ledgers[e].closed ==> !w.chans[e].alive)
    ensures LedgersInv(w, b')
  {
    forall e | 0 <= e < |b'.ledgers| ensures LedgerInv(w, b', e) {
      assert LedgerInv(w, b, e) && LedgerShrinks(b.ledgers[e], b'.ledgers[e]);
    }
  }

  /** The push stops waiting and the ledgers are balanced without it. */
  lemma WaitEnds(w: Wire, b: Book, b': Book, p: nat)
    requires BookInv(w, b) && p in b.pushes && b.pushes[p].stage.Awaiting?
    requires p in b'.pushes && Holding(b'.pushes[p].stage) && !Pending(b'.pushes[p].stage)
    requires b' == b.(ledgers := b'.ledgers, pushes := b.pushes[p := b'.pushes[p]]) && |b'.ledgers| == |b.ledgers|
    requires PushOk(b', p)
    requires forall e :: 0 <= e < |b'.ledgers| ==>
               && LedgerShrinks(b.ledgers[e], b'.ledgers[e])
               && Balanced(b'.ledgers[e], false)
               && (b'.ledgers[e].closed > b.ledgers[e].closed ==> !w.chans[e].alive)
    ensures BookInv(w, b')
  {
    OnlyHolderPends(b, p);
    WaitEndsPushes(b, b', p);
    WaitEndsLedgers(w, b, b');
  }

  ghost predicate LedgerShrinks(l: Ledger, l': Ledger) {
    l'.owed == l.owed || (l.owed != [] && l'.owed == l.owed[1..])
  }

  lemma LedgersBalance(w: Wire, b: Book)
    requires LedgersInv(w, b)
    ensures forall e :: 0 <= e < |b.ledgers| ==> Balanced(b.ledgers[e], PendingOn(b) == Some(e))
  {
    forall e | 0 <= e < |b.ledgers| ensures Balanced(b.ledgers[e], PendingOn(b) == Some(e)) {
      assert LedgerInv(w, b, e);
    }
  }

  lemma AbandonKeeps(w: Wire, b: Book, p: nat)
    requires BookInv(w, b) && p in b.pushes && b.pushes[p].stage.Awaiting?
    ensures PushNext(w, b, p, Abandon).Some? && BookInv(w, PushNext(w, b, p, Abandon).value)
  {
    OnlyHolderPends(b, p);
    assert PushOk(b, p);
    LedgersBalance(w, b);
    WaitEnds(w, b, PushNext(w, b, p, Abandon).value, p);
  }

  lemma TakeClosedKeeps(w: Wire, b: Book, p: nat)
    requires BookInv(w, b) && p in b.pushes && b.pushes[p].stage.Awaiting?
    requires PushNext(w, b, p, TakeClosed).Some?
    ensures BookInv(w, PushNext(w, b, p, TakeClosed).value)
  {
    OnlyHolderPends(b, p);
    assert PushOk(b, p);
    LedgersBalance(w, b);
    WaitEnds(w, b, PushNext(w, b, p, TakeClosed).value, p);
  }

  /** The confirm at the head of a channel belongs to the waiting push exactly when the push
      published on that channel and nothing else was owed there. */
  lemma HeadIsOwnIff(w: Wire, b: Book, p: nat)
    requires BookInv(w, b) && p in b.pushes && b.pushes[p].stage.Awaiting?
    requires b.pushes[p].stage.source < |b.ledgers| && b.ledgers[b.pushes[p].stage.source].owed != []
    ensures var f := b.pushes[p].stage.source;
            b.ledgers[f].owed[0].pub == b.pushes[p].stage.pub
            <==> b.pushes[p].stage.e == f && |b.ledgers[f].owed| == 1
  {
    var x := b.pushes[p];
    var f := x.stage.source;
    assert PushOk(b, p) && LedgerInv(w, b, f);
    if x.stage.e == f {
      assert NewestIs(b.ledgers[f].owed, x.stage.pub);
    }
  }

  /** On a channel that never missed a confirm, the head is the waiting push's own. */
  lemma CleanHeadIsOwn(w: Wire, b: Book, p: nat)
    requires BookInv(w, b) && p in b.pushes && b.pushes[p].stage.Awaiting?
    requires b.pushes[p].stage.source < |b.ledgers| && b.ledgers[b.pushes[p].stage.source].owed != []
    requires Missed(b.ledgers[b.pushes[p].stage.source]) == 0
    ensures b.ledgers[b.pushes[p].stage.source].owed[0].pub == b.pushes[p].stage.pub
  {
    OnlyHolderPends(b, p);
    assert LedgerInv(w, b, b.pushes[p].stage.source);
    HeadIsOwnIff(w, b, p);
  }

  lemma TookPushInv(w: Wire, b: Book, p: nat)
    requires BookInv(w, b) && p in b.pushes && PushNext(w, b, p, TakeConfirm).Some?
    ensures var b' := PushNext(w, b, p, TakeConfirm).value;
            p in b'.pushes && PushOk(b', p)
  {
    var x := b.pushes[p];
    var (e, f) := (x.stage.e, x.stage.source);
    assert PushOk(b, p) && LedgerInv(w, b, f);
    if Missed(b.ledgers[f]) == 0 { CleanHeadIsOwn(w, b, p); }
  }

  lemma TakeConfirmKeeps(w: Wire, b: Book, p: nat)
    requires BookInv(w, b) && p in b.pushes && PushNext(w, b, p, TakeConfirm).Some?
    ensures BookInv(w, PushNext(w, b, p, TakeConfirm).value)
  {
    var b' := PushNext(w, b, p, TakeConfirm).value;
    var (e, f) := (b.pushes[p].stage.e, b.pushes[p].stage.source);
    OnlyHolderPends(b, p);
    TookPushInv(w, b, p);
    TookBalance(w, b, p);
    WaitEnds(w, b, b', p);
  }

  lemma TookBalance(w: Wire, b: Book, p: nat)
    requires BookInv(w, b) && p in b.pushes && PushNext(w, b, p, TakeConfirm).Some?
    ensures var b' := PushNext(w, b, p, TakeConfirm).value;
            && |b'.ledgers| == |b.ledgers|
            && forall e :: 0 <= e < |b'.ledgers| ==>
                 && LedgerShrinks(b.ledgers[e], b'.ledgers[e])
                 && Balanced(b'.ledgers[e], false)
                 && b'.ledgers[e].closed == b.ledgers[e].closed
  {
    OnlyHolderPends(b, p);
    var b' := PushNext(w, b, p, TakeConfirm).value;
    forall e | 0 <= e < |b'.ledgers|
      ensures LedgerShrinks(b.ledgers[e], b'.ledgers[e]) && Balanced(b'.ledgers[e], false)
      ensures b'.ledgers[e].closed == b.ledgers[e].closed
    {
      assert LedgerInv(w, b, e);
    }
  }

  // ---- The broker's steps ----------------------------------------------------------------------------------

  lemma AcceptKeeps(w: Wire, b: Book, pub: nat)
    requires BookInv(w, b) && pub < b.next
    ensures BookInv(w, b.(accepted := b.accepted + {pub}))
  {
    var b' := b.(accepted := b.accepted + {pub});
    forall q | q in b'.pushes ensures PushOk(b', q) {
      assert PushOk(b, q);
    }
    forall e | 0 <= e < |b'.ledgers| ensures LedgerInv(w, b', e) {
      assert LedgerInv(w, b, e);
    }
  }

  /** Deciding an entry changes neither its place nor its publish. */
  lemma DecidedEntries(b: Book, b': Book, e: nat, owed: seq<Owed>, i: nat, ack: bool)
    requires EntriesInv(b, e, owed) && i < |owed| && b'.sentOn == b.sentOn && b.acked <= b'.acked
    requires ack ==> owed[i].pub in b'.acked
    ensures EntriesInv(b', e, owed[i := Owed(owed[i].pub, Some(ack))])
    ensures forall pub :: NewestIs(owed, pub) ==> NewestIs(owed[i := Owed(owed[i].pub, Some(ack))], pub)
  {
  }

  lemma UnheardEntries(b: Book, b': Book, e: nat, owed: seq<Owed>)
    requires EntriesInv(b, e, owed) && owed != [] && b'.sentOn == b.sentOn && b.acked <= b'.acked
    ensures EntriesInv(b', e, owed[1..])
    ensures forall pub :: NewestIs(owed, pub) ==> NewestIs(owed[1..], pub)
  {
  }

  ghost predicate ConfirmedWell(w: Wire, b: Book, b': Book, e: nat)
    requires e < |b.ledgers| && e < |w.chans|
  {
    && b' == b.(ledgers := b'.ledgers, acked := b'.acked)
    && |b'.ledgers| == |b.ledgers| && b'.ledgers == b.ledgers[e := b'.ledgers[e]]
    && b.acked <= b'.acked <= b.accepted
    && EntriesInv(b', e, b'.ledgers[e].owed)
    && (forall pub :: NewestIs(b.ledgers[e].owed, pub) ==> NewestIs(b'.ledgers[e].owed, pub))
    && b'.ledgers[e].closed == b.ledgers[e].closed
    && (!w.chans[e].listening ==> Undecided(b'.ledgers[e].owed))
    && |b'.ledgers[e].owed| + b'.ledgers[e].unheard == |b.ledgers[e].owed| + b.ledgers[e].unheard
    && Missed(b'.ledgers[e]) == Missed(b.ledgers[e]) && b'.ledgers[e].foreign == b.ledgers[e].foreign
  }

  lemma HeardLedger(w: Wire, b: Book, e: nat, ack: bool)
    requires BookInv(w, b) && ConfirmNext(w, b, e, ack).Some? && w.chans[e].listening
    ensures ConfirmedWell(w, b, ConfirmNext(w, b, e, ack).value, e)
  {
    assert LedgerInv(w, b, e);
    var owed := b.ledgers[e].owed;
    DecidedEntries(b, ConfirmNext(w, b, e, ack).value, e, owed, FirstUndecided(owed), ack);
  }

  lemma UnheardLedger(w: Wire, b: Book, e: nat, ack: bool)
    requires BookInv(w, b) && ConfirmNext(w, b, e, ack).Some? && !w.chans[e].listening
    ensures ConfirmedWell(w, b, ConfirmNext(w, b, e, ack).value, e)
  {
    assert LedgerInv(w, b, e);
    var owed := b.ledgers[e].owed;
    var b' := ConfirmNext(w, b, e, ack).value;
    UnheardEntries(b, b', e, owed);
  }

  lemma ConfirmedPushes(w: Wire, b: Book, b': Book, e: nat)
    requires PushesInv(b) && e < |b.ledgers| && e < |w.chans| && ConfirmedWell(w, b, b', e)
    ensures PushesInv(b')
  {
    forall q | q in b'.pushes ensures PushOk(b', q) {
      assert PushOk(b, q);
    }
  }

  lemma ConfirmedLedgers(w: Wire, b: Book, b': Book, e: nat)
    requires LedgersInv(w, b) && e < |b.ledgers| && ConfirmedWell(w, b, b', e)
    ensures LedgersInv(w, b')
  {
    forall f | 0 <= f < |b'.ledgers| ensures LedgerInv(w, b', f) {
      assert LedgerInv(w, b, f);
    }
  }

  lemma ConfirmKeeps(w: Wire, b: Book, e: nat, ack: bool)
    requires BookInv(w, b) && ConfirmNext(w, b, e, ack).Some?
    ensures BookInv(w, ConfirmNext(w, b, e, ack).value)
  {
    var b' := ConfirmNext(w, b, e, ack).value;
    if w.chans[e].listening { HeardLedger(w, b, e, ack); } else { UnheardLedger(w, b, e, ack); }
    ConfirmedPushes(w, b, b', e);
    ConfirmedLedgers(w, b, b', e);
  }
}
