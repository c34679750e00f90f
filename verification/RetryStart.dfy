/** That the runs spoken of in RetryRuns start somewhere: from a new system to a copy in its
    queue with an idle worker beside it, and what a panicking handler makes of it. */
module RetryStart {
  import opened Basics
  import opened Calendar
  import opened Configuration
  import opened Tables
  import opened Topology
  import opened RetryProtocol
  import opened RetryInvariant
  import opened RetryRuns
  import opened RetryTheorems
  import opened Settlement
  import opened Stamp

  /** Nothing has happened but declarations. */
  ghost predicate Unused(w: World, s: State, clock: int) {
    Inv(w, s) && s.copies == map[] && s.workers == map[] && s.clock == clock
  }

  function Declared(s: State, k: nat): nat {
    if k in s.setup.progress then s.setup.progress[k] else 0
  }

  function ProgramOf(w: World, k: nat): seq<Op> {
    if Home(w, k) in w.queues then Program(Home(w, k), w.queues[Home(w, k)].retry) else []
  }

  lemma DeclareOne(w: World, s: State, k: nat) returns (t: State)
    requires ValidWorld(w) && k in w.clients && Unused(w, s, s.clock) && Declared(s, k) < |ProgramOf(w, k)|
    ensures Enabled(w, s, Declare(Advance(k))) && t == Next(w, s, Declare(Advance(k)))
    ensures Unused(w, t, s.clock) && Declared(t, k) == Declared(s, k) + 1
  {
    SetupStepKeeps(w.queues, w.clients, s.setup, Advance(k));
    DeclareKeeps(w, s, Advance(k));
    t := Next(w, s, Declare(Advance(k)));
  }

  lemma {:induction false} DeclareRest(w: World, s: State, k: nat) returns (steps: seq<Step>, t: State)
    requires ValidWorld(w) && k in w.clients && Unused(w, s, s.clock) && Declared(s, k) <= |ProgramOf(w, k)|
    ensures Runs(w, s, steps, t) && Unused(w, t, s.clock) && Declared(t, k) == |ProgramOf(w, k)|
    decreases |ProgramOf(w, k)| - Declared(s, k)
  {
    if Declared(s, k) == |ProgramOf(w, k)| {
      steps, t := [], s;
    } else {
      var s' := DeclareOne(w, s, k);
      var rest;
      rest, t := DeclareRest(w, s', k);
      steps := [Declare(Advance(k))] + rest;
      RunsCons(w, s, Declare(Advance(k)), rest, t);
    }
  }

  lemma AcceptPositions(w: World, s: State, k: nat, body: string, headers: Table) returns (t: State)
    requires ValidWorld(w) && Inv(w, s) && s.copies == map[] && IsRetry(w.queues, Home(w, k)) && Up(w, s, k)
    requires s.workers == map[k := Worker(1, true, None, Idle)]
    ensures Enabled(w, s, Accept(0, k, body, headers)) && t == Next(w, s, Accept(0, k, body, headers))
    ensures Positioned(w, t, 0, k) && t.clock == s.clock
    ensures t.copies[0] == NewCopy(s.setup.broker, s.clock, Home(w, k), body, headers)
  {
    t := AcceptNext(w, s, k, body, headers);
    AcceptedReady(w, s, k, body, headers);
    IdleBeside(w, t, 0, k);
    AcceptKeeps(w, s, 0, k, body, headers);
  }

  lemma AcceptedReady(w: World, s: State, k: nat, body: string, headers: Table)
    requires Inv(w, s) && Up(w, s, k)
    ensures var c := NewCopy(s.setup.broker, s.clock, Home(w, k), body, headers);
            c.places == multiset{Place(Home(w, k), Ready)} && c.home == Home(w, k)
  {
    Accepted(w, s, k, body, headers);
  }

  lemma AcceptNext(w: World, s: State, k: nat, body: string, headers: Table) returns (t: State)
    requires s.copies == map[] && Up(w, s, k)
    ensures Enabled(w, s, Accept(0, k, body, headers)) && t == Next(w, s, Accept(0, k, body, headers))
    ensures t.copies == map[0 := NewCopy(s.setup.broker, s.clock, Home(w, k), body, headers)]
    ensures t.workers == s.workers && t.clock == s.clock
  {
    t := Next(w, s, Accept(0, k, body, headers));
  }

  lemma Accepted(w: World, s: State, k: nat, body: string, headers: Table)
    requires SetupInv(w.queues, w.clients, s.setup) && Up(w, s, k)
    ensures NewCopy(s.setup.broker, s.clock, Home(w, k), body, headers).places == multiset{Place(Home(w, k), Ready)}
  {
    var home := Home(w, k);
    assert ProgramOf(w, k)[..s.setup.progress[k]] == ProgramOf(w, k);
    HeldItems(s.setup.broker, w.queues, home);
    ArrivalsAt(s.setup.broker, s.clock, {home}, home);
  }

  lemma IdleBeside(w: World, s: State, id: nat, k: nat)
    requires s.copies.Keys == {id} && s.copies[id].places == multiset{Place(Home(w, k), Ready)}
    requires s.copies[id].home == Home(w, k) && IsRetry(w.queues, Home(w, k))
    requires k in s.workers && s.workers[k] == Worker(s.workers[k].channel, true, None, Idle)
    ensures Shape(w, s, s, id, k, Place(Home(w, k), Ready), None, Idle) && Unoccupied(s, k)
  {
    OutToGone(s.copies[id]);
    assert s.copies == s.copies[id := s.copies[id]];
  }

  lemma Subscribed(w: World, s: State, k: nat) returns (t: State)
    requires Inv(w, s) && s.copies == map[] && s.workers == map[k := Worker(0, false, None, Idle)] && Up(w, s, k)
    ensures Enabled(w, s, Subscribe(k)) && t == Next(w, s, Subscribe(k)) && Inv(w, t)
    ensures t.setup == s.setup && t.clock == s.clock
    ensures t.copies == map[] && t.workers == map[k := Worker(1, true, None, Idle)]
  {
    WorkerStepKeeps(w, s, Subscribe(k));
    t := Next(w, s, Subscribe(k));
  }

  lemma WorkerUp(w: World, s: State, k: nat) returns (steps: seq<Step>, t: State)
    requires ValidWorld(w) && k in w.clients && Unused(w, s, s.clock) && Up(w, s, k)
    ensures Runs(w, s, steps, t) && Inv(w, t) && t.setup == s.setup && t.clock == s.clock
    ensures t.copies == map[] && t.workers == map[k := Worker(1, true, None, Idle)]
  {
    WorkerStepKeeps(w, s, StartWorker(k));
    var s1 := Next(w, s, StartWorker(k));
    t := Subscribed(w, s1, k);
    steps := [StartWorker(k)] + ([Subscribe(k)] + []);
    RunsCons(w, s1, Subscribe(k), [], t);
    RunsCons(w, s, StartWorker(k), [Subscribe(k)] + [], t);
  }

  /** From a new system, a run to any message with any headers in any retry queue, ready, with an
      idle subscribed worker. */
  lemma GetsPositioned(w: World, start: int, k: nat, body: string, headers: Table)
    returns (steps: seq<Step>, t: State)
    requires ValidWorld(w) && k in w.clients && IsRetry(w.queues, Home(w, k))
    ensures Runs(w, Initial(w, start), steps, t) && Positioned(w, t, 0, k) && t.clock == start
    ensures t.copies[0].headers == headers && t.copies[0].body == body && t.copies[0].acceptedAt == start
    ensures t.copies[0].deliveries == 0 && t.copies[0].rejected == 0 && t.copies[0].panicked == 0
  {
    var s0 := Initial(w, start);
    InitialInv(w, start);
    var declares, s1 := DeclareRest(w, s0, k);
    var ups, s2 := WorkerUp(w, s1, k);
    t := AcceptPositions(w, s2, k, body, headers);
    var last := [Accept(0, k, body, headers)] + [];
    RunsCons(w, s2, Accept(0, k, body, headers), [], t);
    RunsAppend(w, s1, ups, s2, last, t);
    RunsAppend(w, s0, declares, s1, ups + last, t);
    steps := declares + (ups + last);
  }

  /** For every number there is a run from a new system in which one message, whatever deadline
      its headers carry, has been handled that many times: the handler panicked every time. */
  lemma PanicsFromTheStart(w: World, start: int, k: nat, body: string, headers: Table, n: nat)
    returns (steps: seq<Step>, t: State)
    requires ValidWorld(w) && k in w.clients && IsRetry(w.queues, Home(w, k))
    ensures Runs(w, Initial(w, start), steps, t) && 0 in t.copies
    ensures t.copies[0].deliveries == n == t.copies[0].panicked && t.copies[0].rejected == 0
    ensures t.copies[0].headers == headers && t.copies[0].body == body
  {
    var first, s := GetsPositioned(w, start, k, body, headers);
    var second;
    second, t := PanicsAreUnbounded(w, s, 0, k, n);
    steps := first + second;
    RunsAppend(w, Initial(w, start), first, s, second, t);
    SameMessage(w, s, second, t, 0);
  }

  lemma SameMessage(w: World, s: State, steps: seq<Step>, t: State, id: nat)
    requires Runs(w, s, steps, t) && id in s.copies
    ensures id in t.copies && t.copies[id].headers == s.copies[id].headers && t.copies[id].body == s.copies[id].body
  {
    RunKeepsIdentity(w, s, steps, t);
  }

  // ---- Exactly how many rejections ---------------------------------------------------------------------------

  /** Some run from a new system at the given time has a copy of the message in the queue that was
      rejected n times. */
  ghost predicate CanBeRejected(w: World, start: int, home: string, headers: Table, n: nat) {
    exists steps, s, id: nat :: RejectedIn(w, start, home, headers, n, steps, s, id)
  }

  ghost predicate RejectedIn(w: World, start: int, home: string, headers: Table, n: nat,
                             steps: seq<Step>, s: State, id: nat) {
    && Runs(w, Initial(w, start), steps, s) && id in s.copies
    && s.copies[id].home == home && s.copies[id].headers == headers
    && s.copies[id].acceptedAt >= start && s.copies[id].rejected == n
  }

  lemma RejectsWhileLive(w: World, home: string, headers: Table, limit: int)
    requires LiveTo(headers, limit) && IsRetry(w.queues, home)
    ensures RejectsUntil(w, home, headers, limit)
  {
    forall c: Copy, now: int | c.home == home && c.headers == headers && now <= limit
      ensures DecisionFor(w, c, TRY_AGAIN, now).verdict == Reject
    {
      assert !Expired(headers, now);
    }
  }

  lemma {:induction false} TimesFrom(n: nat, start: int, ttl: int, limit: int) returns (times: seq<int>)
    requires ttl > 0 && (n > 0 ==> start <= limit && start + (n - 1) * ttl <= limit)
    ensures |times| == n && Steady(times, ttl, limit) && (n > 0 ==> times[0] == start)
  {
    if n == 0 {
      times := [];
    } else {
      if n > 1 {
        OneLess(n - 1, ttl);
        assert (n - 2) * ttl >= 0;
      }
      var rest := TimesFrom(n - 1, start + ttl, ttl, limit);
      times := [start] + rest;
    }
  }

  lemma Spread(n: nat, d: int, ttl: int)
    requires ttl > 0 && 0 < n <= MaxRejections(d, ttl)
    ensures 0 <= (n - 1) * ttl <= d
  {
    assert (d / ttl - (n - 1)) * ttl >= 0;
    assert (n - 1) * ttl >= 0;
  }

  /** The run to a copy that waits for the first of its rejections. */
  lemma FirstRejectionDue(w: World, start: int, k: nat, headers: Table, times: seq<int>)
    returns (steps: seq<Step>, s: State)
    requires ValidWorld(w) && k in w.clients && IsRetry(w.queues, Home(w, k)) && (times != [] ==> times[0] == start)
    ensures Runs(w, Initial(w, start), steps, s) && Waiting(w, s, 0, k, headers, times, 0)
    ensures s.copies[0].acceptedAt == start && s.copies[0].rejected == 0 && s.copies[0].home == Home(w, k)
  {
    steps, s := GetsPositioned(w, start, k, "", headers);
  }

  lemma RejectionsReached(w: World, start: int, k: nat, headers: Table, limit: int, times: seq<int>)
    requires ValidWorld(w) && k in w.clients && IsRetry(w.queues, Home(w, k))
    requires RejectsUntil(w, Home(w, k), headers, limit)
    requires Steady(times, TtlOf(w, Home(w, k)), limit) && (times != [] ==> times[0] == start)
    ensures CanBeRejected(w, start, Home(w, k), headers, |times|)
  {
    var first, s := FirstRejectionDue(w, start, k, headers, times);
    var second, t := RejectionsAtTimes(w, s, 0, k, headers, limit, times, 0);
    RejectionsRun(w, start, headers, first, s, second, t, |times|);
  }

  lemma RejectionsRun(w: World, start: int, headers: Table, first: seq<Step>, s: State,
                      second: seq<Step>, t: State, n: nat)
    requires Runs(w, Initial(w, start), first, s) && Runs(w, s, second, t) && 0 in s.copies && 0 in t.copies
    requires s.copies[0].headers == headers && s.copies[0].acceptedAt == start && s.copies[0].rejected == 0
    requires t.copies[0].rejected == n
    ensures CanBeRejected(w, start, s.copies[0].home, headers, n)
  {
    RunsAppend(w, Initial(w, start), first, s, second, t);
    RunKeepsIdentity(w, s, second, t);
    assert RejectedIn(w, start, s.copies[0].home, headers, n, first + second, t, 0);
  }

  lemma ReachedWithin(w: World, start: int, k: nat, headers: Table, limit: int, n: nat)
    requires ValidWorld(w) && k in w.clients && IsRetry(w.queues, Home(w, k)) && LiveTo(headers, limit)
    requires TtlOf(w, Home(w, k)) > 0 && n <= MaxRejections(limit - start, TtlOf(w, Home(w, k)))
    ensures CanBeRejected(w, start, Home(w, k), headers, n)
  {
    RejectsWhileLive(w, Home(w, k), headers, limit);
    var times := TimesWithin(n, start, TtlOf(w, Home(w, k)), limit);
    RejectionsReached(w, start, k, headers, limit, times);
  }

  lemma TimesWithin(n: nat, start: int, ttl: int, limit: int) returns (times: seq<int>)
    requires ttl > 0 && n <= MaxRejections(limit - start, ttl)
    ensures |times| == n && Steady(times, ttl, limit) && (n > 0 ==> times[0] == start)
  {
    if n > 0 { Spread(n, limit - start, ttl); }
    times := TimesFrom(n, start, ttl, limit);
  }

  lemma NoneReached(w: World, start: int, k: nat, headers: Table)
    requires ValidWorld(w) && k in w.clients && IsRetry(w.queues, Home(w, k))
    ensures CanBeRejected(w, start, Home(w, k), headers, 0)
  {
    var steps, s := GetsPositioned(w, start, k, "", headers);
    assert RejectedIn(w, start, Home(w, k), headers, 0, steps, s, 0);
  }

  lemma RejectedUpTo(w: World, start: int, k: nat, headers: Table, limit: int, n: nat)
    requires ValidWorld(w) && k in w.clients && IsRetry(w.queues, Home(w, k)) && TtlOf(w, Home(w, k)) > 0
    requires ExpiresBy(headers, limit) && CanBeRejected(w, start, Home(w, k), headers, n)
    ensures n <= MaxRejections(limit - start, TtlOf(w, Home(w, k)))
  {
    var steps, s, id: nat :| RejectedIn(w, start, Home(w, k), headers, n, steps, s, id);
    BoundedOnceExpiring(w, start, steps, s, id, start, limit - start);
  }

  lemma ExactlyWhileLive(w: World, start: int, k: nat, headers: Table, limit: int, n: nat)
    requires ValidWorld(w) && k in w.clients && IsRetry(w.queues, Home(w, k)) && LiveTo(headers, limit)
    requires TtlOf(w, Home(w, k)) > 0
    ensures CanBeRejected(w, start, Home(w, k), headers, n)
            <==> n <= MaxRejections(limit - start, TtlOf(w, Home(w, k)))
  {
    if CanBeRejected(w, start, Home(w, k), headers, n) {
      LiveToExpiresBy(headers, limit);
      RejectedUpTo(w, start, k, headers, limit, n);
    }
    if n <= MaxRejections(limit - start, TtlOf(w, Home(w, k))) {
      ReachedWithin(w, start, k, headers, limit, n);
    }
  }

  lemma NeverWhenExpired(w: World, start: int, k: nat, headers: Table, n: nat)
    requires ValidWorld(w) && k in w.clients && IsRetry(w.queues, Home(w, k)) && ExpiresBy(headers, start - 1)
    requires TtlOf(w, Home(w, k)) > 0
    ensures CanBeRejected(w, start, Home(w, k), headers, n) <==> n == 0
  {
    if CanBeRejected(w, start, Home(w, k), headers, n) {
      RejectedUpTo(w, start, k, headers, start - 1, n);
    }
    NoneReached(w, start, k, headers);
  }

  /** How often one message can be rejected: from a new system, a message stamped with a deadline
      is rejected n times in some run exactly when n is within the bound that the whole second of
      the deadline leaves. */
  lemma RejectedExactly(w: World, start: int, k: nat, headers: Table, deadline: int, limit: int, n: nat)
    requires ValidWorld(w) && k in w.clients && IsRetry(w.queues, Home(w, k))
    requires Stamped(headers, deadline) && WritableYear(deadline) && limit == WholeSecond(deadline)
    ensures TtlOf(w, Home(w, k)) > 0
    ensures CanBeRejected(w, start, Home(w, k), headers, n)
            <==> n <= MaxRejections(limit - start, TtlOf(w, Home(w, k)))
  {
    TtlOfValidQueue(w.queues, true, Home(w, k));
    assert LiveTo(headers, limit) by { StampedLiveTo(headers, deadline); }
    ExactlyWhileLive(w, start, k, headers, limit, n);
  }

  /** A message whose deadline lies in a year that cannot be written is never rejected. */
  lemma NeverRejectedUnwritable(w: World, start: int, k: nat, headers: Table, deadline: int, n: nat)
    requires ValidWorld(w) && k in w.clients && IsRetry(w.queues, Home(w, k))
    requires Stamped(headers, deadline) && !WritableYear(deadline)
    ensures CanBeRejected(w, start, Home(w, k), headers, n) <==> n == 0
  {
    TtlOfValidQueue(w.queues, true, Home(w, k));
    assert ExpiresBy(headers, start - 1) by { UnwritableExpires(headers, deadline, start - 1); }
    NeverWhenExpired(w, start, k, headers, n);
  }
}
