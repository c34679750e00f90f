/** Registering consumers and starting them, by any number of callers at once (queue.go,
    AddConsumerN, InitConsumer). Every step is one critical section, one atomic operation, or the
    making, closing or starting of one client. Clients are numbered in the order they are made. */
module Registration {
  import opened Basics

  /** A call to AddConsumerN that passed its first checks, or did not. A registered call's clients
      begin at a place of their queue's list. */
  datatype Add =
    | Making(name: string, parallelism: int, made: seq<nat>)
    | Registered(name: string, parallelism: int, made: seq<nat>, at: nat)
    | Closing(made: seq<nat>, count: nat)
    | TurnedAway

  /** A call to InitConsumer: past its guard, with its snapshot, starting what is left of it, or
      over with an error. */
  datatype Init = Guarded | Snapped(clients: set<nat>) | Starting(clients: set<nat>, left: set<nat>) | Refused

  datatype State = State(
    started: bool, consumers: map<string, seq<nat>>, adds: seq<Add>, inits: seq<Init>,
    owner: seq<nat>, closed: set<nat>, workers: multiset<nat>)

  const INITIAL: State := State(false, map[], [], [], [], {}, multiset{})

  datatype Step =
    | BeginAdd(name: string, parallelism: int)
    | MakeOne(add: nat)
    | Commit(add: nat)
    | CloseOne(add: nat)
    | BeginInit(live: bool)
    | Snapshot(init: nat)
    | Swap(init: nat)
    | StartOne(init: nat, client: nat)

  function ListOf(consumers: map<string, seq<nat>>, name: string): seq<nat> {
    if name in consumers then consumers[name] else []
  }

  function Registry(consumers: map<string, seq<nat>>): set<nat> {
    set name, c | name in consumers && c in consumers[name] :: c
  }

  function Wanted(parallelism: int): nat {
    if parallelism <= 0 then 1 else parallelism
  }

  function AddNext(queues: set<string>, s: State, name: string, parallelism: int): State {
    var add := if s.started || name !in queues then TurnedAway
               else Making(name, parallelism, []);
    s.(adds := s.adds + [add])
  }

  function Made(s: State, k: nat): State
    requires k < |s.adds| && s.adds[k].Making?
  {
    var a := s.adds[k];
    s.(adds := s.adds[k := Making(a.name, a.parallelism, a.made + [|s.owner|])], owner := s.owner + [k])
  }

  /** The critical section at the end of AddConsumerN. */
  function Committed(s: State, k: nat): State
    requires k < |s.adds| && s.adds[k].Making?
  {
    var a := s.adds[k];
    if s.started then s.(adds := s.adds[k := Closing(a.made, 0)])
    else
      var l := ListOf(s.consumers, a.name);
      s.(adds := s.adds[k := Registered(a.name, a.parallelism, a.made, |l|)],
         consumers := s.consumers[a.name := l + a.made])
  }

  function ClosedOne(s: State, k: nat): State
    requires k < |s.adds| && s.adds[k].Closing? && s.adds[k].count < |s.adds[k].made|
  {
    var a := s.adds[k];
    s.(adds := s.adds[k := Closing(a.made, a.count + 1)], closed := s.closed + {a.made[a.count]})
  }

  function Take(queues: set<string>, s: State, step: Step): Option<State> {
    match step
    case BeginAdd(name, parallelism) => Some(AddNext(queues, s, name, parallelism))
    case MakeOne(k) =>
      if k < |s.adds| && s.adds[k].Making? && |s.adds[k].made| < Wanted(s.adds[k].parallelism)
      then Some(Made(s, k)) else None
    case Commit(k) =>
      if k < |s.adds| && s.adds[k].Making? && |s.adds[k].made| == Wanted(s.adds[k].parallelism)
      then Some(Committed(s, k)) else None
    case CloseOne(k) =>
      if k < |s.adds| && s.adds[k].Closing? && s.adds[k].count < |s.adds[k].made|
      then Some(ClosedOne(s, k)) else None
    case BeginInit(live) => Some(s.(inits := s.inits + [if s.started || !live then Refused else Guarded]))
    case Snapshot(i) =>
      if i < |s.inits| && s.inits[i].Guarded? then
        var all := Registry(s.consumers);
        Some(s.(inits := s.inits[i := if all == {} then Refused else Snapped(all)]))
      else None
    case Swap(i) =>
      if i < |s.inits| && s.inits[i].Snapped? then
        if s.started then Some(s.(inits := s.inits[i := Refused]))
        else Some(s.(started := true, inits := s.inits[i := Starting(s.inits[i].clients, s.inits[i].clients)]))
      else None
    case StartOne(i, c) =>
      if i < |s.inits| && s.inits[i].Starting? && c in s.inits[i].left then
        Some(s.(inits := s.inits[i := Starting(s.inits[i].clients, s.inits[i].left - {c})],
                workers := s.workers + multiset{c}))
      else None
  }

  function Run(queues: set<string>, s: State, steps: seq<Step>): Option<State>
    decreases |steps|
  {
    if steps == [] then Some(s)
    else match Take(queues, s, steps[0])
      case None => None
      case Some(s') => Run(queues, s', steps[1..])
  }

  // ---- The invariant -----------------------------------------------------------------------------------------

  /** The clients of one call: made by it, and no two the same. */
  ghost predicate Owns(owner: seq<nat>, k: nat, made: seq<nat>) {
    && (forall i :: 0 <= i < |made| ==> made[i] < |owner| && owner[made[i]] == k)
    && (forall i, j :: 0 <= i < j < |made| ==> made[i] != made[j])
  }

  ghost predicate NoneIn(made: seq<nat>, closed: set<nat>) {
    forall i :: 0 <= i < |made| ==> made[i] !in closed
  }

  ghost predicate AddInv(s: State, k: nat)
    requires k < |s.adds|
  {
    match s.adds[k]
    case Making(name, parallelism, made) =>
      |made| <= Wanted(parallelism) && Owns(s.owner, k, made) && NoneIn(made, s.closed)
    case Registered(name, parallelism, made, at) =>
      && |made| == Wanted(parallelism) && Owns(s.owner, k, made) && NoneIn(made, s.closed)
      && name in s.consumers && at + |made| <= |s.consumers[name]|
      && s.consumers[name][at..at + |made|] == made
    case Closing(made, count) =>
      && count <= |made| && Owns(s.owner, k, made)
      && (forall i :: 0 <= i < |made| ==> (made[i] in s.closed <==> i < count))
    case TurnedAway => true
  }

  ghost predicate IsRegistered(s: State, name: string, c: nat) {
    && c < |s.owner| && s.owner[c] < |s.adds|
    && s.adds[s.owner[c]].Registered? && s.adds[s.owner[c]].name == name
  }

  ghost predicate RegistryInv(s: State) {
    && (forall name, i :: name in s.consumers && 0 <= i < |s.consumers[name]| ==>
          IsRegistered(s, name, s.consumers[name][i]))
    && (forall name, i, j :: name in s.consumers && 0 <= i < j < |s.consumers[name]| ==>
          s.consumers[name][i] != s.consumers[name][j])
  }

  ghost predicate AddsInv(s: State) {
    && (forall k :: 0 <= k < |s.adds| ==> AddInv(s, k))
    && (forall c :: 0 <= c < |s.owner| ==> s.owner[c] < |s.adds|)
    && (forall c :: c in s.closed ==> c < |s.owner| && s.owner[c] < |s.adds| && s.adds[s.owner[c]].Closing?)
  }

  ghost predicate InitInv(s: State, i: nat)
    requires i < |s.inits|
  {
    match s.inits[i]
    case Snapped(clients) => clients <= Registry(s.consumers)
    case Starting(clients, left) =>
      && s.started && clients <= Registry(s.consumers) && left <= clients
      && forall c :: s.workers[c] == if c in clients && c !in left then 1 else 0
    case _ => true
  }

  ghost predicate InitsInv(s: State) {
    && (forall i :: 0 <= i < |s.inits| ==> InitInv(s, i))
    && (forall i, j :: 0 <= i < j < |s.inits| ==> !(s.inits[i].Starting? && s.inits[j].Starting?))
    && (!s.started ==> s.workers == multiset{} && forall i :: 0 <= i < |s.inits| ==> !s.inits[i].Starting?)
    && (s.started ==> exists i :: 0 <= i < |s.inits| && s.inits[i].Starting?)
  }

  ghost predicate Inv(s: State) {
    AddsInv(s) && RegistryInv(s) && InitsInv(s)
  }

  /** The registry of t has every list of s at the front of its own. */
  ghost predicate Grows(s: State, t: State) {
    forall name :: name in s.consumers ==> name in t.consumers && s.consumers[name] <= t.consumers[name]
  }

  /** The lists are the same, and every registered call still is what it was. */
  lemma SameRegistry(s: State, t: State)
    requires RegistryInv(s) && t.consumers == s.consumers && s.owner <= t.owner && |s.adds| <= |t.adds|
    requires forall k :: 0 <= k < |s.adds| && s.adds[k].Registered? ==> t.adds[k] == s.adds[k]
    ensures RegistryInv(t)
  {
    forall name, i | name in t.consumers && 0 <= i < |t.consumers[name]|
      ensures IsRegistered(t, name, t.consumers[name][i])
    {
      assert IsRegistered(s, name, s.consumers[name][i]);
    }
  }

  lemma SameInits(s: State, t: State)
    requires InitsInv(s) && t.inits == s.inits && t.started == s.started && t.workers == s.workers
    requires Registry(s.consumers) <= Registry(t.consumers)
    ensures InitsInv(t)
  {
    forall i | 0 <= i < |t.inits| ensures InitInv(t, i) { assert InitInv(s, i); }
  }

  lemma BeginAddKeeps(queues: set<string>, s: State, name: string, parallelism: int)
    requires Inv(s)
    ensures Inv(AddNext(queues, s, name, parallelism))
  {
    var t := AddNext(queues, s, name, parallelism);
    forall k | 0 <= k < |t.adds| ensures AddInv(t, k) {
      if k < |s.adds| { assert AddInv(s, k); }
    }
    SameRegistry(s, t);
    SameInits(s, t);
  }

  lemma MakeOneAdds(s: State, k: nat)
    requires AddsInv(s) && k < |s.adds| && s.adds[k].Making? && |s.adds[k].made| < Wanted(s.adds[k].parallelism)
    ensures AddsInv(Made(s, k))
  {
    var t := Made(s, k);
    forall j | 0 <= j < |t.adds| ensures AddInv(t, j) { assert AddInv(s, j); }
  }

  lemma MakeOneKeeps(s: State, k: nat)
    requires Inv(s) && k < |s.adds| && s.adds[k].Making? && |s.adds[k].made| < Wanted(s.adds[k].parallelism)
    ensures Inv(Made(s, k))
  {
    MakeOneAdds(s, k);
    SameRegistry(s, Made(s, k));
    SameInits(s, Made(s, k));
  }

  lemma CloseOneAdds(s: State, k: nat)
    requires AddsInv(s) && k < |s.adds| && s.adds[k].Closing? && s.adds[k].count < |s.adds[k].made|
    ensures AddsInv(ClosedOne(s, k))
  {
    var t := ClosedOne(s, k);
    assert AddInv(s, k);
    var c := s.adds[k].made[s.adds[k].count];
    assert s.owner[c] == k;
    forall j | 0 <= j < |t.adds| ensures AddInv(t, j) { assert AddInv(s, j); }
  }

  lemma CloseOneKeeps(s: State, k: nat)
    requires Inv(s) && k < |s.adds| && s.adds[k].Closing? && s.adds[k].count < |s.adds[k].made|
    ensures Inv(ClosedOne(s, k))
  {
    CloseOneAdds(s, k);
    SameRegistry(s, ClosedOne(s, k));
    SameInits(s, ClosedOne(s, k));
  }

  lemma CommitAdds(s: State, k: nat)
    requires Inv(s) && k < |s.adds| && s.adds[k].Making? && |s.adds[k].made| == Wanted(s.adds[k].parallelism)
    requires !s.started
    ensures AddsInv(Committed(s, k)) && Grows(s, Committed(s, k))
  {
    var t := Committed(s, k);
    var a := s.adds[k];
    var l := ListOf(s.consumers, a.name);
    assert AddInv(s, k);
    assert (l + a.made)[|l|..|l| + |a.made|] == a.made;
    forall j | 0 <= j < |t.adds| ensures AddInv(t, j) {
      assert AddInv(s, j);
      if j != k && s.adds[j].Registered? && s.adds[j].name == a.name {
        var b := s.adds[j];
        assert (l + a.made)[b.at..b.at + |b.made|] == l[b.at..b.at + |b.made|];
      }
    }
  }

  lemma CommitRegistry(s: State, k: nat)
    requires Inv(s) && k < |s.adds| && s.adds[k].Making? && |s.adds[k].made| == Wanted(s.adds[k].parallelism)
    requires !s.started
    ensures RegistryInv(Committed(s, k))
  {
    var t := Committed(s, k);
    var a := s.adds[k];
    var l := ListOf(s.consumers, a.name);
    assert AddInv(s, k);
    forall i | 0 <= i < |l| ensures IsRegistered(s, a.name, l[i]) {}
    forall name, i | name in t.consumers && 0 <= i < |t.consumers[name]|
      ensures IsRegistered(t, name, t.consumers[name][i])
    {
      if name != a.name || i < |l| {
        assert IsRegistered(s, name, s.consumers[name][i]);
      }
    }
    forall i, j | 0 <= i < j < |l + a.made| ensures (l + a.made)[i] != (l + a.made)[j] {}
  }

  lemma CommitRefused(s: State, k: nat)
    requires AddsInv(s) && RegistryInv(s) && k < |s.adds| && s.adds[k].Making? && s.started
    ensures AddsInv(Committed(s, k)) && RegistryInv(Committed(s, k)) && Grows(s, Committed(s, k))
  {
    var t := Committed(s, k);
    assert AddInv(s, k);
    forall j | 0 <= j < |t.adds| ensures AddInv(t, j) { assert AddInv(s, j); }
    SameRegistry(s, t);
  }

  lemma CommitKeeps(s: State, k: nat)
    requires Inv(s) && k < |s.adds| && s.adds[k].Making? && |s.adds[k].made| == Wanted(s.adds[k].parallelism)
    ensures Inv(Committed(s, k)) && Grows(s, Committed(s, k))
  {
    if s.started {
      CommitRefused(s, k);
    } else {
      CommitAdds(s, k);
      CommitRegistry(s, k);
    }
    GrowsRegistry(s, Committed(s, k));
    SameInits(s, Committed(s, k));
  }

  lemma GrowsRegistry(s: State, t: State)
    requires Grows(s, t)
    ensures Registry(s.consumers) <= Registry(t.consumers)
  {
    forall c | c in Registry(s.consumers) ensures c in Registry(t.consumers) {
      var name :| name in s.consumers && c in s.consumers[name];
      var i :| 0 <= i < |s.consumers[name]| && s.consumers[name][i] == c;
      assert t.consumers[name][i] == c;
      assert c in t.consumers[name];
    }
  }

  /** Steps of InitConsumer leave the registry alone. */
  lemma InitStepKeeps(queues: set<string>, s: State, step: Step)
    requires Inv(s) && Take(queues, s, step).Some?
    requires step.BeginInit? || step.Snapshot? || step.Swap? || step.StartOne?
    ensures Inv(Take(queues, s, step).value)
  {
    var t := Take(queues, s, step).value;
    forall j | 0 <= j < |t.adds| ensures AddInv(t, j) { assert AddInv(s, j); }
    SameRegistry(s, t);
    InitStepInits(queues, s, step);
  }

  /** A call that does not win changes its own place only. */
  lemma OneInitMoves(s: State, t: State, i: nat)
    requires InitsInv(s) && t.started == s.started && t.workers == s.workers && t.consumers == s.consumers
    requires |t.inits| == if i == |s.inits| then |s.inits| + 1 else |s.inits|
    requires i < |t.inits| && forall j :: 0 <= j < |s.inits| && j != i ==> t.inits[j] == s.inits[j]
    requires i < |s.inits| ==> !s.inits[i].Starting?
    requires !t.inits[i].Starting? && InitInv(t, i)
    ensures InitsInv(t)
  {
    forall j | 0 <= j < |t.inits| ensures InitInv(t, j) {
      if j != i { assert InitInv(s, j); }
    }
    if s.started {
      var w :| 0 <= w < |s.inits| && s.inits[w].Starting?;
      assert t.inits[w].Starting?;
    }
  }

  lemma SwapInits(queues: set<string>, s: State, i: nat)
    requires InitsInv(s) && Take(queues, s, Swap(i)).Some? && !s.started
    ensures InitsInv(Take(queues, s, Swap(i)).value)
  {
    var t := Take(queues, s, Swap(i)).value;
    forall j | 0 <= j < |t.inits| ensures InitInv(t, j) { assert InitInv(s, j); }
    assert t.inits[i].Starting?;
  }

  lemma StartOneInits(queues: set<string>, s: State, i: nat, c: nat)
    requires InitsInv(s) && Take(queues, s, StartOne(i, c)).Some?
    ensures InitsInv(Take(queues, s, StartOne(i, c)).value)
  {
    var t := Take(queues, s, StartOne(i, c)).value;
    forall j | 0 <= j < |t.inits| ensures InitInv(t, j) { assert InitInv(s, j); }
    assert t.inits[i].Starting?;
  }

  lemma InitStepInits(queues: set<string>, s: State, step: Step)
    requires InitsInv(s) && Take(queues, s, step).Some?
    requires step.BeginInit? || step.Snapshot? || step.Swap? || step.StartOne?
    ensures InitsInv(Take(queues, s, step).value)
  {
    var t := Take(queues, s, step).value;
    match step
    case BeginInit(_) => OneInitMoves(s, t, |s.inits|);
    case Snapshot(i) => OneInitMoves(s, t, i);
    case Swap(i) => if s.started { OneInitMoves(s, t, i); } else { SwapInits(queues, s, i); }
    case StartOne(i, c) => StartOneInits(queues, s, i, c);
    case _ =>
  }

  lemma StepKeeps(queues: set<string>, s: State, step: Step)
    requires Inv(s) && Take(queues, s, step).Some?
    ensures Inv(Take(queues, s, step).value) && Grows(s, Take(queues, s, step).value)
  {
    match step
    case BeginAdd(name, parallelism) => BeginAddKeeps(queues, s, name, parallelism);
    case MakeOne(k) => MakeOneKeeps(s, k);
    case Commit(k) => CommitKeeps(s, k);
    case CloseOne(k) => CloseOneKeeps(s, k);
    case _ => InitStepKeeps(queues, s, step);
  }

  lemma {:induction false} RunKeeps(queues: set<string>, s: State, steps: seq<Step>)
    requires Inv(s) && Run(queues, s, steps).Some?
    ensures Inv(Run(queues, s, steps).value) && Grows(s, Run(queues, s, steps).value)
    decreases |steps|
  {
    if steps != [] {
      StepKeeps(queues, s, steps[0]);
      RunKeeps(queues, Take(queues, s, steps[0]).value, steps[1..]);
    }
  }

  lemma InitialInv()
    ensures Inv(INITIAL)
  {
  }

  // ---- What every run keeps ------------------------------------------------------------------------------------

  lemma RegisteredOwner(s: State, c: nat)
    requires Inv(s) && c in Registry(s.consumers)
    ensures c < |s.owner| && s.owner[c] < |s.adds| && s.adds[s.owner[c]].Registered? && c !in s.closed
  {
    var name :| name in s.consumers && c in s.consumers[name];
    var i :| 0 <= i < |s.consumers[name]| && s.consumers[name][i] == c;
    assert IsRegistered(s, name, s.consumers[name][i]);
  }

  /** All or nothing: a call that returned nil has exactly max(1, n) clients of its own in its
      queue's list, one after the other, none closed by it; of a call that did not, no client is
      registered, and once a refused call has returned all of them are closed. */
  lemma AllOrNothing(queues: set<string>, steps: seq<Step>, k: nat)
    requires Run(queues, INITIAL, steps).Some? && k < |Run(queues, INITIAL, steps).value.adds|
    ensures var s := Run(queues, INITIAL, steps).value;
            match s.adds[k] {
              case Registered(name, parallelism, made, at) =>
                && |made| == Wanted(parallelism) && Owns(s.owner, k, made) && NoneIn(made, s.closed)
                && name in s.consumers && at + |made| <= |s.consumers[name]|
                && s.consumers[name][at..at + |made|] == made
              case Closing(made, count) =>
                && Owns(s.owner, k, made) && (forall c :: c in made ==> c !in Registry(s.consumers))
                && (count == |made| ==> forall c :: c in made ==> c in s.closed)
              case Making(_, _, made) =>
                Owns(s.owner, k, made) && forall c :: c in made ==> c !in Registry(s.consumers) && c !in s.closed
              case TurnedAway => true
            }
  {
    InitialInv();
    RunKeeps(queues, INITIAL, steps);
    var s := Run(queues, INITIAL, steps).value;
    assert AddInv(s, k);
    forall c | c in Registry(s.consumers) ensures s.owner[c] == k ==> s.adds[k].Registered? {
      RegisteredOwner(s, c);
    }
  }

  /** InitConsumer gets past its swap at most once in a run, whoever calls it. */
  lemma InitSucceedsOnce(queues: set<string>, steps: seq<Step>, i: nat, j: nat)
    requires Run(queues, INITIAL, steps).Some?
    requires var s := Run(queues, INITIAL, steps).value;
             i < |s.inits| && j < |s.inits| && s.inits[i].Starting? && s.inits[j].Starting?
    ensures i == j
  {
    InitialInv();
    RunKeeps(queues, INITIAL, steps);
  }

  /** No client gets a second worker. A worker is for a registered client that is not closed by
      the call that made it. */
  lemma OneWorkerEach(queues: set<string>, steps: seq<Step>, c: nat)
    requires Run(queues, INITIAL, steps).Some?
    ensures var s := Run(queues, INITIAL, steps).value;
            s.workers[c] <= 1 && (s.workers[c] == 1 ==> c in Registry(s.consumers) && c !in s.closed)
  {
    InitialInv();
    RunKeeps(queues, INITIAL, steps);
    var s := Run(queues, INITIAL, steps).value;
    if s.started {
      var w :| 0 <= w < |s.inits| && s.inits[w].Starting?;
      assert InitInv(s, w);
      if s.workers[c] == 1 {
        RegisteredOwner(s, c);
      }
    }
  }

  // ---- How a call ends ---------------------------------------------------------------------------------------------

  /** Call k is one of AddConsumerN for this queue and number of clients, or was refused. */
  ghost predicate IsCall(s: State, k: nat, name: string, parallelism: int) {
    k < |s.adds| && match s.adds[k]
      case Making(n, p, made) => n == name && p == parallelism
      case Registered(n, p, made, at) => n == name && p == parallelism
      case Closing(_, _) => s.started
      case TurnedAway => false
  }

  lemma CallStep(queues: set<string>, s: State, step: Step, k: nat, name: string, parallelism: int)
    requires Take(queues, s, step).Some? && k < |s.adds|
    ensures IsCall(s, k, name, parallelism) ==> IsCall(Take(queues, s, step).value, k, name, parallelism)
    ensures var t := Take(queues, s, step).value; s.adds[k].TurnedAway? ==> k < |t.adds| && t.adds[k].TurnedAway?
  {
  }

  lemma {:induction false} CallRuns(queues: set<string>, s: State, steps: seq<Step>, k: nat, name: string, parallelism: int)
    requires Run(queues, s, steps).Some? && k < |s.adds|
    ensures var t := Run(queues, s, steps).value;
            && (IsCall(s, k, name, parallelism) ==> IsCall(t, k, name, parallelism))
            && (s.adds[k].TurnedAway? ==> k < |t.adds| && t.adds[k].TurnedAway?)
    decreases |steps|
  {
    if steps != [] {
      CallStep(queues, s, steps[0], k, name, parallelism);
      CallRuns(queues, Take(queues, s, steps[0]).value, steps[1..], k, name, parallelism);
    }
  }

  /** A call of AddConsumerN is turned away at once exactly when the consumers have been started or
      the queue is not configured. Every other call registers for its own queue, and if that is ever
      refused the consumers have been started meanwhile. */
  lemma AddEnds(queues: set<string>, s: State, name: string, parallelism: int, steps: seq<Step>)
    requires Run(queues, s, [BeginAdd(name, parallelism)] + steps).Some?
    ensures var t := Run(queues, s, [BeginAdd(name, parallelism)] + steps).value;
            var k := |s.adds|;
            && k < |t.adds|
            && (t.adds[k].TurnedAway? <==> s.started || name !in queues)
            && (t.adds[k].Making? || t.adds[k].Registered? ==>
                  t.adds[k].name == name && t.adds[k].parallelism == parallelism)
            && (t.adds[k].Closing? ==> t.started && !s.started)
  {
    var s' := Take(queues, s, BeginAdd(name, parallelism)).value;
    assert ([BeginAdd(name, parallelism)] + steps)[1..] == steps;
    CallRuns(queues, s', steps, |s.adds|, name, parallelism);
  }

  /** A registered call has exactly as many clients as asked for, and one when fewer than one. */
  lemma RegisteredCount(queues: set<string>, steps: seq<Step>, k: nat)
    requires Run(queues, INITIAL, steps).Some? && k < |Run(queues, INITIAL, steps).value.adds|
    requires Run(queues, INITIAL, steps).value.adds[k].Registered?
    ensures var a := Run(queues, INITIAL, steps).value.adds[k];
            if a.parallelism >= 1 then |a.made| == a.parallelism else |a.made| == 1
  {
    AllOrNothing(queues, steps, k);
  }

  /** A call of InitConsumer with this context can still win: the context was live and nothing started,
      and what it starts, once it starts, is not empty. */
  ghost predicate MayWin(s: State, i: nat, possible: bool) {
    i < |s.inits| && match s.inits[i]
      case Guarded => possible
      case Snapped(clients) => possible && clients != {}
      case Starting(clients, _) => possible && clients != {} && s.started
      case Refused => true
  }

  lemma InitCallStep(queues: set<string>, s: State, step: Step, i: nat, possible: bool)
    requires Take(queues, s, step).Some? && MayWin(s, i, possible)
    ensures MayWin(Take(queues, s, step).value, i, possible)
  {
  }

  lemma {:induction false} InitCallRuns(queues: set<string>, s: State, steps: seq<Step>, i: nat, possible: bool)
    requires Run(queues, s, steps).Some? && MayWin(s, i, possible)
    ensures MayWin(Run(queues, s, steps).value, i, possible)
    decreases |steps|
  {
    if steps != [] {
      InitCallStep(queues, s, steps[0], i, possible);
      InitCallRuns(queues, Take(queues, s, steps[0]).value, steps[1..], i, possible);
    }
  }

  /** InitConsumer starts nothing on a cancelled context, after the consumers have been started, or
      when none is registered. */
  lemma InitNeeds(queues: set<string>, s: State, live: bool, steps: seq<Step>)
    requires Run(queues, s, [BeginInit(live)] + steps).Some?
    ensures var t := Run(queues, s, [BeginInit(live)] + steps).value;
            var i := |s.inits|;
            i < |t.inits| && (t.inits[i].Starting? ==> live && !s.started && t.inits[i].clients != {})
  {
    var s' := Take(queues, s, BeginInit(live)).value;
    assert ([BeginInit(live)] + steps)[1..] == steps;
    InitCallRuns(queues, s', steps, |s.inits|, live && !s.started);
  }

  /** And undisturbed it starts everything registered. */
  lemma InitStarts(queues: set<string>, s: State)
    requires !s.started && Registry(s.consumers) != {}
    ensures var i := |s.inits|;
            var r := Run(queues, s, [BeginInit(true), Snapshot(i), Swap(i)]);
            && r.Some? && r.value.started && i < |r.value.inits|
            && r.value.inits[i] == Starting(Registry(s.consumers), Registry(s.consumers))
  {
    var i := |s.inits|;
    var s1 := Take(queues, s, BeginInit(true)).value;
    var s2 := Take(queues, s1, Snapshot(i)).value;
    var s3 := Take(queues, s2, Swap(i)).value;
    assert Run(queues, s3, []) == Some(s3);
    RunCons(queues, s2, Swap(i), s3, [], s3);
    RunCons(queues, s1, Snapshot(i), s2, [Swap(i)], s3);
    RunCons(queues, s, BeginInit(true), s1, [Snapshot(i)] + ([Swap(i)] + []), s3);
    assert [Snapshot(i)] + ([Swap(i)] + []) == [Snapshot(i), Swap(i)];
    assert [BeginInit(true)] + [Snapshot(i), Swap(i)] == [BeginInit(true), Snapshot(i), Swap(i)];
  }

  // ---- Who is started ---------------------------------------------------------------------------------------------

  /** How many calls register clients during a run. */
  function CommitsIn(queues: set<string>, s: State, steps: seq<Step>): nat
    decreases |steps|
  {
    if steps == [] || Take(queues, s, steps[0]).None? then 0
    else (if steps[0].Commit? && !s.started then 1 else 0)
         + CommitsIn(queues, Take(queues, s, steps[0]).value, steps[1..])
  }

  lemma CommitRegisters(s: State, k: nat)
    requires Inv(s) && k < |s.adds| && s.adds[k].Making? && |s.adds[k].made| == Wanted(s.adds[k].parallelism)
    requires !s.started
    ensures Registry(s.consumers) < Registry(Committed(s, k).consumers)
  {
    CommitKeeps(s, k);
    var t := Committed(s, k);
    GrowsRegistry(s, t);
    assert AddInv(s, k);
    var a := s.adds[k];
    var c := a.made[0];
    assert t.consumers[a.name][|ListOf(s.consumers, a.name)|] == c;
    assert c in t.consumers[a.name] && c in Registry(t.consumers);
    if c in Registry(s.consumers) {
      RegisteredOwner(s, c);
      assert false;
    }
  }

  /** The registry is the same after a run exactly when no call registered clients during it. */
  lemma {:induction false} SameRegistryIff(queues: set<string>, s: State, steps: seq<Step>)
    requires Inv(s) && Run(queues, s, steps).Some?
    ensures Registry(s.consumers) <= Registry(Run(queues, s, steps).value.consumers)
    ensures Registry(s.consumers) == Registry(Run(queues, s, steps).value.consumers)
            <==> CommitsIn(queues, s, steps) == 0
    decreases |steps|
  {
    if steps != [] {
      var t := Take(queues, s, steps[0]).value;
      StepKeeps(queues, s, steps[0]);
      SameRegistryIff(queues, t, steps[1..]);
      if steps[0].Commit? && !s.started {
        CommitRegisters(s, steps[0].add);
      } else {
        assert t.consumers == s.consumers;
      }
    }
  }

  /** After the swap nothing is registered any more, and the winner keeps its snapshot. */
  lemma {:induction false} FrozenOnceStarted(queues: set<string>, s: State, steps: seq<Step>, i: nat)
    requires i < |s.inits| && s.inits[i].Starting? && s.started && Run(queues, s, steps).Some?
    ensures var t := Run(queues, s, steps).value;
            && t.consumers == s.consumers && t.started
            && i < |t.inits| && t.inits[i].Starting? && t.inits[i].clients == s.inits[i].clients
    decreases |steps|
  {
    if steps != [] {
      FrozenOnceStarted(queues, Take(queues, s, steps[0]).value, steps[1..], i);
    }
  }

  /** A registered consumer is never started, in any continuation, exactly when the winner's
      snapshot does not hold it; when the winner has returned, the others have their worker. */
  lemma StartedIffInSnapshot(queues: set<string>, before: seq<Step>, s: State, after: seq<Step>, i: nat, c: nat)
    requires Run(queues, INITIAL, before) == Some(s) && i < |s.inits| && s.inits[i].Starting?
    requires Run(queues, s, after).Some?
    ensures var t := Run(queues, s, after).value;
            && i < |t.inits| && t.inits[i].Starting?
            && (c !in s.inits[i].clients ==> t.workers[c] == 0)
            && (t.inits[i].left == {} ==> (t.workers[c] == 1 <==> c in s.inits[i].clients))
  {
    InitialInv();
    RunKeeps(queues, INITIAL, before);
    assert InitInv(s, i);
    FrozenOnceStarted(queues, s, after, i);
    RunKeeps(queues, s, after);
    assert InitInv(Run(queues, s, after).value, i);
  }

  /** Whether everyone registered gets a worker: from the snapshot of the winning call to its swap,
      exactly when no AddConsumerN registered clients in between. */
  lemma EveryoneInSnapshotIff(queues: set<string>, s: State, steps: seq<Step>, i: nat)
    requires Inv(s) && i < |s.inits| && s.inits[i] == Snapped(Registry(s.consumers))
    requires Run(queues, s, steps).Some?
    requires i < |Run(queues, s, steps).value.inits| && Run(queues, s, steps).value.inits[i].Starting?
    ensures var t := Run(queues, s, steps).value;
            t.inits[i].clients == Registry(t.consumers) <==> CommitsIn(queues, s, steps) == 0
  {
    SameRegistryIff(queues, s, steps);
    SnapshotKept(queues, s, steps, i);
  }

  lemma {:induction false} SnapshotKept(queues: set<string>, s: State, steps: seq<Step>, i: nat)
    requires i < |s.inits| && (s.inits[i].Snapped? || s.inits[i].Starting?) && Run(queues, s, steps).Some?
    ensures var t := Run(queues, s, steps).value;
            i < |t.inits| && (t.inits[i].Snapped? || t.inits[i].Starting? ==> t.inits[i].clients == s.inits[i].clients)
    decreases |steps|
  {
    if steps != [] {
      var t := Take(queues, s, steps[0]).value;
      if t.inits[i].Refused? {
        RefusedStays(queues, t, steps[1..], i);
      } else {
        SnapshotKept(queues, t, steps[1..], i);
      }
    }
  }

  lemma {:induction false} RefusedStays(queues: set<string>, s: State, steps: seq<Step>, i: nat)
    requires i < |s.inits| && s.inits[i].Refused? && Run(queues, s, steps).Some?
    ensures var t := Run(queues, s, steps).value; i < |t.inits| && t.inits[i].Refused?
    decreases |steps|
  {
    if steps != [] {
      RefusedStays(queues, Take(queues, s, steps[0]).value, steps[1..], i);
    }
  }

  const MISSED: seq<Step> :=
    [BeginAdd("q", 1), MakeOne(0), Commit(0), BeginAdd("q", 1), MakeOne(1),
     BeginInit(true), Snapshot(0), Commit(1), Swap(0)]

  lemma RunCons(queues: set<string>, s: State, step: Step, t: State, rest: seq<Step>, u: State)
    requires Take(queues, s, step) == Some(t) && Run(queues, t, rest) == Some(u)
    ensures Run(queues, s, [step] + rest) == Some(u)
  {
    assert ([step] + rest)[1..] == rest;
  }

  const ONE: Add := Registered("q", 1, [0], 0)
  const OTHER: Add := Registered("q", 1, [1], 1)

  /** Both clients are made and the first is registered; and the end of the run. */
  const BOTH_MADE: State :=
    State(false, map["q" := [0]], [ONE, Making("q", 1, [1])], [], [0, 1], {}, multiset{})
  const MISSED_END: State :=
    State(true, map["q" := [0, 1]], [ONE, OTHER], [Starting({0}, {0})], [0, 1], {}, multiset{})

  const ONE_REGISTERED: State := State(false, map["q" := [0]], [ONE], [], [0], {}, multiset{})

  lemma SecondMade(s: State)
    requires Run({"q"}, BOTH_MADE, MISSED[5..]) == Some(s)
    ensures Run({"q"}, ONE_REGISTERED, MISSED[3..]) == Some(s)
  {
    var queues := {"q"};
    var s4 := ONE_REGISTERED.(adds := [ONE, Making("q", 1, [])]);
    var empty: seq<nat> := [];
    assert empty + [1] == [1] && [0] + [1] == [0, 1];
    assert s4.adds[1 := Making("q", 1, [1])] == BOTH_MADE.adds && [ONE] + [Making("q", 1, [])] == s4.adds;
    RunCons(queues, s4, MakeOne(1), BOTH_MADE, MISSED[5..], s);
    RunCons(queues, ONE_REGISTERED, BeginAdd("q", 1), s4, MISSED[4..], s);
  }

  lemma FirstRegistered(s: State)
    requires Run({"q"}, ONE_REGISTERED, MISSED[3..]) == Some(s)
    ensures Run({"q"}, INITIAL, MISSED) == Some(s)
  {
    var queues := {"q"};
    var s1 := INITIAL.(adds := [Making("q", 1, [])]);
    var s2 := INITIAL.(adds := [Making("q", 1, [0])], owner := [0]);
    var empty: seq<nat> := [];
    assert empty + [0] == [0];
    assert s2.adds[0 := ONE] == [ONE] && INITIAL.consumers["q" := [0]] == ONE_REGISTERED.consumers;
    assert s1.adds[0 := Making("q", 1, [0])] == s2.adds && INITIAL.adds + [Making("q", 1, [])] == s1.adds;
    RunCons(queues, s2, Commit(0), ONE_REGISTERED, MISSED[3..], s);
    RunCons(queues, s1, MakeOne(0), s2, MISSED[2..], s);
    RunCons(queues, INITIAL, BeginAdd("q", 1), s1, MISSED[1..], s);
    assert [MISSED[0]] + MISSED[1..] == MISSED;
  }

  lemma SecondHalf()
    ensures Run({"q"}, BOTH_MADE, MISSED[5..]) == Some(MISSED_END)
  {
    var queues := {"q"};
    var s5, s := BOTH_MADE, MISSED_END;
    var s6 := s5.(inits := [Guarded]);
    var s7 := s5.(inits := [Snapped({0})]);
    var s8 := s7.(adds := [ONE, OTHER], consumers := map["q" := [0, 1]]);
    assert Registry(s5.consumers) == {0} by { assert 0 in s5.consumers["q"]; }
    assert s8.inits[0 := Starting({0}, {0})] == s.inits;
    assert s7.adds[1 := OTHER] == s8.adds && [0] + [1] == [0, 1] && s7.consumers["q" := [0, 1]] == s8.consumers;
    assert s6.inits[0 := Snapped({0})] == s7.inits && s5.inits + [Guarded] == s6.inits;
    RunCons(queues, s8, Swap(0), s, [], s);
    RunCons(queues, s7, Commit(1), s8, [Swap(0)], s);
    RunCons(queues, s6, Snapshot(0), s7, MISSED[7..], s);
    RunCons(queues, s5, BeginInit(true), s6, MISSED[6..], s);
    assert [MISSED[5]] + MISSED[6..] == MISSED[5..];
  }

  /** A call to AddConsumerN that returns nil, for a consumer that no continuation ever starts. */
  lemma NilButNeverStarted(after: seq<Step>)
    ensures Run({"q"}, INITIAL, MISSED).Some?
    ensures var s := Run({"q"}, INITIAL, MISSED).value;
            && |s.adds| == 2 && s.adds[1] == Registered("q", 1, [1], 1) && 1 in Registry(s.consumers)
            && (Run({"q"}, s, after).Some? ==> Run({"q"}, s, after).value.workers[1] == 0)
  {
    var queues, s := {"q"}, MISSED_END;
    SecondHalf();
    SecondMade(s);
    FirstRegistered(s);
    assert 1 in s.consumers["q"];
    if Run(queues, s, after).Some? {
      StartedIffInSnapshot(queues, MISSED, s, after, 0, 1);
    }
  }
}
