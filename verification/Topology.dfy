/** The exchanges, queues and bindings the adapter declares, as data, and the routing a broker
    derives from them: sections 3.1.3.1 and 3.1.3.2 of AMQP 0-9-1, with RabbitMQ's
    dead-lettering (client.go, initQueue and initQueueWithRetry). */
module Topology {
  import opened Basics
  import opened Configuration

  datatype QueueArgs = QueueArgs(deadLetterExchange: Option<string>, ttlMillis: Option<int>)
  datatype Binding = Binding(exchange: string, queue: string, key: string)

  /** Every declared exchange is a durable fanout exchange and every queue a durable queue. */
  datatype Broker = Broker(exchanges: set<string>, queues: map<string, QueueArgs>, bindings: set<Binding>)

  const EMPTY_BROKER: Broker := Broker({}, map[], {})

  datatype Op =
    | DeclareExchange(name: string)
    | DeclareQueue(name: string, args: QueueArgs)
    | BindQueue(queue: string, key: string, exchange: string)
    | SetQos(prefetch: nat)

  /** What the broker makes of one declaration; None is a refusal, which closes the channel. */
  function Apply(b: Broker, op: Op): Option<Broker> {
    match op
    case DeclareExchange(name) => Some(b.(exchanges := b.exchanges + {name}))
    case DeclareQueue(name, args) =>
      if name in b.queues && b.queues[name] != args then None
      else Some(b.(queues := b.queues[name := args]))
    case BindQueue(queue, key, exchange) =>
      if queue in b.queues && exchange in b.exchanges
      then Some(b.(bindings := b.bindings + {Binding(exchange, queue, key)}))
      else None
    case SetQos(_) => Some(b)
  }

  function Ex(name: string): string { name + ".ex" }
  function Delay(name: string): string { name + ".delay" }
  function DelayEx(name: string): string { name + ".delay.ex" }

  function MainArgs(name: string, retry: Option<RetryConfig>): QueueArgs {
    QueueArgs(if retry.Some? then Some(DelayEx(name)) else None, None)
  }

  function DelayArgs(name: string, retry: RetryConfig): QueueArgs {
    QueueArgs(Some(Ex(name)), Some(TtlMillis(retry)))
  }

  /** The declarations of initQueue or initQueueWithRetry in order. */
  function Program(name: string, retry: Option<RetryConfig>): seq<Op> {
    match retry
    case None => [DeclareQueue(name, MainArgs(name, None)), SetQos(1)]
    case Some(r) =>
      [ DeclareExchange(Ex(name)),
        DeclareExchange(DelayEx(name)),
        DeclareQueue(name, MainArgs(name, retry)),
        DeclareQueue(Delay(name), DelayArgs(name, r)),
        BindQueue(name, name + ".bind", Ex(name)),
        BindQueue(Delay(name), name + ".delay.bind", DelayEx(name)),
        SetQos(1) ]
  }

  /** Whether the broker already holds what op declares. */
  predicate Holds(b: Broker, op: Op) {
    match op
    case DeclareExchange(name) => name in b.exchanges
    case DeclareQueue(name, args) => name in b.queues && b.queues[name] == args
    case BindQueue(queue, key, exchange) => Binding(exchange, queue, key) in b.bindings
    case SetQos(_) => true
  }

  predicate HoldsAll(b: Broker, ops: seq<Op>) {
    forall i :: 0 <= i < |ops| ==> Holds(b, ops[i])
  }

  // ---- The topology of a configuration ------------------------------------------------------

  predicate IsRetry(queues: Queues, name: string) {
    name in queues && queues[name].retry.Some?
  }

  /** A configured name that is also the delay queue of a configured retry queue. */
  predicate Clash(queues: Queues, name: string) {
    IsRetry(queues, name) && Delay(name) in queues
  }

  ghost predicate NoClash(queues: Queues) {
    forall name :: !Clash(queues, name)
  }

  /** b holds nothing but declarations of the configured names. */
  ghost predicate Within(b: Broker, queues: Queues) {
    && (forall x :: x in b.exchanges ==>
          exists n :: IsRetry(queues, n) && (x == Ex(n) || x == DelayEx(n)))
    && (forall q :: q in b.queues ==> QueueOf(queues, q, b.queues[q]))
    && (forall x :: x in b.bindings ==> BindingOf(queues, x))
  }

  ghost predicate QueueOf(queues: Queues, q: string, args: QueueArgs) {
    || (q in queues && args == MainArgs(q, queues[q].retry))
    || (exists n :: IsRetry(queues, n) && q == Delay(n) && args == DelayArgs(n, queues[n].retry.value))
  }

  ghost predicate BindingOf(queues: Queues, x: Binding) {
    exists n :: IsRetry(queues, n) &&
      (x == Binding(Ex(n), n, n + ".bind") || x == Binding(DelayEx(n), Delay(n), n + ".delay.bind"))
  }

  lemma SuffixInjective(a: string, b: string, s: string)
    ensures a + s == b + s <==> a == b
  {
    if a + s == b + s {
      assert |a| == |b|;
      assert (a + s)[..|a|] == a && (b + s)[..|b|] == b;
    }
  }

  /** The generated names are distinct unless a configured name ends in ".delay". */
  lemma NamesInjective(a: string, b: string)
    ensures Ex(a) == Ex(b) <==> a == b
    ensures Delay(a) == Delay(b) <==> a == b
    ensures DelayEx(a) == DelayEx(b) <==> a == b
    ensures Ex(a) == DelayEx(b) <==> a == Delay(b)
    ensures Delay(a) != a
  {
    SuffixInjective(a, b, ".ex");
    SuffixInjective(a, b, ".delay");
    SuffixInjective(a, b, ".delay.ex");
    assert ".delay.ex" == ".delay" + ".ex";
    assert DelayEx(b) == Delay(b) + ".ex";
    SuffixInjective(a, Delay(b), ".ex");
  }

  /** Without a clash the arguments of a queue name are determined by the configuration. */
  lemma QueueArgsUnique(queues: Queues, q: string, x: QueueArgs, y: QueueArgs)
    requires NoClash(queues) && QueueOf(queues, q, x) && QueueOf(queues, q, y)
    ensures x == y
  {
    if q in queues {
      forall n | IsRetry(queues, n) ensures q != Delay(n) {
        assert !Clash(queues, n);
      }
    } else {
      var n :| IsRetry(queues, n) && q == Delay(n) && x == DelayArgs(n, queues[n].retry.value);
      var m :| IsRetry(queues, m) && q == Delay(m) && y == DelayArgs(m, queues[m].retry.value);
      NamesInjective(n, m);
    }
  }

  /** The declaration is accepted, keeps what was declared, adds its own item, and declares
      nothing foreign. */
  ghost predicate Accepted(b: Broker, queues: Queues, op: Op) {
    && Apply(b, op).Some?
    && Within(Apply(b, op).value, queues)
    && Holds(Apply(b, op).value, op)
    && (forall other :: Holds(b, other) ==> Holds(Apply(b, op).value, other))
  }

  lemma QueueAccepted(b: Broker, queues: Queues, q: string, args: QueueArgs)
    requires NoClash(queues) && Within(b, queues) && QueueOf(queues, q, args)
    ensures Accepted(b, queues, DeclareQueue(q, args))
  {
    if q in b.queues { QueueArgsUnique(queues, q, args, b.queues[q]); }
  }

  lemma BindAccepted(b: Broker, queues: Queues, q: string, key: string, ex: string)
    requires Within(b, queues) && BindingOf(queues, Binding(ex, q, key)) && q in b.queues && ex in b.exchanges
    ensures Accepted(b, queues, BindQueue(q, key, ex))
  {
  }

  lemma ExchangeAccepted(b: Broker, queues: Queues, x: string)
    requires Within(b, queues) && exists n :: IsRetry(queues, n) && (x == Ex(n) || x == DelayEx(n))
    ensures Accepted(b, queues, DeclareExchange(x))
  {
  }

  lemma BindingsDeclared(b: Broker, queues: Queues, name: string, k: nat)
    requires name in queues && k < |Program(name, queues[name].retry)|
    requires HoldsAll(b, Program(name, queues[name].retry)[..k])
    requires Program(name, queues[name].retry)[k].BindQueue?
    ensures var op := Program(name, queues[name].retry)[k];
            && BindingOf(queues, Binding(op.exchange, op.queue, op.key))
            && op.queue in b.queues && op.exchange in b.exchanges
  {
    var ops := Program(name, queues[name].retry);
    assert IsRetry(queues, name);
    assert forall i :: 0 <= i < 4 ==> ops[..k][i] == ops[i];
    assert Holds(b, ops[0]) && Holds(b, ops[1]) && Holds(b, ops[2]) && Holds(b, ops[3]);
  }

  /** One declaration of a client's program is accepted when those before it are in place. */
  lemma StepAccepted(b: Broker, queues: Queues, name: string, k: nat)
    requires NoClash(queues) && Within(b, queues) && name in queues
    requires k < |Program(name, queues[name].retry)|
    requires HoldsAll(b, Program(name, queues[name].retry)[..k])
    ensures Accepted(b, queues, Program(name, queues[name].retry)[k])
  {
    var op := Program(name, queues[name].retry)[k];
    match op
    case DeclareQueue(q, args) =>
      assert QueueOf(queues, q, args) by {
        if q != name { assert IsRetry(queues, name) && q == Delay(name); }
      }
      QueueAccepted(b, queues, q, args);
    case BindQueue(q, key, ex) =>
      BindingsDeclared(b, queues, name, k);
      BindAccepted(b, queues, q, key, ex);
    case DeclareExchange(x) =>
      assert IsRetry(queues, name);
      ExchangeAccepted(b, queues, x);
    case SetQos(_) =>
  }

  // ---- Concurrent declaration ------------------------------------------------------------------

  /** Clients (by number, with the queue each serves) declare concurrently. A step runs a
      client's next declaration, or starts its program again after a lost channel. */
  datatype SetupStep = Advance(client: nat) | Restart(client: nat)
  datatype Setup = Setup(broker: Broker, progress: map<nat, nat>)

  ghost predicate WellFormed(queues: Queues, clients: map<nat, string>, s: Setup) {
    && s.progress.Keys == clients.Keys
    && (forall i :: i in clients ==>
          && clients[i] in queues
          && s.progress[i] <= |Program(clients[i], queues[clients[i]].retry)|)
  }

  /** None when the broker refuses the declaration; a finished client declares no more. */
  function NextSetup(queues: Queues, clients: map<nat, string>, s: Setup, step: SetupStep): Option<Setup> {
    if step.client !in clients || step.client !in s.progress || clients[step.client] !in queues then Some(s)
    else if step.Restart? then Some(s.(progress := s.progress[step.client := 0]))
    else
      var ops := Program(clients[step.client], queues[clients[step.client]].retry);
      var k := s.progress[step.client];
      if k >= |ops| then Some(s)
      else match Apply(s.broker, ops[k])
        case None => None
        case Some(b) => Some(Setup(b, s.progress[step.client := k + 1]))
  }

  function RunSetup(queues: Queues, clients: map<nat, string>, s: Setup, steps: seq<SetupStep>): Option<Setup>
    decreases |steps|
  {
    if steps == [] then Some(s)
    else match NextSetup(queues, clients, s, steps[0])
      case None => None
      case Some(s') => RunSetup(queues, clients, s', steps[1..])
  }

  function InitialSetup(clients: map<nat, string>): Setup {
    Setup(EMPTY_BROKER, map i | i in clients :: 0)
  }

  ghost predicate SetupInv(queues: Queues, clients: map<nat, string>, s: Setup) {
    && WellFormed(queues, clients, s)
    && Within(s.broker, queues)
    && (forall i :: i in clients ==>
          HoldsAll(s.broker, Program(clients[i], queues[clients[i]].retry)[..s.progress[i]]))
  }

  lemma HoldsAllNext(b: Broker, b': Broker, ops: seq<Op>, k: nat)
    requires k < |ops| && HoldsAll(b, ops[..k]) && Holds(b', ops[k])
    requires forall op :: Holds(b, op) ==> Holds(b', op)
    ensures HoldsAll(b', ops[..k + 1])
  {
    assert ops[..k + 1] == ops[..k] + [ops[k]];
  }

  lemma AdvanceKeeps(queues: Queues, clients: map<nat, string>, s: Setup, j: nat, b: Broker)
    requires SetupInv(queues, clients, s) && j in clients
    requires s.progress[j] < |Program(clients[j], queues[clients[j]].retry)|
    requires Within(b, queues) && Holds(b, Program(clients[j], queues[clients[j]].retry)[s.progress[j]])
    requires forall op :: Holds(s.broker, op) ==> Holds(b, op)
    ensures SetupInv(queues, clients, Setup(b, s.progress[j := s.progress[j] + 1]))
  {
    HoldsAllNext(s.broker, b, Program(clients[j], queues[clients[j]].retry), s.progress[j]);
    forall i | i in clients && i != j
      ensures HoldsAll(b, Program(clients[i], queues[clients[i]].retry)[..s.progress[i]])
    {
      assert HoldsAll(s.broker, Program(clients[i], queues[clients[i]].retry)[..s.progress[i]]);
    }
  }

  lemma SetupStepKeeps(queues: Queues, clients: map<nat, string>, s: Setup, step: SetupStep)
    requires NoClash(queues) && SetupInv(queues, clients, s)
    ensures var r := NextSetup(queues, clients, s, step);
            r.Some? && SetupInv(queues, clients, r.value)
  {
    var j := step.client;
    if step.Advance? && j in clients && s.progress[j] < |Program(clients[j], queues[clients[j]].retry)| {
      StepAccepted(s.broker, queues, clients[j], s.progress[j]);
      var op := Program(clients[j], queues[clients[j]].retry)[s.progress[j]];
      AdvanceKeeps(queues, clients, s, j, Apply(s.broker, op).value);
    }
  }

  /** Whatever the interleaving, repetition and restarts, no declaration is refused when no
      configured name clashes with a delay queue, and only configured items are declared. */
  lemma {:induction false} SetupNeverRefused(queues: Queues, clients: map<nat, string>, s: Setup, steps: seq<SetupStep>)
    requires NoClash(queues) && SetupInv(queues, clients, s)
    ensures var r := RunSetup(queues, clients, s, steps);
            r.Some? && SetupInv(queues, clients, r.value)
    decreases |steps|
  {
    if steps != [] {
      SetupStepKeeps(queues, clients, s, steps[0]);
      SetupNeverRefused(queues, clients, NextSetup(queues, clients, s, steps[0]).value, steps[1..]);
    }
  }

  predicate Serves(queues: Queues, clients: map<nat, string>) {
    forall i :: i in clients ==> clients[i] in queues
  }

  ghost predicate AlwaysAccepted(queues: Queues) {
    forall clients, steps :: Serves(queues, clients) ==>
      RunSetup(queues, clients, InitialSetup(clients), steps).Some?
  }

  /** Every interleaving of every set of clients is accepted exactly when no configured retry
      queue has its delay queue's name configured as well. */
  lemma AcceptedExactlyWithoutClash(queues: Queues)
    ensures AlwaysAccepted(queues) <==> NoClash(queues)
  {
    if NoClash(queues) {
      forall clients: map<nat, string>, steps | Serves(queues, clients)
        ensures RunSetup(queues, clients, InitialSetup(clients), steps).Some?
      {
        SetupNeverRefused(queues, clients, InitialSetup(clients), steps);
      }
    } else {
      var name :| Clash(queues, name);
      ClashIsRefused(queues, name);
    }
  }

  lemma RunStep(queues: Queues, clients: map<nat, string>, s: Setup, step: SetupStep, rest: seq<SetupStep>)
    ensures RunSetup(queues, clients, s, [step] + rest)
            == match NextSetup(queues, clients, s, step)
               case None => None
               case Some(s') => RunSetup(queues, clients, s', rest)
  {
    assert ([step] + rest)[1..] == rest;
  }

  const CLASH_TAIL: seq<SetupStep> := [Advance(1)] + ([Advance(1)] + ([Advance(1)] + []))
  const CLASH_STEPS: seq<SetupStep> :=
    [Advance(0)] + ([Advance(0)] + ([Advance(0)] + ([Advance(0)] + CLASH_TAIL)))

  /** The refusal: the clients of "name" and of "name.delay" cannot both finish. */
  lemma ClashIsRefused(queues: Queues, name: string)
    requires Clash(queues, name)
    ensures var clients := map[0 := name, 1 := Delay(name)];
            Serves(queues, clients) && RunSetup(queues, clients, InitialSetup(clients), CLASH_STEPS).None?
  {
    var clients: map<nat, string> := map[0 := name, 1 := Delay(name)];
    NamesInjective(name, name);
    var s := ClashFirstClient(queues, clients, name);
    ClashSecondClient(queues, clients, name, s);
  }

  lemma ClashFirstClient(queues: Queues, clients: map<nat, string>, name: string) returns (s4: Setup)
    requires IsRetry(queues, name) && clients == map[0 := name, 1 := Delay(name)] && Delay(name) != name
    ensures s4.progress == map[0 := 4, 1 := 0] && Delay(name) in s4.broker.queues
    ensures s4.broker.queues[Delay(name)] == DelayArgs(name, queues[name].retry.value)
    ensures RunSetup(queues, clients, InitialSetup(clients), CLASH_STEPS)
            == RunSetup(queues, clients, s4, CLASH_TAIL)
  {
    var s0, a := InitialSetup(clients), Advance(0);
    var s1 := NextSetup(queues, clients, s0, a).value;
    var s2 := NextSetup(queues, clients, s1, a).value;
    var s3 := NextSetup(queues, clients, s2, a).value;
    s4 := NextSetup(queues, clients, s3, a).value;
    RunStep(queues, clients, s0, a, [a] + ([a] + ([a] + CLASH_TAIL)));
    RunStep(queues, clients, s1, a, [a] + ([a] + CLASH_TAIL));
    RunStep(queues, clients, s2, a, [a] + CLASH_TAIL);
    RunStep(queues, clients, s3, a, CLASH_TAIL);
  }

  lemma ClashSecondClient(queues: Queues, clients: map<nat, string>, name: string, s: Setup)
    requires Clash(queues, name) && clients == map[0 := name, 1 := Delay(name)]
    requires s.progress == map[0 := 4, 1 := 0] && Delay(name) in s.broker.queues
    requires s.broker.queues[Delay(name)] == DelayArgs(name, queues[name].retry.value)
    ensures RunSetup(queues, clients, s, CLASH_TAIL).None?
  {
    var b := Advance(1);
    RunStep(queues, clients, s, b, [b] + ([b] + []));
    if queues[Delay(name)].retry.Some? {
      var s1 := NextSetup(queues, clients, s, b).value;
      RunStep(queues, clients, s1, b, [b] + []);
      var s2 := NextSetup(queues, clients, s1, b).value;
      RunStep(queues, clients, s2, b, []);
    }
  }

  // ---- The one finished topology ------------------------------------------------------------------

  ghost predicate Complete(b: Broker, queues: Queues) {
    Within(b, queues) && forall n :: n in queues ==> HoldsAll(b, Program(n, queues[n].retry))
  }

  lemma HeldItems(b: Broker, queues: Queues, n: string)
    requires n in queues && HoldsAll(b, Program(n, queues[n].retry))
    ensures n in b.queues && b.queues[n] == MainArgs(n, queues[n].retry)
    ensures IsRetry(queues, n) ==>
              && Ex(n) in b.exchanges && DelayEx(n) in b.exchanges
              && Delay(n) in b.queues && b.queues[Delay(n)] == DelayArgs(n, queues[n].retry.value)
              && Binding(Ex(n), n, n + ".bind") in b.bindings
              && Binding(DelayEx(n), Delay(n), n + ".delay.bind") in b.bindings
  {
    var ops := Program(n, queues[n].retry);
    assert Holds(b, ops[0]);
    if IsRetry(queues, n) {
      assert Holds(b, ops[1]) && Holds(b, ops[2]) && Holds(b, ops[3]) && Holds(b, ops[4]) && Holds(b, ops[5]);
    }
  }

  /** Once every configured queue is fully declared there is one topology, whatever led to it. */
  lemma CompleteIsUnique(a: Broker, b: Broker, queues: Queues)
    requires NoClash(queues) && Complete(a, queues) && Complete(b, queues)
    ensures a == b
  {
    CompleteContains(a, b, queues);
    CompleteContains(b, a, queues);
    assert a.queues == b.queues;
  }

  lemma CompleteContains(a: Broker, b: Broker, queues: Queues)
    requires NoClash(queues) && Within(a, queues) && Complete(b, queues)
    ensures a.exchanges <= b.exchanges && a.bindings <= b.bindings
    ensures forall q :: q in a.queues ==> q in b.queues && a.queues[q] == b.queues[q]
  {
    forall x | x in a.exchanges ensures x in b.exchanges {
      var n :| IsRetry(queues, n) && (x == Ex(n) || x == DelayEx(n));
      HeldItems(b, queues, n);
    }
    forall x | x in a.bindings ensures x in b.bindings {
      assert BindingOf(queues, x);
      var n :| IsRetry(queues, n) &&
        (x == Binding(Ex(n), n, n + ".bind") || x == Binding(DelayEx(n), Delay(n), n + ".delay.bind"));
      HeldItems(b, queues, n);
    }
    forall q | q in a.queues ensures q in b.queues && a.queues[q] == b.queues[q] {
      if q in queues {
        HeldItems(b, queues, q);
      } else {
        var n :| IsRetry(queues, n) && q == Delay(n) && a.queues[q] == DelayArgs(n, queues[n].retry.value);
        HeldItems(b, queues, n);
      }
      QueueArgsUnique(queues, q, a.queues[q], b.queues[q]);
    }
  }

  /** Two setups in which some client of every configured queue has finished end with the same
      broker: order, repetition, restarts and the number of clients leave no trace. */
  lemma SetupIsConfluent(queues: Queues, clients1: map<nat, string>, steps1: seq<SetupStep>,
                         clients2: map<nat, string>, steps2: seq<SetupStep>)
    requires NoClash(queues) && Serves(queues, clients1) && Serves(queues, clients2)
    requires AllFinished(queues, clients1, RunSetup(queues, clients1, InitialSetup(clients1), steps1))
    requires AllFinished(queues, clients2, RunSetup(queues, clients2, InitialSetup(clients2), steps2))
    ensures RunSetup(queues, clients1, InitialSetup(clients1), steps1).value.broker
            == RunSetup(queues, clients2, InitialSetup(clients2), steps2).value.broker
  {
    var a := FinishedIsComplete(queues, clients1, steps1);
    var b := FinishedIsComplete(queues, clients2, steps2);
    CompleteIsUnique(a, b, queues);
  }

  ghost predicate AllFinished(queues: Queues, clients: map<nat, string>, r: Option<Setup>) {
    r.Some? && forall n :: n in queues ==>
      exists i :: i in clients && clients[i] == n && i in r.value.progress
                  && r.value.progress[i] == |Program(n, queues[n].retry)|
  }

  lemma FinishedIsComplete(queues: Queues, clients: map<nat, string>, steps: seq<SetupStep>) returns (b: Broker)
    requires NoClash(queues) && Serves(queues, clients)
    requires AllFinished(queues, clients, RunSetup(queues, clients, InitialSetup(clients), steps))
    ensures b == RunSetup(queues, clients, InitialSetup(clients), steps).value.broker
    ensures Complete(b, queues)
  {
    SetupNeverRefused(queues, clients, InitialSetup(clients), steps);
    var s := RunSetup(queues, clients, InitialSetup(clients), steps).value;
    b := s.broker;
    forall n | n in queues ensures HoldsAll(b, Program(n, queues[n].retry)) {
      var i :| i in clients && clients[i] == n && s.progress[i] == |Program(n, queues[n].retry)|;
      assert Program(n, queues[n].retry)[..s.progress[i]] == Program(n, queues[n].retry);
    }
  }

  // ---- Routing ---------------------------------------------------------------------------------------

  /** A fanout exchange passes a message to every bound queue. */
  function FanoutTargets(b: Broker, exchange: string): set<string> {
    set x | x in b.bindings && x.exchange == exchange :: x.queue
  }

  /** The default exchange passes a message to the queue named by the routing key. */
  function DefaultTargets(b: Broker, key: string): set<string> {
    if key in b.queues then {key} else {}
  }

  /** Where a message that is dead-lettered from q goes; nowhere when q has no exchange for it. */
  function DeadLetterTargets(b: Broker, q: string): set<string> {
    if q in b.queues && b.queues[q].deadLetterExchange.Some?
       && b.queues[q].deadLetterExchange.value in b.exchanges
    then FanoutTargets(b, b.queues[q].deadLetterExchange.value)
    else {}
  }

  /** While other queues are still being declared, a fully declared retry queue already
      dead-letters to exactly its delay queue, and its delay queue to exactly it; a queue
      without retry dead-letters nowhere. */
  lemma DeadLetterCycle(b: Broker, queues: Queues, n: string)
    requires NoClash(queues) && Within(b, queues)
    requires n in queues && HoldsAll(b, Program(n, queues[n].retry))
    ensures DefaultTargets(b, n) == {n}
    ensures IsRetry(queues, n) ==> DeadLetterTargets(b, n) == {Delay(n)} && DeadLetterTargets(b, Delay(n)) == {n}
    ensures !IsRetry(queues, n) ==> DeadLetterTargets(b, n) == {}
  {
    HeldItems(b, queues, n);
    if IsRetry(queues, n) {
      forall x | x in b.bindings && x.exchange == Ex(n) ensures x.queue == n {
        assert BindingOf(queues, x);
        var m :| IsRetry(queues, m) &&
          (x == Binding(Ex(m), m, m + ".bind") || x == Binding(DelayEx(m), Delay(m), m + ".delay.bind"));
        NamesInjective(n, m);
        assert !Clash(queues, m);
      }
      forall x | x in b.bindings && x.exchange == DelayEx(n) ensures x.queue == Delay(n) {
        assert BindingOf(queues, x);
        var m :| IsRetry(queues, m) &&
          (x == Binding(Ex(m), m, m + ".bind") || x == Binding(DelayEx(m), Delay(m), m + ".delay.bind"));
        NamesInjective(m, n);
        assert !Clash(queues, n);
      }
      assert Binding(Ex(n), n, n + ".bind") in b.bindings;
      assert Binding(DelayEx(n), Delay(n), n + ".delay.bind") in b.bindings;
    }
  }

  /** A chain of dead-letterings through the broker. */
  ghost predicate Chain(b: Broker, path: seq<string>) {
    path != [] && forall i :: 0 <= i < |path| - 1 ==> path[i + 1] in DeadLetterTargets(b, path[i])
  }

  lemma ChainFront(b: Broker, path: seq<string>)
    requires Chain(b, path) && |path| > 1
    ensures Chain(b, path[..|path| - 1])
    ensures path[|path| - 1] in DeadLetterTargets(b, path[|path| - 2])
  {
    var front := path[..|path| - 1];
    forall i | 0 <= i < |front| - 1 ensures front[i + 1] in DeadLetterTargets(b, front[i]) {
      assert path[i + 1] in DeadLetterTargets(b, path[i]);
    }
    assert path[|path| - 2 + 1] in DeadLetterTargets(b, path[|path| - 2]);
  }

  /** Where a message is after so many dead-letterings. */
  function StopAt(n: string, i: nat): string {
    if i % 2 == 0 then n else Delay(n)
  }

  /** A queue and its delay queue dead-letter to each other, or the queue dead-letters nowhere. */
  ghost predicate Cycles(b: Broker, n: string, retry: bool) {
    if retry then DeadLetterTargets(b, n) == {Delay(n)} && DeadLetterTargets(b, Delay(n)) == {n}
    else DeadLetterTargets(b, n) == {}
  }

  /** A chain that only knows the two queues alternates between them. */
  lemma {:induction false} CycleAlternates(b: Broker, n: string, retry: bool, path: seq<string>)
    requires Cycles(b, n, retry) && Chain(b, path) && path[0] == n
    ensures forall i :: 0 <= i < |path| ==> path[i] == StopAt(n, i)
    ensures !retry ==> |path| == 1
  {
    if |path| > 1 {
      var front := path[..|path| - 1];
      ChainFront(b, path);
      CycleAlternates(b, n, retry, front);
      assert path[|path| - 2] == front[|front| - 1] == StopAt(n, |front| - 1);
      assert forall i :: 0 <= i < |front| ==> path[i] == front[i];
    }
  }

  /** However often a message of queue n is dead-lettered, it alternates between n and its delay
      queue and never reaches a queue of another name. */
  lemma ChainStaysHome(b: Broker, queues: Queues, n: string, path: seq<string>)
    requires NoClash(queues) && Within(b, queues)
    requires n in queues && HoldsAll(b, Program(n, queues[n].retry))
    requires Chain(b, path) && path[0] == n
    ensures forall i :: 0 <= i < |path| ==> path[i] == StopAt(n, i)
    ensures !IsRetry(queues, n) ==> |path| == 1
  {
    assert Cycles(b, n, IsRetry(queues, n)) by { DeadLetterCycle(b, queues, n); }
    CycleAlternates(b, n, IsRetry(queues, n), path);
  }
}
