/** The declaration calls of one channel, with their early returns (client.go, initQueue and
    initQueueWithRetry). */
module ChannelInit {
  import opened Basics
  import opened Configuration
  import opened Topology

  /** The broker after a sequence of declarations; None when one is refused. */
  function Execute(b: Broker, ops: seq<Op>): Option<Broker> {
    if ops == [] then Some(b)
    else match Execute(b, ops[..|ops| - 1])
      case None => None
      case Some(b') => Apply(b', ops[|ops| - 1])
  }

  lemma ExecuteOne(b: Broker, ops: seq<Op>, op: Op)
    requires Execute(b, ops).Some?
    ensures Execute(b, ops + [op]) == Apply(Execute(b, ops).value, op)
  {
    assert (ops + [op])[..|ops|] == ops;
  }

  /** An open channel: what it has declared, and its prefetch limit (0 is none). */
  class Channel {
    var broker: Broker
    var done: seq<Op>
    var prefetch: nat

    constructor (b: Broker)
      ensures broker == b && done == [] && prefetch == 0
    {
      broker, done, prefetch := b, [], 0;
    }

    /** One synchronous call: refused by the broker, or lost with the connection, or done. */
    method Declare(op: Op) returns (ok: bool)
      modifies this
      ensures ok ==> Apply(old(broker), op) == Some(broker) && done == old(done) + [op]
      ensures ok ==> prefetch == if op.SetQos? then op.prefetch else old(prefetch)
      ensures !ok ==> broker == old(broker) && done == old(done) && prefetch == old(prefetch)
    {
      if * { return false; }
      var r := Apply(broker, op);
      if r.None? { return false; }
      broker, done := r.value, done + [op];
      if op.SetQos? { prefetch := op.prefetch; }
      return true;
    }

    /** The calls made are a prefix of the program, all of it exactly when ok. */
    ghost predicate Ran(before: seq<Op>, start: Broker, ops: seq<Op>, k: nat)
      reads this
    {
      k <= |ops| && done == before + ops[..k] && Execute(start, ops[..k]) == Some(broker)
    }

    method InitQueue(name: string) returns (ok: bool)
      modifies this
      ensures exists k :: Ran(old(done), old(broker), Program(name, None), k)
                          && (ok <==> k == |Program(name, None)|)
      ensures ok ==> prefetch == 1
    {
      ghost var (before, start, ops) := (done, broker, Program(name, None));
      ok := Step(DeclareQueue(name, MainArgs(name, None)), before, start, ops, 0);
      if !ok { return; }
      ok := Step(SetQos(1), before, start, ops, 1);
    }

    method InitQueueWithRetry(name: string, retry: RetryConfig) returns (ok: bool)
      modifies this
      ensures exists k :: Ran(old(done), old(broker), Program(name, Some(retry)), k)
                          && (ok <==> k == |Program(name, Some(retry))|)
      ensures ok ==> prefetch == 1
    {
      ghost var (before, start, ops) := (done, broker, Program(name, Some(retry)));
      ok := DeclareWithRetry(name, retry, before, start, ops);
      if !ok { return; }
      ok := Step(BindQueue(name, name + ".bind", Ex(name)), before, start, ops, 4);
      if !ok { return; }
      ok := Step(BindQueue(Delay(name), name + ".delay.bind", DelayEx(name)), before, start, ops, 5);
      if !ok { return; }
      ok := Step(SetQos(1), before, start, ops, 6);
    }

    /** Its two exchanges and two queues. */
    method DeclareWithRetry(name: string, retry: RetryConfig, ghost before: seq<Op>, ghost start: Broker,
                            ghost ops: seq<Op>)
      returns (ok: bool)
      requires ops == Program(name, Some(retry)) && Ran(before, start, ops, 0)
      modifies this
      ensures exists k :: Ran(before, start, ops, k) && k <= 4 && (ok <==> k == 4)
    {
      ok := Step(DeclareExchange(Ex(name)), before, start, ops, 0);
      if !ok { return; }
      ok := Step(DeclareExchange(DelayEx(name)), before, start, ops, 1);
      if !ok { return; }
      ok := Step(DeclareQueue(name, MainArgs(name, Some(retry))), before, start, ops, 2);
      if !ok { return; }
      ok := Step(DeclareQueue(Delay(name), DelayArgs(name, retry)), before, start, ops, 3);
    }

    method Step(op: Op, ghost before: seq<Op>, ghost start: Broker, ghost ops: seq<Op>, ghost k: nat)
      returns (ok: bool)
      requires k < |ops| && op == ops[k] && Ran(before, start, ops, k)
      modifies this
      ensures Ran(before, start, ops, if ok then k + 1 else k)
      ensures ok && op.SetQos? ==> prefetch == op.prefetch
    {
      ExecuteOne(start, ops[..k], op);
      assert ops[..k + 1] == ops[..k] + [op];
      ok := Declare(op);
    }
  }

  lemma AppliedIsHeld(b: Broker, op: Op, held: Op)
    requires Apply(b, op).Some? && (held == op || Holds(b, held))
    ensures Holds(Apply(b, op).value, held)
  {
  }

  /** A program that ran to its end leaves everything it declares in the broker. */
  lemma {:induction false} ExecutedIsHeld(b: Broker, ops: seq<Op>)
    requires Execute(b, ops).Some?
    ensures HoldsAll(Execute(b, ops).value, ops)
    ensures forall op :: Holds(b, op) ==> Holds(Execute(b, ops).value, op)
  {
    if ops != [] {
      var front := ops[..|ops| - 1];
      ExecutedIsHeld(b, front);
      var b' := Execute(b, front).value;
      forall i | 0 <= i < |ops| ensures Holds(Execute(b, ops).value, ops[i]) {
        if i < |front| { assert Holds(b', front[i]); }
        AppliedIsHeld(b', ops[|ops| - 1], ops[i]);
      }
      forall op | Holds(b, op) ensures Holds(Execute(b, ops).value, op) {
        AppliedIsHeld(b', ops[|ops| - 1], op);
      }
    }
  }

  /** What a broker that holds the retry program of a queue has: two exchanges, a durable queue that
      dead-letters to the second, a delay queue whose messages live for the delay in milliseconds and
      dead-letter to the first, and each queue bound to its exchange. */
  lemma RetryDeclarations(b: Broker, name: string, retry: RetryConfig)
    requires HoldsAll(b, Program(name, Some(retry))) && retry.delay >= 0
    ensures name + ".ex" in b.exchanges && name + ".delay.ex" in b.exchanges
    ensures name in b.queues && b.queues[name] == QueueArgs(Some(name + ".delay.ex"), None)
    ensures name + ".delay" in b.queues
    ensures b.queues[name + ".delay"] == QueueArgs(Some(name + ".ex"), Some(retry.delay / 1_000_000))
    ensures Binding(name + ".ex", name, name + ".bind") in b.bindings
    ensures Binding(name + ".delay.ex", name + ".delay", name + ".delay.bind") in b.bindings
  {
    var ops := Program(name, Some(retry));
    assert Holds(b, ops[0]) && Holds(b, ops[1]) && Holds(b, ops[2]) && Holds(b, ops[3]) && Holds(b, ops[4])
           && Holds(b, ops[5]);
  }
}
