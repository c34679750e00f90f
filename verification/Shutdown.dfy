/** The orderly stop of a store: close every client, wait for the handlers in flight
    (queue.go, Shutdown, closeClients, closeOneClient, waitInflight). */
module Shutdown {
  import opened Basics
  import opened Clients

  datatype StopError =
    | Cancelled
    | Closing(client: Client, err: CloseError)
    | TimedOut
    | CancelledAfter(first: StopError)

  datatype Result = Nil | Failed(err: StopError) | Waiting

  /** The caller's context: live for a number of looks at its error, or for ever. */
  class Context {
    const diesAfter: Option<nat>
    var looks: nat

    constructor (diesAfter: Option<nat>)
      ensures this.diesAfter == diesAfter && looks == 0
    {
      this.diesAfter, looks := diesAfter, 0;
    }

    /** Whether the given look finds it cancelled; no later look finds it live again. */
    predicate DeadAt(look: int) {
      Dies(diesAfter, look)
    }

    /** `ctx.Err() != nil`; time passes with every look. */
    method Err() returns (dead: bool)
      modifies this
      ensures dead == DeadAt(old(looks))
      ensures looks == old(looks) + 1
    {
      dead := DeadAt(looks);
      looks := looks + 1;
    }
  }

  /** One call to closeOneClient: what it saw of the context and what the client's close said. */
  datatype Visit = Visit(client: Client, dead: bool, err: Option<CloseError>)

  function Problems(v: Visit): seq<StopError> {
    (if v.dead then [Cancelled] else [])
    + (if v.err.Some? then [Closing(v.client, v.err.value)] else [])
  }

  /** Everything that went wrong, in the order of the visits. */
  function AllProblems(visits: seq<Visit>): seq<StopError> {
    if visits == [] then [] else AllProblems(visits[..|visits| - 1]) + Problems(visits[|visits| - 1])
  }

  function First(problems: seq<StopError>): Option<StopError> {
    if problems == [] then None else Some(problems[0])
  }

  function Visited(visits: seq<Visit>): seq<Client> {
    seq(|visits|, i requires 0 <= i < |visits| => visits[i].client)
  }

  type Publishers = map<string, Client>
  type Consumers = map<string, seq<Client>>

  function AllClients(publishers: Publishers, consumers: Consumers): set<Client> {
    (set name | name in publishers :: publishers[name])
    + (set name, i | name in consumers && 0 <= i < |consumers[name]| :: consumers[name][i])
  }

  /** The clients in the order in which the two maps may be ranged over. */
  function PublishersIn(publishers: Publishers, order: seq<string>): seq<Client>
    requires forall name :: name in order ==> name in publishers
  {
    seq(|order|, i requires 0 <= i < |order| => publishers[order[i]])
  }

  function ConsumersIn(consumers: Consumers, order: seq<string>): seq<Client>
    requires forall name :: name in order ==> name in consumers
  {
    if order == [] then []
    else ConsumersIn(consumers, order[..|order| - 1]) + consumers[order[|order| - 1]]
  }

  /** An order of a set of names without repetition. */
  ghost predicate Orders(order: seq<string>, names: set<string>) {
    && (forall name :: name in order <==> name in names)
    && (forall i, j :: 0 <= i < j < |order| ==> order[i] != order[j])
  }

  /** Each visit found its client's own first error, or nothing when an earlier visit closed it. */
  ghost predicate Truthful(visits: seq<Visit>, pending: map<Client, Option<CloseError>>) {
    forall i :: 0 <= i < |visits| ==>
      && visits[i].client in pending
      && visits[i].err == if visits[i].client in Visited(visits[..i]) then None else pending[visits[i].client]
  }

  /** A client that was closed by a visit, or is as it was found. */
  ghost predicate Stands(c: Client, found: Option<CloseError>, visited: bool)
    reads c
  {
    c.Valid() && c.Pending() == (if visited then None else found) && (visited ==> c.done)
  }

  /** Where the closing of a set of clients stands. */
  ghost predicate Progress(all: set<Client>, pending: map<Client, Option<CloseError>>, visits: seq<Visit>)
    reads all
  {
    && all <= pending.Keys
    && forall c :: c in all ==> Stands(c, pending[c], c in Visited(visits))
  }

  /** Each visit took the next look at this context, from the given one on. */
  ghost predicate Looked(ctx: Context, start: nat, visits: seq<Visit>)
    reads ctx
  {
    ctx.looks == start + |visits| && SawDeaths(ctx.diesAfter, start, visits)
  }

  /** The visits saw a context that dies after so many looks, from the given look on. */
  ghost predicate SawDeaths(diesAfter: Option<nat>, start: nat, visits: seq<Visit>) {
    forall i :: 0 <= i < |visits| ==> (visits[i].dead <==> Dies(diesAfter, start + i))
  }

  predicate Dies(diesAfter: Option<nat>, look: int) {
    diesAfter.Some? && look >= diesAfter.value
  }

  lemma SawSnoc(diesAfter: Option<nat>, start: nat, visits: seq<Visit>, v: Visit)
    requires SawDeaths(diesAfter, start, visits) && (v.dead <==> Dies(diesAfter, start + |visits|))
    ensures SawDeaths(diesAfter, start, visits + [v])
  {
  }

  /** What is known after a number of visits with the error kept so far. */
  ghost predicate Swept(ctx: Context, start: nat, all: set<Client>, pending: map<Client, Option<CloseError>>,
                        visits: seq<Visit>, err: Option<StopError>)
    reads ctx, all
  {
    && Progress(all, pending, visits) && Truthful(visits, pending)
    && err == First(AllProblems(visits))
    && Looked(ctx, start, visits)
  }

  // ---- The order of the problems -------------------------------------------------------------------------

  lemma {:induction false} NoProblems(visits: seq<Visit>)
    ensures AllProblems(visits) == [] <==> forall i :: 0 <= i < |visits| ==> Problems(visits[i]) == []
  {
    if visits != [] {
      var front := visits[..|visits| - 1];
      NoProblems(front);
      assert forall i :: 0 <= i < |front| ==> front[i] == visits[i];
    }
  }

  /** The first problem is that of the first visit in trouble: before it every visit saw a live
      context and a clean close; a dead context comes before the failed close of the same visit. */
  lemma {:induction false} FirstIsEarliest(visits: seq<Visit>) returns (i: nat)
    requires AllProblems(visits) != []
    ensures i < |visits| && AllProblems(visits[..i]) == [] && Problems(visits[i]) != []
    ensures AllProblems(visits)[0] == if visits[i].dead then Cancelled else Closing(visits[i].client, visits[i].err.value)
  {
    var front := visits[..|visits| - 1];
    if AllProblems(front) == [] {
      i := |visits| - 1;
    } else {
      i := FirstIsEarliest(front);
      assert front[..i] == visits[..i];
    }
  }

  /** Once every client has been closed, another shutdown can complain of its context only. */
  lemma {:induction false} SecondShutdown(visits: seq<Visit>, pending: map<Client, Option<CloseError>>)
    requires Truthful(visits, pending) && forall c :: c in pending ==> pending[c] == None
    ensures forall p :: p in AllProblems(visits) ==> p == Cancelled
  {
    if visits != [] {
      var front := visits[..|visits| - 1];
      assert forall i :: 0 <= i < |front| ==> front[..i] == visits[..i];
      SecondShutdown(front, pending);
      assert visits[|visits| - 1].err == None;
    }
  }

  // ---- The methods -----------------------------------------------------------------------------------------

  lemma OneMore(visits: seq<Visit>, v: Visit, pending: map<Client, Option<CloseError>>)
    requires Truthful(visits, pending) && v.client in pending
    requires v.err == if v.client in Visited(visits) then None else pending[v.client]
    ensures Truthful(visits + [v], pending)
  {
    var more := visits + [v];
    assert more[..|visits|] == visits;
    assert forall i :: 0 <= i < |visits| ==> more[..i] == visits[..i];
  }

  lemma VisitedSnoc(visits: seq<Visit>, v: Visit)
    ensures Visited(visits + [v]) == Visited(visits) + [v.client]
    ensures forall c :: c in Visited(visits + [v]) <==> c in Visited(visits) || c == v.client
  {
    assert Visited(visits + [v]) == Visited(visits) + [v.client];
  }

  /** What closeOneClient makes of the error kept so far. */
  lemma FirstSnoc(visits: seq<Visit>, v: Visit)
    ensures First(AllProblems(visits + [v]))
            == if First(AllProblems(visits)).Some? then First(AllProblems(visits))
               else if v.dead then Some(Cancelled)
               else if v.err.Some? then Some(Closing(v.client, v.err.value))
               else None
  {
    assert (visits + [v])[..|visits|] == visits;
  }

  /** `closeOneClient`: it closes the client whatever went wrong before, and keeps the first error. */
  method CloseOneClient(ctx: Context, clnt: Client, firstErr: Option<StopError>, ghost start: nat, ghost all: set<Client>,
                        ghost pending: map<Client, Option<CloseError>>, ghost earlier: seq<Visit>)
    returns (err: Option<StopError>, ghost visits: seq<Visit>)
    requires Swept(ctx, start, all, pending, earlier, firstErr) && clnt in all
    modifies ctx, clnt
    ensures visits == earlier + [Visit(clnt, ctx.DeadAt(old(ctx.looks)), old(clnt.Pending()))]
    ensures Swept(ctx, start, all, pending, visits, err) && Visited(visits) == Visited(earlier) + [clnt]
  {
    ghost var v := Visit(clnt, ctx.DeadAt(ctx.looks), clnt.Pending());
    visits := earlier + [v];
    OneMore(earlier, v, pending);
    VisitedSnoc(earlier, v);
    FirstSnoc(earlier, v);
    SawSnoc(ctx.diesAfter, start, earlier, v);
    err := firstErr;
    var dead := ctx.Err();
    if dead && err.None? { err := Some(Cancelled); }
    var closeErr := clnt.Close();
    if closeErr.Some? && err.None? { err := Some(Closing(clnt, closeErr.value)); }
  }

  lemma OneMoreName(order: seq<string>, names: set<string>, name: string)
    requires Orders(order, names) && name !in names
    ensures Orders(order + [name], names + {name})
  {
  }

  /** The loop over the publishers, in any order. */
  method ClosePublishers(ctx: Context, publishers: Publishers, ghost all: set<Client>,
                         ghost pending: map<Client, Option<CloseError>>)
    returns (firstErr: Option<StopError>, ghost visits: seq<Visit>, ghost order: seq<string>)
    requires Progress(all, pending, []) && forall name :: name in publishers ==> publishers[name] in all
    modifies ctx, all
    ensures Swept(ctx, old(ctx.looks), all, pending, visits, firstErr)
    ensures Orders(order, publishers.Keys) && Visited(visits) == PublishersIn(publishers, order)
  {
    firstErr, visits, order := None, [], [];
    ghost var start := ctx.looks;
    var rest := publishers.Keys;
    ghost var seen: set<string> := {};
    while rest != {}
      invariant rest + seen == publishers.Keys && rest !! seen && Orders(order, seen)
      invariant Swept(ctx, start, all, pending, visits, firstErr)
      invariant Visited(visits) == PublishersIn(publishers, order)
      decreases rest
    {
      var name :| name in rest;
      firstErr, visits := CloseOneClient(ctx, publishers[name], firstErr, start, all, pending, visits);
      OneMoreName(order, seen, name);
      PublishersSnoc(publishers, order, name);
      order, seen, rest := order + [name], seen + {name}, rest - {name};
    }
  }

  lemma PublishersSnoc(publishers: Publishers, order: seq<string>, name: string)
    requires name in publishers && forall n :: n in order ==> n in publishers
    ensures PublishersIn(publishers, order + [name]) == PublishersIn(publishers, order) + [publishers[name]]
  {
  }

  /** The two loops over the consumers: the queues in any order, the clients of each in theirs. */
  method CloseConsumers(ctx: Context, consumers: Consumers, firstErr: Option<StopError>,
                        ghost start: nat, ghost all: set<Client>,
                        ghost pending: map<Client, Option<CloseError>>, ghost earlier: seq<Visit>)
    returns (err: Option<StopError>, ghost visits: seq<Visit>, ghost order: seq<string>)
    requires Swept(ctx, start, all, pending, earlier, firstErr)
    requires forall name, c :: name in consumers && c in consumers[name] ==> c in all
    modifies ctx, all
    ensures Swept(ctx, start, all, pending, visits, err)
    ensures Orders(order, consumers.Keys) && Visited(visits) == Visited(earlier) + ConsumersIn(consumers, order)
  {
    err, visits, order := firstErr, earlier, [];
    var rest := consumers.Keys;
    ghost var seen: set<string> := {};
    while rest != {}
      invariant rest + seen == consumers.Keys && rest !! seen && Orders(order, seen)
      invariant Swept(ctx, start, all, pending, visits, err)
      invariant Visited(visits) == Visited(earlier) + ConsumersIn(consumers, order)
      decreases rest
    {
      var name :| name in rest;
      err, visits := CloseConsumersOf(ctx, consumers[name], err, start, all, pending, visits);
      OneMoreName(order, seen, name);
      ConsumersSnoc(consumers, order, name, Visited(earlier));
      order, seen, rest := order + [name], seen + {name}, rest - {name};
    }
  }

  lemma ConsumersSnoc(consumers: Consumers, order: seq<string>, name: string, before: seq<Client>)
    requires name in consumers && forall n :: n in order ==> n in consumers
    ensures before + ConsumersIn(consumers, order + [name])
            == before + ConsumersIn(consumers, order) + consumers[name]
  {
    assert (order + [name])[..|order|] == order;
  }

  method CloseConsumersOf(ctx: Context, clients: seq<Client>, firstErr: Option<StopError>,
                          ghost start: nat, ghost all: set<Client>,
                          ghost pending: map<Client, Option<CloseError>>, ghost earlier: seq<Visit>)
    returns (err: Option<StopError>, ghost visits: seq<Visit>)
    requires Swept(ctx, start, all, pending, earlier, firstErr) && forall c :: c in clients ==> c in all
    modifies ctx, all
    ensures Swept(ctx, start, all, pending, visits, err) && Visited(visits) == Visited(earlier) + clients
  {
    err, visits := firstErr, earlier;
    for i := 0 to |clients|
      invariant Swept(ctx, start, all, pending, visits, err) && Visited(visits) == Visited(earlier) + clients[..i]
    {
      ghost var before := Visited(visits);
      err, visits := CloseOneClient(ctx, clients[i], err, start, all, pending, visits);
      OneFurther(Visited(earlier), before, Visited(visits), clients, i);
    }
    assert clients[..|clients|] == clients;
  }

  lemma OneFurther(earlier: seq<Client>, before: seq<Client>, now: seq<Client>, clients: seq<Client>, i: nat)
    requires i < |clients| && before == earlier + clients[..i] && now == before + [clients[i]]
    ensures now == earlier + clients[..i + 1]
  {
    assert clients[..i + 1] == clients[..i] + [clients[i]];
  }

  datatype Wait = Drained | Expired | StillWaiting

  /** `waitInflight`, with what the in-flight count is at each look. The goroutine that waits for
      zero may take its time, and a select takes any case that is ready. It does not wait on a
      dead context, and it is still waiting only when the counts have run out on a live one. */
  method WaitInflight(ctx: Context, counts: seq<nat>) returns (w: Wait)
    modifies ctx
    ensures Waited(ctx, old(ctx.looks), counts, w)
  {
    ghost var start := ctx.looks;
    var zeroSeen := false;
    for i := 0 to |counts|
      invariant zeroSeen <==> 0 in counts[..i]
      invariant ctx.looks == start + i && (i > 0 ==> !ctx.DeadAt(start + i - 1))
    {
      assert counts[..i + 1] == counts[..i] + [counts[i]];
      zeroSeen := zeroSeen || counts[i] == 0;
      var dead := ctx.Err();
      if {
        case zeroSeen => return Drained;
        case dead => return Expired;
        case !dead =>
      }
    }
    return StillWaiting;
  }

  /** How a wait that took its looks from the given one on can have ended. */
  ghost predicate Waited(ctx: Context, start: nat, counts: seq<nat>, w: Wait)
    reads ctx
  {
    && start <= ctx.looks <= start + |counts|
    && (start + 1 < ctx.looks ==> !ctx.DeadAt(ctx.looks - 2))
    && match w {
         case Drained => 0 in counts[..ctx.looks - start]
         case Expired => ctx.looks > start && ctx.DeadAt(ctx.looks - 1)
         case StillWaiting =>
           ctx.looks == start + |counts| && (start < ctx.looks ==> !ctx.DeadAt(ctx.looks - 1))
       }
  }

  /** What a shutdown answers, from what its closes found, how its wait ended, and whether the
      context was dead at the last look. */
  function Answer(firstErr: Option<StopError>, w: Wait, dead: bool): Result {
    if w.StillWaiting? then Waiting
    else
      var err := if firstErr.None? && w.Expired? then Some(TimedOut) else firstErr;
      if dead then Failed(if err.Some? then CancelledAfter(err.value) else Cancelled)
      else if err.Some? then Failed(err.value)
      else Nil
  }

  ghost predicate AllClosed(all: set<Client>)
    reads all
  {
    forall c :: c in all ==> c.Valid() && c.done && c.bodies == 1 && c.Pending() == None
  }

  /** `closeClients`. */
  method CloseClients(ctx: Context, publishers: Publishers, consumers: Consumers,
                      ghost all: set<Client>, ghost pending: map<Client, Option<CloseError>>)
    returns (err: Option<StopError>, ghost visits: seq<Visit>, ghost order: (seq<string>, seq<string>))
    requires all == AllClients(publishers, consumers) && Progress(all, pending, [])
    modifies ctx, all
    ensures AllClosed(all) && Truthful(visits, pending)
    ensures err == First(AllProblems(visits)) && Looked(ctx, old(ctx.looks), visits)
    ensures Orders(order.0, publishers.Keys) && Orders(order.1, consumers.Keys)
    ensures Visited(visits) == PublishersIn(publishers, order.0) + ConsumersIn(consumers, order.1)
  {
    ghost var start := ctx.looks;
    var firstErr, visits1, order1 := ClosePublishers(ctx, publishers, all, pending);
    var lastErr, visits2, order2 := CloseConsumers(ctx, consumers, firstErr, start, all, pending, visits1);
    err, visits, order := lastErr, visits2, (order1, order2);
    EveryoneVisited(publishers, consumers, order1, order2);
  }

  /** What a shutdown did with this context: each visit, then the wait, then the answer took the
      looks in turn, from the given one on; the last look decides what is answered. */
  ghost predicate Answered(ctx: Context, start: nat, counts: seq<nat>, visits: seq<Visit>, w: Wait, r: Result)
    reads ctx
  {
    && SawDeaths(ctx.diesAfter, start, visits)
    && start + |visits| < ctx.looks <= start + |visits| + |counts| + 1
    && (w.Drained? ==> 0 in counts[..ctx.looks - 1 - start - |visits|])
    && (w.Expired? ==> ctx.looks > start + |visits| + 1 && ctx.DeadAt(ctx.looks - 2))
    && (w.StillWaiting? ==> ctx.looks == start + |visits| + |counts| + 1 && (counts != [] ==> !ctx.DeadAt(ctx.looks - 2)))
    && r == Answer(First(AllProblems(visits)), w, ctx.DeadAt(ctx.looks - 1))
  }

  /** `Shutdown`, from the snapshot of the two maps, for every order of both: every client is
      closed whatever fails, each close body has run once in all, and nil is answered exactly when
      no close failed, the count was zero at a look after the closes, and this context was live at
      the last look, so at every one. */
  method Stop(ctx: Context, publishers: Publishers, consumers: Consumers, counts: seq<nat>)
    returns (r: Result, ghost visits: seq<Visit>, ghost order: (seq<string>, seq<string>), ghost w: Wait)
    requires forall c :: c in AllClients(publishers, consumers) ==> c.Valid()
    modifies ctx, AllClients(publishers, consumers)
    ensures AllClosed(AllClients(publishers, consumers))
    ensures Orders(order.0, publishers.Keys) && Orders(order.1, consumers.Keys)
    ensures Visited(visits) == PublishersIn(publishers, order.0) + ConsumersIn(consumers, order.1)
    ensures Truthful(visits, old(map c | c in AllClients(publishers, consumers) :: c.Pending()))
    ensures Answered(ctx, old(ctx.looks), counts, visits, w, r)
    ensures r == Nil <==> w.Drained? && (forall v :: v in visits ==> v.err == None) && !ctx.DeadAt(ctx.looks - 1)
  {
    ghost var all := AllClients(publishers, consumers);
    ghost var pending := map c | c in all :: c.Pending();
    var err;
    err, visits, order := CloseClients(ctx, publishers, consumers, all, pending);
    r, w := WaitAndAnswer(ctx, err, counts, old(ctx.looks), visits);
    NilMeansClean(visits, w, ctx.DeadAt(ctx.looks - 1));
    LiveThroughout(ctx, old(ctx.looks), visits);
  }

  /** The rest of `Shutdown` after the closes. */
  method WaitAndAnswer(ctx: Context, firstErr: Option<StopError>, counts: seq<nat>,
                       ghost start: nat, ghost visits: seq<Visit>)
    returns (r: Result, ghost w: Wait)
    requires Looked(ctx, start, visits) && firstErr == First(AllProblems(visits))
    modifies ctx
    ensures Answered(ctx, start, counts, visits, w, r)
  {
    var err := firstErr;
    var wait := WaitInflight(ctx, counts);
    w := wait;
    if wait.Expired? && err.None? { err := Some(TimedOut); }
    var dead := ctx.Err();
    r := if wait.StillWaiting? then Waiting
         else if dead then Failed(if err.Some? then CancelledAfter(err.value) else Cancelled)
         else if err.Some? then Failed(err.value)
         else Nil;
  }

  /** A context that is live at the last look was live at every visit. */
  lemma LiveThroughout(ctx: Context, start: nat, visits: seq<Visit>)
    requires SawDeaths(ctx.diesAfter, start, visits)
    requires start + |visits| < ctx.looks
    ensures !ctx.DeadAt(ctx.looks - 1) ==> forall v :: v in visits ==> !v.dead
  {
  }

  lemma NilMeansClean(visits: seq<Visit>, w: Wait, dead: bool)
    ensures Answer(First(AllProblems(visits)), w, dead) == Nil
            <==> w.Drained? && !dead && forall v :: v in visits ==> !v.dead && v.err == None
  {
    NoProblems(visits);
    assert forall v :: v in visits ==> (Problems(v) == [] <==> !v.dead && v.err == None);
  }

  /** The first visit in trouble complained of x: of the context if that was dead, else of its close. */
  ghost predicate FirstTrouble(visits: seq<Visit>, x: StopError) {
    exists i :: 0 <= i < |visits|
      && (forall j :: 0 <= j < i ==> !visits[j].dead && visits[j].err == None)
      && if visits[i].dead then x == Cancelled
         else visits[i].err.Some? && x == Closing(visits[i].client, visits[i].err.value)
  }

  lemma FirstTroubleIs(visits: seq<Visit>, x: StopError)
    ensures FirstTrouble(visits, x) <==> First(AllProblems(visits)) == Some(x)
  {
    if AllProblems(visits) != [] {
      var i := FirstIsEarliest(visits);
      NoProblems(visits[..i]);
      forall j | 0 <= j < i ensures !visits[j].dead && visits[j].err == None {
        assert Problems(visits[..i][j]) == [];
      }
      assert FirstTrouble(visits, AllProblems(visits)[0]);
    } else {
      NoProblems(visits);
      assert forall i :: 0 <= i < |visits| ==> Problems(visits[i]) == [];
    }
    assert forall v :: v in visits ==> (Problems(v) == [] <==> !v.dead && v.err == None);
    if FirstTrouble(visits, x) { FirstTroubleIsFirst(visits, x); }
  }

  lemma FirstTroubleIsFirst(visits: seq<Visit>, x: StopError)
    requires FirstTrouble(visits, x)
    ensures First(AllProblems(visits)) == Some(x)
  {
    var i :| 0 <= i < |visits|
      && (forall j :: 0 <= j < i ==> !visits[j].dead && visits[j].err == None)
      && if visits[i].dead then x == Cancelled
         else visits[i].err.Some? && x == Closing(visits[i].client, visits[i].err.value);
    NoProblems(visits);
    assert Problems(visits[i]) != [];
    var k := FirstIsEarliest(visits);
    NoProblems(visits[..k]);
    assert forall j :: 0 <= j < k ==> visits[..k][j] == visits[j];
  }

  /** What an ended shutdown answers, whatever it is: nil, the first trouble of the closes or else the
      timeout of the wait, and behind a dead last look either of them or nothing. */
  lemma AnswerIs(visits: seq<Visit>, w: Wait, dead: bool, x: StopError)
    requires !w.StillWaiting?
    ensures var r := Answer(First(AllProblems(visits)), w, dead);
            var clean := forall v :: v in visits ==> !v.dead && v.err == None;
            && (r == Failed(x) && !dead <==>
                  !dead && (FirstTrouble(visits, x) || (clean && w.Expired? && x == TimedOut)))
            && (r == Failed(CancelledAfter(x)) && dead <==>
                  dead && (FirstTrouble(visits, x) || (clean && w.Expired? && x == TimedOut)))
            && (r == Failed(Cancelled) && dead <==> dead && clean && w.Drained?)
            && r != Waiting
  {
    FirstTroubleIs(visits, x);
    NoProblems(visits);
    assert forall v :: v in visits ==> (Problems(v) == [] <==> !v.dead && v.err == None);
  }

  /** The consumers of each queue are visited one after the other in their order, queue after queue in
      the order of the queues: before those of the i-th come those of the queues before it. */
  lemma {:induction false} ConsumersInOrder(consumers: Consumers, order: seq<string>, i: nat) returns (k: nat)
    requires i < |order| && forall n :: n in order ==> n in consumers
    ensures var all := ConsumersIn(consumers, order);
            var those := consumers[order[i]];
            && k + |those| <= |all| && all[k..k + |those|] == those && all[..k] == ConsumersIn(consumers, order[..i])
            && (i == |order| - 1 ==> k + |those| == |all|)
  {
    var (front, last) := (order[..|order| - 1], consumers[order[|order| - 1]]);
    if i == |order| - 1 {
      k := |ConsumersIn(consumers, front)|;
    } else {
      k := ConsumersInOrder(consumers, front, i);
      assert front[..i] == order[..i];
      assert ConsumersIn(consumers, order) == ConsumersIn(consumers, front) + last;
    }
  }

  lemma EveryoneVisited(publishers: Publishers, consumers: Consumers, order1: seq<string>, order2: seq<string>)
    requires Orders(order1, publishers.Keys) && Orders(order2, consumers.Keys)
    ensures forall c :: c in AllClients(publishers, consumers) ==>
              c in PublishersIn(publishers, order1) + ConsumersIn(consumers, order2)
  {
    forall c | c in AllClients(publishers, consumers)
      ensures c in PublishersIn(publishers, order1) + ConsumersIn(consumers, order2)
    {
      if name :| name in publishers && publishers[name] == c {
        var i :| 0 <= i < |order1| && order1[i] == name;
        assert PublishersIn(publishers, order1)[i] == c;
      } else {
        var name, i :| name in consumers && 0 <= i < |consumers[name]| && consumers[name][i] == c;
        ConsumersOfOneQueue(consumers, order2, name);
      }
    }
  }

  lemma {:induction false} ConsumersOfOneQueue(consumers: Consumers, order: seq<string>, name: string)
    requires name in order && forall n :: n in order ==> n in consumers
    ensures forall c :: c in consumers[name] ==> c in ConsumersIn(consumers, order)
  {
    if name != order[|order| - 1] {
      ConsumersOfOneQueue(consumers, order[..|order| - 1], name);
    }
  }
}
