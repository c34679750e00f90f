/** The publish loop of one push with its header tables in memory (client.go, push, unsafePush,
    waitPublishConfirm). Selects and calls to the broker take their outcome from
    a script, one entry per attempt. Times are nanoseconds. */
module PushLoop {
  import opened Basics
  import opened Configuration
  import opened Stamp
  import opened Tables

  const MAX_PRIORITY: nat := 9
  const DEFAULT_CONTENT_TYPE: string := "text/plain"

  datatype Message = Message(body: string, contentType: string, maxRetryDuration: Option<int>, priority: Option<nat>)

  /** What PublishWithContext is called with; mandatory and persistent always. */
  datatype Publishing = Publishing(routingKey: string, contentType: string, body: string, priority: nat, headers: Table)

  datatype Confirm = Acked | Nacked | Interrupted
  datatype Pause = Elapsed | Stopped

  /** One attempt: what isReady reads, the clock, whether the publish call succeeds, what the
      confirm wait takes (a done or cancelled wait is Interrupted), and the pause before the next. */
  datatype Attempt = Attempt(up: bool, now: int, sent: bool, confirm: Confirm, pause: Pause)

  datatype Result = Nil | Failed | Running

  /** What a client publishes with: its queue, its retry mode, and how a deadline is written,
      which is FormatRfc3339 for every client the constructor makes. */
  datatype Sender = Sender(queue: string, retry: Option<RetryConfig>, stamp: int -> string)

  class Publisher {
    const sender: Sender
    var published: seq<Publishing>

    constructor (queue: string, retry: Option<RetryConfig>)
      ensures sender == Sender(queue, retry, FormatRfc3339) && published == []
    {
      sender, published := Sender(queue, retry, FormatRfc3339), [];
    }

    /** `unsafePush`: true when the publish call was made and succeeded. */
    method UnsafePush(msg: Message, contextHeaders: HeaderMap, a: Attempt) returns (ok: bool)
      modifies this`published
      ensures published == old(published) + AttemptPublishes(sender, msg, contextHeaders.entries, a)
      ensures ok <==> Publishes(msg, a) && a.sent
    {
      AttemptIs(sender, msg, contextHeaders.entries, a);
      if !a.up { return false; }
      var headers := contextHeaders.Copy();
      var priority := 0;
      if msg.priority.Some? {
        if msg.priority.value > MAX_PRIORITY { return false; }
        priority := msg.priority.value;
      }
      if sender.retry.Some? {
        var duration := sender.retry.value.maxDuration;
        if msg.maxRetryDuration.Some? { duration := msg.maxRetryDuration.value; }
        headers.entries := headers.entries[EXPIRED := Text(sender.stamp(a.now + duration))];
      }
      var contentType := if msg.contentType == "" then DEFAULT_CONTENT_TYPE else msg.contentType;
      published := published + [Publishing(sender.queue, contentType, msg.body, priority, headers.entries)];
      return a.sent;
    }

    /** `push` once the client is ready and the headers are built; made is how many of the attempts it
        comes to. */
    method Push(msg: Message, contextHeaders: HeaderMap, attempts: seq<Attempt>) returns (r: Result, made: nat)
      modifies this`published
      ensures contextHeaders.entries == old(contextHeaders.entries)
      ensures Makes(msg, attempts, made) && ResultIs(msg, attempts, made, r)
      ensures published == old(published) + Published(sender, msg, contextHeaders.entries, attempts, made)
    {
      made := 0;
      while made < |attempts|
        invariant made <= |attempts| && contextHeaders.entries == old(contextHeaders.entries)
        invariant forall i :: 0 <= i < made ==> GoesOn(msg, attempts[i])
        invariant published == old(published) + Published(sender, msg, contextHeaders.entries, attempts, made)
      {
        var a := attempts[made];
        Associative(old(published), Published(sender, msg, contextHeaders.entries, attempts, made),
                    AttemptPublishes(sender, msg, contextHeaders.entries, a));
        var ok := UnsafePush(msg, contextHeaders, a);
        made := made + 1;
        if ok && a.confirm.Acked? { return Nil, made; }
        if a.pause.Stopped? { return Failed, made; }
      }
      return Running, made;
    }
  }

  // ---- The specification of the loop ------------------------------------------------------------------

  function RetryDuration(retry: RetryConfig, msg: Message): int {
    if msg.maxRetryDuration.Some? then msg.maxRetryDuration.value else retry.maxDuration
  }

  /** The headers an attempt publishes: the context's, with its own deadline in retry mode. */
  function AttemptHeaders(sender: Sender, msg: Message, entries: Table, now: int): Table {
    match sender.retry
    case None => entries
    case Some(config) => entries[EXPIRED := Text(sender.stamp(now + RetryDuration(config, msg)))]
  }

  predicate ValidPriority(msg: Message) {
    msg.priority.None? || msg.priority.value <= MAX_PRIORITY
  }

  function AttemptPublishes(sender: Sender, msg: Message, entries: Table, a: Attempt): seq<Publishing> {
    if !a.up || !ValidPriority(msg) then []
    else [Publishing(sender.queue, if msg.contentType == "" then DEFAULT_CONTENT_TYPE else msg.contentType, msg.body,
                     if msg.priority.Some? then msg.priority.value else 0,
                     AttemptHeaders(sender, msg, entries, a.now))]
  }

  /** The publishes of the first n attempts. */
  function Published(sender: Sender, msg: Message, entries: Table, attempts: seq<Attempt>, n: nat): seq<Publishing>
    requires n <= |attempts|
  {
    if n == 0 then []
    else Published(sender, msg, entries, attempts, n - 1) + AttemptPublishes(sender, msg, entries, attempts[n - 1])
  }

  // ---- What a push does, attempt by attempt ------------------------------------------------------------

  /** The attempt gets to its publish call. */
  predicate Publishes(msg: Message, a: Attempt) {
    a.up && (msg.priority.Some? ==> msg.priority.value <= 9)
  }

  /** It publishes, and its wait takes an acknowledgement. */
  predicate Delivers(msg: Message, a: Attempt) {
    Publishes(msg, a) && a.sent && a.confirm.Acked?
  }

  predicate GoesOn(msg: Message, a: Attempt) {
    !Delivers(msg, a) && !a.pause.Stopped?
  }

  /** The push makes n of the attempts: all, or those up to the first that is the last. */
  ghost predicate Makes(msg: Message, attempts: seq<Attempt>, n: nat) {
    && n <= |attempts| && (forall i :: 0 <= i < n - 1 ==> GoesOn(msg, attempts[i]))
    && (n < |attempts| ==> n > 0 && !GoesOn(msg, attempts[n - 1]))
  }

  /** The message as it goes out, with the context's headers, and in retry mode with the deadline of
      this attempt: the message's own duration, or else the queue's, after its clock. */
  ghost predicate GoesOut(sender: Sender, msg: Message, entries: Table, now: int, pub: Publishing) {
    && pub.routingKey == sender.queue && pub.body == msg.body
    && pub.contentType == (if msg.contentType != "" then msg.contentType else "text/plain")
    && pub.priority == (match msg.priority case None => 0 case Some(p) => p)
    && pub.headers.Keys == (if sender.retry.Some? then entries.Keys + {"expired"} else entries.Keys)
    && (forall key :: key in entries && (key != "expired" || sender.retry.None?) ==> pub.headers[key] == entries[key])
    && (sender.retry.Some? ==>
          pub.headers["expired"] == Text(match msg.maxRetryDuration
                                         case None => sender.stamp(now + sender.retry.value.maxDuration)
                                         case Some(d) => sender.stamp(now + d)))
  }

  /** The publishing attempts among the first n, in order. */
  ghost predicate PublishingOnes(msg: Message, attempts: seq<Attempt>, n: nat, from: seq<nat>) {
    && n <= |attempts|
    && (forall i :: 0 <= i < |from| ==> from[i] < n && Publishes(msg, attempts[from[i]]))
    && (forall i, j :: 0 <= i < j < |from| ==> from[i] < from[j])
    && (forall i :: 0 <= i < n && Publishes(msg, attempts[i]) ==> i in from)
  }

  /** One publish for each of these attempts, as it goes out. */
  ghost predicate AllGoOut(sender: Sender, msg: Message, entries: Table, attempts: seq<Attempt>,
                           from: seq<nat>, pubs: seq<Publishing>) {
    && |from| == |pubs| && (forall i :: 0 <= i < |from| ==> from[i] < |attempts|)
    && (forall i :: 0 <= i < |from| ==> GoesOut(sender, msg, entries, attempts[from[i]].now, pubs[i]))
  }

  /** The result, by the last attempt made. */
  ghost predicate ResultIs(msg: Message, attempts: seq<Attempt>, n: nat, r: Result)
    requires n <= |attempts|
  {
    if n == 0 || GoesOn(msg, attempts[n - 1]) then r == Running
    else r == if Delivers(msg, attempts[n - 1]) then Nil else Failed
  }

  lemma AttemptIs(sender: Sender, msg: Message, entries: Table, a: Attempt)
    ensures var pubs := AttemptPublishes(sender, msg, entries, a);
            if Publishes(msg, a) then |pubs| == 1 && GoesOut(sender, msg, entries, a.now, pubs[0]) else pubs == []
  {
  }

  /** Which of the first n attempts publish. */
  ghost function Ones(msg: Message, attempts: seq<Attempt>, n: nat): seq<nat>
    requires n <= |attempts|
  {
    if n == 0 then [] else Ones(msg, attempts, n - 1) + if Publishes(msg, attempts[n - 1]) then [n - 1] else []
  }

  lemma {:induction false} OnesArePublishing(msg: Message, attempts: seq<Attempt>, n: nat)
    requires n <= |attempts|
    ensures PublishingOnes(msg, attempts, n, Ones(msg, attempts, n))
  {
    if n > 0 {
      OnesArePublishing(msg, attempts, n - 1);
      var (before, ones) := (Ones(msg, attempts, n - 1), Ones(msg, attempts, n));
      forall i | 0 <= i < n && Publishes(msg, attempts[i]) ensures i in ones {
        if i < n - 1 { assert i in before; } else { assert ones[|before|] == i; }
      }
    }
  }

  /** Each attempt that finds the client up with a valid priority publishes once, in the order of the
      attempts and as the sender and the message say, and nothing else is published. */
  lemma {:induction false} PublishesOfPush(sender: Sender, msg: Message, entries: Table, attempts: seq<Attempt>, n: nat)
    requires n <= |attempts|
    ensures PublishingOnes(msg, attempts, n, Ones(msg, attempts, n))
    ensures AllGoOut(sender, msg, entries, attempts, Ones(msg, attempts, n),
                     Published(sender, msg, entries, attempts, n))
  {
    OnesArePublishing(msg, attempts, n);
    if n > 0 {
      PublishesOfPush(sender, msg, entries, attempts, n - 1);
      var a := attempts[n - 1];
      AttemptIs(sender, msg, entries, a);
      if Publishes(msg, a) {
        OneMoreOut(sender, msg, entries, attempts, Ones(msg, attempts, n - 1),
                   Published(sender, msg, entries, attempts, n - 1), n - 1, AttemptPublishes(sender, msg, entries, a)[0]);
      }
    }
  }

  lemma OneMoreOut(sender: Sender, msg: Message, entries: Table, attempts: seq<Attempt>, from: seq<nat>,
                   pubs: seq<Publishing>, i: nat, pub: Publishing)
    requires AllGoOut(sender, msg, entries, attempts, from, pubs)
    requires i < |attempts| && GoesOut(sender, msg, entries, attempts[i].now, pub)
    ensures AllGoOut(sender, msg, entries, attempts, from + [i], pubs + [pub])
  {
  }

  /** A push returns nil if and only if some attempt finds the client up, with a valid priority, is
      sent and acknowledged, and no pause before it was cut short; and it is then its last. */
  lemma NilIff(msg: Message, attempts: seq<Attempt>, n: nat, r: Result)
    requires Makes(msg, attempts, n) && ResultIs(msg, attempts, n, r)
    ensures r == Nil <==>
              exists i :: 0 <= i < |attempts| && Delivers(msg, attempts[i])
                          && forall j :: 0 <= j < i ==> !attempts[j].pause.Stopped?
    ensures forall i :: 0 <= i < |attempts| && Delivers(msg, attempts[i]) ==> n <= i + 1
  {
    forall i | 0 <= i < |attempts| && Delivers(msg, attempts[i]) ensures n <= i + 1 {
      assert !GoesOn(msg, attempts[i]);
    }
    if i :| 0 <= i < |attempts| && Delivers(msg, attempts[i]) && forall j :: 0 <= j < i ==> !attempts[j].pause.Stopped? {
      if 0 < n < i + 1 { assert !attempts[n - 1].pause.Stopped?; }
    }
  }

  /** With a clock that does not go back the deadlines of the publishes do not decrease. */
  lemma DeadlinesInOrder(sender: Sender, msg: Message, entries: Table, attempts: seq<Attempt>, n: nat, i: nat, j: nat)
    requires n <= |attempts| && i < j < |Published(sender, msg, entries, attempts, n)| && sender.retry.Some?
    requires forall k, l :: 0 <= k < l < |attempts| ==> attempts[k].now <= attempts[l].now
    ensures var pubs := Published(sender, msg, entries, attempts, n);
            exists d, e :: d <= e && "expired" in pubs[i].headers && "expired" in pubs[j].headers
                           && pubs[i].headers["expired"] == Text(sender.stamp(d))
                           && pubs[j].headers["expired"] == Text(sender.stamp(e))
  {
    PublishesOfPush(sender, msg, entries, attempts, n);
    var (from, pubs) := (Ones(msg, attempts, n), Published(sender, msg, entries, attempts, n));
    var d := DeadlineOf(sender, msg, entries, attempts[from[i]].now, pubs[i]);
    var e := DeadlineOf(sender, msg, entries, attempts[from[j]].now, pubs[j]);
  }

  lemma DeadlineOf(sender: Sender, msg: Message, entries: Table, now: int, pub: Publishing) returns (d: int)
    requires GoesOut(sender, msg, entries, now, pub) && sender.retry.Some?
    ensures d == now + (match msg.maxRetryDuration case None => sender.retry.value.maxDuration case Some(d) => d)
    ensures "expired" in pub.headers && pub.headers["expired"] == Text(sender.stamp(d))
  {
    d := now + (match msg.maxRetryDuration case None => sender.retry.value.maxDuration case Some(d) => d);
  }

  /** A priority above 9 is never published, and the push never returns nil. */
  lemma {:induction false} InvalidPriority(sender: Sender, msg: Message, entries: Table, attempts: seq<Attempt>,
                                           n: nat, r: Result)
    requires msg.priority.Some? && msg.priority.value > 9
    requires Makes(msg, attempts, n) && ResultIs(msg, attempts, n, r)
    ensures Published(sender, msg, entries, attempts, n) == [] && r != Nil
  {
    NothingPublished(sender, msg, entries, attempts, n);
  }

  lemma {:induction false} NothingPublished(sender: Sender, msg: Message, entries: Table, attempts: seq<Attempt>, n: nat)
    requires msg.priority.Some? && msg.priority.value > 9 && n <= |attempts|
    ensures Published(sender, msg, entries, attempts, n) == []
  {
    if n > 0 { NothingPublished(sender, msg, entries, attempts, n - 1); }
  }
}
