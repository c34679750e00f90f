/** The consumer loop of one worker and its backoff (consumer_loop.go). What the selects take and
    what the calls return comes from a script, one entry for each time the code looks; a script
    that ends stands for a run that is still going. Durations are nanoseconds. */
module ConsumerLoop {
  import opened Basics

  const SECOND: int := 1_000_000_000
  const MAX_BACKOFF: int := 30 * SECOND
  const INITIAL_DELAY: int := SECOND
  const BACKOFF_FACTOR: int := 2

  function NextBackoff(current: int): int {
    var next := current * BACKOFF_FACTOR;
    if next > MAX_BACKOFF then MAX_BACKOFF else next
  }

  /** One pass of waitUntilClientReady: the client is ready, or the select takes a stop signal
      (the consumer's context or the client's done), or the timer. */
  datatype Poll = Ready | Stop | Timer

  /** What a subscription ends with. */
  datatype Ending = Cancelled | ChannelLost

  /** One round of runConsumerLoop: whether the context is already done, the polls until ready,
      whether consume fails and whether a stop signal ends the pause after that, and else how the
      subscription ends after how many deliveries. */
  datatype Round = Round(cancelled: bool, polls: seq<Poll>, consumeFails: bool, stopped: bool,
                         deliveries: nat, ending: Ending)

  /** How a worker stands after its script: stopped, with or without closing its client, or
      still running. */
  datatype Outcome = Closed | Left | Running

  // ---- The wait ------------------------------------------------------------------------------------

  function Double(d: int, k: nat): int
    decreases k
  {
    if k == 0 then d else Double(2 * d, k - 1)
  }

  /** k applications of NextBackoff. */
  function Backoffs(d: int, k: nat): int
    decreases k
  {
    if k == 0 then d else Backoffs(NextBackoff(d), k - 1)
  }

  lemma {:induction false} DoubleGrows(d: int, k: nat)
    requires d >= 0
    ensures Double(d, k) >= d
    decreases k
  {
    if k > 0 { DoubleGrows(2 * d, k - 1); }
  }

  lemma {:induction false} StaysAtMax(k: nat)
    ensures Backoffs(MAX_BACKOFF, k) == MAX_BACKOFF
  {
    if k > 0 { StaysAtMax(k - 1); }
  }

  /** After k failed polls from a delay d the delay is d doubled k times, capped at 30 seconds. */
  lemma {:induction false} BackoffClosedForm(d: int, k: nat)
    requires 0 < d <= 30_000_000_000
    ensures Backoffs(d, k) == if Double(d, k) <= 30_000_000_000 then Double(d, k) else 30_000_000_000
    ensures d <= Backoffs(d, k) <= 30_000_000_000
    decreases k
  {
    if k > 0 {
      if 2 * d <= MAX_BACKOFF {
        BackoffClosedForm(2 * d, k - 1);
      } else {
        StaysAtMax(k - 1);
        DoubleGrows(2 * d, k - 1);
      }
    }
  }

  /** The polls before the first that is not the timer. */
  function TimersIn(polls: seq<Poll>): (n: nat)
    ensures n <= |polls| && (forall i :: 0 <= i < n ==> polls[i].Timer?) && (n < |polls| ==> !polls[n].Timer?)
  {
    if polls != [] && polls[0].Timer? then 1 + TimersIn(polls[1..]) else 0
  }

  /** `waitUntilClientReady`: each delay slept is the closed form's, and the result is 0 exactly
      when a stop signal was taken, else the initial delay. */
  method WaitUntilReady(backoff: int, polls: seq<Poll>) returns (next: Option<int>, slept: seq<int>)
    requires SECOND <= backoff <= MAX_BACKOFF
    ensures var n := TimersIn(polls);
            && |slept| == n
            && (next.None? <==> n == |polls|)
            && (next == Some(0) <==> n < |polls| && polls[n].Stop?)
            && (next.Some? && next != Some(0) ==> next == Some(1_000_000_000) && polls[n].Ready?)
    ensures forall k :: 0 <= k < |slept| ==>
              slept[k] == Backoffs(backoff, k) && 1_000_000_000 <= slept[k] <= 30_000_000_000
  {
    slept := [];
    var delay := backoff;
    var i := 0;
    while i < |polls|
      invariant i <= |polls| && |slept| == i && TimersIn(polls) == i + TimersIn(polls[i..])
      invariant delay == Backoffs(backoff, i) && SECOND <= delay <= MAX_BACKOFF
      invariant forall k :: 0 <= k < i ==> slept[k] == Backoffs(backoff, k) && SECOND <= slept[k] <= MAX_BACKOFF
    {
      match polls[i]
      case Ready => return Some(INITIAL_DELAY), slept;
      case Stop => return Some(0), slept;
      case Timer =>
        slept := slept + [delay];
        BackoffsSnoc(backoff, i);
        assert polls[i..][1..] == polls[i + 1..];
        delay := NextBackoff(delay);
        i := i + 1;
    }
    return None, slept;
  }

  lemma {:induction false} BackoffsSnoc(d: int, k: nat)
    ensures Backoffs(d, k + 1) == NextBackoff(Backoffs(d, k))
    decreases k
  {
    if k > 0 { BackoffsSnoc(NextBackoff(d), k - 1); }
  }

  /** `sleepConsumerBackoff`, when the select takes a stop signal and when it takes the timer. */
  function SleepBackoff(backoff: int, stopped: bool): int {
    if stopped then 0 else NextBackoff(backoff)
  }

  // ---- The loop ----------------------------------------------------------------------------------------

  /** A run of the worker: the delay it entered each wait with, the deliveries it handled, whether
      it closed its client, and how it stands. */
  datatype Trace = Trace(entered: seq<int>, handled: nat, closed: bool, outcome: Outcome)

  /** The wait of the round ends with the client ready. */
  predicate GetsReady(r: Round) {
    !r.cancelled && TimersIn(r.polls) < |r.polls| && r.polls[TimersIn(r.polls)].Ready?
  }

  /** The worker gets a subscription and handles its deliveries. */
  predicate Subscribes(r: Round) {
    GetsReady(r) && !r.consumeFails
  }

  /** Another round follows: after a failed consume whose pause was not cut short, and after a
      subscription that ended because its channel was lost. */
  predicate GoesOn(r: Round) {
    GetsReady(r) && if r.consumeFails then !r.stopped else r.ending.ChannelLost?
  }

  /** The client is closed: the context was cancelled before the wait or during the deliveries. */
  predicate Closes(r: Round) {
    r.cancelled || (Subscribes(r) && r.ending.Cancelled?)
  }

  /** The script ends while the worker still waits. */
  predicate StillWaits(r: Round) {
    !r.cancelled && TimersIn(r.polls) == |r.polls|
  }

  /** The worker comes to made of the rounds: all, or those up to the first that is its last. */
  ghost predicate Makes(rounds: seq<Round>, made: nat) {
    && made <= |rounds| && (forall i :: 0 <= i < made - 1 ==> GoesOn(rounds[i]))
    && (made < |rounds| ==> made > 0 && !GoesOn(rounds[made - 1]))
  }

  /** The deliveries of the first n rounds that subscribe. */
  function Handled(rounds: seq<Round>, n: nat): nat
    requires n <= |rounds|
  {
    if n == 0 then 0
    else Handled(rounds, n - 1) + if Subscribes(rounds[n - 1]) then rounds[n - 1].deliveries else 0
  }

  /** The delays with which the worker enters the waits of its first n rounds: two seconds after a
      failed consume, and else one, since a wait that succeeds starts over. */
  ghost predicate Enters(rounds: seq<Round>, n: nat, entered: seq<int>)
    requires n <= |rounds|
  {
    && |entered| == n
    && forall i :: 0 <= i < n ==> entered[i] == if i > 0 && rounds[i - 1].consumeFails then 2_000_000_000 else 1_000_000_000
  }

  /** How the worker stands, by its last round. */
  ghost predicate Stands(rounds: seq<Round>, made: nat, outcome: Outcome)
    requires made <= |rounds|
  {
    outcome == if made == 0 || GoesOn(rounds[made - 1]) || StillWaits(rounds[made - 1]) then Running
               else if Closes(rounds[made - 1]) then Closed else Left
  }

  /** `runConsumerLoop` with `processDeliveries`: after a lost channel or a failed consume there is
      another round, and after anything else there is none; every delivery of every subscription is
      handled; and the client is closed exactly when a cancelled context stops the worker outside a
      wait or pause. */
  method Run(rounds: seq<Round>) returns (t: Trace, made: nat)
    ensures Makes(rounds, made) && Stands(rounds, made, t.outcome) && (t.closed <==> t.outcome == Closed)
    ensures t.handled == Handled(rounds, made)
    ensures Enters(rounds, if made > 0 && rounds[made - 1].cancelled then made - 1 else made, t.entered)
  {
    t, made := Trace([], 0, false, Running), 0;
    var backoff := INITIAL_DELAY;
    while made < |rounds|
      invariant made <= |rounds| && !t.closed && forall i :: 0 <= i < made ==> GoesOn(rounds[i])
      invariant t.handled == Handled(rounds, made) && Enters(rounds, made, t.entered)
      invariant backoff == if made > 0 && rounds[made - 1].consumeFails then 2 * SECOND else SECOND
    {
      var r := rounds[made];
      made := made + 1;
      if r.cancelled {
        t := t.(closed := true, outcome := Closed);
        return;
      }
      t := t.(entered := t.entered + [backoff]);
      var ready, _ := WaitUntilReady(backoff, r.polls);
      if ready.None? {
        t := t.(outcome := Running);
        return;
      }
      backoff := ready.value;
      if backoff == 0 {
        t := t.(outcome := Left);
        return;
      }
      if r.consumeFails {
        backoff := SleepBackoff(backoff, r.stopped);
        if backoff == 0 {
          t := t.(outcome := Left);
          return;
        }
      } else {
        t := t.(handled := t.handled + r.deliveries);
        if r.ending.Cancelled? {
          t := t.(closed := true, outcome := Closed);
          return;
        }
      }
    }
    t := t.(outcome := Running);
  }
}
