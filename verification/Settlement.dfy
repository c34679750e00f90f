/** What becomes of one delivery (delivery.go). */
module Settlement {
  import opened Basics
  import opened RetryableErrors
  import opened Calendar
  import opened Stamp
  import opened Tables

  /** How the handler ended; a panic is recovered. */
  datatype Outcome = Panicked | Returned(err: Option<Error>)

  /** The four ways to settle: Ack(false), Nack(false, false), Nack(false, true), Reject(false). */
  datatype Verdict = Ack | Drop | Requeue | Reject

  datatype Decision = Decision(verdict: Verdict, failed: bool)

  /** The whole decision: failed says that the fail handler is called before the settlement. */
  function Decide(retry: bool, outcome: Outcome, expired: bool): Decision {
    match outcome
    case Panicked => Decision(Drop, false)
    case Returned(None) => Decision(Ack, false)
    case Returned(err) =>
      if !retry then Decision(Requeue, false)
      else if IsRetryable(err) && !expired then Decision(Reject, false)
      else Decision(Ack, true)
  }

  /** Which settlement an outcome asks for: a panic drops; nil acknowledges; an error requeues in a
      queue without retry, and in a retry queue rejects while it is marked for retry before the
      deadline and else acknowledges. */
  predicate Ends(retry: bool, outcome: Outcome, expired: bool, v: Verdict) {
    match v
    case Drop => outcome.Panicked?
    case Requeue => !retry && outcome.Returned? && outcome.err.Some?
    case Reject => retry && outcome.Returned? && IsRetryable(outcome.err) && !expired
    case Ack => outcome == Returned(None) || FinallyFails(retry, outcome, expired)
  }

  /** An error of a retry queue past its deadline or not marked for retry. */
  predicate FinallyFails(retry: bool, outcome: Outcome, expired: bool) {
    retry && outcome.Returned? && outcome.err.Some? && (expired || !IsRetryable(outcome.err))
  }

  /** The decision is that settlement and no other, and the fail handler is for final failures. */
  lemma DecideIs(retry: bool, outcome: Outcome, expired: bool, v: Verdict)
    ensures Decide(retry, outcome, expired).verdict == v <==> Ends(retry, outcome, expired, v)
    ensures Decide(retry, outcome, expired).failed <==> FinallyFails(retry, outcome, expired)
  {
  }

  /** `extractExpiredHeader` followed by the expiry test of `handleRetryError`. */
  predicate Expired(headers: Table, now: int) {
    TextAt(headers, EXPIRED) == "" || IsExpired(TextAt(headers, EXPIRED), now)
  }

  /** A header is live exactly at the times up to the instant that its "expired" text reads as, in one
      layout or the other; without such a text it counts as expired. */
  lemma ExpiredIff(headers: Table, now: int)
    ensures !Expired(headers, now) <==>
              && "expired" in headers && headers["expired"].Text?
              && exists t :: now <= t && (ParseRfc3339(headers["expired"].text) == Some(t)
                                          || ParseLegacy(headers["expired"].text) == Some(t))
  {
    var text := TextAt(headers, "expired");
    LayoutsDisjoint(text);
    EmptyIsUnreadable();
    if !Expired(headers, now) { assert now <= ParseExpired(text).value; }
  }

  lemma EmptyIsUnreadable()
    ensures ParseRfc3339("") == None && ParseLegacy("") == None
  {
    assert ReadDate("") == Bad;
  }

  lemma ExpiredIsMonotone(headers: Table, now: int, later: int)
    requires now <= later && Expired(headers, now)
    ensures Expired(headers, later)
  {
  }

  lemma ExpiredFromStamp(headers: Table, stamp: string, now: int)
    requires TextAt(headers, EXPIRED) == stamp && IsExpired(stamp, now)
    ensures Expired(headers, now)
  {
  }

  /** The header was stamped by unsafePush with this deadline. */
  predicate Stamped(headers: Table, deadline: int) {
    StampOf(TextAt(headers, EXPIRED), deadline)
  }

  /** The header counts as expired at every time past the limit. */
  ghost predicate ExpiresBy(headers: Table, limit: int) {
    forall now :: now > limit ==> Expired(headers, now)
  }

  lemma StampedExpires(headers: Table, stamp: string, deadline: int, now: int)
    requires TextAt(headers, EXPIRED) == stamp && StampOf(stamp, deadline) && now > deadline
    ensures Expired(headers, now)
  {
    PastItsDeadline(stamp, deadline, now);
    ExpiredFromStamp(headers, stamp, now);
  }

  lemma StampedExpiresBy(headers: Table, deadline: int)
    requires Stamped(headers, deadline)
    ensures ExpiresBy(headers, deadline)
  {
    forall now | now > deadline {
      StampedExpires(headers, TextAt(headers, EXPIRED), deadline, now);
    }
  }

  lemma StampExpiresExactly(headers: Table, stamp: string, deadline: int, now: int)
    requires TextAt(headers, EXPIRED) == stamp && StampOf(stamp, deadline)
    ensures Expired(headers, now) <==> !WritableYear(deadline) || now > WholeSecond(deadline)
  {
    ExpiredAfterStamp(stamp, deadline, now);
  }

  /** The header counts as expired at exactly the times past the limit. */
  ghost predicate LiveTo(headers: Table, limit: int) {
    forall now {:trigger Expired(headers, now)} :: Expired(headers, now) <==> now > limit
  }

  /** A stamped header is live to the whole second of its deadline, when the year can be written. */
  lemma StampedLiveTo(headers: Table, deadline: int)
    requires Stamped(headers, deadline) && WritableYear(deadline)
    ensures LiveTo(headers, WholeSecond(deadline))
  {
    forall now ensures Expired(headers, now) <==> now > WholeSecond(deadline) {
      StampExpiresExactly(headers, TextAt(headers, EXPIRED), deadline, now);
    }
  }

  lemma UnwritableExpires(headers: Table, deadline: int, limit: int)
    requires Stamped(headers, deadline) && !WritableYear(deadline)
    ensures ExpiresBy(headers, limit)
  {
    forall now | now > limit ensures Expired(headers, now) {
      StampExpiresExactly(headers, TextAt(headers, EXPIRED), deadline, now);
    }
  }

  lemma LiveToExpiresBy(headers: Table, limit: int)
    requires LiveTo(headers, limit)
    ensures ExpiresBy(headers, limit)
  {
  }
}
