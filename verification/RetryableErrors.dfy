/** Error trees and their classification (retryable.go). */
module RetryableErrors {
  import opened Basics

  /** A non-nil Go error. A wrapper may wrap nil, and a joined error unwraps to a list. */
  datatype Error =
    | Plain(text: string)
    | RetryableError(err: Option<Error>)
    | Wrapped(text: string, inner: Option<Error>)
    | Joined(inners: seq<Error>)

  /** `Retry`: nil stays nil, everything else is wrapped. */
  function Retry(err: Option<Error>): Option<Error> {
    match err
    case None => None
    case Some(_) => Some(RetryableError(err))
  }

  /** `IsRetryable`: the depth-first search of `errors.As` for a `*RetryableError`. */
  predicate IsRetryable(err: Option<Error>) {
    match err
    case None => false
    case Some(e) => Finds(e)
  }

  predicate Finds(e: Error)
    decreases e, 0
  {
    match e
    case Plain(_) => false
    case RetryableError(_) => true
    case Wrapped(_, None) => false
    case Wrapped(_, Some(inner)) => Finds(inner)
    case Joined(inners) => FindsAny(inners)
  }

  predicate FindsAny(es: seq<Error>)
    decreases es, 1
  {
    es != [] && (Finds(es[0]) || FindsAny(es[1..]))
  }

  /** The errors one `Unwrap` below e. */
  function Children(e: Error): seq<Error> {
    match e
    case Plain(_) => []
    case RetryableError(inner) => if inner.Some? then [inner.value] else []
    case Wrapped(_, inner) => if inner.Some? then [inner.value] else []
    case Joined(inners) => inners
  }

  /** x is reached from e by following the child numbers in path. */
  ghost predicate At(e: Error, path: seq<nat>, x: Error)
    decreases |path|
  {
    if path == [] then e == x
    else path[0] < |Children(e)| && At(Children(e)[path[0]], path[1..], x)
  }

  ghost predicate Marked(e: Error, path: seq<nat>) {
    exists x: Error :: x.RetryableError? && At(e, path, x)
  }

  /** An error is retryable exactly when some error in its tree was made by `Retry`. */
  lemma IsRetryableIff(e: Error)
    ensures IsRetryable(Some(e)) <==> exists path :: Marked(e, path)
  {
    if Finds(e) {
      var path := FindsGivesPath(e);
    }
    forall path | Marked(e, path) ensures Finds(e) {
      PathGivesFinds(e, path);
    }
  }

  lemma {:induction false} FindsGivesPath(e: Error) returns (path: seq<nat>)
    requires Finds(e)
    ensures Marked(e, path)
  {
    match e
    case RetryableError(_) =>
      path := [];
      assert At(e, path, e);
    case Wrapped(_, Some(inner)) =>
      var rest := FindsGivesPath(inner);
      path := [0] + rest;
      MarkedBelow(e, 0, rest);
    case Joined(inners) =>
      var i := FirstFound(inners);
      var rest := FindsGivesPath(inners[i]);
      path := [i] + rest;
      MarkedBelow(e, i, rest);
  }

  lemma MarkedBelow(e: Error, i: nat, rest: seq<nat>)
    requires i < |Children(e)| && Marked(Children(e)[i], rest)
    ensures Marked(e, [i] + rest)
  {
    var x: Error :| x.RetryableError? && At(Children(e)[i], rest, x);
    assert ([i] + rest)[1..] == rest;
    assert At(e, [i] + rest, x);
  }

  lemma {:induction false} FirstFound(es: seq<Error>) returns (i: nat)
    requires FindsAny(es)
    ensures i < |es| && Finds(es[i])
  {
    if Finds(es[0]) {
      i := 0;
    } else {
      i := FirstFound(es[1..]);
      i := i + 1;
    }
  }

  lemma {:induction false} MemberFound(es: seq<Error>, i: nat)
    requires i < |es| && Finds(es[i])
    ensures FindsAny(es)
  {
    if i > 0 {
      MemberFound(es[1..], i - 1);
    }
  }

  lemma {:induction false} PathGivesFinds(e: Error, path: seq<nat>)
    requires Marked(e, path)
    ensures Finds(e)
    decreases |path|
  {
    var x: Error :| x.RetryableError? && At(e, path, x);
    if path != [] && !e.RetryableError? {
      var child := Children(e)[path[0]];
      assert Marked(child, path[1..]);
      PathGivesFinds(child, path[1..]);
      if e.Joined? {
        MemberFound(e.inners, path[0]);
      }
    }
  }

  /** `Retry` marks every error and unwraps to it, so that everything found in the error's tree is
      still found, one step further down; and any wrapping or joining keeps the mark. */
  lemma RetryIsSeenThroughWrapping(e: Error, text: string, before: seq<Error>, after: seq<Error>)
    ensures Retry(Some(e)).Some? && IsRetryable(Retry(Some(e)))
    ensures forall path, x :: At(e, path, x) ==> At(Retry(Some(e)).value, [0] + path, x)
    ensures IsRetryable(Some(e)) ==> IsRetryable(Some(Wrapped(text, Some(e))))
    ensures IsRetryable(Some(e)) ==> IsRetryable(Some(Joined(before + [e] + after)))
    ensures !IsRetryable(Retry(None))
  {
    if Finds(e) {
      MemberFound(before + [e] + after, |before|);
    }
    forall path, x | At(e, path, x) ensures At(Retry(Some(e)).value, [0] + path, x) {
      assert ([0] + path)[1..] == path;
    }
  }
}
