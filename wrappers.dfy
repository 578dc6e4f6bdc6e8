/** Option and Result, the failure-carrying values used throughout the model. */
module Wrappers {

  datatype Option<+T> = None | Some(value: T) {
    /** The wrapped value, or `default` when there is none (Python's `d.get(k, default)`). */
    function GetOr(default: T): T {
      match this
      case Some(v) => v
      case None => default
    }
  }

  datatype Result<+T, +E> = Success(value: T) | Failure(error: E) {
    predicate IsFailure() {
      Failure?
    }

    function PropagateFailure<U>(): Result<U, E>
      requires Failure?
    {
      Failure(error)
    }

    function Extract(): T
      requires Success?
    {
      value
    }
  }

  /**
   * A Python loop that handles the first `n` elements of `xs` in order and
   * stops at the first element whose handling raises: `step(i, xs[i])` is the
   * outcome for element `i`.
   */
  function TryMap<A, B, E>(step: (nat, A) -> Result<B, E>, xs: seq<A>, n: nat): Result<seq<B>, E>
    requires n <= |xs|
    decreases n
  {
    if n == 0 then Success([])
    else
      match TryMap(step, xs, n - 1)
      case Failure(e) => Failure(e)
      case Success(done) =>
        match step(n - 1, xs[n - 1])
        case Failure(e) => Failure(e)
        case Success(y) => Success(done + [y])
  }

  /** One more successful element extends the results by its own. */
  lemma TryMapSnoc<A, B, E>(step: (nat, A) -> Result<B, E>, xs: seq<A>, n: nat, done: seq<B>, y: B)
    requires n < |xs| && TryMap(step, xs, n) == Success(done) && step(n, xs[n]) == Success(y)
    ensures TryMap(step, xs, n + 1) == Success(done + [y])
  {
  }

  /** Once the loop has failed, later elements do not change the outcome. */
  lemma {:induction false} TryMapFailureSticks<A, B, E>(step: (nat, A) -> Result<B, E>, xs: seq<A>, n: nat, k: nat)
    requires n <= k <= |xs| && TryMap(step, xs, n).Failure?
    ensures TryMap(step, xs, k) == TryMap(step, xs, n)
    decreases k - n
  {
    if k > n {
      TryMapFailureSticks(step, xs, n, k - 1);
    }
  }

  /**
   * The loop succeeds exactly when every element succeeds, and then it yields
   * one result per element, each computed at its own position.
   */
  lemma {:induction false} TryMapAt<A, B, E>(step: (nat, A) -> Result<B, E>, xs: seq<A>, n: nat)
    requires n <= |xs|
    ensures TryMap(step, xs, n).Success? <==> forall i: nat | i < n :: step(i, xs[i]).Success?
    ensures TryMap(step, xs, n).Success? ==>
            |TryMap(step, xs, n).value| == n &&
            forall i: nat | i < n :: TryMap(step, xs, n).value[i] == step(i, xs[i]).value
    decreases n
  {
    if n > 0 {
      TryMapAt(step, xs, n - 1);
    }
  }

  /** The loop `for x in xs[..n]: acc = step(acc, x)`, stopping at the first failure. */
  function FoldResult<A, B, E>(step: (A, B) -> Result<A, E>, acc: A, xs: seq<B>, n: nat): Result<A, E>
    requires n <= |xs|
    decreases n
  {
    if n == 0 then Success(acc)
    else
      match FoldResult(step, acc, xs, n - 1)
      case Failure(e) => Failure(e)
      case Success(prev) => step(prev, xs[n - 1])
  }

  /** Once the fold has failed, later elements do not change the outcome. */
  lemma {:induction false} FoldResultFailureSticks<A, B, E>(step: (A, B) -> Result<A, E>, acc: A, xs: seq<B>, n: nat, k: nat)
    requires n <= k <= |xs| && FoldResult(step, acc, xs, n).Failure?
    ensures FoldResult(step, acc, xs, k) == FoldResult(step, acc, xs, n)
    decreases k - n
  {
    if k > n {
      FoldResultFailureSticks(step, acc, xs, n, k - 1);
    }
  }

  /** The fold of a prefix depends only on the elements in that prefix. */
  lemma {:induction false} FoldResultSame<A, B, E>(step: (A, B) -> Result<A, E>, acc: A, xs: seq<B>, ys: seq<B>, n: nat)
    requires n <= |xs| && n <= |ys| && forall i | 0 <= i < n :: xs[i] == ys[i]
    ensures FoldResult(step, acc, xs, n) == FoldResult(step, acc, ys, n)
    decreases n
  {
    if n > 0 {
      FoldResultSame(step, acc, xs, ys, n - 1);
    }
  }

  /** Folding `a + b` is folding `a`, then folding `b` from where `a` left off. */
  lemma {:induction false} FoldResultAppend<A, B, E>(step: (A, B) -> Result<A, E>, acc: A, a: seq<B>, b: seq<B>, k: nat)
    requires k <= |b|
    ensures FoldResult(step, acc, a + b, |a| + k) ==
            match FoldResult(step, acc, a, |a|)
            case Failure(e) => Failure(e)
            case Success(mid) => FoldResult(step, mid, b, k)
    decreases k
  {
    if k == 0 {
      FoldResultSame(step, acc, a + b, a, |a|);
    } else {
      FoldResultAppend(step, acc, a, b, k - 1);
      assert (a + b)[|a| + k - 1] == b[k - 1];
    }
  }

  /** Folding `a + b` after `a` gave `mid` is folding `b` from `mid`. */
  lemma FoldResultAfter<A, B, E>(step: (A, B) -> Result<A, E>, acc: A, a: seq<B>, b: seq<B>, mid: A)
    requires FoldResult(step, acc, a, |a|) == Success(mid)
    ensures FoldResult(step, acc, a + b, |a + b|) == FoldResult(step, mid, b, |b|)
  {
    FoldResultAppend(step, acc, a, b, |b|);
  }

  lemma FoldResultNext<A, B, E>(step: (A, B) -> Result<A, E>, acc: A, xs: seq<B>, n: nat, mid: A)
    requires n < |xs| && FoldResult(step, acc, xs, n) == Success(mid)
    ensures FoldResult(step, acc, xs, n + 1) == step(mid, xs[n])
  {
  }

  /** A successful fold succeeded on all but the last element, and then took one step. */
  lemma FoldResultLast<A, B, E>(step: (A, B) -> Result<A, E>, acc: A, xs: seq<B>, n: nat)
    requires 0 < n <= |xs| && FoldResult(step, acc, xs, n).Success?
    ensures FoldResult(step, acc, xs, n - 1).Success?
    ensures FoldResult(step, acc, xs, n) == step(FoldResult(step, acc, xs, n - 1).value, xs[n - 1])
  {
  }

  lemma FoldResultOne<A, B, E>(step: (A, B) -> Result<A, E>, acc: A, x: B)
    ensures FoldResult(step, acc, [x], 1) == step(acc, x)
  {
    assert [x][0] == x;
  }

  /** A failed prefix fails the whole sequence the same way. */
  lemma FoldResultPrefixFails<A, B, E>(step: (A, B) -> Result<A, E>, acc: A, xs: seq<B>, ys: seq<B>)
    requires xs <= ys && FoldResult(step, acc, xs, |xs|).Failure?
    ensures FoldResult(step, acc, ys, |ys|) == FoldResult(step, acc, xs, |xs|)
  {
    FoldResultSame(step, acc, xs, ys, |xs|);
    FoldResultFailureSticks(step, acc, ys, |xs|, |ys|);
  }
}
