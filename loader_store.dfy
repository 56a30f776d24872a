/** The global loader: a count of requests in flight, clamped at zero, and
    an `isLoading` flag that shows while the count is positive. */
module Loader {

  /** The store's two fields as one value. */
  datatype LoaderState = LoaderState(isLoading: bool, requestCount: int)

  datatype LoaderOp = ShowOp | HideOp

  const Initial := LoaderState(false, 0)

  function Max(a: int, b: int): int { if a >= b then a else b }

  /** `showLoader`: one more request in flight, and the loader shows. */
  function Show(s: LoaderState): (r: LoaderState)
    ensures r.isLoading && r.requestCount == s.requestCount + 1
    ensures Consistent(s) ==> Consistent(r)
  {
    LoaderState(true, s.requestCount + 1)
  }

  /** `hideLoader`: one request fewer, never below zero; the loader shows
      while requests remain. */
  function Hide(s: LoaderState): (r: LoaderState)
    ensures r.requestCount == Max(0, s.requestCount - 1)
    ensures Consistent(r)
    ensures Consistent(s) && s.requestCount == 0 ==> r == s
  {
    var newCount := Max(0, s.requestCount - 1);
    LoaderState(newCount > 0, newCount)
  }

  /** The state after running a sequence of shows and hides in order. */
  function Run(s: LoaderState, ops: seq<LoaderOp>): LoaderState
    decreases |ops|
  {
    if ops == [] then s
    else Run(if ops[0] == ShowOp then Show(s) else Hide(s), ops[1..])
  }

  function Repeat(op: LoaderOp, n: nat): (r: seq<LoaderOp>)
    ensures |r| == n && forall i :: 0 <= i < n ==> r[i] == op
  {
    if n == 0 then [] else [op] + Repeat(op, n - 1)
  }

  /** The store's invariant: the count is never negative and the loader
      shows exactly while it is positive. */
  predicate Consistent(s: LoaderState)
  {
    s.requestCount >= 0 && (s.isLoading <==> s.requestCount > 0)
  }

  /** Running a sequence is running its halves one after the other. */
  lemma {:induction false} RunAppend(s: LoaderState, a: seq<LoaderOp>, b: seq<LoaderOp>)
    ensures Run(s, a + b) == Run(Run(s, a), b)
    decreases |a|
  {
    if a == [] {
      assert a + b == b;
    } else {
      assert (a + b)[0] == a[0] && (a + b)[1..] == a[1..] + b;
      RunAppend(if a[0] == ShowOp then Show(s) else Hide(s), a[1..], b);
    }
  }

  /** The invariant holds under any sequence of shows and hides from a consistent state. */
  lemma {:induction false} RunKeepsConsistent(s: LoaderState, ops: seq<LoaderOp>)
    requires Consistent(s)
    ensures Consistent(Run(s, ops))
    decreases |ops|
  {
    if ops != [] {
      RunKeepsConsistent(if ops[0] == ShowOp then Show(s) else Hide(s), ops[1..]);
    }
  }

  /** n shows add n to the count. */
  lemma {:induction false} RunShows(s: LoaderState, n: nat)
    requires Consistent(s)
    ensures Run(s, Repeat(ShowOp, n)) == LoaderState(s.isLoading || n > 0, s.requestCount + n)
    decreases n
  {
    if n > 0 {
      assert Repeat(ShowOp, n)[1..] == Repeat(ShowOp, n - 1);
      RunShows(Show(s), n - 1);
    }
  }

  /** n hides take n from a count of at least n. */
  lemma {:induction false} RunHides(s: LoaderState, n: nat)
    requires Consistent(s) && s.requestCount >= n
    ensures Run(s, Repeat(HideOp, n)) == LoaderState(s.requestCount - n > 0, s.requestCount - n)
    decreases n
  {
    if n > 0 {
      assert Repeat(HideOp, n)[1..] == Repeat(HideOp, n - 1);
      RunHides(Hide(s), n - 1);
    }
  }

  /** n shows followed by n hides bring the loader back to where it started. */
  lemma ShowsThenHidesRestore(s: LoaderState, n: nat)
    requires Consistent(s)
    ensures Run(s, Repeat(ShowOp, n) + Repeat(HideOp, n)) == s
  {
    RunAppend(s, Repeat(ShowOp, n), Repeat(HideOp, n));
    RunShows(s, n);
    RunHides(Run(s, Repeat(ShowOp, n)), n);
  }

  /** The loader store. */
  class LoaderStore {
    var isLoading: bool
    var requestCount: int

    function State(): LoaderState
      reads this
    {
      LoaderState(isLoading, requestCount)
    }

    ghost predicate Valid()
      reads this
    {
      Consistent(State())
    }

    /** Nothing loading, no requests counted. */
    constructor ()
      ensures State() == Initial && Valid()
    {
      isLoading, requestCount := false, 0;
    }

    method ShowLoader()
      modifies this
      ensures State() == Show(old(State()))
      ensures isLoading && requestCount == old(requestCount) + 1
      ensures old(Valid()) ==> Valid()
    {
      isLoading := true;
      requestCount := requestCount + 1;
    }

    method HideLoader()
      modifies this
      ensures State() == Hide(old(State()))
      ensures requestCount == Max(0, old(requestCount) - 1)
      ensures Valid()
    {
      var newCount := Max(0, requestCount - 1);
      requestCount := newCount;
      isLoading := newCount > 0;
    }
  }
}
