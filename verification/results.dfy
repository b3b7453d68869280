/** Outcomes of the generator's operations, including the exceptions it can raise. */
module Results {

  /** The exceptions the generator raises on its own inputs (file-system write failures are not modelled). */
  datatype Error =
    | SubstringOutOfRange(text: string, startIndex: nat)  // string.Substring past the end of `text`
    | DirectoryNotFound(directory: string)                // Directory.EnumerateFiles on a missing directory

  /** Either the value an operation computes or the exception that aborted it. */
  datatype Result<+T> = Success(value: T) | Failure(error: Error) {

    predicate IsFailure() {
      Failure?
    }

    function PropagateFailure<U>(): Result<U>
      requires Failure?
    {
      Failure(error)
    }

    function Extract(): T
      requires Success?
    {
      value
    }
  }

  /**
   * A foreach whose body may throw: `f` is applied to every element in order,
   * and the first exception aborts the whole loop.
   */
  function MapAll<A, B>(f: A -> Result<B>, xs: seq<A>): Result<seq<B>>
  {
    if xs == [] then Success([])
    else
      var done :- MapAll(f, xs[..|xs| - 1]);
      var y :- f(xs[|xs| - 1]);
      Success(done + [y])
  }

  /** A non-empty sequence is its prefix without the last element, then that element. */
  lemma SplitLast<T>(xs: seq<T>)
    requires xs != []
    ensures xs == xs[..|xs| - 1] + [xs[|xs| - 1]]
  {
  }

  /** Concatenation is associative. */
  lemma AppendAssoc<T>(a: seq<T>, b: seq<T>, c: seq<T>)
    ensures a + b + c == a + (b + c)
  {
  }

  /** A prefix one element longer is the shorter prefix with that element appended. */
  lemma PrefixSnoc<T>(xs: seq<T>, i: nat)
    requires i < |xs|
    ensures xs[..i + 1] == xs[..i] + [xs[i]]
  {
  }

  /** One more iteration of the loop. */
  lemma MapAllPrefixStep<A, B>(f: A -> Result<B>, xs: seq<A>, i: nat)
    requires i < |xs|
    ensures MapAll(f, xs[..i + 1]) ==
      if MapAll(f, xs[..i]).Failure? then MapAll(f, xs[..i])
      else if f(xs[i]).Failure? then Failure(f(xs[i]).error)
      else Success(MapAll(f, xs[..i]).value + [f(xs[i]).value])
  {
    assert xs[..i + 1][..i] == xs[..i];
  }

  /** Once the loop has thrown on a prefix of the elements, the whole loop throws the same exception. */
  lemma {:induction false} MapAllPrefixFailure<A, B>(f: A -> Result<B>, xs: seq<A>, i: nat)
    requires i <= |xs|
    requires MapAll(f, xs[..i]).Failure?
    ensures MapAll(f, xs) == MapAll(f, xs[..i])
    decreases |xs|
  {
    if i < |xs| {
      var n := |xs| - 1;
      assert xs[..n][..i] == xs[..i];
      MapAllPrefixFailure(f, xs[..n], i);
    } else {
      assert xs[..i] == xs;
    }
  }

  /**
   * The loop completes exactly when no element throws, and then its result
   * holds the value of every element, in order.
   */
  lemma {:induction false} MapAllSucceeds<A, B>(f: A -> Result<B>, xs: seq<A>)
    ensures MapAll(f, xs).Success? <==> forall i :: 0 <= i < |xs| ==> f(xs[i]).Success?
    ensures MapAll(f, xs).Success? ==>
      |MapAll(f, xs).value| == |xs| && forall i :: 0 <= i < |xs| ==> MapAll(f, xs).value[i] == f(xs[i]).value
  {
    if xs != [] {
      var n := |xs| - 1;
      var init := xs[..n];
      MapAllSucceeds(f, init);
      assert forall i :: 0 <= i < n ==> init[i] == xs[i];
    }
  }
}
