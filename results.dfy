/** Error values for the exceptions the calculator lets escape, and the
    "stop at the first failure" traversal that its loops perform. */
module Results {

  /** The Python exceptions the calculator can raise. */
  datatype Error =
    | IndexError            // indexing an empty list
    | KeyError(key: string) // a dictionary lookup of a missing key
    | TypeError             // an operation applied to a value of the wrong type
    | ValueError            // int() of a string that is not a decimal numeral

  datatype Option<+T> = None | Some(value: T)

  datatype Result<+T> = Ok(value: T) | Err(error: Error)

  /** Applies `f` to every element from first to last and collects the results;
      the first element on which `f` fails decides the error (as a Python loop
      that raises does). Defined on the last element, as a loop extends it. */
  function Traverse<A, B>(f: A -> Result<B>, xs: seq<A>): Result<seq<B>>
    decreases |xs|
  {
    if xs == [] then Ok([])
    else
      match Traverse(f, xs[..|xs| - 1])
      case Err(e) => Err(e)
      case Ok(ys) =>
        match f(xs[|xs| - 1])
        case Err(e) => Err(e)
        case Ok(y) => Ok(ys + [y])
  }

  /** `i` is the first position at which `f` fails. */
  ghost predicate FirstFailure<A, B>(f: A -> Result<B>, xs: seq<A>, i: int)
  {
    0 <= i < |xs| && f(xs[i]).Err? && forall j :: 0 <= j < i ==> f(xs[j]).Ok?
  }

  /** Traverse succeeds exactly when `f` succeeds on every element, and then
      yields, in order, one result per element. */
  lemma {:induction false} TraverseOk<A, B>(f: A -> Result<B>, xs: seq<A>)
    ensures Traverse(f, xs).Ok? <==> forall i :: 0 <= i < |xs| ==> f(xs[i]).Ok?
    ensures Traverse(f, xs).Ok? ==>
              |Traverse(f, xs).value| == |xs| &&
              forall i :: 0 <= i < |xs| ==> Traverse(f, xs).value[i] == f(xs[i]).value
    decreases |xs|
  {
    if xs != [] {
      var n := |xs| - 1;
      var init := xs[..n];
      TraverseOk(f, init);
      assert forall i :: 0 <= i < n ==> init[i] == xs[i];
      if Traverse(f, init).Err? {
        assert !(forall i :: 0 <= i < n ==> f(xs[i]).Ok?);
      }
    }
  }

  /** When Traverse fails, its error is that of the first failing element. */
  lemma {:induction false} TraverseErr<A, B>(f: A -> Result<B>, xs: seq<A>)
    ensures Traverse(f, xs).Err? ==>
              exists i :: FirstFailure(f, xs, i) && Traverse(f, xs).error == f(xs[i]).error
    decreases |xs|
  {
    if xs != [] {
      var n := |xs| - 1;
      var init := xs[..n];
      TraverseErr(f, init);
      TraverseOk(f, init);
      assert forall i :: 0 <= i < n ==> init[i] == xs[i];
      if Traverse(f, init).Err? {
        var i :| FirstFailure(f, init, i) && Traverse(f, init).error == f(init[i]).error;
        assert FirstFailure(f, xs, i);
      } else if f(xs[n]).Err? {
        assert FirstFailure(f, xs, n);
      }
    }
  }

  /** One more element on a successful prefix: the step a loop takes. */
  lemma TraverseStep<A, B>(f: A -> Result<B>, xs: seq<A>, i: nat)
    requires i < |xs|
    ensures Traverse(f, xs[..i + 1]) ==
              match Traverse(f, xs[..i])
              case Err(e) => Err(e)
              case Ok(ys) =>
                match f(xs[i])
                case Err(e) => Err(e)
                case Ok(y) => Ok(ys + [y])
  {
    assert xs[..i + 1][..i] == xs[..i];
  }

  /** A failure on a prefix is the failure of the whole sequence. */
  lemma {:induction false} TraversePrefixErr<A, B>(f: A -> Result<B>, xs: seq<A>, k: nat)
    requires k <= |xs|
    requires Traverse(f, xs[..k]).Err?
    ensures Traverse(f, xs) == Traverse(f, xs[..k])
    decreases |xs| - k
  {
    if k < |xs| {
      TraverseStep(f, xs, k);
      TraversePrefixErr(f, xs, k + 1);
    } else {
      assert xs[..k] == xs;
    }
  }
}
