/** Success/failure wrappers shared by every stage. The source's error types all
    carry a single message string, so one `Result` with a `string` error suffices. */
module Results {

  datatype Option<+T> = None | Some(value: T)

  datatype Result<+T> = Ok(value: T) | Err(error: string)

  /** Applies `f` to every element in order and stops at the first error, the way the
      source's loops use `?`. */
  function Traverse<A, B>(f: A -> Result<B>, xs: seq<A>): Result<seq<B>>
  {
    if |xs| == 0 then Ok([])
    else
      match Traverse(f, xs[..|xs| - 1])
      case Err(e) => Err(e)
      case Ok(vs) =>
        match f(xs[|xs| - 1])
        case Err(e) => Err(e)
        case Ok(v) => Ok(vs + [v])
  }

  /** The traversal succeeds exactly when every element does, and then holds every
      value in order. */
  lemma {:induction false} TraverseAll<A, B>(f: A -> Result<B>, xs: seq<A>)
    ensures Traverse(f, xs).Ok? <==> forall i :: 0 <= i < |xs| ==> f(xs[i]).Ok?
    ensures Traverse(f, xs).Ok? ==>
      |Traverse(f, xs).value| == |xs|
      && forall i :: 0 <= i < |xs| ==> Traverse(f, xs).value[i] == f(xs[i]).value
    decreases |xs|
  {
    if |xs| > 0 {
      TraverseAll(f, xs[..|xs| - 1]);
    }
  }

  /** A failed traversal reports the error of the first element that fails. */
  lemma {:induction false} TraverseFirstError<A, B>(f: A -> Result<B>, xs: seq<A>)
    requires Traverse(f, xs).Err?
    ensures exists i :: 0 <= i < |xs| && f(xs[i]) == Err(Traverse(f, xs).error)
                        && forall j :: 0 <= j < i ==> f(xs[j]).Ok?
    decreases |xs|
  {
    var init := xs[..|xs| - 1];
    assert forall j :: 0 <= j < |init| ==> init[j] == xs[j];
    var e := Traverse(f, xs).error;
    if Traverse(f, init).Err? {
      assert Traverse(f, init).error == e;
      TraverseFirstError(f, init);
      var i :| 0 <= i < |init| && f(init[i]) == Err(e)
               && forall j :: 0 <= j < i ==> f(init[j]).Ok?;
      assert f(xs[i]) == Err(e) && forall j :: 0 <= j < i ==> f(xs[j]).Ok?;
    } else {
      TraverseAll(f, init);
      var i := |xs| - 1;
      assert f(xs[i]) == Err(e) && forall j :: 0 <= j < i ==> f(xs[j]).Ok?;
    }
  }

  /** Once a prefix fails, the whole traversal fails with the same error. */
  lemma {:induction false} TraverseErrSticky<A, B>(f: A -> Result<B>, xs: seq<A>, k: nat)
    requires k <= |xs| && Traverse(f, xs[..k]).Err?
    ensures Traverse(f, xs) == Traverse(f, xs[..k])
    decreases |xs| - k
  {
    if k < |xs| {
      assert xs[..k + 1][..k] == xs[..k];
      TraverseErrSticky(f, xs, k + 1);
    } else {
      assert xs[..k] == xs;
    }
  }

  /** One more element: the traversal so far extended by that element's result. */
  lemma TraverseStep<A, B>(f: A -> Result<B>, xs: seq<A>, i: nat, vs: seq<B>)
    requires i < |xs| && Traverse(f, xs[..i]) == Ok(vs)
    ensures f(xs[i]).Ok? ==> Traverse(f, xs[..i + 1]) == Ok(vs + [f(xs[i]).value])
    ensures f(xs[i]).Err? ==> Traverse(f, xs) == Err(f(xs[i]).error)
  {
    assert xs[..i + 1][..i] == xs[..i];
    if f(xs[i]).Err? {
      TraverseErrSticky(f, xs, i + 1);
    }
  }
}
