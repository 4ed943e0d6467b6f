/** A loop that applies a step that may raise to each element of a list in
    turn: the results in order, or the exception of the first element whose
    step raises, after which no further element is looked at. */
module ResultSeqs {
  import opened Wrappers
  import opened Seqs

  function MapAll<A, B, E>(f: A -> Result<B, E>, xs: seq<A>): Result<seq<B>, E> {
    if xs == [] then Ok([])
    else
      match MapAll(f, xs[..|xs| - 1])
      case Err(e) => Err(e)
      case Ok(ys) =>
        (match f(xs[|xs| - 1])
         case Err(e) => Err(e)
         case Ok(y) => Ok(ys + [y]))
  }

  /** Once an element has raised, the rest of the list is not looked at. */
  lemma {:induction false} MapAllFailureStays<A, B, E>(f: A -> Result<B, E>, xs: seq<A>, i: nat)
    requires i <= |xs| && MapAll(f, xs[..i]).Err?
    ensures MapAll(f, xs) == MapAll(f, xs[..i])
    decreases |xs| - i
  {
    if i < |xs| {
      TakeTake(xs, i);
      MapAllFailureStays(f, xs, i + 1);
    } else {
      TakeAll(xs, i);
    }
  }

  /** One more element: its result is appended, or its exception ends the
      whole list. */
  lemma MapAllStep<A, B, E>(f: A -> Result<B, E>, xs: seq<A>, i: nat)
    requires i < |xs| && MapAll(f, xs[..i]).Ok?
    ensures f(xs[i]).Ok? ==> MapAll(f, xs[..i + 1]) == Ok(MapAll(f, xs[..i]).value + [f(xs[i]).value])
    ensures f(xs[i]).Err? ==> MapAll(f, xs) == Err(f(xs[i]).error)
  {
    TakeTake(xs, i);
    if f(xs[i]).Err? {
      MapAllFailureStays(f, xs, i + 1);
    }
  }

  /** The list succeeds exactly when every element does. */
  lemma {:induction false} MapAllOk<A, B, E>(f: A -> Result<B, E>, xs: seq<A>)
    ensures MapAll(f, xs).Ok? <==> forall k :: 0 <= k < |xs| ==> f(xs[k]).Ok?
  {
    if xs != [] {
      var init := xs[..|xs| - 1];
      MapAllOk(f, init);
      assert forall k :: 0 <= k < |init| ==> init[k] == xs[k];
    }
  }

  /** A list that succeeds has the result of element k as its k-th result:
      nothing is added, lost or moved. */
  lemma {:induction false} MapAllValues<A, B, E>(f: A -> Result<B, E>, xs: seq<A>)
    requires MapAll(f, xs).Ok?
    ensures |MapAll(f, xs).value| == |xs|
    ensures forall k :: 0 <= k < |xs| ==> f(xs[k]).Ok? && MapAll(f, xs).value[k] == f(xs[k]).value
  {
    MapAllOk(f, xs);
    if xs != [] {
      var init := xs[..|xs| - 1];
      MapAllValues(f, init);
      assert MapAll(f, xs).value == MapAll(f, init).value + [f(xs[|xs| - 1]).value];
      forall k | 0 <= k < |xs|
        ensures f(xs[k]).Ok? && MapAll(f, xs).value[k] == f(xs[k]).value
      {
        if k < |init| {
          assert init[k] == xs[k];
        }
      }
    }
  }

  /** A failing list raises the exception of its first failing element. */
  lemma {:induction false} MapAllFirstError<A, B, E>(f: A -> Result<B, E>, xs: seq<A>)
    requires MapAll(f, xs).Err?
    ensures exists k ::
      && 0 <= k < |xs|
      && f(xs[k]) == Err(MapAll(f, xs).error)
      && (forall j :: 0 <= j < k ==> f(xs[j]).Ok?)
  {
    var init := xs[..|xs| - 1];
    assert forall k :: 0 <= k < |init| ==> init[k] == xs[k];
    if MapAll(f, init).Err? {
      MapAllFirstError(f, init);
    } else {
      MapAllOk(f, init);
      assert f(xs[|xs| - 1]) == Err(MapAll(f, xs).error);
    }
  }
}
