/** Option and Result values for the Python code's `None` returns and raised exceptions. */
module Wrappers {

  datatype Option<+T> = None | Some(value: T) {
    function GetOr(default: T): T {
      match this
      case Some(v) => v
      case None => default
    }
  }

  /** The exceptions the modelled Python code can raise. */
  datatype Error =
    | KeyError(key: string)     // missing dict key or missing graph node
    | IndexError(index: int)    // list index out of range
    | ValueError                // range() called with step 0
    | NoDocs                    // the ingest entry point found no documents

  datatype Result<+T> = Ok(value: T) | Err(error: Error)

  /** `[f(x) for x in xs]` for an `f` that may raise: the first exception ends the comprehension. */
  function MapAll<A, B>(f: A -> Result<B>, xs: seq<A>): (r: Result<seq<B>>)
    ensures r.Ok? <==> forall i :: 0 <= i < |xs| ==> f(xs[i]).Ok?
    ensures r.Ok? ==> |r.value| == |xs| && forall i :: 0 <= i < |xs| ==> f(xs[i]) == Ok(r.value[i])
    ensures r.Err? ==> exists i :: 0 <= i < |xs| && f(xs[i]) == Err(r.error) && forall j :: 0 <= j < i ==> f(xs[j]).Ok?
  {
    if xs == [] then Ok([])
    else
      var init := xs[..|xs| - 1];
      var rest := MapAll(f, init);
      var y := f(xs[|xs| - 1]);
      assert forall i :: 0 <= i < |init| ==> init[i] == xs[i];
      if rest.Err? then rest
      else if y.Err? then Err(y.error)
      else Ok(rest.value + [y.value])
  }

  /** One more step of the comprehension. */
  lemma MapAllSnoc<A, B>(f: A -> Result<B>, xs: seq<A>, i: nat)
    requires i < |xs|
    ensures MapAll(f, xs[..i + 1]) ==
      var rest := MapAll(f, xs[..i]);
      if rest.Err? then rest else if f(xs[i]).Err? then Err(f(xs[i]).error) else Ok(rest.value + [f(xs[i]).value])
  {
    var s := xs[..i + 1];
    assert s[..|s| - 1] == xs[..i] && s[|s| - 1] == xs[i];
  }

  /** An exception raised on a prefix is the exception of the whole comprehension. */
  lemma {:induction false} MapAllErr<A, B>(f: A -> Result<B>, xs: seq<A>, i: nat)
    requires i <= |xs| && MapAll(f, xs[..i]).Err?
    ensures MapAll(f, xs) == MapAll(f, xs[..i])
    decreases |xs| - i
  {
    if i < |xs| {
      MapAllSnoc(f, xs, i);
      MapAllErr(f, xs, i + 1);
    } else {
      assert xs[..i] == xs;
    }
  }
}
