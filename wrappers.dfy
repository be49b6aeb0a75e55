/** Failure-carrying datatypes shared by the whole model. */
module Wrappers {

  datatype Option<+T> = None | Some(value: T)

  datatype Result<+T, +E> = Ok(value: T) | Err(error: E)

  /** A call that returns nothing useful but may fail. */
  datatype Outcome<+E> = Pass | Fail(error: E)

  /** The outcome of a call into a collaborator outside the model: it either
      returns a value or raises an exception. */
  datatype Call<+T> = Returned(value: T) | Raised

  /** Index of the first element of `xs` satisfying `p`, or `|xs|` when none does
      (Python's `next((x for x in xs if p(x)), None)` works off this index). */
  function FirstIndex<T>(xs: seq<T>, p: T -> bool): (k: nat)
    ensures k <= |xs|
    ensures forall j :: 0 <= j < k ==> !p(xs[j])
    ensures k < |xs| ==> p(xs[k])
  {
    if xs == [] then 0
    else if p(xs[0]) then 0
    else 1 + FirstIndex(xs[1..], p)
  }

  /** The first element of `xs` satisfying `p`, if any. */
  function First<T>(xs: seq<T>, p: T -> bool): (r: Option<T>)
    ensures r.None? <==> forall j :: 0 <= j < |xs| ==> !p(xs[j])
    ensures r.Some? ==> r.value in xs && p(r.value)
    ensures r.Some? ==> exists k :: 0 <= k < |xs| && xs[k] == r.value && forall j :: 0 <= j < k ==> !p(xs[j])
  {
    var k := FirstIndex(xs, p);
    if k < |xs| then Some(xs[k]) else None
  }
}
