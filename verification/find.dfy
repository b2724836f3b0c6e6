/** JavaScript's `Array.prototype.find`: the first element satisfying a
    predicate, or nothing. */
module Find {
  import opened Wrappers

  /** The index of the first element of `xs` satisfying `p`. */
  function FindIndex<T>(xs: seq<T>, p: T -> bool): (r: Option<nat>)
    ensures r.Some? ==> r.value < |xs| && p(xs[r.value])
    ensures r.Some? ==> forall j :: 0 <= j < r.value ==> !p(xs[j])
    ensures r.None? ==> forall j :: 0 <= j < |xs| ==> !p(xs[j])
  {
    if xs == [] then None
    else if p(xs[0]) then Some(0)
    else match FindIndex(xs[1..], p)
      case Some(i) => Some(i + 1)
      case None => None
  }

  /** `xs.find(p)`: the first element satisfying `p`, if any. */
  function FindFirst<T>(xs: seq<T>, p: T -> bool): (r: Option<T>)
    ensures r.Some? ==> r.value in xs && p(r.value)
    ensures r.None? <==> forall j :: 0 <= j < |xs| ==> !p(xs[j])
  {
    match FindIndex(xs, p)
    case Some(i) => Some(xs[i])
    case None => None
  }

  /** Two predicates that agree on every element find the same position. */
  lemma {:induction false} FindIndexExtensional<T>(xs: seq<T>, p: T -> bool, q: T -> bool)
    requires forall j :: 0 <= j < |xs| ==> (p(xs[j]) <==> q(xs[j]))
    ensures FindIndex(xs, p) == FindIndex(xs, q)
  {
    if xs != [] && !p(xs[0]) {
      FindIndexExtensional(xs[1..], p, q);
    }
  }
}
