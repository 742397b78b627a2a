/** Searching a sequence front to back, as Swift's `first(where:)` does. */
module Sequences {

  import opened Wrappers

  /** The index `first(where: p)` stops at: the first element satisfying `p`. */
  function FirstIndexWhere<T>(s: seq<T>, p: T -> bool): (r: Option<nat>)
    ensures r.Some? ==> r.value < |s| && p(s[r.value])
    ensures r.Some? ==> forall j :: 0 <= j < r.value ==> !p(s[j])
    ensures r.None? ==> forall j :: 0 <= j < |s| ==> !p(s[j])
    decreases |s|
  {
    if s == [] then None
    else if p(s[0]) then Some(0)
    else match FirstIndexWhere(s[1..], p)
      case None => None
      case Some(i) => Some(i + 1)
  }

  /** Elements appended after a match are never consulted. */
  lemma FirstIndexWhereAppend<T>(s: seq<T>, later: seq<T>, p: T -> bool)
    requires FirstIndexWhere(s, p).Some?
    ensures FirstIndexWhere(s + later, p) == FirstIndexWhere(s, p)
  {
    var i := FirstIndexWhere(s, p).value;
    var k := FirstIndexWhere(s + later, p);
    assert p((s + later)[i]);
    assert k.Some? && k.value <= i;
  }

  /** Without a match in `s`, an element appended after it that matches is found there. */
  lemma FirstIndexWhereAppendNew<T>(s: seq<T>, x: T, p: T -> bool)
    requires FirstIndexWhere(s, p).None? && p(x)
    ensures FirstIndexWhere(s + [x], p) == Some(|s|)
  {
    assert (s + [x])[|s|] == x;
  }
}
