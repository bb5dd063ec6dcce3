/** Small shared definitions: the absent-or-present value that Python expresses
    with `None`, and the "first element that matches" search that the source
    writes as `next((x for x in s if p(x)), default)`. */
module Common {

  datatype Option<+T> = None | Some(value: T)

  /** The position of the first element of `s` that satisfies `p`, or `None`
      when no element does. */
  function FirstIndex<T>(s: seq<T>, p: T -> bool): (r: Option<nat>)
    ensures r.None? <==> forall i :: 0 <= i < |s| ==> !p(s[i])
    ensures r.Some? ==> r.value < |s| && p(s[r.value])
    ensures r.Some? ==> forall j :: 0 <= j < r.value ==> !p(s[j])
  {
    if |s| == 0 then None
    else if p(s[0]) then Some(0)
    else
      match FirstIndex(s[1..], p)
      case None => None
      case Some(i) => Some(i + 1)
  }
}
