/** The array sanitiser `cpl_absint_array`: `absint` applied to every element
    of an array, and an empty array for anything that is not an array. */
module Sanitize {
  import opened Common

  /** `absint` on an integer: its absolute value. */
  function Absint(x: int): (r: nat)
    ensures r == x || r == -x
  {
    if x < 0 then -x else x
  }

  /** `cpl_absint_array`; `None` stands for a value that is not an array. */
  function AbsintArray(arr: Option<seq<int>>): (r: seq<nat>)
    ensures arr.None? ==> r == []
    ensures arr.Some? ==> |r| == |arr.value| && forall i :: 0 <= i < |r| ==> r[i] == Absint(arr.value[i])
  {
    match arr
    case None => []
    case Some(a) => seq(|a|, i requires 0 <= i < |a| => Absint(a[i]))
  }

  /** Sanitising an already sanitised array changes nothing. */
  lemma AbsintArrayIdempotent(arr: Option<seq<int>>)
    ensures AbsintArray(Some(AbsintArray(arr))) == AbsintArray(arr)
  {
  }
}
