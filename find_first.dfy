/** Lookup of a frequency on a frequency axis (`fast_find_first`). */
module FreqIndex {
  import opened Common

  /** `i` is the first position of `v` in `s`. */
  predicate IsFirstIndex(s: seq<real>, v: real, i: nat) {
    i < |s| && s[i] == v && forall j :: 0 <= j < i ==> s[j] != v
  }

  /** Position of the first occurrence of `v` in `s`, or None when `v` does not occur
      (the source raises in that case). A linear scan standing in for `fast_find_first`,
      whose source is not part of this model: only its contract is relied upon. */
  function FindFirst(s: seq<real>, v: real): (r: Option<nat>)
    ensures r.Some? <==> v in s
    ensures r.Some? ==> IsFirstIndex(s, v, r.value)
  {
    if |s| == 0 then None
    else if s[0] == v then Some(0)
    else
      match FindFirst(s[1..], v)
      case None => None
      case Some(i) => Some(i + 1)
  }
}
