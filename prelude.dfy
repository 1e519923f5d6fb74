/** Small failure-compatible wrappers and a first-failure search shared by the two
    TypeScript files that are modelled. */
module Prelude {

  /** The value of an optional field (`undefined` in TypeScript is `None`). */
  datatype Option<+T> = None | Some(value: T)

  /** A thrown error (`Failure`) or a normal completion (`Success`). */
  datatype Result<+R, +E> = Success(value: R) | Failure(error: E)

  /** The index of the first element of `s` for which `succeeds` is false,
      or `|s|` when every element succeeds. */
  function FirstFailure<T>(s: seq<T>, succeeds: T -> bool): (k: nat)
    ensures k <= |s|
    ensures forall j :: 0 <= j < k ==> succeeds(s[j])
    ensures k < |s| ==> !succeeds(s[k])
    decreases |s|
  {
    if s == [] then 0
    else if !succeeds(s[0]) then 0
    else 1 + FirstFailure(s[1..], succeeds)
  }

  /** The contract of FirstFailure determines it: any index that satisfies
      it is the one FirstFailure returns. */
  lemma FirstFailureIs<T>(s: seq<T>, succeeds: T -> bool, k: nat)
    requires k <= |s|
    requires forall j :: 0 <= j < k ==> succeeds(s[j])
    requires k < |s| ==> !succeeds(s[k])
    ensures FirstFailure(s, succeeds) == k
  {
  }
}
