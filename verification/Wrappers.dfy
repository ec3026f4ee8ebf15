/** What every module shares. */
module Wrappers {
  datatype Option<+T> = None | Some(value: T)

  lemma MulMono(a: nat, b: nat, c: nat)
    requires a <= b
    ensures a * c <= b * c
  {}
}
