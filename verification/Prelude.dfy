/** Small definitions that several components share. */
module Prelude {

  datatype Option<+T> = None | Some(value: T)

  /** Python's truth value of an optional string: present and not empty. */
  function Truthy(s: Option<string>): bool {
    s.Some? && s.value != ""
  }

  function ToSet<T(==)>(s: seq<T>): set<T> {
    set x | x in s
  }

  lemma SubsetSize<T>(a: set<T>, b: set<T>)
    requires a <= b
    ensures |a| <= |b|
  {
    assert b == a + (b - a);
  }
}
