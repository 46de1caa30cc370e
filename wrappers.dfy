/** Python values the core passes around: optional values and the truthiness tests
    (`if x:`, `a or b`) the source applies to them. */
module Wrappers {

  /** `None` or a present value. */
  datatype Option<+T> = None | Some(value: T)

  /** Python truthiness of an optional string: `None` and `""` are falsy. */
  predicate Truthy(s: Option<string>)
  {
    s.Some? && s.value != ""
  }

  /** Python truthiness of an optional list: `None` and `[]` are falsy. */
  predicate NonEmptyList<T>(s: Option<seq<T>>)
  {
    s.Some? && s.value != []
  }

  /** Python's `a or b` on optional strings: the first operand when it is truthy,
      otherwise the second one exactly as it is (possibly `None` or `""`). */
  function Or(a: Option<string>, b: Option<string>): (r: Option<string>)
    ensures Truthy(a) ==> r == a
    ensures !Truthy(a) ==> r == b
    ensures Truthy(r) <==> Truthy(a) || Truthy(b)
  {
    if Truthy(a) then a else b
  }

  /** Python's `xs or []` on an optional list. */
  function OrEmpty<T>(xs: Option<seq<T>>): (r: seq<T>)
    ensures NonEmptyList(xs) ==> r == xs.value
    ensures !NonEmptyList(xs) ==> r == []
  {
    if xs.Some? then xs.value else []
  }
}
