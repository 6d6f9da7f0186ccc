/** Values as the client sees them after JSON decoding: a field may be absent
    (JavaScript `null` or `undefined`, both written `None` here), and
    conditions test "truthiness" rather than booleans. */
module Js {

  datatype Option<+T> = None | Some(value: T)

  /** A possibly absent string is truthy when it is present and not empty. */
  predicate Truthy(s: Option<string>) {
    s.Some? && s.value != ""
  }

  /** JavaScript `a || b` on possibly absent strings. */
  function Or(a: Option<string>, b: Option<string>): (r: Option<string>)
    ensures Truthy(a) ==> r == a
    ensures !Truthy(a) ==> r == b
    ensures Truthy(r) <==> Truthy(a) || Truthy(b)
  {
    if Truthy(a) then a else b
  }

  /** JavaScript `a || b` where `b` is a string literal, so the result is never absent. */
  function OrDefault(a: Option<string>, b: string): (r: string)
    ensures Truthy(a) ==> r == a.value
    ensures !Truthy(a) ==> r == b
  {
    if Truthy(a) then a.value else b
  }
}
