/** Small shared vocabulary: optional references, the attribute bag read with
    a default of zero, and the C++ conversions the ship code relies on
    (truncating double-to-int casts and truncating integer division). */
module Basics {

  /** A reference that may be null, or a weak reference that may have expired. */
  datatype Option<T> = None | Some(value: T)

  /** Handles for catalog entries and for other ships (the source holds raw
      or weak references to them). */
  type SystemId = string
  type GovernmentId = string
  type ShipId = nat

  /** A bag of named numeric stats. An absent name reads as zero. */
  type Attributes = map<string, real>

  function Get(attributes: Attributes, key: string): (r: real)
    ensures key !in attributes ==> r == 0.0
    ensures key in attributes ==> r == attributes[key]
  {
    if key in attributes then attributes[key] else 0.0
  }

  function Min(a: real, b: real): (r: real)
    ensures r <= a && r <= b && (r == a || r == b)
  {
    if a <= b then a else b
  }

  function Max(a: real, b: real): (r: real)
    ensures r >= a && r >= b && (r == a || r == b)
  {
    if a >= b then a else b
  }

  /** `std::max` on the source's integers (crew counts, explosion totals);
      `Max` above is the one on its doubles. */
  function MaxInt(a: int, b: int): (r: int)
    ensures r >= a && r >= b && (r == a || r == b)
  {
    if a >= b then a else b
  }

  /** `static_cast<int>` of a double: rounds toward zero. */
  function Trunc(x: real): (r: int)
    ensures 0.0 <= x ==> 0 <= r && r as real <= x < r as real + 1.0
    ensures x < 0.0 ==> r <= 0 && r as real - 1.0 < x <= r as real
  {
    if x >= 0.0 then x.Floor else -((-x).Floor)
  }

  /** C++ `/` on `int`: the quotient is rounded toward zero. */
  function Quot(a: int, b: int): (q: int)
    requires b != 0
    ensures 0 <= a && 0 < b ==> 0 <= q && q * b <= a < q * b + b
  {
    var n := if a < 0 then -a else a;
    var d := if b < 0 then -b else b;
    if (a < 0) == (b < 0) then n / d else -(n / d)
  }
}
