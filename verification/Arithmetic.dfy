/** Facts about products and integer division that the solver needs one at a time.
  *
  * Products of two variables and division by a variable are outside what it decides, so the
  * other modules bring them in only through these lemmas:
  *
  *   - products grow with their factors (`MulAtMost`, `MulBelow`);
  *   - rounding down is characterised by its bounds (`FloorBounds`, `FloorUnique`, `FloorIs`);
  *   - rounding up is the least cover (`CeilingAtMost`, `CeilingBounds`, `CeilingNearFloor`);
  *   - a number with its quotient and remainder given has just these (`ModIs`).
  */
module Arithmetic {

  function Max(a: int, b: int): int {
    if a < b then b else a
  }

  function Min(a: int, b: int): int {
    if a < b then a else b
  }

  lemma MulAtMost(a: int, b: int, c: nat)
    requires a <= b
    ensures a * c <= b * c
  {
  }

  lemma MulBelow(a: int, b: int, c: nat)
    requires a < b
    ensures a * c + c <= b * c
  {
    MulAtMost(a + 1, b, c);
    assert (a + 1) * c == a * c + c;
  }

  lemma FloorBounds(x: int, d: nat)
    requires d > 0
    ensures x / d * d <= x < x / d * d + d
  {
    assert x == d * (x / d) + x % d;
  }

  lemma FloorUnique(x: int, d: nat, q: int)
    requires d > 0 && q * d <= x < q * d + d
    ensures x / d == q
  {
    FloorBounds(x, d);
    var r := x / d;
    if q < r {
      MulBelow(q, r, d);
    } else if r < q {
      MulBelow(r, q, d);
    }
  }

  lemma FloorIs(x: int, d: nat, q: int)
    requires d > 0
    ensures x / d == q <==> q * d <= x < q * d + d
  {
    FloorBounds(x, d);
    if q * d <= x < q * d + d {
      FloorUnique(x, d, q);
    }
  }

  /** Rounding up gives the least multiple that covers. */
  lemma CeilingAtMost(x: int, d: nat, a: int)
    requires d > 0
    ensures (x + d - 1) / d <= a <==> x <= a * d
  {
    var c := (x + d - 1) / d;
    FloorBounds(x + d - 1, d);
    if c <= a {
      MulAtMost(c, a, d);
    } else {
      MulBelow(a, c, d);
    }
  }

  lemma CeilingBounds(x: int, d: nat)
    requires d > 0
    ensures x <= (x + d - 1) / d * d < x + d
  {
    FloorBounds(x + d - 1, d);
  }

  lemma CeilingNearFloor(x: int, d: nat)
    requires d > 0
    ensures x / d <= (x + d - 1) / d <= x / d + 1
  {
    var q := x / d;
    FloorBounds(x, d);
    CeilingBounds(x, d);
    var c := (x + d - 1) / d;
    assert (q + 1) * d == q * d + d;
    if c < q {
      MulBelow(c, q, d);
    } else if q + 1 < c {
      MulBelow(q + 1, c, d);
    }
  }

  lemma ModIs(x: int, d: nat, q: int, r: int)
    requires d > 0 && x == q * d + r && 0 <= r < d
    ensures x % d == r && x / d == q
  {
    FloorUnique(x, d, q);
    assert x == d * (x / d) + x % d;
  }
}
