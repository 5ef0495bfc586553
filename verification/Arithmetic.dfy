/** The integer operations of the source language that differ from the mathematical ones. */
module Arithmetic {
  function Max(a: int, b: int): int { if a < b then b else a }

  function Min(a: int, b: int): int { if a < b then a else b }

  /** The integer conversion of a real: towards zero. */
  function Trunc(r: real): int {
    if r < 0.0 then -((-r).Floor) else r.Floor
  }

  /** Integer division towards zero, by a positive divisor. */
  function Quo(a: int, b: int): int
    requires b > 0
  {
    if a < 0 then -((-a) / b) else a / b
  }

  lemma {:induction false} MulMonotone(x: int, y: int, d: int)
    requires x <= y && d >= 0
    ensures x * d <= y * d
  {
  }

  lemma {:induction false} DivMonotone(a: nat, b: nat, d: nat)
    requires a <= b && d > 0
    ensures a / d <= b / d
  {
    if a / d > b / d {
      MulMonotone(b / d + 1, a / d, d);
    }
  }

  lemma {:induction false} QuoMonotone(a: int, b: int, d: int)
    requires a <= b && d > 0
    ensures Quo(a, d) <= Quo(b, d)
  {
    if a >= 0 {
      DivMonotone(a, b, d);
    } else if b < 0 {
      DivMonotone(-b, -a, d);
    } else {
      DivMonotone(0, -a, d);
      DivMonotone(0, b, d);
    }
  }

  lemma {:induction false} QuotientReaches(a: nat, d: nat, n: nat)
    requires d > 0
    ensures a / d >= n <==> a >= d * n
  {
    assert a == d * (a / d) + a % d;
    if a / d >= n {
      MulMonotone(n, a / d, d);
    } else {
      MulMonotone(a / d + 1, n, d);
    }
  }

  lemma {:induction false} DivideBy(x: real, d: real)
    requires d > 0.0
    ensures x * d >= 0.0 ==> x >= 0.0
    ensures x * d > 0.0 ==> x > 0.0
  {
  }
}
