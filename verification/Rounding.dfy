/** Python's `round`, on exact numbers: to the nearest value, ties to the even one. */
module Rounding {

  function RoundHalfEven(x: real): (r: int)
    ensures r as real - 0.5 <= x <= r as real + 0.5
    ensures x == r as real - 0.5 || x == r as real + 0.5 ==> r % 2 == 0
  {
    var floor := x.Floor;
    var rest := x - floor as real;
    if rest < 0.5 || (rest == 0.5 && floor % 2 == 0) then floor else floor + 1
  }

  function Scaled(x: real, scale: int): real {
    x * scale as real
  }

  function Unscaled(n: int, scale: int): real
    requires scale > 0
  {
    n as real / scale as real
  }

  /** `round(x, digits)`, where `scale` is the power of ten. */
  function RoundTo(x: real, scale: int): real
    requires scale > 0
  {
    Unscaled(RoundHalfEven(Scaled(x, scale)), scale)
  }

  lemma {:induction false} ProductsKeepOrder(x: real, y: real, n: real)
    requires x <= y && n >= 0.0
    ensures x * n <= y * n
  {
  }

  lemma {:induction false} RoundHalfEvenIsMonotone(a: real, b: real)
    requires a <= b
    ensures RoundHalfEven(a) <= RoundHalfEven(b)
  {
    assert a.Floor <= b.Floor;
  }

  lemma {:induction false} QuotientsKeepOrder(x: real, y: real, d: real)
    requires x <= y && d > 0.0
    ensures x / d <= y / d
  {
    var p, q := x / d, y / d;
    assert p * d == x && q * d == y;
    ProductsReflectOrder(p, q, d);
  }

  lemma {:induction false} OverItself(d: real)
    requires d != 0.0
    ensures d / d == 1.0 && 0.0 / d == 0.0
  {
  }

  lemma {:induction false} PartOfWhole(x: real, d: real)
    requires 0.0 <= x <= d && d > 0.0
    ensures 0.0 <= x / d <= 1.0
  {
    var q := x / d;
    assert q * d == x;
    ProductsReflectOrder(0.0, q, d);
    ProductsReflectOrder(q, 1.0, d);
  }

  lemma {:induction false} ProductsReflectOrder(p: real, q: real, d: real)
    requires p * d <= q * d && d > 0.0
    ensures p <= q
  {
    assert (q - p) * d >= 0.0;
  }

  lemma {:induction false} ScalingIsMonotone(x: real, y: real, scale: int)
    requires x <= y && scale > 0
    ensures Scaled(x, scale) <= Scaled(y, scale)
  {
    ProductsKeepOrder(x, y, scale as real);
  }

  lemma {:induction false} UnscalingIsMonotone(m: int, n: int, scale: int)
    requires m <= n && scale > 0
    ensures Unscaled(m, scale) <= Unscaled(n, scale)
  {
    QuotientsKeepOrder(m as real, n as real, scale as real);
  }

  /** Rounding never reverses an order. */
  lemma {:induction false} RoundingIsMonotone(x: real, y: real, scale: int)
    requires x <= y && scale > 0
    ensures RoundTo(x, scale) <= RoundTo(y, scale)
  {
    hide RoundHalfEven, Scaled, Unscaled;
    ScalingIsMonotone(x, y, scale);
    RoundHalfEvenIsMonotone(Scaled(x, scale), Scaled(y, scale));
    UnscalingIsMonotone(RoundHalfEven(Scaled(x, scale)), RoundHalfEven(Scaled(y, scale)), scale);
  }
}
