/** Rounding to a number of decimals: nearest, ties to the even neighbour. */
module Rounding {

  function NearestInt(y: real): int {
    var f := y.Floor;
    var d := y - f as real;
    if d < 0.5 || (d == 0.5 && f % 2 == 0) then f else f + 1
  }

  /** `scale` is the power of ten of the last kept decimal. */
  function Round(x: real, scale: real): real
    requires scale > 0.0
  {
    NearestInt(x * scale) as real / scale
  }

  /** The nearest integer, and of two equally near ones the even one. */
  lemma NearestIs(y: real, n: int)
    ensures NearestInt(y) == n <==>
            -0.5 < y - n as real < 0.5 || ((y - n as real == 0.5 || y - n as real == -0.5) && n % 2 == 0)
  {
  }

  lemma NearestMonotone(x: real, y: real)
    requires x <= y
    ensures NearestInt(x) <= NearestInt(y)
  {
  }

  lemma RoundMonotone(x: real, y: real, scale: real)
    requires scale > 0.0 && x <= y
    ensures Round(x, scale) <= Round(y, scale)
  {
    assert x * scale <= y * scale;
    NearestMonotone(x * scale, y * scale);
    DivideMonotone(NearestInt(x * scale) as real, NearestInt(y * scale) as real, scale);
  }

  lemma DivideMonotone(a: real, b: real, s: real)
    requires s > 0.0 && a <= b
    ensures a / s <= b / s
  {
  }

  /** Rounding moves a value by at most half a unit of the last decimal. */
  lemma RoundError(x: real, scale: real)
    requires scale > 0.0
    ensures -0.5 / scale <= Round(x, scale) - x <= 0.5 / scale
  {
    var n := NearestInt(x * scale) as real;
    assert -0.5 <= n - x * scale <= 0.5;
    DivideMonotone(-0.5, n - x * scale, scale);
    DivideMonotone(n - x * scale, 0.5, scale);
    assert (n - x * scale) / scale == n / scale - x;
  }

  /** A positive value survives rounding as positive exactly when it exceeds half a unit. */
  lemma RoundPositiveIff(x: real, scale: real)
    requires scale > 0.0 && x > 0.0
    ensures Round(x, scale) > 0.0 <==> x * scale > 0.5
  {
    var n := NearestInt(x * scale);
    assert x * scale > 0.0;
    assert n >= 0 && (n > 0 <==> x * scale > 0.5);
    if n > 0 {
      DivideMonotone(1.0, n as real, scale);
      assert 1.0 / scale > 0.0;
    }
  }

  // ----- what a NUMERIC column of the database keeps: nearest, ties away from zero

  function NearestAway(y: real): int { if y >= 0.0 then (y + 0.5).Floor else -(0.5 - y).Floor }

  /** `scale` is the power of ten of the column's last decimal. */
  function Stored(x: real, scale: real): real
    requires scale > 0.0
  {
    NearestAway(x * scale) as real / scale
  }

  /** The nearest integer, and of two equally near ones the one farther from 0. */
  lemma NearestAwayIs(y: real, n: int)
    ensures NearestAway(y) == n <==>
            || -0.5 < y - n as real < 0.5
            || (y - n as real == -0.5 && n > 0) || (y - n as real == 0.5 && n < 0)
  {
  }

  lemma NearestAwayMonotone(x: real, y: real)
    requires x <= y
    ensures NearestAway(x) <= NearestAway(y)
  {
  }

  lemma StoredMonotone(x: real, y: real, scale: real)
    requires scale > 0.0 && x <= y
    ensures Stored(x, scale) <= Stored(y, scale)
  {
    assert x * scale <= y * scale;
    NearestAwayMonotone(x * scale, y * scale);
    DivideMonotone(NearestAway(x * scale) as real, NearestAway(y * scale) as real, scale);
  }

  /** A positive value is stored as a positive one exactly from half a unit on. */
  lemma StoredPositiveIff(x: real, scale: real)
    requires scale > 0.0 && x > 0.0
    ensures Stored(x, scale) > 0.0 <==> x * scale >= 0.5
  {
    var n := NearestAway(x * scale);
    assert x * scale > 0.0;
    assert n >= 0 && (n > 0 <==> x * scale >= 0.5);
    if n > 0 {
      DivideMonotone(1.0, n as real, scale);
      assert 1.0 / scale > 0.0;
    }
  }
}
