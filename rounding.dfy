/** Python's `round(x, 2)`, taken on exact reals instead of binary floats:
    the nearest whole number of hundredths, a tie going to the even one. */
module Rounding {

  /** x is a whole number of hundredths. */
  predicate IsCents(x: real) {
    (x * 100.0).Floor as real == x * 100.0
  }

  /** The number of hundredths `round(x, 2)` picks for x: the nearest one,
      a tie going to the even one. */
  function CentsOf(x: real): int {
    var y := x * 100.0;
    var n := (y + 0.5).Floor;
    if n as real == y + 0.5 && n % 2 != 0 then n - 1 else n
  }

  function RoundCents(x: real): (r: real)
    ensures IsCents(r)
    ensures x - 0.005 <= r <= x + 0.005
  {
    CentsOf(x) as real / 100.0
  }

  /** Rounding leaves a value that already is whole hundredths alone. */
  lemma RoundCentsFixesCents(x: real)
    requires IsCents(x)
    ensures RoundCents(x) == x
  {
    var k := (x * 100.0).Floor;
    assert (x * 100.0 + 0.5).Floor == k;
  }

  /** No multiple of 1/100 is closer to x than RoundCents(x). */
  lemma RoundCentsNearest(x: real, c: real)
    requires IsCents(c)
    ensures var d := RoundCents(x) - x; var e := c - x;
            (if d < 0.0 then -d else d) <= (if e < 0.0 then -e else e)
  {
    var y := x * 100.0;
    var m := CentsOf(x);
    var k := (c * 100.0).Floor;
    assert k as real == c * 100.0;
    assert y - 0.5 <= m as real <= y + 0.5;
    if k < m {
      assert k as real <= m as real - 1.0;
    } else if k > m {
      assert k as real >= m as real + 1.0;
    }
  }

  /** A tie is broken towards an even number of hundredths. */
  lemma RoundCentsTieIsEven(x: real)
    requires IsCents(x + 0.005)
    ensures CentsOf(x) % 2 == 0
  {
    var y := x * 100.0;
    var t := ((x + 0.005) * 100.0).Floor;
    assert t as real == y + 0.5;
    assert (y + 0.5).Floor == t;
  }

  /** Rounding preserves order. */
  lemma RoundCentsMonotone(x: real, y: real)
    requires x <= y
    ensures RoundCents(x) <= RoundCents(y)
  {
    var nx := (x * 100.0 + 0.5).Floor;
    var ny := (y * 100.0 + 0.5).Floor;
    assert nx <= ny;
    var mx, my := CentsOf(x), CentsOf(y);
    if nx == ny {
      if my == ny - 1 {
        // y is a tie, so x, which lies below y with the same floor, is one as well
        assert ny as real == y * 100.0 + 0.5;
        assert nx as real <= x * 100.0 + 0.5;
        assert mx == nx - 1;
      }
    } else {
      assert mx <= nx <= ny - 1 <= my;
    }
    assert mx <= my;
  }
}
