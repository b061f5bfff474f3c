/** Integer stand-ins for the two places where the status board turns a
    fractional JavaScript number into a whole one: `parseInt(x, 10)`, which
    truncates toward zero, and `Date.prototype.setDate`, which drops the
    fractional part of a day count. */
module Numeric {

  function Abs(n: int): (r: nat)
    ensures r == n || r == -n
  {
    if n < 0 then -n else n
  }

  /** Dafny's `/` on a positive divisor leaves a remainder in [0, d). */
  lemma DivBounds(n: int, d: int)
    requires d > 0
    ensures (n / d) * d <= n < (n / d) * d + d
  {
    assert n == d * (n / d) + n % d;
  }

  lemma NegateProduct(a: int, b: int)
    ensures (-a) * b == -(a * b) && a * (-b) == -(a * b) && (-a) * (-b) == a * b
  {
  }

  /** The integer part of the exact quotient n / d, truncated toward zero, as
      `parseInt(n / d, 10)` yields it for quotients of moderate size:
      `q * d` is the multiple of `d` nearest to `n` on zero's side of it. */
  function TruncDiv(n: int, d: int): (q: int)
    requires d != 0
    ensures 0 <= n ==> 0 <= q * d <= n < q * d + Abs(d)
    ensures n < 0 ==> q * d - Abs(d) < n <= q * d <= 0
  {
    var m := Abs(n) / Abs(d);
    var q := if (n >= 0) == (d > 0) then m else -m;
    TruncBounds(n, d, m, q);
    q
  }

  lemma TruncBounds(n: int, d: int, m: int, q: int)
    requires d != 0 && m == Abs(n) / Abs(d)
    requires q == if (n >= 0) == (d > 0) then m else -m
    ensures 0 <= n ==> 0 <= q * d <= n < q * d + Abs(d)
    ensures n < 0 ==> q * d - Abs(d) < n <= q * d <= 0
  {
    var a: int, b: int := Abs(n), Abs(d);
    DivBounds(a, b);
    assert b > 0;
    assert m >= 0 by {
      if m < 0 { MulMonotone(m, -1, b); }
    }
    var p := m * b;
    MulMonotone(0, m, b);
    NegateProduct(m, b);
    if d > 0 && n >= 0 {
      assert q * d == p;
    } else if d > 0 {
      assert q * d == (-m) * b == -p;
    } else if n >= 0 {
      assert q * d == (-m) * (-b) == p;
    } else {
      assert q * d == m * (-b) == -p;
    }
  }

  /** The greatest integer not above the exact quotient n / d. */
  function FloorDiv(n: int, d: int): (q: int)
    requires d != 0
    ensures d > 0 ==> q * d <= n < q * d + d
    ensures d < 0 ==> q * d + d < n <= q * d
  {
    if d > 0 then
      DivBounds(n, d);
      n / d
    else
      DivBounds(-n, -d);
      NegateProduct((-n) / (-d), d);
      (-n) / (-d)
  }

  lemma MulMonotone(a: int, b: int, c: int)
    requires a <= b && c >= 0
    ensures a * c <= b * c
  {
    assert b * c - a * c == (b - a) * c;
  }

  /** The truncated share `q` of `part` in `whole`, on a scale of `scale`
      (100 for a percentage): the bracket a truncated quotient implies, and
      the range 0..scale when the part lies between 0 and the whole. */
  lemma ScaledShare(part: int, whole: int, scale: nat, q: int)
    requires whole != 0 && q == TruncDiv(part * scale, whole)
    ensures whole > 0 && part >= 0 ==> q * whole <= part * scale < (q + 1) * whole
    ensures 0 <= part <= whole ==> 0 <= q <= scale
  {
    if part >= 0 {
      MulMonotone(0, part, scale);
      assert 0 <= q * whole <= part * scale < q * whole + Abs(whole);
    }
    if 0 <= part <= whole {
      assert whole > 0;
      MulMonotone(part, whole, scale);
      if q < 0 {
        MulMonotone(q, -1, whole);
      }
      if q > scale {
        MulMonotone(scale + 1, q, whole);
      }
    }
  }
}
