/** Integer division and remainder as C++ defines them on `int`: the quotient is
    truncated toward zero and the remainder takes the sign of the dividend.
    Dafny's own `/` and `%` are Euclidean; the two agree only for a
    non-negative dividend and a positive divisor. The contracts below avoid
    products of two unknowns; the identity that ties quotient and remainder
    together is the lemma `DivisionIdentity`. */
module CInt {

  function Abs(x: int): (r: nat)
    ensures r == x || r == -x
  {
    if x < 0 then -x else x
  }

  /** C++ `a / b`: the magnitudes divide, and the sign is negative exactly
      when the operands' signs differ (unless the quotient is zero). */
  function Quot(a: int, b: int): (q: int)
    requires b != 0
    ensures Abs(q) == Abs(a) / Abs(b)
    ensures q == 0 || (q < 0 <==> (a < 0) != (b < 0))
    ensures a >= 0 && b > 0 ==> q == a / b
  {
    var m := Abs(a) / Abs(b);
    DivBounds(Abs(a), Abs(b));
    if (a < 0) == (b < 0) then m else -m
  }

  /** C++ `a % b`: the magnitude is that of the operands' remainder, and the
      sign is the dividend's. */
  function Rem(a: int, b: int): (r: int)
    requires b != 0
    ensures Abs(r) == Abs(a) % Abs(b) && Abs(r) < Abs(b)
    ensures r == 0 || (r < 0 <==> a < 0)
    ensures a >= 0 && b > 0 ==> r == a % b
  {
    if a >= 0 then Abs(a) % Abs(b) else -(Abs(a) % Abs(b))
  }

  /** What C++ requires of its two operators: `(a / b) * b + a % b == a`. */
  lemma DivisionIdentity(a: int, b: int)
    requires b != 0
    ensures Quot(a, b) * b + Rem(a, b) == a
  {
    var m: int, n: int := Abs(a), Abs(b);
    var t := m / n;
    assert m == t * n + m % n;
    var q, r := Quot(a, b), Rem(a, b);
    if a >= 0 && b > 0 {
      assert q * b == t * n;
    } else if a >= 0 {
      SignedProduct(t, n, -t, -n);
      assert q * b == t * n;
    } else if b > 0 {
      SignedProduct(t, n, -t, n);
      assert q * b == -(t * n);
    } else {
      SignedProduct(t, n, t, -n);
      assert q * b == -(t * n);
    }
  }

  /** Products of the operands with their signs changed. */
  lemma SignedProduct(t: int, n: int, x: int, y: int)
    requires (x == t || x == -t) && (y == n || y == -n)
    ensures x * y == (if (x == t) == (y == n) then t * n else -(t * n))
  {
  }

  /** A non-negative quotient by a positive divisor lies between zero and
      the dividend. */
  lemma DivBounds(m: int, n: int)
    requires m >= 0 && n > 0
    ensures 0 <= m / n <= m
  {
    MulBounds(n, m / n);
  }

  /** A positive factor keeps a product on the side of zero of the other one. */
  lemma MulBounds(n: int, q: int)
    ensures n > 0 && q < 0 ==> n * q <= -n
    ensures n > 0 && q > 0 ==> n * q >= q
  {
  }
}
