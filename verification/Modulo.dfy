/** Facts about remainders. */
module Modulo {
  lemma MultipleIsFar(k: int, n: int)
    requires n > 0
    ensures k >= 1 ==> k * n >= n
    ensures k <= -1 ==> k * n <= -n
  {
  }

  lemma SmallMultiple(k: int, n: int)
    requires n > 0 && -n < k * n < n
    ensures k == 0
  {
    MultipleIsFar(k, n);
  }

  lemma DivModUnique(q: int, r: int, n: int)
    requires 0 <= r < n
    ensures (q * n + r) % n == r
  {
    var x := q * n + r;
    var q' := x / n;
    assert x == q' * n + x % n;
    assert (q - q') * n == q * n - q' * n;
    SmallMultiple(q - q', n);
  }

  lemma SameRemainder(a: int, b: int, n: nat)
    requires n > 0
    ensures a % n == b % n <==> (a - b) % n == 0
  {
    var qa, qb := a / n, b / n;
    assert a == qa * n + a % n && b == qb * n + b % n;
    var d := a % n - b % n;
    assert a - b == (qa - qb) * n + d by {
      assert (qa - qb) * n == qa * n - qb * n;
    }
    if (a - b) % n == 0 {
      var q := (a - b) / n;
      assert a - b == q * n;
      assert (q - (qa - qb)) * n == d by {
        assert (q - (qa - qb)) * n == q * n - (qa - qb) * n;
      }
      SmallMultiple(q - (qa - qb), n);
    }
    if d == 0 {
      assert a - b == (qa - qb) * n;
      DivModUnique(qa - qb, 0, n);
    }
  }

  lemma AddMultiple(a: int, k: int, m: int)
    requires m > 0
    ensures (a + k * m) % m == a % m
  {
    var q := a / m;
    assert a + k * m == (q + k) * m + a % m by {
      assert (q + k) * m == q * m + k * m;
    }
    DivModUnique(q + k, a % m, m);
  }
}
