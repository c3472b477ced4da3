/** What the block hash says of the order of the tokens. */
module HashOrder {
  import opened Types
  import opened Modulo
  import opened TokenBuffer

  lemma {:induction false} PolynomialConcat(th: TokenHash, x: seq<Token>, y: seq<Token>)
    ensures Polynomial(th, x + y) == Polynomial(th, x) * Power(31, |y|) + Polynomial(th, y)
    decreases |y|
  {
    hide Polynomial;
    if y == [] {
      assert x + y == x;
      EmptyPolynomial(th);
    } else {
      var front, t := y[..|y| - 1], y[|y| - 1];
      assert x + y == (x + front) + [t] && y == front + [t];
      PolynomialConcat(th, x, front);
      PolynomialAppend(th, x + front, t);
      PolynomialAppend(th, front, t);
      var p, q := Polynomial(th, x), Power(31, |front|);
      assert p * (31 * q) == p * q * 31;
    }
  }

  lemma EmptyPolynomial(th: TokenHash)
    ensures Polynomial(th, []) == 0
  {
  }

  /** 31 is odd, so a factor of 31 does not matter modulo 2^64. */
  lemma Cancel31(z: int)
    ensures (31 * z) % 0x1_0000_0000_0000_0000 == 0 <==> z % 0x1_0000_0000_0000_0000 == 0
  {
    var m := 0x1_0000_0000_0000_0000;
    var inverse := 0xef7b_def7_bdef_7bdf;
    var q := (31 * inverse - 1) / m;
    assert 31 * inverse == 1 + q * m;
    if (31 * z) % m == 0 {
      var k := 31 * z / m;
      assert 31 * z == k * m;
      assert z == (inverse * k - q * z) * m by {
        assert inverse * (31 * z) == inverse * (k * m);
        assert (31 * inverse) * z == z + q * z * m;
      }
      DivModUnique(inverse * k - q * z, 0, m);
    }
    if z % m == 0 {
      var k := z / m;
      assert 31 * z == (31 * k) * m;
      DivModUnique(31 * k, 0, m);
    }
  }

  lemma Regroup(z: int, q: int)
    ensures z * (31 * q) == 31 * (z * q)
  {
  }

  lemma {:induction false} CancelPower(z: int, n: nat)
    ensures (z * Power(31, n)) % 0x1_0000_0000_0000_0000 == 0 <==> z % 0x1_0000_0000_0000_0000 == 0
  {
    if n == 0 {
      assert z * 1 == z;
    } else {
      CancelPower(z, n - 1);
      Cancel31(z * Power(31, n - 1));
      Regroup(z, Power(31, n - 1));
      assert Power(31, n) == 31 * Power(31, n - 1);
    }
  }

  lemma Cancel30(d: int)
    ensures (30 * d) % 0x1_0000_0000_0000_0000 == 0 <==> d % 0x8000_0000_0000_0000 == 0
  {
    var half := 0x8000_0000_0000_0000;
    var inverse := 0x6eee_eeee_eeee_eeef;
    var q := (15 * inverse - 1) / half;
    assert 15 * inverse == 1 + q * half;
    if (30 * d) % (2 * half) == 0 {
      var k := 30 * d / (2 * half);
      assert 15 * d == k * half;
      assert d == (inverse * k - q * d) * half by {
        assert inverse * (15 * d) == inverse * (k * half);
        assert (15 * inverse) * d == d + q * d * half;
      }
      DivModUnique(inverse * k - q * d, 0, half);
    }
    if d % half == 0 {
      var k := d / half;
      assert 30 * d == (15 * k) * (2 * half);
      DivModUnique(15 * k, 0, 2 * half);
    }
  }

  lemma AppendTwo(th: TokenHash, x: seq<Token>, a: Token, b: Token)
    ensures Polynomial(th, x + [a, b]) == (Polynomial(th, x) * 31 + th(a)) * 31 + th(b)
  {
    hide Polynomial;
    assert x + [a, b] == (x + [a]) + [b];
    PolynomialAppend(th, x + [a], b);
    PolynomialAppend(th, x, a);
  }

  lemma ScaledDifference(u: int, v: int, p: int, q: int, k: int, r: int, d: int)
    requires u == p * k + r && v == q * k + r && p - q == d
    ensures u - v == d * k
  {
    assert (p - q) * k == p * k - q * k;
  }

  lemma TwoStepDifference(base: int, a: int, b: int)
    ensures ((base * 31 + a) * 31 + b) - ((base * 31 + b) * 31 + a) == 30 * (a - b)
  {
  }

  lemma SwapDifference(th: TokenHash, x: seq<Token>, a: Token, b: Token, y: seq<Token>)
    ensures (Polynomial(th, x + [a, b] + y) as int) - Polynomial(th, x + [b, a] + y)
            == (30 * ((th(a) as int) - (th(b) as int))) * Power(31, |y|)
  {
    hide Polynomial, Power;
    PolynomialConcat(th, x + [a, b], y);
    PolynomialConcat(th, x + [b, a], y);
    var p: int, q: int := Polynomial(th, x + [a, b]), Polynomial(th, x + [b, a]);
    assert p - q == 30 * ((th(a) as int) - (th(b) as int)) by {
      AppendTwo(th, x, a, b);
      AppendTwo(th, x, b, a);
      TwoStepDifference(Polynomial(th, x), th(a), th(b));
    }
    ScaledDifference(Polynomial(th, x + [a, b] + y), Polynomial(th, x + [b, a] + y), p, q,
                     Power(31, |y|), Polynomial(th, y), 30 * ((th(a) as int) - (th(b) as int)));
  }

  /** The hash depends on the order: swapping two neighbouring tokens keeps it if and only if their
      token hashes agree in the low 63 bits. */
  lemma SwapChangesHash(th: TokenHash, x: seq<Token>, a: Token, b: Token, y: seq<Token>)
    ensures BlockHash(th, x + [a, b] + y) == BlockHash(th, x + [b, a] + y)
            <==> th(a) % 0x8000_0000_0000_0000 == th(b) % 0x8000_0000_0000_0000
  {
    hide BlockHash, Polynomial;
    var p, q := x + [a, b] + y, x + [b, a] + y;
    var d := (th(a) as int) - (th(b) as int);
    HashIsPolynomial(th, p);
    HashIsPolynomial(th, q);
    SwapDifference(th, x, a, b, y);
    SameRemainder(Polynomial(th, p), Polynomial(th, q), 0x1_0000_0000_0000_0000);
    CancelPower(30 * d, |y|);
    Cancel30(d);
    SameRemainder(th(a), th(b), 0x8000_0000_0000_0000);
  }
}
