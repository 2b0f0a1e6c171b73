// backend/crypto/dh.py: the group arithmetic of section 2.1.1 of RFC 2631.

module DiffieHellman {

  function Pow(b: nat, e: nat): nat
  {
    if e == 0 then 1 else b * Pow(b, e - 1)
  }

  // One side's public value or shared secret.
  function PowMod(b: nat, e: nat, p: nat): nat
    requires p > 0
  {
    Pow(b, e) % p
  }

  // Pow is exponentiation.
  lemma PowLaws(b: nat, e: nat)
    ensures Pow(b, 0) == 1 && Pow(b, 1) == b && Pow(b, e + 1) == b * Pow(b, e)
  {
  }

  lemma {:induction false} PowAdd(b: nat, d: nat, e: nat)
    ensures Pow(b, d + e) == Pow(b, d) * Pow(b, e)
  {
    if d != 0 {
      PowAdd(b, d - 1, e);
      assert b * (Pow(b, d - 1) * Pow(b, e)) == (b * Pow(b, d - 1)) * Pow(b, e);
    }
  }

  lemma {:induction false} PowPow(b: nat, d: nat, e: nat)
    ensures Pow(Pow(b, d), e) == Pow(b, d * e)
  {
    if e == 0 {
      assert d * 0 == 0;
    } else {
      PowPow(b, d, e - 1);
      PowAdd(b, d, d * (e - 1));
      assert d + d * (e - 1) == d * e;
    }
  }

  lemma {:induction false} ModCancels(k: nat, p: nat, r: nat)
    requires p > 0
    ensures (k * p + r) % p == r % p
  {
    if k != 0 {
      ModCancels(k - 1, p, r);
      assert k * p + r == p + ((k - 1) * p + r);
      ModPeriod((k - 1) * p + r, p);
    }
  }

  lemma ModPeriod(x: nat, p: nat)
    requires p > 0
    ensures (p + x) % p == x % p
  {
    var q, r := x / p, x % p;
    assert p + x == (q + 1) * p + r by {
      assert x == q * p + r;
      assert (q + 1) * p == q * p + p;
    }
    DivModUnique(p + x, p, q + 1, r);
  }

  lemma DivModUnique(x: nat, p: nat, q: nat, r: nat)
    requires p > 0 && r < p && x == q * p + r
    ensures x % p == r
  {
    var q', r' := x / p, x % p;
    assert x == q' * p + r';
    assert (q + 1) * p == q * p + p && (q' + 1) * p == q' * p + p;
    if q' > q {
      MulMonotone(q + 1, q', p);
    } else if q' < q {
      MulMonotone(q' + 1, q, p);
    }
  }

  lemma MulMonotone(a: nat, b: nat, p: nat)
    requires a <= b
    ensures a * p <= b * p
  {
    assert b * p == a * p + (b - a) * p;
  }

  lemma MulMod(x: nat, y: nat, p: nat)
    requires p > 0
    ensures (x * (y % p)) % p == (x * y) % p
  {
    var k := y / p;
    assert y == k * p + y % p;
    assert x * y == (x * k) * p + x * (y % p) by {
      assert x * (k * p + y % p) == x * (k * p) + x * (y % p);
      assert x * (k * p) == (x * k) * p;
    }
    ModCancels(x * k, p, x * (y % p));
  }

  lemma {:induction false} PowOfMod(x: nat, e: nat, p: nat)
    requires p > 0
    ensures Pow(x % p, e) % p == Pow(x, e) % p
  {
    if e != 0 {
      var a, b := Pow(x % p, e - 1), Pow(x, e - 1);
      PowOfMod(x, e - 1, p);
      MulMod(x % p, a, p);
      MulMod(x % p, b, p);
      MulMod(b, x, p);
      assert (x % p) * b == b * (x % p) && x * b == b * x;
    }
  }

  // Both sides compute the same secret, for every modulus, generator and pair of exponents.
  lemma SecretsAgree(p: nat, g: nat, a: nat, b: nat)
    requires p > 0
    ensures PowMod(PowMod(g, b, p), a, p) == PowMod(PowMod(g, a, p), b, p)
    ensures PowMod(PowMod(g, b, p), a, p) == PowMod(g, a * b, p)
  {
    PowOfMod(Pow(g, b), a, p);
    PowOfMod(Pow(g, a), b, p);
    PowPow(g, b, a);
    PowPow(g, a, b);
    assert a * b == b * a;
  }
}
