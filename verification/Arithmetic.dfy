/** Division with remainder, and powers of two. */
module Arithmetic {
  function PowerOfTwo(k: nat): nat {
    if k == 0 then 1 else 2 * PowerOfTwo(k - 1)
  }

  lemma SmallMultiple(d: int, k: int)
    requires d > 0 && -d < d * k < d
    ensures k == 0
  {
  }

  lemma Division(n: int, d: int, q: int, r: int)
    requires 0 <= r < d && n == d * q + r
    ensures n / d == q && n % d == r
  {
    var k := n / d - q;
    assert d * k == r - n % d by {
      assert n == d * (n / d) + n % d;
      assert d * k == d * (n / d) - d * q;
    }
    SmallMultiple(d, k);
  }

  lemma OneLess(n: int, d: int)
    requires d > 0
    ensures (n - d) / d == n / d - 1 && (n - d) % d == n % d
  {
    var q, r := n / d, n % d;
    assert n == d * q + r;
    assert n - d == d * (q - 1) + r;
    Division(n - d, d, q - 1, r);
  }
}
