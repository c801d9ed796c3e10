/** Facts about multiplication and division that need a proof of their own. */
module Arithmetic {

  lemma QuotientBound(n: nat, size: nat, q: nat, r: nat)
    requires 0 < size && n == size * q + r
    ensures q <= n
  {
    MulAtLeast(size, q);
  }

  lemma {:induction false} MulAtLeast(size: nat, q: nat)
    requires 0 < size
    ensures size * q >= q
  {
    if size > 1 {
      MulAtLeast(size - 1, q);
      assert size * q == (size - 1) * q + q;
    }
  }

  lemma Reassociate(a: nat, b: nat, c: nat)
    ensures a * (b * c) == b * (a * c)
  {
  }

  lemma Distribute(a: nat, b: nat, c: nat)
    ensures a * (b + c) == a * b + a * c
  {
  }

  lemma QuotientUnique(n: nat, size: nat, q: nat, r: nat)
    requires 0 < size && n == size * q + r && r < size
    ensures n / size == q
  {
    var q', r' := n / size, n % size;
    assert n == size * q' + r';
    MulMonotone(size, q + 1, q');
    MulMonotone(size, q' + 1, q);
  }

  lemma MulMonotone(size: nat, a: nat, b: nat)
    ensures a <= b ==> size * a <= size * b
  {
    if a <= b {
      assert size * b == size * a + size * (b - a);
    }
  }
}
