/** Multiplication and division facts the solver does not find by itself.
 */
module Arithmetic {
  lemma MulMonotone(a: nat, b: nat, n: nat)
    requires a <= b
    ensures a * n <= b * n
  {
  }

  lemma MulMonotoneRight(n: nat, a: nat, b: nat)
    requires a <= b
    ensures n * a <= n * b
  {
  }

  lemma MulCancels(a: nat, b: nat, n: nat)
    requires a * n < b * n
    ensures a < b
  {
    if b <= a {
      MulMonotone(b, a, n);
    }
  }

  lemma DivFloor(a: nat, n: nat)
    requires n >= 1
    ensures a / n * n <= a
  {
    DivBrackets(a, n);
  }

  lemma DivBrackets(a: nat, n: nat)
    requires n >= 1
    ensures a / n * n <= a < (a / n + 1) * n
  {
    var q, r := a / n, a % n;
    assert a == n * q + r;
    assert (q + 1) * n == n * q + n;
  }

  lemma DivBetween(a: nat, n: nat, lo: nat, hi: nat)
    requires n >= 1 && lo * n <= a <= hi * n
    ensures lo <= a / n <= hi
  {
    DivBrackets(a, n);
    MulCancels(lo, a / n + 1, n);
    assert (hi + 1) * n == hi * n + n;
    MulCancels(a / n, hi + 1, n);
  }

  lemma DivBelow(a: nat, n: nat, k: nat)
    requires n >= 1 && a < k * n
    ensures a / n < k
  {
    DivFloor(a, n);
    MulCancels(a / n, k, n);
  }

  lemma WiderMultiple(a: nat, b: nat, k: nat, m: nat, n: nat)
    requires a <= b < k * m && m <= n
    ensures a < k * n
  {
    MulMonotoneRight(k, m, n);
  }

  lemma DivMonotone(a: nat, b: nat, m: nat, n: nat)
    requires a <= b && 1 <= m <= n
    ensures a / n <= b / m
  {
    DivBrackets(b, m);
    WiderMultiple(a, b, b / m + 1, m, n);
    DivBelow(a, n, b / m + 1);
  }

  lemma MulAssociates(a: nat, b: nat, n: nat)
    ensures a * b * n == a * (b * n)
  {
  }

  lemma DivTwice(a: nat, m: nat, n: nat)
    requires m >= 1 && n >= 1
    ensures n * m >= 1 && a / (n * m) == a / m / n
  {
    var p := a / m;
    var q := p / n;
    DivBrackets(a, m);
    DivBrackets(p, n);
    MulMonotone(q * n, p, m);
    MulMonotone(p + 1, (q + 1) * n, m);
    MulAssociates(q, n, m);
    MulAssociates(q + 1, n, m);
    MulMonotoneRight(n, 1, m);
    DivExactly(a, n * m, q);
  }

  lemma DivExactly(a: nat, n: nat, q: nat)
    requires n >= 1 && q * n <= a < (q + 1) * n
    ensures a / n == q
  {
    DivBrackets(a, n);
    MulCancels(q, a / n + 1, n);
    MulCancels(a / n, q + 1, n);
  }
}
