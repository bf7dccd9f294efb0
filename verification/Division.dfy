/** Quotients and remainders of natural numbers. */
module Division {

  lemma Multiple(n: nat, d: int)
    ensures d >= 1 ==> n * d >= n
    ensures d <= -1 ==> n * d + n <= 0
  {
    if d >= 1 {
      assert n * d == n * (d - 1) + n;
    } else if d <= -1 {
      assert n * d == n * (d + 1) - n && n * (d + 1) == -(n * (-d - 1));
    }
  }

  lemma DivisionIs(a: nat, n: nat, q: int, r: nat)
    requires r < n && a == n * q + r
    ensures a / n == q && a % n == r
  {
    var s := a / n;
    assert n * (q - s) == n * q - n * s == a % n - r;
    Multiple(n, q - s);
  }

  /** `count` pieces of size `unit` are enough for `total` and one fewer is not;
      something takes at least one piece even when it is empty. */
  predicate Filled(total: nat, unit: nat, count: nat) {
    count >= 1 && total <= count * unit && (count > 1 ==> (count - 1) * unit < total)
  }

  lemma FilledIsCeiling(total: nat, unit: nat, count: nat)
    requires unit > 0 && Filled(total, unit, count)
    ensures count == if total == 0 then 1 else (total + unit - 1) / unit
  {
    if total > 0 {
      DivisionIs(total + unit - 1, unit, count, total + unit - 1 - unit * count);
    }
  }
}
