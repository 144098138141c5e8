/** Facts about division by a variable, for the modules that count around. */
module Division {
  lemma Cancel(n: nat, c: int, q: int)
    requires n * q - n < n * c < n * q + n
    ensures c == q
  {
    if c < q {
      assert n * (q - 1) == n * q - n;
      Monotone(n, c, q - 1);
    } else if c > q {
      assert n * (q + 1) == n * q + n;
      Monotone(n, q + 1, c);
    }
  }

  lemma Monotone(n: nat, a: int, b: int)
    requires a <= b
    ensures n * a <= n * b
  {
    assert n * b == n * a + n * (b - a);
  }

  lemma Distribute(n: nat, a: int, c: int)
    ensures n * (a + c) == n * a + n * c
  {
  }

  lemma UniqueRemainder(a: int, n: nat, q: int, r: nat)
    requires n > 0 && a == n * q + r && r < n
    ensures a / n == q && a % n == r
  {
    assert a == n * (a / n) + a % n;
    Cancel(n, a / n, q);
  }

  /** Remainders stay equal when both numbers grow by one. */
  lemma SuccessorRemainder(a: nat, b: nat, n: nat)
    requires n > 0 && a % n == b % n
    ensures (a + 1) % n == (b + 1) % n
  {
    SuccessorOf(a, n);
    SuccessorOf(b, n);
  }

  lemma SuccessorOf(a: nat, n: nat)
    requires n > 0
    ensures (a + 1) % n == if a % n + 1 < n then a % n + 1 else 0
  {
    var q, r := a / n, a % n;
    assert a == n * q + r;
    if r + 1 < n {
      UniqueRemainder(a + 1, n, q, r + 1);
    } else {
      Distribute(n, q, 1);
      UniqueRemainder(a + 1, n, q + 1, 0);
    }
  }
}
