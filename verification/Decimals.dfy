/** Decimal digits and the numbers they stand for. */
module Decimals {
  import opened Division

  function Digit(d: nat): char
    requires d < 10
  {
    (d + '0' as int) as char
  }

  predicate IsDigit(c: char) {
    '0' <= c <= '9'
  }

  function Power10(k: nat): (p: nat)
    ensures p >= 1
  {
    if k == 0 then 1 else 10 * Power10(k - 1)
  }

  function Value(s: string): nat
    requires forall i | 0 <= i < |s| :: IsDigit(s[i])
  {
    if s == "" then
      0
    else
      assert IsDigit(s[|s| - 1]);
      10 * Value(s[..|s| - 1]) + (s[|s| - 1] as int - '0' as int)
  }

  /** The last digits of `n`, at most `width` of them and no leading zeros. */
  function Tail(n: nat, width: nat): string {
    if n == 0 || width == 0 then "" else Tail(n / 10, width - 1) + [Digit(n % 10)]
  }

  function Zeros(k: nat): string {
    if k == 0 then "" else ['0'] + Zeros(k - 1)
  }

  /** The digits are the usual ones. */
  lemma DigitsAreUsual(d: nat)
    requires d < 10
    ensures Digit(d) == "0123456789"[d] && IsDigit(Digit(d)) && Value([Digit(d)]) == d
  {
    assert [Digit(d)][..0] == "";
  }

  /** `s` has only digits, and they stand for `v`. */
  predicate Denotes(s: string, v: nat) {
    (forall i | 0 <= i < |s| :: IsDigit(s[i])) && Value(s) == v
  }

  lemma {:induction false} TailMeaning(n: nat, width: nat)
    ensures |Tail(n, width)| <= width && Denotes(Tail(n, width), n % Power10(width))
  {
    if n != 0 && width != 0 {
      var front := Tail(n / 10, width - 1);
      TailMeaning(n / 10, width - 1);
      assert Tail(n, width)[..|front|] == front;
      LastDigit(n, Power10(width - 1));
    } else if width == 0 {
      assert n % 1 == 0;
    }
  }

  /** Splitting off the last decimal digit of a remainder. */
  lemma LastDigit(n: nat, p: nat)
    requires p >= 1
    ensures n % (10 * p) == 10 * (n / 10 % p) + n % 10
  {
    var m := n / 10;
    var q, r := m / p, m % p;
    assert m == p * q + r;
    assert n == 10 * m + n % 10;
    assert n == 10 * p * q + (10 * r + n % 10) by {
      assert 10 * (p * q) == 10 * p * q;
    }
    UniqueRemainder(n, 10 * p, q, 10 * r + n % 10);
  }

  lemma {:induction false} ZerosMeaning(k: nat, s: string, v: nat)
    requires Denotes(s, v)
    ensures |Zeros(k)| == k && Denotes(Zeros(k) + s, v)
    decreases k + |s|
  {
    if s != "" {
      var last := s[|s| - 1] as int - '0' as int;
      ZerosMeaning(k, s[..|s| - 1], Value(s[..|s| - 1]));
      assert (Zeros(k) + s)[..k + |s| - 1] == Zeros(k) + s[..|s| - 1];
    } else if k > 0 {
      ZerosMeaning(k - 1, "", 0);
      ZerosFromTheBack(k);
      assert Zeros(k) + "" == Zeros(k) && Zeros(k - 1) + "" == Zeros(k - 1);
      assert Zeros(k)[..k - 1] == Zeros(k - 1);
    }
  }

  lemma {:induction false} ZerosFromTheBack(k: nat)
    requires k > 0
    ensures |Zeros(k)| == k && Zeros(k) == Zeros(k - 1) + ['0']
  {
    if k > 1 {
      ZerosFromTheBack(k - 1);
      assert ['0'] + (Zeros(k - 2) + ['0']) == ['0'] + Zeros(k - 2) + ['0'];
    }
  }

  /** How many digits are written: no leading zero unless the number was cut. */
  lemma {:induction false} TailLength(n: nat, width: nat)
    requires n > 0 && width > 0
    ensures var d := |Tail(n, width)|;
            && 1 <= d <= width
            && (n >= Power10(width) ==> d == width)
            && (n < Power10(width) ==> Power10(d - 1) <= n < Power10(d))
  {
    var p := Power10(width - 1);
    assert n == 10 * (n / 10) + n % 10;
    if n >= 10 {
      if width > 1 {
        TailLength(n / 10, width - 1);
        var d := |Tail(n, width)|;
        assert Power10(d - 1) == 10 * Power10(d - 2);
      } else {
        assert Power10(1) == 10 * Power10(0) == 10;
        assert |Tail(n / 10, 0)| == 0;
      }
    } else {
      assert n / 10 == 0 && |Tail(n / 10, width - 1)| == 0;
      assert Power10(1) == 10 * Power10(0) == 10;
      assert Power10(width) == 10 * p >= 10;
    }
  }

  lemma RemainderOfZero(p: nat)
    requires p >= 1
    ensures 0 % p == 0
  {
    UniqueRemainder(0, p, 0, 0);
  }
}
