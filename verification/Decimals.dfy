/** What `%d` writes reads back, and a text that ends with it splits in one way only: addresses with a port
    (hub/dashboard/models.go:116, 143) and port keys (hub/dashboard/portal.go:629,
    agent/internal/config/config.go:204) say what they were made of. */
module Decimals {
  import opened Common

  predicate IsDigit(c: char) {
    '0' <= c <= '9'
  }

  predicate AllDigits(s: string) {
    forall i :: 0 <= i < |s| ==> IsDigit(s[i])
  }

  /** The number that decimal digits stand for. */
  function Read(s: string): nat
    requires AllDigits(s)
  {
    if s == [] then 0 else Read(s[..|s| - 1]) * 10 + (s[|s| - 1] - '0') as nat
  }

  /** The digits of `n` read back as `n`, without a leading zero. */
  lemma {:induction false} DigitsRead(n: nat)
    ensures AllDigits(Digits(n)) && Read(Digits(n)) == n
    ensures n > 0 ==> Digits(n)[0] != '0'
    ensures n == 0 ==> Digits(n) == "0"
  {
    var s := Digits(n);
    if n < 10 {
      assert s[..|s| - 1] == [];
    } else {
      DigitsRead(n / 10);
      assert s[..|s| - 1] == Digits(n / 10) && s[|s| - 1] == DigitChar(n % 10);
    }
  }

  /** A sign for a negative number, and digits that read back as the number without it. */
  lemma DecimalReads(n: int)
    ensures var s := Decimal(n);
            && s != []
            && (if n < 0 then s[0] == '-' && AllDigits(s[1..]) && Read(s[1..]) == -n
                else s[0] != '-' && AllDigits(s) && Read(s) == n)
  {
    if n < 0 {
      DigitsRead(-n);
      assert Decimal(n)[1..] == Digits(-n);
    } else {
      DigitsRead(n);
    }
  }

  lemma DecimalInjective(a: int, b: int)
    requires Decimal(a) == Decimal(b)
    ensures a == b
  {
    DecimalReads(a);
    DecimalReads(b);
  }

  /** A separator that is no digit and no sign stands nowhere in a decimal. */
  lemma NoSeparator(n: int, c: char)
    requires !IsDigit(c) && c != '-'
    ensures c !in Decimal(n)
  {
    DecimalReads(n);
    var s := Decimal(n);
    if n < 0 {
      forall i | 0 <= i < |s| ensures s[i] != c {
        assert i > 0 ==> s[i] == s[1..][i - 1];
      }
    }
  }

  /** Texts that end with a separator and a tail without it split there. */
  lemma SplitsOnce(a: string, c: char, x: string, b: string, y: string)
    requires c !in x && c !in y && a + [c] + x == b + [c] + y
    ensures a == b && x == y
  {
    var s := a + [c] + x;
    assert forall k :: |a| < k < |s| ==> s[k] == x[k - |a| - 1];
    assert forall k :: |b| < k < |s| ==> s[k] == y[k - |b| - 1];
    assert s[|a|] == c && s[|b|] == c;
    assert a == s[..|a|] && b == s[..|b|] && x == s[|a| + 1..] && y == s[|b| + 1..];
  }

  /** Whatever stands in front, a text with a decimal behind a separator says both. */
  lemma TaggedInjective(a: string, c: char, n: int, b: string, m: int)
    requires !IsDigit(c) && c != '-'
    ensures a + [c] + Decimal(n) == b + [c] + Decimal(m) <==> a == b && n == m
  {
    NoSeparator(n, c);
    NoSeparator(m, c);
    if a + [c] + Decimal(n) == b + [c] + Decimal(m) {
      SplitsOnce(a, c, Decimal(n), b, Decimal(m));
      DecimalInjective(n, m);
    }
  }
}
