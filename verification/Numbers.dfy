/** Numbers written in decimal digits. */
module Numbers {
  predicate Digits(s: string) {
    forall i :: 0 <= i < |s| ==> '0' <= s[i] <= '9'
  }

  function Power10(n: nat): nat {
    if n == 0 then 1 else 10 * Power10(n - 1)
  }

  /** The number that a string of digits stands for. */
  function Number(s: string): nat
    requires Digits(s)
  {
    if s == [] then 0 else (s[0] - '0') as nat * Power10(|s| - 1) + Number(s[1..])
  }

  lemma HigherDigit(a: nat, b: nat, p: nat)
    requires a < b
    ensures a * p + p <= b * p
  {
    if a + 1 < b {
      HigherDigit(a, b - 1, p);
    }
    assert b * p == (b - 1) * p + p;
  }

  lemma {:induction false} NumberBound(s: string)
    requires Digits(s)
    ensures Number(s) < Power10(|s|)
  {
    if s != [] {
      NumberBound(s[1..]);
      HigherDigit((s[0] - '0') as nat, 10, Power10(|s| - 1));
    }
  }
}
