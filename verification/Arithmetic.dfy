/** Products as repeated addition, to keep proofs linear. */
module Arithmetic {

  /** n times c, by repeated addition. */
  ghost function Times(n: nat, c: int): int {
    if n == 0 then 0 else c + Times(n - 1, c)
  }

  lemma {:induction false} TimesGrows(m: nat, n: nat, c: int)
    requires m <= n && c >= 0
    ensures Times(m, c) <= Times(n, c)
    ensures m < n ==> Times(m, c) + c <= Times(n, c)
  {
    if m < n {
      TimesGrows(m, n - 1, c);
    }
  }

  lemma {:induction false} TimesOneMore(n: nat, c: int)
    ensures Times(n, c + 1) == Times(n, c) + n
  {
    if n > 0 {
      TimesOneMore(n - 1, c);
    }
  }

  lemma {:induction false} TimesIsProduct(n: nat, c: int)
    ensures Times(n, c) == n * c
  {
    if n > 0 {
      TimesIsProduct(n - 1, c);
      assert n * c == (n - 1) * c + c;
    }
  }

  function CeilDiv(a: int, b: int): int
    requires b > 0
  {
    (a + b - 1) / b
  }
}
