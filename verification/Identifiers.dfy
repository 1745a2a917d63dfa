/** Numbers in texts: the task ids fmt.Sprintf("t%d", counter) and exit codes. */
module Identifiers {

  const DIGITS := "0123456789"

  function Decimal(n: nat): (s: string)
    ensures s != ""
  {
    if n < 10 then [DIGITS[n]] else Decimal(n / 10) + [DIGITS[n % 10]]
  }

  function TaskId(n: nat): string {
    "t" + Decimal(n)
  }

  /** The verb "%d". */
  function Itoa(n: int): string {
    if n < 0 then "-" + Decimal(-n) else Decimal(n)
  }

  /** The number a text of digits stands for. */
  function NumberOf(s: string): int {
    if s == "" then 0 else 10 * NumberOf(s[..|s| - 1]) + (s[|s| - 1] as int - '0' as int)
  }

  /** The text of a number has digits only, and reads as that number. */
  lemma {:induction false} DecimalReads(n: nat)
    ensures NumberOf(Decimal(n)) == n && forall c :: c in Decimal(n) ==> '0' <= c <= '9'
  {
    var s := Decimal(n);
    DigitIs(n % 10);
    if n < 10 {
      assert s[..|s| - 1] == "";
    } else {
      DecimalReads(n / 10);
      assert s[..|s| - 1] == Decimal(n / 10);
    }
  }

  lemma DigitIs(d: nat)
    requires d < 10
    ensures DIGITS[d] as int == '0' as int + d
  {
  }

  /** A task id is the letter t and the counter. */
  lemma TaskIdReads(n: nat)
    ensures TaskId(n) != "" && TaskId(n)[0] == 't' && NumberOf(TaskId(n)[1..]) == n
  {
    DecimalReads(n);
    assert TaskId(n)[1..] == Decimal(n);
  }

  lemma DigitsDiffer(a: nat, b: nat)
    requires a < 10 && b < 10 && DIGITS[a] == DIGITS[b]
    ensures a == b
  {
  }

  lemma {:induction false} DecimalIsInjective(a: nat, b: nat)
    requires Decimal(a) == Decimal(b)
    ensures a == b
  {
    var s, t := Decimal(a), Decimal(b);
    assert s[|s| - 1] == t[|t| - 1] && s[..|s| - 1] == t[..|t| - 1];
    assert s[|s| - 1] == DIGITS[a % 10] && t[|t| - 1] == DIGITS[b % 10];
    DigitsDiffer(a % 10, b % 10);
    if a >= 10 && b >= 10 {
      assert s[..|s| - 1] == Decimal(a / 10) && t[..|t| - 1] == Decimal(b / 10);
      DecimalIsInjective(a / 10, b / 10);
    }
  }

  /** Different counters give different ids. */
  lemma TaskIdIsInjective(a: nat, b: nat)
    requires TaskId(a) == TaskId(b)
    ensures a == b
  {
    assert TaskId(a)[1..] == Decimal(a) && TaskId(b)[1..] == Decimal(b);
    DecimalIsInjective(a, b);
  }
}
