/** The decimal text Python's f-strings give a non-negative integer
    (`f'{n}'`): digits only, no sign, no leading zeros. */
module Decimal {

  predicate IsDigit(ch: char)
  {
    '0' <= ch <= '9'
  }

  function DigitChar(d: int): (ch: char)
    requires 0 <= d < 10
    ensures IsDigit(ch) && ch as int - '0' as int == d
  {
    ('0' as int + d) as char
  }

  /** `f'{n}'` for n >= 0. */
  function Format(n: nat): string
    decreases n
  {
    if n < 10 then [DigitChar(n)] else Format(n / 10) + [DigitChar(n % 10)]
  }

  /** The value of a string of digits, read most significant digit first. */
  function Parse(s: string): nat
    requires forall i :: 0 <= i < |s| ==> IsDigit(s[i])
  {
    if s == [] then 0
    else
      assert IsDigit(s[|s| - 1]);
      Parse(s[..|s| - 1]) * 10 + (s[|s| - 1] as int - '0' as int)
  }

  /** The text of a number is a non-empty string of digits that reads back as that number;
      it starts with a non-zero digit unless the number is 0. */
  lemma {:induction false} ParseFormat(n: nat)
    ensures |Format(n)| > 0
    ensures forall i :: 0 <= i < |Format(n)| ==> IsDigit(Format(n)[i])
    ensures Parse(Format(n)) == n
    ensures n > 0 ==> Format(n)[0] != '0'
    decreases n
  {
    if n >= 10 {
      ParseFormat(n / 10);
      var s := Format(n);
      assert s[..|s| - 1] == Format(n / 10);
    }
  }

  /** Different numbers have different texts. */
  lemma FormatInjective(m: nat, n: nat)
    ensures Format(m) == Format(n) <==> m == n
  {
    ParseFormat(m);
    ParseFormat(n);
  }
}
