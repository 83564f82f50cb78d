/** Text of decimal digits. */
module Decimals {
  predicate Digit(c: char) { '0' <= c <= '9' }

  predicate Digits(s: string) {
    forall c <- s :: Digit(c)
  }

  function Number(s: string): nat
    requires Digits(s)
  {
    if s == "" then 0
    else
      assert Digit(s[|s| - 1]) && forall c <- s[..|s| - 1] :: c in s;
      Number(s[..|s| - 1]) * 10 + (s[|s| - 1] as int - '0' as int)
  }

  function Power10(n: nat): (p: int)
    ensures p > 0
  {
    if n == 0 then 1 else 10 * Power10(n - 1)
  }

  function DigitOf(n: nat): (c: char)
    requires n < 10
    ensures Digit(c) && c as int - '0' as int == n
  {
    ('0' as int + n) as char
  }

  lemma NumberAppend(s: string, n: nat)
    requires Digits(s) && n < 10
    ensures Digits(s + [DigitOf(n)]) && Number(s + [DigitOf(n)]) == Number(s) * 10 + n
  {
    var t := s + [DigitOf(n)];
    assert t[..|t| - 1] == s;
  }

  /** A number in decimal, without leading zeros. */
  function Text(n: nat): (s: string)
    ensures s != "" && Digits(s) && Number(s) == n
    ensures |s| > 1 ==> s[0] != '0'
  {
    if n < 10 then
      NumberAppend("", n);
      assert "" + [DigitOf(n)] == [DigitOf(n)];
      [DigitOf(n)]
    else
      NumberAppend(Text(n / 10), n % 10);
      Text(n / 10) + [DigitOf(n % 10)]
  }

  /** The same in exactly `k` digits. */
  function Padded(n: nat, k: nat): (s: string)
    requires n < Power10(k)
    ensures |s| == k && Digits(s) && Number(s) == n
  {
    if k == 0 then ""
    else
      NumberAppend(Padded(n / 10, k - 1), n % 10);
      Padded(n / 10, k - 1) + [DigitOf(n % 10)]
  }
}
