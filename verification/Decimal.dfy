/** Decimal text of natural numbers, as `str(n)` writes it and `int(s)` reads it. */
module Decimal {

  function Digit(d: nat): (c: char)
    requires d < 10
    ensures '0' <= c <= '9'
  {
    '0' + d as char
  }

  function Str(n: nat): (s: string)
    ensures s != []
  {
    if n < 10 then [Digit(n)] else Str(n / 10) + [Digit(n % 10)]
  }

  // Reading stops being a number at the first character that is not a digit.
  function Int(s: string): (n: int)
    ensures n >= -1
  {
    if s == [] then 0
    else
      var head := Int(s[..|s| - 1]);
      var c := s[|s| - 1];
      if head < 0 || c < '0' || '9' < c then -1 else 10 * head + (c - '0') as int
  }

  lemma {:induction false} IntOfStr(n: nat)
    ensures Int(Str(n)) == n
  {
    if n < 10 {
      assert Str(n)[..0] == "";
    } else {
      IntOfStr(n / 10);
      assert Str(n)[..|Str(n)| - 1] == Str(n / 10);
    }
  }

  // Comparing the texts is comparing the numbers.
  lemma {:induction false} StrIsInjective(m: nat, n: nat)
    ensures Str(m) == Str(n) <==> m == n
  {
    IntOfStr(m);
    IntOfStr(n);
  }
}
