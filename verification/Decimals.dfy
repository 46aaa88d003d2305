/** Decimal numerals, as template strings print them and `Number` reads them. */
module Decimals {
  import opened Options

  function Digit(n: nat): char
    requires n < 10
  {
    '0' + n as char
  }

  predicate AllDigits(s: string) {
    forall i | 0 <= i < |s| :: '0' <= s[i] <= '9'
  }

  predicate IsDigits(s: string) {
    s != "" && AllDigits(s)
  }

  function Show(n: nat): (s: string)
    ensures IsDigits(s)
  {
    if n < 10 then [Digit(n)] else Show(n / 10) + [Digit(n % 10)]
  }

  /** `String(n)` of an integer. */
  function ShowInt(n: int): string {
    if n < 0 then "-" + Show(-n) else Show(n)
  }

  function Value(s: string): nat
    requires AllDigits(s)
  {
    if s == "" then 0 else Value(s[..|s| - 1]) * 10 + (s[|s| - 1] - '0') as nat
  }

  lemma {:induction false} ReadBack(n: nat)
    ensures Value(Show(n)) == n
  {
    var s := Show(n);
    if n < 10 {
      assert s[..0] == "";
    } else {
      ReadBack(n / 10);
      assert s[..|s| - 1] == Show(n / 10) && s[|s| - 1] == Digit(n % 10);
    }
  }

  lemma ShowInjective(a: nat, b: nat)
    ensures Show(a) == Show(b) ==> a == b
  {
    ReadBack(a);
    ReadBack(b);
  }

  /** No numeral of a number is shorter than the printed one. */
  lemma {:induction false} ShowIsShortest(s: string)
    requires IsDigits(s)
    ensures |Show(Value(s))| <= |s|
  {
    var n := Value(s);
    if |s| > 1 && n >= 10 {
      var init := s[..|s| - 1];
      assert n / 10 == Value(init);
      ShowIsShortest(init);
    }
  }

  /** `Number(s)`: digits read as a numeral; `other` is what it makes of anything else. */
  function Number(s: string, other: string -> Option<int>): Option<int> {
    if IsDigits(s) then Some(Value(s)) else other(s)
  }
}
