/** Decimal numbers as the C library prints and scans them. */
module Decimal {

  predicate Digit(c: char) {
    '0' <= c <= '9'
  }

  predicate Space(c: char) {
    c == ' ' || c == '\t' || c == '\n' || c == '\U{B}' || c == '\U{C}' || c == '\r'
  }

  function DecValue(s: string): nat
    requires forall c :: c in s ==> Digit(c)
  {
    if s == "" then 0 else assert Digit(s[|s| - 1]); 10 * DecValue(s[..|s| - 1]) + (s[|s| - 1] as int - '0' as int)
  }

  function Dec(n: nat): string {
    (if n < 10 then "" else Dec(n / 10)) + [('0' as int + n % 10) as char]
  }

  lemma DecNext(n: nat, d: nat)
    requires 0 < n && d < 10
    ensures Dec(10 * n + d) == Dec(n) + [('0' as int + d) as char]
  {
  }

  /** How far a prefix of s consists of digits. */
  function Digits(s: string): (k: nat)
    ensures k <= |s| && (forall i :: 0 <= i < k ==> Digit(s[i])) && (k < |s| ==> !Digit(s[k]))
  {
    if s != "" && Digit(s[0]) then 1 + Digits(s[1..]) else 0
  }

  function Spaces(s: string): (k: nat)
    ensures k <= |s|
  {
    if s != "" && Space(s[0]) then 1 + Spaces(s[1..]) else 0
  }

  lemma {:induction false} DecDigits(n: nat)
    ensures Dec(n) != "" && (forall c :: c in Dec(n) ==> Digit(c)) && DecValue(Dec(n)) == n
  {
    if n >= 10 {
      DecDigits(n / 10);
    }
    var d := ('0' as int + n % 10) as char;
    assert Dec(n)[..|Dec(n)| - 1] == if n < 10 then "" else Dec(n / 10);
  }

  function Pow10(k: nat): nat {
    if k == 0 then 1 else 10 * Pow10(k - 1)
  }

  lemma {:induction false} DecLength(n: nat, k: nat)
    requires k >= 1
    ensures |Dec(n)| <= k <==> n < Pow10(k)
    decreases k
  {
    if k == 1 {
      assert Pow10(1) == 10 * Pow10(0);
    } else {
      if n >= 10 {
        DecLength(n / 10, k - 1);
      }
      PowPositive(k - 1);
    }
  }

  lemma {:induction false} PowPositive(k: nat)
    ensures Pow10(k) >= 1
  {
    if k > 0 {
      PowPositive(k - 1);
    }
  }

  lemma {:induction false} DigitsAll(s: string, rest: string)
    requires (forall c :: c in s ==> Digit(c)) && (rest != "" ==> !Digit(rest[0]))
    ensures Digits(s + rest) == |s|
  {
    if s == "" {
      assert s + rest == rest;
    } else {
      DigitsAll(s[1..], rest);
      assert (s + rest)[1..] == s[1..] + rest;
    }
  }
}
