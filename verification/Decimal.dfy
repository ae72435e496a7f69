/** Decimal numbers, written and read back. */
module Decimal {
  import opened Bytes
  import opened Wrappers

  predicate IsDigit(c: char) { '0' <= c <= '9' }

  function Digit(d: nat): char
    requires d < 10
  {
    '0' + d as char
  }

  function DigitValue(c: char): nat
    requires IsDigit(c)
  {
    (c - '0') as int
  }

  function Itoa(n: nat): string {
    if n < 10 then [Digit(n)] else Itoa(n / 10) + [Digit(n % 10)]
  }

  predicate AllDigits(s: string) { forall j :: 0 <= j < |s| ==> IsDigit(s[j]) }

  function Number(s: string): nat
    requires AllDigits(s)
  {
    if s == "" then 0 else Number(s[..|s| - 1]) * 10 + DigitValue(s[|s| - 1])
  }

  // strconv.Atoi: an optional sign, at least one digit, nothing else, within an int64.
  function Atoi(s: string): Option<int> {
    var sign := if s != "" && (s[0] == '-' || s[0] == '+') then 1 else 0;
    var digits := s[sign..];
    if digits == "" || !AllDigits(digits) then None
    else
      var n: int := if sign == 1 && s[0] == '-' then -(Number(digits) as int) else Number(digits);
      if -MAX_INT64 - 1 <= n <= MAX_INT64 then Some(n) else None
  }

  lemma {:induction false} ItoaReadsBack(n: nat)
    ensures Itoa(n) != "" && AllDigits(Itoa(n)) && Number(Itoa(n)) == n
  {
    if n >= 10 {
      ItoaReadsBack(n / 10);
      assert Itoa(n)[..|Itoa(n)| - 1] == Itoa(n / 10);
    } else {
      assert Itoa(n)[..0] == "";
    }
  }

  lemma AtoiUndoesItoa(n: nat)
    requires n <= MAX_INT64
    ensures Atoi(Itoa(n)) == Some(n)
  {
    ItoaReadsBack(n);
    assert IsDigit(Itoa(n)[0]);
    assert Itoa(n)[0..] == Itoa(n);
  }

  // A further digit d makes ten times the number, and d; so these are its decimal digits.
  lemma ItoaAppends(n: nat, d: nat)
    requires n > 0 && d < 10
    ensures Itoa(10 * n + d) == Itoa(n) + ["0123456789"[d]]
    ensures Itoa(d) == ["0123456789"[d]]
  {
    assert (10 * n + d) / 10 == n && (10 * n + d) % 10 == d;
  }
}
