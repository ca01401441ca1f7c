/** Decimal text, as std::to_string prints it. */
module Decimal {

  predicate IsDigit(c: char) {
    '0' <= c <= '9'
  }

  predicate AllDigits(s: string) {
    forall i :: 0 <= i < |s| ==> IsDigit(s[i])
  }

  function DigitChar(d: nat): (c: char)
    requires d < 10
    ensures IsDigit(c) && DigitValue(c) == d
  {
    '0' + d as char
  }

  function DigitValue(c: char): (d: nat)
    requires IsDigit(c)
    ensures d < 10
  {
    c as int - '0' as int
  }

  function Print(n: nat): (s: string)
    ensures s != "" && AllDigits(s)
  {
    if n < 10 then [DigitChar(n)] else Print(n / 10) + [DigitChar(n % 10)]
  }

  /** The number a digit string denotes, most significant digit first. */
  function Number(s: string): nat
    requires AllDigits(s)
  {
    if s == "" then 0 else Number(s[..|s| - 1]) * 10 + DigitValue(s[|s| - 1])
  }

  function PrintInt(v: int): (s: string)
    ensures s != "" && (forall i :: 0 <= i < |s| ==> IsDigit(s[i]) || s[i] == '-')
  {
    if v < 0 then "-" + Print(-v) else Print(v)
  }

  lemma {:induction false} NumberPrint(n: nat)
    ensures Number(Print(n)) == n
  {
    if n >= 10 {
      NumberPrint(n / 10);
      var s := Print(n / 10) + [DigitChar(n % 10)];
      assert s[..|s| - 1] == Print(n / 10);
    } else {
      assert [DigitChar(n)][..0] == "";
    }
  }

  lemma PrintInjective(m: nat, n: nat)
    requires Print(m) == Print(n)
    ensures m == n
  {
    NumberPrint(m);
    NumberPrint(n);
  }

  lemma PrintIntInjective(v: int, w: int)
    requires PrintInt(v) == PrintInt(w)
    ensures v == w
  {
    assert PrintInt(v)[0] == '-' <==> v < 0;
    assert PrintInt(w)[0] == '-' <==> w < 0;
    if v < 0 {
      assert Print(-v) == PrintInt(v)[1..] == PrintInt(w)[1..] == Print(-w);
      PrintInjective(-v, -w);
    } else {
      PrintInjective(v, w);
    }
  }

  /** The digits at the front; what follows them is ignored. */
  function DigitRun(s: string): (r: string)
    ensures AllDigits(r)
  {
    if s != "" && IsDigit(s[0]) then [s[0]] + DigitRun(s[1..]) else ""
  }

  lemma {:induction false} DigitRunAll(s: string)
    requires AllDigits(s)
    ensures DigitRun(s) == s
  {
    if s != "" {
      DigitRunAll(s[1..]);
      assert s == [s[0]] + s[1..];
    }
  }
}
