/** Decimal text of non-negative integers (`Number.prototype.toString()` on
    an integer value) and its inverse. */
module Decimal {

  predicate IsDigit(c: char) {
    '0' <= c <= '9'
  }

  predicate AllDigits(s: string) {
    forall i :: 0 <= i < |s| ==> IsDigit(s[i])
  }

  function DigitChar(d: int): (c: char)
    requires 0 <= d < 10
    ensures IsDigit(c)
  {
    (48 + d) as char
  }

  function DigitValue(c: char): (d: int)
    requires IsDigit(c)
    ensures 0 <= d < 10
  {
    c as int - 48
  }

  /** Ten to the power `n`. */
  function Pow10(n: nat): nat {
    if n == 0 then 1 else 10 * Pow10(n - 1)
  }

  /** The shortest decimal text of `n`: no sign, no leading zero. */
  function Show(n: nat): (s: string)
    ensures |s| >= 1 && AllDigits(s)
    ensures n >= 1 ==> s[0] != '0'
    decreases n
  {
    if n < 10 then [DigitChar(n)]
    else
      var prefix := Show(n / 10);
      assert n / 10 >= 1;
      prefix + [DigitChar(n % 10)]
  }

  /** The value of a digit string, most significant digit first. */
  function Value(s: string): nat
    requires AllDigits(s)
  {
    if |s| == 0 then 0 else Value(s[..|s| - 1]) * 10 + DigitValue(s[|s| - 1])
  }

  /** Reading back the text of `n` gives `n`. */
  lemma {:induction false} ValueShow(n: nat)
    ensures Value(Show(n)) == n
    decreases n
  {
    var s := Show(n);
    if n >= 10 {
      ValueShow(n / 10);
      assert s[..|s| - 1] == Show(n / 10);
    }
  }

  /** A digit string with a non-zero leading digit has a positive value. */
  lemma {:induction false} ValuePositive(s: string)
    requires AllDigits(s) && |s| >= 1 && s[0] != '0'
    ensures Value(s) >= 1
    decreases |s|
  {
    if |s| > 1 {
      ValuePositive(s[..|s| - 1]);
    }
  }

  /** A digit string without a leading zero is the text of its own value. */
  lemma {:induction false} ShowValue(s: string)
    requires AllDigits(s) && |s| >= 1 && s[0] != '0'
    ensures Show(Value(s)) == s
    decreases |s|
  {
    var init := s[..|s| - 1];
    var last := s[|s| - 1];
    if |s| == 1 {
      assert s == [last];
    } else {
      ValuePositive(init);
      ShowValue(init);
      var n := Value(s);
      assert n / 10 == Value(init);
      assert n % 10 == DigitValue(last);
      assert s == init + [last];
    }
  }

  /** The text of a number in [10^(k-1), 10^k) has exactly k digits. */
  lemma {:induction false} ShowLength(n: nat, k: nat)
    requires k >= 1
    requires Pow10(k - 1) <= n < Pow10(k)
    ensures |Show(n)| == k
    decreases k
  {
    if k > 1 {
      ShowLength(n / 10, k - 1);
    }
  }

  /** Conversely, a positive number with k digits lies in [10^(k-1), 10^k). */
  lemma {:induction false} ShowBounds(n: nat)
    requires n >= 1
    ensures Pow10(|Show(n)| - 1) <= n < Pow10(|Show(n)|)
    decreases n
  {
    if n >= 10 {
      ShowBounds(n / 10);
      assert |Show(n)| == |Show(n / 10)| + 1;
    }
  }
}
