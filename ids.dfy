/**
 * Checkout and payment identifiers.
 *
 * A checkout id is "CK" followed by a random integer below 10^8 written in decimal and
 * left-padded with zeros to 8 characters; a payment id is "PM" followed by a random integer
 * below 10^8 padded to only 6 characters. JavaScript's padStart pads but never truncates,
 * so payment ids carry between 6 and 8 digits.
 */
module Ids {

  /** A value of Math.floor(Math.random() * 1e8): a natural number below 10^8. */
  type Draw = n: nat | n < 100000000

  function Pow10(k: nat): (r: nat)
    ensures r >= 1
  {
    if k == 0 then 1 else 10 * Pow10(k - 1)
  }

  predicate IsDigit(c: char) {
    '0' <= c <= '9'
  }

  predicate AllDigits(s: string) {
    forall i :: 0 <= i < |s| ==> IsDigit(s[i])
  }

  function DigitChar(d: nat): (c: char)
    requires d < 10
    ensures IsDigit(c)
  {
    (48 + d) as char
  }

  /** The numeric value of one decimal digit character. */
  function DigitValue(c: char): nat {
    if IsDigit(c) then c as int - 48 else 0
  }

  /** Number.prototype.toString() of a draw (any integer below 10^21): decimal, no leading zeros. */
  function Digits(n: nat): (s: string)
    ensures 1 <= |s| && AllDigits(s)
    ensures s[0] == '0' ==> n == 0
    decreases n
  {
    if n < 10 then [DigitChar(n)] else Digits(n / 10) + [DigitChar(n % 10)]
  }

  /** The number a string of decimal digits denotes (leading zeros are harmless). */
  function Value(s: string): nat {
    if s == [] then 0 else 10 * Value(s[..|s| - 1]) + DigitValue(s[|s| - 1])
  }

  function Repeat(c: char, k: nat): (r: string)
    ensures |r| == k && forall i :: 0 <= i < k ==> r[i] == c
  {
    seq(k, _ => c)
  }

  /** String.prototype.padStart(width, fill) for a one-character fill. */
  function PadStart(s: string, width: nat, fill: char): (r: string)
    ensures |r| == if |s| >= width then |s| else width
    ensures r[|r| - |s|..] == s
    ensures forall i :: 0 <= i < |r| - |s| ==> r[i] == fill
  {
    if |s| >= width then s else Repeat(fill, width - |s|) + s
  }

  function CheckoutId(n: Draw): string {
    "CK" + PadStart(Digits(n), 8, '0')
  }

  function PaymentId(n: Draw): string {
    "PM" + PadStart(Digits(n), 6, '0')
  }

  lemma {:induction false} DigitDecode(d: nat)
    requires d < 10
    ensures DigitValue(DigitChar(d)) == d
  {
  }

  /** Reading back the digits of n gives n. */
  lemma {:induction false} DigitsValue(n: nat)
    ensures Value(Digits(n)) == n
    decreases n
  {
    var s := Digits(n);
    if n < 10 {
      assert s[..|s| - 1] == [];
      DigitDecode(n);
    } else {
      DigitsValue(n / 10);
      assert s[..|s| - 1] == Digits(n / 10);
      DigitDecode(n % 10);
    }
  }

  lemma {:induction false} ValueOfZeros(k: nat)
    ensures Value(Repeat('0', k)) == 0
  {
    if k > 0 {
      var z := Repeat('0', k);
      assert z[..k - 1] == Repeat('0', k - 1);
      ValueOfZeros(k - 1);
    }
  }

  /** Leading zeros do not change the value of a digit string. */
  lemma {:induction false} ValueSkipsZeros(k: nat, s: string)
    ensures Value(Repeat('0', k) + s) == Value(s)
    decreases |s|
  {
    var z := Repeat('0', k);
    if s == [] {
      assert z + s == z;
      ValueOfZeros(k);
    } else {
      var t := z + s;
      assert t[..|t| - 1] == z + s[..|s| - 1];
      assert t[|t| - 1] == s[|s| - 1];
      ValueSkipsZeros(k, s[..|s| - 1]);
    }
  }

  lemma {:induction false} PadValue(s: string, width: nat)
    ensures Value(PadStart(s, width, '0')) == Value(s)
  {
    if |s| < width {
      ValueSkipsZeros(width - |s|, s);
    }
  }

  lemma {:induction false} PadDigits(s: string, width: nat)
    requires AllDigits(s)
    ensures AllDigits(PadStart(s, width, '0'))
  {
    var r := PadStart(s, width, '0');
    forall i | 0 <= i < |r|
      ensures IsDigit(r[i])
    {
      if i >= |r| - |s| {
        assert r[i] == r[|r| - |s|..][i - (|r| - |s|)];
      }
    }
  }

  /** A number below 10^k has at most k digits. */
  lemma {:induction false} DigitsAtMost(n: nat, k: nat)
    requires 1 <= k && n < Pow10(k)
    ensures |Digits(n)| <= k
    decreases n
  {
    if n >= 10 {
      assert Pow10(k) == 10 * Pow10(k - 1);
      assert n / 10 < Pow10(k - 1);
      DigitsAtMost(n / 10, k - 1);
    }
  }

  /** A number of at least 10^k has more than k digits. */
  lemma {:induction false} DigitsMoreThan(n: nat, k: nat)
    requires Pow10(k) <= n
    ensures k < |Digits(n)|
    decreases n
  {
    if k > 0 {
      assert Pow10(k) == 10 * Pow10(k - 1);
      assert n >= 10;
      assert Pow10(k - 1) <= n / 10;
      DigitsMoreThan(n / 10, k - 1);
    }
  }

  /** The checkout id is "CK" then exactly 8 digits denoting the draw. */
  lemma {:induction false} CheckoutIdFormat(n: Draw)
    ensures |CheckoutId(n)| == 10 && CheckoutId(n)[..2] == "CK"
    ensures AllDigits(CheckoutId(n)[2..]) && Value(CheckoutId(n)[2..]) == n
  {
    assert Pow10(8) == 100000000;
    DigitsAtMost(n, 8);
    var id := CheckoutId(n);
    assert id[2..] == PadStart(Digits(n), 8, '0');
    PadDigits(Digits(n), 8);
    PadValue(Digits(n), 8);
    DigitsValue(n);
  }

  /** Distinct draws give distinct checkout ids. */
  lemma CheckoutIdInjective(a: Draw, b: Draw)
    ensures CheckoutId(a) == CheckoutId(b) ==> a == b
  {
    CheckoutIdFormat(a);
    CheckoutIdFormat(b);
  }

  /**
   * The payment id is "PM" then between 6 and 8 digits denoting the draw; it has the
   * six-digit form exactly when the draw is below 10^6.
   */
  lemma {:induction false} PaymentIdFormat(n: Draw)
    ensures 8 <= |PaymentId(n)| <= 10 && PaymentId(n)[..2] == "PM"
    ensures AllDigits(PaymentId(n)[2..]) && Value(PaymentId(n)[2..]) == n
    ensures |PaymentId(n)| == 8 <==> n < 1000000
  {
    assert Pow10(6) == 1000000 && Pow10(8) == 100000000;
    DigitsAtMost(n, 8);
    if n < 1000000 {
      DigitsAtMost(n, 6);
    } else {
      DigitsMoreThan(n, 6);
    }
    var id := PaymentId(n);
    assert id[2..] == PadStart(Digits(n), 6, '0');
    PadDigits(Digits(n), 6);
    PadValue(Digits(n), 6);
    DigitsValue(n);
  }

  /** Distinct draws give distinct payment ids. */
  lemma PaymentIdInjective(a: Draw, b: Draw)
    ensures PaymentId(a) == PaymentId(b) ==> a == b
  {
    PaymentIdFormat(a);
    PaymentIdFormat(b);
  }
}
