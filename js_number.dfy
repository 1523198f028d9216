/**
 * JavaScript's `Number(text)` on the texts a numeric input produces when the
 * user types an integer: the empty text (which `Number` reads as 0), a run
 * of decimal digits, or a minus sign followed by digits.
 */
module JsNumber {
  predicate IsDigit(c: char) { '0' <= c <= '9' }

  predicate AllDigits(s: string) { forall i | 0 <= i < |s| :: IsDigit(s[i]) }

  /** The texts whose `Number(...)` this model defines. */
  predicate IsIntegerText(s: string) {
    s == "" || (|s| > 0 && AllDigits(s)) || (|s| > 1 && s[0] == '-' && AllDigits(s[1..]))
  }

  function DigitValue(c: char): nat
    requires IsDigit(c)
  {
    c as int - '0' as int
  }

  /** The value of a run of decimal digits, most significant first. */
  function DigitsValue(s: string): nat
    requires AllDigits(s)
  {
    if s == [] then 0 else DigitsValue(s[..|s| - 1]) * 10 + DigitValue(s[|s| - 1])
  }

  /** `Number(s)` for an integer text. */
  function NumberOf(s: string): int
    requires IsIntegerText(s)
  {
    if s == "" then 0
    else if s[0] == '-' then -(DigitsValue(s[1..]) as int)
    else DigitsValue(s)
  }

  function DigitChar(d: nat): char
    requires d < 10
  {
    ('0' as int + d) as char
  }

  /** The decimal text of a natural number, as a number input shows it. */
  function DecimalText(n: nat): string {
    if n < 10 then [DigitChar(n)] else DecimalText(n / 10) + [DigitChar(n % 10)]
  }

  /** The text of an integer, with a leading minus sign when negative. */
  function IntegerText(n: int): string {
    if n < 0 then "-" + DecimalText(-n) else DecimalText(n)
  }

  lemma {:induction false} DecimalTextValue(n: nat)
    ensures |DecimalText(n)| > 0 && AllDigits(DecimalText(n))
    ensures DigitsValue(DecimalText(n)) == n
  {
    var t := DecimalText(n);
    if n < 10 {
      assert t[..0] == [];
    } else {
      DecimalTextValue(n / 10);
      assert t[..|t| - 1] == DecimalText(n / 10);
      assert DigitValue(t[|t| - 1]) == n % 10;
    }
  }

  /** `Number` reads back every integer from its text. */
  lemma NumberOfIntegerText(n: int)
    ensures IsIntegerText(IntegerText(n))
    ensures NumberOf(IntegerText(n)) == n
  {
    var t := IntegerText(n);
    if n < 0 {
      DecimalTextValue(-n);
      assert t[1..] == DecimalText(-n);
      assert !IsDigit(t[0]);
    } else {
      DecimalTextValue(n);
    }
  }

  /**
   * The product `a * b` of two integers, written as repeated addition so
   * that the definition unfolds into linear arithmetic only.
   */
  function Times(a: int, b: int): int
    decreases if a < 0 then -a else a
  {
    if a == 0 then 0 else if a > 0 then Times(a - 1, b) + b else Times(a + 1, b) - b
  }

  /** `Times` is multiplication. */
  lemma {:induction false} TimesIsProduct(a: int, b: int)
    ensures Times(a, b) == a * b
    decreases if a < 0 then -a else a
  {
    if a > 0 {
      TimesIsProduct(a - 1, b);
    } else if a < 0 {
      TimesIsProduct(a + 1, b);
    }
  }
}
