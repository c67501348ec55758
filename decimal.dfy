/** Decimal text of integers. The engine needs a printable, injective rendering of
    counters for the fresh-id supply and of numeric property keys. */
module Decimal {

  function Digit(d: nat): (c: char)
    requires d < 10
  {
    "0123456789"[d]
  }

  /** The decimal digits of `n`, most significant first, without leading zeros. */
  function NatText(n: nat): (s: string)
    ensures |s| >= 1
    ensures n >= 10 ==> |s| >= 2
    decreases n
  {
    if n < 10 then [Digit(n)] else NatText(n / 10) + [Digit(n % 10)]
  }

  /** Decimal text of a signed integer, with a leading '-' for negatives. */
  function IntText(i: int): (s: string)
    ensures |s| >= 1
  {
    if i < 0 then "-" + NatText(-i) else NatText(i)
  }

  lemma DigitInjective(a: nat, b: nat)
    requires a < 10 && b < 10
    ensures Digit(a) == Digit(b) ==> a == b
  {
  }

  lemma DigitNotMinus(d: nat)
    requires d < 10
    ensures Digit(d) != '-'
  {
  }

  /** Different numbers have different decimal texts. */
  lemma {:induction false} NatTextInjective(a: nat, b: nat)
    ensures NatText(a) == NatText(b) ==> a == b
    decreases a
  {
    if NatText(a) == NatText(b) {
      if a < 10 && b < 10 {
        DigitInjective(a, b);
      } else if a >= 10 && b >= 10 {
        var sa, sb := NatText(a), NatText(b);
        assert sa[..|sa| - 1] == NatText(a / 10);
        assert sb[..|sb| - 1] == NatText(b / 10);
        NatTextInjective(a / 10, b / 10);
        DigitInjective(a % 10, b % 10);
      }
    }
  }

  /** The first character of a natural number's text is a digit. */
  lemma {:induction false} NatTextHead(n: nat)
    ensures NatText(n)[0] != '-'
    decreases n
  {
    if n < 10 {
      DigitNotMinus(n);
    } else {
      NatTextHead(n / 10);
    }
  }

  /** Different integers have different decimal texts. */
  lemma IntTextInjective(a: int, b: int)
    ensures IntText(a) == IntText(b) ==> a == b
  {
    if IntText(a) == IntText(b) {
      if a < 0 && b < 0 {
        assert IntText(a)[1..] == NatText(-a);
        assert IntText(b)[1..] == NatText(-b);
        NatTextInjective(-a, -b);
      } else if a >= 0 && b >= 0 {
        NatTextInjective(a, b);
      } else if a < 0 {
        NatTextHead(b);
      } else {
        NatTextHead(a);
      }
    }
  }
}
