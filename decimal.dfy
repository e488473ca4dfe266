/**
 * Decimal ids: how Rust's `str::parse::<u32>` reads the id segment of a URL
 * (src/routes.rs:131, src/routes.rs:135) and how `format!("{}", ..)` spells a
 * decoded id back (src/routes.rs:48-54).
 *
 * `parse::<u32>` takes an optional leading `+`, then one or more ASCII digits
 * (leading zeros allowed), and fails on anything else or on a value of 2^32
 * or more. `format!` writes a number in decimal without leading zeros.
 */
module Decimal {
  import opened Wrappers

  /** 2^32: every value `parse::<u32>` returns is below it. */
  const U32Limit: nat := 0x1_0000_0000

  predicate IsDigit(c: char)
  {
    '0' <= c <= '9'
  }

  predicate AllDigits(s: string)
  {
    forall i :: 0 <= i < |s| ==> IsDigit(s[i])
  }

  /** A decimal numeral as `format!` writes one: digits only, no leading zero. */
  predicate Canonical(s: string)
  {
    s != [] && AllDigits(s) && (s[0] == '0' ==> |s| == 1)
  }

  function DigitValue(c: char): (d: nat)
    requires IsDigit(c)
    ensures d < 10
  {
    c as int - '0' as int
  }

  function DigitChar(d: nat): (c: char)
    requires d < 10
    ensures IsDigit(c) && DigitValue(c) == d
  {
    ('0' as int + d) as char
  }

  /** The number a digit string denotes, most significant digit first. */
  function Value(s: string): nat
    requires AllDigits(s)
  {
    if s == [] then 0 else Value(s[..|s| - 1]) * 10 + DigitValue(s[|s| - 1])
  }

  /** `s.parse::<u32>()`: `None` stands for the `Err` that `unwrap` panics on. */
  function ParseU32(s: string): (r: Option<nat>)
    ensures r.Some? ==> r.value < U32Limit
    ensures r.Some? ==> s != [] && s != "+"
  {
    var digits := if |s| > 0 && s[0] == '+' then s[1..] else s;
    if digits != [] && AllDigits(digits) && Value(digits) < U32Limit then Some(Value(digits)) else None
  }

  /** `format!("{}", n)` for a non-negative integer. */
  function Show(n: nat): (s: string)
    ensures Canonical(s)
  {
    if n < 10 then [DigitChar(n)] else Show(n / 10) + [DigitChar(n % 10)]
  }

  /** The numeral `Show` writes denotes the number it was given. */
  lemma {:induction false} ValueOfShow(n: nat)
    ensures Value(Show(n)) == n
  {
    if n >= 10 {
      var s := Show(n);
      assert s[..|s| - 1] == Show(n / 10);
      ValueOfShow(n / 10);
    }
  }

  /** A numeral whose first digit is not zero denotes a positive number. */
  lemma {:induction false} ValuePositive(s: string)
    requires s != [] && AllDigits(s) && s[0] != '0'
    ensures Value(s) > 0
  {
    if |s| > 1 {
      ValuePositive(s[..|s| - 1]);
    }
  }

  /** Reading a numeral back: every id below 2^32 survives `format!` then `parse`. */
  lemma ParseShow(n: nat)
    requires n < U32Limit
    ensures ParseU32(Show(n)) == Some(n)
  {
    ValueOfShow(n);
  }

  /** The other direction: a canonical numeral is what `format!` writes for its value. */
  lemma {:induction false} ShowValue(s: string)
    requires Canonical(s)
    ensures Show(Value(s)) == s
  {
    if |s| > 1 {
      var t := s[..|s| - 1];
      ValuePositive(s);
      assert s[0] != '0';
      ValuePositive(t);
      ShowValue(t);
      assert s == t + [s[|s| - 1]];
    }
  }

  /** A canonical id that `parse::<u32>` accepts is spelled back exactly by `format!`. */
  lemma ShowParse(s: string)
    requires Canonical(s) && ParseU32(s).Some?
    ensures Show(ParseU32(s).value) == s
  {
    ShowValue(s);
  }
}
