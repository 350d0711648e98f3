/** Decimal text of numbers: what `to_string()` / `format!("{}")` print for
    an unsigned integer, and what `str::parse::<usize>()` accepts (a 64-bit
    `usize` is assumed). */
module Strings {

  /** One past the largest `usize`. */
  const USIZE_LIMIT: nat := 0x1_0000_0000_0000_0000

  predicate IsDigit(c: char)
  {
    '0' <= c <= '9'
  }

  function DigitChar(d: nat): (c: char)
    requires d < 10
    ensures IsDigit(c) && (c as int) - ('0' as int) == d
  {
    (('0' as int) + d) as char
  }

  function DigitValue(c: char): (d: nat)
    requires IsDigit(c)
    ensures d < 10 && DigitChar(d) == c
  {
    (c as int) - ('0' as int)
  }

  /** The decimal text of `n`: digits only, and no leading zero except for 0
      itself. */
  function Decimal(n: nat): (s: string)
    ensures |s| >= 1
    ensures forall i :: 0 <= i < |s| ==> IsDigit(s[i])
    ensures s[0] == '0' ==> n == 0 && s == "0"
    decreases n
  {
    if n < 10 then [DigitChar(n)] else Decimal(n / 10) + [DigitChar(n % 10)]
  }

  /** The kinds of `ParseIntError`, with the texts Rust prints for them. */
  datatype IntErrorKind = Empty | InvalidDigit | PosOverflow

  function ErrorText(k: IntErrorKind): string
  {
    match k
    case Empty => "cannot parse integer from empty string"
    case InvalidDigit => "invalid digit found in string"
    case PosOverflow => "number too large to fit in target type"
  }

  datatype Parsed = Parsed(value: nat) | ParseError(kind: IntErrorKind)

  /** One digit more, left to right, as the parser does: a non-digit stops it
      with `InvalidDigit`, a value past the limit with `PosOverflow`. */
  function Accumulate(acc: Parsed, c: char): Parsed
  {
    if acc.ParseError? then acc
    else if !IsDigit(c) then ParseError(InvalidDigit)
    else if acc.value * 10 + DigitValue(c) >= USIZE_LIMIT then ParseError(PosOverflow)
    else Parsed(acc.value * 10 + DigitValue(c))
  }

  /** Folds the digits from the left, starting from `acc`. */
  function ParseDigits(s: string, acc: Parsed): Parsed
    decreases |s|
  {
    if s == [] then acc else ParseDigits(s[1..], Accumulate(acc, s[0]))
  }

  /** `s.parse::<usize>()`: an optional leading `+`, then at least one digit. */
  function ParseUsize(s: string): (r: Parsed)
    ensures r.Parsed? ==> r.value < USIZE_LIMIT
    ensures s == [] ==> r == ParseError(Empty)
    ensures s == "+" ==> r == ParseError(InvalidDigit)
  {
    if s == [] then ParseError(Empty)
    else if s == "+" || s == "-" then ParseError(InvalidDigit)
    else
      var digits := if s[0] == '+' then s[1..] else s;
      ParseDigitsBounded(digits)
  }

  function ParseDigitsBounded(digits: string): (r: Parsed)
    ensures r.Parsed? ==> r.value < USIZE_LIMIT
  {
    ParseDigitsStaysBelow(digits, Parsed(0));
    ParseDigits(digits, Parsed(0))
  }

  lemma {:induction false} ParseDigitsStaysBelow(s: string, acc: Parsed)
    requires acc.Parsed? ==> acc.value < USIZE_LIMIT
    ensures var r := ParseDigits(s, acc); r.Parsed? ==> r.value < USIZE_LIMIT
    decreases |s|
  {
    if s != [] {
      ParseDigitsStaysBelow(s[1..], Accumulate(acc, s[0]));
    }
  }

  /** Parsing one more digit at the end is one more accumulation step. */
  lemma {:induction false} ParseDigitsSnoc(s: string, c: char, acc: Parsed)
    ensures ParseDigits(s + [c], acc) == Accumulate(ParseDigits(s, acc), c)
    decreases |s|
  {
    if s == [] {
      assert [c][1..] == [];
    } else {
      assert (s + [c])[1..] == s[1..] + [c];
      ParseDigitsSnoc(s[1..], c, Accumulate(acc, s[0]));
    }
  }

  lemma {:induction false} ParseDecimal(n: nat)
    requires n < USIZE_LIMIT
    ensures ParseDigits(Decimal(n), Parsed(0)) == Parsed(n)
    decreases n
  {
    if n < 10 {
      assert Decimal(n)[1..] == [];
    } else {
      ParseDecimal(n / 10);
      ParseDigitsSnoc(Decimal(n / 10), DigitChar(n % 10), Parsed(0));
    }
  }

  /** Printing a `usize` and parsing it back gives the number again. */
  lemma DecimalRoundTrip(n: nat)
    requires n < USIZE_LIMIT
    ensures ParseUsize(Decimal(n)) == Parsed(n)
  {
    ParseDecimal(n);
  }
}
