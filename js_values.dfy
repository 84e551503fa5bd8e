/** JavaScript value semantics that the request handlers rely on: optional values,
    truthiness of strings and numbers, String.prototype.startsWith, and String(n)
    for the non-negative integers the media host reports as byte counts. */
module JsValues {

  /** A value that may be `null`/`undefined`. */
  datatype Option<+T> = None | Some(value: T)

  /** A JavaScript number, without arithmetic: the handlers only test and pass it on. */
  datatype Number = Finite(value: real) | NaN

  /** `!!s` for a `string | null`: false for null and for the empty string. */
  predicate TruthyString(s: Option<string>)
    ensures TruthyString(s) <==> s.Some? && |s.value| > 0
    ensures s == None || s == Some("") ==> !TruthyString(s)
  {
    s.Some? && s.value != ""
  }

  /** `!!n` for a number: false for 0 (and -0) and for NaN. */
  predicate TruthyNumber(n: Number)
  {
    n.Finite? && n.value != 0.0
  }

  /** `n || 0` for an optional number: keeps `n` when it is truthy, otherwise 0. */
  function OrZero(n: Option<Number>): (r: Number)
    ensures TruthyNumber(r) <==> n.Some? && TruthyNumber(n.value)
    ensures TruthyNumber(r) ==> n == Some(r)
    ensures !TruthyNumber(r) ==> r == Finite(0.0)
  {
    if n.Some? && TruthyNumber(n.value) then n.value else Finite(0.0)
  }

  /** `s.startsWith(prefix)`. */
  predicate StartsWith(s: string, prefix: string)
    ensures StartsWith(s, prefix) <==>
      |prefix| <= |s| && forall i :: 0 <= i < |prefix| ==> s[i] == prefix[i]
  {
    |prefix| <= |s| && s[..|prefix|] == prefix
  }

  predicate IsDigit(c: char)
  {
    '0' <= c <= '9'
  }

  predicate AllDigits(s: string)
  {
    forall i :: 0 <= i < |s| ==> IsDigit(s[i])
  }

  /** The shape of `String(n)` for an integer n below 10^21: one or more decimal
      digits, with no leading zero unless the number is zero itself. */
  predicate IsCanonicalDecimal(s: string)
  {
    |s| >= 1 && AllDigits(s) && (s[0] == '0' ==> |s| == 1)
  }

  function DigitChar(d: nat): (c: char)
    requires d < 10
    ensures IsDigit(c)
  {
    (d + '0' as int) as char
  }

  function DigitValue(c: char): int
  {
    c as int - '0' as int
  }

  /** `String(n)` for a non-negative integer n. */
  function DecimalString(n: nat): (s: string)
    ensures IsCanonicalDecimal(s)
    ensures |s| == 1 <==> n < 10
    decreases n
  {
    if n < 10 then [DigitChar(n)] else DecimalString(n / 10) + [DigitChar(n % 10)]
  }

  /** The value of a string of decimal digits, most significant first. */
  function ParseDecimal(s: string): int
  {
    if s == [] then 0 else 10 * ParseDecimal(s[..|s| - 1]) + DigitValue(s[|s| - 1])
  }

  /** Parsing what `String(n)` printed gives back n. */
  lemma {:induction false} ParseDecimalString(n: nat)
    ensures ParseDecimal(DecimalString(n)) == n
    decreases n
  {
    var s := DecimalString(n);
    if n >= 10 {
      ParseDecimalString(n / 10);
      assert s[..|s| - 1] == DecimalString(n / 10);
    }
  }

  /** Every digit string denotes a non-negative value. */
  lemma {:induction false} ParseDecimalNonNegative(s: string)
    requires AllDigits(s)
    ensures ParseDecimal(s) >= 0
    decreases |s|
  {
    if s != [] {
      ParseDecimalNonNegative(s[..|s| - 1]);
    }
  }

  /** A digit string whose first digit is not zero denotes at least 10^(|s|-1) > 0. */
  lemma {:induction false} ParseDecimalPositive(s: string)
    requires |s| >= 1 && AllDigits(s) && s[0] != '0'
    ensures ParseDecimal(s) >= 1
    decreases |s|
  {
    if |s| > 1 {
      var p := s[..|s| - 1];
      assert p[0] == s[0];
      ParseDecimalPositive(p);
    }
  }

  /** Printing the value of a canonical decimal string gives the same string back,
      so `String` is a bijection between the naturals and canonical decimal strings. */
  lemma {:induction false} DecimalStringOfParse(s: string)
    requires IsCanonicalDecimal(s)
    ensures ParseDecimal(s) >= 0
    ensures DecimalString(ParseDecimal(s)) == s
    decreases |s|
  {
    ParseDecimalNonNegative(s);
    if |s| > 1 {
      var p := s[..|s| - 1];
      var c := s[|s| - 1];
      assert p[0] == s[0];
      assert s == p + [c];
      ParseDecimalPositive(s);
      ParseDecimalPositive(p);
      DecimalStringOfParse(p);
      var n := ParseDecimal(s);
      assert n == 10 * ParseDecimal(p) + DigitValue(c);
      assert n / 10 == ParseDecimal(p) && n % 10 == DigitValue(c);
    }
  }

  /** Two naturals print the same only if they are equal. */
  lemma DecimalStringInjective(m: nat, n: nat)
    requires DecimalString(m) == DecimalString(n)
    ensures m == n
  {
    ParseDecimalString(m);
    ParseDecimalString(n);
  }
}
