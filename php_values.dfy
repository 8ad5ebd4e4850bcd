/**
 * The two ways the application interprets a submitted string: PHP 8's `is_numeric`
 * (used by TransactionController::store to derive account ids) and the key the
 * database matches against an auto-increment `id` column.
 */
module PhpValues {

  predicate IsDigit(c: char) {
    '0' <= c <= '9'
  }

  predicate AllDigits(s: string) {
    forall i :: 0 <= i < |s| ==> IsDigit(s[i])
  }

  /** A non-empty run of decimal digits: the spelling of an account id. */
  predicate IsDigitString(s: string) {
    |s| > 0 && AllDigits(s)
  }

  /** The number a digit string denotes (leading zeros allowed, as the database reads them). */
  function DigitsValue(s: string): nat
    requires AllDigits(s)
  {
    if s == [] then 0 else 10 * DigitsValue(s[..|s| - 1]) + (s[|s| - 1] as int - '0' as int)
  }

  /** The whitespace PHP skips around a numeric string: space, \t, \n, \r, \v and \f. */
  predicate IsWhitespace(c: char) {
    c == ' ' || c == '\t' || c == '\n' || c == '\r' || c == '\U{B}' || c == '\U{C}'
  }

  function TrimLeft(s: string): (t: string)
    ensures |t| <= |s|
    ensures |t| > 0 ==> !IsWhitespace(t[0])
    ensures t == s[|s| - |t|..]
  {
    if |s| > 0 && IsWhitespace(s[0]) then TrimLeft(s[1..]) else s
  }

  function TrimRight(s: string): (t: string)
    ensures |t| <= |s|
    ensures |t| > 0 ==> !IsWhitespace(t[|t| - 1])
    ensures t == s[..|t|]
    ensures |s| > 0 && !IsWhitespace(s[0]) ==> |t| > 0
  {
    if |s| > 0 && IsWhitespace(s[|s| - 1]) then TrimRight(s[..|s| - 1]) else s
  }

  function DropSign(s: string): string {
    if |s| > 0 && (s[0] == '+' || s[0] == '-') then s[1..] else s
  }

  /** The first position holding `c1` or `c2`, or |s| when there is none. */
  function Find(s: string, c1: char, c2: char): (i: nat)
    ensures i <= |s|
    ensures forall j :: 0 <= j < i ==> s[j] != c1 && s[j] != c2
    ensures i < |s| ==> s[i] == c1 || s[i] == c2
  {
    if s == [] then 0
    else if s[0] == c1 || s[0] == c2 then 0
    else 1 + Find(s[1..], c1, c2)
  }

  /** `123`, `123.`, `123.45` or `.45`: digits with at most one point and at least one digit. */
  predicate IsMantissa(m: string) {
    var p := Find(m, '.', '.');
    if p == |m| then IsDigitString(m)
    else AllDigits(m[..p]) && AllDigits(m[p + 1..]) && (p > 0 || p + 1 < |m|)
  }

  /** An optional sign, a mantissa and an optional exponent `e`/`E` with its own optional sign. */
  predicate IsNumericBody(t: string) {
    var u := DropSign(t);
    var e := Find(u, 'e', 'E');
    IsMantissa(u[..e]) && (e == |u| || IsDigitString(DropSign(u[e + 1..])))
  }

  /** PHP 8's is_numeric on a string: a numeric body with optional leading and trailing whitespace. */
  predicate IsNumeric(s: string) {
    IsNumericBody(TrimRight(TrimLeft(s)))
  }

  /** Every spelling of an account id passes is_numeric. */
  lemma DigitStringIsNumeric(s: string)
    requires IsDigitString(s)
    ensures IsNumeric(s)
  {
    assert !IsWhitespace(s[0]) && !IsWhitespace(s[|s| - 1]);
    assert TrimLeft(s) == s;
    assert TrimRight(s) == s;
    assert DropSign(s) == s;
    assert Find(s, 'e', 'E') == |s|;
    assert s[..|s|] == s;
    assert Find(s, '.', '.') == |s|;
  }

  /** A string that starts with a letter (not a digit, sign, point or whitespace) is not numeric, whatever follows. */
  lemma {:induction false} LeadingLetterNotNumeric(s: string)
    requires |s| > 0 && !IsWhitespace(s[0])
    requires !IsDigit(s[0]) && s[0] != '+' && s[0] != '-' && s[0] != '.'
    ensures !IsNumeric(s)
  {
    assert TrimLeft(s) == s;
    var t := TrimRight(s);
    assert t[0] == s[0];
    assert DropSign(t) == t;
    var e := Find(t, 'e', 'E');
    var m := t[..e];
    if e > 0 {
      assert m[0] == s[0];
      var p := Find(m, '.', '.');
      if p < |m| {
        assert p > 0;
        assert !AllDigits(m[..p]) by { assert m[..p][0] == s[0]; }
      }
    }
  }

  /** The literal `cash`, the wallet's token in capital moves, is not numeric. */
  lemma CashIsNotNumeric()
    ensures !IsNumeric("cash")
  {
    LeadingLetterNotNumeric("cash");
  }
}
