/** Character-level helpers: ASCII case folding and decimal numerals. */
module Text {

  predicate IsUpper(c: char) { 'A' <= c <= 'Z' }

  predicate IsLower(c: char) { 'a' <= c <= 'z' }

  predicate IsDigit(c: char) { '0' <= c <= '9' }

  /** The lower-case form of one character; only ASCII capitals change. */
  function LowerChar(c: char): char {
    if IsUpper(c) then (c as int + 32) as char else c
  }

  /** `str.lower()`, restricted to the ASCII letters. */
  function Lower(s: string): (r: string)
    ensures |r| == |s|
    ensures forall i :: 0 <= i < |s| ==> r[i] == LowerChar(s[i])
    ensures forall i :: 0 <= i < |r| ==> !IsUpper(r[i])
  {
    if |s| == 0 then "" else [LowerChar(s[0])] + Lower(s[1..])
  }

  /** The two characters are equal, or one is an ASCII lower-case letter and the other its capital. */
  predicate SameLetterIgnoringCase(a: char, b: char) {
    || a == b
    || (IsLower(a) && b as int == a as int - 32)
    || (IsLower(b) && a as int == b as int - 32)
  }

  /** Reference definition: the two strings agree letter for letter up to ASCII case. */
  predicate SameIgnoringCase(a: string, b: string) {
    |a| == |b| && forall i :: 0 <= i < |a| ==> SameLetterIgnoringCase(a[i], b[i])
  }

  /** Lowercasing `s` yields the lower-case word `w` exactly when `s` spells `w` in some mix of cases. */
  lemma LowerIsWordIff(s: string, w: string)
    requires Lower(w) == w
    ensures Lower(s) == w <==> SameIgnoringCase(s, w)
  {
  }

  /** The value of a decimal digit. */
  function DigitValue(c: char): nat
    requires IsDigit(c)
  {
    c as int - '0' as int
  }

  /** The digit character of a value below ten. */
  function DigitChar(d: nat): (c: char)
    requires d < 10
    ensures IsDigit(c) && DigitValue(c) == d
  {
    ('0' as int + d) as char
  }

  /** A non-empty string of ASCII decimal digits. */
  predicate IsDecimal(s: string) {
    |s| > 0 && forall i :: 0 <= i < |s| ==> IsDigit(s[i])
  }

  /** The value of a string of decimal digits, leading zeros allowed. */
  function ParseDecimal(s: string): nat
    requires forall i :: 0 <= i < |s| ==> IsDigit(s[i])
    decreases |s|
  {
    if |s| == 0 then 0 else 10 * ParseDecimal(s[..|s| - 1]) + DigitValue(s[|s| - 1])
  }

  /** The shortest decimal numeral of `n`. */
  function ShowDecimal(n: nat): (s: string)
    ensures IsDecimal(s)
    ensures |s| > 1 ==> s[0] != '0'
  {
    if n < 10 then [DigitChar(n)] else ShowDecimal(n / 10) + [DigitChar(n % 10)]
  }

  /** Parsing the numeral of `n` gives back `n`. */
  lemma {:induction false} ParseShowDecimal(n: nat)
    ensures ParseDecimal(ShowDecimal(n)) == n
  {
    var s := ShowDecimal(n);
    if n < 10 {
      assert s[..|s| - 1] == "";
    } else {
      ParseShowDecimal(n / 10);
      assert s[..|s| - 1] == ShowDecimal(n / 10);
    }
  }
}
