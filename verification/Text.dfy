/** Decimal numerals, joined strings, the byte order of strings and the identifiers most services use. */
module Text {

  // ---- Numerals ----

  const DIGITS: string := "0123456789"

  predicate IsDigit(c: char) {
    '0' <= c <= '9'
  }

  function Digits(n: nat): string {
    if n < 10 then [DIGITS[n]] else Digits(n / 10) + [DIGITS[n % 10]]
  }

  function Itoa(n: int): string {
    if n < 0 then "-" + Digits(-n) else Digits(n)
  }

  function Parse(s: string): int {
    if s == [] then 0 else 10 * Parse(s[..|s| - 1]) + (s[|s| - 1] as int - '0' as int)
  }

  lemma {:induction false} DigitsAreDigits(n: nat)
    ensures Digits(n) != [] && forall c :: c in Digits(n) ==> IsDigit(c)
  {
    assert forall i :: 0 <= i < 10 ==> IsDigit(DIGITS[i]);
    if n >= 10 {
      DigitsAreDigits(n / 10);
    }
  }

  lemma DigitValue(d: nat)
    requires d < 10
    ensures DIGITS[d] as int - '0' as int == d
  {
  }

  lemma {:induction false} ParseDigits(n: nat)
    ensures Parse(Digits(n)) == n
  {
    DigitValue(n % 10);
    if n < 10 {
      assert Digits(n)[..0] == [];
    } else {
      ParseDigits(n / 10);
      assert Digits(n)[..|Digits(n)| - 1] == Digits(n / 10);
    }
  }

  /** A numeral determines its number. */
  lemma ItoaInjective(m: int, n: int)
    ensures Itoa(m) == Itoa(n) ==> m == n
  {
    var a, b := if m < 0 then -m else m, if n < 0 then -n else n;
    DigitsAreDigits(a);
    DigitsAreDigits(b);
    ParseDigits(a);
    ParseDigits(b);
    assert m < 0 ==> Itoa(m)[0] == '-' && Itoa(m)[1..] == Digits(a);
    assert n < 0 ==> Itoa(n)[0] == '-' && Itoa(n)[1..] == Digits(b);
    assert m >= 0 ==> Itoa(m)[0] in Digits(a);
    assert n >= 0 ==> Itoa(n)[0] in Digits(b);
  }

  lemma ItoaChars(n: int)
    ensures forall c :: c in Itoa(n) ==> IsDigit(c) || c == '-'
  {
    DigitsAreDigits(if n < 0 then -n else n);
  }

  // ---- Separators ----

  /** Text up to the first separator, and the text after it, are determined. */
  lemma FirstSeparator(x: string, u: string, y: string, v: string, sep: char)
    requires sep !in x && sep !in y && x + [sep] + u == y + [sep] + v
    ensures x == y && u == v
  {
    var s := x + [sep] + u;
    assert s[|x|] == sep && s[|y|] == sep;
    assert forall i :: 0 <= i < |x| ==> s[i] == x[i];
    assert forall i :: 0 <= i < |y| ==> s[i] == (y + [sep] + v)[i] == y[i];
    assert |x| == |y|;
    assert x == s[..|x|] == y;
    assert u == s[|x| + 1..] == v;
  }

  function Join(parts: seq<string>, sep: char): string {
    if parts == [] then "" else if |parts| == 1 then parts[0] else parts[0] + [sep] + Join(parts[1..], sep)
  }

  predicate Free(s: string, sep: char) {
    sep !in s
  }

  /** Joining loses nothing as long as no part contains the separator and the number of parts is known. */
  lemma {:induction false} JoinInjective(a: seq<string>, b: seq<string>, sep: char)
    requires |a| == |b|
    requires (forall i :: 0 <= i < |a| ==> Free(a[i], sep)) && (forall i :: 0 <= i < |b| ==> Free(b[i], sep))
    requires Join(a, sep) == Join(b, sep)
    ensures a == b
  {
    if |a| > 1 {
      assert Free(a[0], sep) && Free(b[0], sep);
      FirstSeparator(a[0], Join(a[1..], sep), b[0], Join(b[1..], sep), sep);
      forall i | 0 <= i < |a[1..]| ensures Free(a[1..][i], sep) && Free(b[1..][i], sep) {
        assert a[1..][i] == a[i + 1] && b[1..][i] == b[i + 1];
      }
      JoinInjective(a[1..], b[1..], sep);
      assert a == [a[0]] + a[1..] && b == [b[0]] + b[1..];
    } else if |a| == 1 {
      assert a == [a[0]] && b == [b[0]];
    }
  }

  // ---- Identifiers ----

  predicate IsAlphanumeric(c: char) {
    'a' <= c <= 'z' || 'A' <= c <= 'Z' || '0' <= c <= '9'
  }

  predicate IdentifierChar(c: char, first: bool) {
    IsAlphanumeric(c) || (!first && (c == '.' || c == '_' || c == ':' || c == '-'))
  }

  predicate ValidIdentifier(s: string) {
    1 <= |s| <= 128 && forall i :: 0 <= i < |s| ==> IdentifierChar(s[i], i == 0)
  }

  // ---- Order ----

  /** The order of string comparison: byte order of UTF-8, which is the order of code points. */
  predicate Less(a: string, b: string) {
    if b == [] then false
    else if a == [] then true
    else if a[0] != b[0] then a[0] < b[0]
    else Less(a[1..], b[1..])
  }

  lemma {:induction false} LessTransitive(a: string, b: string, c: string)
    requires Less(a, b) && Less(b, c)
    ensures Less(a, c)
  {
    if a != [] && a[0] == b[0] == c[0] {
      LessTransitive(a[1..], b[1..], c[1..]);
    }
  }

  lemma {:induction false} LessTotal(a: string, b: string)
    ensures Less(a, b) || a == b || Less(b, a)
  {
    if a != [] && b != [] && a[0] == b[0] {
      LessTotal(a[1..], b[1..]);
      assert a == [a[0]] + a[1..] && b == [b[0]] + b[1..];
    }
  }

  lemma {:induction false} LessIrreflexive(a: string)
    ensures !Less(a, a)
  {
    if a != [] {
      LessIrreflexive(a[1..]);
    }
  }
}
