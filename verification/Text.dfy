/** Go strings as the repository uses them: byte order, decimal printing and
    `strconv.ParseInt(s, 10, 64)`. */
module Text {

  datatype Option<+T> = None | Some(value: T)

  const MIN_INT64: int := -0x8000_0000_0000_0000
  const MAX_INT64: int := 0x7fff_ffff_ffff_ffff

  predicate IsInt64(n: int) {
    MIN_INT64 <= n <= MAX_INT64
  }

  /** Go's `<` on strings: lexicographic. */
  predicate Less(a: string, b: string) {
    b != "" && (a == "" || a[0] < b[0] || (a[0] == b[0] && Less(a[1..], b[1..])))
  }

  lemma {:induction false} LessTotal(a: string, b: string)
    ensures !(Less(a, b) && Less(b, a))
    ensures Less(a, b) || Less(b, a) || a == b
    ensures Less(a, b) ==> a != b
  {
    if a != "" && b != "" && a[0] == b[0] {
      LessTotal(a[1..], b[1..]);
      assert a == [a[0]] + a[1..] && b == [b[0]] + b[1..];
    }
  }

  lemma {:induction false} LessTransitive(a: string, b: string, c: string)
    requires Less(a, b) && Less(b, c)
    ensures Less(a, c)
  {
    if a != "" && a[0] == b[0] && b[0] == c[0] {
      LessTransitive(a[1..], b[1..], c[1..]);
    }
  }

  /** On strings of one length the order is decided before the last character. */
  lemma {:induction false} LessAppend(a: string, b: string, x: char, y: char)
    requires |a| == |b|
    ensures Less(a + [x], b + [y]) <==> Less(a, b) || (a == b && x < y)
  {
    if a == "" {
      assert a + [x] == [x] && b + [y] == [y];
      assert [x][1..] == "" && [y][1..] == "";
    } else {
      LessAppend(a[1..], b[1..], x, y);
      assert (a + [x])[1..] == a[1..] + [x] && (b + [y])[1..] == b[1..] + [y];
      assert a == [a[0]] + a[1..] && b == [b[0]] + b[1..];
    }
  }

  predicate IsDigit(c: char) {
    '0' <= c <= '9'
  }

  predicate AllDigits(s: string) {
    forall i :: 0 <= i < |s| ==> IsDigit(s[i])
  }

  function DigitValue(c: char): (v: nat)
    requires IsDigit(c)
    ensures v < 10
  {
    (c - '0') as nat
  }

  function DigitChar(d: nat): (c: char)
    requires d < 10
    ensures IsDigit(c) && DigitValue(c) == d
  {
    '0' + d as char
  }

  function Value(s: string): (v: nat)
    requires AllDigits(s)
  {
    if s == "" then 0 else 10 * Value(s[..|s| - 1]) + DigitValue(s[|s| - 1])
  }

  /** Canonical digits: no leading zero unless the number is zero itself. */
  predicate CanonicalDigits(s: string) {
    s != "" && AllDigits(s) && (s[0] == '0' ==> |s| == 1)
  }

  function Decimal(n: nat): (s: string)
    ensures CanonicalDigits(s) && Value(s) == n
  {
    if n < 10 then
      assert [DigitChar(n)][..0] == "";
      [DigitChar(n)]
    else
      var front := Decimal(n / 10);
      assert (front + [DigitChar(n % 10)])[..|front|] == front;
      assert front[0] != '0';
      front + [DigitChar(n % 10)]
  }

  lemma {:induction false} ValuePositive(s: string)
    requires AllDigits(s) && s != "" && s[0] != '0'
    ensures Value(s) > 0
  {
    if |s| > 1 {
      ValuePositive(s[..|s| - 1]);
    }
  }

  /** `Decimal` is the only canonical spelling of a number. */
  lemma {:induction false} DecimalUnique(s: string)
    requires CanonicalDigits(s)
    ensures Decimal(Value(s)) == s
  {
    var front := s[..|s| - 1];
    assert s == front + [s[|s| - 1]];
    assert DigitChar(DigitValue(s[|s| - 1])) == s[|s| - 1];
    if |s| == 1 {
      assert Value(front) == 0;
    } else {
      ValuePositive(front);
      DecimalUnique(front);
      assert Value(s) / 10 == Value(front);
    }
  }

  function Pow10(k: nat): nat {
    if k == 0 then 1 else 10 * Pow10(k - 1)
  }

  lemma {:induction false} DecimalLength(n: nat, k: nat)
    requires k >= 1 && (k == 1 || Pow10(k - 1) <= n) && n < Pow10(k)
    ensures |Decimal(n)| == k
  {
    if k > 1 {
      assert Pow10(k - 1) >= 10 by { Pow10Positive(k - 2); }
      DecimalLength(n / 10, k - 1);
    }
  }

  lemma {:induction false} Pow10Positive(k: nat)
    ensures Pow10(k) >= 1
  {
    if k > 0 {
      Pow10Positive(k - 1);
    }
  }

  /** For digit strings of equal length the string order is the numeric order. */
  lemma {:induction false} EqualLengthOrder(a: string, b: string)
    requires AllDigits(a) && AllDigits(b) && |a| == |b|
    ensures Less(a, b) <==> Value(a) < Value(b)
    ensures a == b <==> Value(a) == Value(b)
  {
    if a != "" {
      var fa, fb := a[..|a| - 1], b[..|b| - 1];
      var x, y := a[|a| - 1], b[|b| - 1];
      assert a == fa + [x] && b == fb + [y];
      EqualLengthOrder(fa, fb);
      LessAppend(fa, fb, x, y);
      LessTotal(a, b);
    }
  }

  /** Go's `%d` on an int64. */
  function PrintInt(n: int): (s: string)
    ensures s != ""
  {
    if n < 0 then "-" + Decimal(-n) else Decimal(n)
  }

  /** `strconv.ParseInt(s, 10, 64)`: an optional sign, at least one digit, nothing else, in range. */
  function ParseInt(s: string): (r: Option<int>)
    ensures r.Some? ==> s != "" && IsInt64(r.value)
  {
    var signed := s != "" && (s[0] == '+' || s[0] == '-');
    var digits := if signed then s[1..] else s;
    if digits == "" || !AllDigits(digits) then None
    else
      var n := if signed && s[0] == '-' then -(Value(digits) as int) else Value(digits);
      if IsInt64(n) then Some(n) else None
  }

  /** The spellings `%d` produces: plain canonical digits, or a minus and the digits of a positive number. */
  predicate Canonical(s: string) {
    CanonicalDigits(s) || (s != "" && s[0] == '-' && CanonicalDigits(s[1..]) && s[1..] != "0")
  }

  lemma {:induction false} PrintParse(n: int)
    requires IsInt64(n)
    ensures ParseInt(PrintInt(n)) == Some(n)
    ensures Canonical(PrintInt(n))
  {
    if n < 0 {
      assert PrintInt(n)[1..] == Decimal(-n);
      assert Value("0") == 0 by { assert "0"[..0] == ""; }
    } else {
      var d := Decimal(n);
      assert IsDigit(d[0]);
    }
  }

  /** Printing gives back a parsed text exactly when that text was canonical. */
  lemma {:induction false} ParsePrint(s: string)
    requires ParseInt(s).Some?
    ensures PrintInt(ParseInt(s).value) == s <==> Canonical(s)
  {
    hide PrintInt, Canonical;
    PrintParse(ParseInt(s).value);
    if Canonical(s) {
      CanonicalIsPrinted(s);
    }
  }

  lemma {:induction false} CanonicalIsPrinted(s: string)
    requires ParseInt(s).Some? && Canonical(s)
    ensures PrintInt(ParseInt(s).value) == s
  {
    hide Decimal, Value;
    if s[0] == '-' {
      DecimalUnique(s[1..]);
      assert s == "-" + s[1..];
      ValuePositive(s[1..]);
    } else {
      assert IsDigit(s[0]);
      DecimalUnique(s);
    }
  }
}
