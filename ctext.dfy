/** The pieces of the C library the core relies on when it reads or writes
    text: the character classes of the "C" locale, strtod, strtol, sscanf's
    "%2d" conversion, decimal rendering, and the C conversions between
    doubles and ints (truncation toward zero) and C's `/` and `%`. */
module CText {

  /** isspace() in the "C" locale: space, \t, \n, \v, \f, \r. */
  predicate IsSpace(c: char) {
    c == ' ' || c == '\t' || c == '\n' || c == '\r' || c as int == 11 || c as int == 12
  }

  predicate IsDigit(c: char) {
    '0' <= c <= '9'
  }

  predicate IsUpper(c: char) {
    'A' <= c <= 'Z'
  }

  predicate IsLower(c: char) {
    'a' <= c <= 'z'
  }

  /** isalnum() in the "C" locale. */
  predicate IsAlnum(c: char) {
    IsDigit(c) || IsUpper(c) || IsLower(c)
  }

  /** tolower() in the "C" locale. */
  function ToLower(c: char): (r: char)
    ensures IsUpper(c) ==> IsLower(r) && r as int == c as int + 32
    ensures !IsUpper(c) ==> r == c
  {
    if IsUpper(c) then (c as int + 32) as char else c
  }

  /** The value of a decimal digit character; 0 for any other character. */
  function DigitValue(c: char): (d: nat)
    ensures d < 10
    ensures IsDigit(c) ==> d == c as int - '0' as int
  {
    if IsDigit(c) then c as int - '0' as int else 0
  }

  function DigitChar(d: nat): (c: char)
    requires d < 10
    ensures IsDigit(c) && DigitValue(c) == d
  {
    ('0' as int + d) as char
  }

  function Pow10(n: nat): (p: nat)
    ensures p >= 1
  {
    if n == 0 then 1 else 10 * Pow10(n - 1)
  }

  /** The length of t[..n] once its trailing `c` characters are removed. */
  function TrimEnd(t: string, n: nat, c: char): (k: nat)
    requires n <= |t|
    ensures k <= n && (k == 0 || t[k - 1] != c)
    decreases n
  {
    if n > 0 && t[n - 1] == c then TrimEnd(t, n - 1, c) else n
  }

  /** Index of the first character at or after `i` that isspace() rejects. */
  function SkipSpaces(s: string, i: nat): (j: nat)
    requires i <= |s|
    ensures i <= j <= |s|
    ensures j == |s| || !IsSpace(s[j])
    decreases |s| - i
  {
    if i < |s| && IsSpace(s[i]) then SkipSpaces(s, i + 1) else i
  }

  /** Index of the first non-digit at or after `i`. */
  function DigitsEnd(s: string, i: nat): (j: nat)
    requires i <= |s|
    ensures i <= j <= |s|
    ensures j == |s| || !IsDigit(s[j])
    ensures j > i ==> IsDigit(s[i]) && IsDigit(s[j - 1])
    decreases |s| - i
  {
    if i < |s| && IsDigit(s[i]) then DigitsEnd(s, i + 1) else i
  }

  /** The number written in decimal by the digits s[i..j]. */
  function DigitsValue(s: string, i: nat, j: nat): (v: nat)
    requires i <= j <= |s|
    ensures v < Pow10(j - i)
    decreases j - i
  {
    if i == j then 0 else DigitsValue(s, i, j - 1) * 10 + DigitValue(s[j - 1])
  }

  /** The value of a digit run depends only on those digits. */
  lemma {:induction false} DigitsValueSlice(s: string, i: nat, j: nat, t: string, k: nat)
    requires i <= j <= |s| && k + (j - i) <= |t|
    requires t[k..k + (j - i)] == s[i..j]
    ensures DigitsValue(s, i, j) == DigitsValue(t, k, k + (j - i))
    decreases j - i
  {
    forall m | k <= m < k + (j - i) ensures t[m] == s[i + (m - k)] {
      assert t[k..k + (j - i)][m - k] == s[i..j][m - k];
    }
    if i < j {
      DigitsValueSlice(s, i, j - 1, t, k);
      assert t[k + (j - i) - 1] == s[j - 1];
    }
  }

  /** Decimal rendering of a natural number, without leading zeros. */
  function NatToString(n: nat): (t: string)
    ensures |t| >= 1 && IsDigit(t[0]) && IsDigit(t[|t| - 1])
    decreases n
  {
    if n < 10 then [DigitChar(n)] else NatToString(n / 10) + [DigitChar(n % 10)]
  }

  /** The decimal rendering is made of digits only. */
  lemma {:induction false} NatToStringDigits(n: nat)
    ensures forall k :: 0 <= k < |NatToString(n)| ==> IsDigit(NatToString(n)[k])
    decreases n
  {
    if n >= 10 {
      NatToStringDigits(n / 10);
      var a := NatToString(n / 10);
      assert NatToString(n) == a + [DigitChar(n % 10)];
    }
  }

  /** Reading back the decimal rendering gives the number. */
  lemma {:induction false} NatToStringValue(n: nat)
    ensures DigitsValue(NatToString(n), 0, |NatToString(n)|) == n
    decreases n
  {
    var t := NatToString(n);
    if n >= 10 {
      var a := NatToString(n / 10);
      NatToStringValue(n / 10);
      DigitsValueSlice(a, 0, |a|, t, 0);
      assert t[|t| - 1] == DigitChar(n % 10);
    }
  }

  /** Decimal rendering of an int, as printf("%d") writes it. */
  function IntToString(i: int): (t: string)
    ensures |t| >= 1
  {
    if i < 0 then "-" + NatToString(-i) else NatToString(i)
  }

  /** Result of a strtod()/strtol()-like scan: `next` is the end pointer. */
  datatype RealScan = NoReal | Real(value: real, next: nat)
  datatype IntScan = NoInt | Int(value: int, next: nat)

  /** x times 10^e, by repeated multiplication or division by ten. */
  function ScaleBy10(x: real, e: int): (y: real)
    ensures x > 0.0 ==> y > 0.0
    ensures x < 0.0 ==> y < 0.0
    decreases if e < 0 then -e else e
  {
    if e == 0 then x
    else if e > 0 then ScaleBy10(x, e - 1) * 10.0
    else ScaleBy10(x, e + 1) / 10.0
  }

  /** Start of the exponent digits of a strtod() number whose mantissa
      ends at i (after 'e'/'E' and an optional sign), or i without an 'e'. */
  function ExponentDigits(s: string, i: nat): (es: nat)
    requires i <= |s|
    ensures i <= es <= |s|
  {
    if i < |s| && (s[i] == 'e' || s[i] == 'E') then
      if i + 1 < |s| && (s[i + 1] == '-' || s[i + 1] == '+') then i + 2 else i + 1
    else i
  }

  /** End of a strtod() number whose mantissa ends at i: an exponent counts
      only when it has at least one digit. */
  function ExponentEnd(s: string, i: nat): (j: nat)
    requires i <= |s|
    ensures i <= j <= |s|
  {
    var es := ExponentDigits(s, i);
    if es == i then i
    else
      var ee := DigitsEnd(s, es);
      if ee == es then i else ee
  }

  /** The signed decimal exponent written after the mantissa ending at i,
      or 0 without one. */
  function ExponentValue(s: string, i: nat): (e: int)
    requires i <= |s|
    ensures ExponentEnd(s, i) == i ==> e == 0
  {
    var es := ExponentDigits(s, i);
    if es == i then 0
    else
      var ee := DigitsEnd(s, es);
      if ee == es then 0
      else if s[i + 1] == '-' then -(DigitsValue(s, es, ee) as int)
      else DigitsValue(s, es, ee)
  }

  /** The digits s[i..j] appended, in order, to the decimal number acc. */
  function AppendDigits(acc: nat, s: string, i: nat, j: nat): (v: nat)
    requires i <= j <= |s|
    ensures v >= acc
    decreases j - i
  {
    if i == j then acc else AppendDigits(acc * 10 + DigitValue(s[i]), s, i + 1, j)
  }

  /** strtod(s + i, &end) for decimal input: leading white space, an optional
      sign, digits with an optional '.', an optional exponent. `NoReal` is the
      case end == s + i (nothing converted). */
  function StrToD(s: string, i: nat): (r: RealScan)
    requires i <= |s|
    ensures r.Real? ==> i < r.next <= |s|
  {
    var j := SkipSpaces(s, i);
    var neg := j < |s| && s[j] == '-';
    var k := if j < |s| && (s[j] == '-' || s[j] == '+') then j + 1 else j;
    var ie := DigitsEnd(s, k);
    var fs := if ie < |s| && s[ie] == '.' then ie + 1 else ie;
    var fe := DigitsEnd(s, fs);
    if ie == k && fe == fs then NoReal
    else
      var digits := AppendDigits(DigitsValue(s, k, ie), s, fs, fe) as real;
      Real(ScaleBy10(if neg then -digits else digits, ExponentValue(s, fe) - (fe - fs)),
           ExponentEnd(s, fe))
  }

  const LongMin: int := -0x8000_0000_0000_0000
  const LongMax: int := 0x7FFF_FFFF_FFFF_FFFF

  /** strtol(s + i, &end, 10): white space, optional sign, decimal digits; an
      out-of-range value saturates at LONG_MIN/LONG_MAX of a 64-bit long. */
  function StrToL(s: string, i: nat): (r: IntScan)
    requires i <= |s|
    ensures r.Int? ==> i < r.next <= |s| && IsDigit(s[r.next - 1])
    ensures r.Int? ==> LongMin <= r.value <= LongMax
  {
    var j := SkipSpaces(s, i);
    var neg := j < |s| && s[j] == '-';
    var k := if j < |s| && (s[j] == '-' || s[j] == '+') then j + 1 else j;
    var e := DigitsEnd(s, k);
    if e == k then NoInt
    else
      var v: int := DigitsValue(s, k, e);
      Int(if neg then (if -v < LongMin then LongMin else -v) else (if v > LongMax then LongMax else v), e)
  }

  /** One "%2d" conversion of sscanf(): skips white space, then reads at most
      two characters, a sign counting as one of them. */
  function Scan2d(s: string, i: nat): (r: IntScan)
    requires i <= |s|
    ensures r.Int? ==> i < r.next <= |s| && -9 <= r.value <= 99
  {
    var j := SkipSpaces(s, i);
    if j < |s| && (s[j] == '-' || s[j] == '+') then
      if j + 1 < |s| && IsDigit(s[j + 1]) then
        Int(if s[j] == '-' then -(DigitValue(s[j + 1]) as int) else DigitValue(s[j + 1]), j + 2)
      else NoInt
    else if j < |s| && IsDigit(s[j]) then
      if j + 1 < |s| && IsDigit(s[j + 1]) then Int(DigitValue(s[j]) * 10 + DigitValue(s[j + 1]), j + 2)
      else Int(DigitValue(s[j]), j + 1)
    else NoInt
  }

  /** C's conversion of a double to an integer: truncation toward zero. */
  function Trunc(x: real): (n: int)
    ensures x >= 0.0 ==> n == x.Floor
    ensures (n as real) - 1.0 < x < (n as real) + 1.0
    ensures 0.0 <= x ==> 0 <= n && n as real <= x
    ensures x <= 0.0 ==> n <= 0 && x <= n as real
  {
    if x >= 0.0 then x.Floor else -((-x).Floor)
  }

  /** C's integer `/`, which truncates toward zero. */
  function CDiv(a: int, b: int): (q: int)
    requires b != 0
    ensures a >= 0 && b > 0 ==> q == a / b
  {
    var q := (if a < 0 then -a else a) / (if b < 0 then -b else b);
    if (a < 0) != (b < 0) then -q else q
  }

  /** C's integer `%`: the remainder has the sign of the dividend. */
  function CRem(a: int, b: int): (r: int)
    requires b != 0
    ensures a >= 0 && b > 0 ==> r == a % b
  {
    a - b * CDiv(a, b)
  }

  /** Conversion of a wider integer to a 32-bit int as LP64 compilers do it:
      the value is taken modulo 2^32 into the signed range. */
  function Int32Cast(x: int): (r: int)
    ensures -0x8000_0000 <= r < 0x8000_0000
    ensures (x - r) % 0x1_0000_0000 == 0
    ensures -0x8000_0000 <= x < 0x8000_0000 ==> r == x
  {
    var m := x % 0x1_0000_0000;
    if m >= 0x8000_0000 then m - 0x1_0000_0000 else m
  }

  /** DigitsEnd stops exactly at the end of a maximal digit run. */
  lemma {:induction false} DigitsEndOfRun(s: string, i: nat, j: nat)
    requires i <= j <= |s|
    requires forall k :: i <= k < j ==> IsDigit(s[k])
    requires j == |s| || !IsDigit(s[j])
    ensures DigitsEnd(s, i) == j
    decreases j - i
  {
    if i < j {
      DigitsEndOfRun(s, i + 1, j);
    }
  }

  /** The decimal rendering of n, placed in s at index i and not followed
      by another digit, is one digit run worth n. */
  lemma NatDigitsAt(s: string, i: nat, n: nat)
    requires i + |NatToString(n)| <= |s| && s[i..i + |NatToString(n)|] == NatToString(n)
    requires i + |NatToString(n)| == |s| || !IsDigit(s[i + |NatToString(n)|])
    ensures DigitsEnd(s, i) == i + |NatToString(n)|
    ensures DigitsValue(s, i, i + |NatToString(n)|) == n
  {
    var t := NatToString(n);
    NatToStringDigits(n);
    forall k | i <= k < i + |t| ensures IsDigit(s[k]) {
      assert s[k] == s[i..i + |t|][k - i];
    }
    DigitsEndOfRun(s, i, i + |t|);
    NatToStringValue(n);
    DigitsValueSlice(t, 0, |t|, s, i);
  }

  /** strtol() reads back a number written by NatToString. */
  lemma StrToLOfNat(s: string, i: nat, n: nat)
    requires i + |NatToString(n)| <= |s| && s[i..i + |NatToString(n)|] == NatToString(n)
    requires i + |NatToString(n)| == |s| || !IsDigit(s[i + |NatToString(n)|])
    ensures StrToL(s, i) == Int(if n > LongMax then LongMax else n, i + |NatToString(n)|)
  {
    NatDigitsAt(s, i, n);
    assert SkipSpaces(s, i) == i;
  }

  /** strtod() of a digit run worth n that no '.' or exponent follows. */
  lemma StrToDOfDigits(s: string, i: nat, j: nat, n: nat)
    requires i < j <= |s| && DigitsEnd(s, i) == j && DigitsValue(s, i, j) == n
    requires j == |s| || (s[j] != '.' && s[j] != 'e' && s[j] != 'E')
    ensures StrToD(s, i) == Real(n as real, j)
  {
    assert SkipSpaces(s, i) == i by {
      assert IsDigit(s[i]);
    }
    assert DigitsEnd(s, j) == j;
    assert DigitsValue(s, j, j) == 0;
    assert ExponentDigits(s, j) == j;
    assert ExponentEnd(s, j) == j && ExponentValue(s, j) == 0;
    assert AppendDigits(n, s, j, j) == n;
  }

  /** strtod() reads back a number written by NatToString when no '.' or
      exponent follows it. */
  lemma StrToDOfNat(s: string, i: nat, n: nat)
    requires i + |NatToString(n)| <= |s| && s[i..i + |NatToString(n)|] == NatToString(n)
    requires var j := i + |NatToString(n)|;
      j == |s| || (!IsDigit(s[j]) && s[j] != '.' && s[j] != 'e' && s[j] != 'E')
    ensures StrToD(s, i) == Real(n as real, i + |NatToString(n)|)
  {
    NatDigitsAt(s, i, n);
    StrToDOfDigits(s, i, i + |NatToString(n)|, n);
  }

  /** A number below 10^d has at most d digits. */
  lemma {:induction false} NatToStringLength(n: nat, d: nat)
    requires 0 < d && n < Pow10(d)
    ensures |NatToString(n)| <= d
    decreases d
  {
    if n >= 10 {
      assert d > 1;
      NatToStringLength(n / 10, d - 1);
    }
  }

  lemma SliceOfConcat(a: string, b: string)
    ensures (a + b)[|a|..|a| + |b|] == b
  {
  }
}
