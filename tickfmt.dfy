/** Axis tick labels: C format_tick_value and the plot script's _fmt_tick.
    Both print the value with two decimals, then drop trailing zeros, a
    trailing '.', and the sign of a negative zero. */
module TickFormat {
  import opened CText
  import Axis
  import Curves

  /** |v| in hundredths, rounded with halves going to the even neighbour. */
  function Hundredths(v: real): (n: nat) {
    var n := Axis.RoundHalfEven(Curves.Abs(v) * 100.0);
    assert n >= 0;
    n
  }

  /** The two decimals of a count of hundredths. */
  function Cents(n: nat): (c: string)
    ensures |c| == 2 && IsDigit(c[0]) && IsDigit(c[1])
  {
    [DigitChar(n / 10 % 10), DigitChar(n % 10)]
  }

  function SignOf(v: real): string {
    if v < 0.0 then "-" else ""
  }

  /** printf("%.2f") / f"{v:.2f}": sign, integer digits, '.', two decimals. */
  function Fixed2(v: real): string {
    SignOf(v) + NatToString(Hundredths(v) / 100) + "." + Cents(Hundredths(v))
  }

  /** Trailing zeros, then a trailing '.', removed; "-0" becomes "0". */
  function Tidy(t: string): string {
    var k := TrimEnd(t, |t|, '0');
    var m := if k > 0 && t[k - 1] == '.' then k - 1 else k;
    if t[..m] == "-0" then "0" else t[..m]
  }

  /** Values closer to zero than 5e-4 print as zero. */
  function SnapZero(v: real): real {
    if Curves.Abs(v) < 0.0005 then 0.0 else v
  }

  /** The label _fmt_tick gives a value. */
  function TickText(v: real): string {
    Tidy(Fixed2(SnapZero(v)))
  }

  /** The label format_tick_value gives a value: the same steps applied to
      the first 63 characters, which is all its 64-byte buffer holds. */
  function CTickText(v: real): string {
    var f := Fixed2(SnapZero(v));
    Tidy(if |f| <= 63 then f else f[..63])
  }

  /** Zeros are stripped no further back than a '.'. */
  lemma {:induction false} ZeroTrimStopsAtPoint(t: string, n: nat, p: nat)
    requires p < n <= |t| && t[p] == '.'
    ensures TrimEnd(t, n, '0') > p
    decreases n
  {
    if t[n - 1] == '0' {
      ZeroTrimStopsAtPoint(t, n - 1, p);
    }
  }

  /** A label is never empty, never "-0", never ends in '.', and a label
      with a '.' in it does not end in '0'. */
  lemma TickTextShape(v: real)
    ensures var r := TickText(v);
      |r| >= 1 && r != "-0" && r[|r| - 1] != '.' &&
      (forall k :: 0 <= k < |r| && r[k] == '.' ==> r[|r| - 1] != '0')
  {
    var w := SnapZero(v);
    var sign := SignOf(w);
    var digits := NatToString(Hundredths(w) / 100);
    var t := Fixed2(w);
    var p := |sign| + |digits|;
    assert t[p] == '.';
    ZeroTrimStopsAtPoint(t, |t|, p);
    var k := TrimEnd(t, |t|, '0');
    NatToStringDigits(Hundredths(w) / 100);
    assert forall i :: 0 <= i < p ==> t[i] != '.' by {
      forall i | 0 <= i < p
        ensures t[i] != '.'
      {
        if i >= |sign| {
          assert t[i] == digits[i - |sign|];
        }
      }
    }
    if t[k - 1] == '.' {
      assert k - 1 == p;
      assert t[..p] == sign + digits;
      assert t[p - 1] == digits[|digits| - 1];
    }
  }

  /** A value within less than half a hundredth of n hundredths. */
  lemma HundredthsOf(v: real, n: nat)
    requires n as real - 0.5 < Curves.Abs(v) * 100.0 < n as real + 0.5
    ensures Hundredths(v) == n
  {
    Axis.RoundHalfEvenOf(Curves.Abs(v) * 100.0, n);
  }

  /** "s.00" tidies to "s" for a sign and digits other than "-0". */
  lemma TidyWhole(sign: string, digits: string)
    requires sign == "" || sign == "-"
    requires |digits| >= 1 && IsDigit(digits[0]) && IsDigit(digits[|digits| - 1])
    requires !(sign == "-" && digits == "0")
    ensures Tidy(sign + digits + "." + "00") == sign + digits
  {
    var t := sign + digits + "." + "00";
    var n := |t|;
    assert t[n - 1] == '0' && t[n - 2] == '0' && t[n - 3] == '.';
    assert TrimEnd(t, n - 2, '0') == n - 2;
    assert TrimEnd(t, n, '0') == n - 2;
    assert t[..n - 3] == sign + digits;
    assert sign + digits != "-0" by {
      if sign == "" {
        assert (sign + digits)[0] == digits[0];
      } else {
        assert (sign + digits)[1..] == digits;
      }
    }
  }

  /** The only rendering that is "0" is that of 0. */
  lemma NatToStringZero(m: nat)
    requires NatToString(m) == "0"
    ensures m == 0
  {
    NatToStringLong(m);
  }

  lemma NatToStringLong(m: nat)
    ensures m >= 10 ==> |NatToString(m)| >= 2
  {
  }

  /** A whole number is labelled as printf("%d") would print it. */
  lemma TickTextOfInteger(k: int)
    ensures TickText(k as real) == IntToString(k)
  {
    var m: nat := if k < 0 then -k else k;
    var sign := if k < 0 then "-" else "";
    assert SnapZero(k as real) == k as real;
    HundredthsOf(k as real, m * 100);
    assert (m * 100) / 100 == m && (m * 100) / 10 % 10 == 0 && (m * 100) % 10 == 0;
    assert Cents(m * 100) == "00";
    assert Fixed2(k as real) == sign + NatToString(m) + "." + "00";
    if k < 0 && NatToString(m) == "0" {
      NatToStringZero(m);
    }
    TidyWhole(sign, NatToString(m));
  }

  /** 1.5 is labelled "1.5". */
  lemma TickTextOfOneAndAHalf()
    ensures TickText(1.5) == "1.5"
  {
    HundredthsOf(1.5, 150);
    assert NatToString(1) == "1";
    assert Cents(150) == "50";
    var t := Fixed2(1.5);
    assert t == "1.50";
    assert TrimEnd(t, 4, '0') == 3;
  }

  /** -0.0001 is snapped to zero and labelled "0". */
  lemma TickTextSnapsToZero()
    ensures TickText(-0.0001) == "0"
  {
    TickTextOfInteger(0);
    assert SnapZero(-0.0001) == 0.0;
  }

  /** -0.004 prints as "-0.00", which is labelled "0". */
  lemma TickTextNegativeZero()
    ensures TickText(-0.004) == "0"
  {
    HundredthsOf(-0.004, 0);
    assert NatToString(0) == "0";
    assert Cents(0) == "00";
    var t := Fixed2(-0.004);
    assert t == "-0.00";
    assert TrimEnd(t, 3, '0') == 3;
    assert TrimEnd(t, 5, '0') == 3;
    assert t[..2] == "-0";
  }

  /** A tie in the third decimal goes to the even hundredth: 0.125 is "0.12". */
  lemma TickTextTieToEven()
    ensures TickText(0.125) == "0.12"
  {
    assert Axis.RoundHalfEven(12.5) == 12;
    assert Hundredths(0.125) == 12;
    assert NatToString(0) == "0";
    assert Cents(12) == "12";
    var t := Fixed2(0.125);
    assert t == "0.12";
    assert TrimEnd(t, 4, '0') == 4;
    assert t[..4] == t;
  }

  lemma Pow10Of16()
    ensures Pow10(16) == 10000000000000000
  {
    assert Pow10(2) == 100;
    assert Pow10(4) == 100 * Pow10(2);
    assert Pow10(6) == 100 * Pow10(4);
    assert Pow10(8) == 100 * Pow10(6);
    assert Pow10(10) == 100 * Pow10(8);
    assert Pow10(12) == 100 * Pow10(10);
    assert Pow10(14) == 100 * Pow10(12);
    assert Pow10(16) == 100 * Pow10(14);
  }

  /** For any value below 10^15 in size the C label is the script's label. */
  lemma CTickTextMatchesScript(v: real)
    requires Curves.Abs(v) < 1000000000000000.0
    ensures CTickText(v) == TickText(v)
  {
    var w := SnapZero(v);
    var n := Hundredths(w);
    assert n as real <= Curves.Abs(w) * 100.0 + 0.5;
    Pow10Of16();
    NatToStringLength(n / 100, 16);
  }

  /** _fmt_tick(value). */
  method FmtTick(value: real) returns (text: string)
    ensures text == TickText(value)
  {
    var v := value;
    if Curves.Abs(v) < 0.0005 {
      v := 0.0;
    }
    text := Fixed2(v);
    text := TidyText(text);
  }

  /** _fmt_tick's clean-up of the "%.2f" text: drop trailing zeros one by
      one, then a trailing '.', and rewrite "-0" as "0". */
  method TidyText(f: string) returns (text: string)
    ensures text == Tidy(f)
  {
    text := f;
    while |text| > 0 && text[|text| - 1] == '0'
      invariant |text| <= |f| && text == f[..|text|]
      invariant TrimEnd(f, |text|, '0') == TrimEnd(f, |f|, '0')
    {
      assert f[..|text| - 1] == text[..|text| - 1];
      text := text[..|text| - 1];
    }
    ghost var k := TrimEnd(f, |f|, '0');
    assert |text| == k by {
      assert TrimEnd(f, |text|, '0') == |text|;
    }
    if |text| > 0 && text[|text| - 1] == '.' {
      text := text[..|text| - 1];
    }
    if text == "-0" {
      text := "0";
    }
  }

  /** format_tick_value's clean-up of its buffer: NUL out trailing zeros,
      then a trailing '.', and rewrite "-0" as "0". */
  method TidyBuffer(tmp: string) returns (t: string)
    ensures t == Tidy(tmp)
  {
    var len := |tmp|;
    while len > 0 && tmp[len - 1] == '0'
      invariant 0 <= len <= |tmp|
      invariant TrimEnd(tmp, len, '0') == TrimEnd(tmp, |tmp|, '0')
    {
      len := len - 1;
    }
    if len > 0 && tmp[len - 1] == '.' {
      len := len - 1;
    }
    t := tmp[..len];
    if t == "-0" {
      t := "0";
    }
  }

  /** strncpy(out, t, out_sz - 1) followed by out[out_sz - 1] = NUL. */
  method CopyOut(t: string, out: array<char>, outSz: int)
    requires 2 <= outSz <= out.Length
    modifies out
    ensures var k := if |t| < outSz - 1 then |t| else outSz - 1;
      out[..k] == t[..k] && (forall j :: k <= j < outSz ==> out[j] == '\0')
    ensures forall j :: outSz <= j < out.Length ==> out[j] == old(out[j])
  {
    var i := 0;
    while i < outSz - 1
      invariant 0 <= i <= outSz - 1
      invariant forall j :: 0 <= j < i ==> out[j] == if j < |t| then t[j] else '\0'
      invariant forall j :: i <= j < out.Length ==> out[j] == old(out[j])
    {
      out[i] := if i < |t| then t[i] else '\0';
      i := i + 1;
    }
    out[outSz - 1] := '\0';
  }

  /** format_tick_value(val, out, out_sz): for out_sz >= 2 the label, cut
      to out_sz - 1 characters, is copied into out and NUL-padded to
      out_sz - 1, with out[out_sz - 1] = NUL; nothing else is written. */
  method FormatTickValue(val: real, out: array<char>, outSz: int)
    requires outSz <= out.Length
    modifies out
    ensures outSz < 2 ==> out[..] == old(out[..])
    ensures outSz >= 2 ==>
              var t := CTickText(val);
              var k := if |t| < outSz - 1 then |t| else outSz - 1;
              out[..k] == t[..k] &&
              (forall j :: k <= j < outSz ==> out[j] == '\0')
    ensures forall j :: (outSz < 0 || outSz <= j) && 0 <= j < out.Length ==> out[j] == old(out[j])
  {
    if outSz < 2 {
      return;
    }
    var v := val;
    if Curves.Abs(v) < 0.0005 {
      v := 0.0;
    }
    assert v == SnapZero(val);
    var f := Fixed2(v);
    // snprintf into char tmp[64] keeps at most 63 characters.
    var tmp := if |f| <= 63 then f else f[..63];
    var t := TidyBuffer(tmp);
    CopyOut(t, out, outSz);
  }
}
