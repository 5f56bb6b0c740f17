/** The small string routines of the built-in plotter and the output-file
    logic: file-name tokens, case-insensitive comparison, the command-line
    builder for the external plot script, and the output-extension test.
    A C string is a `string` without NUL characters; a C char buffer is an
    `array<char>` whose text runs up to its first NUL. */
module Tokens {
  import opened CText
  import opened Wrappers

  predicate NoNul(s: string) {
    forall k :: 0 <= k < |s| ==> s[k] != '\0'
  }

  /** Index of the first NUL at or after i, or |a| when there is none. */
  function CLen(a: seq<char>, i: nat): (n: nat)
    requires i <= |a|
    ensures i <= n <= |a| && (n < |a| ==> a[n] == '\0')
    decreases |a| - i
  {
    if i == |a| || a[i] == '\0' then i else CLen(a, i + 1)
  }

  /** No NUL comes before the end of the string. */
  lemma {:induction false} CLenNoNul(a: seq<char>, i: nat)
    requires i <= |a|
    ensures forall k :: i <= k < CLen(a, i) ==> a[k] != '\0'
    decreases |a| - i
  {
    if i < |a| && a[i] != '\0' {
      CLenNoNul(a, i + 1);
    }
  }

  /** The C string a char buffer holds. */
  function CStr(a: seq<char>): string {
    a[..CLen(a, 0)]
  }

  /** A NUL at n preceded by none is where the string ends. */
  lemma {:induction false} CLenIs(a: seq<char>, i: nat, n: nat)
    requires i <= n < |a| && a[n] == '\0'
    requires forall k :: i <= k < n ==> a[k] != '\0'
    ensures CLen(a, i) == n
    decreases n - i
  {
    if i < n {
      CLenIs(a, i + 1, n);
    }
  }

  // ---------------------------------------------------------------------
  // sanitize_filename_token

  /** The characters a file-name token keeps as they are. */
  predicate KeepChar(c: char) {
    IsAlnum(c) || c == '.' || c == '_' || c == '-'
  }

  /** The token text produced from s[a..]: kept characters pass through and
      each run of other characters becomes one '_' (und: the last thing
      emitted was such a '_'). */
  function Squash(s: string, a: nat, und: bool): string
    requires a <= |s|
    decreases |s| - a
  {
    if a == |s| then []
    else if KeepChar(s[a]) then [s[a]] + Squash(s, a + 1, false)
    else if !und then ['_'] + Squash(s, a + 1, true)
    else Squash(s, a + 1, true)
  }

  /** The first cap characters of t, or all of t when it is shorter. */
  function Cut(t: string, cap: nat): (c: string)
    ensures |c| <= cap && c <= t
    ensures |t| <= cap ==> c == t
  {
    if |t| <= cap then t else t[..cap]
  }

  /** The token sanitize_filename_token leaves in a buffer of cap + 1 chars. */
  function SanitizedToken(s: string, cap: nat): string {
    var c := Cut(Squash(s, 0, false), cap);
    var k := TrimEnd(c, |c|, '_');
    if k == 0 then "x" else c[..k]
  }

  /** Everything Squash emits is a kept character. */
  lemma {:induction false} SquashKeeps(s: string, a: nat, und: bool)
    requires a <= |s|
    ensures forall k :: 0 <= k < |Squash(s, a, und)| ==> KeepChar(Squash(s, a, und)[k])
    decreases |s| - a
  {
    if a < |s| {
      SquashKeeps(s, a + 1, !KeepChar(s[a]));
    }
  }

  /** A run s[a..j) of other characters, ended by a kept character or the
      end of s, becomes a single '_'. */
  lemma {:induction false} SquashRun(s: string, a: nat, j: nat)
    requires a < j <= |s|
    requires forall k :: a <= k < j ==> !KeepChar(s[k])
    ensures Squash(s, a, false) == ['_'] + Squash(s, j, true)
    ensures Squash(s, a, true) == Squash(s, j, true)
    decreases j - a
  {
    if a + 1 < j {
      SquashRun(s, a + 1, j);
    }
  }

  /** After a run, a kept character or the end of s resets the run. */
  lemma SquashAfterRun(s: string, j: nat)
    requires j <= |s| && (j == |s| || KeepChar(s[j]))
    ensures Squash(s, j, true) == Squash(s, j, false)
  {
  }

  /** Only '_' characters come out of a text with nothing else to keep. */
  lemma {:induction false} SquashOnlyUnderscores(s: string, a: nat, und: bool)
    requires a <= |s|
    requires forall k :: a <= k < |s| ==> !KeepChar(s[k]) || s[k] == '_'
    ensures forall k :: 0 <= k < |Squash(s, a, und)| ==> Squash(s, a, und)[k] == '_'
    decreases |s| - a
  {
    if a < |s| {
      SquashOnlyUnderscores(s, a + 1, !KeepChar(s[a]));
    }
  }

  /** Trimming a text of '_' characters leaves nothing. */
  lemma {:induction false} TrimEndAllUnderscores(t: string, n: nat)
    requires n <= |t|
    requires forall k :: 0 <= k < n ==> t[k] == '_'
    ensures TrimEnd(t, n, '_') == 0
    decreases n
  {
    if n > 0 {
      TrimEndAllUnderscores(t, n - 1);
    }
  }

  /** The token is non-empty, fits the buffer, holds only [A-Za-z0-9._-],
      never ends in '_', and is "x" when the input has nothing but '_'
      and characters that are not kept. */
  lemma SanitizedTokenShape(s: string, cap: nat)
    requires cap >= 1
    ensures var t := SanitizedToken(s, cap);
      1 <= |t| <= cap && t[|t| - 1] != '_' &&
      (forall k :: 0 <= k < |t| ==> KeepChar(t[k]))
    ensures (forall k :: 0 <= k < |s| ==> !KeepChar(s[k]) || s[k] == '_') ==> SanitizedToken(s, cap) == "x"
  {
    var q := Squash(s, 0, false);
    SquashKeeps(s, 0, false);
    var c := Cut(q, cap);
    var k := TrimEnd(c, |c|, '_');
    if k > 0 {
      assert forall i :: 0 <= i < k ==> c[..k][i] == q[i];
    }
    if forall i :: 0 <= i < |s| ==> !KeepChar(s[i]) || s[i] == '_' {
      SquashOnlyUnderscores(s, 0, false);
      TrimEndAllUnderscores(c, |c|);
    }
  }

  /** The copying loop of sanitize_filename_token: out[..b] is the squashed
      input cut to cap characters; nothing from out[b] on is written. */
  method SquashInto(input: string, out: array<char>, cap: int) returns (b: int)
    requires NoNul(input) && 1 <= cap < out.Length
    modifies out
    ensures 0 <= b <= cap && out[..b] == Cut(Squash(input, 0, false), cap)
    ensures forall j :: b <= j < out.Length ==> out[j] == old(out[j])
  {
    ghost var q := Squash(input, 0, false);
    var a, und := 0, false;
    b := 0;
    while a < |input| && b < cap
      invariant 0 <= a <= |input| && 0 <= b <= cap && b <= |q|
      invariant forall k :: 0 <= k < b ==> out[k] == q[k]
      invariant Squash(input, a, und) == q[b..]
      invariant forall j :: b <= j < out.Length ==> out[j] == old(out[j])
    {
      var c := input[a];
      if KeepChar(c) {
        assert q[b..] == [c] + Squash(input, a + 1, false);
        assert q[b + 1..] == q[b..][1..];
        out[b] := c;
        b := b + 1;
        und := false;
      } else {
        if !und && b < cap {
          assert q[b..] == ['_'] + Squash(input, a + 1, true);
          assert q[b + 1..] == q[b..][1..];
          out[b] := '_';
          b := b + 1;
          und := true;
        }
      }
      a := a + 1;
    }
    assert out[..b] == q[..b];
  }

  /** Drops the trailing '_' characters from the first n characters of
      out, returning how many remain. */
  method TrimUnderscores(out: array<char>, n: int) returns (b: int)
    requires 0 <= n <= out.Length
    ensures b == TrimEnd(out[..n], n, '_')
  {
    ghost var t := out[..n];
    b := n;
    while b > 0 && out[b - 1] == '_'
      invariant 0 <= b <= n
      invariant TrimEnd(t, b, '_') == TrimEnd(t, n, '_')
    {
      assert out[b - 1] == t[b - 1];
      b := b - 1;
    }
    assert b == 0 || out[b - 1] == t[b - 1];
  }

  /** sanitize_filename_token(in, out, out_sz). */
  method SanitizeFilenameToken(input: string, out: array<char>, outSz: int)
    requires NoNul(input) && outSz <= out.Length
    modifies out
    ensures outSz < 2 ==> out[..] == old(out[..])
    ensures outSz >= 2 ==>
              var t := SanitizedToken(input, outSz - 1);
              |t| < outSz && out[..|t|] == t && out[|t|] == '\0'
    ensures forall j :: (outSz < 0 || outSz <= j) && 0 <= j < out.Length ==> out[j] == old(out[j])
  {
    if outSz < 2 {
      return;
    }
    var b := SquashInto(input, out, outSz - 1);
    ghost var c := out[..b];
    b := TrimUnderscores(out, b);
    assert out[..b] == c[..b];
    if b == 0 {
      out[b] := 'x';
      b := b + 1;
    }
    out[b] := '\0';
    assert out[..b] == SanitizedToken(input, outSz - 1);
  }

  // ---------------------------------------------------------------------
  // double_to_token

  /** What each character of the "%.6g" text becomes in a token: digits
      and exponent letters stay, '.' becomes 'p', '-' becomes 'm', '_'
      stays and everything else ('+', letters of inf/nan) is dropped. */
  function TokenChar(c: char): string {
    if IsDigit(c) || c == 'e' || c == 'E' then [c]
    else if c == '.' then "p"
    else if c == '-' then "m"
    else if c == '_' then "_"
    else ""
  }

  /** The token text of g[a..]. */
  function TokenText(g: string, a: nat): string
    requires a <= |g|
    decreases |g| - a
  {
    if a == |g| then [] else TokenChar(g[a]) + TokenText(g, a + 1)
  }

  /** The token double_to_token leaves in a buffer of cap + 1 chars, given
      the "%.6g" rendering g of the value. */
  function DoubleToken(g: string, cap: nat): string {
    var c := Cut(TokenText(g, 0), cap);
    if c == [] then "0" else c
  }

  /** The characters "%.6g" writes for a finite double. */
  predicate GChar(c: char) {
    IsDigit(c) || c == 'e' || c == '.' || c == '-' || c == '+'
  }

  /** Reading a token back: 'p' is '.', 'm' is '-'. */
  function UntokenChar(c: char): char {
    if c == 'p' then '.' else if c == 'm' then '-' else c
  }

  /** The "%.6g" text without its '+' signs. */
  function DropPlus(g: string, a: nat): string
    requires a <= |g|
    decreases |g| - a
  {
    if a == |g| then [] else (if g[a] == '+' then "" else [g[a]]) + DropPlus(g, a + 1)
  }

  /** A token of a finite value reads back as its "%.6g" text with the
      exponent's '+' removed: the token names the value unambiguously. */
  lemma {:induction false} TokenTextReadsBack(g: string, a: nat)
    requires a <= |g|
    requires forall k :: a <= k < |g| ==> GChar(g[k])
    ensures var t := TokenText(g, a);
      |t| == |DropPlus(g, a)| &&
      forall k :: 0 <= k < |t| ==> UntokenChar(t[k]) == DropPlus(g, a)[k]
    decreases |g| - a
  {
    if a < |g| {
      TokenTextReadsBack(g, a + 1);
      var t := TokenText(g, a);
      var head := TokenChar(g[a]);
      assert t == head + TokenText(g, a + 1);
      var d := DropPlus(g, a);
      assert d == (if g[a] == '+' then "" else [g[a]]) + DropPlus(g, a + 1);
      forall k | 0 <= k < |t|
        ensures UntokenChar(t[k]) == d[k]
      {
        if k >= |head| {
          assert t[k] == TokenText(g, a + 1)[k - |head|];
          assert d[k] == DropPlus(g, a + 1)[k - |head|];
        }
      }
    }
  }

  /** Two tokens of "%.6g" texts are equal only when the texts without
      their '+' signs are. */
  lemma DoubleTokenInjective(g1: string, g2: string)
    requires forall k :: 0 <= k < |g1| ==> GChar(g1[k])
    requires forall k :: 0 <= k < |g2| ==> GChar(g2[k])
    requires TokenText(g1, 0) == TokenText(g2, 0)
    ensures DropPlus(g1, 0) == DropPlus(g2, 0)
  {
    TokenTextReadsBack(g1, 0);
    TokenTextReadsBack(g2, 0);
    var d1, d2 := DropPlus(g1, 0), DropPlus(g2, 0);
    assert forall k :: 0 <= k < |d1| ==> d1[k] == d2[k];
  }

  /** 1.5e+06 becomes "1p5e06" and -0.25 becomes "m0p25". */
  lemma DoubleTokenExamples()
    ensures DoubleToken("1.5e+06", 63) == "1p5e06"
    ensures DoubleToken("-0.25", 63) == "m0p25"
  {
    assert TokenText("1.5e+06", 0) == "1p5e06";
    assert TokenText("-0.25", 0) == "m0p25";
  }

  /** One step of the copying loop of double_to_token. */
  lemma TokenAdvance(g: string, a: nat, t: string, b: nat)
    requires a < |g| && b <= |t| && TokenText(g, a) == t[b..]
    ensures var e := TokenChar(g[a]);
      if |e| == 1 then b < |t| && t[b] == e[0] && TokenText(g, a + 1) == t[b + 1..]
      else e == [] && TokenText(g, a + 1) == t[b..]
  {
    var e := TokenChar(g[a]);
    assert t[b..] == e + TokenText(g, a + 1);
    if |e| == 1 {
      assert t[b + 1..] == t[b..][1..];
    }
  }

  /** One character of double_to_token's copying loop: its token text,
      if any, written at out[b]. */
  method PutTokenChar(out: array<char>, b: int, c: char) returns (b': int)
    requires 0 <= b < out.Length
    modifies out
    ensures b' == b + |TokenChar(c)|
    ensures |TokenChar(c)| == 1 ==> out[b] == TokenChar(c)[0]
    ensures forall j :: 0 <= j < out.Length && j != b ==> out[j] == old(out[j])
    ensures b' == b ==> out[b] == old(out[b])
  {
    b' := b;
    if IsDigit(c) || c == 'e' || c == 'E' {
      out[b] := c;
      b' := b + 1;
    } else if c == '.' {
      out[b] := 'p';
      b' := b + 1;
    } else if c == '-' {
      out[b] := 'm';
      b' := b + 1;
    } else if c == '+' {
    } else if c == '_' {
      out[b] := '_';
      b' := b + 1;
    }
  }

  /** The copying loop of double_to_token: out[..b] is the token text of g
      cut to cap characters; nothing from out[b] on is written. */
  method TokenInto(g: string, out: array<char>, cap: int) returns (b: int)
    requires NoNul(g) && 1 <= cap < out.Length
    modifies out
    ensures 0 <= b <= cap && out[..b] == Cut(TokenText(g, 0), cap)
    ensures forall j :: b <= j < out.Length ==> out[j] == old(out[j])
  {
    ghost var t := TokenText(g, 0);
    var a := 0;
    b := 0;
    while a < |g| && b < cap
      invariant 0 <= a <= |g| && 0 <= b <= cap && b <= |t|
      invariant forall k :: 0 <= k < b ==> out[k] == t[k]
      invariant TokenText(g, a) == t[b..]
      invariant forall j :: b <= j < out.Length ==> out[j] == old(out[j])
    {
      TokenAdvance(g, a, t, b);
      ghost var b0 := b;
      b := PutTokenChar(out, b, g[a]);
      assert b == b0 || (b == b0 + 1 && out[b0] == t[b0]);
      a := a + 1;
    }
    CutAtStop(t, b, cap, a == |g|);
    assert out[..b] == t[..b];
  }

  /** The copying loop stops with the whole text copied or the room used up. */
  lemma CutAtStop(t: string, b: nat, cap: nat, done: bool)
    requires b <= cap && b <= |t| && (b < cap ==> done) && (done ==> t[b..] == [])
    ensures Cut(t, cap) == t[..b]
  {
    if b < cap {
      assert |t[b..]| == 0;
    }
  }

  /** double_to_token(val, out, out_sz), with g the "%.6g" text snprintf
      leaves in its 64-byte buffer. */
  method DoubleToToken(g: string, out: array<char>, outSz: int)
    requires NoNul(g) && |g| <= 63 && outSz <= out.Length
    modifies out
    ensures outSz < 2 ==> out[..] == old(out[..])
    ensures outSz >= 2 ==>
              var t := DoubleToken(g, outSz - 1);
              |t| < outSz && out[..|t|] == t && out[|t|] == '\0'
    ensures forall j :: (outSz < 0 || outSz <= j) && 0 <= j < out.Length ==> out[j] == old(out[j])
  {
    if outSz < 2 {
      return;
    }
    var b := TokenInto(g, out, outSz - 1);
    if b == 0 {
      out[b] := '0';
      b := b + 1;
    }
    out[b] := '\0';
    assert out[..b] == DoubleToken(g, outSz - 1);
  }

  // ---------------------------------------------------------------------
  // str_ieq

  /** Equal up to ASCII case. */
  predicate IEq(a: string, b: string) {
    |a| == |b| && forall i :: 0 <= i < |a| ==> ToLower(a[i]) == ToLower(b[i])
  }

  /** str_ieq(a, b): 1 exactly when the strings are equal ignoring case. */
  method StrIeq(a: string, b: string) returns (r: bool)
    requires NoNul(a) && NoNul(b)
    ensures r <==> IEq(a, b)
  {
    var i := 0;
    while i < |a| && i < |b|
      invariant 0 <= i <= |a| && i <= |b|
      invariant forall k :: 0 <= k < i ==> ToLower(a[k]) == ToLower(b[k])
    {
      if ToLower(a[i]) != ToLower(b[i]) {
        return false;
      }
      i := i + 1;
    }
    return i == |a| && i == |b|;
  }

  // ---------------------------------------------------------------------
  // plot_cmd_append, plot_cmd_append_quoted

  /** strlen(a) of a buffer that holds a NUL. */
  method StrLen(a: array<char>) returns (n: int)
    requires CLen(a[..], 0) < a.Length
    ensures n == CLen(a[..], 0)
  {
    CLenNoNul(a[..], 0);
    n := 0;
    while a[n] != '\0'
      invariant 0 <= n <= CLen(a[..], 0)
      decreases a.Length - n
    {
      n := n + 1;
    }
  }

  /** plot_cmd_append(cmd, cmd_sz, txt): appends txt when it fits with its
      NUL in cmd_sz bytes, and otherwise leaves cmd as it was. */
  method PlotCmdAppend(cmd: array<char>, cmdSz: int, txt: string) returns (ok: bool)
    requires cmdSz <= cmd.Length && NoNul(txt) && CLen(cmd[..], 0) < cmdSz
    modifies cmd
    ensures ok <==> CLen(old(cmd[..]), 0) + |txt| < cmdSz
    ensures ok ==> CStr(cmd[..]) == CStr(old(cmd[..])) + txt
    ensures !ok ==> cmd[..] == old(cmd[..])
    ensures CLen(cmd[..], 0) < cmdSz
    ensures forall k :: 0 <= k < cmd.Length && (k < CLen(old(cmd[..]), 0) || k > CLen(old(cmd[..]), 0) + |txt|) ==>
              cmd[k] == old(cmd[k])
  {
    ghost var before := cmd[..];
    CLenNoNul(before, 0);
    var len := StrLen(cmd);
    var add := |txt|;
    if len + add >= cmdSz {
      return false;
    }
    var i := 0;
    while i < add
      invariant 0 <= i <= add
      invariant forall k :: 0 <= k < i ==> cmd[len + k] == txt[k]
      invariant forall k :: 0 <= k < cmd.Length && (k < len || k >= len + i) ==> cmd[k] == before[k]
    {
      cmd[len + i] := txt[i];
      i := i + 1;
    }
    cmd[len + add] := '\0';
    assert forall k :: 0 <= k < len ==> before[k] != '\0';
    assert forall k :: 0 <= k < len ==> cmd[..][k] == before[k];
    assert forall k :: len <= k < len + add ==> cmd[..][k] == txt[k - len];
    CLenIs(cmd[..], 0, len + add);
    assert CStr(cmd[..]) == before[..len] + txt;
    return true;
  }

  /** Each character of x, with a backslash before those in sp. */
  function EscapeWith(x: string, sp: set<char>): string {
    if x == [] then [] else EscapeWith(x[..|x| - 1], sp) + EscChar(x[|x| - 1], sp)
  }

  function EscChar(c: char, sp: set<char>): string {
    if c in sp then ['\\', c] else [c]
  }

  lemma {:induction false} EscapeWithConcat(x: string, y: string, sp: set<char>)
    ensures EscapeWith(x + y, sp) == EscapeWith(x, sp) + EscapeWith(y, sp)
    decreases |y|
  {
    if y == [] {
      assert x + y == x;
    } else {
      var y0 := y[..|y| - 1];
      assert (x + y)[..|x + y| - 1] == x + y0;
      assert (x + y)[|x + y| - 1] == y[|y| - 1];
      EscapeWithConcat(x, y0, sp);
    }
  }

  /** The one character plot_cmd_append_quoted escapes. */
  const QuoteOnly: set<char> := {'"'}

  /** The text plot_cmd_append_quoted adds: space, '"', the argument with
      '"' escaped, '"'. */
  function Quoted(arg: string): string {
    " \"" + EscapeWith(arg, QuoteOnly) + "\""
  }

  /** The escaped form of arg[..i + 1] extends that of arg[..i] by the
      escaped arg[i], and is a leading part of the escaped arg. */
  lemma EscapeStep(arg: string, i: nat, sp: set<char>)
    requires i < |arg|
    ensures EscapeWith(arg[..i + 1], sp) == EscapeWith(arg[..i], sp) + EscChar(arg[i], sp)
    ensures EscapeWith(arg[..i + 1], sp) <= EscapeWith(arg, sp)
  {
    assert arg[..i + 1][..i] == arg[..i];
    EscapeWithConcat(arg[..i + 1], arg[i + 1..], sp);
    assert arg[..i + 1] + arg[i + 1..] == arg;
  }

  /** The loop body of plot_cmd_append_quoted: a '"' is appended as \",
      any other character as itself. */
  method AppendEscaped(cmd: array<char>, cmdSz: int, ch: char) returns (ok: bool)
    requires cmdSz <= cmd.Length && ch != '\0' && CLen(cmd[..], 0) < cmdSz
    modifies cmd
    ensures ok <==> CLen(old(cmd[..]), 0) + |EscChar(ch, QuoteOnly)| < cmdSz
    ensures ok ==> CStr(cmd[..]) == CStr(old(cmd[..])) + EscChar(ch, QuoteOnly)
    ensures !ok ==> cmd[..] == old(cmd[..])
    ensures CLen(cmd[..], 0) < cmdSz
  {
    if ch == '"' {
      ok := PlotCmdAppend(cmd, cmdSz, "\\\"");
    } else {
      ok := PlotCmdAppend(cmd, cmdSz, [ch]);
    }
  }

  /** The loop of plot_cmd_append_quoted: appends the argument with '"'
      escaped, stopping at the first piece that does not fit. */
  method AppendEscapedArg(cmd: array<char>, cmdSz: int, arg: string) returns (ok: bool)
    requires cmdSz <= cmd.Length && NoNul(arg) && CLen(cmd[..], 0) < cmdSz
    modifies cmd
    ensures ok <==> CLen(old(cmd[..]), 0) + |EscapeWith(arg, QuoteOnly)| < cmdSz
    ensures ok ==> CStr(cmd[..]) == CStr(old(cmd[..])) + EscapeWith(arg, QuoteOnly)
    ensures CStr(old(cmd[..])) <= CStr(cmd[..]) <= CStr(old(cmd[..])) + EscapeWith(arg, QuoteOnly)
    ensures CLen(cmd[..], 0) < cmdSz
  {
    ghost var s0 := CStr(cmd[..]);
    assert arg[..0] == [];
    var i := 0;
    while i < |arg|
      invariant 0 <= i <= |arg| && CLen(cmd[..], 0) < cmdSz
      invariant CStr(cmd[..]) == s0 + EscapeWith(arg[..i], QuoteOnly)
    {
      EscapeStep(arg, i, QuoteOnly);
      ok := AppendEscaped(cmd, cmdSz, arg[i]);
      if !ok {
        return;
      }
      i := i + 1;
    }
    assert arg[..i] == arg;
    ok := true;
  }

  /** plot_cmd_append_quoted(cmd, cmd_sz, arg): appends Quoted(arg) when it
      fits; otherwise fails, having appended some leading part of it. */
  method PlotCmdAppendQuoted(cmd: array<char>, cmdSz: int, arg: string) returns (ok: bool)
    requires cmdSz <= cmd.Length && NoNul(arg) && CLen(cmd[..], 0) < cmdSz
    modifies cmd
    ensures ok <==> |CStr(old(cmd[..]))| + |Quoted(arg)| < cmdSz
    ensures ok ==> CStr(cmd[..]) == CStr(old(cmd[..])) + Quoted(arg)
    ensures CStr(old(cmd[..])) <= CStr(cmd[..]) <= CStr(old(cmd[..])) + Quoted(arg)
  {
    ghost var s0 := CStr(cmd[..]);
    ghost var e := EscapeWith(arg, QuoteOnly);
    assert Quoted(arg) == " \"" + e + "\"";
    ok := PlotCmdAppend(cmd, cmdSz, " \"");
    if !ok {
      PrefixBetween(s0, "", s0, Quoted(arg));
      return;
    }
    ok := AppendEscapedArg(cmd, cmdSz, arg);
    if !ok {
      PrefixBetween(s0, " \"", CStr(cmd[..]), e + "\"");
      return;
    }
    ok := PlotCmdAppend(cmd, cmdSz, "\"");
    QuotedAfter(s0, " \"", e, "\"");
  }

  /** Appending a, e and b one after the other appends a + e + b, passing
      through texts between s0 and the whole. */
  lemma QuotedAfter(s0: string, a: string, e: string, b: string)
    ensures s0 + a + e + b == s0 + (a + e + b) && |s0 + a + e + b| == |s0| + |a + e + b|
    ensures s0 <= s0 + a + e <= s0 + (a + e + b)
  {
    assert s0 + a + e + b == s0 + (a + e + b);
    assert (s0 + a + e + b)[..|s0 + a + e|] == s0 + a + e;
  }

  /** A text that extends s0 + a and is a leading part of s0 + a + e lies
      between s0 and s0 + a + e. */
  lemma PrefixBetween(s0: string, a: string, c: string, e: string)
    requires s0 + a <= c <= s0 + a + e
    ensures s0 <= c <= s0 + (a + e)
  {
    assert (s0 + a + e)[..|s0|] == s0;
    assert s0 + a + e == s0 + (a + e);
  }

  // ---------------------------------------------------------------------
  // How sh reads a double-quoted word

  /** Characters a backslash escapes inside sh double quotes. */
  predicate DqSpecial(c: char) {
    c == '$' || c == '`' || c == '"' || c == '\\'
  }

  function Prepend(lit: string, n: nat, r: Option<(string, nat)>): Option<(string, nat)> {
    match r
    case None => None
    case Some(v) => Some((lit + v.0, v.1 + n))
  }

  /** sh reading the text after an opening '"': the literal word and the
      characters used up to and including the closing '"'. None when the
      quote is not closed, or an unescaped '$' or '`' would expand. */
  function DqRead(s: string): Option<(string, nat)>
    decreases |s|
  {
    if |s| == 0 then None
    else if s[0] == '"' then Some(("", 1))
    else if s[0] == '$' || s[0] == '`' then None
    else if s[0] == '\\' && |s| >= 2 && DqSpecial(s[1]) then Prepend([s[1]], 2, DqRead(s[2..]))
    else if s[0] == '\\' && |s| >= 2 && s[1] == '\n' then Prepend("", 2, DqRead(s[2..]))
    else Prepend([s[0]], 1, DqRead(s[1..]))
  }

  /** As written: an argument ending in a backslash escapes the closing
      quote, so sh does not read the argument back, whatever follows. */
  lemma QuotedTrailingBackslash(rest: string)
    ensures var r := DqRead(Quoted("a\\")[2..] + rest);
      r.None? || r.value.0 != "a\\"
  {
    QuotedBackslashText();
    var s1 := EscChar('"', ShellSpecials) + rest;
    assert Quoted("a\\")[2..] + rest == EscChar('a', ShellSpecials) + s1;
    DqReadEscChar('a', s1);
    DqReadEscChar('"', rest);
    var r := DqRead(Quoted("a\\")[2..] + rest);
    assert r == Prepend("a", 1, Prepend("\"", 2, DqRead(rest)));
    if r.Some? {
      assert r.value.0[1] == '"';
    }
  }

  /** The text after the opening '"' of the as-written quoting of a\ is
      a\", which reads as 'a' followed by an escaped '"'. */
  lemma QuotedBackslashText()
    ensures Quoted("a\\")[2..] == EscChar('a', ShellSpecials) + EscChar('"', ShellSpecials)
  {
    assert EscapeWith("a\\", QuoteOnly) == "a\\" by {
      EscapeHead('a', "\\", QuoteOnly);
      EscapeHead('\\', "", QuoteOnly);
      assert ['a'] + "\\" == "a\\" && ['\\'] + "" == "\\";
    }
    assert Quoted("a\\") == " \"" + "a\\" + "\"";
  }

  /** The characters sh treats specially inside double quotes. */
  const ShellSpecials: set<char> := {'"', '\\', '$', '`'}

  /** Corrected: every character special inside sh double quotes escaped. */
  function ShellQuoted(arg: string): string {
    " \"" + EscapeWith(arg, ShellSpecials) + "\""
  }

  lemma EscapeHead(c: char, x: string, sp: set<char>)
    ensures EscapeWith([c] + x, sp) == EscChar(c, sp) + EscapeWith(x, sp)
  {
    EscapeWithConcat([c], x, sp);
    assert [c][..0] == [];
  }

  /** sh reads one character escaped for it back as that character. */
  lemma DqReadEscChar(c: char, t: string)
    ensures DqRead(EscChar(c, ShellSpecials) + t) ==
            Prepend([c], |EscChar(c, ShellSpecials)|, DqRead(t))
  {
    var s := EscChar(c, ShellSpecials) + t;
    if c in ShellSpecials {
      assert s[0] == '\\' && s[1] == c && s[2..] == t;
    } else {
      assert s[0] == c && s[1..] == t;
    }
  }

  /** sh reads the corrected quoting back as the argument itself, and stops
      right after the closing quote whatever follows. */
  lemma {:induction false} ShellQuotedReadsBack(x: string, rest: string)
    ensures DqRead(EscapeWith(x, ShellSpecials) + "\"" + rest) ==
            Some((x, |EscapeWith(x, ShellSpecials)| + 1))
    decreases |x|
  {
    if x == [] {
      assert (EscapeWith(x, ShellSpecials) + "\"" + rest)[0] == '"';
    } else {
      var c, x1 := x[0], x[1..];
      var h, e1 := EscChar(c, ShellSpecials), EscapeWith(x1, ShellSpecials);
      assert EscapeWith(x, ShellSpecials) + "\"" + rest == h + (e1 + "\"" + rest) by {
        assert [c] + x1 == x;
        EscapeHead(c, x1, ShellSpecials);
      }
      ShellQuotedReadsBack(x1, rest);
      DqReadEscChar(c, e1 + "\"" + rest);
      assert [c] + x1 == x;
    }
  }

  /** The corrected quoting of any argument is read back by sh as that
      argument. */
  lemma ShellQuotedArgument(arg: string, rest: string)
    ensures ShellQuoted(arg)[..2] == " \""
    ensures DqRead(ShellQuoted(arg)[2..] + rest) == Some((arg, |ShellQuoted(arg)| - 2))
  {
    var e := EscapeWith(arg, ShellSpecials);
    assert ShellQuoted(arg)[2..] + rest == e + "\"" + rest;
    ShellQuotedReadsBack(arg, rest);
  }

  // ---------------------------------------------------------------------
  // is_out_ext

  /** strrchr: the last index of c in s[..n], or -1. */
  function LastIndex(s: string, c: char, n: nat): (i: int)
    requires n <= |s|
    ensures -1 <= i < n && (i >= 0 ==> s[i] == c)
    ensures forall k :: i < k < n ==> s[k] != c
    decreases n
  {
    if n == 0 then -1 else if s[n - 1] == c then n - 1 else LastIndex(s, c, n - 1)
  }

  /** The extension test: there is a '.' after the last '/' or '\', it is
      not the last character, and what follows it equals ext ignoring case. */
  predicate HasOutExt(path: string, ext: string) {
    var p := LastIndex(path, '.', |path|);
    var slash := LastIndex(path, '/', |path|);
    var bslash := LastIndex(path, '\\', |path|);
    var sep := if slash > bslash then slash else bslash;
    p >= 0 && !(sep >= 0 && p < sep) && p + 1 < |path| && IEq(path[p + 1..], ext)
  }

  /** is_out_ext(path, ext). */
  method IsOutExt(path: string, ext: string) returns (r: bool)
    requires NoNul(path) && NoNul(ext)
    ensures r <==> HasOutExt(path, ext)
  {
    var p := LastIndex(path, '.', |path|);
    var slash := LastIndex(path, '/', |path|);
    var bslash := LastIndex(path, '\\', |path|);
    var sep := if slash > bslash then slash else bslash;
    if p < 0 || (sep >= 0 && p < sep) || p + 1 >= |path| {
      return false;
    }
    var q := p + 1;
    ghost var tail := path[q..];
    var a := 0;
    while a < |ext| && q + a < |path|
      invariant 0 <= a <= |ext| && q + a <= |path|
      invariant forall k :: 0 <= k < a ==> ToLower(tail[k]) == ToLower(ext[k])
    {
      if ToLower(path[q + a]) != ToLower(ext[a]) {
        assert tail[a] == path[q + a];
        return false;
      }
      a := a + 1;
    }
    return a == |ext| && q + a == |path|;
  }

  /** A name built as stem + "." + ext, where ext holds no '.', '/' or '\',
      has the extension ext in any letter case. */
  lemma HasOutExtOfName(stem: string, ext: string, ext2: string)
    requires |ext| > 0
    requires forall k :: 0 <= k < |ext| ==> ext[k] != '.' && ext[k] != '/' && ext[k] != '\\'
    requires IEq(ext, ext2)
    ensures HasOutExt(stem + "." + ext, ext2)
  {
    var path := stem + "." + ext;
    var n := |stem|;
    assert path[n] == '.';
    assert forall k :: n < k < |path| ==> path[k] == ext[k - n - 1];
    assert LastIndex(path, '.', |path|) == n;
    assert path[n + 1..] == ext;
  }

  /** A '.' inside a directory name is not an extension: with a '/' or '\'
      after the last '.', is_out_ext fails for every ext. */
  lemma NoOutExtInDirectory(path: string, ext: string, j: nat)
    requires j < |path| && (path[j] == '/' || path[j] == '\\')
    requires forall k :: j < k < |path| ==> path[k] != '.'
    ensures !HasOutExt(path, ext)
  {
  }

  /** "graph.PNG" has the extension "png". */
  lemma OutExtIgnoresCase()
    ensures HasOutExt("graph.PNG", "png")
  {
    assert forall i :: 0 <= i < |"PNG"| ==> "PNG"[i] != '.' && "PNG"[i] != '/' && "PNG"[i] != '\\';
    HasOutExtOfName("graph", "PNG", "png");
    assert "graph" + "." + "PNG" == "graph.PNG";
  }
}
