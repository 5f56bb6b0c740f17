/** The `-c` amplitude-adjustment table: up to 16 (frequency, factor)
    points, kept sorted by frequency, and the piecewise-linear lookup that
    turns a tone frequency into an amplitude factor. */
module AmpAdj {
  import opened CText
  import opened Wrappers

  /** One `<freq>=<amp>` point of the table. */
  datatype AmpAdj = AmpAdj(freq: real, adj: real)

  /** The table holds at most this many points. */
  const MaxAmpAdj: nat := 16

  const TooManyPoints := "Too many -c option frequencies; maxmimum is 16"

  const BadSpecHead := "Bad -c option spec; expecting <freq>=<amp>[,<freq>=<amp>]...:\n  "

  function BadSpec(spec: string): string {
    BadSpecHead + spec
  }

  predicate IsSep(c: char) {
    IsSpace(c) || c == ','
  }

  /** Index of the first character at or after p that is neither white
      space nor ','. */
  function SkipSeps(s: string, p: nat): (j: nat)
    requires p <= |s|
    ensures p <= j <= |s| && (j == |s| || !IsSep(s[j]))
    decreases |s| - p
  {
    if p < |s| && IsSep(s[p]) then SkipSeps(s, p + 1) else p
  }

  /** One `<freq>=<amp>` item of setupOptC at index j: the point and the
      index after it, or the bad-spec error. */
  function OptCItem(s: string, j: nat): (res: Result<(AmpAdj, nat)>)
    requires j <= |s|
    ensures res.Ok? ==> j < res.value.1 <= |s|
  {
    AfterFreq(s, j, StrToD(s, j))
  }

  /** The rest of an item once strtod() has scanned its frequency. */
  function AfterFreq(s: string, j: nat, f: RealScan): (res: Result<(AmpAdj, nat)>)
    requires f.Real? ==> j < f.next <= |s|
    ensures res.Ok? ==> j < res.value.1 <= |s|
  {
    match f
    case NoReal => Err(BadSpec(s))
    case Real(fv, q) =>
      if q == |s| || s[q] != '=' then Err(BadSpec(s))
      else AfterAdj(s, q, fv, StrToD(s, q + 1))
  }

  /** The end of an item once strtod() has scanned its factor. */
  function AfterAdj(s: string, q: nat, fv: real, a: RealScan): (res: Result<(AmpAdj, nat)>)
    requires a.Real? ==> q < a.next <= |s|
    ensures res.Ok? ==> q < res.value.1 <= |s|
  {
    match a
    case NoReal => Err(BadSpec(s))
    case Real(av, p2) => Ok((AmpAdj(fv, av), p2))
  }

  /** The parsing loop of setupOptC from index p, appending to the points
      `acc` already in the table. */
  function OptCFrom(s: string, p: nat, acc: seq<AmpAdj>): (res: Result<seq<AmpAdj>>)
    requires p <= |s| && |acc| <= MaxAmpAdj
    ensures res.Ok? ==> |res.value| <= MaxAmpAdj && acc <= res.value
    decreases |s| - p
  {
    var j := SkipSeps(s, p);
    if j == |s| then Ok(acc)
    else if |acc| >= MaxAmpAdj then Err(TooManyPoints)
    else
      match OptCItem(s, j)
      case Err(m) => Err(m)
      case Ok((pt, p2)) =>
        OptCFrom(s, p2, acc + [pt])
  }

  /** The points setupOptC appends to the table `acc` for `spec`, in the
      order written. */
  function ParseOptC(spec: string, acc: seq<AmpAdj>): (res: Result<seq<AmpAdj>>)
    requires |acc| <= MaxAmpAdj
    ensures res.Ok? ==> |res.value| <= MaxAmpAdj && acc <= res.value
  {
    OptCFrom(spec, 0, acc)
  }

  lemma OptCSkipSep(s: string, p: nat, acc: seq<AmpAdj>)
    requires p < |s| && IsSep(s[p]) && |acc| <= MaxAmpAdj
    ensures OptCFrom(s, p, acc) == OptCFrom(s, p + 1, acc)
  {
    assert SkipSeps(s, p) == SkipSeps(s, p + 1);
  }

  function PointsOf(items: seq<(nat, nat)>): (pts: seq<AmpAdj>)
    ensures |pts| == |items|
  {
    if |items| == 0 then []
    else [AmpAdj(items[0].0 as real, items[0].1 as real)] + PointsOf(items[1..])
  }

  /** An item whose two strtod() scans succeed around a '='. */
  lemma OptCItemOfScans(s: string, p: nat, q: nat, p2: nat, fv: real, av: real)
    requires p < q < p2 <= |s| && s[q] == '='
    requires StrToD(s, p) == Real(fv, q) && StrToD(s, q + 1) == Real(av, p2)
    ensures OptCItem(s, p) == Ok((AmpAdj(fv, av), p2))
  {
  }

  /** One item followed by ',' moves the loop past the ','. */
  lemma OptCFromStep(s: string, p: nat, acc: seq<AmpAdj>, pt: AmpAdj, p2: nat)
    requires p < p2 < |s| && !IsSep(s[p]) && s[p2] == ',' && |acc| < MaxAmpAdj
    requires OptCItem(s, p) == Ok((pt, p2))
    ensures OptCFrom(s, p, acc) == OptCFrom(s, p2 + 1, acc + [pt])
  {
    OptCFromItem(s, p, acc);
    OptCSkipSep(s, p2, acc + [pt]);
  }

  /** s[p..] holds `<f>=<a>,` for each item, as digit runs. */
  predicate DigitItemsAt(s: string, p: nat, items: seq<(nat, nat)>)
    requires p <= |s|
    decreases |items|
  {
    if |items| == 0 then p == |s|
    else
      var q := DigitsEnd(s, p);
      p < q < |s| && s[q] == '=' && DigitsValue(s, p, q) == items[0].0 &&
      var p2 := DigitsEnd(s, q + 1);
      q + 1 < p2 < |s| && s[p2] == ',' && DigitsValue(s, q + 1, p2) == items[0].1 &&
      DigitItemsAt(s, p2 + 1, items[1..])
  }

  /** An item of two digit runs around '=' is read as the point they spell. */
  lemma OptCItemOfDigits(s: string, p: nat, q: nat, p2: nat, f: nat, a: nat)
    requires p < q && q + 1 < p2 < |s| && s[q] == '=' && s[p2] == ','
    requires DigitsEnd(s, p) == q && DigitsValue(s, p, q) == f
    requires DigitsEnd(s, q + 1) == p2 && DigitsValue(s, q + 1, p2) == a
    ensures OptCItem(s, p) == Ok((AmpAdj(f as real, a as real), p2))
  {
    StrToDOfDigits(s, p, q, f);
    StrToDOfDigits(s, q + 1, p2, a);
    OptCItemOfScans(s, p, q, p2, f as real, a as real);
  }

  /** The first of the digit-run items is read as its point, up to the ','. */
  lemma OptCItemOfDigitItems(s: string, p: nat, items: seq<(nat, nat)>) returns (p2: nat)
    requires p <= |s| && DigitItemsAt(s, p, items) && |items| > 0
    ensures p < p2 < |s| && !IsSep(s[p]) && s[p2] == ',' && DigitItemsAt(s, p2 + 1, items[1..])
    ensures OptCItem(s, p) == Ok((AmpAdj(items[0].0 as real, items[0].1 as real), p2))
  {
    var q;
    q, p2 := DigitItemsHead(s, p, items);
    OptCItemOfDigits(s, p, q, p2, items[0].0, items[0].1);
  }

  /** The first item of digit runs: its '=' at q and its ',' at p2. */
  lemma DigitItemsHead(s: string, p: nat, items: seq<(nat, nat)>) returns (q: nat, p2: nat)
    requires p <= |s| && DigitItemsAt(s, p, items) && |items| > 0
    ensures q == DigitsEnd(s, p) && p < q < |s| && s[q] == '=' && DigitsValue(s, p, q) == items[0].0
    ensures p2 == DigitsEnd(s, q + 1) && q + 1 < p2 < |s| && s[p2] == ',' && DigitsValue(s, q + 1, p2) == items[0].1
    ensures DigitItemsAt(s, p2 + 1, items[1..]) && IsDigit(s[p]) && !IsSep(s[p])
  {
    q := DigitsEnd(s, p);
    p2 := DigitsEnd(s, q + 1);
  }

  lemma OptCAtEnd(s: string, acc: seq<AmpAdj>)
    requires |acc| <= MaxAmpAdj
    ensures OptCFrom(s, |s|, acc) == Ok(acc)
  {
  }

  lemma AppendPoint(acc: seq<AmpAdj>, items: seq<(nat, nat)>)
    requires |items| > 0
    ensures acc + [AmpAdj(items[0].0 as real, items[0].1 as real)] + PointsOf(items[1..]) == acc + PointsOf(items)
  {
  }

  /** The loop's result past the first item's ',' is its result at p. */
  lemma OptCConsItems(s: string, p: nat, acc: seq<AmpAdj>, items: seq<(nat, nat)>, p2: nat)
    requires p < p2 < |s| && !IsSep(s[p]) && s[p2] == ',' && |acc| < MaxAmpAdj && |items| > 0
    requires OptCItem(s, p) == Ok((AmpAdj(items[0].0 as real, items[0].1 as real), p2))
    requires OptCFrom(s, p2 + 1, acc + [AmpAdj(items[0].0 as real, items[0].1 as real)])
      == Ok(acc + [AmpAdj(items[0].0 as real, items[0].1 as real)] + PointsOf(items[1..]))
    ensures OptCFrom(s, p, acc) == Ok(acc + PointsOf(items))
  {
    OptCFromStep(s, p, acc, AmpAdj(items[0].0 as real, items[0].1 as real), p2);
    AppendPoint(acc, items);
  }

  /** Items written as digit runs are read back point by point while the
      table has room for them. */
  lemma {:induction false} OptCOfDigitItems(s: string, p: nat, acc: seq<AmpAdj>, items: seq<(nat, nat)>)
    requires p <= |s| && DigitItemsAt(s, p, items) && |acc| + |items| <= MaxAmpAdj
    ensures OptCFrom(s, p, acc) == Ok(acc + PointsOf(items))
    decreases |items|
  {
    if |items| == 0 {
      OptCAtEnd(s, acc);
      assert acc + PointsOf(items) == acc;
    } else {
      var p2 := OptCItemOfDigitItems(s, p, items);
      var acc' := acc + [AmpAdj(items[0].0 as real, items[0].1 as real)];
      OptCOfDigitItems(s, p2 + 1, acc', items[1..]);
      OptCConsItems(s, p, acc, items, p2);
    }
  }

  /** Items written as digit runs are refused once the table would exceed
      16 points. */
  lemma {:induction false} OptCOfTooManyDigitItems(s: string, p: nat, acc: seq<AmpAdj>, items: seq<(nat, nat)>)
    requires p <= |s| && DigitItemsAt(s, p, items) && |acc| <= MaxAmpAdj < |acc| + |items|
    ensures OptCFrom(s, p, acc) == Err(TooManyPoints)
    decreases |items|
  {
    if |acc| == MaxAmpAdj {
      assert IsDigit(s[p]);
      OptCFromItem(s, p, acc);
    } else {
      var p2 := OptCItemOfDigitItems(s, p, items);
      var acc' := acc + [AmpAdj(items[0].0 as real, items[0].1 as real)];
      OptCOfTooManyDigitItems(s, p2 + 1, acc', items[1..]);
      OptCFromStep(s, p, acc, acc'[|acc|], p2);
    }
  }

  /** A spec written as `<freq>=<amp>,` items with whole-number values is
      read back as those points, and is refused once the table would
      exceed 16 points. */
  lemma OptCOfDigitSpec(spec: string, items: seq<(nat, nat)>, acc: seq<AmpAdj>)
    requires DigitItemsAt(spec, 0, items) && |acc| <= MaxAmpAdj
    ensures ParseOptC(spec, acc) ==
      if |acc| + |items| <= MaxAmpAdj then Ok(acc + PointsOf(items)) else Err(TooManyPoints)
  {
    if |acc| + |items| <= MaxAmpAdj {
      OptCOfDigitItems(spec, 0, acc, items);
    } else {
      OptCOfTooManyDigitItems(spec, 0, acc, items);
    }
  }

  predicate SortedByFreq(t: seq<AmpAdj>) {
    forall i, j :: 0 <= i < j < |t| ==> t[i].freq <= t[j].freq
  }

  /** The table as a whole: the ampadj[] array and its fill count opt_c. */
  class AmpAdjTable {
    const entries: array<AmpAdj>
    var count: nat

    predicate Valid()
      reads this
    {
      entries.Length == MaxAmpAdj && count <= MaxAmpAdj
    }

    function Points(): seq<AmpAdj>
      reads this, entries
      requires Valid()
    {
      entries[..count]
    }

    constructor ()
      ensures Valid() && fresh(entries) && count == 0
    {
      entries := new AmpAdj[MaxAmpAdj](_ => AmpAdj(0.0, 0.0));
      count := 0;
    }

    /** setupOptC: appends the points of `spec`, then sorts the whole table
        by frequency, swapping whole points. */
    method SetupOptC(spec: string) returns (err: Option<string>)
      requires Valid()
      modifies this, entries
      ensures Valid()
      ensures err.None? <==> ParseOptC(spec, old(Points())).Ok?
      ensures err.Some? ==> ParseOptC(spec, old(Points())) == Err(err.value)
      ensures err.None? ==> SortedByFreq(Points())
      ensures err.None? ==> multiset(Points()) == multiset(ParseOptC(spec, old(Points())).value)
    {
      ghost var walk := OptCFrom(spec, 0, Points());
      var p := 0;
      while true
        invariant Valid()
        invariant p <= |spec|
        invariant OptCFrom(spec, p, Points()) == walk
        decreases |spec| - p
      {
        while p < |spec| && IsSep(spec[p])
          invariant Valid() && p <= |spec|
          invariant OptCFrom(spec, p, Points()) == walk
          decreases |spec| - p
        {
          OptCSkipSep(spec, p, Points());
          p := p + 1;
        }
        if p == |spec| {
          break;
        }
        OptCFromItem(spec, p, Points());
        var p2, err1 := ParseItem(spec, p);
        if err1.Some? {
          return err1;
        }
        p := p2;
      }
      assert walk == Ok(Points());
      SortByFreq(entries, count);
      return None;
    }

    /** One pass of setupOptC's loop body once the separators are skipped:
        checks for room, reads `<freq>=<amp>` and stores it as point opt_c. */
    method ParseItem(spec: string, p: nat) returns (next: nat, err: Option<string>)
      requires Valid() && p < |spec|
      modifies this, entries
      ensures Valid()
      ensures old(count) >= MaxAmpAdj ==> err == Some(TooManyPoints)
      ensures old(count) < MaxAmpAdj && err.Some? ==> OptCItem(spec, p) == Err(err.value)
      ensures err.None? ==> old(count) < MaxAmpAdj && OptCItem(spec, p).Ok?
      ensures err.None? ==> next == OptCItem(spec, p).value.1
      ensures err.None? ==> Points() == old(Points()) + [OptCItem(spec, p).value.0]
    {
      if count >= MaxAmpAdj {
        return p, Some(TooManyPoints);
      }
      var f := StrToD(spec, p);
      if f.NoReal? {
        return p, Some(BadSpec(spec));
      }
      var q := f.next;
      if q == |spec| || spec[q] != '=' {
        return p, Some(BadSpec(spec));
      }
      var a := StrToD(spec, q + 1);
      if a.NoReal? {
        return p, Some(BadSpec(spec));
      }
      OptCItemOfScans(spec, p, q, a.next, f.value, a.value);
      Append(AmpAdj(f.value, a.value));
      return a.next, None;
    }

    /** ampadj[ampadj_cnt++] = point. */
    method Append(pt: AmpAdj)
      requires Valid() && count < MaxAmpAdj
      modifies this, entries
      ensures Valid() && Points() == old(Points()) + [pt]
    {
      entries[count] := pt;
      count := count + 1;
      assert entries[..count] == old(entries[..count]) + [pt];
    }
  }

  /** The loop body of setupOptC at a point that is not a separator. */
  lemma OptCFromItem(s: string, p: nat, acc: seq<AmpAdj>)
    requires p < |s| && !IsSep(s[p]) && |acc| <= MaxAmpAdj
    ensures OptCFrom(s, p, acc) ==
      if |acc| >= MaxAmpAdj then Err(TooManyPoints)
      else if OptCItem(s, p).Err? then Err(OptCItem(s, p).error)
      else OptCFrom(s, OptCItem(s, p).value.1, acc + [OptCItem(s, p).value.0])
  {
    assert SkipSeps(s, p) == p;
  }

  /** Exchanges points i and j of a[..n]. */
  method Swap(a: array<AmpAdj>, n: nat, i: nat, j: nat)
    requires i < j < n <= a.Length
    modifies a
    ensures a[i] == old(a[j]) && a[j] == old(a[i])
    ensures forall m :: 0 <= m < a.Length && m != i && m != j ==> a[m] == old(a[m])
    ensures multiset(a[..n]) == old(multiset(a[..n]))
    ensures a[n..] == old(a[n..])
  {
    a[i], a[j] := a[j], a[i];
    assert a[..n] == old(a[..n])[i := old(a[j])][j := old(a[i])];
  }

  /** One pass of the exchange sort: every later point with a lower
      frequency than a[i] is swapped into position i. */
  method PlaceLowest(a: array<AmpAdj>, n: nat, i: nat)
    requires i < n <= a.Length
    requires forall x, y :: 0 <= x < i <= y < n ==> a[x].freq <= a[y].freq
    modifies a
    ensures forall x, y :: 0 <= x < i <= y < n ==> a[x].freq <= a[y].freq
    ensures forall y :: i < y < n ==> a[i].freq <= a[y].freq
    ensures a[..i] == old(a[..i])
    ensures multiset(a[..n]) == old(multiset(a[..n]))
    ensures a[n..] == old(a[n..])
  {
    var j := i + 1;
    while j < n
      invariant i < j <= n
      invariant forall x, y :: 0 <= x < i <= y < n ==> a[x].freq <= a[y].freq
      invariant forall y :: i < y < j ==> a[i].freq <= a[y].freq
      invariant a[..i] == old(a[..i])
      invariant multiset(a[..n]) == old(multiset(a[..n]))
      invariant a[n..] == old(a[n..])
    {
      if a[i].freq > a[j].freq {
        Swap(a, n, i, j);
      }
      j := j + 1;
    }
  }

  /** The exchange sort at the end of setupOptC. */
  method SortByFreq(a: array<AmpAdj>, n: nat)
    requires n <= a.Length
    modifies a
    ensures SortedByFreq(a[..n])
    ensures multiset(a[..n]) == old(multiset(a[..n]))
    ensures a[n..] == old(a[n..])
  {
    var i := 0;
    while i < n
      invariant i <= n
      invariant forall x, y :: 0 <= x < y < i ==> a[x].freq <= a[y].freq
      invariant forall x, y :: 0 <= x < i <= y < n ==> a[x].freq <= a[y].freq
      invariant multiset(a[..n]) == old(multiset(a[..n]))
      invariant a[n..] == old(a[n..])
    {
      ghost var prefix := a[..i];
      PlaceLowest(a, n, i);
      assert forall x :: 0 <= x < i ==> a[x] == prefix[x];
      i := i + 1;
    }
  }

  /** Linear interpolation between two points of the table. */
  function Interp(p0: AmpAdj, p1: AmpAdj, freq: real): real
    requires p0.freq <= freq < p1.freq
  {
    p0.adj + (p1.adj - p0.adj) * (freq - p0.freq) / (p1.freq - p0.freq)
  }

  /** The first index b >= a with freq < tab[b].freq, or |tab|. */
  function FirstAbove(tab: seq<AmpAdj>, freq: real, a: nat): (b: nat)
    requires a <= |tab|
    ensures a <= b <= |tab|
    ensures forall k :: a <= k < b ==> tab[k].freq <= freq
    ensures b < |tab| ==> freq < tab[b].freq
    decreases |tab| - a
  {
    if a == |tab| || freq < tab[a].freq then a else FirstAbove(tab, freq, a + 1)
  }

  /** FirstAbove finds the index the search loop stops at. */
  lemma {:induction false} FirstAboveIs(tab: seq<AmpAdj>, freq: real, a: nat, b: nat)
    requires a <= b < |tab|
    requires forall k :: a <= k < b ==> tab[k].freq <= freq
    requires freq < tab[b].freq
    ensures FirstAbove(tab, freq, a) == b
    decreases b - a
  {
    if a < b {
      FirstAboveIs(tab, freq, a + 1, b);
    }
  }

  /** ampAdjust(): 1.0 without a table, the end factors outside the table's
      frequency range, and otherwise the interpolation between the last
      point at or below `freq` before the first point above it. */
  function AmpAdjustOf(tab: seq<AmpAdj>, freq: real): real {
    if |tab| == 0 then 1.0
    else if freq <= tab[0].freq then tab[0].adj
    else if freq >= tab[|tab| - 1].freq then tab[|tab| - 1].adj
    else
      var a := FirstAbove(tab, freq, 1);
      Interp(tab[a - 1], tab[a], freq)
  }

  /** x lies between y and z, whichever is larger. */
  predicate Between(x: real, y: real, z: real) {
    (y <= x <= z) || (z <= x <= y)
  }

  /** Interpolation never leaves the interval of its two factors. */
  lemma InterpBetween(p0: AmpAdj, p1: AmpAdj, freq: real)
    requires p0.freq <= freq < p1.freq
    ensures Between(Interp(p0, p1, freq), p0.adj, p1.adj)
  {
    var d := p1.freq - p0.freq;
    var x := freq - p0.freq;
    var da := p1.adj - p0.adj;
    assert 0.0 <= x < d;
    var q := da * x / d;
    assert q * d == da * x;
    if da >= 0.0 {
      assert da * x <= da * d by {
        assert da * (d - x) >= 0.0;
      }
      assert 0.0 <= q <= da;
    } else {
      assert da * d <= da * x by {
        assert (-da) * (d - x) >= 0.0;
      }
      assert da <= q <= 0.0;
    }
  }

  /** Inside the table's range the factor lies between the factors of two
      neighbouring points whose frequencies enclose `freq`. */
  lemma AmpAdjustBetweenNeighbours(tab: seq<AmpAdj>, freq: real)
    requires |tab| > 0 && tab[0].freq < freq < tab[|tab| - 1].freq
    ensures exists a :: (0 < a < |tab| && tab[a - 1].freq <= freq < tab[a].freq &&
      Between(AmpAdjustOf(tab, freq), tab[a - 1].adj, tab[a].adj))
  {
    var a := FirstAbove(tab, freq, 1);
    InterpBetween(tab[a - 1], tab[a], freq);
  }

  predicate StrictlyIncreasing(tab: seq<AmpAdj>) {
    forall i, j :: 0 <= i < j < |tab| ==> tab[i].freq < tab[j].freq
  }

  /** On a table with distinct frequencies the lookup passes through every
      point: the factor at a point's frequency is that point's factor. */
  lemma AmpAdjustAtPoint(tab: seq<AmpAdj>, i: nat)
    requires StrictlyIncreasing(tab) && i < |tab|
    ensures AmpAdjustOf(tab, tab[i].freq) == tab[i].adj
  {
    if 0 < i < |tab| - 1 {
      FirstAboveIs(tab, tab[i].freq, 1, i + 1);
      var da := tab[i + 1].adj - tab[i].adj;
      assert da * (tab[i].freq - tab[i].freq) == 0.0;
    }
  }

  /** ampAdjust() as the C code computes it, with its search loop. */
  method AmpAdjust(tab: AmpAdjTable, freq: real) returns (r: real)
    requires tab.Valid()
    ensures r == AmpAdjustOf(tab.Points(), freq)
  {
    var n := tab.count;
    var e := tab.entries;
    if n == 0 {
      return 1.0;
    }
    if freq <= e[0].freq {
      return e[0].adj;
    }
    if freq >= e[n - 1].freq {
      return e[n - 1].adj;
    }
    var a := 1;
    while a < n
      invariant 1 <= a <= n
      invariant FirstAbove(tab.Points(), freq, a) == FirstAbove(tab.Points(), freq, 1)
    {
      if freq < e[a].freq {
        break;
      }
      a := a + 1;
    }
    return Interp(e[a - 1], e[a], freq);
  }
}
