/** The `-I` (isochronic gate) and `-A` (mix modulation) option specs:
    colon-separated `key=value` lists that overwrite the current settings
    key by key and are then range-checked as a whole. */
module OptSpec {
  import opened CText
  import opened Wrappers

  /** A spec is copied into a 256-byte buffer first. */
  const SpecBufSize: int := 256

  /** Settings of the `-I` gate: start, duty, attack, release, edge mode. */
  datatype IsoGate = IsoGate(s: real, d: real, a: real, r: real, e: int)

  /** The values the settings have before any `-I` option. */
  const DefaultIsoGate: IsoGate := IsoGate(0.048493, 0.403014, 0.5, 0.5, 2)

  predicate ValidIsoGate(g: IsoGate) {
    0.0 <= g.s < 1.0 && 0.0 < g.d <= 1.0 && 0.0 <= g.a <= 1.0 && 0.0 <= g.r <= 1.0
    && g.a + g.r <= 1.0 && 0 <= g.e <= 3
  }

  const IsoExpects := "-I expects s=<start-cycle>:d=<duty>:a=<attack>:r=<release>:e=<edge>"
  const IsoOnly := "-I only supports s=, d=, a=, r= and e= parameters"
  const IsoColon := "-I expects colon-separated parameters"
  const IsoEdgeRange := "-I parameter e must be an integer in range 0..3"
  const IsoEdgeNotInt := "-I parameter e requires an integer value"
  const IsoSRange := "-I parameter s must be in range [0,1)"
  const IsoDRange := "-I parameter d must be in range (0,1]"
  const IsoARange := "-I parameter a must be in range [0,1]"
  const IsoRRange := "-I parameter r must be in range [0,1]"
  const IsoARSum := "-I parameters a+r must be <= 1"
  const IsoERange := "-I parameter e must be in range 0..3"
  const IsoTooLong := "-I spec is too long"

  function IsoNotNumber(key: char): string {
    "-I parameter " + [key] + " requires a numeric value"
  }

  predicate IsIsoKey(c: char) {
    c == 's' || c == 'd' || c == 'a' || c == 'r' || c == 'e'
  }

  /** is_iso_gate_option_spec(): does an argument look like a `-I` spec
      rather than the next option? */
  predicate IsIsoGateSpec(spec: string) {
    |spec| > 0 && spec[0] != '-' && '=' in spec
    && var p := if spec[0] == ':' then 1 else 0;
       p < |spec| && IsIsoKey(spec[p])
  }

  /** The real-valued field `key` of `g` set to `v`. */
  function SetIsoReal(g: IsoGate, key: char, v: real): IsoGate
    requires key == 's' || key == 'd' || key == 'a' || key == 'r'
  {
    if key == 's' then g.(s := v)
    else if key == 'd' then g.(d := v)
    else if key == 'a' then g.(a := v)
    else g.(r := v)
  }

  /** The `switch` of parse_iso_gate_option_spec: one `key=value` item
      starting at index p, giving the new settings and the index after the
      value. `wrap` selects whether the strtol() result for `e` is narrowed
      to int before it is stored, as the code does. */
  function IsoItem(t: string, p: nat, g: IsoGate, wrap: bool): (res: Result<(IsoGate, nat)>)
    requires p < |t|
    ensures res.Ok? ==> p + 2 < res.value.1 <= |t|
  {
    var key := t[p];
    if !IsIsoKey(key) then Err(IsoOnly)
    else if p + 1 == |t| || t[p + 1] != '=' then Err(IsoExpects)
    else if key == 'e' then
      match StrToL(t, p + 2)
      case NoInt => Err(IsoEdgeNotInt)
      case Int(edge, q) =>
        var q2 := SkipSpaces(t, q);
        if q2 < |t| && t[q2] != ':' then Err(IsoEdgeRange)
        else Ok((g.(e := if wrap then Int32Cast(edge) else edge), q))
    else
      match StrToD(t, p + 2)
      case NoReal => Err(IsoNotNumber(key))
      case Real(v, q) => Ok((SetIsoReal(g, key, v), q))
  }

  /** The main loop of parse_iso_gate_option_spec from index p with
      settings g: colons are skipped, each item must be followed by ':' or
      the end of the spec. */
  function IsoGateFrom(t: string, p: nat, g: IsoGate, wrap: bool): (res: Result<IsoGate>)
    requires p <= |t|
    decreases |t| - p
  {
    if p == |t| then Ok(g)
    else if t[p] == ':' then IsoGateFrom(t, p + 1, g, wrap)
    else
      match IsoItem(t, p, g, wrap)
      case Err(m) => Err(m)
      case Ok((g1, q)) =>
        if q < |t| && t[q] != ':' then Err(IsoColon)
        else IsoGateFrom(t, q, g1, wrap)
  }

  lemma IsoGateSkipColon(t: string, p: nat, g: IsoGate, wrap: bool)
    requires p < |t| && t[p] == ':'
    ensures IsoGateFrom(t, p, g, wrap) == IsoGateFrom(t, p + 1, g, wrap)
  {
  }

  /** The range checks at the end of parse_iso_gate_option_spec, in order. */
  function CheckIsoGate(g: IsoGate): (res: Result<IsoGate>)
    ensures res.Ok? <==> ValidIsoGate(g)
    ensures res.Ok? ==> res.value == g
  {
    if g.s < 0.0 || g.s >= 1.0 then Err(IsoSRange)
    else if g.d <= 0.0 || g.d > 1.0 then Err(IsoDRange)
    else if g.a < 0.0 || g.a > 1.0 then Err(IsoARange)
    else if g.r < 0.0 || g.r > 1.0 then Err(IsoRRange)
    else if g.a + g.r > 1.0 then Err(IsoARSum)
    else if g.e < 0 || g.e > 3 then Err(IsoERange)
    else Ok(g)
  }

  function ParseIsoGateWith(spec: string, g: IsoGate, wrap: bool): (res: Result<IsoGate>)
    ensures res.Ok? && |spec| > 0 ==> ValidIsoGate(res.value)
    ensures |spec| == 0 ==> res == Ok(g)
    ensures |spec| >= SpecBufSize ==> res.Err?
  {
    if |spec| == 0 then Ok(g)
    else if |spec| >= SpecBufSize then Err(IsoTooLong)
    else
      match IsoGateFrom(spec, 0, g, wrap)
      case Err(m) => Err(m)
      case Ok(g1) => CheckIsoGate(g1)
  }

  /** parse_iso_gate_option_spec as written: `e` is narrowed to int before
      its range is checked. */
  function ParseIsoGateAsWritten(spec: string, g: IsoGate): (res: Result<IsoGate>)
    ensures res.Ok? && |spec| > 0 ==> ValidIsoGate(res.value)
    ensures |spec| == 0 ==> res == Ok(g)
    ensures |spec| >= SpecBufSize ==> res.Err?
  {
    ParseIsoGateWith(spec, g, true)
  }

  /** parse_iso_gate_option_spec with the range of `e` checked on the
      value strtol() read. An empty spec leaves the settings alone; any
      other spec either fails or leaves settings that pass every range check. */
  function ParseIsoGate(spec: string, g: IsoGate): (res: Result<IsoGate>)
    ensures res.Ok? && |spec| > 0 ==> ValidIsoGate(res.value)
    ensures |spec| == 0 ==> res == Ok(g)
    ensures |spec| >= SpecBufSize ==> res.Err?
  {
    ParseIsoGateWith(spec, g, false)
  }

  /** The current `-I` settings (the opt_I_* globals). */
  class IsoGateOptions {
    var s: real
    var d: real
    var a: real
    var r: real
    var e: int

    function Get(): IsoGate
      reads this
    {
      IsoGate(s, d, a, r, e)
    }

    method Set(g: IsoGate)
      modifies this
      ensures Get() == g
    {
      s, d, a, r, e := g.s, g.d, g.a, g.r, g.e;
    }

    constructor ()
      ensures Get() == DefaultIsoGate
    {
      s, d, a, r, e := 0.048493, 0.403014, 0.5, 0.5, 2;
    }

    /** The `switch` of parse_iso_gate_option_spec: reads one item at p
        and stores its value. */
    method ParseItem(spec: string, p: nat) returns (next: nat, err: Option<string>)
      requires p < |spec|
      modifies this
      ensures err.None? ==> IsoItem(spec, p, old(Get()), true) == Ok((Get(), next))
      ensures err.Some? ==> IsoItem(spec, p, old(Get()), true) == Err(err.value)
    {
      var key := spec[p];
      next := p + 1;
      if !IsIsoKey(key) {
        return next, Some(IsoOnly);
      }
      if next == |spec| || spec[next] != '=' {
        return next, Some(IsoExpects);
      }
      next := next + 1;
      if key == 'e' {
        var scan := StrToL(spec, next);
        if scan.NoInt? {
          return next, Some(IsoEdgeNotInt);
        }
        var q2 := SkipSpaces(spec, scan.next);
        if q2 < |spec| && spec[q2] != ':' {
          return next, Some(IsoEdgeRange);
        }
        e := Int32Cast(scan.value);
        next := scan.next;
      } else {
        var scan := StrToD(spec, next);
        if scan.NoReal? {
          return next, Some(IsoNotNumber(key));
        }
        if key == 's' {
          s := scan.value;
        } else if key == 'd' {
          d := scan.value;
        } else if key == 'a' {
          a := scan.value;
        } else {
          r := scan.value;
        }
        next := scan.next;
      }
      err := None;
    }

    /** parse_iso_gate_option_spec: walks the spec with an index, storing each
        value as it is read (`e` narrowed to int), then range-checks the
        result. `err` is the message the program stops with. */
    method Parse(spec: string) returns (err: Option<string>)
      modifies this
      ensures err.None? <==> ParseIsoGateAsWritten(spec, old(Get())).Ok?
      ensures err.None? ==> Get() == ParseIsoGateAsWritten(spec, old(Get())).value
      ensures err.Some? ==> ParseIsoGateAsWritten(spec, old(Get())) == Err(err.value)
    {
      if |spec| == 0 {
        return None;
      }
      if |spec| >= SpecBufSize {
        return Some(IsoTooLong);
      }
      ghost var walk := IsoGateFrom(spec, 0, Get(), true);
      var p := 0;
      while p < |spec|
        invariant p <= |spec|
        invariant IsoGateFrom(spec, p, Get(), true) == walk
        decreases |spec| - p
      {
        while p < |spec| && spec[p] == ':'
          invariant p <= |spec|
          invariant IsoGateFrom(spec, p, Get(), true) == walk
          decreases |spec| - p
        {
          IsoGateSkipColon(spec, p, Get(), true);
          p := p + 1;
        }
        if p == |spec| {
          break;
        }
        var err1;
        p, err1 := ParseItem(spec, p);
        if err1.Some? {
          return err1;
        }
        if p < |spec| && spec[p] == ':' {
          IsoGateSkipColon(spec, p, Get(), true);
          p := p + 1;
        } else if p < |spec| {
          return Some(IsoColon);
        }
      }
      assert walk == Ok(Get());
      var res := CheckIsoGate(Get());
      if res.Err? {
        return Some(res.error);
      }
      return None;
    }
  }

  /** A spec that does not start with ':' and parses, with or without
      the narrowing of `e`, is one that is_iso_gate_option_spec recognises. */
  lemma ParsedIsoGateSpecIsRecognised(spec: string, g: IsoGate, wrap: bool)
    requires |spec| > 0 && spec[0] != ':'
    requires ParseIsoGateWith(spec, g, wrap).Ok?
    ensures IsIsoGateSpec(spec)
  {
    assert IsoGateFrom(spec, 0, g, wrap).Ok?;
    assert spec[1] == '=';
  }

  /** The first key must be one of s, d, a, r, e. */
  lemma IsoGateUnknownKey(spec: string, g: IsoGate, wrap: bool)
    requires 0 < |spec| < SpecBufSize && spec[0] != ':' && !IsIsoKey(spec[0])
    ensures ParseIsoGateWith(spec, g, wrap) == Err(IsoOnly)
  {
  }

  /** A key must be followed by '='. */
  lemma IsoGateMissingEquals(spec: string, g: IsoGate, wrap: bool)
    requires 0 < |spec| < SpecBufSize && IsIsoKey(spec[0])
    requires |spec| == 1 || spec[1] != '='
    ensures ParseIsoGateWith(spec, g, wrap) == Err(IsoExpects)
  {
  }

  /** An item followed by anything but ':' stops the loop with an error. */
  lemma IsoGateFromBadSeparator(t: string, p: nat, g: IsoGate, g1: IsoGate, q: nat, wrap: bool)
    requires p < |t| && t[p] != ':' && q < |t| && t[q] != ':'
    requires IsoItem(t, p, g, wrap) == Ok((g1, q))
    ensures IsoGateFrom(t, p, g, wrap) == Err(IsoColon)
  {
  }

  /** A value must be followed by ':' or the end of the spec. */
  lemma IsoGateBadSeparator(spec: string, g: IsoGate, n: nat, wrap: bool)
    requires spec == "r=" + NatToString(n) + ";" && |spec| < SpecBufSize
    ensures ParseIsoGateWith(spec, g, wrap) == Err(IsoColon)
  {
    var t := NatToString(n);
    var j := 2 + |t|;
    assert spec[2..j] == t && spec[j] == ';' && spec[0] == 'r' && spec[1] == '=' by {
      SliceOfConcat("r=", t);
      assert spec == ("r=" + t) + ";";
    }
    assert StrToD(spec, 2) == Real(n as real, j) by {
      StrToDOfNat(spec, 2, n);
    }
    assert IsoItem(spec, 0, g, wrap) == Ok((g.(r := n as real), j));
    IsoGateFromBadSeparator(spec, 0, g, g.(r := n as real), j, wrap);
  }

  /** `e=<n>` on its own: the edge mode becomes n exactly when 0 <= n <= 3,
      and any other value is refused. */
  lemma IsoGateEdgeIsTextValue(g: IsoGate, n: nat)
    requires ValidIsoGate(g)
    requires |"e=" + NatToString(n)| < SpecBufSize
    ensures var res := ParseIsoGate("e=" + NatToString(n), g);
      (res.Ok? <==> n <= 3) && (res.Ok? ==> res.value == g.(e := n))
  {
    var spec := "e=" + NatToString(n);
    var v := if n > LongMax then LongMax else n;
    IsoEdgeItem(n, g, false);
    assert IsoGateFrom(spec, 0, g, false) == Ok(g.(e := v));
  }

  /** `e=<n>` on its own as written: the edge mode becomes strtol's value
      narrowed to int, exactly when that narrowed value is 0..3. */
  lemma IsoGateEdgeAsWritten(g: IsoGate, n: nat)
    requires ValidIsoGate(g)
    requires |"e=" + NatToString(n)| < SpecBufSize
    ensures var edge := Int32Cast(if n > LongMax then LongMax else n);
      var res := ParseIsoGateAsWritten("e=" + NatToString(n), g);
      (res.Ok? <==> 0 <= edge <= 3) && (res.Ok? ==> res.value == g.(e := edge))
  {
    var spec := "e=" + NatToString(n);
    var v := if n > LongMax then LongMax else n;
    IsoEdgeItem(n, g, true);
    assert IsoGateFrom(spec, 0, g, true) == Ok(g.(e := Int32Cast(v)));
  }

  /** The single item `e=<n>` as the `switch` reads it. */
  lemma IsoEdgeItem(n: nat, g: IsoGate, wrap: bool)
    ensures var v := if n > LongMax then LongMax else n;
      var spec := "e=" + NatToString(n);
      IsoItem(spec, 0, g, wrap) == Ok((g.(e := if wrap then Int32Cast(v) else v), |spec|))
  {
    var t := NatToString(n);
    var spec := "e=" + t;
    SliceOfConcat("e=", t);
    StrToLOfNat(spec, 2, n);
    assert SkipSpaces(spec, |spec|) == |spec|;
  }

  /** As written, `e=4294967296` is accepted and stored as edge mode 0:
      the value is narrowed to int before the range check sees it. */
  lemma IsoGateEdgeNarrowedAsWritten()
    ensures ParseIsoGateAsWritten("e=" + NatToString(0x1_0000_0000), DefaultIsoGate) == Ok(DefaultIsoGate.(e := 0))
    ensures ParseIsoGate("e=" + NatToString(0x1_0000_0000), DefaultIsoGate).Err?
  {
    var n: nat := 0x1_0000_0000;
    var spec := "e=" + NatToString(n);
    assert n < Pow10(10);
    NatToStringLength(n, 10);
    IsoEdgeItem(n, DefaultIsoGate, true);
    assert Int32Cast(n) == 0;
    assert IsoGateFrom(spec, 0, DefaultIsoGate, true) == Ok(DefaultIsoGate.(e := 0));
    IsoGateEdgeIsTextValue(DefaultIsoGate, n);
  }

  // ---------------------------------------------------------------- -A

  /** Settings of the `-A` mix modulation: depth d, width e, period k (min),
      end level E. */
  datatype MixMod = MixMod(d: real, e: real, k: real, E: real)

  const DefaultMixMod: MixMod := MixMod(0.3, 0.3, 10.0, 0.7)

  predicate ValidMixMod(m: MixMod) {
    0.0 <= m.d <= 1.0 && m.e > 0.0 && m.k > 0.0 && 0.0 <= m.E <= 1.0
  }

  const MixExpects := "-A expects d=<val>:e=<val>:k=<val>:E=<val>"
  const MixOnly := "-A only supports d=, e=, k= and E= parameters"
  const MixColon := "-A expects colon-separated parameters"
  const MixDRange := "-A parameter d must be in range 0..1"
  const MixEPositive := "-A parameter e must be > 0"
  const MixKPositive := "-A parameter k must be > 0"
  const MixBigERange := "-A parameter E must be in range 0..1"
  const MixTooLong := "-A spec is too long"

  function MixNotNumber(key: char): string {
    "-A parameter " + [key] + " requires a numeric value"
  }

  predicate IsMixKey(c: char) {
    c == 'd' || c == 'e' || c == 'k' || c == 'E'
  }

  /** is_mix_mod_option_spec(). */
  predicate IsMixModSpec(spec: string) {
    |spec| > 0 && spec[0] != '-' && '=' in spec
    && var p := if spec[0] == ':' then 1 else 0;
       p < |spec| && IsMixKey(spec[p])
  }

  function SetMix(m: MixMod, key: char, v: real): MixMod
    requires IsMixKey(key)
  {
    if key == 'd' then m.(d := v)
    else if key == 'e' then m.(e := v)
    else if key == 'k' then m.(k := v)
    else m.(E := v)
  }

  /** The `switch` of parse_mix_mod_option_spec: one `key=value` item. */
  function MixItem(t: string, p: nat, m: MixMod): (res: Result<(MixMod, nat)>)
    requires p < |t|
    ensures res.Ok? ==> p + 2 < res.value.1 <= |t|
  {
    var key := t[p];
    if !IsMixKey(key) then Err(MixOnly)
    else if p + 1 == |t| || t[p + 1] != '=' then Err(MixExpects)
    else
      match StrToD(t, p + 2)
      case NoReal => Err(MixNotNumber(key))
      case Real(v, q) => Ok((SetMix(m, key, v), q))
  }

  /** The main loop of parse_mix_mod_option_spec from index p. */
  function MixModFrom(t: string, p: nat, m: MixMod): (res: Result<MixMod>)
    requires p <= |t|
    decreases |t| - p
  {
    if p == |t| then Ok(m)
    else if t[p] == ':' then MixModFrom(t, p + 1, m)
    else
      match MixItem(t, p, m)
      case Err(msg) => Err(msg)
      case Ok((m1, q)) =>
        if q < |t| && t[q] != ':' then Err(MixColon)
        else MixModFrom(t, q, m1)
  }

  lemma MixModSkipColon(t: string, p: nat, m: MixMod)
    requires p < |t| && t[p] == ':'
    ensures MixModFrom(t, p, m) == MixModFrom(t, p + 1, m)
  {
  }

  function CheckMixMod(m: MixMod): (res: Result<MixMod>)
    ensures res.Ok? <==> ValidMixMod(m)
    ensures res.Ok? ==> res.value == m
  {
    if m.d < 0.0 || m.d > 1.0 then Err(MixDRange)
    else if m.e <= 0.0 then Err(MixEPositive)
    else if m.k <= 0.0 then Err(MixKPositive)
    else if m.E < 0.0 || m.E > 1.0 then Err(MixBigERange)
    else Ok(m)
  }

  /** parse_mix_mod_option_spec. */
  function ParseMixMod(spec: string, m: MixMod): (res: Result<MixMod>)
    ensures res.Ok? && |spec| > 0 ==> ValidMixMod(res.value)
    ensures |spec| == 0 ==> res == Ok(m)
    ensures |spec| >= SpecBufSize ==> res.Err?
  {
    if |spec| == 0 then Ok(m)
    else if |spec| >= SpecBufSize then Err(MixTooLong)
    else
      match MixModFrom(spec, 0, m)
      case Err(msg) => Err(msg)
      case Ok(m1) => CheckMixMod(m1)
  }

  /** The current `-A` settings (the opt_A_* globals). */
  class MixModOptions {
    var d: real
    var e: real
    var k: real
    var E: real

    function Get(): MixMod
      reads this
    {
      MixMod(d, e, k, E)
    }

    constructor ()
      ensures Get() == DefaultMixMod
    {
      d, e, k, E := 0.3, 0.3, 10.0, 0.7;
    }

    /** The `switch` of parse_mix_mod_option_spec. */
    method ParseItem(spec: string, p: nat) returns (next: nat, err: Option<string>)
      requires p < |spec|
      modifies this
      ensures err.None? ==> MixItem(spec, p, old(Get())) == Ok((Get(), next))
      ensures err.Some? ==> MixItem(spec, p, old(Get())) == Err(err.value)
    {
      var key := spec[p];
      next := p + 1;
      if !IsMixKey(key) {
        return next, Some(MixOnly);
      }
      if next == |spec| || spec[next] != '=' {
        return next, Some(MixExpects);
      }
      next := next + 1;
      var scan := StrToD(spec, next);
      if scan.NoReal? {
        return next, Some(MixNotNumber(key));
      }
      if key == 'd' {
        d := scan.value;
      } else if key == 'e' {
        e := scan.value;
      } else if key == 'k' {
        k := scan.value;
      } else {
        E := scan.value;
      }
      next := scan.next;
      err := None;
    }

    /** parse_mix_mod_option_spec. */
    method Parse(spec: string) returns (err: Option<string>)
      modifies this
      ensures err.None? <==> ParseMixMod(spec, old(Get())).Ok?
      ensures err.None? ==> Get() == ParseMixMod(spec, old(Get())).value
      ensures err.Some? ==> ParseMixMod(spec, old(Get())) == Err(err.value)
    {
      if |spec| == 0 {
        return None;
      }
      if |spec| >= SpecBufSize {
        return Some(MixTooLong);
      }
      ghost var walk := MixModFrom(spec, 0, Get());
      var p := 0;
      while p < |spec|
        invariant p <= |spec|
        invariant MixModFrom(spec, p, Get()) == walk
        decreases |spec| - p
      {
        while p < |spec| && spec[p] == ':'
          invariant p <= |spec|
          invariant MixModFrom(spec, p, Get()) == walk
          decreases |spec| - p
        {
          MixModSkipColon(spec, p, Get());
          p := p + 1;
        }
        if p == |spec| {
          break;
        }
        var err1;
        p, err1 := ParseItem(spec, p);
        if err1.Some? {
          return err1;
        }
        if p < |spec| && spec[p] == ':' {
          MixModSkipColon(spec, p, Get());
          p := p + 1;
        } else if p < |spec| {
          return Some(MixColon);
        }
      }
      assert walk == Ok(Get());
      var res := CheckMixMod(Get());
      if res.Err? {
        return Some(res.error);
      }
      return None;
    }
  }

  /** A spec that does not start with ':' and parses is one that
      is_mix_mod_option_spec recognises. */
  lemma ParsedMixModSpecIsRecognised(spec: string, m: MixMod)
    requires |spec| > 0 && spec[0] != ':'
    requires ParseMixMod(spec, m).Ok?
    ensures IsMixModSpec(spec)
  {
    assert MixModFrom(spec, 0, m).Ok?;
    assert spec[1] == '=';
  }

  /** `k=<n>` on its own sets the period to n minutes, and is refused for 0. */
  lemma MixModPeriodIsTextValue(m: MixMod, n: nat)
    requires ValidMixMod(m)
    requires |"k=" + NatToString(n)| < SpecBufSize
    ensures var res := ParseMixMod("k=" + NatToString(n), m);
      (res.Ok? <==> n > 0) && (res.Ok? ==> res.value == m.(k := n as real))
  {
    var t := NatToString(n);
    var spec := "k=" + t;
    assert StrToD(spec, 2) == Real(n as real, |spec|) by {
      SliceOfConcat("k=", t);
      StrToDOfNat(spec, 2, n);
    }
    assert spec[0] == 'k' && spec[1] == '=';
    assert MixItem(spec, 0, m) == Ok((m.(k := n as real), |spec|));
    assert MixModFrom(spec, 0, m) == Ok(m.(k := n as real));
  }
}
