/** The looper's pseudo-random numbers: the ZX Spectrum generator
    flac_zxrand_0_65536 and the range pickers built on it. The generator's
    seed, a global unsigned short in the C code, is the field of an Rng. */
module ZxRand {
  import opened Wrappers

  const SeedMod: int := 65536
  const IntMin: int := -0x8000_0000
  const IntMax: int := 0x7FFF_FFFF

  /** The next seed: (1 + seed) * 75 % 65537 - 1, stored in an unsigned
      short. The store never wraps: 65537 is prime and does not divide 75,
      so the remainder is never 0. */
  function NextSeed(s: int): (t: int)
    requires 0 <= s < SeedMod
    ensures 0 <= t < SeedMod
    ensures t == (1 + s) * 75 % 65537 - 1
  {
    SeedNeverWraps(s);
    ((1 + s) * 75 % 65537 - 1) % SeedMod
  }

  /** 65537 is prime and divides neither 75 nor any of 1 .. 65536, so it
      never divides (1 + s) * 75. */
  lemma SeedNeverWraps(s: int)
    requires 0 <= s < SeedMod
    ensures (1 + s) * 75 % 65537 >= 1
  {
  }

  /** flac_zxrand_0's arithmetic: mult * v in a long long, shifted right
      (arithmetically) by 16 bits. */
  function Scale(mult: int, v: int): int {
    mult * v / SeedMod
  }

  /** For a positive mult and a generator value, the scaled value lies in
      [0, mult); for a non-positive mult it lies in [mult, 0]. */
  lemma ScaleRange(mult: int, v: int)
    requires 0 <= v < SeedMod
    ensures mult > 0 ==> 0 <= Scale(mult, v) < mult
    ensures mult <= 0 ==> mult <= Scale(mult, v) <= 0
  {
    var p := mult * v;
    var q := p / SeedMod;
    assert p == SeedMod * q + p % SeedMod;
    if mult > 0 {
      MulNonNeg(mult, v);
      MulNonNeg(mult, SeedMod - v);
      assert mult * SeedMod - p == mult * (SeedMod - v);
      assert SeedMod * q <= p < mult * SeedMod;
      if q >= mult {
        MulNonNeg(SeedMod, q - mult);
      }
    } else {
      MulNonNeg(-mult, v);
      MulNonNeg(-mult, SeedMod - v);
      assert p - mult * SeedMod == -mult * (SeedMod - v);
    }
  }

  lemma MulNonNeg(a: int, b: int)
    requires a >= 0 && b >= 0
    ensures a * b >= 0
  {
  }

  /** A range of candidate values [lo, hi), empty when hi <= lo. */
  datatype Span = Span(lo: int, hi: int) {
    function Len(): (n: int)
      ensures n >= 0
    {
      if hi - lo > 0 then hi - lo else 0
    }
  }

  /** The 'o' bounds in force at letter j of fmt: those of the most recent
      'o' before it, or the whole int range. */
  function Bounds(fmt: string, args: seq<Span>, j: nat): (b: Span)
    requires |args| == |fmt| && j <= |fmt|
  {
    if j == 0 then Span(IntMin, IntMax)
    else if fmt[j - 1] == 'o' then args[j - 1]
    else Bounds(fmt, args, j - 1)
  }

  /** The range letter j contributes: an 'r' range clipped to the bounds
      in force, nothing for any other letter. */
  function ClipAt(fmt: string, args: seq<Span>, j: nat): (c: Span)
    requires |args| == |fmt| && j < |fmt|
    ensures fmt[j] != 'r' ==> c.Len() == 0
    ensures fmt[j] == 'r' ==> Bounds(fmt, args, j).lo <= c.lo && c.hi <= Bounds(fmt, args, j).hi
    ensures fmt[j] == 'r' ==> args[j].lo <= c.lo && c.hi <= args[j].hi
  {
    if fmt[j] == 'r' then
      var b := Bounds(fmt, args, j);
      Span(if args[j].lo < b.lo then b.lo else args[j].lo,
           if args[j].hi > b.hi then b.hi else args[j].hi)
    else Span(0, 0)
  }

  /** The total length of the clipped ranges of letters 0 .. i-1. */
  function Total(fmt: string, args: seq<Span>, i: nat): (n: int)
    requires |args| == |fmt| && i <= |fmt|
    ensures n >= 0
  {
    if i == 0 then 0 else Total(fmt, args, i - 1) + ClipAt(fmt, args, i - 1).Len()
  }

  /** The first letter of fmt other than 'o' and 'r', if any. */
  predicate WellFormed(fmt: string) {
    forall j :: 0 <= j < |fmt| ==> fmt[j] == 'o' || fmt[j] == 'r'
  }

  /** The value-th element, counting through the non-empty clipped ranges
      from letter j on. */
  function PickFrom(fmt: string, args: seq<Span>, j: nat, value: int): Option<int>
    requires |args| == |fmt| && j <= |fmt|
    decreases |fmt| - j
  {
    if j == |fmt| then None
    else
      var c := ClipAt(fmt, args, j);
      if c.Len() > 0 then
        if value < c.Len() then Some(c.lo + value) else PickFrom(fmt, args, j + 1, value - c.Len())
      else PickFrom(fmt, args, j + 1, value)
  }

  /** Total from letter j to the end. */
  function TotalFrom(fmt: string, args: seq<Span>, j: nat): (n: int)
    requires |args| == |fmt| && j <= |fmt|
    ensures n >= 0
    decreases |fmt| - j
  {
    if j == |fmt| then 0 else ClipAt(fmt, args, j).Len() + TotalFrom(fmt, args, j + 1)
  }

  /** The two ways of adding up the clipped lengths agree. */
  lemma {:induction false} TotalSplit(fmt: string, args: seq<Span>, i: nat)
    requires |args| == |fmt| && i <= |fmt|
    ensures Total(fmt, args, i) + TotalFrom(fmt, args, i) == Total(fmt, args, |fmt|)
    decreases |fmt| - i
  {
    if i < |fmt| {
      TotalSplit(fmt, args, i + 1);
    }
  }

  /** Any value below the remaining total picks an element of one of the
      non-empty clipped ranges of an 'r' letter. */
  lemma {:induction false} PickFromInRange(fmt: string, args: seq<Span>, j: nat, value: int)
    requires |args| == |fmt| && j <= |fmt|
    requires 0 <= value < TotalFrom(fmt, args, j)
    ensures PickFrom(fmt, args, j, value).Some?
    ensures var x := PickFrom(fmt, args, j, value).value;
      exists k :: j <= k < |fmt| && fmt[k] == 'r' &&
        ClipAt(fmt, args, k).lo <= x < ClipAt(fmt, args, k).hi
    decreases |fmt| - j
  {
    var c := ClipAt(fmt, args, j);
    if c.Len() > 0 && value < c.Len() {
      assert fmt[j] == 'r';
    } else if c.Len() > 0 {
      PickFromInRange(fmt, args, j + 1, value - c.Len());
    } else {
      PickFromInRange(fmt, args, j + 1, value);
    }
  }

  /** The result flac_zxrandM gives for generator value v, when fmt is
      well formed: def for an empty total, otherwise the picked element. */
  function MultiValue(def: int, fmt: string, args: seq<Span>, v: int): int
    requires |args| == |fmt|
  {
    var n := Total(fmt, args, |fmt|);
    if n == 0 then def
    else match PickFrom(fmt, args, 0, Scale(n, v)) {
      case Some(x) => x
      case None => def
    }
  }

  /** flac_zxrandM's promise: def when the clipped ranges are all empty,
      otherwise a value inside the clipped range of some 'r' letter, which
      lies within both that letter's range and the 'o' bounds in force. */
  lemma MultiValueInRange(def: int, fmt: string, args: seq<Span>, v: int)
    requires |args| == |fmt| && 0 <= v < SeedMod
    ensures Total(fmt, args, |fmt|) == 0 ==> MultiValue(def, fmt, args, v) == def
    ensures Total(fmt, args, |fmt|) > 0 ==>
      var x := MultiValue(def, fmt, args, v);
      exists k :: 0 <= k < |fmt| && fmt[k] == 'r' &&
        ClipAt(fmt, args, k).lo <= x < ClipAt(fmt, args, k).hi &&
        Bounds(fmt, args, k).lo <= x < Bounds(fmt, args, k).hi &&
        args[k].lo <= x < args[k].hi
  {
    var n := Total(fmt, args, |fmt|);
    if n > 0 {
      ScaleRange(n, v);
      TotalSplit(fmt, args, 0);
      PickFromInRange(fmt, args, 0, Scale(n, v));
    }
  }

  /** The generator's state. */
  class Rng {
    var seed: int

    ghost predicate Valid()
      reads this
    {
      0 <= seed < SeedMod
    }

    /** The static seed starts at 0. */
    constructor ()
      ensures Valid() && seed == 0
    {
      seed := 0;
    }

    /** flac_zxrand_seed = 0xFFFF & time(NULL), the clock reading given as
        now. */
    method Seed(now: int)
      modifies this
      ensures Valid() && seed == now % SeedMod
    {
      seed := now % SeedMod;
    }

    /** flac_zxrand_0_65536(): advance the seed and return it. */
    method Next() returns (v: int)
      requires Valid()
      modifies this
      ensures Valid() && seed == NextSeed(old(seed)) && v == seed
    {
      seed := ((1 + seed) * 75 % 65537 - 1) % SeedMod;
      v := seed;
    }

    /** flac_zxrand_0(mult): a value in [0, mult) for a positive mult. */
    method Below(mult: int) returns (r: int)
      requires Valid()
      modifies this
      ensures Valid() && seed == NextSeed(old(seed)) && r == Scale(mult, seed)
      ensures mult > 0 ==> 0 <= r < mult
    {
      var v := Next();
      r := mult * v / SeedMod;
      ScaleRange(mult, v);
    }

    /** flac_zxrand(r0, r1): r0 without using the generator when r1 <= r0,
        otherwise a value in [r0, r1). */
    method Range(r0: int, r1: int) returns (r: int)
      requires Valid()
      modifies this
      ensures Valid()
      ensures r1 <= r0 ==> r == r0 && seed == old(seed)
      ensures r1 > r0 ==> seed == NextSeed(old(seed)) && r == r0 + Scale(r1 - r0, seed)
      ensures r1 > r0 ==> r0 <= r < r1
    {
      if r1 <= r0 {
        return r0;
      }
      var d := Below(r1 - r0);
      r := r0 + d;
    }

    /** flac_zxrandM(def, fmt, lo0, hi0, lo1, hi1, ...): the first pass
        adds up the clipped 'r' ranges (an error for any other letter than
        'o' or 'r'), the second picks the value-th element among them. The
        generator is used only when the total is not 0. */
    method Multi(def: int, fmt: string, args: seq<Span>) returns (r: Result<int>)
      requires Valid() && |args| == |fmt|
      modifies this
      ensures Valid()
      ensures !WellFormed(fmt) <==> r.Err?
      ensures r.Ok? && Total(fmt, args, |fmt|) == 0 ==> seed == old(seed)
      ensures r.Ok? && Total(fmt, args, |fmt|) > 0 ==> seed == NextSeed(old(seed))
      ensures r.Ok? ==> r.value == MultiValue(def, fmt, args, seed)
    {
      var cnt := 0;
      var olo := IntMin;
      var ohi := IntMax;
      var i := 0;
      while i < |fmt|
        invariant 0 <= i <= |fmt| && seed == old(seed)
        invariant Span(olo, ohi) == Bounds(fmt, args, i)
        invariant cnt == Total(fmt, args, i)
        invariant forall j :: 0 <= j < i ==> fmt[j] == 'o' || fmt[j] == 'r'
      {
        var lo := args[i].lo;
        var hi := args[i].hi;
        if fmt[i] == 'o' {
          olo := lo;
          ohi := hi;
        } else if fmt[i] == 'r' {
          if lo < olo { lo := olo; }
          if hi > ohi { hi := ohi; }
          if hi - lo > 0 { cnt := cnt + (hi - lo); }
        } else {
          return Err("Bad flac_zxrandM format: " + fmt);
        }
        i := i + 1;
      }
      if cnt == 0 {
        return Ok(def);
      }
      var value := Below(cnt);
      ghost var v0 := value;
      TotalSplit(fmt, args, 0);
      olo := IntMin;
      ohi := IntMax;
      i := 0;
      while i < |fmt|
        invariant 0 <= i <= |fmt|
        invariant Span(olo, ohi) == Bounds(fmt, args, i)
        invariant PickFrom(fmt, args, i, value) == PickFrom(fmt, args, 0, v0)
      {
        var lo := args[i].lo;
        var hi := args[i].hi;
        if fmt[i] == 'o' {
          olo := lo;
          ohi := hi;
        } else if fmt[i] == 'r' {
          if lo < olo { lo := olo; }
          if hi > ohi { hi := ohi; }
          var c := hi - lo;
          if c > 0 {
            if value < c {
              return Ok(lo + value);
            }
            value := value - c;
          }
        }
        i := i + 1;
      }
      r := Ok(def);
    }
  }
}
