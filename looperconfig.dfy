/** The SBAGEN_LOOPER setting string of flac_looper_init: the scan of its
    flags and values into the looper's settings, and the clamps that make
    those settings usable. The looper class walks the string with a loop;
    the functions here are what that loop computes. */
module LooperConfig {
  import opened Wrappers
  import opened CText

  const U32Mod: int := 0x1_0000_0000

  /** The settings in frames: segment length range, start and length of
      the source data used, fade length, second channel pair, swap. */
  datatype Settings = Settings(seg0: int, seg1: int, datbase: int, datcnt: int,
                               fade: int, ch2: bool, swap: bool)

  /** The scan's state besides the settings: the previous flag and whether
      settings are applied (the '#' selection). */
  datatype ScanState = ScanState(prev: char, on: bool, st: Settings)

  /** The settings before any flag: all the data, one second of fade. */
  function Defaults(datcnt0: int, rate: int): (st: Settings)
    ensures st.datbase == 0 && st.datcnt == st.seg0 == st.seg1 == datcnt0
    ensures st.fade == rate && !st.ch2 && st.swap
  {
    Settings(datcnt0, datcnt0, 0, datcnt0, rate, false, true)
  }

  /** The flags flac_looper_init accepts. */
  predicate IsFlag(c: char) {
    c in "s-fcwd#"
  }

  /** The flag a character stands for after `prev`: '-' is the end of the
      range after 's' or 'd', and is refused ('-' kept) anywhere else. */
  function Resolve(flag: char, prev: char): (f: char)
    ensures flag != '-' ==> f == flag
    ensures flag == '-' ==> (f == 'S' <==> prev == 's') && (f == 'D' <==> prev == 'd')
    ensures flag == '-' && prev != 's' && prev != 'd' ==> f == '-'
  {
    if flag != '-' then flag
    else if prev == 's' then 'S'
    else if prev == 'd' then 'D'
    else '-'
  }

  /** val * rate converted to an int. */
  function Frames(val: real, rate: int): int {
    Trunc(val * rate as real)
  }

  /** val * rate less datbase, worked out before the one conversion to
      an int: the data length that a 'D' (a '-' after 'd') sets. */
  function FramesAfter(val: real, rate: int, datbase: int): int {
    Trunc(val * rate as real - datbase as real)
  }

  /** The effect of one flag with its value. */
  function Apply(f: char, val: real, ps: ScanState, rate: int, datcnt0: int, mixCnt: int): ScanState {
    var st := ps.st;
    if f == '#' then ps.(on := val == mixCnt as real)
    else if !ps.on then ps
    else if f == 's' then ps.(st := st.(seg0 := Frames(val, rate), seg1 := Frames(val, rate)))
    else if f == 'S' then ps.(st := st.(seg1 := Frames(val, rate)))
    else if f == 'd' then
      ps.(st := st.(datbase := Frames(val, rate), datcnt := datcnt0 - Frames(val, rate)))
    else if f == 'D' then ps.(st := st.(datcnt := FramesAfter(val, rate, st.datbase)))
    else if f == 'f' then ps.(st := st.(fade := Frames(val, rate)))
    else if f == 'c' then ps.(st := st.(ch2 := val > 1.5))
    else if f == 'w' then ps.(st := st.(swap := val > 0.5))
    else ps
  }

  /** One turn of the scan loop at s[i]: where the scan goes on and the new
      state. White space, unknown flags and a misplaced '-' are skipped; a
      flag without a number is skipped after becoming the previous flag. */
  function Step(s: string, i: nat, ps: ScanState, rate: int, datcnt0: int, mixCnt: int): (r: (nat, ScanState))
    requires i < |s|
    ensures i < r.0 <= |s|
  {
    var flag := s[i];
    if IsSpace(flag) || !IsFlag(flag) then (i + 1, ps)
    else
      var f := Resolve(flag, ps.prev);
      if f == '-' then (i + 1, ps)
      else
        var ps1 := ps.(prev := f);
        match StrToD(s, i + 1)
        case NoReal => (i + 1, ps1)
        case Real(val, next) => (next, Apply(f, val, ps1, rate, datcnt0, mixCnt))
  }

  /** The scan of s from i to its end. */
  function Scan(s: string, i: nat, ps: ScanState, rate: int, datcnt0: int, mixCnt: int): ScanState
    requires i <= |s|
    decreases |s| - i
  {
    if i == |s| then ps
    else
      var (j, ps') := Step(s, i, ps, rate, datcnt0, mixCnt);
      Scan(s, j, ps', rate, datcnt0, mixCnt)
  }

  /** A leading 'i' asks for an intro only when white space follows it. */
  function Intro(s: string): (b: bool)
    ensures b ==> |s| >= 2 && s[0] == 'i'
  {
    |s| >= 2 && s[0] == 'i' && IsSpace(s[1])
  }

  /** Where the flags start: after a leading 'i', whether it counted. */
  function FlagsStart(s: string): (i: nat)
    ensures i <= |s|
    ensures Intro(s) ==> i == 1
  {
    if |s| > 0 && s[0] == 'i' then 1 else 0
  }

  /** The settings the whole string gives; a negative mix_cnt counts as 0. */
  function Parse(s: string, rate: int, datcnt0: int, mixCnt: int): Settings {
    var mix := if mixCnt < 0 then 0 else mixCnt;
    Scan(s, FlagsStart(s), ScanState('\0', true, Defaults(datcnt0, rate)), rate, datcnt0, mix).st
  }

  /** A character that is not a flag is passed over. */
  lemma StepSkipsBadFlag(s: string, i: nat, ps: ScanState, rate: int, datcnt0: int, mixCnt: int)
    requires i < |s| && !IsFlag(s[i])
    ensures Scan(s, i, ps, rate, datcnt0, mixCnt) == Scan(s, i + 1, ps, rate, datcnt0, mixCnt)
  {
  }

  /** A '-' that does not follow 's' or 'd' is passed over. */
  lemma StepSkipsStrayDash(s: string, i: nat, ps: ScanState, rate: int, datcnt0: int, mixCnt: int)
    requires i < |s| && s[i] == '-' && ps.prev != 's' && ps.prev != 'd'
    ensures Scan(s, i, ps, rate, datcnt0, mixCnt) == Scan(s, i + 1, ps, rate, datcnt0, mixCnt)
  {
  }

  /** "s<a>-<b>": the '-' after 's' sets only the upper segment length. */
  lemma DashAfterS(s: string, i: nat, ps: ScanState, rate: int, datcnt0: int, mixCnt: int)
    requires i < |s| && s[i] == '-' && ps.prev == 's' && ps.on
    requires StrToD(s, i + 1).Real?
    ensures var ps' := Step(s, i, ps, rate, datcnt0, mixCnt).1;
      ps'.st == ps.st.(seg1 := Frames(StrToD(s, i + 1).value, rate)) && ps'.prev == 'S'
  {
  }

  /** "d<a>-<b>": the '-' after 'd' sets only the data length, to b
      seconds of frames less the data start, truncated once. */
  lemma DashAfterD(s: string, i: nat, ps: ScanState, rate: int, datcnt0: int, mixCnt: int)
    requires i < |s| && s[i] == '-' && ps.prev == 'd' && ps.on
    requires StrToD(s, i + 1).Real?
    ensures var ps' := Step(s, i, ps, rate, datcnt0, mixCnt).1;
      ps'.st == ps.st.(datcnt := FramesAfter(StrToD(s, i + 1).value, rate, ps.st.datbase))
      && ps'.prev == 'D'
  {
  }

  /** The data length of a 'D' is not the frames of b less the start:
      at 44100 Hz, with the start at -441000 frames, b = -0.00001 gives
      440999 frames, one short of 0 + 441000. */
  lemma DashTruncatesOnce()
    ensures FramesAfter(-0.00001, 44100, -441000) == 440999
    ensures Frames(-0.00001, 44100) - -441000 == 441000
  {
    assert -0.00001 * 44100 as real - -441000 as real == 440999.559;
    assert -0.00001 * 44100 as real == -0.441;
  }

  /** "#n" switches the settings that follow on exactly when n is mix_cnt. */
  lemma HashSelects(s: string, i: nat, ps: ScanState, rate: int, datcnt0: int, mixCnt: int)
    requires i < |s| && s[i] == '#' && StrToD(s, i + 1).Real?
    ensures var ps' := Step(s, i, ps, rate, datcnt0, mixCnt).1;
      (ps'.on <==> StrToD(s, i + 1).value == mixCnt as real) && ps'.st == ps.st
  {
  }

  /** While the settings are switched off, a stretch without '#' leaves
      them as they were. */
  lemma {:induction false} OffKeepsSettings(s: string, i: nat, ps: ScanState, rate: int, datcnt0: int, mixCnt: int)
    requires i <= |s| && !ps.on
    requires forall k :: i <= k < |s| ==> s[k] != '#'
    ensures Scan(s, i, ps, rate, datcnt0, mixCnt).st == ps.st
    decreases |s| - i
  {
    if i < |s| {
      var (j, ps') := Step(s, i, ps, rate, datcnt0, mixCnt);
      assert ps'.st == ps.st && !ps'.on;
      OffKeepsSettings(s, j, ps', rate, datcnt0, mixCnt);
    }
  }

  /** The messages of the checks that end the program. */
  const DivisionByZero := "division by zero"
  const RoundingError := "Internal rounding error in calculating amplitude delta"
  const RangeInvalid := "Source data range invalid in SBAGEN_LOOPER settings"
  const DataTooShort := "Length of source data 'd' too short for fade-length in SBAGEN_LOOPER settings"

  /** The looper settings after the clamps, with what they imply. */
  datatype Config = Config(st: Settings, introCnt: int, delAmp: int)

  /** datcnt after the first two clamps. */
  function ClampedCount(st: Settings, datcnt0: int): int {
    if st.datcnt + st.datbase > datcnt0 then datcnt0 - st.datbase else st.datcnt
  }

  /** fade after its lower bound of 1/50 s. */
  function ClampedFade(st: Settings, rate: int): int {
    if st.fade < CDiv(rate, 50) then CDiv(rate, 50) else st.fade
  }

  /** The segment length range after its clamps: capped at datcnt, seg0
      capped at seg1, raised to three fades, seg1 raised to seg0. */
  function Segments(seg0: int, seg1: int, datcnt: int, fade: int): (r: (int, int))
    requires 3 * fade < datcnt
    ensures 3 * fade <= r.0 <= r.1 <= datcnt
    ensures 3 * fade <= seg0 <= seg1 <= datcnt ==> r == (seg0, seg1)
  {
    var s0 := if seg0 > datcnt then datcnt else seg0;
    var s1 := if seg1 > datcnt then datcnt else seg1;
    var s0' := if s0 > s1 then s1 else s0;
    var s0'' := if s0' < 3 * fade then 3 * fade else s0';
    (s0'', if s1 < s0'' then s0'' else s1)
  }

  /** 0xFFFFFFFFU / fade, refused when fade is 0 modulo 2^32 (the division
      by zero ends the program) or when the step times the fade falls short
      of 0xF0000000 modulo 2^32. */
  function FadeDelta(fade: int): (r: Result<int>)
    ensures r.Ok? ==> 0 < r.value < U32Mod
    ensures r.Ok? ==> r.value * (fade % U32Mod) % U32Mod >= 0xF000_0000
  {
    var fadeU := fade % U32Mod;
    if fadeU == 0 then Err(DivisionByZero)
    else
      var delAmp := (U32Mod - 1) / fadeU;
      if delAmp * fadeU % U32Mod < 0xF000_0000 then
        Err(RoundingError)
      else Ok(delAmp)
  }

  /** The clamps and checks at the end of flac_looper_init: the fade, the
      data range, the segment range, the intro and the fade step. A failed
      check ends the program. */
  function Clamp(st: Settings, rate: int, datcnt0: int, intro: bool): (r: Result<Config>)
    ensures r.Err? <==>
      var fade := ClampedFade(st, rate);
      var datcnt := ClampedCount(st, datcnt0);
      datcnt < 0 || datcnt <= 3 * fade || FadeDelta(fade).Err?
    ensures r.Ok? ==> ClampedInvariant(r.value.st, rate, datcnt0)
    ensures r.Ok? ==> r.value.st.ch2 == st.ch2 && r.value.st.swap == st.swap
    ensures r.Ok? ==> r.value.st.datbase == st.datbase && r.value.st.fade == ClampedFade(st, rate)
    ensures r.Ok? ==> r.value.introCnt == (if intro && st.datbase > 0 then st.datbase else 0)
    ensures r.Ok? ==> 0 <= r.value.delAmp < U32Mod
    ensures r.Ok? && rate > 0 ==> r.value.st.fade >= 1
  {
    var fade := ClampedFade(st, rate);
    var datcnt := ClampedCount(st, datcnt0);
    if datcnt < 0 then Err(RangeInvalid)
    else if datcnt <= 3 * fade then Err(DataTooShort)
    else
      match FadeDelta(fade)
      case Err(e) => Err(e)
      case Ok(delAmp) => Ok(Settle(st, fade, datcnt, intro, delAmp))
  }

  /** The settings once the checks on the data range have passed: the
      segment range clamped, the intro length, and the fade step halved
      with two channel pairs. */
  function Settle(st: Settings, fade: int, datcnt: int, intro: bool, delAmp: int): (c: Config)
    requires 3 * fade < datcnt && 0 <= delAmp < U32Mod
    ensures c.st.datcnt == datcnt && c.st.fade == fade && 3 * fade <= c.st.seg0 <= c.st.seg1 <= datcnt
    ensures c.st.datbase == st.datbase && c.st.ch2 == st.ch2 && c.st.swap == st.swap
    ensures c.introCnt == (if intro && st.datbase > 0 then st.datbase else 0)
    ensures 0 <= c.delAmp <= delAmp
  {
    var (s0, s1) := Segments(st.seg0, st.seg1, datcnt, fade);
    var introCnt := if intro && st.datbase > 0 then st.datbase else 0;
    Config(st.(seg0 := s0, seg1 := s1, datcnt := datcnt, fade := fade),
           introCnt, if st.ch2 then delAmp / 2 else delAmp)
  }

  /** The settings the looper can work with: the fade at least 1/50 s,
      the data range inside the decoded data and longer than three fades,
      and 3 fades <= seg0 <= seg1 <= datcnt. */
  ghost predicate ClampedInvariant(st: Settings, rate: int, datcnt0: int) {
    st.fade >= CDiv(rate, 50) &&
    st.datbase + st.datcnt <= datcnt0 &&
    0 <= st.datcnt && 3 * st.fade < st.datcnt &&
    3 * st.fade <= st.seg0 <= st.seg1 <= st.datcnt
  }
}
