/** One of the looper's three playback streams (FlacStream in flacdec.c):
    its phases, the frames left until it ends, and the fade envelope it
    mixes its source frames with. All of this is pure arithmetic on the
    stream's fields; the looper's methods apply it in place. */
module FlacStream {
  import opened CText

  const U32Mod: int := 0x1_0000_0000
  const AmpMax: int := 0xFFFF_FFFF

  /** A stream: where its segment starts in the source (off) and where it
      is reading (src), its output channel pair, its phase (mode 0 idle,
      1 waiting, 2 fading in, 3 full, 4 fading out), the frames left in
      that phase, the segment length, and the 32-bit envelope position and
      step. */
  datatype Stream = Stream(off: int, src: int, chan: bool, mode: int, cnt: int,
                           cntAll: int, amp: int, del: int)

  /** memset(&flac_str[a], 0, ...): an idle stream. */
  const Idle: Stream := Stream(0, 0, false, 0, 0, 0, 0, 0)

  predicate Active(s: Stream) {
    s.mode != 0
  }

  /** FLAC_CNT_TO_END: the frames until the stream goes idle. */
  function CntToEnd(s: Stream, fade: int): int {
    if s.mode == 1 then s.cntAll + s.cnt
    else if s.mode == 2 then s.cntAll - fade + s.cnt
    else if s.mode == 3 then fade + s.cnt
    else if s.mode == 4 then s.cnt
    else 0
  }

  /** The envelope position after k steps of del, modulo 2^32. */
  function AmpAfter(amp: int, del: int, k: int): int {
    (amp + k * del) % U32Mod
  }

  /** The stream after k frames of its phase: a waiting stream only counts
      down; the others also read k source frames and step the envelope. */
  function Advance(s: Stream, k: int): Stream {
    if s.mode == 1 then s.(cnt := s.cnt - k)
    else s.(cnt := s.cnt - k, src := s.src + k, amp := AmpAfter(s.amp, s.del, k))
  }

  /** The phase change of a stream whose count reached 0, and whether it
      asks for a reschedule (4 -> 0). */
  function Transition(s: Stream, fade: int, delAmp: int): (r: (Stream, bool))
    ensures r.1 <==> s.mode == 4
  {
    if s.mode == 1 then (s.(mode := 2, cnt := fade, del := delAmp), false)
    else if s.mode == 2 then (s.(mode := 3, cnt := s.cntAll - 2 * fade, del := 0), false)
    else if s.mode == 3 then (s.(mode := 4, cnt := fade, del := (U32Mod - delAmp) % U32Mod), false)
    else if s.mode == 4 then (s.(mode := 0), true)
    else (s, false)
  }

  /** Counting down moves the end nearer by exactly the frames played. */
  lemma AdvanceCntToEnd(s: Stream, fade: int, k: int)
    requires 1 <= s.mode <= 4
    ensures CntToEnd(Advance(s, k), fade) == CntToEnd(s, fade) - k
  {
  }

  /** A phase change at count 0 keeps the frames until the end: waiting,
      fading in, full and fading out add up to the segment length plus the
      wait. */
  lemma TransitionCntToEnd(s: Stream, fade: int, delAmp: int)
    requires Active(s) && s.cnt == 0
    ensures CntToEnd(Transition(s, fade, delAmp).0, fade) == CntToEnd(s, fade)
  {
  }

  /** The phases run 1 -> 2 -> 3 -> 4 -> 0 with the counts and envelope
      steps of flac_looper_read; a stream at 4 goes idle and asks for a
      reschedule. */
  lemma TransitionPhases(s: Stream, fade: int, delAmp: int)
    requires 0 <= delAmp < U32Mod
    ensures var t := Transition(s, fade, delAmp).0;
      (s.mode == 1 ==> t.mode == 2 && t.cnt == fade && t.del == delAmp) &&
      (s.mode == 2 ==> t.mode == 3 && t.cnt == s.cntAll - 2 * fade && t.del == 0) &&
      (s.mode == 3 ==> t.mode == 4 && t.cnt == fade && (t.del + delAmp) % U32Mod == 0) &&
      (s.mode == 4 ==> t.mode == 0) &&
      t.off == s.off && t.src == s.src && t.amp == s.amp && t.cntAll == s.cntAll
  {
  }

  /** The envelope's first stage: (~amp) >> 16 on 32 bits. */
  function Inverse16(amp: int): int {
    (AmpMax - amp) / 0x1_0000
  }

  /** The fade curve: (~(g * g)) >> 21 with g = (~amp) >> 16. */
  function Envelope(amp: int): int
    requires 0 <= amp <= AmpMax
  {
    var g := Inverse16(amp);
    (AmpMax - g * g) / 0x20_0000
  }

  lemma SquareMono(a: int, b: int)
    requires 0 <= a <= b
    ensures a * a <= b * b
  {
    assert a * a <= a * b <= b * b;
  }

  /** The fade curve is 0 at amp 0 (silence), 2047 at full amp, and rises
      with amp in between. */
  lemma EnvelopeShape(amp: int, amp': int)
    requires 0 <= amp <= amp' <= AmpMax
    ensures Envelope(0) == 0 && Envelope(AmpMax) == 2047
    ensures 0 <= Envelope(amp) <= Envelope(amp') <= 2047
  {
    var g := Inverse16(amp);
    var g' := Inverse16(amp');
    assert 0 <= g' <= g <= 0xFFFF;
    SquareMono(g', g);
    SquareMono(g, 0xFFFF);
    assert Inverse16(0) == 0xFFFF && Inverse16(AmpMax) == 0;
  }

  /** The gain: the envelope times flac_mult, as an unsigned int. */
  function Gain(amp: int, mult: int): int
    requires 0 <= amp <= AmpMax
  {
    Envelope(amp) * (mult % U32Mod) % U32Mod
  }

  /** ((int)(x * gain)) >> 11 for an int sample x and an unsigned gain. */
  function Scaled(x: int, gain: int): int {
    Int32Cast((x % U32Mod) * gain % U32Mod) / 0x800
  }

  /** The source frame at index src, or silence outside the data. */
  function SourceFrame(pcm: seq<int>, datcnt0: int, src: int): (int, int)
    requires |pcm| == 2 * datcnt0
  {
    if 0 <= src < datcnt0 then (pcm[2 * src], pcm[2 * src + 1]) else (0, 0)
  }

  /** The pair of ints a fading stream adds for one frame: the source frame
      scaled by the gain, left and right exchanged for a stream on the
      second channel pair when swapping is on. */
  function FrameOut(s: Stream, pcm: seq<int>, datcnt0: int, swap: bool, mult: int): (int, int)
    requires |pcm| == 2 * datcnt0 && 0 <= s.amp <= AmpMax
  {
    var (l, r) := SourceFrame(pcm, datcnt0, s.src);
    var g := Gain(s.amp, mult);
    if s.chan && swap then (Scaled(r, g), Scaled(l, g)) else (Scaled(l, g), Scaled(r, g))
  }

  /** What a stream adds to channel c (0 left, 1 right) of the j-th frame
      of a pass: nothing while idle or waiting, otherwise the output of its
      state j frames on. */
  function Contribution(s: Stream, j: int, c: int, pcm: seq<int>, datcnt0: int, swap: bool, mult: int): int
    requires |pcm| == 2 * datcnt0
  {
    if s.mode == 0 || s.mode == 1 then 0
    else
      var f := FrameOut(Advance(s, j), pcm, datcnt0, swap, mult);
      if c == 0 then f.0 else f.1
  }

  /** One frame of a fading stream in flac_looper_read: amp += del (on
      32 bits), cnt--, src++. */
  function Tick(s: Stream): Stream {
    s.(amp := (s.amp + s.del) % U32Mod, cnt := s.cnt - 1, src := s.src + 1)
  }

  /** k ticks are the stream k frames on. */
  lemma TickAdvance(s: Stream, k: int)
    requires s.mode != 1
    ensures Tick(Advance(s, k)) == Advance(s, k + 1)
  {
    AmpStep(s.amp, s.del, k);
  }

  /** Stepping the envelope once more is AmpAfter one step further. */
  lemma AmpStep(amp: int, del: int, k: int)
    ensures (AmpAfter(amp, del, k) + del) % U32Mod == AmpAfter(amp, del, k + 1)
  {
    var x := amp + k * del;
    assert amp + (k + 1) * del == x + del;
    assert x == U32Mod * (x / U32Mod) + x % U32Mod;
    ModAddMultiple(x % U32Mod + del, x / U32Mod);
  }

  lemma ModAddMultiple(y: int, q: int)
    ensures (y + U32Mod * q) % U32Mod == y % U32Mod
  {
  }
}
