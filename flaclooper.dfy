/** The FLAC looper of flacdec.c: the decoded source played as randomly
    chosen segments that cross-fade into each other, on one channel pair
    (two streams) or on two (three streams, flac_ch2). */
module FlacLooper {
  import opened Wrappers
  import opened CText
  import opened FlacStream
  import opened ZxRand
  import LooperConfig

  /** The two ranges a new segment of cntAll frames may start in beside
      the playing segment [aOff, aOff + aAll): ending before it, or after
      it and inside [0, datcnt). */
  function ClearSpans(aOff: int, aAll: int, cntAll: int, datcnt: int): seq<Span> {
    [Span(0, aOff - cntAll), Span(aOff + aAll, datcnt - cntAll)]
  }

  /** The draw beside a playing segment has room: a segment of cntAll
      frames fits before it, or one fits after it inside the data range
      (the draw's ranges being clipped to int). */
  predicate RoomBeside(aOff: int, aAll: int, cntAll: int, datcnt: int) {
    cntAll < aOff || (aOff + aAll < datcnt - cntAll && aOff + aAll < IntMax)
  }

  /** flac_zxrandM(-1, "rr", 0, aOff - cntAll, aOff + aAll, datcnt - cntAll):
      the drawn start keeps a segment of cntAll frames clear of the playing
      segment [aOff, aOff + aAll) and inside [0, datcnt), or is -1, and it
      is -1 only when neither range has room. */
  lemma DrawClearOfOne(aOff: int, aAll: int, cntAll: int, datcnt: int, v: int)
    requires 0 <= v < SeedMod && 0 <= aOff && 0 <= aAll
    ensures RoomBeside(aOff, aAll, cntAll, datcnt) <==> Total("rr", ClearSpans(aOff, aAll, cntAll, datcnt), 2) > 0
    ensures var x := MultiValue(-1, "rr", ClearSpans(aOff, aAll, cntAll, datcnt), v);
      x == -1 || (0 <= x && x + cntAll < aOff) || (aOff + aAll <= x && x + cntAll < datcnt)
    ensures var x := MultiValue(-1, "rr", ClearSpans(aOff, aAll, cntAll, datcnt), v);
      RoomBeside(aOff, aAll, cntAll, datcnt) ==>
        (0 <= x && x + cntAll < aOff) || (aOff + aAll <= x && x + cntAll < datcnt)
  {
    var args := ClearSpans(aOff, aAll, cntAll, datcnt);
    MultiValueInRange(-1, "rr", args, v);
  }

  /** The ranges flac_zxrandM(-1, "orr", ...) draws a segment length from:
      [seg0, seg1], less the lengths ending within a fade of `end`. */
  function LengthSpans(seg0: int, seg1: int, end: int, fade: int): seq<Span> {
    [Span(seg0, seg1 + 1), Span(seg0, end - fade), Span(end + fade, seg1 + 1)]
  }

  /** Some length in [seg0, seg1] does not end within a fade of `end`. */
  predicate LengthRoom(seg0: int, seg1: int, end: int, fade: int) {
    seg0 <= seg1 && (seg0 < end - fade || end + fade <= seg1)
  }

  /** flac_zxrandM(-1, "orr", seg0, seg1 + 1, seg0, end - fade, end + fade,
      seg1 + 1): a segment length in [seg0, seg1] that does not end within
      a fade of `end` when there is one, otherwise -1. */
  lemma DrawLength(seg0: int, seg1: int, end: int, fade: int, v: int)
    requires 0 <= v < SeedMod
    ensures LengthRoom(seg0, seg1, end, fade) <==> Total("orr", LengthSpans(seg0, seg1, end, fade), 3) > 0
    ensures var x := MultiValue(-1, "orr", LengthSpans(seg0, seg1, end, fade), v);
      x == -1 || (seg0 <= x <= seg1 && (x < end - fade || end + fade <= x))
    ensures var x := MultiValue(-1, "orr", LengthSpans(seg0, seg1, end, fade), v);
      (LengthRoom(seg0, seg1, end, fade) ==> seg0 <= x <= seg1 && (x < end - fade || end + fade <= x)) &&
      (!LengthRoom(seg0, seg1, end, fade) ==> x == -1)
  {
    var args := LengthSpans(seg0, seg1, end, fade);
    MultiValueInRange(-1, "orr", args, v);
    assert Bounds("orr", args, 1) == args[0] && Bounds("orr", args, 2) == args[0];
  }

  /** The draw of the third segment has room: one of cntAll frames fits
      before r0, between r1 and r2, or after r3 inside the data range (the
      draw's ranges being clipped to int). */
  predicate RoomBesideTwo(r0: int, r1: int, r2: int, r3: int, cntAll: int, datcnt: int) {
    cntAll < r0 || (r1 < r2 - cntAll && r1 < IntMax) || (r3 < datcnt - cntAll && r3 < IntMax)
  }

  /** flac_zxrandM(-1, "rrr", 0, r0 - cntAll, r1, r2 - cntAll, r3,
      datcnt - cntAll): a start that keeps the new segment before r0,
      between r1 and r2, or after r3 inside datcnt, or -1, and it is -1
      only when none of the three ranges has room. */
  lemma DrawClearOfTwo(r0: int, r1: int, r2: int, r3: int, cntAll: int, datcnt: int, v: int)
    requires 0 <= v < SeedMod && 0 <= r1 && 0 <= r3
    ensures RoomBesideTwo(r0, r1, r2, r3, cntAll, datcnt) <==>
      Total("rrr", [Span(0, r0 - cntAll), Span(r1, r2 - cntAll), Span(r3, datcnt - cntAll)], 3) > 0
    ensures var x := MultiValue(-1, "rrr", [Span(0, r0 - cntAll), Span(r1, r2 - cntAll), Span(r3, datcnt - cntAll)], v);
      x == -1 || (0 <= x && x + cntAll < r0) || (r1 <= x && x + cntAll < r2) || (r3 <= x && x + cntAll < datcnt)
    ensures var x := MultiValue(-1, "rrr", [Span(0, r0 - cntAll), Span(r1, r2 - cntAll), Span(r3, datcnt - cntAll)], v);
      RoomBesideTwo(r0, r1, r2, r3, cntAll, datcnt) ==>
        (0 <= x && x + cntAll < r0) || (r1 <= x && x + cntAll < r2) || (r3 <= x && x + cntAll < datcnt)
  {
    var args := [Span(0, r0 - cntAll), Span(r1, r2 - cntAll), Span(r3, datcnt - cntAll)];
    MultiValueInRange(-1, "rrr", args, v);
    assert Bounds("rrr", args, 0) == Bounds("rrr", args, 1) == Span(IntMin, IntMax);
    assert Bounds("rrr", args, 2) == Span(IntMin, IntMax);
    assert Total("rrr", args, 1) == ClipAt("rrr", args, 0).Len();
    assert Total("rrr", args, 3) == Total("rrr", args, 1) + ClipAt("rrr", args, 1).Len() +
                                   ClipAt("rrr", args, 2).Len();
  }

  /** max(0, FLAC_CNT_TO_END(aa) - fade): how long a stream started beside
      aa waits, so that its fade-in overlaps aa's fade-out. */
  function WaitBeside(aa: Stream, fade: int): (w: int)
    ensures w >= 0 && w >= CntToEnd(aa, fade) - fade
    ensures w == 0 || w == CntToEnd(aa, fade) - fade
  {
    if CntToEnd(aa, fade) - fade < 0 then 0 else CntToEnd(aa, fade) - fade
  }

  /** Segment b lies clear of aa's segment whenever the draw beside aa has
      room. */
  predicate ClearOf(b: Stream, aa: Stream, st: LooperConfig.Settings) {
    RoomBeside(aa.off, aa.cntAll, b.cntAll, st.datcnt) ==>
      b.off + b.cntAll < aa.off || aa.off + aa.cntAll <= b.off
  }

  /** A stream flac_looper_sched started beside the playing aa: waiting
      and silent until a fade before aa ends, its segment clear of aa's
      when there is room. */
  predicate WaitsBeside(b: Stream, aa: Stream, st: LooperConfig.Settings) {
    b.mode == 1 && b.amp == 0 && b.cnt == WaitBeside(aa, st.fade) && ClearOf(b, aa, st)
  }

  /** A stream flac_looper_sched started with no other playing: first
      after the intro, the full segment from the data's start at full
      amplitude (it ends cntAll frames on); otherwise waiting and silent
      with nothing to wait for. */
  predicate FirstSeg(b: Stream, intro: bool, st: LooperConfig.Settings) {
    if intro then b.off == 0 && b.mode == 3 && b.cnt == b.cntAll - st.fade && b.amp == AmpMax && b.del == 0
    else b.mode == 1 && b.cnt == 0 && b.amp == 0
  }

  /** A stream flac_looper_sched2 started beside aa: on the other channel
      pair, waiting and silent. When some length in [seg0, seg1] keeps its
      end a fade away from aa's it has such a length and starts at once;
      otherwise it has length seg1 and waits until it ends a fade after aa.
      Its segment lies clear of aa's when there is room. */
  predicate PartnerOf(b: Stream, aa: Stream, st: LooperConfig.Settings) {
    var end := CntToEnd(aa, st.fade);
    b.chan == !aa.chan && b.mode == 1 && b.amp == 0 &&
    (if LengthRoom(st.seg0, st.seg1, end, st.fade)
     then b.cnt == 0 && st.seg0 <= b.cntAll <= st.seg1 && (b.cntAll < end - st.fade || end + st.fade <= b.cntAll)
     else b.cntAll == st.seg1 && b.cnt == end + st.fade - st.seg1) &&
    ClearOf(b, aa, st)
  }

  /** Of two streams, the one flac_looper_sched2 takes as ending first
      (aa on a tie). */
  function FirstToEnd(aa: Stream, bb: Stream, fade: int): Stream {
    if CntToEnd(aa, fade) > CntToEnd(bb, fade) then bb else aa
  }

  function LastToEnd(aa: Stream, bb: Stream, fade: int): Stream {
    if CntToEnd(aa, fade) > CntToEnd(bb, fade) then aa else bb
  }

  /** The start off of flac_looper_sched2's third segment, of cntAll
      frames, beside the playing aa and bb, of which f starts first (aa on
      a tie) and g second: when the draw has room, the segment ends before
      f starts, lies between f's end and g's start, or starts at or after
      g's end. */
  predicate InFollowerRanges(off: int, cntAll: int, aa: Stream, bb: Stream, datcnt: int) {
    if aa.off > bb.off then InRangesOfTwo(off, cntAll, bb, aa, datcnt)
    else InRangesOfTwo(off, cntAll, aa, bb, datcnt)
  }

  /** InFollowerRanges with f starting no later than g. */
  predicate InRangesOfTwo(off: int, cntAll: int, f: Stream, g: Stream, datcnt: int) {
    RoomBesideTwo(f.off, f.off + f.cntAll, g.off, g.off + g.cntAll, cntAll, datcnt) ==>
      off + cntAll < f.off || (f.off + f.cntAll <= off && off + cntAll < g.off) || g.off + g.cntAll <= off
  }

  /** The third stream flac_looper_sched2 starts beside aa and bb: on the
      channel pair of the one ending first, waiting until a fade before it
      ends, with a length in [seg0, seg1] whose end keeps a fade away from
      the other's end when there is one, otherwise ending a fade before
      the other (when that leaves more than two fades) or a fade after it,
      and placed in the ranges InFollowerRanges names. */
  predicate FollowerOf(c: Stream, aa: Stream, bb: Stream, st: LooperConfig.Settings) {
    var f := FirstToEnd(aa, bb, st.fade);
    var end := CntToEnd(LastToEnd(aa, bb, st.fade), st.fade) - c.cnt;
    c.chan == f.chan && c.mode == 1 && c.amp == 0 && c.cnt == CntToEnd(f, st.fade) - st.fade &&
    (if LengthRoom(st.seg0, st.seg1, end, st.fade)
     then st.seg0 <= c.cntAll <= st.seg1 && (c.cntAll < end - st.fade || end + st.fade <= c.cntAll)
     else c.cntAll == (if end - st.fade > 2 * st.fade then end - st.fade else end + st.fade)) &&
    InFollowerRanges(c.off, c.cntAll, f, LastToEnd(aa, bb, st.fade), st.datcnt)
  }

  /** Which of the two playing streams is named first does not matter:
      the follower of the two taken in the order of their ends is their
      follower. */
  lemma FollowerOfOrdered(c: Stream, aa: Stream, bb: Stream, st: LooperConfig.Settings)
    requires FollowerOf(c, FirstToEnd(aa, bb, st.fade), LastToEnd(aa, bb, st.fade), st)
    ensures FollowerOf(c, aa, bb, st)
  {
  }

  /** A partner never ends within less than a fade of the stream it was
      started beside. */
  lemma PartnerEndsApart(b: Stream, aa: Stream, st: LooperConfig.Settings)
    requires PartnerOf(b, aa, st)
    ensures CntToEnd(b, st.fade) < CntToEnd(aa, st.fade) - st.fade ||
            CntToEnd(aa, st.fade) + st.fade <= CntToEnd(b, st.fade)
  {
  }

  /** The follower fades in as the first of the two others fades out, and
      never ends within less than a fade of the other one. */
  lemma FollowerEndsApart(c: Stream, aa: Stream, bb: Stream, st: LooperConfig.Settings)
    requires FollowerOf(c, aa, bb, st)
    ensures CntToEnd(c, st.fade) - c.cntAll == CntToEnd(FirstToEnd(aa, bb, st.fade), st.fade) - st.fade
    ensures var g := CntToEnd(LastToEnd(aa, bb, st.fade), st.fade);
      CntToEnd(c, st.fade) <= g - st.fade || g + st.fade <= CntToEnd(c, st.fade)
  {
  }

  /** Slot i after some turns of flac_looper_sched2 that began with the
      slots holding s0 and now hold s: a stream that was playing is kept,
      an idle slot is untouched, and a stream started there (other than
      the follower in slot k) is a partner of beside[i], which is the
      stream in slot side[i] now or, if that slot was idle then, as it was
      in s0. */
  predicate SlotSince(i: int, s0: seq<Stream>, s: seq<Stream>, side: seq<int>, beside: seq<Stream>, k: int,
                      st: LooperConfig.Settings)
    requires 0 <= i < 3 && |s0| == 3 && |s| == 3 && |side| == 3 && |beside| == 3
  {
    (Active(s0[i]) ==> s[i] == s0[i]) &&
    (!Active(s[i]) ==> s[i] == s0[i]) &&
    (i != k && !Active(s0[i]) && Active(s[i]) ==>
      0 <= side[i] < 3 && side[i] != i && PartnerOf(s[i], beside[i], st) &&
      (beside[i] == s[side[i]] || beside[i] == s0[side[i]]))
  }

  /** Starting a stream x in the idle slot j keeps every other slot as
      SlotSince says. */
  lemma SlotKept(i: int, j: int, s0: seq<Stream>, pre: seq<Stream>, x: Stream,
                 side0: seq<int>, beside0: seq<Stream>, k0: int, side: seq<int>, beside: seq<Stream>, k: int,
                 st: LooperConfig.Settings)
    requires 0 <= i < 3 && 0 <= j < 3 && i != j && |s0| == 3 && |pre| == 3
    requires |side0| == 3 && |beside0| == 3 && |side| == 3 && |beside| == 3
    requires side[i] == side0[i] && beside[i] == beside0[i] && (i != k <==> i != k0)
    requires !Active(pre[j]) && pre[j] == s0[j]
    requires SlotSince(i, s0, pre, side0, beside0, k0, st)
    ensures SlotSince(i, s0, pre[j := x], side, beside, k, st)
  {
  }

  /** The stream x started in the idle slot j: a partner of the stream in
      slot side[j] as it was before the turn, or the follower (k == j). */
  lemma SlotStarted(j: int, s0: seq<Stream>, pre: seq<Stream>, x: Stream,
                    side: seq<int>, beside: seq<Stream>, k: int, st: LooperConfig.Settings)
    requires 0 <= j < 3 && |s0| == 3 && |pre| == 3 && |side| == 3 && |beside| == 3
    requires !Active(pre[j]) && pre[j] == s0[j] && Active(x)
    requires j != k ==> 0 <= side[j] < 3 && side[j] != j && beside[j] == pre[side[j]] && PartnerOf(x, beside[j], st)
    ensures SlotSince(j, s0, pre[j := x], side, beside, k, st)
  {
  }

  /** A stream flac_looper_sched2 just started: waiting, silent, reading
      from its segment start, which lies at or after the data start, and
      with a segment of at least two fades. */
  predicate Begun(s: Stream, st: LooperConfig.Settings) {
    s.mode == 1 && s.amp == 0 && 0 <= s.off && s.src == st.datbase + s.off &&
    2 * st.fade <= s.cntAll && 0 <= s.del < U32Mod
  }

  /** The idle slots of three. */
  function IdleSlots(s: seq<Stream>): nat
    requires |s| == 3
  {
    (if Active(s[0]) then 0 else 1) + (if Active(s[1]) then 0 else 1) + (if Active(s[2]) then 0 else 1)
  }

  /** The record of flac_looper_sched2's turns: for each slot started as
      a partner, the slot it was started beside (side) and that slot's
      stream then (beside); the follower's slot k (-1 before one starts)
      and the slots a and b it follows. */
  datatype Sched2Log = Sched2Log(side: seq<int>, beside: seq<Stream>, k: int, a: int, b: int)

  /** What flac_looper_sched2 has done since the slots held s0 and now
      that they hold s: every slot as SlotSince says, every stream started
      Begun, the stream in slot k (if any) the last started, following the
      streams in slots a and b, and no follower started only when all
      three slots were playing or some slot is still idle. */
  predicate Sched2Since(s0: seq<Stream>, s: seq<Stream>, log: Sched2Log, st: LooperConfig.Settings)
    requires |s0| == 3 && |s| == 3
  {
    match log
    case Sched2Log(side, beside, k, a, b) =>
      |side| == 3 && |beside| == 3 && k < 3 &&
      (forall i :: 0 <= i < 3 ==> SlotSince(i, s0, s, side, beside, k, st)) &&
      (forall i :: 0 <= i < 3 && !Active(s0[i]) && Active(s[i]) ==> Begun(s[i], st)) &&
      (0 <= k ==>
        !Active(s0[k]) && 0 <= a < 3 && 0 <= b < 3 && a != b && a != k && b != k &&
        FollowerOf(s[k], s[a], s[b], st) && IdleSlots(s) == 0) &&
      (k < 0 && IdleSlots(s) == 0 ==> Active(s0[0]) && Active(s0[1]) && Active(s0[2]))
  }

  /** Before the first turn nothing has been started. */
  lemma Sched2Begins(s0: seq<Stream>, st: LooperConfig.Settings)
    requires |s0| == 3
    ensures Sched2Since(s0, s0, Sched2Log([0, 0, 0], [Idle, Idle, Idle], -1, 0, 0), st)
  {
  }

  /** Every stream playing at the start is kept and every stream started
      is Begun; once every slot plays, a follower was started exactly when
      some slot was idle at the start. */
  lemma Sched2Ends(s0: seq<Stream>, s: seq<Stream>, log: Sched2Log, st: LooperConfig.Settings)
    requires |s0| == 3 && |s| == 3 && Sched2Since(s0, s, log, st)
    ensures forall i :: 0 <= i < 3 && Active(s0[i]) ==> s[i] == s0[i]
    ensures forall i :: 0 <= i < 3 && !Active(s0[i]) && Active(s[i]) ==> Begun(s[i], st)
    ensures IdleSlots(s) == 0 ==> (0 <= log.k <==> !(Active(s0[0]) && Active(s0[1]) && Active(s0[2])))
  {
    forall i | 0 <= i < 3
      ensures Active(s0[i]) ==> s[i] == s0[i]
    {
      assert SlotSince(i, s0, s, log.side, log.beside, log.k, st);
    }
  }

  /** The log after a turn that started a stream in slot j: the follower
      of the streams in slots ta and tb, or a partner of the stream in
      slot ta. */
  function Logged(log: Sched2Log, pre: seq<Stream>, j: int, ta: int, tb: int, follower: bool): Sched2Log
    requires 0 <= j < |log.side| && 0 <= j < |log.beside| && 0 <= ta < |pre|
  {
    if follower then log.(k := j, a := ta, b := tb)
    else log.(side := log.side[j := ta], beside := log.beside[j := pre[ta]])
  }

  /** A turn keeps Sched2Since: a partner x started in the idle slot j
      beside the stream in slot ta, leaving a slot idle, or the follower x
      started in the last idle slot j beside the playing streams in slots
      ta and tb. */
  lemma TurnKept(s0: seq<Stream>, pre: seq<Stream>, j: int, x: Stream, ta: int, tb: int, follower: bool,
                 log: Sched2Log, st: LooperConfig.Settings)
    requires |s0| == 3 && |pre| == 3 && 0 <= j < 3 && 0 <= ta < 3 && 0 <= tb < 3
    requires j != ta && j != tb && ta != tb && log.k < 0
    requires Sched2Since(s0, pre, log, st)
    requires !Active(pre[j]) && Active(x) && Begun(x, st)
    requires follower ==> Active(pre[ta]) && Active(pre[tb]) && FollowerOf(x, pre[ta], pre[tb], st)
    requires !follower ==> PartnerOf(x, pre[ta], st) && IdleSlots(pre[j := x]) > 0
    ensures Sched2Since(s0, pre[j := x], Logged(log, pre, j, ta, tb, follower), st)
  {
    var side, beside, k := log.side, log.beside, log.k;
    var next := Logged(log, pre, j, ta, tb, follower);
    var s := pre[j := x];
    assert SlotSince(j, s0, pre, side, beside, k, st);
    forall i | 0 <= i < 3
      ensures SlotSince(i, s0, s, next.side, next.beside, next.k, st)
    {
      if i == j {
        SlotStarted(j, s0, pre, x, next.side, next.beside, next.k, st);
      } else {
        assert SlotSince(i, s0, pre, side, beside, k, st);
        SlotKept(i, j, s0, pre, x, side, beside, k, next.side, next.beside, next.k, st);
      }
    }
  }

  /** A stream's unsigned fields in range, its segment start and length
      not negative, an active one's length at least two fades with a phase
      of 1 to 4, and with one channel pair an active stream's count not
      negative and its segment inside the data range; a slot not in use is
      idle. */
  ghost predicate StreamFits(s: Stream, st: LooperConfig.Settings, inUse: bool) {
    0 <= s.amp < U32Mod && 0 <= s.del < U32Mod && 0 <= s.off && 0 <= s.cntAll &&
    0 <= s.mode <= 4 &&
    (Active(s) ==> 2 * st.fade <= s.cntAll) &&
    (!st.ch2 && Active(s) ==> 0 <= s.cnt && s.off + s.cntAll <= st.datcnt) &&
    (!inUse ==> !Active(s))
  }

  /** A pass keeps a stream fitting the settings. */
  lemma PassFits(s: Stream, st: LooperConfig.Settings, inUse: bool, len: int, delAmp: int)
    requires StreamFits(s, st, inUse) && 0 <= len && (Active(s) ==> len <= s.cnt)
    requires 0 <= delAmp < U32Mod && 0 <= st.fade
    ensures StreamFits(AfterPass(s, len, st.fade, delAmp), st, inUse)
  {
  }

  /** The message of sched2's internal check, and the stop of a pass on
      a waiting stream with a negative count. */
  const SameChan := "UNEXPECTED: internal error, flac_looper_sched2(), aa/bb on same chan"
  const NegativeWait := "negative count of a waiting stream"

  class Looper {
    /** flac_pcm: two ints per frame, datcnt0 frames. */
    const pcm: seq<int>
    const datcnt0: int
    const datrate: int
    const mult: int
    /** flac_seg0/1, flac_datbase, flac_datcnt, flac_fade_cnt, flac_ch2,
        flac_ch2_swap. */
    var st: LooperConfig.Settings
    var delAmp: int
    var introCnt: int
    var introPos: int
    var introFirstSeg: bool
    /** flac_str[3]. */
    const str: array<Stream>
    const rng: Rng

    /** What the decoded data guarantees. */
    predicate Fixed() {
      str.Length == 3 && |pcm| == 2 * datcnt0 && 0 <= datcnt0 && datrate > 0
    }

    /** A stream slot in use: both slots of one channel pair, all three
        with two. */
    predicate InUse(i: int)
      reads this`st
    {
      st.ch2 || i < 2
    }

    /** Slot i holds a stream that fits the settings. */
    ghost predicate StreamOk(i: int)
      requires Fixed() && 0 <= i < 3
      reads this`st, str
    {
      StreamFits(str[i], st, InUse(i))
    }

    /** The settings after the clamps, the fade step and the intro. */
    ghost predicate Settled()
      reads this`st, this`delAmp, this`introCnt, this`introPos
    {
      Fixed() && LooperConfig.ClampedInvariant(st, datrate, datcnt0) && st.fade >= 1 &&
      0 <= delAmp < U32Mod &&
      0 <= introPos && 0 <= introCnt && introPos + introCnt <= datcnt0
    }

    ghost predicate StreamsOk()
      reads this`st, str
    {
      Fixed() && StreamOk(0) && StreamOk(1) && StreamOk(2)
    }

    ghost predicate Valid()
      reads this`st, this`delAmp, this`introCnt, this`introPos, str, rng
    {
      Settled() && StreamsOk() && rng.Valid()
    }

    /** Every slot in use is playing. */
    ghost predicate Running()
      requires Fixed()
      reads this`st, str
    {
      forall i :: 0 <= i < 3 ==> (Active(str[i]) <==> InUse(i))
    }

    /** A stream just started: waiting (or, first after the intro, full),
        with a count not negative, its segment start in the data, reading
        from it. */
    ghost predicate Started(s: Stream)
      reads this`st
    {
      (s.mode == 1 || s.mode == 3) && 0 <= s.cnt && 0 <= s.off &&
      s.src == st.datbase + s.off && 2 * st.fade <= s.cntAll &&
      0 <= s.amp < U32Mod && 0 <= s.del < U32Mod
    }

    /** A started stream whose segment length lies in [seg0, seg1] and
        whose segment lies inside the data range. */
    ghost predicate Placed(s: Stream)
      reads this`st
    {
      Started(s) && st.seg0 <= s.cntAll <= st.seg1 && s.off + s.cntAll <= st.datcnt
    }

    constructor (pcm: seq<int>, datcnt0: int, datrate: int, mult: int)
      requires |pcm| == 2 * datcnt0 && 0 <= datcnt0 && datrate > 0
      ensures Fixed() && fresh(str) && fresh(rng)
      ensures this.pcm == pcm && this.datcnt0 == datcnt0 && this.datrate == datrate && this.mult == mult
    {
      this.pcm := pcm;
      this.datcnt0 := datcnt0;
      this.datrate := datrate;
      this.mult := mult;
      st := LooperConfig.Defaults(datcnt0, datrate);
      str := new Stream[3](_ => Idle);
      rng := new Rng();
    }

    /** flac_looper_init: the random seed from the clock (now), the
        settings scanned from the SBAGEN_LOOPER string and clamped, the
        streams idle, and the first schedule unless an intro plays first.
        A setting the clamps refuse ends the program (err). */
    method Init(looper: string, mixCnt: int, now: int) returns (err: Option<string>)
      requires Fixed()
      modifies this, str, rng
      ensures var c := LooperConfig.Clamp(LooperConfig.Parse(looper, datrate, datcnt0, mixCnt),
                                          datrate, datcnt0, LooperConfig.Intro(looper));
        (c.Err? ==> err == Some(c.error) && rng.seed == now % SeedMod) &&
        (c.Ok? ==> st == c.value.st && delAmp == c.value.delAmp && introCnt == c.value.introCnt &&
                   introPos == 0)
      ensures err.None? ==> Valid() && (introCnt == 0 ==> Running())
      ensures err.None? && introCnt != 0 ==>
        introFirstSeg && rng.seed == now % SeedMod && forall i :: 0 <= i < 3 ==> str[i] == Idle
    {
      rng.Seed(now);
      var intro := LooperConfig.Intro(looper);
      var cur := ScanSettings(looper, datrate, datcnt0, mixCnt);
      var c := LooperConfig.Clamp(cur, datrate, datcnt0, intro);
      if c.Err? {
        return Some(c.error);
      }
      Setup(c.value);
      err := None;
      if introCnt == 0 {
        ghost var log;
        err, log := Schedule();
      }
    }

    /** The end of flac_looper_init before the schedule: the clamped
        settings in place, the intro at the data's start, the streams
        idle. */
    method Setup(c: LooperConfig.Config)
      requires Fixed() && rng.Valid()
      requires LooperConfig.ClampedInvariant(c.st, datrate, datcnt0) && c.st.fade >= 1
      requires 0 <= c.delAmp < U32Mod && 0 <= c.introCnt && (c.introCnt == 0 || c.introCnt == c.st.datbase)
      modifies this`st, this`delAmp, this`introCnt, this`introPos, this`introFirstSeg, str
      ensures Valid() && st == c.st && delAmp == c.delAmp && introCnt == c.introCnt && introPos == 0
      ensures introFirstSeg <==> introCnt != 0
      ensures forall i :: 0 <= i < 3 ==> str[i] == Idle
    {
      st := c.st;
      delAmp := c.delAmp;
      introCnt := c.introCnt;
      introPos := 0;
      introFirstSeg := introCnt != 0;
      str[0] := Idle;
      str[1] := Idle;
      str[2] := Idle;
      assert StreamOk(0) && StreamOk(1) && StreamOk(2);
    }

    /** The start of a new segment of cntAll frames: drawn clear of the
        playing segment of aa when there is one (a result of -1 from the
        draw means no room), otherwise anywhere in the data range. */
    method DrawOffset(aa: Stream, hasA: bool, cntAll: int) returns (off: int)
      requires Settled() && rng.Valid() && 0 <= aa.off && 0 <= aa.cntAll && 0 <= cntAll <= st.datcnt
      requires hasA ==> aa.off + aa.cntAll <= st.datcnt
      modifies rng
      ensures rng.Valid() && 0 <= off && off + cntAll <= st.datcnt
      ensures hasA && RoomBeside(aa.off, aa.cntAll, cntAll, st.datcnt) ==>
        off + cntAll < aa.off || aa.off + aa.cntAll <= off
    {
      off := -1;
      if hasA {
        var args := ClearSpans(aa.off, aa.cntAll, cntAll, st.datcnt);
        assert WellFormed("rr");
        var m := rng.Multi(-1, "rr", args);
        DrawClearOfOne(aa.off, aa.cntAll, cntAll, st.datcnt, rng.seed);
        off := m.value;
      }
      if off < 0 {
        off := rng.Range(0, st.datcnt - cntAll);
      }
    }

    /** The stream flac_looper_sched starts in an idle slot holding b0,
        beside aa (playing when hasA): it waits until a fade before aa
        ends, or, first after the intro, plays the data at full amplitude
        from its start. */
    method NewStream(aa: Stream, hasA: bool, b0: Stream) returns (b: Stream)
      requires Settled() && rng.Valid() && 0 <= aa.off && 0 <= aa.cntAll && 0 <= b0.del < U32Mod
      requires hasA ==> aa.off + aa.cntAll <= st.datcnt
      modifies rng, this`introFirstSeg
      ensures rng.Valid() && Placed(b) && b.chan == b0.chan
      ensures hasA ==> b.mode == 1
      ensures hasA ==> WaitsBeside(b, aa, st) && b.del == b0.del && introFirstSeg == old(introFirstSeg)
      ensures !hasA ==> FirstSeg(b, old(introFirstSeg), st) && !introFirstSeg
      ensures !hasA && !old(introFirstSeg) ==> b.del == b0.del
    {
      var mode, cnt, amp, del := 1, 0, 0, b0.del;
      if hasA {
        cnt := CntToEnd(aa, st.fade) - st.fade;
        if cnt < 0 { cnt := 0; }
      }
      var cntAll := rng.Range(st.seg0, st.seg1 + 1);
      var off := -1;
      if !hasA && introFirstSeg {
        off, mode, cnt, amp, del := 0, 3, cntAll - st.fade, AmpMax, 0;
        introFirstSeg := false;
      } else {
        off := DrawOffset(aa, hasA, cntAll);
      }
      b := Stream(off, st.datbase + off, b0.chan, mode, cnt, cntAll, amp, del);
    }

    /** One turn of flac_looper_sched with one channel pair: slot ib is
        idle and slot ia is the other; it starts a stream in slot ib. */
    method StartOne(ia: int, ib: int)
      requires Valid() && !st.ch2 && 0 <= ia < 2 && 0 <= ib < 2 && ia != ib && !Active(str[ib])
      modifies str, rng, this`introFirstSeg
      ensures Valid() && Placed(str[ib])
      ensures forall i :: 0 <= i < 3 && i != ib ==> str[i] == old(str[i])
      ensures Active(str[ia]) ==> str[ib].mode == 1
      ensures Active(str[ia]) ==> WaitsBeside(str[ib], str[ia], st) && introFirstSeg == old(introFirstSeg)
      ensures !Active(str[ia]) ==> FirstSeg(str[ib], old(introFirstSeg), st) && !introFirstSeg
    {
      var b := NewStream(str[ia], Active(str[ia]), str[ib]);
      str[ib] := b;
    }

    /** flac_looper_sched with one channel pair: start streams in the idle
        slots until both slots are playing; playing streams are kept. A
        slot started beside a playing stream waits until a fade before
        that stream ends; with both slots idle the second slot starts
        first, with nothing to wait for (or as the intro's full first
        segment), and the first slot then waits beside it. */
    method Sched1()
      requires Valid() && !st.ch2
      modifies str, rng, this`introFirstSeg
      ensures Valid() && Running()
      ensures forall i :: 0 <= i < 3 && Active(old(str[i])) ==> str[i] == old(str[i])
      ensures forall i :: 0 <= i < 3 && !Active(old(str[i])) && Active(str[i]) ==> Placed(str[i])
      ensures !Active(old(str[0])) ==> WaitsBeside(str[0], str[1], st)
      ensures !Active(old(str[1])) && Active(old(str[0])) ==> WaitsBeside(str[1], str[0], st)
      ensures !Active(old(str[1])) && !Active(old(str[0])) ==> FirstSeg(str[1], old(introFirstSeg), st)
      ensures introFirstSeg == (old(introFirstSeg) && (Active(old(str[0])) || Active(old(str[1]))))
    {
      while !(Active(str[0]) && Active(str[1]))
        invariant Valid()
        invariant forall i :: 0 <= i < 3 && Active(old(str[i])) ==> str[i] == old(str[i])
        invariant forall i :: 0 <= i < 3 && !Active(old(str[i])) && Active(str[i]) ==> Placed(str[i])
        invariant forall i :: 0 <= i < 3 && !InUse(i) ==> str[i] == old(str[i])
        invariant forall i :: 0 <= i < 3 && !Active(str[i]) ==> str[i] == old(str[i])
        invariant !Active(old(str[0])) && Active(str[0]) ==> Active(str[1]) && WaitsBeside(str[0], str[1], st)
        invariant !Active(old(str[1])) && Active(str[1]) && Active(old(str[0])) ==> WaitsBeside(str[1], str[0], st)
        invariant !Active(old(str[1])) && Active(str[1]) && !Active(old(str[0])) ==>
          FirstSeg(str[1], old(introFirstSeg), st)
        invariant introFirstSeg == (old(introFirstSeg) &&
          !(!Active(old(str[0])) && !Active(old(str[1])) && Active(str[1])))
        decreases (if Active(str[0]) then 0 else 1) + (if Active(str[1]) then 0 else 1)
      {
        var ia, ib := 0, 1;
        if Active(str[1]) && !Active(str[0]) {
          ia, ib := 1, 0;
        }
        StartOne(ia, ib);
      }
    }

    /** The slot order of one turn of flac_looper_sched2: the three swaps
        put playing slots first. */
    method Order() returns (ia: int, ib: int, ic: int)
      requires Fixed() && !(Active(str[0]) && Active(str[1]) && Active(str[2]))
      ensures 0 <= ia < 3 && 0 <= ib < 3 && 0 <= ic < 3 && ia != ib && ib != ic && ia != ic
      ensures Active(str[ib]) ==> Active(str[ia]) && !Active(str[ic])
      ensures !Active(str[ib]) ==> !Active(str[ic])
    {
      ia, ib, ic := 0, 1, 2;
      if !Active(str[ia]) && Active(str[ib]) {
        ia, ib := ib, ia;
      }
      if !Active(str[ia]) && Active(str[ic]) {
        ia, ic := ic, ia;
      }
      if !Active(str[ib]) && Active(str[ic]) {
        ib, ic := ic, ib;
      }
    }

    /** The stream flac_looper_sched2 starts in the idle slot bb holding
        b0, beside aa (a slot that may itself be idle): on the other
        channel pair, waiting, with a length in [seg0, seg1] that does not
        end within a fade of aa's end when the draw allows it (otherwise
        seg1, starting later by what ends past seg1). */
    method NewPartner(aa: Stream, b0: Stream) returns (b: Stream)
      requires Settled() && rng.Valid() && 0 <= aa.off && 0 <= aa.cntAll && 0 <= b0.del < U32Mod
      modifies rng
      ensures rng.Valid() && Begun(b, st) && 0 <= b.cnt && b.chan == !aa.chan
      ensures st.seg0 <= b.cntAll <= st.seg1
      ensures PartnerOf(b, aa, st) && b.del == b0.del
    {
      var cnt := 0;
      var end := CntToEnd(aa, st.fade);
      var args := LengthSpans(st.seg0, st.seg1, end, st.fade);
      assert WellFormed("orr");
      var m := rng.Multi(-1, "orr", args);
      DrawLength(st.seg0, st.seg1, end, st.fade, rng.seed);
      var cntAll := m.value;
      if cntAll < 0 {
        cnt := end + st.fade - st.seg1;
        cntAll := st.seg1;
      }
      if cnt < 0 { cnt := 0; }
      var off := DrawPartnerOffset(aa, cntAll);
      b := Stream(off, st.datbase + off, !aa.chan, 1, cnt, cntAll, 0, b0.del);
    }

    /** The start of flac_looper_sched2's new segment beside aa: clear of
        aa's segment when the draw allows it, otherwise anywhere in the
        data range. */
    method DrawPartnerOffset(aa: Stream, cntAll: int) returns (off: int)
      requires Settled() && rng.Valid() && 0 <= aa.off && 0 <= aa.cntAll && 0 <= cntAll
      modifies rng
      ensures rng.Valid() && 0 <= off
      ensures RoomBeside(aa.off, aa.cntAll, cntAll, st.datcnt) ==>
        off + cntAll < aa.off || aa.off + aa.cntAll <= off
    {
      var args := ClearSpans(aa.off, aa.cntAll, cntAll, st.datcnt);
      assert WellFormed("rr");
      var m := rng.Multi(-1, "rr", args);
      DrawClearOfOne(aa.off, aa.cntAll, cntAll, st.datcnt, rng.seed);
      off := m.value;
      if off < 0 {
        off := rng.Range(0, st.datcnt - cntAll);
      }
    }

    /** The segment length of flac_looper_sched2's third stream, whose end
        lies `end` frames after its start: one not ending within a fade of
        `end` when the draw allows it, otherwise a fade before `end` when
        that leaves more than two fades, else a fade after it. */
    method FollowerLength(end: int) returns (cntAll: int)
      requires Settled() && rng.Valid() && st.fade <= end
      modifies rng
      ensures rng.Valid() && 2 * st.fade <= cntAll
      ensures LengthRoom(st.seg0, st.seg1, end, st.fade) ==>
        st.seg0 <= cntAll <= st.seg1 && (cntAll < end - st.fade || end + st.fade <= cntAll)
      ensures !LengthRoom(st.seg0, st.seg1, end, st.fade) ==>
        cntAll == (if end - st.fade > 2 * st.fade then end - st.fade else end + st.fade)
    {
      var args := LengthSpans(st.seg0, st.seg1, end, st.fade);
      assert WellFormed("orr");
      var m := rng.Multi(-1, "orr", args);
      DrawLength(st.seg0, st.seg1, end, st.fade, rng.seed);
      cntAll := m.value;
      if cntAll < 0 {
        if end - st.fade > st.fade * 2 {
          cntAll := end - st.fade;
        } else {
          cntAll := end + st.fade;
        }
      }
    }

    /** The third stream of flac_looper_sched2, in the idle slot holding
        c0: on aa's channel pair (aa ends no later than bb), waiting until
        a fade before aa ends, placed in the ranges the draw beside both
        playing segments offers when it has room. */
    method NewFollower(aa: Stream, bb: Stream, c0: Stream) returns (c: Stream)
      requires Settled() && rng.Valid() && 0 <= c0.del < U32Mod
      requires 0 <= aa.off && 0 <= aa.cntAll && 0 <= bb.off && 0 <= bb.cntAll
      requires CntToEnd(aa, st.fade) <= CntToEnd(bb, st.fade)
      modifies rng
      ensures rng.Valid() && Begun(c, st) && c.chan == aa.chan
      ensures c.cnt == CntToEnd(aa, st.fade) - st.fade
      ensures FollowerOf(c, aa, bb, st) && c.del == c0.del
    {
      var cnt := CntToEnd(aa, st.fade) - st.fade;
      var end := CntToEnd(bb, st.fade) - cnt;
      var cntAll := FollowerLength(end);
      var off := DrawFollowerOffset(aa, bb, cntAll);
      c := Stream(off, st.datbase + off, aa.chan, 1, cnt, cntAll, 0, c0.del);
    }

    /** The start of flac_looper_sched2's third segment: before the
        playing segment that starts first, between the two, or after the
        second when the draw has room, otherwise anywhere in the data
        range. */
    method DrawFollowerOffset(aa: Stream, bb: Stream, cntAll: int) returns (off: int)
      requires Settled() && rng.Valid() && 0 <= aa.off && 0 <= aa.cntAll && 0 <= bb.off && 0 <= bb.cntAll
      modifies rng
      ensures rng.Valid() && 0 <= off
      ensures InFollowerRanges(off, cntAll, aa, bb, st.datcnt)
    {
      var f, g := aa, bb;
      if aa.off > bb.off {
        f, g := bb, aa;
      }
      var r0, r1, r2, r3 := f.off, f.off + f.cntAll, g.off, g.off + g.cntAll;
      var args := [Span(0, r0 - cntAll), Span(r1, r2 - cntAll), Span(r3, st.datcnt - cntAll)];
      assert WellFormed("rrr");
      var m := rng.Multi(-1, "rrr", args);
      DrawClearOfTwo(r0, r1, r2, r3, cntAll, st.datcnt, rng.seed);
      off := m.value;
      if off < 0 {
        assert !RoomBesideTwo(r0, r1, r2, r3, cntAll, st.datcnt);
        off := rng.Range(0, st.datcnt - cntAll);
      }
      assert InRangesOfTwo(off, cntAll, f, g, st.datcnt);
    }

    /** flac_looper_sched2's turn for an idle slot ib beside slot ia. */
    method StartPartner(ia: int, ib: int)
      requires Valid() && st.ch2 && 0 <= ia < 3 && 0 <= ib < 3 && !Active(str[ib])
      modifies str, rng
      ensures Valid() && Begun(str[ib], st)
      ensures forall i :: 0 <= i < 3 && i != ib ==> str[i] == old(str[i])
      ensures PartnerOf(str[ib], old(str[ia]), st)
    {
      var b := NewPartner(str[ia], str[ib]);
      str[ib] := b;
    }

    /** flac_looper_sched2's turn for the idle slot ic beside playing ia
        and ib, taken in the order of their ends. */
    method StartFollower(ia: int, ib: int, ic: int)
      requires Valid() && st.ch2 && 0 <= ia < 3 && 0 <= ib < 3 && 0 <= ic < 3 && !Active(str[ic])
      modifies str, rng
      ensures Valid() && Begun(str[ic], st)
      ensures forall i :: 0 <= i < 3 && i != ic ==> str[i] == old(str[i])
      ensures FollowerOf(str[ic], old(str[ia]), old(str[ib]), st)
    {
      var aa, bb := str[ia], str[ib];
      if CntToEnd(aa, st.fade) > CntToEnd(bb, st.fade) {
        aa, bb := bb, aa;
      }
      assert aa == FirstToEnd(str[ia], str[ib], st.fade) && bb == LastToEnd(str[ia], str[ib], st.fade);
      var c := NewFollower(aa, bb, str[ic]);
      FollowerOfOrdered(c, str[ia], str[ib], st);
      str[ic] := c;
    }

    /** One turn of flac_looper_sched2's loop, keeping Sched2Since. */
    method Sched2Step(ghost s0: seq<Stream>, ghost log0: Sched2Log) returns (err: Option<string>, ghost log: Sched2Log)
      requires Valid() && st.ch2 && |s0| == 3 && Sched2Since(s0, str[..], log0, st) && IdleSlots(str[..]) > 0
      modifies str, rng
      ensures Valid()
      ensures err.Some? ==> str[..] == old(str[..]) && log == log0
      ensures err.None? ==> Sched2Since(s0, str[..], log, st) && IdleSlots(str[..]) < IdleSlots(old(str[..]))
    {
      var j;
      ghost var ta, tb, follower;
      ghost var pre := str[..];
      assert log0.k < 0;
      j, err, ta, tb, follower := Sched2Turn();
      log := log0;
      if err.None? {
        assert str[..] == pre[j := str[j]] && pre[ta] == str[ta] && pre[tb] == str[tb];
        TurnKept(s0, pre, j, str[j], ta, tb, follower, log0, st);
        log := Logged(log0, pre, j, ta, tb, follower);
      }
    }

    /** flac_looper_sched2, with two channel pairs: start streams in the
        idle slots until all three play, keeping the playing ones; two
        playing streams on the same channel pair are an internal error.
        Every stream started is a partner of log.beside[i], the stream in
        slot log.side[i] as it is now or as it was before the call, except
        the last, which follows the streams in slots log.a and log.b. */
    method Sched2() returns (err: Option<string>, ghost log: Sched2Log)
      requires Valid() && st.ch2
      modifies str, rng
      ensures Valid()
      ensures err.None? ==> Running()
      ensures Sched2Since(old(str[..]), str[..], log, st)
      ensures err.None? ==> (0 <= log.k <==> !(Active(old(str[0])) && Active(old(str[1])) && Active(old(str[2]))))
      ensures forall i :: 0 <= i < 3 && Active(old(str[i])) ==> str[i] == old(str[i])
      ensures forall i :: 0 <= i < 3 && !Active(old(str[i])) && Active(str[i]) ==> Begun(str[i], st)
    {
      ghost var s0 := str[..];
      log := Sched2Log([0, 0, 0], [Idle, Idle, Idle], -1, 0, 0);
      Sched2Begins(s0, st);
      err := None;
      while err.None? && !(Active(str[0]) && Active(str[1]) && Active(str[2]))
        invariant Valid() && s0 == old(str[..]) && Sched2Since(s0, str[..], log, st)
        decreases IdleSlots(str[..]) + (if err.None? then 1 else 0)
      {
        err, log := Sched2Step(s0, log);
      }
      Sched2Ends(s0, str[..], log, st);
    }

    /** The turn of flac_looper_sched2's loop with two streams playing:
        the internal error when both are on one channel pair, otherwise a
        third stream in slot ic. */
    method FollowerTurn(ia: int, ib: int, ic: int) returns (j: int, err: Option<string>)
      requires Valid() && st.ch2 && 0 <= ia < 3 && 0 <= ib < 3 && 0 <= ic < 3 && !Active(str[ic])
      modifies str, rng
      ensures Valid() && j == ic
      ensures forall i :: 0 <= i < 3 && i != j ==> str[i] == old(str[i])
      ensures err.Some? <==> old(str[ia]).chan == old(str[ib]).chan
      ensures err.Some? ==> str[j] == old(str[j])
      ensures err.None? ==> Begun(str[j], st) && FollowerOf(str[j], old(str[ia]), old(str[ib]), st)
    {
      j := ic;
      if str[ia].chan == str[ib].chan {
        return j, Some(SameChan);
      }
      StartFollower(ia, ib, ic);
      err := None;
    }

    /** One turn of flac_looper_sched2's loop: it starts a stream in the
        idle slot j, or stops on two playing streams on one channel pair. */
    method Sched2Turn() returns (j: int, err: Option<string>, ghost a: int, ghost b: int, ghost follower: bool)
      requires Valid() && st.ch2 && !(Active(str[0]) && Active(str[1]) && Active(str[2]))
      modifies str, rng
      ensures Valid() && 0 <= j < 3 && 0 <= a < 3 && 0 <= b < 3 && a != j && b != j && a != b
      ensures forall i :: 0 <= i < 3 && i != j ==> str[i] == old(str[i])
      ensures err.Some? ==> str[..] == old(str[..]) && follower
      ensures err.Some? ==> Active(str[a]) && Active(str[b]) && str[a].chan == str[b].chan
      ensures err.None? ==> !Active(old(str[j])) && Begun(str[j], st)
      ensures err.None? && !follower ==>
        PartnerOf(str[j], str[a], st) && !(Active(str[0]) && Active(str[1]) && Active(str[2]))
      ensures err.None? && follower ==>
        Active(str[a]) && Active(str[b]) && FollowerOf(str[j], str[a], str[b], st)
    {
      var ia, ib, ic := Order();
      a, b := ia, ic;
      if !Active(str[ib]) {
        StartPartner(ia, ib);
        return ib, None, ia, ic, false;
      }
      a, b, follower := ia, ib, true;
      j, err := FollowerTurn(ia, ib, ic);
    }

    /** The inner loop of flac_looper_read for stream a over len frames at
        dst[pos..]: a waiting stream only counts down; any other adds its
        scaled source frames, stepping the envelope, count and source
        position once per frame. */
    method MixStream(dst: array<int>, a: int, pos: int, len: int)
      requires Fixed() && 0 <= a < 3 && Active(str[a]) && 0 <= str[a].amp < U32Mod
      requires 0 <= len && 0 <= pos && pos + 2 * len <= dst.Length
      modifies dst, str
      ensures str[a] == Advance(old(str[a]), len)
      ensures forall i :: 0 <= i < 3 && i != a ==> str[i] == old(str[i])
      ensures dst[..] == MixedInto(old(dst[..]), old(str[a]), pos, len, pcm, datcnt0, st.swap, mult)
    {
      var ss := str[a];
      if ss.mode == 1 {
        ss := ss.(cnt := ss.cnt - len);
        MixedIntoWaiting(dst[..], str[a], pos, len, pcm, datcnt0, st.swap, mult);
      } else {
        ss := MixFrames(dst, ss, pos, len, pcm, datcnt0, st.swap, mult);
      }
      str[a] := ss;
    }

    /** flac_looper_sched: start streams in the idle slots in use, with
        flac_looper_sched2 when there are two channel pairs. Only the
        second can fail. */
    method Schedule() returns (err: Option<string>, ghost log: Sched2Log)
      requires Valid()
      modifies str, rng, this`introFirstSeg
      ensures Valid()
      ensures err.None? ==> Running()
      ensures !st.ch2 ==> err.None?
      ensures forall i :: 0 <= i < 3 && Active(old(str[i])) ==> str[i] == old(str[i])
      ensures forall i :: 0 <= i < 3 && !Active(old(str[i])) && Active(str[i]) ==>
        str[i].mode == 1 || str[i].mode == 3
      ensures !st.ch2 ==>
        (!Active(old(str[0])) ==> WaitsBeside(str[0], str[1], st)) &&
        (!Active(old(str[1])) && Active(old(str[0])) ==> WaitsBeside(str[1], str[0], st)) &&
        (!Active(old(str[1])) && !Active(old(str[0])) ==> FirstSeg(str[1], old(introFirstSeg), st))
      ensures st.ch2 ==> introFirstSeg == old(introFirstSeg)
      ensures st.ch2 ==> Sched2Since(old(str[..]), str[..], log, st)
    {
      log := Sched2Log([], [], -1, 0, 0);
      if st.ch2 {
        err, log := Sched2();
      } else {
        Sched1();
        err := None;
      }
    }

    /** The first loop of a pass of flac_looper_read: the frames until the
        first playing stream's count runs out, at most room. */
    method PassLength(room: int) returns (len: int)
      requires Fixed()
      ensures len <= room && forall i :: 0 <= i < 3 && Active(str[i]) ==> len <= str[i].cnt
      ensures len == room || exists i :: 0 <= i < 3 && Active(str[i]) && len == str[i].cnt
    {
      len := room;
      var a := 0;
      while a < 3
        invariant 0 <= a <= 3 && len <= room
        invariant forall i :: 0 <= i < a && Active(str[i]) ==> len <= str[i].cnt
        invariant len == room || exists i :: 0 <= i < a && Active(str[i]) && len == str[i].cnt
      {
        if Active(str[a]) && str[a].cnt < len {
          len := str[a].cnt;
        }
        a := a + 1;
      }
    }

    /** The second loop of a pass for stream a: its frames, then its phase
        change when its count reached 0. */
    method PlayStream(dst: array<int>, a: int, pos: int, len: int) returns (resched: bool)
      requires Fixed() && 0 <= a < 3 && 1 <= str[a].mode <= 4 && 0 <= str[a].amp < U32Mod
      requires 0 <= len <= str[a].cnt && 0 <= pos && pos + 2 * len <= dst.Length
      modifies dst, str
      ensures str[a] == AfterPass(old(str[a]), len, st.fade, delAmp)
      ensures forall i :: 0 <= i < 3 && i != a ==> str[i] == old(str[i])
      ensures dst[..] == MixedInto(old(dst[..]), old(str[a]), pos, len, pcm, datcnt0, st.swap, mult)
      ensures resched <==> !Active(str[a])
    {
      ghost var s0 := str[a];
      MixStream(dst, a, pos, len);
      resched := false;
      if str[a].cnt == 0 {
        var (t, rs) := Transition(str[a], st.fade, delAmp);
        str[a] := t;
        resched := rs;
      }
      PassEnds(s0, len, st.fade, delAmp);
    }

    /** The second loop of a pass: every playing stream plays len frames
        into dst[pos..] and changes phase when its count runs out; resched
        tells whether one of them went idle. */
    method MixSlots(dst: array<int>, pos: int, len: int) returns (resched: bool)
      requires Fixed() && 0 <= len && 0 <= pos && pos + 2 * len <= dst.Length
      requires forall i :: 0 <= i < 3 ==> 0 <= str[i].mode <= 4 && 0 <= str[i].amp < U32Mod
      requires forall i :: 0 <= i < 3 && Active(str[i]) ==> len <= str[i].cnt
      modifies dst, str
      ensures forall i :: 0 <= i < 3 ==> str[i] == AfterPass(old(str[i]), len, st.fade, delAmp)
      ensures dst[..] == PartialMix(old(dst[..]), old(str[..]), 3, pos, len, pcm, datcnt0, st.swap, mult)
      ensures resched <==> exists i :: 0 <= i < 3 && Active(old(str[i])) && !Active(str[i])
    {
      ghost var d0 := dst[..];
      ghost var s0 := str[..];
      resched := false;
      var a := 0;
      while a < 3
        invariant 0 <= a <= 3
        invariant forall i :: 0 <= i < a ==> str[i] == AfterPass(s0[i], len, st.fade, delAmp)
        invariant forall i :: a <= i < 3 ==> str[i] == s0[i]
        invariant dst[..] == PartialMix(d0, s0, a, pos, len, pcm, datcnt0, st.swap, mult)
        invariant resched <==> exists i :: 0 <= i < a && Active(s0[i]) && !Active(str[i])
      {
        ghost var before := dst[..];
        assert PartialMix(d0, s0, a + 1, pos, len, pcm, datcnt0, st.swap, mult) ==
          MixedInto(before, s0[a], pos, len, pcm, datcnt0, st.swap, mult);
        if Active(str[a]) {
          var rs := PlayStream(dst, a, pos, len);
          resched := resched || rs;
        } else {
          MixedIntoWaiting(before, str[a], pos, len, pcm, datcnt0, st.swap, mult);
        }
        a := a + 1;
      }
    }

    /** A pass over the streams keeps each of them fitting the settings. */
    method MixPass(dst: array<int>, pos: int, len: int) returns (resched: bool)
      requires Settled() && StreamsOk() && 0 <= len && 0 <= pos && pos + 2 * len <= dst.Length
      requires forall i :: 0 <= i < 3 && Active(str[i]) ==> len <= str[i].cnt
      modifies dst, str
      ensures StreamsOk()
      ensures forall i :: 0 <= i < 3 ==> str[i] == AfterPass(old(str[i]), len, st.fade, delAmp)
      ensures dst[..] == PartialMix(old(dst[..]), old(str[..]), 3, pos, len, pcm, datcnt0, st.swap, mult)
      ensures resched <==> exists i :: 0 <= i < 3 && Active(old(str[i])) && !Active(str[i])
    {
      ghost var s0 := str[..];
      assert forall i :: 0 <= i < 3 ==> StreamFits(s0[i], st, InUse(i)) by {
        assert StreamOk(0) && StreamOk(1) && StreamOk(2);
      }
      resched := MixSlots(dst, pos, len);
      PassFits(s0[0], st, InUse(0), len, delAmp);
      PassFits(s0[1], st, InUse(1), len, delAmp);
      PassFits(s0[2], st, InUse(2), len, delAmp);
    }

    /** The intro part of a pass: up to room frames of the data before the
        looped range, in order, times flac_mult. */
    method IntroPass(dst: array<int>, pos: int, room: int) returns (n: int)
      requires Valid() && 0 < introCnt && 0 < room && 0 <= pos && pos + 2 * room <= dst.Length
      modifies dst, this`introCnt, this`introPos
      ensures Valid() && 0 < n
      ensures n == if room < old(introCnt) then room else old(introCnt)
      ensures introPos == old(introPos) + n && introCnt == old(introCnt) - n
      ensures dst[..] == IntroInto(old(dst[..]), pos, old(introPos), n, pcm, mult)
    {
      n := room;
      if n > introCnt {
        n := introCnt;
      }
      IntroFrames(dst, pos, pcm, introPos, n, mult);
      introPos := introPos + n;
      introCnt := introCnt - n;
    }

    /** The potential of the streams for the passes that play no frame. */
    ghost function Pot(): nat
      requires Fixed()
      reads str
    {
      PotSum(str[..])
    }

    /** A pass of flac_looper_read while the intro lasts, at frame f of
        total: n frames of the intro, and the schedule when it ends. The
        intro so far is f frames from intro0 written into c, and this pass
        adds the next n. */
    method IntroStep(dst: array<int>, f: int, total: int, ghost c: seq<int>, ghost intro0: int)
        returns (n: int, err: Option<string>)
      requires Valid() && 0 < introCnt && 0 <= f < total && 2 * total <= dst.Length
      requires introPos == intro0 + f && 0 <= intro0 && |c| == dst.Length
      requires dst[..] == IntroInto(c, 0, intro0, f, pcm, mult)
      modifies dst, str, rng, this`introFirstSeg, this`introCnt, this`introPos
      ensures Valid() && 0 < n <= total - f
      ensures n == total - f || introCnt == 0
      ensures introPos == old(introPos) + n && introCnt == old(introCnt) - n
      ensures dst[..] == IntroInto(c, 0, intro0, f + n, pcm, mult)
      ensures err.None? && introCnt == 0 ==> Running()
      ensures !st.ch2 || introCnt > 0 ==> err.None?
    {
      n := IntroPass(dst, 2 * f, total - f);
      IntroIntoConcat(c, 0, intro0, f, n, pcm, mult);
      err := None;
      if introCnt == 0 {
        ghost var log;
        err, log := Schedule();
      }
    }

    /** The end of a pass of flac_looper_read: the schedule when a stream
        went idle in it. The streams were s0 before the pass, all slots in
        use playing; a pass of no frames leaves a lower potential. */
    method Reschedule(ghost s0: seq<Stream>, len: int, resched: bool) returns (err: Option<string>)
      requires Valid() && |s0| == 3 && 0 <= len
      requires forall i :: 0 <= i < 3 ==> (Active(s0[i]) <==> InUse(i)) && 0 <= s0[i].mode <= 4
      requires forall i :: 0 <= i < 3 ==> str[i] == AfterPass(s0[i], len, st.fade, delAmp)
      requires resched <==> exists i :: 0 <= i < 3 && Active(s0[i]) && !Active(str[i])
      requires len == 0 ==> exists i :: 0 <= i < 3 && Active(s0[i]) && s0[i].cnt == 0
      modifies str, rng, this`introFirstSeg
      ensures Valid()
      ensures err.None? ==> Running()
      ensures !st.ch2 ==> err.None?
      ensures len == 0 ==> PotSum(str[..]) < PotSum(s0)
    {
      ghost var s1 := str[..];
      err := None;
      if resched {
        ghost var log;
        err, log := Schedule();
      }
      if len == 0 {
        assert forall i :: 0 <= i < 3 ==> StreamFits(str[i], st, InUse(i)) by {
          assert StreamOk(0) && StreamOk(1) && StreamOk(2);
        }
        PassPot(s0, s1, str[..], st.fade, delAmp);
      }
    }

    /** The frames of a pass of flac_looper_read after the intro, at
        frame f of total: the n frames until the first count runs out,
        mixed from all playing streams; resched tells whether one of them
        went idle. A waiting stream with a negative count stops it. */
    method MixStep(dst: array<int>, f: int, total: int) returns (n: int, resched: bool, err: Option<string>)
      requires Settled() && StreamsOk() && 0 <= f < total && 2 * total <= dst.Length
      modifies dst, str
      ensures StreamsOk() && 0 <= n <= total - f
      ensures !st.ch2 ==> err.None?
      ensures dst[2 * total..] == old(dst[2 * total..])
      ensures err.None? ==> forall i :: 0 <= i < 3 ==> str[i] == AfterPass(old(str[i]), n, st.fade, delAmp)
      ensures err.None? ==> (resched <==> exists i :: 0 <= i < 3 && Active(old(str[i])) && !Active(str[i]))
      ensures err.None? && n == 0 ==> exists i :: 0 <= i < 3 && Active(old(str[i])) && old(str[i]).cnt == 0
      ensures err.None? ==>
        dst[..] == PartialMix(old(dst[..]), old(str[..]), 3, 2 * f, n, pcm, datcnt0, st.swap, mult)
    {
      var len := PassLength(total - f);
      if len < 0 {
        assert st.ch2 by {
          assert StreamOk(0) && StreamOk(1) && StreamOk(2);
        }
        return 0, false, Some(NegativeWait);
      }
      ghost var d0 := dst[..];
      ghost var s0 := str[..];
      resched := MixPass(dst, 2 * f, len);
      PartialMixOutside(d0, s0, 3, 2 * f, len, pcm, datcnt0, st.swap, mult, 2 * total);
      n, err := len, None;
    }

    /** One pass after the intro with the reschedule that follows it. A
        pass of no frames leaves fewer streams to wait for. */
    method MixTurn(dst: array<int>, f: int, total: int) returns (n: int, err: Option<string>)
      requires Valid() && Running() && 0 <= f < total && 2 * total <= dst.Length
      modifies dst, str, rng, this`introFirstSeg
      ensures Valid() && (err.None? ==> Running())
      ensures !st.ch2 ==> err.None?
      ensures 0 <= n <= total - f
      ensures err.None? && n == 0 ==> Pot() < old(Pot())
      ensures dst[2 * total..] == old(dst[2 * total..])
    {
      ghost var s0 := str[..];
      assert forall i :: 0 <= i < 3 ==> (Active(s0[i]) <==> InUse(i)) && 0 <= s0[i].mode <= 4 by {
        assert StreamOk(0) && StreamOk(1) && StreamOk(2);
      }
      var resched;
      n, resched, err := MixStep(dst, f, total);
      if err.None? {
        err := Reschedule(s0, n, resched);
      }
    }

    /** The passes of flac_looper_read after the intro, from frame f0 to
        total: mix, reschedule, until the end of dst or an error. */
    method MixLoop(dst: array<int>, f0: int, total: int) returns (err: Option<string>)
      requires Valid() && Running() && 0 <= f0 <= total && 2 * total <= dst.Length
      modifies dst, str, rng, this`introFirstSeg
      ensures Valid() && (err.None? ==> Running())
      ensures !st.ch2 ==> err.None?
      ensures dst[2 * total..] == old(dst[2 * total..])
    {
      var f := f0;
      while f < total
        invariant f0 <= f <= total
        invariant Valid() && Running()
        invariant dst[2 * total..] == old(dst[2 * total..])
        decreases total - f, Pot()
      {
        var n;
        n, err := MixTurn(dst, f, total);
        if err.Some? {
          return;
        }
        f := f + n;
      }
      err := None;
    }

    /** The intro passes of flac_looper_read, from the start of dst to
        frame total or the end of the intro: the source data from the intro
        position, times flac_mult. */
    method IntroLoop(dst: array<int>, total: int) returns (f: int, err: Option<string>)
      requires Valid() && 0 <= 2 * total <= dst.Length && (introCnt == 0 ==> Running())
      modifies dst, str, rng, this`introFirstSeg, this`introCnt, this`introPos
      ensures Valid() && 0 <= f <= total
      ensures err.None? ==> (introCnt == 0 ==> Running()) && (f == total || introCnt == 0)
      ensures err.Some? ==> introCnt == 0
      ensures !st.ch2 ==> err.None?
      ensures introCnt == old(introCnt) - f && introPos == old(introPos) + f
      ensures dst[..] == IntroInto(old(dst[..]), 0, old(introPos), f, pcm, mult)
    {
      ghost var c := dst[..];
      ghost var intro0 := introPos;
      f, err := 0, None;
      while f < total && introCnt > 0
        invariant 0 <= f <= total && err.None?
        invariant Valid() && (introCnt == 0 ==> Running())
        invariant introCnt == old(introCnt) - f && introPos == intro0 + f
        invariant dst[..] == IntroInto(c, 0, intro0, f, pcm, mult)
      {
        var n;
        n, err := IntroStep(dst, f, total, c, intro0);
        f := f + n;
        if err.Some? {
          return;
        }
      }
    }

    /** flac_looper_read: dst[0..dlen) cleared, then filled pass by pass
        with the intro and then the mix of the streams, rescheduling
        whenever one goes idle. The intro, once over, does not come back,
        so its passes all come first. With one channel pair it always
        fills all of dst; with two, a failed reschedule or a waiting
        stream with a negative count (on which the C loop would run its
        write position backwards) stops it. While the intro lasts, the
        output is the source data from its start, times flac_mult. */
    method Read(dst: array<int>, dlen: int) returns (r: Result<int>)
      requires Valid() && 0 <= dlen <= dst.Length && dlen % 2 == 0
      requires introCnt == 0 ==> Running()
      modifies dst, str, rng, this`introFirstSeg, this`introCnt, this`introPos
      ensures Valid()
      ensures r.Ok? ==> r.value == dlen && (introCnt == 0 ==> Running())
      ensures !st.ch2 ==> r.Ok?
      ensures old(introCnt) > dlen / 2 ==> r.Ok?
      ensures dst[dlen..] == old(dst[dlen..])
      ensures old(introCnt) >= dlen / 2 ==>
        introCnt == old(introCnt) - dlen / 2 && introPos == old(introPos) + dlen / 2 &&
        dst[..] == IntroInto(Cleared(old(dst[..]), dlen), 0, old(introPos), dlen / 2, pcm, mult)
    {
      ghost var d0 := dst[..];
      Clear(dst, dlen);
      ghost var c := dst[..];
      assert c[dlen..] == d0[dlen..];
      var total := dlen / 2;
      var f, err := IntroLoop(dst, total);
      IntroIntoOutside(c, 0, old(introPos), f, pcm, mult, dlen);
      if err.None? && f < total {
        err := MixLoop(dst, f, total);
      }
      if err.Some? {
        return Err(err.value);
      }
      r := Ok(dlen);
    }
  }

  /** The copy loop of the intro: n frames of pcm from frame `from` on,
      times mult, added to dst from pos. */
  method IntroFrames(dst: array<int>, pos: int, pcm: seq<int>, from: int, n: int, mult: int)
    requires 0 <= from && 0 <= n && 2 * (from + n) <= |pcm| && 0 <= pos && pos + 2 * n <= dst.Length
    modifies dst
    ensures dst[..] == IntroInto(old(dst[..]), pos, from, n, pcm, mult)
  {
    ghost var d0 := dst[..];
    var a := 0;
    while a < n
      invariant 0 <= a <= n
      invariant dst[..] == IntroInto(d0, pos, from, a, pcm, mult)
    {
      var off := (from + a) * 2;
      AddFrame(dst, pos + 2 * a, pcm[off] * mult, pcm[off + 1] * mult);
      a := a + 1;
    }
  }

  /** The scan loop of flac_looper_init over the SBAGEN_LOOPER string:
      the settings it leaves, from the defaults, after the optional intro
      flag. */
  method ScanSettings(looper: string, rate: int, datcnt0: int, mixCnt: int)
      returns (cur: LooperConfig.Settings)
    ensures cur == LooperConfig.Parse(looper, rate, datcnt0, mixCnt)
  {
    var mix := if mixCnt < 0 then 0 else mixCnt;
    var i := LooperConfig.FlagsStart(looper);
    var ps := LooperConfig.ScanState('\0', true, LooperConfig.Defaults(datcnt0, rate));
    ghost var whole := LooperConfig.Scan(looper, i, ps, rate, datcnt0, mix);
    while i < |looper|
      invariant i <= |looper|
      invariant LooperConfig.Scan(looper, i, ps, rate, datcnt0, mix) == whole
      decreases |looper| - i
    {
      i, ps := ScanFlag(looper, i, ps, rate, datcnt0, mix);
    }
    cur := ps.st;
  }

  /** One turn of the scan loop at looper[i]: white space, a character
      that is no flag and a '-' that follows neither 's' nor 'd' are
      passed over; a flag without a number becomes the previous flag and
      nothing else; otherwise '#' selects, and the other flags set their
      setting while the selection is on. */
  method ScanFlag(looper: string, i: nat, ps: LooperConfig.ScanState, rate: int, datcnt0: int, mix: int)
      returns (j: nat, ps': LooperConfig.ScanState)
    requires i < |looper|
    ensures (j, ps') == LooperConfig.Step(looper, i, ps, rate, datcnt0, mix)
  {
    var flag := looper[i];
    j, ps' := i + 1, ps;
    if IsSpace(flag) || !LooperConfig.IsFlag(flag) {
      return;
    }
    if flag == '-' {
      if ps.prev == 's' {
        flag := 'S';
      } else if ps.prev == 'd' {
        flag := 'D';
      } else {
        return;
      }
    }
    ps' := ps'.(prev := flag);
    var v := StrToD(looper, j);
    if v.NoReal? {
      return;
    }
    var val := v.value;
    j := v.next;
    var cur := ps'.st;
    if flag == '#' {
      ps' := ps'.(on := val == mix as real);
    } else if ps'.on {
      var fr := LooperConfig.Frames(val, rate);
      if flag == 's' {
        cur := cur.(seg0 := fr, seg1 := fr);
      } else if flag == 'S' {
        cur := cur.(seg1 := fr);
      } else if flag == 'd' {
        cur := cur.(datbase := fr, datcnt := datcnt0 - fr);
      } else if flag == 'D' {
        cur := cur.(datcnt := LooperConfig.FramesAfter(val, rate, cur.datbase));
      } else if flag == 'f' {
        cur := cur.(fade := fr);
      } else if flag == 'c' {
        cur := cur.(ch2 := val > 1.5);
      } else if flag == 'w' {
        cur := cur.(swap := val > 0.5);
      }
      ps' := ps'.(st := cur);
    }
  }

  /** The frames of a fading or full stream s: len frames of its scaled
      source added at dst[pos..], returning s len frames on. */
  method MixFrames(dst: array<int>, s: Stream, pos: int, len: int, pcm: seq<int>, datcnt0: int,
                   swap: bool, mult: int) returns (t: Stream)
    requires |pcm| == 2 * datcnt0 && s.mode != 0 && s.mode != 1 && 0 <= s.amp < U32Mod
    requires 0 <= len && 0 <= pos && pos + 2 * len <= dst.Length
    modifies dst
    ensures t == Advance(s, len)
    ensures dst[..] == MixedInto(old(dst[..]), s, pos, len, pcm, datcnt0, swap, mult)
  {
    ghost var d0 := dst[..];
    t := s;
    var k := 0;
    while k < len
      invariant 0 <= k <= len
      invariant t == Advance(s, k)
      invariant dst[..] == MixedInto(d0, s, pos, k, pcm, datcnt0, swap, mult)
    {
      var (x, y) := FrameOut(t, pcm, datcnt0, swap, mult);
      ghost var before := dst[..];
      AddFrame(dst, pos + 2 * k, x, y);
      TickAdvance(s, k);
      t := Tick(t);
      k := k + 1;
    }
  }

  /** memset(dst, 0, dlen ints). */
  method Clear(dst: array<int>, dlen: int)
    requires 0 <= dlen <= dst.Length
    modifies dst
    ensures dst[..] == Cleared(old(dst[..]), dlen)
  {
    ghost var d0 := dst[..];
    var i := 0;
    while i < dlen
      invariant 0 <= i <= dlen
      invariant dst[..] == Cleared(d0, i)
    {
      dst[i] := 0;
      i := i + 1;
    }
  }

  /** m with x added at p and y at p + 1: one stereo frame mixed in. */
  function AddPair(m: seq<int>, p: int, x: int, y: int): (r: seq<int>)
    requires 0 <= p && p + 2 <= |m|
    ensures |r| == |m|
  {
    m[p := m[p] + x][p + 1 := m[p + 1] + y]
  }

  /** dst[p] += x; dst[p + 1] += y. */
  method AddFrame(dst: array<int>, p: int, x: int, y: int)
    requires 0 <= p && p + 2 <= dst.Length
    modifies dst
    ensures dst[..] == AddPair(old(dst[..]), p, x, y)
  {
    dst[p] := dst[p] + x;
    dst[p + 1] := dst[p + 1] + y;
  }

  /** d with the output of stream s over n frames added at pos, frame by
      frame as the inner loop of flac_looper_read adds it. */
  function MixedInto(d: seq<int>, s: Stream, pos: int, n: nat, pcm: seq<int>, datcnt0: int,
                     swap: bool, mult: int): (r: seq<int>)
    requires |pcm| == 2 * datcnt0 && 0 <= pos && pos + 2 * n <= |d|
    ensures |r| == |d|
  {
    if n == 0 then d
    else
      var m := MixedInto(d, s, pos, n - 1, pcm, datcnt0, swap, mult);
      var p := pos + 2 * (n - 1);
      AddPair(m, p, Contribution(s, n - 1, 0, pcm, datcnt0, swap, mult),
              Contribution(s, n - 1, 1, pcm, datcnt0, swap, mult))
  }

  /** Element i of the mix: the stream's output for the frame and channel
      i falls on inside the n frames, nothing outside them. */
  lemma {:induction false} MixedIntoAt(d: seq<int>, s: Stream, pos: int, n: nat, pcm: seq<int>, datcnt0: int,
                                       swap: bool, mult: int, i: int)
    requires |pcm| == 2 * datcnt0 && 0 <= pos && pos + 2 * n <= |d| && 0 <= i < |d|
    ensures MixedInto(d, s, pos, n, pcm, datcnt0, swap, mult)[i] ==
      d[i] + (if pos <= i < pos + 2 * n
              then Contribution(s, (i - pos) / 2, (i - pos) % 2, pcm, datcnt0, swap, mult) else 0)
  {
    if n > 0 {
      MixedIntoAt(d, s, pos, n - 1, pcm, datcnt0, swap, mult, i);
      var p := pos + 2 * (n - 1);
      if i == p {
        assert (i - pos) / 2 == n - 1 && (i - pos) % 2 == 0;
      } else if i == p + 1 {
        assert (i - pos) / 2 == n - 1 && (i - pos) % 2 == 1;
      }
    }
  }

  /** An idle or waiting stream adds nothing. */
  lemma {:induction false} MixedIntoWaiting(d: seq<int>, s: Stream, pos: int, n: nat, pcm: seq<int>,
                                            datcnt0: int, swap: bool, mult: int)
    requires |pcm| == 2 * datcnt0 && 0 <= pos && pos + 2 * n <= |d| && (s.mode == 0 || s.mode == 1)
    ensures MixedInto(d, s, pos, n, pcm, datcnt0, swap, mult) == d
  {
    if n > 0 {
      MixedIntoWaiting(d, s, pos, n - 1, pcm, datcnt0, swap, mult);
    }
  }

  /** The mix writes nothing at or after pos + 2n. */
  lemma {:induction false} MixedIntoOutside(d: seq<int>, s: Stream, pos: int, n: nat, pcm: seq<int>,
                                            datcnt0: int, swap: bool, mult: int, lim: int)
    requires |pcm| == 2 * datcnt0 && 0 <= pos && pos + 2 * n <= lim <= |d|
    ensures MixedInto(d, s, pos, n, pcm, datcnt0, swap, mult)[lim..] == d[lim..]
  {
    if n > 0 {
      MixedIntoOutside(d, s, pos, n - 1, pcm, datcnt0, swap, mult, lim);
    }
  }

  /** A stream after one pass of len frames: len frames on, then its next
      phase if its count ran out; an idle stream stays as it is. */
  function AfterPass(s: Stream, len: int, fade: int, delAmp: int): Stream {
    if !Active(s) then s
    else
      var t := Advance(s, len);
      if t.cnt == 0 then Transition(t, fade, delAmp).0 else t
  }

  /** A pass brings a playing stream's end len frames nearer, and it goes
      idle exactly when the pass reaches that end in its fade-out. */
  lemma PassEnds(s: Stream, len: int, fade: int, delAmp: int)
    requires 1 <= s.mode <= 4 && len <= s.cnt
    ensures var t := AfterPass(s, len, fade, delAmp);
      (!Active(t) <==> s.mode == 4 && s.cnt == len) &&
      (Active(t) ==> CntToEnd(t, fade) == CntToEnd(s, fade) - len)
  {
    var t := Advance(s, len);
    AdvanceCntToEnd(s, fade, len);
    if t.cnt == 0 {
      TransitionCntToEnd(t, fade, delAmp);
    }
  }

  /** d with the streams ss[0..n) each mixed over len frames from pos. */
  function PartialMix(d: seq<int>, ss: seq<Stream>, n: nat, pos: int, len: nat, pcm: seq<int>,
                      datcnt0: int, swap: bool, mult: int): (r: seq<int>)
    requires n <= |ss| && |pcm| == 2 * datcnt0 && 0 <= pos && pos + 2 * len <= |d|
    ensures |r| == |d|
  {
    if n == 0 then d
    else MixedInto(PartialMix(d, ss, n - 1, pos, len, pcm, datcnt0, swap, mult), ss[n - 1],
                   pos, len, pcm, datcnt0, swap, mult)
  }

  /** A pass writes nothing at or after pos + 2 len. */
  lemma {:induction false} PartialMixOutside(d: seq<int>, ss: seq<Stream>, n: nat, pos: int, len: nat,
                                             pcm: seq<int>, datcnt0: int, swap: bool, mult: int, lim: int)
    requires n <= |ss| && |pcm| == 2 * datcnt0 && 0 <= pos && pos + 2 * len <= lim <= |d|
    ensures PartialMix(d, ss, n, pos, len, pcm, datcnt0, swap, mult)[lim..] == d[lim..]
  {
    if n > 0 {
      var m := PartialMix(d, ss, n - 1, pos, len, pcm, datcnt0, swap, mult);
      PartialMixOutside(d, ss, n - 1, pos, len, pcm, datcnt0, swap, mult, lim);
      MixedIntoOutside(m, ss[n - 1], pos, len, pcm, datcnt0, swap, mult, lim);
    }
  }

  /** d with its first n elements set to 0. */
  function Cleared(d: seq<int>, n: int): (r: seq<int>)
    ensures |r| == |d|
  {
    seq(|d|, i requires 0 <= i < |d| => if i < n then 0 else d[i])
  }

  /** d with n intro frames, from frame `from` of the data on and times
      mult, added frame by frame at pos. */
  function IntroInto(d: seq<int>, pos: int, from: int, n: nat, pcm: seq<int>, mult: int): (r: seq<int>)
    requires 0 <= from && 2 * (from + n) <= |pcm| && 0 <= pos && pos + 2 * n <= |d|
    ensures |r| == |d|
  {
    if n == 0 then d
    else
      var m := IntroInto(d, pos, from, n - 1, pcm, mult);
      var p := pos + 2 * (n - 1);
      var q := 2 * (from + n - 1);
      AddPair(m, p, pcm[q] * mult, pcm[q + 1] * mult)
  }

  /** Element i of the intro output: the data element as far from the
      start frame as i is from pos, times mult, inside the n frames. */
  lemma {:induction false} IntroIntoAt(d: seq<int>, pos: int, from: int, n: nat, pcm: seq<int>, mult: int, i: int)
    requires 0 <= from && 2 * (from + n) <= |pcm| && 0 <= pos && pos + 2 * n <= |d| && 0 <= i < |d|
    ensures IntroInto(d, pos, from, n, pcm, mult)[i] ==
      d[i] + (if pos <= i < pos + 2 * n then pcm[2 * from + (i - pos)] * mult else 0)
  {
    if n > 0 {
      IntroIntoAt(d, pos, from, n - 1, pcm, mult, i);
    }
  }

  /** The intro writes nothing at or after pos + 2n. */
  lemma {:induction false} IntroIntoOutside(d: seq<int>, pos: int, from: int, n: nat, pcm: seq<int>,
                                            mult: int, lim: int)
    requires 0 <= from && 2 * (from + n) <= |pcm| && 0 <= pos && pos + 2 * n <= lim <= |d|
    ensures IntroInto(d, pos, from, n, pcm, mult)[lim..] == d[lim..]
  {
    if n > 0 {
      IntroIntoOutside(d, pos, from, n - 1, pcm, mult, lim);
    }
  }

  /** Two intro passes in a row play the frames of one longer pass: the
      intro is the data read once, in order, however it is cut. */
  lemma {:induction false} IntroIntoConcat(d: seq<int>, pos: int, from: int, n: nat, m: nat,
                                           pcm: seq<int>, mult: int)
    requires 0 <= from && 2 * (from + n + m) <= |pcm| && 0 <= pos && pos + 2 * (n + m) <= |d|
    ensures IntroInto(IntroInto(d, pos, from, n, pcm, mult), pos + 2 * n, from + n, m, pcm, mult) ==
      IntroInto(d, pos, from, n + m, pcm, mult)
  {
    if m > 0 {
      IntroIntoConcat(d, pos, from, n, m - 1, pcm, mult);
    }
  }

  /** A playing stream's share of the passes that play no frame: one for
      each phase change left before its count is positive again. */
  function PotOf(s: Stream): nat {
    if s.mode == 0 || s.cnt != 0 then 0
    else if s.mode == 2 || s.mode == 4 then 2
    else 1
  }

  function PotSum(ss: seq<Stream>): nat
    requires |ss| == 3
  {
    PotOf(ss[0]) + PotOf(ss[1]) + PotOf(ss[2])
  }

  /** One slot over a pass of no frames and the reschedule after it. */
  lemma PotSlot(a: Stream, b: Stream, c: Stream, fade: int, delAmp: int)
    requires 0 <= a.mode <= 4 && fade >= 1
    requires b == AfterPass(a, 0, fade, delAmp)
    requires Active(b) ==> c == b
    requires !Active(b) && Active(c) ==> Active(a) && (c.mode == 1 || c.mode == 3)
    ensures PotOf(c) <= PotOf(a)
    ensures Active(a) && a.cnt == 0 ==> PotOf(c) < PotOf(a)
  {
  }

  /** A pass of no frames happens only when a playing stream's count is
      0; it and the reschedule after it lower the potential, so the
      passes of flac_looper_read come to an end. */
  lemma PassPot(s0: seq<Stream>, s1: seq<Stream>, s2: seq<Stream>, fade: int, delAmp: int)
    requires |s0| == 3 && |s1| == 3 && |s2| == 3 && fade >= 1
    requires forall i :: 0 <= i < 3 ==> 0 <= s0[i].mode <= 4
    requires exists i :: 0 <= i < 3 && Active(s0[i]) && s0[i].cnt == 0
    requires forall i :: 0 <= i < 3 ==> s1[i] == AfterPass(s0[i], 0, fade, delAmp)
    requires forall i :: 0 <= i < 3 && Active(s1[i]) ==> s2[i] == s1[i]
    requires forall i :: 0 <= i < 3 && !Active(s1[i]) && Active(s2[i]) ==>
      Active(s0[i]) && (s2[i].mode == 1 || s2[i].mode == 3)
    ensures PotSum(s2) < PotSum(s0)
  {
    PotSlot(s0[0], s1[0], s2[0], fade, delAmp);
    PotSlot(s0[1], s1[1], s2[1], fade, delAmp);
    PotSlot(s0[2], s1[2], s2[2], fade, delAmp);
  }
}
