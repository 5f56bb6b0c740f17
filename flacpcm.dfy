/** The plain FLAC input of flacdec.c: the decoder's frames turned into the
    interleaved stereo ints the mixer reads, either streamed through a
    small frame buffer (flac_read) or decoded whole into the looper's
    source data (flac_decode_all_to_pcm). The decoder itself is a frame
    source that hands out the stream's frames in order. */
module FlacPcm {
  import opened Wrappers

  /** flac_buf_frames: the frames flac_read asks the decoder for. */
  const BufFrames: int := 2048
  /** The frames flac_decode_all_to_pcm asks for at a time. */
  const ChunkFrames: int := 4096
  /** The largest capacity, in frames, the whole-stream buffer may have. */
  const CapLimit: int := 0x3FFF_FFFF
  /** The most frames the loop scheduler's int counts can hold. */
  const CountLimit: int := 0x7FFF_FFFF
  /** The range of the decoder's 64-bit frame counts. */
  const U64Mod: int := 0x1_0000_0000_0000_0000

  const TooLarge := "FLAC input too large to fit in memory"
  const NoData := "FLAC stream appears to contain no PCM data"

  /** Every frame holds one 16-bit sample per channel. */
  ghost predicate Framed(frames: seq<seq<int>>, channels: int) {
    channels >= 1 && forall k :: 0 <= k < |frames| ==> |frames[k]| == channels
  }

  /** The left output sample of a frame: its first channel (a frame
      always has one). */
  function Left(fr: seq<int>): int {
    if |fr| >= 1 then fr[0] else 0
  }

  /** The right output sample: the second channel, or the only one of a
      mono frame. */
  function Right(fr: seq<int>): int {
    if |fr| >= 2 then fr[1] else Left(fr)
  }

  /** The frames as interleaved stereo: left, right, left, right, ... */
  function Stereo(frames: seq<seq<int>>): (r: seq<int>)
    ensures |r| == 2 * |frames|
  {
    seq(2 * |frames|, i requires 0 <= i < 2 * |frames| =>
      if i % 2 == 0 then Left(frames[i / 2]) else Right(frames[i / 2]))
  }

  /** Frame j of the stream sits at 2j and 2j + 1. */
  lemma StereoAt(frames: seq<seq<int>>, j: int)
    requires 0 <= j < |frames|
    ensures Stereo(frames)[2 * j] == Left(frames[j]) && Stereo(frames)[2 * j + 1] == Right(frames[j])
  {
  }

  /** Streaming the frames in two parts gives the stream of the whole. */
  lemma StereoConcat(a: seq<seq<int>>, b: seq<seq<int>>)
    ensures Stereo(a + b) == Stereo(a) + Stereo(b)
  {
    forall i | 0 <= i < 2 * |a + b|
      ensures Stereo(a + b)[i] == (Stereo(a) + Stereo(b))[i]
    {
      var j := i / 2;
      Halves(i);
      StereoAt(a + b, j);
      if j < |a| {
        StereoAt(a, j);
      } else {
        StereoAt(b, j - |a|);
        assert i - 2 * |a| == 2 * (j - |a|) || i - 2 * |a| == 2 * (j - |a|) + 1;
      }
    }
  }

  /** drflac: the stream's frames, handed out in order. */
  class Decoder {
    const channels: int
    const frames: seq<seq<int>>
    /** totalPCMFrameCount from the stream info: 0 when unknown. */
    const total: int
    const sampleRate: int
    /** The frames handed out so far. */
    var next: int

    ghost predicate Valid()
      reads this`next
    {
      Framed(frames, channels) && 0 <= next <= |frames|
    }

    /** The frames not yet handed out. */
    function Rest(): (r: seq<seq<int>>)
      requires 0 <= next <= |frames|
      reads this`next
    {
      frames[next..]
    }

    constructor (channels: int, frames: seq<seq<int>>, total: int, sampleRate: int)
      requires Framed(frames, channels) && 0 <= total && 0 <= sampleRate
      ensures Valid() && next == 0 && Rest() == frames
      ensures this.channels == channels && this.frames == frames
      ensures this.total == total && this.sampleRate == sampleRate
    {
      this.channels := channels;
      this.frames := frames;
      this.total := total;
      this.sampleRate := sampleRate;
      next := 0;
    }

    /** drflac_read_pcm_frames_s16: up to max frames into buf, fewer only
        at the end of the stream, none once it is over. */
    method ReadFrames(buf: array<seq<int>>, max: int) returns (got: int)
      requires Valid() && 0 <= max <= buf.Length
      modifies this`next, buf
      ensures Valid()
      ensures got == if max < |frames| - old(next) then max else |frames| - old(next)
      ensures next == old(next) + got
      ensures forall j :: 0 <= j < got ==> buf[j] == frames[old(next) + j]
      ensures forall j :: got <= j < buf.Length ==> buf[j] == old(buf[j])
    {
      got := |frames| - next;
      if max < got {
        got := max;
      }
      var i := 0;
      while i < got
        modifies buf
        invariant 0 <= i <= got
        invariant forall j :: 0 <= j < i ==> buf[j] == frames[next + j]
        invariant forall j :: got <= j < buf.Length ==> buf[j] == old(buf[j])
      {
        buf[i] := frames[next + i];
        i := i + 1;
      }
      next := next + got;
    }
  }

  /** flac_read's state: the decoder, the frame buffer with its read
      position and fill, and the ReplayGain multiplier. */
  class Reader {
    const dec: Decoder
    const buf: array<seq<int>>
    const mult: int
    var bufPos: int
    var bufLen: int

    /** The buffer holds the bufLen frames the decoder handed out last, of
        which bufPos are delivered. */
    ghost predicate Valid()
      reads this`bufPos, this`bufLen, dec`next, buf
    {
      dec.Valid() && buf.Length == BufFrames && 0 <= bufPos <= bufLen <= buf.Length &&
      bufLen <= dec.next &&
      forall k :: bufPos <= k < bufLen ==> buf[k] == dec.frames[dec.next - bufLen + k]
    }

    /** The frames of the stream flac_read has delivered so far. */
    function Delivered(): (d: int)
      reads this`bufPos, this`bufLen, dec`next
    {
      dec.next - bufLen + bufPos
    }

    /** The frames flac_read has still to deliver: what is left in the
        buffer, then what the decoder has not handed out. */
    ghost function Pending(): (p: seq<seq<int>>)
      requires Valid()
      reads this`bufPos, this`bufLen, dec`next, buf
      ensures p == buf[bufPos..bufLen] + dec.Rest()
    {
      assert buf[bufPos..bufLen] == dec.frames[Delivered()..dec.next];
      dec.frames[Delivered()..]
    }

    /** The end of flac_init for a stream without a loop setting: an empty
        buffer of 2048 frames. */
    constructor (dec: Decoder, mult: int)
      requires dec.Valid()
      ensures Valid() && Delivered() == dec.next && Pending() == dec.Rest()
      ensures this.dec == dec && this.mult == mult
      ensures fresh(buf)
    {
      this.dec := dec;
      this.mult := mult;
      buf := new seq<int>[BufFrames](_ => []);
      bufPos := 0;
      bufLen := 0;
    }

    /** flac_read: the next dlen ints of the stereo stream times mult, or
        all that is left when the decoder runs dry. With an odd dlen the
        last frame gives only its left sample and is used up. */
    method Read(dst: array<int>, dlen: int) returns (n: int)
      requires Valid() && 0 <= dlen <= dst.Length
      modifies this`bufPos, this`bufLen, buf, dec`next, dst
      ensures Valid()
      ensures 0 <= n <= dlen && n <= 2 * (|dec.frames| - old(Delivered()))
      ensures n < dlen ==> n == 2 * (|dec.frames| - old(Delivered()))
      ensures forall i :: 0 <= i < n ==> dst[i] == Stereo(dec.frames)[2 * old(Delivered()) + i] * mult
      ensures forall i :: n <= i < dst.Length ==> dst[i] == old(dst[i])
      ensures Delivered() == old(Delivered()) + (n + 1) / 2
    {
      ghost var d0 := Delivered();
      n := 0;
      var rem := dlen;
      while rem > 0
        invariant Valid() && d0 <= Delivered()
        invariant 0 <= n <= dlen && rem == dlen - n
        invariant n == 2 * (Delivered() - d0) || (n == 2 * (Delivered() - d0) - 1 && rem == 0)
        invariant forall i :: 0 <= i < n ==> dst[i] == Stereo(dec.frames)[2 * d0 + i] * mult
        invariant forall i :: n <= i < dst.Length ==> dst[i] == old(dst[i])
        decreases rem
      {
        if bufPos == bufLen {
          var got := Refill();
          if got == 0 {
            break;
          }
        }
        var k, w := Drain(dst, n, rem, d0);
        n, rem := n + w, rem - w;
      }
      HalfUp(n, Delivered() - d0);
    }

    /** An empty buffer refilled from the decoder: up to 2048 frames, none
        only when the stream is over. */
    method Refill() returns (got: int)
      requires Valid() && bufPos == bufLen
      modifies this`bufPos, this`bufLen, buf, dec`next
      ensures Valid() && bufPos == 0 && bufLen == got && Delivered() == old(Delivered())
      ensures got == 0 <==> old(dec.next) == |dec.frames|
    {
      got := dec.ReadFrames(buf, BufFrames);
      bufLen := got;
      bufPos := 0;
    }

    /** The inner loop of flac_read: frames out of the buffer into dst
        from n, two ints each, until the buffer is empty or rem ints are
        written; k frames used, w ints written. The ints before n are the
        stream from frame d0 on. */
    method Drain(dst: array<int>, n: int, rem: int, ghost d0: int) returns (k: int, w: int)
      requires Valid() && bufPos < bufLen && 0 < rem && n + rem <= dst.Length
      requires 0 <= d0 <= Delivered() && n == 2 * (Delivered() - d0)
      requires forall i :: 0 <= i < n ==> dst[i] == Stereo(dec.frames)[2 * d0 + i] * mult
      modifies this`bufPos, dst
      ensures Valid() && bufPos == old(bufPos) + k && 0 < k
      ensures w <= rem && (w == 2 * k || (w == 2 * k - 1 && w == rem))
      ensures forall i :: 0 <= i < n + w ==> dst[i] == Stereo(dec.frames)[2 * d0 + i] * mult
      ensures forall i :: n + w <= i < dst.Length ==> dst[i] == old(dst[i])
    {
      var pos := bufPos;
      ghost var c0 := Delivered() - d0;
      k, w := 0, 0;
      var avail := bufLen - pos;
      var left := rem;
      while avail > 0 && left > 0
        modifies dst
        invariant pos == bufPos + k && avail == bufLen - pos && 0 <= k && pos <= bufLen
        invariant 0 <= w <= rem && left == rem - w && (w == 2 * k || (w == 2 * k - 1 && left == 0))
        invariant forall i :: 0 <= i < n + w ==> dst[i] == Stereo(dec.frames)[2 * d0 + i] * mult
        invariant forall i :: n + w <= i < dst.Length ==> dst[i] == old(dst[i])
        decreases avail
      {
        var fr := buf[pos];
        ghost var m := d0 + c0 + k;
        assert fr == dec.frames[m] && 2 * d0 + n + w == 2 * m;
        StereoAt(dec.frames, m);
        var l, r;
        if dec.channels == 1 {
          l, r := fr[0], fr[0];
        } else {
          l, r := fr[0], fr[1];
        }
        dst[n + w] := l * mult;
        w, left := w + 1, left - 1;
        if left > 0 {
          dst[n + w] := r * mult;
          w, left := w + 1, left - 1;
        }
        pos := pos + 1;
        avail := avail - 1;
        k := k + 1;
      }
      bufPos := pos;
    }
  }

  lemma Halves(i: int)
    requires 0 <= i
    ensures i == 2 * (i / 2) || i == 2 * (i / 2) + 1
  {
  }

  lemma HalfUp(n: int, c: int)
    requires n == 2 * c || n == 2 * c - 1
    ensures (n + 1) / 2 == c
  {
  }

  /** The first capacity of the whole-stream buffer, in frames: the
      stream's length when known, otherwise a minute, and at least 4096. */
  function StartCap(total: int, rate: int): (cap: int)
    ensures cap >= ChunkFrames
    ensures total >= ChunkFrames ==> cap == total
  {
    var c := if total != 0 then total else rate * 60;
    if c < ChunkFrames then ChunkFrames else c
  }

  /** The capacity after doubling cap until need fits. */
  function Grown(cap: int, need: int): (r: int)
    requires cap > 0
    ensures r >= cap && r >= need
    decreases need - cap
  {
    if need <= cap then cap else Grown(2 * cap, need)
  }

  /** Growing in two steps, first for a then for b >= a, ends where one
      step for b does. */
  lemma {:induction false} GrownTwice(cap: int, a: int, b: int)
    requires cap > 0 && a <= b
    ensures Grown(Grown(cap, a), b) == Grown(cap, b)
    decreases a - cap
  {
    if a > cap {
      GrownTwice(2 * cap, a, b);
    }
  }

  /** Needing more never yields a smaller capacity. */
  lemma {:induction false} GrownMono(cap: int, a: int, b: int)
    requires cap > 0 && a <= b
    ensures Grown(cap, a) <= Grown(cap, b)
    decreases b - cap
  {
    if a > cap {
      GrownMono(2 * cap, a, b);
    } else if b > cap {
      GrownAbove(2 * cap, b);
    }
  }

  lemma {:induction false} GrownAbove(cap: int, need: int)
    requires cap > 0
    ensures Grown(cap, need) >= cap
    decreases need - cap
  {
  }

  /** The doubling loop of flac_decode_all_to_pcm: the capacity that first
      holds need frames, below twice need. */
  method Grow(cap: int, need: int) returns (newCap: int)
    requires 0 < cap < need
    ensures newCap == Grown(cap, need) && need <= newCap < 2 * need
  {
    newCap := cap;
    while newCap < need
      invariant cap <= newCap < 2 * need
      invariant Grown(newCap, need) == Grown(cap, need)
      decreases need - newCap
    {
      newCap := newCap * 2;
    }
  }

  /** flac_decode_all_to_pcm's outcome: the buffer too large for the
      stream's announced or assumed length, or for the frames decoded;
      otherwise no frames at all; otherwise all frames as stereo. */
  function DecodeAllResult(frames: seq<seq<int>>, total: int, rate: int): Result<seq<int>>
  {
    var cap0 := StartCap(total, rate);
    if cap0 > CapLimit || Grown(cap0, |frames|) > CapLimit then Err(TooLarge)
    else if |frames| == 0 then Err(NoData)
    else Ok(Stereo(frames))
  }

  /** The looper's source data holds at most CapLimit frames, so the count
      always fits the scheduler's ints. */
  lemma DecodeAllFits(frames: seq<seq<int>>, total: int, rate: int)
    ensures var r := DecodeAllResult(frames, total, rate);
      r.Ok? ==> 0 < |r.value| / 2 <= CapLimit < CountLimit
    ensures DecodeAllResult(frames, total, rate).Err? ==>
      DecodeAllResult(frames, total, rate).error in {TooLarge, NoData}
  {
  }

  /** pcm holds the first used frames of the stream as stereo pairs. */
  ghost predicate Stored(pcm: array<int>, frames: seq<seq<int>>, used: int)
    reads pcm
  {
    0 <= used <= |frames| && 2 * used <= pcm.Length &&
    forall i :: 0 <= i < 2 * used ==> pcm[i] == Stereo(frames)[i]
  }

  /** got frames from tmp, the stream's frames from used on, stored after
      the used frames already in pcm: both slots from the one channel of a
      mono stream, the first two channels otherwise. */
  method StoreFrames(pcm: array<int>, used: int, tmp: array<seq<int>>, got: int, channels: int,
                     ghost frames: seq<seq<int>>)
    requires Stored(pcm, frames, used) && Framed(frames, channels)
    requires 0 <= got <= tmp.Length && used + got <= |frames| && 2 * (used + got) <= pcm.Length
    requires forall j :: 0 <= j < got ==> tmp[j] == frames[used + j]
    modifies pcm
    ensures Stored(pcm, frames, used + got)
  {
    if channels == 1 {
      StoreMono(pcm, used, tmp, got, frames);
    } else {
      StoreMulti(pcm, used, tmp, got, frames);
    }
  }

  /** The mono loop: the one channel into both slots. */
  method StoreMono(pcm: array<int>, used: int, tmp: array<seq<int>>, got: int, ghost frames: seq<seq<int>>)
    requires Stored(pcm, frames, used) && Framed(frames, 1)
    requires 0 <= got <= tmp.Length && used + got <= |frames| && 2 * (used + got) <= pcm.Length
    requires forall j :: 0 <= j < got ==> tmp[j] == frames[used + j]
    modifies pcm
    ensures Stored(pcm, frames, used + got)
  {
    var a := 0;
    while a < got
      invariant 0 <= a <= got && Stored(pcm, frames, used + a)
    {
      assert tmp[a] == frames[used + a];
      StereoAt(frames, used + a);
      var v := tmp[a][0];
      pcm[(used + a) * 2] := v;
      pcm[(used + a) * 2 + 1] := v;
      a := a + 1;
    }
  }

  /** The loop for two or more channels: the first two. */
  method StoreMulti(pcm: array<int>, used: int, tmp: array<seq<int>>, got: int, ghost frames: seq<seq<int>>)
    requires Stored(pcm, frames, used) && forall k :: 0 <= k < |frames| ==> |frames[k]| >= 2
    requires 0 <= got <= tmp.Length && used + got <= |frames| && 2 * (used + got) <= pcm.Length
    requires forall j :: 0 <= j < got ==> tmp[j] == frames[used + j]
    modifies pcm
    ensures Stored(pcm, frames, used + got)
  {
    var a := 0;
    while a < got
      invariant 0 <= a <= got && Stored(pcm, frames, used + a)
    {
      assert tmp[a] == frames[used + a];
      StereoAt(frames, used + a);
      var fr := tmp[a];
      pcm[(used + a) * 2] := fr[0];
      pcm[(used + a) * 2 + 1] := fr[1];
      a := a + 1;
    }
  }

  /** realloc of the whole-stream buffer to newCap frames: the first used
      frames kept. */
  method Regrow(pcm: array<int>, used: int, newCap: int, ghost frames: seq<seq<int>>)
    returns (np: array<int>)
    requires Stored(pcm, frames, used) && used <= newCap
    ensures fresh(np) && np.Length == 2 * newCap && Stored(np, frames, used)
  {
    np := new int[2 * newCap];
    var i := 0;
    while i < 2 * used
      invariant 0 <= i <= 2 * used
      invariant forall j :: 0 <= j < i ==> np[j] == pcm[j]
    {
      np[i] := pcm[i];
      i := i + 1;
    }
  }

  /** flac_decode_all_to_pcm, run on a freshly opened decoder: every frame
      of the stream into one buffer of stereo shorts, in chunks of 4096
      frames, the buffer doubling as needed. Its result is the looper's
      source data; its length halved is flac_datcnt0. */
  method DecodeAll(dec: Decoder) returns (r: Result<seq<int>>)
    requires dec.Valid() && dec.next == 0
    modifies dec`next
    ensures r == DecodeAllResult(dec.frames, dec.total, dec.sampleRate)
  {
    ghost var cap0 := StartCap(dec.total, dec.sampleRate);
    var cap := StartCap(dec.total, dec.sampleRate);
    if cap > CapLimit {
      GrownAbove(cap, |dec.frames|);
      return Err(TooLarge);
    }
    var pcm := new int[cap * 2];
    var tmp := new seq<int>[ChunkFrames](_ => []);
    var used := 0;
    while true
      invariant dec.Valid() && dec.next == used && tmp.Length == ChunkFrames
      invariant fresh(pcm)
      invariant 0 < cap <= CapLimit && used <= cap && cap == Grown(cap0, used)
      invariant pcm.Length == 2 * cap && Stored(pcm, dec.frames, used)
      decreases |dec.frames| - dec.next
    {
      var got := dec.ReadFrames(tmp, ChunkFrames);
      if got == 0 {
        break;
      }
      GrownTwice(cap0, used, used + got);
      if used + got > cap {
        var newCap := Grow(cap, used + got);
        // the C's check for a wrapped 64-bit doubling can never fire
        assert newCap < U64Mod;
        if newCap > CapLimit {
          GrownMono(cap0, used + got, |dec.frames|);
          return Err(TooLarge);
        }
        pcm := Regrow(pcm, used, newCap, dec.frames);
        cap := newCap;
      }
      StoreFrames(pcm, used, tmp, got, dec.channels, dec.frames);
      used := used + got;
    }
    if used == 0 {
      return Err(NoData);
    }
    // the C's check against more than CountLimit frames can never fire
    assert used <= CountLimit;
    assert pcm[..2 * used] == Stereo(dec.frames);
    r := Ok(pcm[..2 * used]);
  }
}
