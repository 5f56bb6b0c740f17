/** writeWAV: the 44-byte RIFF/WAVE header written ahead of the sample
    data, with the length cap applied to byte_count first. Bytes are the
    low eight bits of what the C code stores into its char buffer. */
module Wav {
  import opened Wrappers

  import Raster

  type Byte = Raster.Byte

  const TwoTo32: int := 0x1_0000_0000
  const TwoTo31: int := 0x8000_0000

  /** (int)v: v brought into -2^31 .. 2^31-1 modulo 2^32. */
  function Int32(v: int): int {
    (v + TwoTo31) % TwoTo32 - TwoTo31
  }

  /** The bits of (int)v read as an unsigned number. */
  function U32(v: int): nat {
    v % TwoTo32
  }

  /** The four bytes of an unsigned 32-bit number, lowest first. */
  function LE32(a: int): (b: seq<Byte>)
    requires 0 <= a < TwoTo32
    ensures |b| == 4
  {
    [a % 256, a / 256 % 256, a / 256 / 256 % 256, a / 256 / 256 / 256]
  }

  /** The little-endian reading of four bytes, as a WAV reader does it. */
  function ReadLE32(b: seq<Byte>): int
    requires |b| == 4
  {
    b[0] as int + 0x100 * b[1] as int + 0x1_0000 * b[2] as int + 0x100_0000 * b[3] as int
  }
  /** addStr: the four characters of a tag, as bytes. */
  function Tag(s: string): (b: seq<Byte>)
    requires |s| == 4 && forall i :: 0 <= i < 4 ==> s[i] as int < 256
    ensures |b| == 4
  {
    [s[0] as int, s[1] as int, s[2] as int, s[3] as int]
  }

  /** byte_count + 36 != (int)(byte_count + 36): the sum does not fit an int. */
  predicate OverflowsInt(v: int) {
    Int32(v) != v
  }

  /** The byte count writeWAV goes on with: 0xFFFFFFF8 - 36 when
      byte_count + 36 does not fit a 32-bit int, byte_count otherwise. */
  function CapAsWritten(byteCount: int): int {
    if OverflowsInt(byteCount + 36) then 0xFFFFFFF8 - 36 else byteCount
  }

  /** The word holding block align (low half) and bits per sample (high
      half), as written: block align 4 whatever out_bps is. */
  function AlignBitsAsWritten(outBps: int): int {
    0x0004 + 0x10000 * (outBps * 4)
  }

  /** The eleven four-byte fields of the header, in the order writeWAV
      stores them: the RIFF chunk's tag and size, "WAVE", the 16-byte fmt
      chunk (format 1 and 2 channels in one word, rate, byte rate, block
      align and bits in one word), the data chunk's tag and size. */
  function Fields(byteCount: int, outRate: int, outBps: int, alignBits: int): (fs: seq<seq<Byte>>)
    ensures |fs| == 11 && forall j :: 0 <= j < 11 ==> |fs[j]| == 4
  {
    [Tag("RIFF"), LE32(U32(byteCount + 36)), Tag("WAVE"),
     Tag("fmt "), LE32(16), LE32(0x00020001),
     LE32(U32(outRate)), LE32(U32(outRate * outBps)), LE32(U32(alignBits)),
     Tag("data"), LE32(U32(byteCount))]
  }

  /** The fields one after the other. */
  function Concat(fs: seq<seq<Byte>>): seq<Byte>
  {
    if |fs| == 0 then [] else Concat(fs[..|fs| - 1]) + fs[|fs| - 1]
  }

  /** Four-byte fields sit at offsets 0, 4, 8, ... of their concatenation. */
  lemma {:induction false} ConcatFields(fs: seq<seq<Byte>>)
    requires forall j :: 0 <= j < |fs| ==> |fs[j]| == 4
    ensures |Concat(fs)| == 4 * |fs|
    ensures forall i :: 0 <= i < |fs| ==> Concat(fs)[4 * i..4 * i + 4] == fs[i]
  {
    if |fs| > 0 {
      var init := fs[..|fs| - 1];
      ConcatFields(init);
      forall i | 0 <= i < |fs|
        ensures Concat(fs)[4 * i..4 * i + 4] == fs[i]
      {
        if i < |init| {
          assert Concat(fs)[4 * i..4 * i + 4] == Concat(init)[4 * i..4 * i + 4];
        }
      }
    }
  }

  /** The header for a byte count, rate, bytes per frame and align word. */
  function HeaderOf(byteCount: int, outRate: int, outBps: int, alignBits: int): (h: seq<Byte>)
    ensures |h| == 44
  {
    var fs := Fields(byteCount, outRate, outBps, alignBits);
    ConcatFields(fs);
    Concat(fs)
  }

  /** The header writeWAV writes. */
  function HeaderAsWritten(byteCount: int, outRate: int, outBps: int): seq<Byte> {
    HeaderOf(byteCount, outRate, outBps, AlignBitsAsWritten(outBps))
  }

  /** The header fields a WAV reader takes from the 44 bytes. */
  datatype WavInfo = WavInfo(riffSize: int, formatTag: int, channels: int,
                             sampleRate: int, byteRate: int, blockAlign: int,
                             bitsPerSample: int, dataSize: int)

  /** The reader: the four tags must be in place and the fmt chunk must be
      16 bytes long; the numbers are read as unsigned little-endian 32-bit
      fields, or pairs of 16-bit ones. */
  function ParseHeader(h: seq<Byte>): (r: Option<WavInfo>)
    ensures r.Some? ==> |h| == 44 && h[..4] == Tag("RIFF") && h[36..40] == Tag("data")
  {
    if |h| != 44 || h[..4] != Tag("RIFF") || h[8..12] != Tag("WAVE") ||
       h[12..16] != Tag("fmt ") || ReadLE32(h[16..20]) != 16 || h[36..40] != Tag("data")
    then None
    else
      var fc := ReadLE32(h[20..24]);
      var ab := ReadLE32(h[32..36]);
      Some(WavInfo(ReadLE32(h[4..8]), fc % 0x1_0000, fc / 0x1_0000,
                   ReadLE32(h[24..28]), ReadLE32(h[28..32]),
                   ab % 0x1_0000, ab / 0x1_0000, ReadLE32(h[40..44])))
  }

  /** Euclidean division by 256 is determined by quotient and remainder. */
  lemma DivByte(y: int, q: int, r: int)
    requires 0 <= r < 256 && y == q * 256 + r
    ensures y / 256 == q && y % 256 == r
  {
  }

  /** Euclidean division by 2^16 is determined by quotient and remainder. */
  lemma DivWord(y: int, q: int, r: int)
    requires 0 <= r < 0x1_0000 && y == q * 0x1_0000 + r
    ensures y / 0x1_0000 == q && y % 0x1_0000 == r
  {
  }

  /** A number already in 0 .. 2^32-1 is its own low 32 bits. */
  lemma U32Small(v: int)
    requires 0 <= v < TwoTo32
    ensures U32(v) == v
  {
  }

  /** Reading back the four bytes of a 32-bit number gives the number. */
  lemma LE32RoundTrip(a: int)
    requires 0 <= a < TwoTo32
    ensures ReadLE32(LE32(a)) == a
  {
    var q1 := a / 256;
    var q2 := q1 / 256;
    var q3 := q2 / 256;
    DivByte(a, q1, a % 256);
    DivByte(q1, q2, q1 % 256);
    DivByte(q2, q3, q2 % 256);
  }

  /** Two 32-bit numbers get the same four bytes only when equal. */
  lemma LE32Injective(v: int, w: int)
    requires 0 <= v < TwoTo32 && 0 <= w < TwoTo32
    requires LE32(v) == LE32(w)
    ensures v == w
  {
    LE32RoundTrip(v);
    LE32RoundTrip(w);
  }

  /** The reader takes back what was put in each field: for a header whose
      fixed fields are in place, the numbers it reports are the ones the
      other fields hold. */
  lemma ParseFields(h: seq<Byte>, riff: int, rate: int, byteRate: int, ab: int, data: int)
    requires 0 <= riff < TwoTo32 && 0 <= rate < TwoTo32 && 0 <= byteRate < TwoTo32
    requires 0 <= ab < TwoTo32 && 0 <= data < TwoTo32
    requires |h| == 44 && h[..4] == Tag("RIFF") && h[4..8] == LE32(riff)
    requires h[8..12] == Tag("WAVE") && h[12..16] == Tag("fmt ")
    requires h[16..20] == LE32(16) && h[20..24] == LE32(0x00020001)
    requires h[24..28] == LE32(rate) && h[28..32] == LE32(byteRate)
    requires h[32..36] == LE32(ab) && h[36..40] == Tag("data") && h[40..44] == LE32(data)
    ensures ParseHeader(h) ==
            Some(WavInfo(riff, 1, 2, rate, byteRate, ab % 0x1_0000, ab / 0x1_0000, data))
  {
    LE32RoundTrip(16);
    LE32RoundTrip(0x00020001);
    LE32RoundTrip(riff);
    LE32RoundTrip(rate);
    LE32RoundTrip(byteRate);
    LE32RoundTrip(ab);
    LE32RoundTrip(data);
    DivWord(0x00020001, 2, 1);
  }

  /** What a reader finds in a header whose numbers fit their fields. */
  lemma ParseHeaderOf(byteCount: int, outRate: int, outBps: int, align: int, bits: int)
    requires 0 <= byteCount && byteCount + 36 < TwoTo32
    requires 0 <= outRate < TwoTo32 && 0 <= outRate * outBps < TwoTo32
    requires 0 <= align < 0x1_0000 && 0 <= bits < 0x1_0000
    ensures ParseHeader(HeaderOf(byteCount, outRate, outBps, align + 0x1_0000 * bits)) ==
            Some(WavInfo(byteCount + 36, 1, 2, outRate, outRate * outBps, align,
                         bits, byteCount))
  {
    var ab := align + 0x1_0000 * bits;
    var fs := Fields(byteCount, outRate, outBps, ab);
    var h := HeaderOf(byteCount, outRate, outBps, ab);
    ConcatFields(fs);
    assert h[..4] == fs[0] && h[4..8] == fs[1] && h[8..12] == fs[2] && h[12..16] == fs[3];
    assert h[16..20] == fs[4] && h[20..24] == fs[5] && h[24..28] == fs[6];
    assert h[28..32] == fs[7] && h[32..36] == fs[8] && h[36..40] == fs[9];
    assert h[40..44] == fs[10];
    DivWord(ab, bits, align);
    var byteRate := outRate * outBps;
    U32Small(byteCount + 36);
    U32Small(outRate);
    U32Small(byteRate);
    U32Small(ab);
    U32Small(byteCount);
    ParseFields(h, byteCount + 36, outRate, byteRate, ab, byteCount);
  }

  /** Read back, the header writeWAV gives an 8- or 16-bit stereo stream
      whose numbers fit their fields says: PCM (format 1), two channels,
      the rate, rate * out_bps bytes a second, block align 4, 8 or 16 bits,
      the data size and a RIFF size 36 bytes larger. */
  lemma ParseHeaderAsWritten(byteCount: int, outRate: int, outBps: int)
    requires 0 <= byteCount && byteCount + 36 < TwoTo32
    requires 0 <= outRate && outRate * outBps < TwoTo32
    requires outBps == 2 || outBps == 4
    ensures ParseHeader(HeaderAsWritten(byteCount, outRate, outBps)) ==
            Some(WavInfo(byteCount + 36, 1, 2, outRate, outRate * outBps, 4,
                         outBps * 4, byteCount))
  {
    ParseHeaderOf(byteCount, outRate, outBps, 4, outBps * 4);
  }

  /** The cap as written enlarges counts between 2^31 - 36 and 0xFFFFFFD4:
      asking for 3000000000 bytes yields 4294967252. */
  lemma CapAsWrittenEnlarges()
    ensures CapAsWritten(3000000000) == 4294967252 > 3000000000
  {
  }

  /** The 8-bit header's block align (4) disagrees with its byte rate
      (2 bytes a frame): a 44100 Hz 8-bit stream reads as 88200 bytes a
      second with 4-byte frames. */
  lemma BlockAlignAsWrittenInconsistent()
    ensures var i := ParseHeader(HeaderAsWritten(0, 44100, 2));
      i.Some? && i.value.byteRate == 88200 && i.value.blockAlign == 4 &&
      i.value.byteRate != i.value.sampleRate * i.value.blockAlign
  {
    ParseHeaderAsWritten(0, 44100, 2);
  }

  /** The cap as intended: a count that with the 36 header bytes would not
      fit the RIFF size field is cut to the largest that does; no count is
      made larger. */
  function Cap(byteCount: int): (c: int)
    ensures c <= byteCount
    ensures byteCount + 36 <= 0xFFFFFFF8 ==> c == byteCount
    ensures c + 36 <= 0xFFFFFFF8
  {
    if byteCount + 36 > 0xFFFFFFF8 then 0xFFFFFFF8 - 36 else byteCount
  }

  /** (int)v == v exactly when v is in the range of a 32-bit int. */
  lemma OverflowsIntRange(v: int)
    ensures OverflowsInt(v) <==> !(-TwoTo31 <= v < TwoTo31)
  {
    if -TwoTo31 <= v < TwoTo31 {
      assert (v + TwoTo31) % TwoTo32 == v + TwoTo31;
    }
  }

  /** From -36 up (byte_count is -1 for an unbounded stream), the cap as
      written agrees with the intended one exactly below 2^31 - 36 and from
      0xFFFFFFD4 up. */
  lemma CapAsWrittenAgrees(byteCount: int)
    requires -36 <= byteCount
    ensures CapAsWritten(byteCount) == Cap(byteCount) <==>
            byteCount + 36 < TwoTo31 || byteCount >= 0xFFFFFFF8 - 36
  {
    OverflowsIntRange(byteCount + 36);
  }

  /** The intended block-align word: the frame size out_bps in the low half. */
  function AlignBits(outBps: int): int {
    outBps + 0x10000 * (outBps * 4)
  }

  /** The intended header. */
  function Header(byteCount: int, outRate: int, outBps: int): seq<Byte> {
    HeaderOf(byteCount, outRate, outBps, AlignBits(outBps))
  }

  /** The intended header has the same fields as the written one except
      the block-align word, and is the written one for 16-bit output. */
  lemma HeaderDiffersOnlyInBlockAlign(byteCount: int, outRate: int, outBps: int)
    ensures var fs := Fields(byteCount, outRate, outBps, AlignBits(outBps));
      var gs := Fields(byteCount, outRate, outBps, AlignBitsAsWritten(outBps));
      forall j :: 0 <= j < 11 && j != 8 ==> fs[j] == gs[j]
    ensures outBps == 4 ==> Header(byteCount, outRate, outBps) == HeaderAsWritten(byteCount, outRate, outBps)
  {
  }

  /** For 8-bit output the block align byte (byte 32) is 2 in the intended
      header and 4 in the written one. */
  lemma BlockAlignByte8Bit(byteCount: int, outRate: int)
    ensures Header(byteCount, outRate, 2)[32] == 2
    ensures HeaderAsWritten(byteCount, outRate, 2)[32] == 4
  {
    AlignWordAt(byteCount, outRate, 2, AlignBits(2));
    AlignWordAt(byteCount, outRate, 2, AlignBitsAsWritten(2));
    assert AlignBits(2) == 0x80002 && AlignBitsAsWritten(2) == 0x80004;
    assert LE32(0x80002)[0] == 2 && LE32(0x80004)[0] == 4;
  }

  /** Bytes 32 to 35 of a header hold its block-align word. */
  lemma AlignWordAt(byteCount: int, outRate: int, outBps: int, alignBits: int)
    ensures HeaderOf(byteCount, outRate, outBps, alignBits)[32..36] == LE32(U32(alignBits))
  {
    var fs := Fields(byteCount, outRate, outBps, alignBits);
    ConcatFields(fs);
    assert Concat(fs)[4 * 8..4 * 8 + 4] == fs[8];
  }

  /** With the intended cap and header, any count from 0 up reads back as
      its capped value, the RIFF size is 36 more, the byte rate is the
      sample rate times the block align, and the block align is the two
      channels' bits in bytes. */
  lemma ParseHeaderIntended(byteCount: int, outRate: int, outBps: int)
    requires 0 <= byteCount
    requires 0 <= outRate && outRate * outBps < TwoTo32
    requires outBps == 2 || outBps == 4
    ensures var c := Cap(byteCount);
      var i := ParseHeader(Header(c, outRate, outBps));
      i == Some(WavInfo(c + 36, 1, 2, outRate, outRate * outBps, outBps, outBps * 4, c)) &&
      i.value.byteRate == i.value.sampleRate * i.value.blockAlign &&
      i.value.blockAlign * 8 == i.value.channels * i.value.bitsPerSample
  {
    ParseHeaderOf(Cap(byteCount), outRate, outBps, outBps, outBps * 4);
  }

  /** addStr: the four characters of s stored at p, the n-th field of the
      header, p advanced past them. */
  method AddStr(buf: array<Byte>, p: nat, s: string, ghost fs: seq<seq<Byte>>, ghost n: nat)
      returns (p': nat)
    requires |s| == 4 && forall i :: 0 <= i < 4 ==> s[i] as int < 256
    requires n < |fs| && fs[n] == Tag(s)
    requires p == 4 * n && p + 4 <= buf.Length && buf[..p] == Concat(fs[..n])
    modifies buf
    ensures p' == p + 4 && buf[..p'] == Concat(fs[..n + 1])
  {
    var q := 0;
    p' := p;
    while q < 4
      invariant 0 <= q <= 4 && p' == p + q
      invariant forall j :: p <= j < p' ==> buf[j] == s[j - p] as int
      invariant forall j :: 0 <= j < buf.Length && !(p <= j < p') ==> buf[j] == old(buf[j])
    {
      buf[p'] := s[q] as int;
      p' := p' + 1;
      q := q + 1;
    }
    Appended(old(buf[..]), buf[..], fs, n);
  }

  /** One round of (char)a, a >>= 8 on a and on a + m * 256 gives the
      same byte and quotients that differ by m. */
  lemma ShiftRound(a: int, m: int)
    ensures (a + m * 256) % 256 == a % 256
    ensures (a + m * 256) / 256 == a / 256 + m
  {
    DivByte(a, a / 256, a % 256);
    DivByte(a + m * 256, a / 256 + m, a % 256);
  }

  /** (char)a keeps the low eight bits and a >>= 8 shifts an int right
      arithmetically; four rounds of this on (int)v give the four bytes of
      v's low 32 bits. */
  lemma SignedBytes(v: int)
    ensures var s := Int32(v);
      LE32(U32(v)) == [s % 256, s / 256 % 256, s / 256 / 256 % 256,
                       s / 256 / 256 / 256 % 256]
  {
    var s := Int32(v);
    var u := U32(v);
    if s < 0 {
      assert u == s + 0x100_0000 * 256;
      ShiftRound(s, 0x100_0000);
      var s1 := s / 256;
      ShiftRound(s1, 0x1_0000);
      var s2 := s1 / 256;
      ShiftRound(s2, 0x100);
      var s3 := s2 / 256;
      ShiftRound(s3, 1);
    } else {
      assert u == s;
    }
  }

  /** addU4: int a = xx, then the low byte of a, four times, shifting a
      right by eight bits in between; the bytes are the n-th field of the
      header. */
  method AddU4(buf: array<Byte>, p: nat, xx: int, ghost fs: seq<seq<Byte>>, ghost n: nat)
      returns (p': nat)
    requires n < |fs| && fs[n] == LE32(U32(xx))
    requires p == 4 * n && p + 4 <= buf.Length && buf[..p] == Concat(fs[..n])
    modifies buf
    ensures p' == p + 4 && buf[..p'] == Concat(fs[..n + 1])
  {
    SignedBytes(xx);
    var a := Int32(xx);
    buf[p] := a % 256;
    a := a / 256;
    buf[p + 1] := a % 256;
    a := a / 256;
    buf[p + 2] := a % 256;
    a := a / 256;
    buf[p + 3] := a % 256;
    p' := p + 4;
    Appended(old(buf[..]), buf[..], fs, n);
  }

  /** Storing field n at offset 4 * n after the first n fields extends
      the prefix by that field. */
  lemma Appended(before: seq<Byte>, after: seq<Byte>, fs: seq<seq<Byte>>, n: nat)
    requires n < |fs| && |fs[n]| == 4
    requires 4 * n + 4 <= |after| == |before|
    requires before[..4 * n] == Concat(fs[..n])
    requires after[4 * n..4 * n + 4] == fs[n]
    requires forall j :: 0 <= j < |after| && !(4 * n <= j < 4 * n + 4) ==> after[j] == before[j]
    ensures after[..4 * n + 4] == Concat(fs[..n + 1])
  {
    assert fs[..n + 1][..n] == fs[..n];
    assert after[..4 * n + 4] == after[..4 * n] + after[4 * n..4 * n + 4];
    assert after[..4 * n] == before[..4 * n];
  }

  /** The first six addStr/addU4 steps of writeWAV: the RIFF tag and
      size, "WAVE", the fmt tag, its length and the format/channels word. */
  method FillRiffFmt(buf: array<Byte>, count: int, ghost fs: seq<seq<Byte>>)
    requires buf.Length == 44 && |fs| == 11
    requires fs[0] == Tag("RIFF") && fs[1] == LE32(U32(count + 36)) && fs[2] == Tag("WAVE")
    requires fs[3] == Tag("fmt ") && fs[4] == LE32(U32(16)) && fs[5] == LE32(U32(0x00020001))
    modifies buf
    ensures buf[..24] == Concat(fs[..6])
  {
    assert fs[..0] == [];
    var p := 0;
    p := AddStr(buf, p, "RIFF", fs, 0);
    p := AddU4(buf, p, count + 36, fs, 1);
    p := AddStr(buf, p, "WAVE", fs, 2);
    p := AddStr(buf, p, "fmt ", fs, 3);
    p := AddU4(buf, p, 16, fs, 4);
    p := AddU4(buf, p, 0x00020001, fs, 5);
  }

  /** The remaining five steps: rate, byte rate, the block-align word, the
      data tag and the data size. */
  method FillRates(buf: array<Byte>, count: int, outRate: int, byteRate: int, alignBits: int,
                   ghost fs: seq<seq<Byte>>)
    requires buf.Length == 44 && |fs| == 11 && buf[..24] == Concat(fs[..6])
    requires fs[6] == LE32(U32(outRate)) && fs[7] == LE32(U32(byteRate))
    requires fs[8] == LE32(U32(alignBits)) && fs[9] == Tag("data") && fs[10] == LE32(U32(count))
    modifies buf
    ensures buf[..] == Concat(fs)
  {
    var p := 24;
    p := AddU4(buf, p, outRate, fs, 6);
    p := AddU4(buf, p, byteRate, fs, 7);
    p := AddU4(buf, p, alignBits, fs, 8);
    p := AddStr(buf, p, "data", fs, 9);
    p := AddU4(buf, p, count, fs, 10);
    assert fs[..11] == fs;
    assert buf[..] == buf[..44];
  }

  /** writeWAV(): the byte count after the cap, and the 44 header bytes. */
  method WriteWAV(byteCount: int, outRate: int, outBps: int)
      returns (count: int, buf: array<Byte>)
    ensures count == CapAsWritten(byteCount)
    ensures buf.Length == 44 && buf[..] == HeaderAsWritten(count, outRate, outBps)
  {
    count := byteCount;
    if count + 36 != Int32(count + 36) {
      count := 0xFFFFFFF8 - 36;
    }
    buf := new Byte[44];
    ghost var fs := Fields(count, outRate, outBps, AlignBitsAsWritten(outBps));
    FillRiffFmt(buf, count, fs);
    FillRates(buf, count, outRate, outRate * outBps, 0x0004 + 0x10000 * (outBps * 4), fs);
  }
}
