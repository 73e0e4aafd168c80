/** The WAV encoder of the recorder: a decoded audio buffer becomes a canonical 44-byte RIFF/WAVE
    header (a 16-byte `fmt ` chunk with PCM format 1) followed by interleaved 16-bit little-endian
    PCM samples. `DecodeWav` is an independent reader of that layout, used to state round trips. */
module Wav {
  import opened Wrappers

  type Byte = x: int | 0 <= x < 256

  const Two16: nat := 0x1_0000
  const Two32: nat := 0x1_0000_0000
  const HeaderSize: nat := 44
  const BitDepth: nat := 16
  const BytesPerSample: nat := 2
  const FormatPcm: nat := 1
  const FmtChunkSize: nat := 16

  const RiffTag: seq<Byte> := [0x52, 0x49, 0x46, 0x46]  // "RIFF"
  const WaveTag: seq<Byte> := [0x57, 0x41, 0x56, 0x45]  // "WAVE"
  const FmtTag: seq<Byte> := [0x66, 0x6d, 0x74, 0x20]   // "fmt "
  const DataTag: seq<Byte> := [0x64, 0x61, 0x74, 0x61]  // "data"

  /** `writeString`: one byte per character, the character code taken modulo 256 as `setUint8` does. */
  function WriteString(s: string): (b: seq<Byte>)
    ensures |b| == |s|
  {
    seq(|s|, i requires 0 <= i < |s| => (s[i] as int) % 256)
  }

  /** The four chunk tags are the ASCII spellings the writer uses. */
  lemma TagsAreAscii()
    ensures WriteString("RIFF") == RiffTag && WriteString("WAVE") == WaveTag
    ensures WriteString("fmt ") == FmtTag && WriteString("data") == DataTag
  {
  }

  // ---------------------------------------------------------------------------
  // Little-endian integers, as DataView writes them with `littleEndian = true`
  // ---------------------------------------------------------------------------

  /** `setUint16`/`setInt16`: the value reduced modulo 2^16, low byte first. */
  function LE16(v: int): (b: seq<Byte>)
    ensures |b| == 2
  {
    var u := v % Two16;
    [u % 256, u / 256]
  }

  /** `setUint32`: the value reduced modulo 2^32, least significant byte first, i.e. its low
      16-bit half followed by its high half. */
  function LE32(v: int): (b: seq<Byte>)
    ensures |b| == 4
  {
    var u := v % Two32;
    LE16(u % Two16) + LE16(u / Two16)
  }

  function ReadLE16(b: seq<Byte>): (v: nat)
    requires |b| == 2
    ensures v < Two16
  {
    b[0] as int + 0x100 * (b[1] as int)
  }

  function ReadLE32(b: seq<Byte>): (v: nat)
    requires |b| == 4
    ensures v < Two32
  {
    ReadLE16(b[0..2]) + Two16 * ReadLE16(b[2..4])
  }

  /** Reads a two's-complement 16-bit value. */
  function ReadInt16(b: seq<Byte>): (v: int)
    requires |b| == 2
    ensures -0x8000 <= v < 0x8000
  {
    var u := ReadLE16(b);
    if u >= 0x8000 then u - Two16 else u
  }

  lemma LE16RoundTrip(v: int)
    ensures ReadLE16(LE16(v)) == v % Two16
  {
  }

  lemma LE16OfRead(b: seq<Byte>)
    requires |b| == 2
    ensures LE16(ReadLE16(b)) == b
  {
    var u := ReadLE16(b);
    assert u % Two16 == u;
    assert u % 256 == b[0];
    assert u / 256 == b[1];
  }

  lemma LE32RoundTrip(v: int)
    ensures ReadLE32(LE32(v)) == v % Two32
  {
    var u := v % Two32;
    var b := LE32(v);
    assert b[0..2] == LE16(u % Two16) && b[2..4] == LE16(u / Two16);
    LE16RoundTrip(u % Two16);
    LE16RoundTrip(u / Two16);
    ModSmall(u % Two16, Two16);
    ModSmall(u / Two16, Two16);
  }

  lemma LE32OfRead(b: seq<Byte>)
    requires |b| == 4
    ensures LE32(ReadLE32(b)) == b
  {
    var lo := ReadLE16(b[0..2]);
    var hi := ReadLE16(b[2..4]);
    var u := lo + Two16 * hi;
    ModSmall(u, Two32);
    assert u % Two16 == lo && u / Two16 == hi;
    LE16OfRead(b[0..2]);
    LE16OfRead(b[2..4]);
    assert b == b[0..2] + b[2..4];
  }

  /** A value in the signed 16-bit range is read back unchanged after `setInt16`. */
  lemma Int16RoundTrip(s: int)
    requires -0x8000 <= s < 0x8000
    ensures ReadInt16(LE16(s)) == s
  {
    LE16RoundTrip(s);
  }

  // ---------------------------------------------------------------------------
  // Sample conversion
  // ---------------------------------------------------------------------------

  /** `Math.max(-1, Math.min(1, x))`. */
  function Clamp(x: real): (c: real)
    ensures -1.0 <= c <= 1.0
    ensures -1.0 <= x <= 1.0 ==> c == x
    ensures x < -1.0 ==> c == -1.0
    ensures x > 1.0 ==> c == 1.0
  {
    if x < -1.0 then -1.0 else if x > 1.0 then 1.0 else x
  }

  /** The asymmetric scaling: negatives by 32768, non-negatives by 32767. */
  function Scale(c: real): real {
    if c < 0.0 then c * 32768.0 else c * 32767.0
  }

  /** ECMAScript ToIntegerOrInfinity on a finite number: truncation toward zero. */
  function Truncate(r: real): (i: int)
    ensures r >= 0.0 ==> i as real <= r < i as real + 1.0
    ensures r < 0.0 ==> i as real - 1.0 < r <= i as real
  {
    if r >= 0.0 then r.Floor else -((-r).Floor)
  }

  /** The 16-bit PCM value `setInt16` stores for a floating sample `x`. */
  function PcmSample(x: real): (s: int)
    ensures -0x8000 <= s <= 0x7fff
    ensures x <= -1.0 ==> s == -0x8000
    ensures x >= 1.0 ==> s == 0x7fff
    ensures x >= 0.0 ==> s >= 0
    ensures x <= 0.0 ==> s <= 0
    ensures -1.0 < s as real - Scale(Clamp(x)) < 1.0
  {
    Truncate(Scale(Clamp(x)))
  }

  // ---------------------------------------------------------------------------
  // Audio buffers and the encoder
  // ---------------------------------------------------------------------------

  /** A decoded `AudioBuffer`: sample rate, frame count and one array of `length` samples per channel. */
  datatype AudioBuffer = AudioBuffer(sampleRate: nat, length: nat, channelData: seq<seq<real>>) {

    function NumberOfChannels(): nat {
      |channelData|
    }

    predicate Valid() {
      forall c :: 0 <= c < |channelData| ==> |channelData[c]| == length
    }
  }

  /** `i * n + c` addresses a slot below `f * n` whenever `i < f` and `c < n`. */
  lemma SlotBelow(i: nat, c: nat, n: nat, f: nat)
    requires i < f && c < n
    ensures i * n + c < f * n
  {
    MulMonotone(i + 1, f, n);
    assert (i + 1) * n == i * n + n;
  }

  lemma {:induction false} MulMonotone(a: nat, b: nat, n: nat)
    requires a <= b
    ensures a * n <= b * n
    decreases b - a
  {
    if a < b {
      MulMonotone(a + 1, b, n);
      assert (a + 1) * n == a * n + n;
    }
  }

  /** The samples of frame `i`, one per channel. */
  function Frame(buf: AudioBuffer, i: nat): (f: seq<real>)
    requires buf.Valid() && i < buf.length
    ensures |f| == buf.NumberOfChannels()
    ensures forall c :: 0 <= c < |f| ==> f[c] == buf.channelData[c][i]
  {
    seq(buf.NumberOfChannels(), c requires 0 <= c < buf.NumberOfChannels() => buf.channelData[c][i])
  }

  /** The first `frames` frames in the order the encoder's nested loop visits them. */
  function Interleave(buf: AudioBuffer, frames: nat): (s: seq<real>)
    requires buf.Valid() && frames <= buf.length
    ensures |s| == frames * buf.NumberOfChannels()
  {
    if frames == 0 then []
    else
      var n := buf.NumberOfChannels();
      assert (frames - 1) * n + n == frames * n;
      Interleave(buf, frames - 1) + Frame(buf, frames - 1)
  }

  /** Frame `i`, channel `c` sits at slot `i * channels + c` of the interleaved samples. */
  lemma {:induction false} InterleaveAt(buf: AudioBuffer, frames: nat, i: nat, c: nat)
    requires buf.Valid() && frames <= buf.length
    requires i < frames && c < buf.NumberOfChannels()
    ensures i * buf.NumberOfChannels() + c < frames * buf.NumberOfChannels()
    ensures Interleave(buf, frames)[i * buf.NumberOfChannels() + c] == buf.channelData[c][i]
    decreases frames
  {
    var n := buf.NumberOfChannels();
    var prefix := Interleave(buf, frames - 1);
    SlotBelow(i, c, n, frames);
    if i < frames - 1 {
      SlotBelow(i, c, n, frames - 1);
      InterleaveAt(buf, frames - 1, i, c);
    } else {
      assert i * n + c == |prefix| + c;
    }
  }

  /** The data chunk: each sample written with `setInt16`, two bytes each, in order. */
  function EncodeSamples(samples: seq<real>): (b: seq<Byte>)
    ensures |b| == 2 * |samples|
  {
    if samples == [] then []
    else LE16(PcmSample(samples[0])) + EncodeSamples(samples[1..])
  }

  /** Sample `k` occupies bytes `2k` and `2k + 1` of the data chunk. */
  lemma {:induction false} EncodeSamplesAt(samples: seq<real>, k: nat)
    requires k < |samples|
    ensures EncodeSamples(samples)[2 * k..2 * k + 2] == LE16(PcmSample(samples[k]))
    decreases k
  {
    var b := EncodeSamples(samples);
    var rest := EncodeSamples(samples[1..]);
    assert b == LE16(PcmSample(samples[0])) + rest;
    if k > 0 {
      EncodeSamplesAt(samples[1..], k - 1);
      assert samples[1..][k - 1] == samples[k];
      assert b[2 * k..2 * k + 2] == rest[2 * (k - 1)..2 * (k - 1) + 2];
    }
  }

  lemma HeaderPrefix(h: seq<Byte>, data: seq<Byte>)
    requires |h| == HeaderSize
    ensures (h + data)[0..4] == h[0..4] && (h + data)[8..12] == h[8..12]
    ensures (h + data)[12..16] == h[12..16] && (h + data)[36..40] == h[36..40]
  {
  }

  lemma HeaderSuffix(h: seq<Byte>, data: seq<Byte>, a: nat)
    requires |h| == HeaderSize && a + 2 <= |data|
    ensures (h + data)[HeaderSize + a..HeaderSize + a + 2] == data[a..a + 2]
  {
  }

  /** `frames * channels` samples of two bytes each: `frames * channels * 2` bytes, none when
      either factor is zero. */
  lemma SampleBytes(frames: nat, n: nat)
    ensures 2 * (frames * n) == frames * n * BytesPerSample
    ensures n == 0 || frames == 0 ==> frames * n == 0
  {
  }

  /** The 44-byte header: RIFF chunk, 16-byte `fmt ` chunk (PCM, 16 bits), `data` chunk header. */
  function Header(channels: nat, sampleRate: nat, dataSize: nat): (h: seq<Byte>)
    ensures |h| == HeaderSize
    ensures h[0..4] == RiffTag && h[8..12] == WaveTag && h[12..16] == FmtTag && h[36..40] == DataTag
  {
    var blockAlign := channels * BytesPerSample;
    var byteRate := sampleRate * blockAlign;
    var riff := RiffTag + LE32(36 + dataSize) + WaveTag;
    var fmt := FmtTag + LE32(FmtChunkSize) + LE16(FormatPcm) + LE16(channels) + LE32(sampleRate)
      + LE32(byteRate) + LE16(blockAlign) + LE16(BitDepth);
    var data := DataTag + LE32(dataSize);
    assert |riff| == 12 && |fmt| == 24 && |data| == 8;
    assert riff[0..4] == RiffTag && riff[8..12] == WaveTag;
    assert fmt[0..4] == FmtTag && data[0..4] == DataTag;
    var h := riff + fmt + data;
    assert h[0..4] == riff[0..4] && h[8..12] == riff[8..12];
    assert h[12..16] == fmt[0..4] && h[36..40] == data[0..4];
    h
  }

  /** `encodeWav`: the complete WAV byte buffer for a decoded audio buffer. */
  function EncodeWav(buf: AudioBuffer): (r: seq<Byte>)
    requires buf.Valid()
    ensures |r| == HeaderSize + buf.length * buf.NumberOfChannels() * BytesPerSample
    ensures buf.NumberOfChannels() == 0 || buf.length == 0 ==> |r| == HeaderSize
    ensures r[0..4] == RiffTag && r[8..12] == WaveTag && r[12..16] == FmtTag && r[36..40] == DataTag
  {
    var n := buf.NumberOfChannels();
    var dataSize := buf.length * (n * BytesPerSample);
    var h := Header(n, buf.sampleRate, dataSize);
    var data := EncodeSamples(Interleave(buf, buf.length));
    SampleBytes(buf.length, n);
    HeaderPrefix(h, data);
    h + data
  }

  /** The sample of frame `i`, channel `c` sits at byte `44 + 2 * (i * channels + c)` as a
      little-endian 16-bit PCM value. */
  lemma EncodeWavSampleAt(buf: AudioBuffer, i: nat, c: nat)
    requires buf.Valid() && i < buf.length && c < buf.NumberOfChannels()
    ensures var at := HeaderSize + 2 * (i * buf.NumberOfChannels() + c);
      at + 2 <= |EncodeWav(buf)| && EncodeWav(buf)[at..at + 2] == LE16(PcmSample(buf.channelData[c][i]))
  {
    var n := buf.NumberOfChannels();
    var samples := Interleave(buf, buf.length);
    var data := EncodeSamples(samples);
    var r := EncodeWav(buf);
    InterleaveAt(buf, buf.length, i, c);
    var k := i * n + c;
    var h := Header(n, buf.sampleRate, buf.length * (n * BytesPerSample));
    assert r == h + data;
    assert k < |samples| && 2 * k + 2 <= |data|;
    EncodeSamplesAt(samples, k);
    HeaderSuffix(h, data, 2 * k);
  }

  // ---------------------------------------------------------------------------
  // An independent reader of the canonical layout
  // ---------------------------------------------------------------------------

  datatype WavHeader = WavHeader(
    chunkSize: nat,
    fmtSize: nat,
    audioFormat: nat,
    channels: nat,
    sampleRate: nat,
    byteRate: nat,
    blockAlign: nat,
    bitsPerSample: nat,
    dataSize: nat)

  /** Reads the canonical 44-byte header; `None` when it is too short or a chunk tag differs. */
  function ParseHeader(b: seq<Byte>): Option<WavHeader> {
    if |b| < HeaderSize || b[0..4] != RiffTag || b[8..12] != WaveTag || b[12..16] != FmtTag || b[36..40] != DataTag then
      None
    else
      Some(WavHeader(
        ReadLE32(b[4..8]), ReadLE32(b[16..20]), ReadLE16(b[20..22]), ReadLE16(b[22..24]),
        ReadLE32(b[24..28]), ReadLE32(b[28..32]), ReadLE16(b[32..34]), ReadLE16(b[34..36]),
        ReadLE32(b[40..44])))
  }

  /** The header fields the encoder writes for `buf`, each reduced to its field width. */
  function WrittenHeader(buf: AudioBuffer): WavHeader {
    var n := buf.NumberOfChannels();
    var blockAlign := n * BytesPerSample;
    var dataSize := buf.length * blockAlign;
    WavHeader(
      (36 + dataSize) % Two32, FmtChunkSize, FormatPcm, n % Two16, buf.sampleRate % Two32,
      (buf.sampleRate * blockAlign) % Two32, blockAlign % Two16, BitDepth, dataSize % Two32)
  }

  /** Reading the header of an encoded buffer yields the fields the encoder computed:
      ChunkSize = 36 + dataSize, fmt size 16, format 1, ByteRate = sampleRate * blockAlign,
      BlockAlign = channels * 2, 16 bits per sample, data size = frames * blockAlign
      (each modulo its field width, as DataView stores it). */
  lemma ParseHeaderOfEncode(buf: AudioBuffer)
    requires buf.Valid()
    ensures ParseHeader(EncodeWav(buf)) == Some(WrittenHeader(buf))
  {
    var n := buf.NumberOfChannels();
    var blockAlign := n * BytesPerSample;
    var dataSize := buf.length * blockAlign;
    var r := EncodeWav(buf);
    assert r[4..8] == LE32(36 + dataSize);
    assert r[16..20] == LE32(FmtChunkSize);
    assert r[20..22] == LE16(FormatPcm);
    assert r[22..24] == LE16(n);
    assert r[24..28] == LE32(buf.sampleRate);
    assert r[28..32] == LE32(buf.sampleRate * blockAlign);
    assert r[32..34] == LE16(blockAlign);
    assert r[34..36] == LE16(BitDepth);
    assert r[40..44] == LE32(dataSize);
    LE32RoundTrip(36 + dataSize);
    LE32RoundTrip(FmtChunkSize);
    LE32RoundTrip(buf.sampleRate);
    LE32RoundTrip(buf.sampleRate * blockAlign);
    LE32RoundTrip(dataSize);
    LE16RoundTrip(FormatPcm);
    LE16RoundTrip(n);
    LE16RoundTrip(blockAlign);
    LE16RoundTrip(BitDepth);
  }

  /** Every field fits its width, so nothing wraps (true of any real audio buffer). */
  predicate FitsHeader(buf: AudioBuffer) {
    var blockAlign := buf.NumberOfChannels() * BytesPerSample;
    && blockAlign < Two16
    && buf.sampleRate < Two32
    && buf.sampleRate * blockAlign < Two32
    && 36 + buf.length * blockAlign < Two32
  }

  /** With no wrap-around the header states the buffer's exact geometry, and the data-size field
      equals the number of bytes after the header. */
  lemma HeaderExact(buf: AudioBuffer)
    requires buf.Valid() && FitsHeader(buf)
    ensures var h := WrittenHeader(buf);
      && h.channels == buf.NumberOfChannels()
      && h.blockAlign == 2 * buf.NumberOfChannels()
      && h.sampleRate == buf.sampleRate
      && h.byteRate == buf.sampleRate * h.blockAlign
      && h.dataSize == |EncodeWav(buf)| - HeaderSize
      && h.chunkSize == 36 + h.dataSize
  {
    var n := buf.NumberOfChannels();
    var blockAlign := n * BytesPerSample;
    var dataSize := buf.length * blockAlign;
    EncodedLength(buf);
    ModSmall(36 + dataSize, Two32);
    ModSmall(dataSize, Two32);
    ModSmall(blockAlign, Two16);
    ModSmall(n, Two16);
    ModSmall(buf.sampleRate, Two32);
    ModSmall(buf.sampleRate * blockAlign, Two32);
  }

  lemma EncodedLength(buf: AudioBuffer)
    requires buf.Valid()
    ensures |EncodeWav(buf)| == HeaderSize + buf.length * (buf.NumberOfChannels() * BytesPerSample)
  {
    Associate(buf.length, buf.NumberOfChannels(), BytesPerSample);
  }

  lemma Associate(a: nat, b: nat, c: nat)
    ensures a * b * c == a * (b * c)
  {
  }

  lemma ModSmall(x: nat, m: nat)
    requires x < m
    ensures x % m == x
  {
  }

  lemma DivExact(f: nat, d: nat)
    requires d > 0
    ensures (f * d) / d == f
  {
    var q := (f * d) / d;
    var r := (f * d) % d;
    assert f * d == q * d + r;
    if f > q {
      MulAtLeast(f - q, d);
      Distribute(f, q, d);
    } else if f < q {
      MulAtLeast(q - f, d);
      Distribute(q, f, d);
    }
  }

  lemma MulAtLeast(x: int, d: nat)
    requires x >= 1
    ensures x * d >= d
  {
  }

  lemma Distribute(a: int, b: int, d: int)
    ensures (a - b) * d == a * d - b * d
  {
  }

  /** Frames described by a header: data size over block size (none for zero channels). */
  function FrameCount(h: WavHeader): nat {
    if h.channels == 0 then 0 else h.dataSize / (h.channels * BytesPerSample)
  }

  lemma FrameCountFits(h: WavHeader)
    ensures FrameCount(h) * h.channels * BytesPerSample <= h.dataSize
  {
    if h.channels > 0 {
      var d := h.channels * BytesPerSample;
      assert FrameCount(h) * d <= h.dataSize;
      assert FrameCount(h) * h.channels * BytesPerSample == FrameCount(h) * d;
    }
  }

  /** The 16-bit sample of frame `i`, channel `c` of an interleaved data chunk. */
  function ReadSample(b: seq<Byte>, n: nat, f: nat, i: nat, c: nat): int
    requires i < f && c < n && HeaderSize + f * n * BytesPerSample <= |b|
  {
    SlotBelow(i, c, n, f);
    var at := HeaderSize + 2 * (i * n + c);
    ReadInt16(b[at..at + 2])
  }

  /** A decoded WAV: its header and `samples[c][i]`, the value of frame `i` on channel `c`. */
  datatype DecodedWav = DecodedWav(header: WavHeader, samples: seq<seq<int>>)

  /** Reads a 16-bit PCM WAV in the canonical layout back into per-channel sample arrays. */
  function DecodeWav(b: seq<Byte>): Option<DecodedWav> {
    match ParseHeader(b)
    case None => None
    case Some(h) =>
      if h.audioFormat != FormatPcm || h.bitsPerSample != BitDepth || HeaderSize + h.dataSize > |b| then None
      else
        var f := FrameCount(h);
        FrameCountFits(h);
        Some(DecodedWav(h, seq(h.channels, c requires 0 <= c < h.channels =>
          seq(f, i requires 0 <= i < f => ReadSample(b, h.channels, f, i, c)))))
  }

  /** The PCM values the encoder stores, per channel and frame. */
  function Quantize(buf: AudioBuffer): seq<seq<int>>
    requires buf.Valid()
  {
    seq(buf.NumberOfChannels(), c requires 0 <= c < buf.NumberOfChannels() =>
      seq(buf.length, i requires 0 <= i < buf.length => PcmSample(buf.channelData[c][i])))
  }

  /** Decoding an encoded buffer returns its header and, for every frame and channel, the clamped
      and scaled sample truncated to 16 bits (within one quantisation step of the input). */
  lemma DecodeOfEncode(buf: AudioBuffer)
    requires buf.Valid() && FitsHeader(buf)
    ensures DecodeWav(EncodeWav(buf)) == Some(DecodedWav(WrittenHeader(buf), Quantize(buf)))
  {
    var r := EncodeWav(buf);
    var n := buf.NumberOfChannels();
    var f := buf.length;
    var h := WrittenHeader(buf);
    ParseHeaderOfEncode(buf);
    HeaderExact(buf);
    FrameCountOfEncode(buf);
    SamplesOfEncode(buf, r, h);
  }

  lemma FrameCountOfEncode(buf: AudioBuffer)
    requires buf.Valid() && FitsHeader(buf)
    ensures buf.NumberOfChannels() > 0 ==> FrameCount(WrittenHeader(buf)) == buf.length
  {
    var n := buf.NumberOfChannels();
    var d := n * BytesPerSample;
    var h := WrittenHeader(buf);
    if n > 0 {
      ModSmall(buf.length * d, Two32);
      ModSmall(n, Two16);
      assert h.dataSize == buf.length * d;
      DivExact(buf.length, d);
    }
  }

  lemma SamplesOfEncode(buf: AudioBuffer, r: seq<Byte>, h: WavHeader)
    requires buf.Valid() && r == EncodeWav(buf)
    requires ParseHeader(r) == Some(h) && h == WrittenHeader(buf)
    requires h.channels == buf.NumberOfChannels()
    requires buf.NumberOfChannels() > 0 ==> FrameCount(h) == buf.length
    requires h.dataSize == |r| - HeaderSize
    ensures DecodeWav(r) == Some(DecodedWav(h, Quantize(buf)))
  {
    var n := buf.NumberOfChannels();
    var f := buf.length;
    FrameCountFits(h);
    assert h.audioFormat == FormatPcm && h.bitsPerSample == BitDepth && HeaderSize + h.dataSize <= |r|;
    var decoded := DecodeWav(r);
    assert decoded.Some? && decoded.value.header == h;
    var s := decoded.value.samples;
    var q := Quantize(buf);
    assert |s| == n == |q|;
    forall c | 0 <= c < n
      ensures s[c] == q[c]
    {
      forall i | 0 <= i < f
        ensures s[c][i] == q[c][i]
      {
        assert s[c][i] == ReadSample(r, n, f, i, c);
        EncodeWavSampleAt(buf, i, c);
        Int16RoundTrip(PcmSample(buf.channelData[c][i]));
      }
    }
    assert s == q;
  }
}
