/**
  Audio export: `exportToWav` serialises an audio buffer as a RIFF/WAVE file
  (the 'fmt ' chunk with WAVE_FORMAT_PCM followed by the 'data' chunk, as the
  Microsoft/IBM Multimedia Programming Interface and Data Specifications 1.0
  lay them out) holding 16-bit little-endian PCM, channels interleaved frame by
  frame. The writes go through a DataView on a fixed-size byte buffer, modelled
  as an array of bytes written at a running offset. `mixTracks` is modelled
  only in its rejection of an empty list and the size of the buffer it renders.
 */
module AudioExport {
  import opened Common

  newtype u8 = x: int | 0 <= x < 256

  /** An `AudioBuffer`: `channelData[c][i]` is sample i of channel c. */
  datatype AudioBuffer = AudioBuffer(numberOfChannels: nat, length: nat, sampleRate: nat, channelData: seq<seq<real>>)

  /** What the Web Audio API guarantees of a buffer: one sample array per channel, each of
      the buffer's length. */
  predicate WellFormed(b: AudioBuffer)
  {
    && |b.channelData| == b.numberOfChannels
    && forall c :: 0 <= c < |b.channelData| ==> |b.channelData[c]| == b.length
  }

  const HeaderSize: nat := 44
  const Two16: int := 0x1_0000
  const Two32: int := 0x1_0000_0000

  // ---------------------------------------------------------------- encodings

  /** `setUint32(offset, x, true)`: x reduced modulo 2^32, least significant byte first. */
  function Le32(x: int): (r: seq<u8>)
    ensures |r| == 4
  {
    var v := x % Two32;
    [(v % 256) as u8, (v / 0x100 % 256) as u8, (v / 0x1_0000 % 256) as u8, (v / 0x100_0000 % 256) as u8]
  }

  /** `setUint16` / `setInt16`: x reduced modulo 2^16, least significant byte first; a
      negative value is stored in two's complement. */
  function Le16(x: int): (r: seq<u8>)
    ensures |r| == 2
  {
    var v := x % Two16;
    [(v % 256) as u8, (v / 0x100 % 256) as u8]
  }

  /** `writeString`: one byte per character code. */
  function Ascii(s: string): (r: seq<u8>)
    requires forall i :: 0 <= i < |s| ==> s[i] as int < 256
    ensures |r| == |s|
    ensures forall i :: 0 <= i < |s| ==> r[i] as int == s[i] as int
  {
    seq(|s|, i requires 0 <= i < |s| => s[i] as int as u8)
  }

  /** Reading back a little-endian unsigned field. */
  function ReadU32(s: seq<u8>, at: nat): int
    requires at + 4 <= |s|
  {
    s[at] as int + 256 * s[at + 1] as int + 65536 * s[at + 2] as int + 16777216 * s[at + 3] as int
  }

  function ReadU16(s: seq<u8>, at: nat): int
    requires at + 2 <= |s|
  {
    s[at] as int + 256 * s[at + 1] as int
  }

  /** Reading back a little-endian two's-complement 16-bit field. */
  function ReadI16(s: seq<u8>, at: nat): int
    requires at + 2 <= |s|
  {
    var u := ReadU16(s, at);
    if u >= 0x8000 then u - Two16 else u
  }

  /** The 32-bit field reads back as its value modulo 2^32. */
  lemma Le32RoundTrip(x: int)
    ensures ReadU32(Le32(x), 0) == x % Two32
  {
    var v := x % Two32;
    var q1, q2, q3 := v / 0x100, v / 0x1_0000, v / 0x100_0000;
    assert v == 256 * q1 + v % 256;
    assert q1 / 256 == q2 && q2 / 256 == q3;
    assert q1 == 256 * q2 + q1 % 256;
    assert q2 == 256 * q3 + q2 % 256;
    assert q3 < 256;
  }

  /** The 16-bit field reads back as its value modulo 2^16, and a value in the int16 range
      reads back unchanged as a signed field. */
  lemma Le16RoundTrip(x: int)
    ensures ReadU16(Le16(x), 0) == x % Two16
    ensures -0x8000 <= x < 0x8000 ==> ReadI16(Le16(x), 0) == x
  {
    var v := x % Two16;
    assert v == 256 * (v / 0x100) + v % 256;
  }

  // ---------------------------------------------------------------- samples

  /** `Math.max(-1, Math.min(1, x))`. */
  function Clamp(x: real): (r: real)
    ensures -1.0 <= r <= 1.0
    ensures -1.0 <= x <= 1.0 ==> r == x
  {
    if x > 1.0 then 1.0 else if x < -1.0 then -1.0 else x
  }

  /** The integer `setInt16` stores for a real value: truncation toward zero. */
  function Truncate(x: real): (r: int)
    ensures x >= 0.0 ==> r as real <= x < r as real + 1.0
    ensures x < 0.0 ==> r as real - 1.0 < x <= r as real
  {
    if x >= 0.0 then x.Floor else -((-x).Floor)
  }

  /** The 16-bit value a sample becomes: clamped, scaled by 0x7FFF and truncated. */
  function Pcm(sample: real): (r: int)
    ensures -32767 <= r <= 32767
    ensures sample >= 1.0 ==> r == 32767
    ensures sample <= -1.0 ==> r == -32767
    ensures sample == 0.0 ==> r == 0
  {
    Truncate(Clamp(sample) * 32767.0)
  }

  /** Frame i's samples of channels 0 .. k-1, as 16-bit fields. */
  function ChannelBytes(b: AudioBuffer, i: nat, k: nat): (r: seq<u8>)
    requires WellFormed(b) && i < b.length && k <= b.numberOfChannels
    ensures |r| == 2 * k
  {
    if k == 0 then [] else ChannelBytes(b, i, k - 1) + Le16(Pcm(b.channelData[k - 1][i]))
  }

  /** The first n frames, interleaved. */
  function SampleBytes(b: AudioBuffer, n: nat): (r: seq<u8>)
    requires WellFormed(b) && n <= b.length
    ensures |r| == 2 * n * b.numberOfChannels
  {
    if n == 0 then []
    else
      var r := SampleBytes(b, n - 1) + ChannelBytes(b, n - 1, b.numberOfChannels);
      assert 2 * (n - 1) * b.numberOfChannels + 2 * b.numberOfChannels == 2 * n * b.numberOfChannels;
      r
  }

  /** The RIFF chunk header: tag, size of the rest of the file, form type. */
  function RiffChunk(dataLength: int): (r: seq<u8>)
    ensures |r| == 12
  {
    Ascii("RIFF") + Le32(36 + dataLength) + Ascii("WAVE")
  }

  /** The 'fmt ' chunk of a 16-bit PCM format. */
  function FmtChunk(channels: nat, sampleRate: nat): (r: seq<u8>)
    ensures |r| == 24
  {
    FmtBytes(16, 1, channels, sampleRate, sampleRate * channels * 2, channels * 2, 16)
  }

  /** The 'fmt ' tag followed by the seven field values, in the widths the format gives them. */
  function FmtBytes(size: int, format: int, channels: int, sampleRate: int, byteRate: int, blockAlign: int, bits: int): (r: seq<u8>)
    ensures |r| == 24
  {
    Ascii("fmt ") + Le32(size) + Le16(format) + Le16(channels) + Le32(sampleRate)
    + Le32(byteRate) + Le16(blockAlign) + Le16(bits)
  }

  /** The 'data' chunk's tag and size. */
  function DataChunkHeader(dataLength: int): (r: seq<u8>)
    ensures |r| == 8
  {
    Ascii("data") + Le32(dataLength)
  }

  /** The 44-byte header. */
  function Header(b: AudioBuffer): (r: seq<u8>)
    ensures |r| == HeaderSize
  {
    var dataLength := b.length * b.numberOfChannels * 2;
    RiffChunk(dataLength) + FmtChunk(b.numberOfChannels, b.sampleRate) + DataChunkHeader(dataLength)
  }

  /** The whole file. */
  function WavBytes(b: AudioBuffer): seq<u8>
    requires WellFormed(b)
  {
    Header(b) + SampleBytes(b, b.length)
  }

  // ---------------------------------------------------------------- properties

  /** The file is the header and two bytes per sample. */
  lemma WavSize(b: AudioBuffer)
    requires WellFormed(b)
    ensures |WavBytes(b)| == 44 + b.length * b.numberOfChannels * 2
  {
    FileSize(b.length, b.numberOfChannels);
  }

  /** The chunk tags sit at offsets 0, 8, 12 and 36. */
  lemma WavTags(b: AudioBuffer)
    requires WellFormed(b)
    ensures var w := WavBytes(b);
      && w[0..4] == Ascii("RIFF") && w[8..12] == Ascii("WAVE")
      && w[12..16] == Ascii("fmt ") && w[36..40] == Ascii("data")
  {
    var h := Header(b);
    assert WavBytes(b)[..44] == h;
  }

  /** The RIFF size field reads back modulo 2^32. */
  lemma RiffFields(dataLength: int)
    ensures ReadU32(RiffChunk(dataLength), 4) == (36 + dataLength) % Two32
  {
    var r := RiffChunk(dataLength);
    FieldAt(r, 4, Le32(36 + dataLength));
    Le32RoundTrip(36 + dataLength);
  }

  /** The 'fmt ' fields read back as chunk size 16, format 1 (PCM), the channel count, the
      sample rate, the byte rate, the block align and 16 bits per sample. */
  lemma FmtFields(channels: nat, sampleRate: nat)
    requires channels < 0x8000
    ensures var f := FmtChunk(channels, sampleRate);
      && ReadU32(f, 4) == 16 && ReadU16(f, 8) == 1 && ReadU16(f, 10) == channels
      && ReadU32(f, 12) == sampleRate % Two32 && ReadU32(f, 16) == (sampleRate * channels * 2) % Two32
      && ReadU16(f, 20) == channels * 2 && ReadU16(f, 22) == 16
  {
    FmtLayout(16, 1, channels, sampleRate, sampleRate * channels * 2, channels * 2, 16);
  }

  /** The fields of a 'fmt ' chunk laid out from any seven values. */
  lemma FmtLayout(size: int, format: int, channels: int, sampleRate: int, byteRate: int, blockAlign: int, bits: int)
    ensures var f := FmtBytes(size, format, channels, sampleRate, byteRate, blockAlign, bits);
      && ReadU32(f, 4) == size % Two32 && ReadU16(f, 8) == format % Two16 && ReadU16(f, 10) == channels % Two16
      && ReadU32(f, 12) == sampleRate % Two32 && ReadU32(f, 16) == byteRate % Two32
      && ReadU16(f, 20) == blockAlign % Two16 && ReadU16(f, 22) == bits % Two16
  {
    var f := FmtBytes(size, format, channels, sampleRate, byteRate, blockAlign, bits);
    assert f[4..8] == Le32(size);
    assert f[8..10] == Le16(format) && f[10..12] == Le16(channels);
    assert f[12..16] == Le32(sampleRate) && f[16..20] == Le32(byteRate);
    assert f[20..22] == Le16(blockAlign) && f[22..24] == Le16(bits);
    Read32(f, 4, size);
    Read16(f, 8, format);
    Read16(f, 10, channels);
    Read32(f, 12, sampleRate);
    Read32(f, 16, byteRate);
    Read16(f, 20, blockAlign);
    Read16(f, 22, bits);
  }

  lemma Read32(w: seq<u8>, at: nat, x: int)
    requires at + 4 <= |w| && w[at..at + 4] == Le32(x)
    ensures ReadU32(w, at) == x % Two32
  {
    FieldAt(w, at, Le32(x));
    Le32RoundTrip(x);
  }

  lemma Read16(w: seq<u8>, at: nat, x: int)
    requires at + 2 <= |w| && w[at..at + 2] == Le16(x)
    ensures ReadU16(w, at) == x % Two16
  {
    assert w[at] == Le16(x)[0] && w[at + 1] == Le16(x)[1];
    Le16RoundTrip(x);
  }

  lemma DataFields(dataLength: int)
    ensures ReadU32(DataChunkHeader(dataLength), 4) == dataLength % Two32
  {
    FieldAt(DataChunkHeader(dataLength), 4, Le32(dataLength));
    Le32RoundTrip(dataLength);
  }

  /** The header's integer fields read back as the RIFF size, the 'fmt ' chunk of a PCM
      format (size 16, format 1, the channel count, sample rate, byte rate, block align and
      16 bits per sample) and the data size, each 32-bit one modulo 2^32. */
  lemma WavFields(b: AudioBuffer)
    requires WellFormed(b)
    requires b.numberOfChannels < 0x8000
    ensures var w := WavBytes(b);
      var dataLength := b.length * b.numberOfChannels * 2;
      && ReadU32(w, 4) == (36 + dataLength) % Two32
      && ReadU32(w, 16) == 16
      && ReadU16(w, 20) == 1
      && ReadU16(w, 22) == b.numberOfChannels
      && ReadU32(w, 24) == b.sampleRate % Two32
      && ReadU32(w, 28) == (b.sampleRate * b.numberOfChannels * 2) % Two32
      && ReadU16(w, 32) == b.numberOfChannels * 2
      && ReadU16(w, 34) == 16
      && ReadU32(w, 40) == dataLength % Two32
  {
    var w := WavBytes(b);
    var dataLength := b.length * b.numberOfChannels * 2;
    var r, f, d := RiffChunk(dataLength), FmtChunk(b.numberOfChannels, b.sampleRate), DataChunkHeader(dataLength);
    assert w[0..12] == r && w[12..36] == f && w[36..44] == d;
    RiffFields(dataLength);
    FmtFields(b.numberOfChannels, b.sampleRate);
    DataFields(dataLength);
    Within(w, 0, r, 4);
    Within(w, 12, f, 4);
    Within(w, 12, f, 8);
    Within(w, 12, f, 10);
    Within(w, 12, f, 12);
    Within(w, 12, f, 16);
    Within(w, 12, f, 20);
    Within(w, 12, f, 22);
    Within(w, 36, d, 4);
  }

  /** A field of a chunk reads the same from the file the chunk sits in. */
  lemma Within(w: seq<u8>, at: nat, chunk: seq<u8>, k: nat)
    requires at + |chunk| <= |w| && w[at..at + |chunk|] == chunk
    ensures k + 4 <= |chunk| ==> ReadU32(w, at + k) == ReadU32(chunk, k)
    ensures k + 2 <= |chunk| ==> ReadU16(w, at + k) == ReadU16(chunk, k)
  {
    if k + 2 <= |chunk| {
      assert w[at + k] == chunk[k] && w[at + k + 1] == chunk[k + 1];
    }
    if k + 4 <= |chunk| {
      assert w[at + k + 2] == chunk[k + 2] && w[at + k + 3] == chunk[k + 3];
    }
  }

  lemma FieldAt(w: seq<u8>, at: nat, f: seq<u8>)
    requires |f| == 4 && at + 4 <= |w| && w[at..at + 4] == f
    ensures ReadU32(w, at) == ReadU32(f, 0)
  {
    assert w[at] == f[0] && w[at + 1] == f[1] && w[at + 2] == f[2] && w[at + 3] == f[3];
  }

  /** Channel c of frame i sits at offset 2 * (i * channels + c) of the interleaved data. */
  lemma {:induction false} SampleAt(b: AudioBuffer, n: nat, i: nat, c: nat)
    requires WellFormed(b) && i < n <= b.length && c < b.numberOfChannels
    ensures 2 * (i * b.numberOfChannels + c) + 2 <= |SampleBytes(b, n)|
    ensures var at := 2 * (i * b.numberOfChannels + c);
      SampleBytes(b, n)[at..at + 2] == Le16(Pcm(b.channelData[c][i]))
  {
    var ch := b.numberOfChannels;
    var at := 2 * (i * ch + c);
    OffsetInRange(i, c, ch, n);
    var prefix := SampleBytes(b, n - 1);
    var frame := ChannelBytes(b, n - 1, ch);
    assert SampleBytes(b, n) == prefix + frame;
    if i == n - 1 {
      LastFrameOffset(i, c, ch);
      assert at == |prefix| + 2 * c;
      ChannelAt(b, i, ch, c);
      SliceRight(prefix, frame, 2 * c, 2);
    } else {
      SampleAt(b, n - 1, i, c);
      SliceLeft(prefix, frame, at, 2);
    }
  }

  lemma SliceLeft<X>(p: seq<X>, q: seq<X>, at: nat, len: nat)
    requires at + len <= |p|
    ensures (p + q)[at..at + len] == p[at..at + len]
  {
  }

  lemma SliceRight<X>(p: seq<X>, q: seq<X>, at: nat, len: nat)
    requires at + len <= |q|
    ensures (p + q)[|p| + at..|p| + at + len] == q[at..at + len]
  {
  }

  lemma {:induction false} ChannelAt(b: AudioBuffer, i: nat, k: nat, c: nat)
    requires WellFormed(b) && i < b.length && c < k <= b.numberOfChannels
    ensures ChannelBytes(b, i, k)[2 * c..2 * c + 2] == Le16(Pcm(b.channelData[c][i]))
  {
    var p := ChannelBytes(b, i, k - 1);
    var q := Le16(Pcm(b.channelData[k - 1][i]));
    if c < k - 1 {
      ChannelAt(b, i, k - 1, c);
      SliceLeft(p, q, 2 * c, 2);
    } else {
      SliceRight(p, q, 0, 2);
    }
  }

  lemma LastFrameOffset(i: nat, c: nat, ch: nat)
    ensures 2 * (i * ch + c) == 2 * i * ch + 2 * c
  {
  }

  lemma OffsetInRange(i: nat, c: nat, ch: nat, n: nat)
    requires i < n && c < ch
    ensures 2 * (i * ch + c) + 2 <= 2 * n * ch
  {
    assert (i + 1) * ch <= n * ch;
  }

  /** Every stored sample reads back as its clamped, scaled and truncated value. */
  lemma SampleReadsBack(b: AudioBuffer, i: nat, c: nat)
    requires WellFormed(b) && i < b.length && c < b.numberOfChannels
    ensures var at := 44 + 2 * (i * b.numberOfChannels + c);
      at + 2 <= |WavBytes(b)| && ReadI16(WavBytes(b), at) == Pcm(b.channelData[c][i])
  {
    var at := 2 * (i * b.numberOfChannels + c);
    var f := Le16(Pcm(b.channelData[c][i]));
    SampleAt(b, b.length, i, c);
    SliceRight(Header(b), SampleBytes(b, b.length), at, 2);
    assert WavBytes(b)[44 + at..44 + at + 2] == f;
    assert WavBytes(b)[44 + at] == f[0] && WavBytes(b)[44 + at + 1] == f[1];
    Le16RoundTrip(Pcm(b.channelData[c][i]));
  }

  // ---------------------------------------------------------------- the writer

  /** Writes `bytes` at `offset`, as a run of DataView setters does. */
  method SetBytes(view: array<u8>, offset: nat, bytes: seq<u8>)
    requires offset + |bytes| <= view.Length
    modifies view
    ensures view[..offset + |bytes|] == old(view[..offset]) + bytes
  {
    for k := 0 to |bytes|
      invariant view[..offset + k] == old(view[..offset]) + bytes[..k]
    {
      view[offset + k] := bytes[k];
      assert view[..offset + k + 1] == view[..offset + k] + [bytes[k]];
      assert bytes[..k + 1] == bytes[..k] + [bytes[k]];
    }
  }

  /** The header writes, in order of offset. */
  method WriteHeader(view: array<u8>, b: AudioBuffer)
    requires view.Length >= 44
    modifies view
    ensures view[..44] == Header(b)
  {
    var channels := b.numberOfChannels;
    var dataLength := b.length * channels * 2;
    WriteRiff(view, dataLength);
    WriteFmt(view, channels, b.sampleRate);
    WriteDataHeader(view, dataLength);
  }

  method WriteRiff(view: array<u8>, dataLength: int)
    requires view.Length >= 44
    modifies view
    ensures view[..12] == RiffChunk(dataLength)
  {
    SetBytes(view, 0, Ascii("RIFF"));
    assert view[..4] == Ascii("RIFF");
    SetBytes(view, 4, Le32(36 + dataLength));
    SetBytes(view, 8, Ascii("WAVE"));
  }

  method WriteFmt(view: array<u8>, channels: nat, sampleRate: nat)
    requires view.Length >= 44
    modifies view
    ensures view[..36] == old(view[..12]) + FmtChunk(channels, sampleRate)
  {
    ghost var riff := view[..12];
    SetBytes(view, 12, Ascii("fmt "));
    SetBytes(view, 16, Le32(16));
    SetBytes(view, 20, Le16(1));
    SetBytes(view, 22, Le16(channels));
    SetBytes(view, 24, Le32(sampleRate));
    SetBytes(view, 28, Le32(sampleRate * channels * 2));
    SetBytes(view, 32, Le16(channels * 2));
    SetBytes(view, 34, Le16(16));
    assert view[..36] == riff + (Ascii("fmt ") + Le32(16) + Le16(1) + Le16(channels) + Le32(sampleRate)
      + Le32(sampleRate * channels * 2) + Le16(channels * 2) + Le16(16));
  }

  method WriteDataHeader(view: array<u8>, dataLength: int)
    requires view.Length >= 44
    modifies view
    ensures view[..44] == old(view[..36]) + DataChunkHeader(dataLength)
  {
    ghost var before := view[..36];
    SetBytes(view, 36, Ascii("data"));
    SetBytes(view, 40, Le32(dataLength));
    assert view[..44] == before + (Ascii("data") + Le32(dataLength));
  }

  /** The inner loop for frame i: each channel's sample, clamped and scaled, at the running
      offset. */
  method WriteFrame(view: array<u8>, b: AudioBuffer, i: nat, offset: nat) returns (next: nat)
    requires WellFormed(b) && i < b.length && offset + 2 * b.numberOfChannels <= view.Length
    modifies view
    ensures next == offset + 2 * b.numberOfChannels
    ensures view[..next] == old(view[..offset]) + ChannelBytes(b, i, b.numberOfChannels)
  {
    next := offset;
    for channel := 0 to b.numberOfChannels
      invariant next == offset + 2 * channel
      invariant view[..next] == old(view[..offset]) + ChannelBytes(b, i, channel)
    {
      var sample := Clamp(b.channelData[channel][i]);
      SetBytes(view, next, Le16(Truncate(sample * 32767.0)));
      next := next + 2;
    }
  }

  /** `exportToWav`: the header, then every frame's samples in channel order. */
  method ExportToWav(b: AudioBuffer) returns (view: array<u8>)
    requires WellFormed(b)
    ensures view[..] == WavBytes(b)
  {
    var dataLength := b.length * b.numberOfChannels * 2;
    view := new u8[44 + dataLength];
    WriteHeader(view, b);
    WriteSamples(view, b);
  }

  /** The sample loop of `exportToWav`: frame after frame from offset 44 to the end. */
  method WriteSamples(view: array<u8>, b: AudioBuffer)
    requires WellFormed(b) && view.Length == 44 + b.length * b.numberOfChannels * 2
    modifies view
    ensures view[..] == old(view[..44]) + SampleBytes(b, b.length)
  {
    var channels := b.numberOfChannels;
    ghost var header := view[..44];
    var offset := 44;
    FileSize(b.length, channels);
    for i := 0 to b.length
      invariant offset == 44 + 2 * i * channels <= view.Length
      invariant view[..offset] == header + SampleBytes(b, i)
    {
      FrameFits(i, channels, b.length);
      ghost var before := view[..offset];
      offset := WriteFrame(view, b, i, offset);
      assert view[..offset] == before + ChannelBytes(b, i, channels);
      assert SampleBytes(b, i + 1) == SampleBytes(b, i) + ChannelBytes(b, i, channels);
    }
    assert view[..] == view[..offset];
  }

  lemma FrameFits(i: nat, channels: nat, n: nat)
    requires i < n
    ensures 2 * i * channels + 2 * channels == 2 * (i + 1) * channels <= n * channels * 2
  {
    assert (i + 1) * channels <= n * channels;
  }

  lemma FileSize(n: nat, channels: nat)
    ensures 2 * n * channels == n * channels * 2
  {
  }

  // ---------------------------------------------------------------- mixing

  /** The shape of a track to mix: its length and channel count. */
  datatype TrackShape = TrackShape(length: nat, numberOfChannels: nat)

  const DefaultOutputSampleRate: nat := 44100

  function MaxLength(tracks: seq<TrackShape>): (r: nat)
    requires tracks != []
    ensures forall k :: 0 <= k < |tracks| ==> tracks[k].length <= r
    ensures exists k :: 0 <= k < |tracks| && tracks[k].length == r
  {
    if |tracks| == 1 then tracks[0].length
    else
      var rest := MaxLength(tracks[1..]);
      if tracks[0].length >= rest then tracks[0].length else rest
  }

  function MaxChannels(tracks: seq<TrackShape>): (r: nat)
    requires tracks != []
    ensures forall k :: 0 <= k < |tracks| ==> tracks[k].numberOfChannels <= r
    ensures exists k :: 0 <= k < |tracks| && tracks[k].numberOfChannels == r
  {
    if |tracks| == 1 then tracks[0].numberOfChannels
    else
      var rest := MaxChannels(tracks[1..]);
      if tracks[0].numberOfChannels >= rest then tracks[0].numberOfChannels else rest
  }

  /** The size of the offline context `mixTracks` renders in. */
  datatype MixLayout = MixLayout(numberOfChannels: nat, length: nat, sampleRate: nat)

  /** The buffer `mixTracks` renders into: an empty list is rejected; otherwise it has the
      longest track's length, the largest channel count and the requested sample rate. */
  function MixShape(tracks: seq<TrackShape>, outputSampleRate: nat): (r: Result<MixLayout>)
    ensures r.Err? <==> tracks == []
    ensures r.Err? ==> r.message == "No tracks to mix"
    ensures r.Ok? ==>
      && r.value.sampleRate == outputSampleRate
      && (forall k :: 0 <= k < |tracks| ==> tracks[k].length <= r.value.length && tracks[k].numberOfChannels <= r.value.numberOfChannels)
      && (exists k :: 0 <= k < |tracks| && tracks[k].length == r.value.length)
      && (exists k :: 0 <= k < |tracks| && tracks[k].numberOfChannels == r.value.numberOfChannels)
  {
    if tracks == [] then Err("No tracks to mix")
    else
      var ch := MaxChannels(tracks);
      var n := MaxLength(tracks);
      Ok(MixLayout(ch, n, outputSampleRate))
  }
}
