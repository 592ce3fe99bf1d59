/**
 * The browser-side WAV serialiser (resources/js/helpers.js): the canonical
 * 44-byte header of a RIFF WAVE file holding mono 16-bit PCM, written into a
 * byte buffer through little-endian `DataView` setters.
 */
module WavHeader {
  import opened Wrappers

  /** One byte of an `ArrayBuffer`. */
  type byte = x: int | 0 <= x < 256

  const TwoTo16: int := 0x1_0000
  const TwoTo32: int := 0x1_0000_0000
  const DefaultSampleRate: int := 16000
  /** Header bytes before the sample data. */
  const HeaderSize: nat := 44

  /** The byte `setUint8` stores for one character: its code, reduced modulo 256. */
  function CharByte(c: char): byte
  {
    (c as int) % 256
  }

  /** The bytes `writeString` stores for `s`, one per character. */
  function StringBytes(s: string): (b: seq<byte>)
    ensures |b| == |s| && forall i :: 0 <= i < |s| ==> b[i] == CharByte(s[i])
  {
    seq(|s|, i requires 0 <= i < |s| => CharByte(s[i]))
  }

  /** The two bytes `setUint16(_, value, true)` stores: `value` modulo 2^16, low byte first. */
  function Uint16LE(value: int): (b: seq<byte>)
    ensures |b| == 2
  {
    var u := value % TwoTo16;
    [u % 256, u / 256]
  }

  /** The four bytes `setUint32(_, value, true)` stores: `value` modulo 2^32, low byte first. */
  function Uint32LE(value: int): (b: seq<byte>)
    ensures |b| == 4
  {
    var u := value % TwoTo32;
    [u % 256, (u / 256) % 256, (u / 0x1_0000) % 256, u / 0x100_0000]
  }

  /** The value `getUint16(_, true)` reads back from two bytes. */
  function ReadUint16LE(b: seq<byte>): (v: int)
    requires |b| == 2
    ensures 0 <= v < TwoTo16
  {
    b[0] as int + 256 * (b[1] as int)
  }

  /** The value `getUint32(_, true)` reads back from four bytes. */
  function ReadUint32LE(b: seq<byte>): (v: int)
    requires |b| == 4
    ensures 0 <= v < TwoTo32
  {
    b[0] as int + 256 * (b[1] as int) + 0x1_0000 * (b[2] as int) + 0x100_0000 * (b[3] as int)
  }

  /** Writing a 16-bit field and reading it back gives the value modulo 2^16. */
  lemma Uint16RoundTrip(value: int)
    ensures ReadUint16LE(Uint16LE(value)) == value % TwoTo16
    ensures 0 <= value < TwoTo16 ==> ReadUint16LE(Uint16LE(value)) == value
  {
    var u := value % TwoTo16;
    assert u == u % 256 + 256 * (u / 256);
  }

  /** Reading two bytes and writing the value back reproduces them. */
  lemma Uint16BytesRoundTrip(b: seq<byte>)
    requires |b| == 2
    ensures Uint16LE(ReadUint16LE(b)) == b
  {
    var u := ReadUint16LE(b);
    assert u % TwoTo16 == u;
    assert u % 256 == b[0] && u / 256 == b[1];
  }

  /** Writing a 32-bit field and reading it back gives the value modulo 2^32. */
  lemma Uint32RoundTrip(value: int)
    ensures ReadUint32LE(Uint32LE(value)) == value % TwoTo32
    ensures 0 <= value < TwoTo32 ==> ReadUint32LE(Uint32LE(value)) == value
  {
    var u := value % TwoTo32;
    var q1 := u / 256;
    var q2 := q1 / 256;
    var q3 := q2 / 256;
    assert u == u % 256 + 256 * q1;
    assert q1 == q1 % 256 + 256 * q2;
    assert q2 == q2 % 256 + 256 * q3;
    assert u / 0x1_0000 == q2 && u / 0x100_0000 == q3;
  }

  /** Reading four bytes and writing the value back reproduces them. */
  lemma Uint32BytesRoundTrip(b: seq<byte>)
    requires |b| == 4
    ensures Uint32LE(ReadUint32LE(b)) == b
  {
    var u := ReadUint32LE(b);
    assert u % TwoTo32 == u;
    assert u % 256 == b[0];
    assert u / 256 == b[1] as int + 256 * (b[2] as int) + 0x1_0000 * (b[3] as int);
    assert (u / 256) % 256 == b[1];
    assert u / 0x1_0000 == b[2] as int + 256 * (b[3] as int);
    assert (u / 0x1_0000) % 256 == b[2];
    assert u / 0x100_0000 == b[3];
  }

  /** The sample rate `float32ArrayToWav` uses when the caller gives none. */
  function SampleRateOrDefault(sampleRate: Option<int>): (rate: int)
    ensures sampleRate.None? ==> rate == DefaultSampleRate
    ensures sampleRate.Some? ==> rate == sampleRate.value
  {
    if sampleRate.Some? then sampleRate.value else DefaultSampleRate
  }

  /**
   * The header of a mono 16-bit PCM file of `samples` samples at `rate` Hz:
   * the RIFF descriptor, the `fmt ` chunk, and the `data` chunk's head.
   */
  function HeaderBytes(samples: nat, rate: int): (h: seq<byte>)
    ensures |h| == HeaderSize
  {
    RiffDescriptor(samples) + FmtChunk(rate) + DataChunkHead(samples)
  }

  /** The "RIFF" chunk descriptor: tag, size of the rest of the file, "WAVE". */
  function RiffDescriptor(samples: nat): (b: seq<byte>)
    ensures |b| == 12
  {
    StringBytes("RIFF") + Uint32LE(36 + samples * 2) + StringBytes("WAVE")
  }

  /** The "fmt " chunk: size 16, PCM, mono, the rate, the byte rate, block align 2, 16 bits. */
  function FmtChunk(rate: int): (b: seq<byte>)
    ensures |b| == 24
  {
    StringBytes("fmt ") + Uint32LE(16) + Uint16LE(1) + Uint16LE(1)
    + Uint32LE(rate) + Uint32LE(rate * 2) + Uint16LE(2) + Uint16LE(16)
  }

  /** The head of the "data" chunk: tag and size of the samples. */
  function DataChunkHead(samples: nat): (b: seq<byte>)
    ensures |b| == 8
  {
    StringBytes("data") + Uint32LE(samples * 2)
  }

  /** The three chunks of the header, at bytes 0-11, 12-35 and 36-43. */
  lemma HeaderGroups(samples: nat, rate: int)
    ensures var h := HeaderBytes(samples, rate);
      h[..12] == RiffDescriptor(samples) && h[12..36] == FmtChunk(rate) && h[36..] == DataChunkHead(samples)
  {
  }

  /**
   * Where every field of the header lies and what a reader decodes there: the
   * four tags, the RIFF size 36 + 2n, PCM format 1, one channel, the sample
   * rate, the byte rate 2 * rate, block align 2, 16 bits, and the data size 2n
   * (the sizes and rates modulo 2^32, as `setUint32` stores them).
   */
  lemma HeaderLayout(samples: nat, rate: int)
    ensures var h := HeaderBytes(samples, rate);
      && h[0..4] == StringBytes("RIFF") && h[8..12] == StringBytes("WAVE")
      && h[12..16] == StringBytes("fmt ") && h[36..40] == StringBytes("data")
      && ReadUint32LE(h[4..8]) == (36 + 2 * samples) % TwoTo32
      && ReadUint32LE(h[16..20]) == 16
      && ReadUint16LE(h[20..22]) == 1
      && ReadUint16LE(h[22..24]) == 1
      && ReadUint32LE(h[24..28]) == rate % TwoTo32
      && ReadUint32LE(h[28..32]) == (2 * rate) % TwoTo32
      && ReadUint16LE(h[32..34]) == 2
      && ReadUint16LE(h[34..36]) == 16
      && ReadUint32LE(h[40..44]) == (2 * samples) % TwoTo32
  {
    var h := HeaderBytes(samples, rate);
    HeaderGroups(samples, rate);
    assert h[4..8] == Uint32LE(36 + samples * 2);
    assert h[16..20] == Uint32LE(16);
    assert h[20..22] == Uint16LE(1);
    assert h[22..24] == Uint16LE(1);
    assert h[24..28] == Uint32LE(rate);
    assert h[28..32] == Uint32LE(rate * 2);
    assert h[32..34] == Uint16LE(2);
    assert h[34..36] == Uint16LE(16);
    assert h[40..44] == Uint32LE(samples * 2);
    Uint32RoundTrip(36 + samples * 2);
    Uint32RoundTrip(16);
    Uint16RoundTrip(1);
    Uint16RoundTrip(2);
    Uint16RoundTrip(16);
    Uint32RoundTrip(rate);
    Uint32RoundTrip(rate * 2);
    Uint32RoundTrip(samples * 2);
  }

  /** While the sizes fit in 32 bits, the RIFF size is the data size plus the 36 header bytes after it. */
  lemma RiffSizeCoversData(samples: nat, rate: int)
    requires 36 + 2 * samples < TwoTo32
    ensures var h := HeaderBytes(samples, rate);
      ReadUint32LE(h[4..8]) == ReadUint32LE(h[40..44]) + 36
  {
    var h := HeaderBytes(samples, rate);
    HeaderGroups(samples, rate);
    assert h[4..8] == Uint32LE(36 + samples * 2);
    assert h[40..44] == Uint32LE(samples * 2);
    Uint32RoundTrip(36 + samples * 2);
    Uint32RoundTrip(samples * 2);
  }

  /** While it fits in 32 bits, the byte rate is twice the sample rate (one channel, two bytes a sample). */
  lemma ByteRateIsTwiceSampleRate(samples: nat, rate: int)
    requires 0 <= rate && 2 * rate < TwoTo32
    ensures var h := HeaderBytes(samples, rate);
      ReadUint32LE(h[28..32]) == 2 * ReadUint32LE(h[24..28])
  {
    var h := HeaderBytes(samples, rate);
    HeaderGroups(samples, rate);
    assert h[24..28] == Uint32LE(rate);
    assert h[28..32] == Uint32LE(rate * 2);
    Uint32RoundTrip(rate);
    Uint32RoundTrip(rate * 2);
  }

  /** `writeString`: stores the byte of each character from `offset` on; no other byte changes. */
  method WriteString(view: array<byte>, offset: nat, s: string)
    requires offset + |s| <= view.Length
    modifies view
    ensures view[..offset + |s|] == old(view[..offset]) + StringBytes(s)
    ensures forall j :: offset + |s| <= j < view.Length ==> view[j] == old(view[j])
  {
    for i := 0 to |s|
      invariant forall j :: 0 <= j < view.Length ==>
        view[j] == if offset <= j < offset + i then CharByte(s[j - offset]) else old(view[j])
    {
      view[offset + i] := CharByte(s[i]);
    }
    assert view[..offset + |s|] == old(view[..offset]) + StringBytes(s);
  }

  /** `setUint16(offset, value, true)`: the two bytes of `value` at `offset`; no other byte changes. */
  method SetUint16(view: array<byte>, offset: nat, value: int)
    requires offset + 2 <= view.Length
    modifies view
    ensures view[..offset + 2] == old(view[..offset]) + Uint16LE(value)
    ensures forall j :: offset + 2 <= j < view.Length ==> view[j] == old(view[j])
  {
    var b := Uint16LE(value);
    view[offset] := b[0];
    view[offset + 1] := b[1];
    assert view[..offset + 2] == old(view[..offset]) + b;
  }

  /** `setUint32(offset, value, true)`: the four bytes of `value` at `offset`; no other byte changes. */
  method SetUint32(view: array<byte>, offset: nat, value: int)
    requires offset + 4 <= view.Length
    modifies view
    ensures view[..offset + 4] == old(view[..offset]) + Uint32LE(value)
    ensures forall j :: offset + 4 <= j < view.Length ==> view[j] == old(view[j])
  {
    var b := Uint32LE(value);
    view[offset] := b[0];
    view[offset + 1] := b[1];
    view[offset + 2] := b[2];
    view[offset + 3] := b[3];
    assert view[..offset + 4] == old(view[..offset]) + b;
  }

  /**
   * The header part of `float32ArrayToWav` for `samples` samples: a fresh
   * zeroed buffer of 44 + 2n bytes whose first 44 bytes are the header; the
   * sample bytes are left as allocated.
   */
  method Float32ArrayToWav(samples: nat, sampleRate: Option<int>) returns (buffer: array<byte>)
    ensures fresh(buffer)
    ensures buffer.Length == HeaderSize + 2 * samples
    ensures buffer[..HeaderSize] == HeaderBytes(samples, SampleRateOrDefault(sampleRate))
    ensures forall j :: HeaderSize <= j < buffer.Length ==> buffer[j] == 0
  {
    var rate := SampleRateOrDefault(sampleRate);
    buffer := new byte[HeaderSize + samples * 2](_ => 0);
    WriteRiffDescriptor(buffer, samples);
    WriteFmtChunk(buffer, rate);
    WriteDataChunkHead(buffer, samples);
  }

  /** The "RIFF" chunk descriptor, at bytes 0-11. */
  method WriteRiffDescriptor(view: array<byte>, samples: nat)
    requires 12 <= view.Length
    modifies view
    ensures view[..12] == RiffDescriptor(samples)
    ensures forall j :: 12 <= j < view.Length ==> view[j] == old(view[j])
  {
    ghost var written: seq<byte> := [];
    assert view[..0] == written;
    WriteString(view, 0, "RIFF");
    written := written + StringBytes("RIFF");
    assert view[..4] == written;
    SetUint32(view, 4, 36 + samples * 2);
    written := written + Uint32LE(36 + samples * 2);
    assert view[..8] == written;
    WriteString(view, 8, "WAVE");
    written := written + StringBytes("WAVE");
    assert view[..12] == written;
  }

  /** The "fmt " chunk, at bytes 12-35. */
  method WriteFmtChunk(view: array<byte>, rate: int)
    requires 36 <= view.Length
    modifies view
    ensures view[..36] == old(view[..12]) + FmtChunk(rate)
    ensures forall j :: 36 <= j < view.Length ==> view[j] == old(view[j])
  {
    ghost var written := view[..12];
    WriteString(view, 12, "fmt ");
    written := written + StringBytes("fmt ");
    assert view[..16] == written;
    SetUint32(view, 16, 16);
    written := written + Uint32LE(16);
    assert view[..20] == written;
    SetUint16(view, 20, 1);
    written := written + Uint16LE(1);
    assert view[..22] == written;
    SetUint16(view, 22, 1);
    written := written + Uint16LE(1);
    assert view[..24] == written;
    SetUint32(view, 24, rate);
    written := written + Uint32LE(rate);
    assert view[..28] == written;
    SetUint32(view, 28, rate * 2);
    written := written + Uint32LE(rate * 2);
    assert view[..32] == written;
    SetUint16(view, 32, 2);
    written := written + Uint16LE(2);
    assert view[..34] == written;
    SetUint16(view, 34, 16);
    written := written + Uint16LE(16);
    assert view[..36] == written;
  }

  /** The head of the "data" chunk, at bytes 36-43. */
  method WriteDataChunkHead(view: array<byte>, samples: nat)
    requires 44 <= view.Length
    modifies view
    ensures view[..44] == old(view[..36]) + DataChunkHead(samples)
    ensures forall j :: 44 <= j < view.Length ==> view[j] == old(view[j])
  {
    ghost var written := view[..36];
    WriteString(view, 36, "data");
    written := written + StringBytes("data");
    assert view[..40] == written;
    SetUint32(view, 40, samples * 2);
    written := written + Uint32LE(samples * 2);
    assert view[..44] == written;
  }
}
