/**
 * `pcm16ToWav` (server.js): the canonical 44-byte header of a RIFF WAVE
 * file holding 16-bit PCM, written field by field into a zero-filled
 * buffer with little-endian integer writes, followed by the PCM bytes.
 * Node's `writeUInt32LE` / `writeUInt16LE` throw a RangeError for a value
 * outside the field's range; the error here is the offset of the write
 * that throws.
 */
module Wav {
  import opened Wrappers

  type byte = x: int | 0 <= x < 256

  const UInt16Limit: int := 0x1_0000
  const UInt32Limit: int := 0x1_0000_0000

  // ---------------------------------------------------------------------
  // Little-endian fields
  // ---------------------------------------------------------------------

  function EncodeUInt16LE(v: int): (b: seq<byte>)
    requires 0 <= v < UInt16Limit
    ensures |b| == 2
  {
    [v % 256, v / 256]
  }

  function DecodeUInt16LE(b: seq<byte>): (v: int)
    requires |b| == 2
    ensures 0 <= v < UInt16Limit
  {
    b[0] as int + 256 * (b[1] as int)
  }

  function EncodeUInt32LE(v: int): (b: seq<byte>)
    requires 0 <= v < UInt32Limit
    ensures |b| == 4
  {
    [v % 256, (v / 256) % 256, (v / 0x1_0000) % 256, v / 0x100_0000]
  }

  function DecodeUInt32LE(b: seq<byte>): (v: int)
    requires |b| == 4
    ensures 0 <= v < UInt32Limit
  {
    b[0] as int + 256 * (b[1] as int) + 0x1_0000 * (b[2] as int) + 0x100_0000 * (b[3] as int)
  }

  lemma DecodeEncodeUInt16(v: int)
    requires 0 <= v < UInt16Limit
    ensures DecodeUInt16LE(EncodeUInt16LE(v)) == v
  {
  }

  lemma EncodeDecodeUInt16(b: seq<byte>)
    requires |b| == 2
    ensures EncodeUInt16LE(DecodeUInt16LE(b)) == b
  {
  }

  lemma DecodeEncodeUInt32(v: int)
    requires 0 <= v < UInt32Limit
    ensures DecodeUInt32LE(EncodeUInt32LE(v)) == v
  {
    var b0, b1, b2, b3 := v % 256, (v / 256) % 256, (v / 0x1_0000) % 256, v / 0x100_0000;
    assert v / 256 == b1 + 256 * (v / 0x1_0000);
    assert v / 0x1_0000 == b2 + 256 * b3;
  }

  lemma EncodeDecodeUInt32(b: seq<byte>)
    requires |b| == 4
    ensures EncodeUInt32LE(DecodeUInt32LE(b)) == b
  {
    var v := DecodeUInt32LE(b);
    assert v / 256 == b[1] as int + 256 * (b[2] as int) + 0x1_0000 * (b[3] as int);
    assert v / 0x1_0000 == b[2] as int + 256 * (b[3] as int);
  }

  /** The bytes `write` stores for a string of ASCII characters. */
  function Ascii(s: string): (b: seq<byte>)
    requires forall i :: 0 <= i < |s| ==> s[i] as int < 128
    ensures |b| == |s|
    ensures forall i :: 0 <= i < |s| ==> b[i] == s[i] as int
  {
    seq(|s|, i requires 0 <= i < |s| => s[i] as int)
  }

  // ---------------------------------------------------------------------
  // The header as a value
  // ---------------------------------------------------------------------

  const HeaderSize := 44

  /** Every field the header writes is within its range. */
  predicate FieldsInRange(n: int, sampleRate: int, channels: int) {
    && 0 <= 36 + n < UInt32Limit
    && 0 <= channels < UInt16Limit
    && 0 <= sampleRate < UInt32Limit
    && 0 <= sampleRate * channels * 2 < UInt32Limit
    && 0 <= channels * 2 < UInt16Limit
  }

  /** The offset of the first write that throws, in the order the header is written. */
  function FirstBadOffset(n: int, sampleRate: int, channels: int): (offset: nat)
    requires !FieldsInRange(n, sampleRate, channels)
  {
    if !(0 <= 36 + n < UInt32Limit) then 4
    else if !(0 <= channels < UInt16Limit) then 22
    else if !(0 <= sampleRate < UInt32Limit) then 24
    else if !(0 <= sampleRate * channels * 2 < UInt32Limit) then 28
    else 32
  }

  /** The fields of the `fmt ` chunk that depend on the arguments are within range. */
  predicate FormatInRange(sampleRate: int, channels: int) {
    && 0 <= channels < UInt16Limit
    && 0 <= sampleRate < UInt32Limit
    && 0 <= sampleRate * channels * 2 < UInt32Limit
    && 0 <= channels * 2 < UInt16Limit
  }

  /** Bytes 0-11: the RIFF tag, the RIFF chunk size and the WAVE form type. */
  function RiffPart(n: nat): seq<byte>
    requires 36 + n < UInt32Limit
  {
    Ascii("RIFF") + EncodeUInt32LE(36 + n) + Ascii("WAVE")
  }

  /** Bytes 12-35: the `fmt ` chunk of 16-bit PCM. */
  function FormatPart(sampleRate: int, channels: int): seq<byte>
    requires FormatInRange(sampleRate, channels)
  {
    Ascii("fmt ") + EncodeUInt32LE(16) + EncodeUInt16LE(1) + EncodeUInt16LE(channels)
    + EncodeUInt32LE(sampleRate) + EncodeUInt32LE(sampleRate * channels * 2)
    + EncodeUInt16LE(channels * 2) + EncodeUInt16LE(16)
  }

  /** Bytes 36-43: the `data` chunk's tag and size. */
  function DataPart(n: nat): seq<byte>
    requires n < UInt32Limit
  {
    Ascii("data") + EncodeUInt32LE(n)
  }

  function WavHeader(n: nat, sampleRate: int, channels: int): seq<byte>
    requires FieldsInRange(n, sampleRate, channels)
  {
    RiffPart(n) + FormatPart(sampleRate, channels) + DataPart(n)
  }

  /** The WAV file for the PCM bytes `pcm`, or the offset of the write that throws. */
  function WavFile(pcm: seq<byte>, sampleRate: int, channels: int): Result<seq<byte>, nat> {
    if FieldsInRange(|pcm|, sampleRate, channels) then
      Success(WavHeader(|pcm|, sampleRate, channels) + pcm)
    else
      Failure(FirstBadOffset(|pcm|, sampleRate, channels))
  }

  // ---------------------------------------------------------------------
  // Properties of the file
  // ---------------------------------------------------------------------

  /** The file is the 44-byte header followed by the PCM bytes, unchanged and in order. */
  lemma WavLayout(pcm: seq<byte>, sampleRate: int, channels: int)
    requires FieldsInRange(|pcm|, sampleRate, channels)
    ensures var f := WavFile(pcm, sampleRate, channels).value;
      |f| == HeaderSize + |pcm| && f[HeaderSize..] == pcm
  {
  }

  /** The four chunk tags sit at offsets 0, 8, 12 and 36. */
  lemma WavTags(pcm: seq<byte>, sampleRate: int, channels: int)
    requires FieldsInRange(|pcm|, sampleRate, channels)
    ensures var f := WavFile(pcm, sampleRate, channels).value;
      && f[0..4] == Ascii("RIFF") && f[8..12] == Ascii("WAVE")
      && f[12..16] == Ascii("fmt ") && f[36..40] == Ascii("data")
  {
  }

  /** The file's three header parts, at bytes 0-11, 12-35 and 36-43. */
  lemma WavParts(pcm: seq<byte>, sampleRate: int, channels: int)
    requires FieldsInRange(|pcm|, sampleRate, channels)
    ensures var f := WavFile(pcm, sampleRate, channels).value;
      && f[..12] == RiffPart(|pcm|)
      && f[12..36] == FormatPart(sampleRate, channels)
      && f[36..44] == DataPart(|pcm|)
  {
  }

  /**
   * Decoding the header's fields gives back: RIFF size 36 + N, fmt size 16,
   * PCM format 1, the channel count, the sample rate, the byte rate
   * rate * channels * 2, the block align channels * 2, 16 bits per sample
   * and data size N.
   */
  lemma WavFields(pcm: seq<byte>, sampleRate: int, channels: int)
    requires FieldsInRange(|pcm|, sampleRate, channels)
    ensures var f := WavFile(pcm, sampleRate, channels).value;
      && DecodeUInt32LE(f[4..8]) == 36 + |pcm|
      && DecodeUInt32LE(f[16..20]) == 16
      && DecodeUInt16LE(f[20..22]) == 1
      && DecodeUInt16LE(f[22..24]) == channels
      && DecodeUInt32LE(f[24..28]) == sampleRate
      && DecodeUInt32LE(f[28..32]) == sampleRate * channels * 2
      && DecodeUInt16LE(f[32..34]) == channels * 2
      && DecodeUInt16LE(f[34..36]) == 16
      && DecodeUInt32LE(f[40..44]) == |pcm|
  {
    WavSizes(pcm, sampleRate, channels);
    WavFormat(pcm, sampleRate, channels);
  }

  lemma WavSizes(pcm: seq<byte>, sampleRate: int, channels: int)
    requires FieldsInRange(|pcm|, sampleRate, channels)
    ensures var f := WavFile(pcm, sampleRate, channels).value;
      DecodeUInt32LE(f[4..8]) == 36 + |pcm| && DecodeUInt32LE(f[40..44]) == |pcm|
  {
    var f := WavFile(pcm, sampleRate, channels).value;
    var n := |pcm|;
    WavParts(pcm, sampleRate, channels);
    var riff, data := f[..12], f[36..44];
    assert f[4..8] == riff[4..8] == EncodeUInt32LE(36 + n);
    assert f[40..44] == data[4..8] == EncodeUInt32LE(n);
    DecodeEncodeUInt32(36 + n);
    DecodeEncodeUInt32(n);
  }

  lemma WavFormat(pcm: seq<byte>, sampleRate: int, channels: int)
    requires FieldsInRange(|pcm|, sampleRate, channels)
    ensures var f := WavFile(pcm, sampleRate, channels).value;
      && DecodeUInt32LE(f[16..20]) == 16
      && DecodeUInt16LE(f[20..22]) == 1
      && DecodeUInt16LE(f[22..24]) == channels
      && DecodeUInt32LE(f[24..28]) == sampleRate
      && DecodeUInt32LE(f[28..32]) == sampleRate * channels * 2
      && DecodeUInt16LE(f[32..34]) == channels * 2
      && DecodeUInt16LE(f[34..36]) == 16
  {
    var f := WavFile(pcm, sampleRate, channels).value;
    WavParts(pcm, sampleRate, channels);
    var fmt := f[12..36];
    FormatFields(sampleRate, channels);
    assert f[16..20] == fmt[4..8];
    assert f[20..22] == fmt[8..10];
    assert f[22..24] == fmt[10..12];
    assert f[24..28] == fmt[12..16];
    assert f[28..32] == fmt[16..20];
    assert f[32..34] == fmt[20..22];
    assert f[34..36] == fmt[22..24];
  }

  /** The `fmt ` chunk's fields decode to what was written. */
  lemma FormatFields(sampleRate: int, channels: int)
    requires FormatInRange(sampleRate, channels)
    ensures var fmt := FormatPart(sampleRate, channels);
      && DecodeUInt32LE(fmt[4..8]) == 16
      && DecodeUInt16LE(fmt[8..10]) == 1
      && DecodeUInt16LE(fmt[10..12]) == channels
      && DecodeUInt32LE(fmt[12..16]) == sampleRate
      && DecodeUInt32LE(fmt[16..20]) == sampleRate * channels * 2
      && DecodeUInt16LE(fmt[20..22]) == channels * 2
      && DecodeUInt16LE(fmt[22..24]) == 16
  {
    var fmt := FormatPart(sampleRate, channels);
    assert fmt[4..8] == EncodeUInt32LE(16);
    assert fmt[8..10] == EncodeUInt16LE(1);
    assert fmt[10..12] == EncodeUInt16LE(channels);
    assert fmt[12..16] == EncodeUInt32LE(sampleRate);
    assert fmt[16..20] == EncodeUInt32LE(sampleRate * channels * 2);
    assert fmt[20..22] == EncodeUInt16LE(channels * 2);
    assert fmt[22..24] == EncodeUInt16LE(16);
    DecodeEncodeUInt32(16);
    DecodeEncodeUInt32(sampleRate);
    DecodeEncodeUInt32(sampleRate * channels * 2);
  }

  /** The file fails exactly when a field is out of range. */
  lemma WavFailsIffOutOfRange(pcm: seq<byte>, sampleRate: int, channels: int)
    ensures WavFile(pcm, sampleRate, channels).Failure? <==> !FieldsInRange(|pcm|, sampleRate, channels)
    ensures WavFile(pcm, sampleRate, channels).Failure? ==>
      WavFile(pcm, sampleRate, channels).error in {4, 22, 24, 28, 32}
  {
  }

  /**
   * With the defaults (24000 Hz, one channel) every PCM payload shorter than
   * 2^32 - 36 bytes gives a file, with byte rate 48000 and block align 2.
   */
  lemma DefaultsGiveMono24k(pcm: seq<byte>)
    requires 36 + |pcm| < UInt32Limit
    ensures WavFile(pcm, 24000, 1).Success?
    ensures var f := WavFile(pcm, 24000, 1).value;
      DecodeUInt32LE(f[28..32]) == 48000 && DecodeUInt16LE(f[32..34]) == 2
  {
    WavFields(pcm, 24000, 1);
  }

  // ---------------------------------------------------------------------
  // The buffer writes
  // ---------------------------------------------------------------------

  /** Copies `bytes` into `buf` at `offset`; the rest of `buf` is left as it was. */
  method WriteBytes(buf: array<byte>, bytes: seq<byte>, offset: nat)
    requires offset + |bytes| <= buf.Length
    modifies buf
    ensures buf[..offset] == old(buf[..offset])
    ensures buf[offset..offset + |bytes|] == bytes
    ensures buf[offset + |bytes|..] == old(buf[offset + |bytes|..])
  {
    var i := 0;
    while i < |bytes|
      invariant 0 <= i <= |bytes|
      invariant buf[..offset] == old(buf[..offset])
      invariant buf[offset..offset + i] == bytes[..i]
      invariant buf[offset + |bytes|..] == old(buf[offset + |bytes|..])
    {
      buf[offset + i] := bytes[i];
      i := i + 1;
    }
  }

  /** `buf.write(s, offset)` for an ASCII string. */
  method WriteAscii(buf: array<byte>, s: string, offset: nat)
    requires forall i :: 0 <= i < |s| ==> s[i] as int < 128
    requires offset + |s| <= buf.Length
    modifies buf
    ensures buf[..offset] == old(buf[..offset])
    ensures buf[offset..offset + |s|] == Ascii(s)
    ensures buf[offset + |s|..] == old(buf[offset + |s|..])
  {
    WriteBytes(buf, Ascii(s), offset);
  }

  /** `buf.writeUInt32LE(value, offset)`: writes, or reports the RangeError and writes nothing. */
  method WriteUInt32LE(buf: array<byte>, value: int, offset: nat) returns (ok: bool)
    requires offset + 4 <= buf.Length
    modifies buf
    ensures ok <==> 0 <= value < UInt32Limit
    ensures !ok ==> buf[..] == old(buf[..])
    ensures buf[..offset] == old(buf[..offset])
    ensures ok ==> buf[offset..offset + 4] == EncodeUInt32LE(value)
    ensures buf[offset + 4..] == old(buf[offset + 4..])
  {
    if !(0 <= value < UInt32Limit) {
      return false;
    }
    WriteBytes(buf, EncodeUInt32LE(value), offset);
    return true;
  }

  /** `buf.writeUInt16LE(value, offset)`: writes, or reports the RangeError and writes nothing. */
  method WriteUInt16LE(buf: array<byte>, value: int, offset: nat) returns (ok: bool)
    requires offset + 2 <= buf.Length
    modifies buf
    ensures ok <==> 0 <= value < UInt16Limit
    ensures !ok ==> buf[..] == old(buf[..])
    ensures buf[..offset] == old(buf[..offset])
    ensures ok ==> buf[offset..offset + 2] == EncodeUInt16LE(value)
    ensures buf[offset + 2..] == old(buf[offset + 2..])
  {
    if !(0 <= value < UInt16Limit) {
      return false;
    }
    WriteBytes(buf, EncodeUInt16LE(value), offset);
    return true;
  }

  /** After writing `b` right behind `w`, written at `base`, the segment is `w + b`. */
  lemma Extend(s: seq<byte>, s': seq<byte>, base: nat, w: seq<byte>, b: seq<byte>)
    requires base + |w| + |b| <= |s| == |s'|
    requires s[base..base + |w|] == w
    requires s'[..base + |w|] == s[..base + |w|]
    requires s'[base + |w|..base + |w| + |b|] == b
    ensures s'[base..base + |w| + |b|] == w + b
    ensures s'[..base] == s[..base]
  {
    assert s'[base..base + |w|] == s'[..base + |w|][base..] == s[..base + |w|][base..] == w;
    assert s'[base..base + |w| + |b|] == s'[base..base + |w|] + s'[base + |w|..base + |w| + |b|];
    assert s'[..base] == s'[..base + |w|][..base];
  }

  /** Writes bytes 0-11, or reports that the RIFF size is out of range. */
  method WriteRiffPart(header: array<byte>, n: nat) returns (ok: bool)
    requires header.Length == HeaderSize
    modifies header
    ensures ok <==> 36 + n < UInt32Limit
    ensures ok ==> header[..12] == RiffPart(n)
  {
    ghost var w: seq<byte> := [];
    ghost var s := header[..];
    WriteAscii(header, "RIFF", 0);
    Extend(s, header[..], 0, w, Ascii("RIFF"));
    w := w + Ascii("RIFF");

    s := header[..];
    ok := WriteUInt32LE(header, 36 + n, 4);
    if !ok { return; }
    Extend(s, header[..], 0, w, EncodeUInt32LE(36 + n));
    w := w + EncodeUInt32LE(36 + n);

    s := header[..];
    WriteAscii(header, "WAVE", 8);
    Extend(s, header[..], 0, w, Ascii("WAVE"));
    w := w + Ascii("WAVE");
  }

  /** The offset of the first `fmt ` write that throws. */
  function FirstBadFormatOffset(sampleRate: int, channels: int): (offset: nat)
    requires !FormatInRange(sampleRate, channels)
  {
    if !(0 <= channels < UInt16Limit) then 22
    else if !(0 <= sampleRate < UInt32Limit) then 24
    else if !(0 <= sampleRate * channels * 2 < UInt32Limit) then 28
    else 32
  }

  /** Writes bytes 12-35 and leaves bytes 0-11, or reports the offset of the write that throws. */
  method WriteFormatPart(header: array<byte>, sampleRate: int, channels: int) returns (err: Option<nat>)
    requires header.Length == HeaderSize
    modifies header
    ensures err.None? <==> FormatInRange(sampleRate, channels)
    ensures err.Some? ==> err.value == FirstBadFormatOffset(sampleRate, channels)
    ensures header[..12] == old(header[..12])
    ensures err.None? ==> header[12..36] == FormatPart(sampleRate, channels)
  {
    ghost var w: seq<byte> := [];
    ghost var s := header[..];
    var ok: bool;
    WriteAscii(header, "fmt ", 12);
    Extend(s, header[..], 12, w, Ascii("fmt "));
    w := w + Ascii("fmt ");

    s := header[..];
    ok := WriteUInt32LE(header, 16, 16);
    Extend(s, header[..], 12, w, EncodeUInt32LE(16));
    w := w + EncodeUInt32LE(16);

    s := header[..];
    ok := WriteUInt16LE(header, 1, 20);
    Extend(s, header[..], 12, w, EncodeUInt16LE(1));
    w := w + EncodeUInt16LE(1);

    s := header[..];
    ok := WriteUInt16LE(header, channels, 22);
    if !ok { return Some(22); }
    Extend(s, header[..], 12, w, EncodeUInt16LE(channels));
    w := w + EncodeUInt16LE(channels);

    s := header[..];
    ok := WriteUInt32LE(header, sampleRate, 24);
    if !ok { return Some(24); }
    Extend(s, header[..], 12, w, EncodeUInt32LE(sampleRate));
    w := w + EncodeUInt32LE(sampleRate);

    s := header[..];
    ok := WriteUInt32LE(header, sampleRate * channels * 2, 28);
    if !ok { return Some(28); }
    Extend(s, header[..], 12, w, EncodeUInt32LE(sampleRate * channels * 2));
    w := w + EncodeUInt32LE(sampleRate * channels * 2);

    s := header[..];
    ok := WriteUInt16LE(header, channels * 2, 32);
    if !ok { return Some(32); }
    Extend(s, header[..], 12, w, EncodeUInt16LE(channels * 2));
    w := w + EncodeUInt16LE(channels * 2);

    s := header[..];
    ok := WriteUInt16LE(header, 16, 34);
    Extend(s, header[..], 12, w, EncodeUInt16LE(16));
    w := w + EncodeUInt16LE(16);
    err := None;
  }

  /** Writes bytes 36-43 and leaves bytes 0-35. */
  method WriteDataPart(header: array<byte>, n: nat)
    requires header.Length == HeaderSize
    requires n < UInt32Limit
    modifies header
    ensures header[..36] == old(header[..36])
    ensures header[36..] == DataPart(n)
  {
    ghost var w: seq<byte> := [];
    ghost var s := header[..];
    var ok: bool;
    WriteAscii(header, "data", 36);
    Extend(s, header[..], 36, w, Ascii("data"));
    w := w + Ascii("data");

    s := header[..];
    ok := WriteUInt32LE(header, n, 40);
    Extend(s, header[..], 36, w, EncodeUInt32LE(n));
    w := w + EncodeUInt32LE(n);
  }

  /** A buffer whose first 36 bytes kept the RIFF and `fmt ` parts and whose rest is the data part is the header. */
  lemma HeaderOfParts(before: seq<byte>, after: seq<byte>, n: nat, sampleRate: int, channels: int)
    requires FieldsInRange(n, sampleRate, channels)
    requires |before| == |after| == HeaderSize
    requires before[..12] == RiffPart(n) && before[12..36] == FormatPart(sampleRate, channels)
    requires after[..36] == before[..36] && after[36..] == DataPart(n)
    ensures after == WavHeader(n, sampleRate, channels)
  {
    assert after[..12] == before[..36][..12] == before[..12];
    assert after[12..36] == before[..36][12..] == before[12..36];
    assert after == after[..12] + after[12..36] + after[36..];
  }

  /**
   * Builds the header in a zero-filled 44-byte buffer, field by field, and
   * appends the PCM bytes; stops at the first write that throws.
   */
  method Pcm16ToWav(pcm: seq<byte>, sampleRate: int, channels: int) returns (r: Result<seq<byte>, nat>)
    ensures r == WavFile(pcm, sampleRate, channels)
  {
    var n := |pcm|;
    var header := new byte[HeaderSize](_ => 0);
    var ok := WriteRiffPart(header, n);
    if !ok {
      return Failure(4);
    }
    var err := WriteFormatPart(header, sampleRate, channels);
    if err.Some? {
      return Failure(err.value);
    }
    ghost var before := header[..];
    WriteDataPart(header, n);
    HeaderOfParts(before, header[..], n, sampleRate, channels);
    r := Success(header[..] + pcm);
  }
}
