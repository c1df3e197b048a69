/** The capture-to-WAV part of the recorder: the writer options and their
    defaults, the canonical 44-byte RIFF/WAVE PCM header and the in-place
    writer that fills it, and the collector behind toWave, which keeps the
    audio chunks in arrival order and emits the header followed by them. */
module Recorder {
  import opened Bytes

  datatype Option<T> = None | Some(value: T)

  /** WriterOptions: every field may be left undefined. */
  datatype WriterOptions = WriterOptions(
    format: Option<nat>,
    channels: Option<nat>,
    sampleRate: Option<nat>,
    bitDepth: Option<nat>)

  /** The values the header is written from once the defaults are filled in.
      There is no format: the writer always writes format 1 (raw PCM). */
  datatype Config = Config(channels: nat, sampleRate: nat, bitDepth: nat)

  const DefaultChannels: nat := 2
  const DefaultSampleRate: nat := 44100
  const DefaultBitDepth: nat := 16

  /** The header length, valid only for format 1 (PCM). */
  const HeaderLength: nat := 44

  /** An option counts as given when it is defined and truthy (not 0). */
  predicate Given(x: Option<nat>) {
    x.Some? && x.value != 0
  }

  /** `x || d`: an undefined or zero option falls back to d. */
  function OrDefault(x: Option<nat>, d: nat): (r: nat)
    ensures x.Some? && x.value != 0 ==> r == x.value
    ensures x.None? || x.value == 0 ==> r == d
    ensures r != 0 || d == 0
  {
    if Given(x) then x.value else d
  }

  /** The defaults of wavHeader: channels 2, sample rate 44100, bit depth 16
      for every option that is undefined or 0; the format option is ignored. */
  function Resolve(options: WriterOptions): (cfg: Config)
    ensures cfg.channels > 0 && cfg.sampleRate > 0 && cfg.bitDepth > 0
    ensures !Given(options.channels) ==> cfg.channels == DefaultChannels
    ensures !Given(options.sampleRate) ==> cfg.sampleRate == DefaultSampleRate
    ensures !Given(options.bitDepth) ==> cfg.bitDepth == DefaultBitDepth
    ensures Given(options.channels) ==> cfg.channels == options.channels.value
    ensures Given(options.sampleRate) ==> cfg.sampleRate == options.sampleRate.value
    ensures Given(options.bitDepth) ==> cfg.bitDepth == options.bitDepth.value
  {
    Config(
      OrDefault(options.channels, DefaultChannels),
      OrDefault(options.sampleRate, DefaultSampleRate),
      OrDefault(options.bitDepth, DefaultBitDepth))
  }

  /** sampleRate * channels * bitDepth / 8; the store truncates a fraction. */
  function ByteRate(cfg: Config): nat {
    cfg.sampleRate * cfg.channels * cfg.bitDepth / 8
  }

  /** channels * bitDepth / 8; the store truncates a fraction. */
  function BlockAlign(cfg: Config): nat {
    cfg.channels * cfg.bitDepth / 8
  }

  /** The byte rate and the block align are the largest whole numbers of
      bytes per second and per sample frame: what remains of the bit counts
      after them is less than one byte. */
  lemma Truncation(cfg: Config)
    ensures ByteRate(cfg) * 8 <= cfg.sampleRate * cfg.channels * cfg.bitDepth < ByteRate(cfg) * 8 + 8
    ensures BlockAlign(cfg) * 8 <= cfg.channels * cfg.bitDepth < BlockAlign(cfg) * 8 + 8
  {
  }

  const RIFF: seq<Byte> := Str2ab("RIFF")
  const WAVE: seq<Byte> := Str2ab("WAVE")
  const FMT: seq<Byte> := Str2ab("fmt ")
  const DATA: seq<Byte> := Str2ab("data")

  /** The four tags hold the ASCII codes the RIFF/WAVE format prescribes. */
  lemma TagCodes()
    ensures RIFF == [0x52, 0x49, 0x46, 0x46]
    ensures WAVE == [0x57, 0x41, 0x56, 0x45]
    ensures FMT == [0x66, 0x6D, 0x74, 0x20]
    ensures DATA == [0x64, 0x61, 0x74, 0x61]
  {
  }

  /** The header wavHeader(dataLength, options) returns, for cfg =
      Resolve(options): the tags and fields in the order they are written. */
  function HeaderBytes(dataLength: nat, cfg: Config): (h: seq<Byte>)
    ensures |h| == HeaderLength
    ensures h[0..4] == RIFF && h[8..12] == WAVE && h[12..16] == FMT && h[36..40] == DATA
  {
    Layout(RIFF, Uint32(dataLength + HeaderLength - 8), WAVE, FMT,
      Uint32(16), Uint16(1), Uint16(cfg.channels), Uint32(cfg.sampleRate),
      Uint32(ByteRate(cfg)), Uint16(BlockAlign(cfg)), Uint16(cfg.bitDepth),
      DATA, Uint32(dataLength));
    RIFF + Uint32(dataLength + HeaderLength - 8) + WAVE + FMT
    + Uint32(16) + Uint16(1) + Uint16(cfg.channels) + Uint32(cfg.sampleRate)
    + Uint32(ByteRate(cfg)) + Uint16(BlockAlign(cfg)) + Uint16(cfg.bitDepth)
    + DATA + Uint32(dataLength)
  }

  /** Thirteen pieces of the header's widths, concatenated, sit at the
      header's field offsets. */
  lemma Layout(
    a0: seq<Byte>, a1: seq<Byte>, a2: seq<Byte>, a3: seq<Byte>, a4: seq<Byte>,
    a5: seq<Byte>, a6: seq<Byte>, a7: seq<Byte>, a8: seq<Byte>, a9: seq<Byte>,
    a10: seq<Byte>, a11: seq<Byte>, a12: seq<Byte>)
    requires |a0| == |a1| == |a2| == |a3| == |a4| == 4
    requires |a5| == |a6| == 2 && |a7| == |a8| == 4 && |a9| == |a10| == 2 && |a11| == |a12| == 4
    ensures var h := a0 + a1 + a2 + a3 + a4 + a5 + a6 + a7 + a8 + a9 + a10 + a11 + a12;
            && |h| == HeaderLength
            && h[0..4] == a0 && h[4..8] == a1 && h[8..12] == a2 && h[12..16] == a3
            && h[16..20] == a4 && h[20..22] == a5 && h[22..24] == a6 && h[24..28] == a7
            && h[28..32] == a8 && h[32..34] == a9 && h[34..36] == a10 && h[36..40] == a11
            && h[40..44] == a12
  {
  }

  /** The fields of a canonical PCM header, named as in the WAVE format. */
  datatype HeaderFields = HeaderFields(
    chunkSize: nat,
    subchunk1Size: nat,
    audioFormat: nat,
    numChannels: nat,
    sampleRate: nat,
    byteRate: nat,
    blockAlign: nat,
    bitsPerSample: nat,
    subchunk2Size: nat)

  /** A reader of the canonical 44-byte layout, independent of the writer:
      it checks the length and the four tags at offsets 0, 8, 12 and 36, and
      decodes every other field as a little-endian integer at its offset. */
  function ReadHeader(h: seq<Byte>): (r: Option<HeaderFields>)
    ensures r.Some? ==> |h| == HeaderLength && h[0..4] == RIFF && h[36..40] == DATA
    ensures r.Some? ==> && r.value.chunkSize < Two32 && r.value.subchunk1Size < Two32
                        && r.value.audioFormat < Two16 && r.value.numChannels < Two16
                        && r.value.sampleRate < Two32 && r.value.byteRate < Two32
                        && r.value.blockAlign < Two16 && r.value.bitsPerSample < Two16
                        && r.value.subchunk2Size < Two32
  {
    assert Pow256(Width32) == Two32 && Pow256(Width16) == Two16 by {
      assert Pow256(4) == Two32;
    }
    if |h| != HeaderLength || h[0..4] != RIFF || h[8..12] != WAVE
       || h[12..16] != FMT || h[36..40] != DATA
    then None
    else Some(HeaderFields(
      FromLittleEndian(h[4..8]),
      FromLittleEndian(h[16..20]),
      FromLittleEndian(h[20..22]),
      FromLittleEndian(h[22..24]),
      FromLittleEndian(h[24..28]),
      FromLittleEndian(h[28..32]),
      FromLittleEndian(h[32..34]),
      FromLittleEndian(h[34..36]),
      FromLittleEndian(h[40..44])))
  }

  /** Every written header is 44 bytes long and carries the four tags at
      their offsets, and each field decodes to the value written there,
      reduced to the field's width as the typed-array stores reduce it.
      Format 1 and fmt size 16 are written whatever the options say. */
  lemma HeaderLayout(dataLength: nat, cfg: Config)
    ensures |HeaderBytes(dataLength, cfg)| == HeaderLength
    ensures ReadHeader(HeaderBytes(dataLength, cfg)) == Some(HeaderFields(
      (dataLength + 36) % Two32,
      16,
      1,
      cfg.channels % Two16,
      cfg.sampleRate % Two32,
      ByteRate(cfg) % Two32,
      BlockAlign(cfg) % Two16,
      cfg.bitDepth % Two16,
      dataLength % Two32))
  {
    Layout(RIFF, Uint32(dataLength + HeaderLength - 8), WAVE, FMT,
      Uint32(16), Uint16(1), Uint16(cfg.channels), Uint32(cfg.sampleRate),
      Uint32(ByteRate(cfg)), Uint16(BlockAlign(cfg)), Uint16(cfg.bitDepth),
      DATA, Uint32(dataLength));
  }

  /** A header determines its bytes: two sequences that read as the same
      header are equal, so every one of the 44 bytes is fixed by the fields. */
  lemma ReadHeaderInjective(h: seq<Byte>, g: seq<Byte>)
    requires ReadHeader(h).Some? && ReadHeader(h) == ReadHeader(g)
    ensures h == g
  {
    assert |h| == |g| == HeaderLength;
    SameField(h, g, 4, 8);
    SameField(h, g, 16, 20);
    SameField(h, g, 20, 22);
    SameField(h, g, 22, 24);
    SameField(h, g, 24, 28);
    SameField(h, g, 28, 32);
    SameField(h, g, 32, 34);
    SameField(h, g, 34, 36);
    SameField(h, g, 40, 44);
    SameField(h, g, 0, 4);
    SameField(h, g, 8, 12);
    SameField(h, g, 12, 16);
    SameField(h, g, 36, 40);
  }

  /** Two sequences whose bytes a to b hold the same value agree there. */
  lemma SameField(h: seq<Byte>, g: seq<Byte>, a: nat, b: nat)
    requires a <= b <= |h| && b <= |g|
    requires FromLittleEndian(h[a..b]) == FromLittleEndian(g[a..b])
    ensures forall i :: a <= i < b ==> h[i] == g[i]
  {
    FromLittleEndianInjective(h[a..b], g[a..b]);
    assert forall i :: a <= i < b ==> h[i] == h[a..b][i - a] && g[i] == g[a..b][i - a];
  }

  /** The options and data length for which no field of the header wraps
      and the two divisions by 8 are exact. */
  predicate Fits(dataLength: nat, cfg: Config) {
    && dataLength + 36 < Two32
    && cfg.channels < Two16
    && cfg.sampleRate < Two32
    && cfg.bitDepth < Two16
    && cfg.bitDepth % 8 == 0
    && ByteRate(cfg) < Two32
    && BlockAlign(cfg) < Two16
  }

  /** With fields that fit their widths, the header holds the exact values:
      size dataLength + 44 - 8, fmt size 16, format 1, the configuration,
      byteRate * 8 == sampleRate * channels * bitDepth, blockAlign * 8 ==
      channels * bitDepth, byteRate == sampleRate * blockAlign, and dataLength. */
  lemma HeaderExact(dataLength: nat, cfg: Config)
    requires Fits(dataLength, cfg)
    ensures ReadHeader(HeaderBytes(dataLength, cfg)) == Some(HeaderFields(
      dataLength + HeaderLength - 8, 16, 1, cfg.channels, cfg.sampleRate,
      ByteRate(cfg), BlockAlign(cfg), cfg.bitDepth, dataLength))
    ensures ByteRate(cfg) * 8 == cfg.sampleRate * cfg.channels * cfg.bitDepth
    ensures BlockAlign(cfg) * 8 == cfg.channels * cfg.bitDepth
    ensures ByteRate(cfg) == cfg.sampleRate * BlockAlign(cfg)
  {
    assert ReadHeader(HeaderBytes(dataLength, cfg)) == Some(HeaderFields(
      dataLength + HeaderLength - 8, 16, 1, cfg.channels, cfg.sampleRate,
      ByteRate(cfg), BlockAlign(cfg), cfg.bitDepth, dataLength)) by {
      HeaderLayout(dataLength, cfg);
      Unreduced(dataLength + HeaderLength - 8, cfg.channels, cfg.sampleRate,
        ByteRate(cfg), BlockAlign(cfg), cfg.bitDepth, dataLength);
    }
    assert && ByteRate(cfg) * 8 == cfg.sampleRate * cfg.channels * cfg.bitDepth
           && BlockAlign(cfg) * 8 == cfg.channels * cfg.bitDepth
           && ByteRate(cfg) == cfg.sampleRate * BlockAlign(cfg) by {
      ExactDivisions(cfg.sampleRate, cfg.channels, cfg.bitDepth);
    }
  }

  /** Header fields below their widths are not changed by the reduction. */
  lemma Unreduced(chunkSize: nat, channels: nat, sampleRate: nat, byteRate: nat,
                  blockAlign: nat, bitDepth: nat, dataLength: nat)
    requires chunkSize < Two32 && channels < Two16 && sampleRate < Two32
    requires byteRate < Two32 && blockAlign < Two16 && bitDepth < Two16
    requires dataLength < Two32
    ensures HeaderFields(chunkSize % Two32, 16, 1, channels % Two16, sampleRate % Two32,
              byteRate % Two32, blockAlign % Two16, bitDepth % Two16, dataLength % Two32)
            == HeaderFields(chunkSize, 16, 1, channels, sampleRate,
              byteRate, blockAlign, bitDepth, dataLength)
  {
  }

  /** With a whole number of bytes per sample, both divisions by 8 are exact
      and the byte rate is the sample rate times the block align. */
  lemma ExactDivisions(sampleRate: nat, channels: nat, bitDepth: nat)
    requires bitDepth % 8 == 0
    ensures sampleRate * channels * bitDepth / 8 * 8 == sampleRate * channels * bitDepth
    ensures channels * bitDepth / 8 * 8 == channels * bitDepth
    ensures sampleRate * channels * bitDepth / 8 == sampleRate * (channels * bitDepth / 8)
  {
    var q := bitDepth / 8;
    var b := channels * q;
    assert channels * bitDepth == 8 * b by {
      assert bitDepth == 8 * q;
    }
    assert sampleRate * channels * bitDepth == 8 * (sampleRate * b) by {
      assert sampleRate * channels * bitDepth == sampleRate * (channels * bitDepth);
    }
  }

  /** The options the application records with (16000 Hz, mono, 16 bits) and
      one second of audio: byte rate 32000, block align 2, size 32036. */
  lemma AppOptionsHeader()
    ensures var options := WriterOptions(None, Some(1), Some(16000), Some(16));
            ReadHeader(HeaderBytes(32000, Resolve(options))) == Some(HeaderFields(
              32036, 16, 1, 1, 16000, 32000, 2, 16, 32000))
  {
    var cfg := Resolve(WriterOptions(None, Some(1), Some(16000), Some(16)));
    assert cfg == Config(1, 16000, 16);
    HeaderExact(32000, cfg);
  }

  /** Models `view.set(bytes, offset)`: copies bytes into view from offset on. */
  method PutBytes(view: array<Byte>, offset: nat, bytes: seq<Byte>)
    requires offset + |bytes| <= view.Length
    modifies view
    ensures view[..offset + |bytes|] == old(view[..offset]) + bytes
    ensures forall k :: offset + |bytes| <= k < view.Length ==> view[k] == old(view[k])
  {
    var i := 0;
    while i < |bytes|
      invariant 0 <= i <= |bytes|
      invariant forall k :: 0 <= k < offset ==> view[k] == old(view[k])
      invariant forall k :: 0 <= k < i ==> view[offset + k] == bytes[k]
      invariant forall k :: offset + i <= k < view.Length ==> view[k] == old(view[k])
    {
      view[offset + i] := bytes[i];
      i := i + 1;
    }
  }

  /** Models `new Uint32Array(view.buffer, offset, 1)[0] = v` with an
      explicitly little-endian store. */
  method PutUint32(view: array<Byte>, offset: nat, v: nat)
    requires offset + 4 <= view.Length
    modifies view
    ensures view[..offset + 4] == old(view[..offset]) + Uint32(v)
    ensures forall k :: offset + 4 <= k < view.Length ==> view[k] == old(view[k])
  {
    var w := v % Two32;
    view[offset] := w % 256;
    view[offset + 1] := w / 0x100 % 256;
    view[offset + 2] := w / 0x1_0000 % 256;
    view[offset + 3] := w / 0x100_0000;
    Uint32Bytes(v);
  }

  /** Models `new Uint16Array(view.buffer, offset, 1)[0] = v` with an
      explicitly little-endian store. */
  method PutUint16(view: array<Byte>, offset: nat, v: nat)
    requires offset + 2 <= view.Length
    modifies view
    ensures view[..offset + 2] == old(view[..offset]) + Uint16(v)
    ensures forall k :: offset + 2 <= k < view.Length ==> view[k] == old(view[k])
  {
    var w := v % Two16;
    view[offset] := w % 256;
    view[offset + 1] := w / 0x100;
    Uint16Bytes(v);
  }

  /** The first part of wavHeader, written from offset 0: the "RIFF" identifier, the file size
      minus the identifier and the size field, and the "WAVE" identifier. */
  method WriteRiffDescriptor(view: array<Byte>, fileSize: nat) returns (next: nat)
    requires 12 <= view.Length && fileSize >= 8
    modifies view
    ensures next == 12
    ensures view[..next] == RIFF + Uint32(fileSize - 8) + WAVE
    ensures forall k :: next <= k < view.Length ==> view[k] == old(view[k])
  {
    assert |RIFF| == |WAVE| == 4;
    PutBytes(view, 0, RIFF);
    next := |RIFF|;
    ghost var written := RIFF;
    assert view[..next] == written;
    PutUint32(view, next, fileSize - 8);
    next, written := next + 4, written + Uint32(fileSize - 8);
    assert view[..next] == written;
    PutBytes(view, next, WAVE);
    next, written := next + |WAVE|, written + WAVE;
  }

  /** The middle part of wavHeader: the "fmt " sub-chunk, with its size 16,
      audio format 1, and the channel count, sample rate, byte rate, block
      align and bits per sample. */
  method WriteFmtSubchunk(view: array<Byte>, offset: nat, cfg: Config) returns (next: nat)
    requires offset + 24 <= view.Length
    modifies view
    ensures next == offset + 24
    ensures view[..next] == old(view[..offset]) + FMT
      + Uint32(16) + Uint16(1) + Uint16(cfg.channels) + Uint32(cfg.sampleRate)
      + Uint32(ByteRate(cfg)) + Uint16(BlockAlign(cfg)) + Uint16(cfg.bitDepth)
    ensures forall k :: next <= k < view.Length ==> view[k] == old(view[k])
  {
    assert |FMT| == 4;
    ghost var written := old(view[..offset]);
    next := offset;
    PutBytes(view, next, FMT);
    next, written := next + |FMT|, written + FMT;
    assert view[..next] == written;
    PutUint32(view, next, 16);
    next, written := next + 4, written + Uint32(16);
    assert view[..next] == written;
    PutUint16(view, next, 1);
    next, written := next + 2, written + Uint16(1);
    assert view[..next] == written;
    PutUint16(view, next, cfg.channels);
    next, written := next + 2, written + Uint16(cfg.channels);
    assert view[..next] == written;
    PutUint32(view, next, cfg.sampleRate);
    next, written := next + 4, written + Uint32(cfg.sampleRate);
    assert view[..next] == written;
    var byteRate := ByteRate(cfg);
    PutUint32(view, next, byteRate);
    next, written := next + 4, written + Uint32(byteRate);
    assert view[..next] == written;
    var blockAlign := BlockAlign(cfg);
    PutUint16(view, next, blockAlign);
    next, written := next + 2, written + Uint16(blockAlign);
    assert view[..next] == written;
    PutUint16(view, next, cfg.bitDepth);
    next, written := next + 2, written + Uint16(cfg.bitDepth);
  }

  /** The last part of wavHeader: the "data" sub-chunk identifier and the
      length of the audio that follows. */
  method WriteDataSubchunk(view: array<Byte>, offset: nat, dataLength: nat) returns (next: nat)
    requires offset + 8 <= view.Length
    modifies view
    ensures next == offset + 8
    ensures view[..next] == old(view[..offset]) + DATA + Uint32(dataLength)
    ensures forall k :: next <= k < view.Length ==> view[k] == old(view[k])
  {
    assert |DATA| == 4;
    ghost var written := old(view[..offset]);
    next := offset;
    PutBytes(view, next, DATA);
    next, written := next + |DATA|, written + DATA;
    assert view[..next] == written;
    PutUint32(view, next, dataLength);
    next, written := next + 4, written + Uint32(dataLength);
  }

  /** wavHeader: fills the defaults in, then fills a fresh 44-byte buffer
      field by field, advancing a running offset, and returns it. */
  method WavHeader(dataLength: nat, options: WriterOptions) returns (buffer: array<Byte>)
    ensures fresh(buffer)
    ensures buffer[..] == HeaderBytes(dataLength, Resolve(options))
  {
    var cfg := Resolve(options);
    var headerLength := HeaderLength;
    var fileSize := dataLength + headerLength;
    buffer := new Byte[44];
    var offset := WriteRiffDescriptor(buffer, fileSize);
    assert fileSize - 8 == dataLength + HeaderLength - 8;
    ghost var riff := buffer[..offset];
    assert riff == RIFF + Uint32(dataLength + HeaderLength - 8) + WAVE;
    offset := WriteFmtSubchunk(buffer, offset, cfg);
    ghost var fmt := buffer[..offset];
    assert fmt == riff + FMT + Uint32(16) + Uint16(1) + Uint16(cfg.channels)
      + Uint32(cfg.sampleRate) + Uint32(ByteRate(cfg)) + Uint16(BlockAlign(cfg))
      + Uint16(cfg.bitDepth);
    offset := WriteDataSubchunk(buffer, offset, dataLength);
    assert buffer[..offset] == fmt + DATA + Uint32(dataLength);
    assert buffer[..] == buffer[..offset];
  }
}
