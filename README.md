# html-pcm-recorder: the capture-to-WAV pipeline in Dafny

The recorder captures microphone audio as a stream of raw PCM chunks. When
the stream completes, it returns a WAV file: a 44-byte RIFF/WAVE PCM header
followed by the chunks in the order they arrived. This project models the
two pieces of `src/main/recorder.ts` that do this work, and proves what they
promise.

- `wavHeader(dataLength, options)` fills the defaults, allocates a 44-byte
  buffer and writes the header into it, field by field, with a running
  offset. The model is the method `Recorder.WavHeader`. It writes into an
  `array<Byte>` through `PutBytes` (`view.set`), `PutUint32` and `PutUint16`
  (the `Uint32Array`/`Uint16Array` stores). The run of stores is split into
  three methods, one per part of the header: the RIFF descriptor, the
  "fmt " sub-chunk and the "data" sub-chunk. `WavHeader` is proved to return
  exactly `HeaderBytes(dataLength, Resolve(options))`.
- `toWave(subject, options)` sums the chunk lengths in `next` and emits
  `[header, ...buffers]` in `complete`. The model is the class
  `ToWave.WaveCollector`: its fields are `dataLength` and `buffers`, and its
  methods are `Next` and `Complete`. `ToWave.CollectWave` drives one
  collector over a whole chunk sequence, in place of a subject that emits
  those chunks and then completes.
- `str2ab` is `Bytes.Str2ab`, the ASCII encoding of the four tags.

The header is stated two ways:

- `HeaderBytes` concatenates the fields in the order they are written.
- `ReadHeader` is an independent reader. It checks the length and the four
  tags at their fixed offsets, and decodes each numeric field from its
  offset.

`HeaderLayout` and `HeaderExact` link the two ways. `ReadHeaderInjective`
shows that the field values fix all 44 bytes.

Files:

- `bytes.dfy` (module `Bytes`): little-endian encoding and decoding, the
  typed-array stores, and `Str2ab`.
- `chunks.dfy` (module `Chunks`): lists of byte chunks, their total length
  and their concatenation, with the length and order lemmas.
- `recorder.dfy` (module `Recorder`): the options and their defaults, the
  header, its reader and the writer methods.
- `to_wave.dfy` (module `ToWave`): the collector, and where each chunk lands
  in the emitted file.

Typed-array stores wrap silently. `ToUint32` and `ToUint16` reduce the value
modulo 2^32 or 2^16, and a fractional `/ 8` result is truncated by the
store. The model writes out this wrap-around and truncation (`Uint32`,
`Uint16`, `ByteRate`, `BlockAlign`), so `WavHeader` is defined on every
input, just like the source. The exact field values (`HeaderExact`) hold
under `Fits`: every field fits its width and `bitDepth` is a multiple of 8.

A stricter PCM writer would reject a format other than 1 and fields too
wide for their slot. `wavHeader` does neither, and the model does the same:

- The `format` option is never read. Format 1 is always written
  (src/main/recorder.ts:68, 109).
- Oversized fields wrap in the typed-array stores
  (src/main/recorder.ts:89-141).

Determinism holds by construction: the header is a function of
`(dataLength, options)`, and `WavHeader` is proved equal to it. Likewise
`CollectWave`'s output is a function of the options and the chunk sequence.

## Model

| member | source | states |
|---|---|---|
| `Bytes.LittleEndian` | src/main/recorder.ts:89 | the n-byte little-endian encoding of v has length n and decodes back to v |
| `Bytes.FromLittleEndian` | src/main/recorder.ts:89 | the value a stored field denotes is below 256^n for an n-byte field |
| `Bytes.LittleEndianOfValue` | src/main/recorder.ts:89-141 | re-encoding a field's value gives back its bytes, so encoding and decoding are inverse |
| `Bytes.Uint32` | src/main/recorder.ts:105 | a Uint32Array store writes 4 bytes whose little-endian value is v mod 2^32 |
| `Bytes.Uint16` | src/main/recorder.ts:109 | a Uint16Array store writes 2 bytes whose little-endian value is v mod 2^16 |
| `Bytes.Uint32Bytes` | src/main/recorder.ts:117 | the 4 stored bytes are w mod 256, then w/2^8, w/2^16, w/2^24 (each mod 256), for w = v mod 2^32 |
| `Bytes.Uint16Bytes` | src/main/recorder.ts:113 | the 2 stored bytes are w mod 256 and w/2^8, for w = v mod 2^16 |
| `Bytes.Str2ab` | src/main/recorder.ts:159-161 | an ASCII string encodes to one byte per character, holding its code |
| `Recorder.OrDefault` | src/main/recorder.ts:69-71 | the JavaScript or-fallback on an option: a defined non-zero value is used as given, an undefined or 0 value gives d; the result is non-zero whenever d is |
| `Recorder.Resolve` | src/main/recorder.ts:68-71 | an undefined or 0 option gives channels 2, sample rate 44100, bit depth 16; any other value is used as given; format is not consulted |
| `Recorder.Truncation` | src/main/recorder.ts:121-126 | `ByteRate` and `BlockAlign` are the floors of sampleRate·channels·bitDepth/8 and channels·bitDepth/8, as the Uint32/Uint16 store truncates the fraction: less than one byte's worth of bits is dropped |
| `Recorder.TagCodes` | src/main/recorder.ts:84-137 | the tags are the ASCII bytes of "RIFF", "WAVE", "fmt " and "data" |
| `Recorder.HeaderBytes` | src/main/recorder.ts:83-142 | the bytes wavHeader returns, in writing order: 44 long, with "RIFF", "WAVE", "fmt " and "data" at offsets 0, 8, 12 and 36 |
| `Recorder.ReadHeader` | src/main/recorder.ts:83-142 | not source code: an independent reader of the canonical layout the writer targets; a header it accepts is 44 bytes with the tags in place, and every field it reads lies within its 16- or 32-bit width |
| `Recorder.HeaderLayout` | src/main/recorder.ts:83-142 | tags at offsets 0, 8, 12, 36; at 4 the size dataLength + 36, at 16 the value 16, at 20 format 1, at 22/24/28/32/34 channels, sample rate, byte rate, block align, bit depth, at 40 dataLength, each reduced to its field width |
| `Recorder.ReadHeaderInjective` | src/main/recorder.ts:79-142 | two 44-byte headers with the same tags and field values are equal byte for byte |
| `Recorder.HeaderExact` | src/main/recorder.ts:78-142 | when the fields fit, the header holds the exact size, configuration, byte rate (sampleRate·channels·bitDepth/8) and block align (channels·bitDepth/8), and byteRate = sampleRate·blockAlign |
| `Recorder.ExactDivisions` | src/main/recorder.ts:121-126 | with bitDepth a multiple of 8, both divisions by 8 are exact and byteRate = sampleRate·blockAlign |
| `Recorder.AppOptionsHeader` | src/main/index.tsx:13-17 | the application's options (16000 Hz, mono, 16 bits) over 32000 bytes give size 32036, byte rate 32000, block align 2 |
| `Recorder.PutBytes` | src/main/recorder.ts:85 | view.set copies the bytes to the offset and leaves the rest of the buffer unchanged |
| `Recorder.PutUint32` | src/main/recorder.ts:89 | a 32-bit store writes Uint32(v) at the offset, keeps the bytes before it and changes nothing after it |
| `Recorder.PutUint16` | src/main/recorder.ts:109 | a 16-bit store writes Uint16(v) at the offset, keeps the bytes before it and changes nothing after it |
| `Recorder.WriteRiffDescriptor` | src/main/recorder.ts:83-95 | bytes 0 to 12 become "RIFF", the file size minus 8, "WAVE"; the offset ends at 12 |
| `Recorder.WriteFmtSubchunk` | src/main/recorder.ts:97-132 | the next 24 bytes become "fmt ", 16, format 1, channels, sample rate, byte rate, block align and bit depth, in that order and width |
| `Recorder.WriteDataSubchunk` | src/main/recorder.ts:134-142 | the next 8 bytes become "data" and dataLength |
| `Recorder.WavHeader` | src/main/recorder.ts:67-149 | the running-offset writer fills a fresh buffer with exactly HeaderBytes(dataLength, Resolve(options)) |
| `Chunks.TotalLengthBounds` | src/main/recorder.ts:52 | the running `dataLength += value.byteLength` total (`TotalLength`) is at least every chunk's length, and is 0 exactly when every chunk is empty |
| `Chunks.FlattenLength` | src/main/recorder.ts:52-57 | the concatenated chunks are exactly as long as the sum of the chunk lengths |
| `Chunks.FlattenSnoc` | src/main/recorder.ts:51-53 | appending one chunk to the buffer list appends its bytes to the concatenation and its length to the total |
| `Chunks.FlattenAppend` | src/main/recorder.ts:57 | concatenating two lists of chunks concatenates their bytes, in order |
| `Chunks.ChunkPosition` | src/main/recorder.ts:53-57 | chunk k occupies the bytes from the total length of the chunks before it up to that total plus its own length |
| `ToWave.WaveCollector.constructor` | src/main/recorder.ts:48-49 | a subscription starts with no buffers and dataLength 0 |
| `ToWave.WaveCollector.Next` | src/main/recorder.ts:51-54 | next appends the chunk, adds its byteLength, and keeps dataLength equal to the sum of the buffer lengths |
| `ToWave.WaveCollector.Complete` | src/main/recorder.ts:55-58 | complete emits the header for dataLength, then exactly the received chunks in arrival order, 44 + dataLength bytes in all |
| `ToWave.AudioPosition` | src/main/recorder.ts:57 | in the emitted file the header comes first, and chunk k starts right after the header and the chunks received before it |
| `ToWave.CollectWave` | src/main/recorder.ts:46-64 | for any chunk sequence, toWave emits the header for the total length, then the chunks unchanged and in order; the file is 44 bytes longer than the audio |

## Left out

- `audioStream` (src/main/recorder.ts:3-44) is browser I/O: the audio context, the worklet, `getUserMedia` and the device teardown. The chunk sequence it produces is a parameter of `CollectWave`.
- The RxJS `Subject` and the `Promise` plumbing of `toWave` are left out, and so is its `error` → `reject` path. The subject's promise to stop delivering after `complete` is also not modelled. Only the sequential `next` and `complete` handlers are.
- `src/main/index.tsx` (React UI, Blob and URL creation) and `webpack.config.js` (build configuration) are not part of this model.
- Host endianness: the typed-array views write in host byte order. The model writes little-endian explicitly, which is what the format requires and what every host the app targets does.
- Options are `Option<nat>`. Negative, fractional or NaN option values are not modelled. NaN would fall back to the default, like 0.
- Floating point: JavaScript numbers are doubles. Products above 2^53 lose precision before the store. The model computes `sampleRate * channels * bitDepth / 8` exactly, and floors it as the store truncates.
- The typed-array views throw a RangeError when the offset is not a multiple of the element width. This is not modelled: every offset the source uses is aligned, so the error cannot occur.
- Str2ab: only ASCII strings are encoded. Multi-byte UTF-8 is not modelled, because the source encodes only the four ASCII tag literals.
- `ToWave.WaveCollector` captures the options by value when it is built. The source keeps a reference to the options object and reads it only when `complete` fires (src/main/recorder.ts:56), so a caller that mutated the object in between would change the header. This aliasing is not modelled. The application passes a fresh literal (src/main/index.tsx:13-17).
