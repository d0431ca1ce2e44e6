/**
 * The canonical 44-byte PCM WAVE header (a RIFF form holding a 'fmt ' chunk and a 'data'
 * chunk, as in the Microsoft/IBM Multimedia Programming Interface and Data Specifications 1.0),
 * as create-simple-audio.js and create-bg-music.js write it into a zero-filled 44-byte Buffer.
 */
module Wave {
  import opened Bytes

  const SampleRate: int := 44100
  const BitsPerSample: int := 16
  const HeaderSize: int := 44

  /** Largest value `writeUInt32LE` accepts without throwing. */
  const MaxU32: int := 0xFFFF_FFFF

  /** The four-character codes, as the ASCII bytes `Buffer.write` stores. */
  const RIFF: seq<byte> := [0x52, 0x49, 0x46, 0x46]
  const WAVE: seq<byte> := [0x57, 0x41, 0x56, 0x45]
  const FMT: seq<byte> := [0x66, 0x6D, 0x74, 0x20]
  const DATA: seq<byte> := [0x64, 0x61, 0x74, 0x61]

  lemma TagsAreAscii()
    ensures RIFF == Ascii("RIFF") && WAVE == Ascii("WAVE") && FMT == Ascii("fmt ") && DATA == Ascii("data")
  {
  }

  predicate ValidLayout(channels: int, dataSize: int)
  {
    1 <= channels <= 2 && 0 <= dataSize && 36 + dataSize <= MaxU32
  }

  /** 'RIFF', the form size, 'WAVE': bytes 0 to 11. */
  function RiffPrefix(dataSize: int): (r: seq<byte>)
    requires 0 <= dataSize && 36 + dataSize <= MaxU32
  {
    RIFF + U32LE(36 + dataSize) + WAVE
  }

  /** The 'fmt ' chunk for 16-bit PCM at 44100 Hz: bytes 12 to 35. */
  function FmtChunk(channels: int): (r: seq<byte>)
    requires 1 <= channels <= 2
  {
    FMT + U32LE(16) + U16LE(1) + U16LE(channels) + U32LE(SampleRate)
    + U32LE(SampleRate * channels * BitsPerSample / 8) + U16LE(channels * BitsPerSample / 8)
    + U16LE(BitsPerSample)
  }

  /** 'data' and the data size: bytes 36 to 43. */
  function DataPrefix(dataSize: int): (r: seq<byte>)
    requires 0 <= dataSize <= MaxU32
  {
    DATA + U32LE(dataSize)
  }

  /** The whole header, in file order. */
  function WavHeader(channels: int, dataSize: int): (h: seq<byte>)
    requires ValidLayout(channels, dataSize)
    ensures |h| == HeaderSize
  {
    RiffPrefix(dataSize) + FmtChunk(channels) + DataPrefix(dataSize)
  }

  lemma RiffPrefixLayout(dataSize: int)
    requires 0 <= dataSize && 36 + dataSize <= MaxU32
    ensures var r := RiffPrefix(dataSize);
      |r| == 12 && r[0..4] == RIFF && r[8..12] == WAVE && ReadU32LE(r, 4) == 36 + dataSize
  {
    ReadU32At(RIFF, 36 + dataSize, WAVE);
  }

  lemma FmtChunkLayout(channels: int)
    requires 1 <= channels <= 2
    ensures var f := FmtChunk(channels);
      && |f| == 24 && f[0..4] == FMT
      && ReadU32LE(f, 4) == 16 && ReadU16LE(f, 8) == 1 && ReadU16LE(f, 10) == channels
      && ReadU32LE(f, 12) == SampleRate && ReadU32LE(f, 16) == SampleRate * channels * 2
      && ReadU16LE(f, 20) == channels * 2 && ReadU16LE(f, 22) == BitsPerSample
  {
    var f := FmtChunk(channels);
    U32RoundTrip(16);
    U16RoundTrip(1);
    U16RoundTrip(channels);
    U32RoundTrip(SampleRate);
    U32RoundTrip(SampleRate * channels * 2);
    U16RoundTrip(channels * 2);
    U16RoundTrip(BitsPerSample);
  }

  lemma DataPrefixLayout(dataSize: int)
    requires 0 <= dataSize <= MaxU32
    ensures var d := DataPrefix(dataSize);
      |d| == 8 && d[0..4] == DATA && ReadU32LE(d, 4) == dataSize
  {
    ReadU32At(DATA, dataSize, []);
    assert DataPrefix(dataSize) == DATA + U32LE(dataSize) + [];
  }

  /** What a RIFF reader finds in the header: tags at 0, 8, 12, 36 and the little-endian fields. */
  lemma HeaderLayout(channels: int, dataSize: int)
    requires ValidLayout(channels, dataSize)
    ensures var h := WavHeader(channels, dataSize);
      && |h| == HeaderSize
      && h[0..4] == RIFF && h[8..12] == WAVE && h[12..16] == FMT && h[36..40] == DATA
      && ReadU32LE(h, 4) == 36 + dataSize
      && ReadU32LE(h, 16) == 16
      && ReadU16LE(h, 20) == 1
      && ReadU16LE(h, 22) == channels
      && ReadU32LE(h, 24) == SampleRate
      && ReadU32LE(h, 28) == SampleRate * channels * 2
      && ReadU16LE(h, 32) == channels * 2
      && ReadU16LE(h, 34) == BitsPerSample
      && ReadU32LE(h, 40) == dataSize
  {
    var r, f, d := RiffPrefix(dataSize), FmtChunk(channels), DataPrefix(dataSize);
    RiffPrefixLayout(dataSize);
    FmtChunkLayout(channels);
    DataPrefixLayout(dataSize);
    var h := WavHeader(channels, dataSize);
    assert h[..12] == r;
    assert h[12..36] == f;
    assert h[36..] == d;
    assert forall k :: 0 <= k < 12 ==> h[k] == r[k];
    assert forall k :: 0 <= k < 24 ==> h[12 + k] == f[k];
    assert forall k :: 0 <= k < 8 ==> h[36 + k] == d[k];
  }

  /** Bytes 0 to 11 of the header-writing block: 'RIFF', the form size, 'WAVE'. */
  method WriteRiffPrefix(header: array<byte>, dataSize: int)
    requires header.Length == HeaderSize && 0 <= dataSize && 36 + dataSize <= MaxU32
    modifies header
    ensures header[..12] == RiffPrefix(dataSize)
  {
    WriteAt(header, 0, RIFF);
    WriteAt(header, 4, U32LE(36 + dataSize));
    WriteAt(header, 8, WAVE);
  }

  /** Bytes 12 to 35: the 'fmt ' chunk, eight writes. */
  method WriteFmtChunk(header: array<byte>, channels: int)
    requires header.Length == HeaderSize && 1 <= channels <= 2
    modifies header
    ensures header[..36] == old(header[..12]) + FmtChunk(channels)
  {
    ghost var written: seq<byte> := old(header[..12]);
    WriteAt(header, 12, FMT);                   written := written + FMT;
    WriteAt(header, 16, U32LE(16));             written := written + U32LE(16);
    WriteAt(header, 20, U16LE(1));              written := written + U16LE(1);
    WriteAt(header, 22, U16LE(channels));       written := written + U16LE(channels);
    WriteAt(header, 24, U32LE(SampleRate));     written := written + U32LE(SampleRate);
    WriteAt(header, 28, U32LE(SampleRate * channels * BitsPerSample / 8));
    written := written + U32LE(SampleRate * channels * BitsPerSample / 8);
    WriteAt(header, 32, U16LE(channels * BitsPerSample / 8));
    written := written + U16LE(channels * BitsPerSample / 8);
    WriteAt(header, 34, U16LE(BitsPerSample));  written := written + U16LE(BitsPerSample);
    assert written == old(header[..12]) + FmtChunk(channels);
  }

  /** Bytes 36 to 43: 'data' and the data size. */
  method WriteDataPrefix(header: array<byte>, dataSize: int)
    requires header.Length == HeaderSize && 0 <= dataSize <= MaxU32
    modifies header
    ensures header[..] == old(header[..36]) + DataPrefix(dataSize)
  {
    WriteAt(header, 36, DATA);
    WriteAt(header, 40, U32LE(dataSize));
    assert header[..] == header[..44];
  }

  /** The header-writing block shared by both WAV builders: thirteen writes at fixed offsets. */
  method WriteHeader(header: array<byte>, channels: int, dataSize: int)
    requires header.Length == HeaderSize && ValidLayout(channels, dataSize)
    modifies header
    ensures header[..] == WavHeader(channels, dataSize)
  {
    WriteRiffPrefix(header, dataSize);
    WriteFmtChunk(header, channels);
    WriteDataPrefix(header, dataSize);
  }
}
