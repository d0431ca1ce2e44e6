/**
 * create-simple-audio.js, `createSimpleWav`: a mono 16-bit PCM WAVE file. The sine samples
 * themselves are computed in floating point; here they are the parameter `tone` (the rounded
 * values the script passes to `writeInt16LE`), and the model is the byte layout around them.
 */
module SimpleAudio {
  import opened Bytes
  import opened Wave

  /** Every sample fits `writeInt16LE`. */
  predicate IsPcm16(tone: seq<int>)
  {
    forall i :: 0 <= i < |tone| ==> -0x8000 <= tone[i] < 0x8000
  }

  /** `samples = sampleRate * durationSeconds` is a whole, non-negative count. */
  predicate WholeSampleCount(durationSeconds: real)
  {
    durationSeconds >= 0.0 && (44100.0 * durationSeconds).Floor as real == 44100.0 * durationSeconds
  }

  function SampleCount(durationSeconds: real): int
  {
    (44100.0 * durationSeconds).Floor
  }

  /** The mono data area: sample i as two little-endian bytes at offset 2i. */
  function MonoData(tone: seq<int>): (d: seq<byte>)
    requires IsPcm16(tone)
    ensures |d| == 2 * |tone|
  {
    if tone == [] then [] else MonoData(tone[..|tone| - 1]) + I16LE(tone[|tone| - 1])
  }

  /** The file `createSimpleWav` returns: header then data. */
  function SimpleWav(tone: seq<int>): seq<byte>
    requires IsPcm16(tone) && ValidLayout(1, 2 * |tone|)
  {
    WavHeader(1, 2 * |tone|) + MonoData(tone)
  }

  lemma {:induction false} MonoDataAt(tone: seq<int>, i: nat)
    requires IsPcm16(tone) && i < |tone|
    ensures MonoData(tone)[2 * i..2 * i + 2] == I16LE(tone[i])
  {
    var init := tone[..|tone| - 1];
    assert MonoData(tone) == MonoData(init) + I16LE(tone[|tone| - 1]);
    if i < |tone| - 1 {
      MonoDataAt(init, i);
      assert init[i] == tone[i];
    }
  }

  /**
   * The layout a WAVE reader sees: 44 + 2·samples bytes, a mono 16-bit 44100 Hz header whose
   * sizes agree with the file length, and sample i readable at offset 44 + 2i.
   */
  lemma SimpleWavLayout(tone: seq<int>)
    requires IsPcm16(tone) && ValidLayout(1, 2 * |tone|)
    ensures var w := SimpleWav(tone);
      && |w| == 44 + 2 * |tone|
      && w[0..4] == RIFF && w[8..12] == WAVE && w[12..16] == FMT && w[36..40] == DATA
      && ReadU32LE(w, 4) == |w| - 8
      && ReadU32LE(w, 16) == 16 && ReadU16LE(w, 20) == 1 && ReadU16LE(w, 22) == 1
      && ReadU32LE(w, 24) == 44100 && ReadU32LE(w, 28) == 88200
      && ReadU16LE(w, 32) == 2 && ReadU16LE(w, 34) == 16
      && ReadU32LE(w, 40) == |w| - 44
      && forall i :: 0 <= i < |tone| ==> ReadI16LE(w, 44 + 2 * i) == tone[i]
  {
    var h := WavHeader(1, 2 * |tone|);
    var w := SimpleWav(tone);
    HeaderLayout(1, 2 * |tone|);
    assert w[..44] == h;
    forall i | 0 <= i < |tone|
      ensures ReadI16LE(w, 44 + 2 * i) == tone[i]
    {
      MonoSampleAt(tone, i);
    }
  }

  lemma MonoSampleAt(tone: seq<int>, i: nat)
    requires IsPcm16(tone) && ValidLayout(1, 2 * |tone|) && i < |tone|
    ensures ReadI16LE(SimpleWav(tone), 44 + 2 * i) == tone[i]
  {
    var h, d := WavHeader(1, 2 * |tone|), MonoData(tone);
    MonoDataAt(tone, i);
    SliceAfter(h, d, 2 * i, 2 * i + 2);
    I16RoundTrip(tone[i]);
  }

  /** The sample loop: sample i at offset 2i. */
  method WriteMonoSamples(audioData: array<byte>, tone: seq<int>)
    requires IsPcm16(tone) && audioData.Length == 2 * |tone|
    modifies audioData
    ensures audioData[..] == MonoData(tone)
  {
    for i := 0 to |tone|
      invariant audioData[..2 * i] == MonoData(tone[..i])
    {
      WriteAt(audioData, i * 2, I16LE(tone[i]));
      assert tone[..i + 1][..i] == tone[..i];
    }
    assert audioData[..] == audioData[..2 * |tone|];
    assert tone[..|tone|] == tone;
  }

  method CreateSimpleWav(durationSeconds: real, tone: seq<int>) returns (wav: seq<byte>)
    requires WholeSampleCount(durationSeconds)
    requires |tone| == SampleCount(durationSeconds) && IsPcm16(tone)
    requires 36 + 2 * |tone| <= MaxU32
    ensures ValidLayout(1, 2 * |tone|) && wav == SimpleWav(tone)
  {
    var samples := (44100.0 * durationSeconds).Floor;
    var header := new byte[HeaderSize](_ => 0);
    WriteHeader(header, 1, samples * 2);
    var audioData := new byte[samples * 2](_ => 0);
    WriteMonoSamples(audioData, tone);
    wav := header[..] + audioData[..];
  }
}
