/**
 * create-bg-music.js, `createLongerBackgroundMusic`: a stereo 16-bit PCM WAVE file in which
 * every frame carries the same sample on both channels. The layered-sine synthesis is floating
 * point; its rounded samples are the parameter `tone`.
 */
module BackgroundMusic {
  import opened Bytes
  import opened Wave
  import opened SimpleAudio

  /** The stereo data area: frame i is sample i twice (left at 4i, right at 4i + 2). */
  function StereoData(tone: seq<int>): (d: seq<byte>)
    requires IsPcm16(tone)
    ensures |d| == 4 * |tone|
  {
    if tone == [] then []
    else StereoData(tone[..|tone| - 1]) + I16LE(tone[|tone| - 1]) + I16LE(tone[|tone| - 1])
  }

  function StereoWav(tone: seq<int>): seq<byte>
    requires IsPcm16(tone) && ValidLayout(2, 4 * |tone|)
  {
    WavHeader(2, 4 * |tone|) + StereoData(tone)
  }

  lemma {:induction false} StereoDataAt(tone: seq<int>, i: nat)
    requires IsPcm16(tone) && i < |tone|
    ensures StereoData(tone)[4 * i..4 * i + 2] == I16LE(tone[i])
    ensures StereoData(tone)[4 * i + 2..4 * i + 4] == I16LE(tone[i])
  {
    var init := tone[..|tone| - 1];
    assert StereoData(tone) == StereoData(init) + I16LE(tone[|tone| - 1]) + I16LE(tone[|tone| - 1]);
    if i < |tone| - 1 {
      StereoDataAt(init, i);
      assert init[i] == tone[i];
    }
  }

  /**
   * 44 + 4·samples bytes; two channels, byte rate 176400, block align 4, 16 bits; the chunk sizes
   * agree with the length; and in every frame the left sample equals the right one.
   */
  lemma StereoWavLayout(tone: seq<int>)
    requires IsPcm16(tone) && ValidLayout(2, 4 * |tone|)
    ensures var w := StereoWav(tone);
      && |w| == 44 + 4 * |tone|
      && w[0..4] == RIFF && w[8..12] == WAVE && w[12..16] == FMT && w[36..40] == DATA
      && ReadU32LE(w, 4) == 36 + 4 * |tone| && ReadU32LE(w, 40) == 4 * |tone|
      && ReadU16LE(w, 22) == 2 && ReadU32LE(w, 24) == 44100 && ReadU32LE(w, 28) == 176400
      && ReadU16LE(w, 32) == 4 && ReadU16LE(w, 34) == 16
      && forall i :: 0 <= i < |tone| ==>
           ReadI16LE(w, 44 + 4 * i) == tone[i] && ReadI16LE(w, 44 + 4 * i + 2) == tone[i]
  {
    var h := WavHeader(2, 4 * |tone|);
    var w := StereoWav(tone);
    HeaderLayout(2, 4 * |tone|);
    assert w[..44] == h;
    forall i | 0 <= i < |tone|
      ensures ReadI16LE(w, 44 + 4 * i) == tone[i] && ReadI16LE(w, 44 + 4 * i + 2) == tone[i]
    {
      StereoSampleAt(tone, i);
    }
  }

  lemma StereoSampleAt(tone: seq<int>, i: nat)
    requires IsPcm16(tone) && ValidLayout(2, 4 * |tone|) && i < |tone|
    ensures ReadI16LE(StereoWav(tone), 44 + 4 * i) == tone[i]
    ensures ReadI16LE(StereoWav(tone), 44 + 4 * i + 2) == tone[i]
  {
    var h, d := WavHeader(2, 4 * |tone|), StereoData(tone);
    StereoDataAt(tone, i);
    SliceAfter(h, d, 4 * i, 4 * i + 2);
    SliceAfter(h, d, 4 * i + 2, 4 * i + 4);
    I16RoundTrip(tone[i]);
  }

  /** The sample loop: frame i gets the sample at 4i (left) and again at 4i + 2 (right). */
  method WriteStereoFrames(audioData: array<byte>, tone: seq<int>)
    requires IsPcm16(tone) && audioData.Length == 4 * |tone|
    modifies audioData
    ensures audioData[..] == StereoData(tone)
  {
    for i := 0 to |tone|
      invariant audioData[..4 * i] == StereoData(tone[..i])
    {
      WriteAt(audioData, i * 4, I16LE(tone[i]));
      WriteAt(audioData, i * 4 + 2, I16LE(tone[i]));
      assert tone[..i + 1][..i] == tone[..i];
    }
    assert audioData[..] == audioData[..4 * |tone|];
    assert tone[..|tone|] == tone;
  }

  method CreateLongerBackgroundMusic(durationSeconds: real, tone: seq<int>) returns (wav: seq<byte>)
    requires WholeSampleCount(durationSeconds)
    requires |tone| == SampleCount(durationSeconds) && IsPcm16(tone)
    requires 36 + 4 * |tone| <= MaxU32
    ensures ValidLayout(2, 4 * |tone|) && wav == StereoWav(tone)
  {
    var samples := (44100.0 * durationSeconds).Floor;
    var channels := 2;
    assert samples * 2 * channels == 4 * |tone|;
    var header := new byte[HeaderSize](_ => 0);
    WriteHeader(header, channels, samples * 2 * channels);
    var audioData := new byte[samples * 2 * channels](_ => 0);
    WriteStereoFrames(audioData, tone);
    wav := header[..] + audioData[..];
  }
}
