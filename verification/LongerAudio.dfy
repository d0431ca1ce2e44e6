/**
 * create-longer-audio.js, `createLongerPlaceholderMP3`: a zero-filled buffer of 384-byte
 * frames, each starting with a 28-byte block whose first four bytes FF FB 90 00 are an
 * MPEG-1 Layer III frame header (ISO/IEC 11172-3, clause 2.4.2.3). The frames carry no audio
 * data, so only the byte layout is modelled.
 */
module LongerAudio {
  import opened Bytes

  /** The 28-byte block copied to the start of every frame. */
  const FrameHeader: seq<byte> :=
    [0xFF, 0xFB, 0x90, 0x00,
     0, 0, 0, 0, 0, 0, 0, 0, 0, 0, 0, 0,
     0, 0, 0, 0, 0, 0, 0, 0, 0, 0, 0, 0]

  const FrameSize: int := 384

  /** `Math.ceil` on an exact real. */
  function Ceil(x: real): (c: int)
    ensures c as real >= x && (c - 1) as real < x
  {
    -((-x).Floor)
  }

  /** `Math.ceil(durationSeconds * 38)`: roughly 38 frames per second. */
  function FramesNeeded(durationSeconds: real): int
  {
    Ceil(durationSeconds * 38.0)
  }

  /** One frame: the header block, then silence up to 384 bytes. */
  function Frame(): (f: seq<byte>)
    ensures |f| == FrameSize
  {
    FrameHeader + Zeros(FrameSize - |FrameHeader|)
  }

  /** `n` frames back to back. */
  function Frames(n: nat): (s: seq<byte>)
    ensures |s| == FrameSize * n
  {
    if n == 0 then [] else Frames(n - 1) + Frame()
  }

  /** A frame is the header block followed by 356 zero bytes. */
  lemma FrameLayout()
    ensures Frame()[..28] == FrameHeader && Frame()[..4] == [0xFF, 0xFB, 0x90, 0x00]
    ensures forall j :: 28 <= j < FrameSize ==> Frame()[j] == 0
  {
  }

  /** Frame i of the stream occupies bytes 384·i to 384·i + 383. */
  lemma {:induction false} FramesLayout(n: nat, i: nat)
    requires i < n
    ensures Frames(n)[FrameSize * i..FrameSize * i + FrameSize] == Frame()
  {
    assert Frames(n) == Frames(n - 1) + Frame();
    if i < n - 1 {
      FramesLayout(n - 1, i);
      assert Frames(n)[..FrameSize * (n - 1)] == Frames(n - 1);
    } else {
      assert Frames(n)[FrameSize * i..] == Frame();
    }
  }

  /**
   * The body of the per-frame loop: the header block copied to `offset`, then the remaining
   * bytes of the frame zeroed, stopping early only at the end of the buffer.
   */
  method WriteFrame(audioData: array<byte>, offset: nat, totalSize: int)
    requires totalSize == audioData.Length && offset + FrameSize <= totalSize
    modifies audioData
    ensures audioData[..offset + FrameSize] == old(audioData[..offset]) + Frame()
  {
    WriteAt(audioData, offset, FrameHeader);
    var j := |FrameHeader|;
    while j < FrameSize && offset + j < totalSize
      invariant |FrameHeader| <= j <= FrameSize
      invariant audioData[..offset + j] == old(audioData[..offset]) + FrameHeader + Zeros(j - |FrameHeader|)
    {
      audioData[offset + j] := 0;
      assert audioData[..offset + j + 1] == audioData[..offset + j] + [0];
      assert Zeros(j + 1 - |FrameHeader|) == Zeros(j - |FrameHeader|) + [0];
      j := j + 1;
    }
    // The bound `offset + j < totalSize` never cuts a frame short.
    assert j == FrameSize;
  }

  /**
   * The filename is not used; the buffer is allocated zero-filled, then each frame gets the
   * header block copied in and its remaining bytes zeroed.
   */
  method CreateLongerPlaceholderMp3(filename: string, durationSeconds: real) returns (mp3: seq<byte>)
    requires FramesNeeded(durationSeconds) >= 0
    ensures |mp3| == FrameSize * FramesNeeded(durationSeconds)
    ensures mp3 == Frames(FramesNeeded(durationSeconds))
  {
    var framesNeeded := Ceil(durationSeconds * 38.0);
    var totalSize := framesNeeded * FrameSize;
    var audioData := new byte[totalSize](_ => 0);
    for i := 0 to framesNeeded
      invariant audioData[..FrameSize * i] == Frames(i)
    {
      WriteFrame(audioData, i * FrameSize, totalSize);
    }
    assert audioData[..] == audioData[..FrameSize * framesNeeded];
    mp3 := audioData[..];
  }
}
