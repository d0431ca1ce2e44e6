/**
 * create-better-audio.js, `createValidMp3`: an ID3v2.3.0 tag header (ID3v2.3.0, section 3.1:
 * "ID3", version 3.0, no flags, size 0), one MPEG-1 Layer III frame header FF FB 90 00
 * (ISO/IEC 11172-3, clause 2.4.2.3), four zero bytes, then 32 zero bytes per "data frame".
 * Built from one array literal; nothing is mutated.
 */
module BetterAudio {
  import opened Bytes

  const Id3Header: seq<byte> := [0x49, 0x44, 0x33, 0x03, 0x00, 0x00, 0x00, 0x00, 0x00, 0x00]
  const SyncHeader: seq<byte> := [0xFF, 0xFB, 0x90, 0x00]

  /** `Math.floor(durationSeconds * 38.28)`, taken on the exact product. */
  function DataFrames(durationSeconds: real): int
  {
    (durationSeconds * 38.28).Floor
  }

  /** `Array(n).fill(<32 zero bytes>).flat()` */
  function SilentFrames(n: nat): (s: seq<byte>)
  {
    if n == 0 then [] else SilentFrames(n - 1) + Zeros(32)
  }

  lemma {:induction false} SilentFramesAreZero(n: nat)
    ensures |SilentFrames(n)| == 32 * n
    ensures forall k :: 0 <= k < 32 * n ==> SilentFrames(n)[k] == 0
  {
    if n > 0 {
      SilentFramesAreZero(n - 1);
    }
  }

  function CreateValidMp3(durationSeconds: real): (mp3: seq<byte>)
    requires DataFrames(durationSeconds) >= 0
    ensures |mp3| == 18 + 32 * DataFrames(durationSeconds)
    ensures mp3[..10] == Id3Header && mp3[10..14] == SyncHeader
    ensures forall k :: 14 <= k < |mp3| ==> mp3[k] == 0
  {
    SilentFramesAreZero(DataFrames(durationSeconds));
    Id3Header + SyncHeader + [0x00, 0x00, 0x00, 0x00] + SilentFrames(DataFrames(durationSeconds))
  }
}
