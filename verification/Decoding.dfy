/** The frames of a stream in the playback machine: what the write callback computes for a block fits the slot that
    the metadata callback has sized, so the decoder programs of fixed-block-size streams are those of the theorems. */
module Decoding {
  import opened Bytes
  import opened Pcm
  import PB = Playback
  import StreamingProofs

  /** The output buffer of the write callback for some block of the stream, of at most the minimum block size. */
  ghost predicate IsBlock(pcm: seq<byte>, minBlockSize: nat, bits: nat, channels: nat)
  {
    exists buffer: seq<seq<int32>>, blockSize: nat ::
      BlockOf(pcm, buffer, blockSize, bits) && 0 < blockSize <= minBlockSize && |buffer| == channels
  }

  predicate BlockOf(pcm: seq<byte>, buffer: seq<seq<int32>>, blockSize: nat, bits: nat)
  {
    Interleaved(pcm, buffer, blockSize, bits / 8)
  }

  /** The callbacks of one stream: every frame is such a block. */
  ghost predicate OfStream(program: seq<PB.Callback>, minBlockSize: nat, bits: nat, channels: nat)
  {
    forall k :: 0 <= k < |program| && program[k].WriteCb? ==> IsBlock(program[k].pcm, minBlockSize, bits, channels)
  }

  /** The assert that an output buffer is not empty fails for whole blocks of samples below eight bits, and no
      others. */
  lemma EmptyExactly(blockSize: nat, bits: nat, channels: nat)
    requires blockSize > 0 && channels > 0
    ensures blockSize * (bits / 8) * channels == 0 <==> bits < 8
  {
    if bits < 8 {
      assert bits / 8 == 0;
    } else {
      assert bits / 8 >= 1;
      MulLe(1, bits / 8, blockSize);
      assert bits / 8 * blockSize == blockSize * (bits / 8);
      MulLe(1, blockSize * (bits / 8), channels);
    }
  }

  lemma BlockFits(pcm: seq<byte>, minBlockSize: nat, bits: nat, channels: nat)
    requires IsBlock(pcm, minBlockSize, bits, channels) && channels > 0
    ensures |pcm| <= SlotSize(minBlockSize, bits, channels)
    ensures |pcm| == 0 <==> bits < 8
  {
    var buffer: seq<seq<int32>>, blockSize: nat :|
      BlockOf(pcm, buffer, blockSize, bits) && 0 < blockSize <= minBlockSize && |buffer| == channels;
    FrameFitsSlot(blockSize, minBlockSize, bits, channels);
    EmptyExactly(blockSize, bits, channels);
  }

  predicate HasFrames(program: seq<PB.Callback>)
  {
    exists k :: 0 <= k < |program| && program[k].WriteCb?
  }

  /** With the slot size of the metadata callback every frame of a stream fits its slot, and the asserts of the write
      callback hold exactly if the stream has eight bits per sample or more, or no frame at all. */
  lemma StreamFitsExactly(cfg: PB.Config, program: seq<PB.Callback>, minBlockSize: nat, bits: nat, channels: nat)
    requires cfg.rawElem == SlotSize(minBlockSize, bits, channels) && channels > 0
    requires OfStream(program, minBlockSize, bits, channels)
    ensures PB.ProgramOk(cfg, program) <==> bits >= 8 || !HasFrames(program)
  {
    forall k | 0 <= k < |program|
      ensures PB.FrameOk(cfg, program[k]) <==> (program[k].WriteCb? ==> bits >= 8)
    {
      if program[k].WriteCb? {
        BlockFits(program[k].pcm, minBlockSize, bits, channels);
      }
    }
    if HasFrames(program) && bits < 8 {
      var k :| 0 <= k < |program| && program[k].WriteCb?;
      assert !PB.FrameOk(cfg, program[k]);
    }
  }

  /** So the shipped constants are a setup for every stream of eight bits per sample or more. */
  lemma StreamIsSetUp(program: seq<PB.Callback>, minBlockSize: nat, bits: nat, channels: nat)
    requires channels > 0 && bits >= 8 && OfStream(program, minBlockSize, bits, channels)
    ensures StreamingProofs.Setup(PB.Defaults(SlotSize(minBlockSize, bits, channels)), program)
  {
    var cfg := PB.Defaults(SlotSize(minBlockSize, bits, channels));
    StreamFitsExactly(cfg, program, minBlockSize, bits, channels);
    StreamingProofs.DefaultsAreSetUp(SlotSize(minBlockSize, bits, channels), program);
  }

  /** What a device finds in an output buffer for channel `ch` at time `i`, read as big-endian two's complement. */
  function Heard(pcm: seq<byte>, i: nat, ch: nat, channels: nat, width: nat): (x: int)
    requires (i * channels + ch) * width + width <= |pcm|
  {
    SignedValue(pcm[(i * channels + ch) * width..(i * channels + ch) * width + width])
  }

  /** A device hears a sample that was handed over exactly if it fits its width. */
  predicate HeardAt(pcm: seq<byte>, buffer: seq<seq<int32>>, width: nat, i: nat, ch: nat)
    requires ch < |buffer| && i < |buffer[ch]|
  {
    && (i * |buffer| + ch) * width + width <= |pcm|
    && (Heard(pcm, i, ch, |buffer|, width) == buffer[ch][i] <==> FitsWidth(buffer[ch][i], width))
  }

  lemma HeardIsPlayed(pcm: seq<byte>, buffer: seq<seq<int32>>, blockSize: nat, width: nat, i: nat, ch: nat)
    requires width > 0 && Interleaved(pcm, buffer, blockSize, width) && i < blockSize && ch < |buffer|
    ensures HeardAt(pcm, buffer, width, i, ch)
  {
    IndexNested(i, ch, 0, |buffer|, width);
    InterleaveRoundTrip(pcm, buffer, blockSize, width, i, ch);
  }

  /** One call of the write callback, from the samples libFLAC hands over to the callback of the playback machine:
      every sample that fits its width is heard on its channel at its time. */
  method WriteCallback(buffer: seq<seq<int32>>, blockSize: nat, bits: nat) returns (c: PB.Callback)
    requires Rectangular(buffer, blockSize)
    ensures c.WriteCb? && |c.pcm| == blockSize * (bits / 8) * |buffer|
    ensures BlockOf(c.pcm, buffer, blockSize, bits)
    ensures bits >= 8 ==>
      forall i: nat, ch: nat :: i < blockSize && ch < |buffer| ==> HeardAt(c.pcm, buffer, bits / 8, i, ch)
    ensures forall minBlockSize: nat ::
      0 < blockSize <= minBlockSize ==> OfStream([c], minBlockSize, bits, |buffer|)
  {
    var output := Interleave(buffer, blockSize, bits);
    c := PB.WriteCb(output[..]);
    assert BlockOf(c.pcm, buffer, blockSize, bits);
    if bits >= 8 {
      forall i: nat, ch: nat | i < blockSize && ch < |buffer|
        ensures HeardAt(c.pcm, buffer, bits / 8, i, ch)
      {
        HeardIsPlayed(c.pcm, buffer, blockSize, bits / 8, i, ch);
      }
    }
  }
}
