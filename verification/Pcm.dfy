/** Model of the sample conversion in the decoder's write callback: the triple loop that interleaves the
    channels of a block as big-endian two's complement, and the slot size the metadata callback derives. */
module Pcm {
  import opened Bytes

  /** FLAC__int32. */
  type int32 = n: int | -0x8000_0000 <= n < 0x8000_0000

  /** Where byte `b` of channel `c` of sample `i` goes. */
  function Index(i: nat, c: nat, b: nat, channels: nat, width: nat): (k: nat)
  {
    i * width * channels + width * c + b
  }

  /** The byte the loop stores: an arithmetic shift, then the low eight bits. */
  function SampleByte(sample: int, b: nat, width: nat): (v: byte)
    requires b < width
  {
    sample / Pow256(width - 1 - b) % 0x100
  }

  /** All samples of the block, one row per channel and one column per sample. */
  predicate Rectangular(buffer: seq<seq<int32>>, blockSize: nat)
  {
    forall c :: 0 <= c < |buffer| ==> |buffer[c]| == blockSize
  }

  // ---- index arithmetic ---------------------------------------------------------------------

  lemma IndexNested(i: nat, c: nat, b: nat, channels: nat, width: nat)
    ensures Index(i, c, b, channels, width) == (i * channels + c) * width + b
  {
    assert i * width * channels == i * channels * width;
  }

  lemma MulLe(a: nat, b: nat, w: nat)
    requires a <= b
    ensures a * w <= b * w
  {
  }

  /** Every byte of every sample lands inside the buffer. */
  lemma IndexInRange(i: nat, c: nat, b: nat, blockSize: nat, channels: nat, width: nat)
    requires i < blockSize && c < channels && b < width
    ensures Index(i, c, b, channels, width) < blockSize * width * channels
  {
    IndexNested(i, c, b, channels, width);
    MulLe(i + 1, blockSize, channels);
    MulLe(i * channels + c + 1, blockSize * channels, width);
    assert (i * channels + c + 1) * width == (i * channels + c) * width + width;
    assert blockSize * channels * width == blockSize * width * channels;
  }

  /** Two positions never share a byte. */
  lemma IndexInjective(i: nat, c: nat, b: nat, i': nat, c': nat, b': nat, channels: nat, width: nat)
    requires c < channels && b < width && c' < channels && b' < width
    requires Index(i, c, b, channels, width) == Index(i', c', b', channels, width)
    ensures i == i' && c == c' && b == b'
  {
    IndexNested(i, c, b, channels, width);
    IndexNested(i', c', b', channels, width);
    QuotientUnique(i * channels + c, b, i' * channels + c', b', width);
    QuotientUnique(i, c, i', c', channels);
  }

  lemma MulStep(q: int, q': int, d: nat)
    requires q < q'
    ensures q * d + d <= q' * d
  {
    var gap := q' - q - 1;
    assert gap * d >= 0;
    assert q' * d == (q + 1 + gap) * d == q * d + d + gap * d;
  }

  lemma QuotientUnique(q: int, r: nat, q': int, r': nat, d: nat)
    requires r < d && r' < d && q * d + r == q' * d + r'
    ensures q == q' && r == r'
  {
    if q < q' {
      MulStep(q, q', d);
      assert false;
    } else if q' < q {
      MulStep(q', q, d);
      assert false;
    }
  }

  lemma Divide(k: nat, d: nat) returns (q: nat, r: nat)
    requires d > 0
    ensures q == k / d && r == k % d && k == q * d + r && r < d
  {
    q, r := k / d, k % d;
  }

  lemma QuotientBound(q: nat, r: nat, limit: nat, d: nat)
    requires q * d + r < limit * d
    ensures q < limit
  {
    if q >= limit {
      MulLe(limit, q, d);
      assert false;
    }
  }

  /** No byte of the buffer is left out. */
  lemma IndexOnto(k: nat, blockSize: nat, channels: nat, width: nat) returns (i: nat, c: nat, b: nat)
    requires k < blockSize * width * channels && width > 0 && channels > 0
    ensures i < blockSize && c < channels && b < width && k == Index(i, c, b, channels, width)
  {
    var frame;
    frame, b := Divide(k, width);
    i, c := Divide(frame, channels);
    IndexNested(i, c, b, channels, width);
    assert blockSize * channels * width == blockSize * width * channels;
    QuotientBound(frame, b, blockSize * channels, width);
    QuotientBound(i, c, blockSize, channels);
  }

  /** With the limits of the FLAC format all index arithmetic stays within an int. */
  lemma IndexFitsInt(blockSize: nat, channels: nat, width: nat)
    requires blockSize <= 65535 && channels <= 8 && width <= 4
    ensures blockSize * width * channels < 0x8000_0000
  {
    MulLe(blockSize, 65535, width);
    MulLe(width, 4, 65535);
    MulLe(blockSize * width, 65535 * 4, channels);
    MulLe(channels, 8, 65535 * 4);
  }

  // ---- the loop -------------------------------------------------------------------------------

  /** What the finished part of the buffer holds: everything before sample `i`, channel `c`, byte `b`. */
  predicate WrittenBefore(out: seq<byte>, buffer: seq<seq<int32>>, blockSize: nat, channels: nat, width: nat, i: nat,
                          c: nat, b: nat)
  {
    && channels == |buffer| && Rectangular(buffer, blockSize) && |out| == blockSize * width * channels
    && forall i', c', b' ::
         0 <= i' < blockSize && 0 <= c' < channels && 0 <= b' < width && Before(i', c', b', i, c, b) ==>
         Stored(out, buffer, channels, width, i', c', b')
  }

  predicate Before(i': nat, c': nat, b': nat, i: nat, c: nat, b: nat) {
    i' < i || (i' == i && (c' < c || (c' == c && b' < b)))
  }

  predicate Stored(out: seq<byte>, buffer: seq<seq<int32>>, channels: nat, width: nat, i: nat, c: nat, b: nat)
  {
    && c < |buffer| && i < |buffer[c]| && b < width
    && Index(i, c, b, channels, width) < |out|
    && out[Index(i, c, b, channels, width)] == SampleByte(buffer[c][i], b, width)
  }

  /** The whole block, interleaved: every byte of every sample at its place. */
  predicate Interleaved(out: seq<byte>, buffer: seq<seq<int32>>, blockSize: nat, width: nat)
  {
    WrittenBefore(out, buffer, blockSize, |buffer|, width, blockSize, 0, 0)
  }

  lemma StoreKeeps(out: seq<byte>, buffer: seq<seq<int32>>, blockSize: nat, channels: nat, width: nat, i: nat, c: nat,
                   b: nat)
    requires WrittenBefore(out, buffer, blockSize, channels, width, i, c, b)
    requires i < blockSize && c < channels && b < width
    ensures Index(i, c, b, channels, width) < |out|
    ensures WrittenBefore(out[Index(i, c, b, channels, width) := SampleByte(buffer[c][i], b, width)],
                          buffer, blockSize, channels, width, i, c, b + 1)
  {
    IndexInRange(i, c, b, blockSize, channels, width);
    var k := Index(i, c, b, channels, width);
    var out' := out[k := SampleByte(buffer[c][i], b, width)];
    forall i', c', b' | 0 <= i' < blockSize && 0 <= c' < channels && 0 <= b' < width && Before(i', c', b', i, c, b + 1)
      ensures Stored(out', buffer, channels, width, i', c', b')
    {
      if Before(i', c', b', i, c, b) {
        assert Stored(out, buffer, channels, width, i', c', b');
        if Index(i', c', b', channels, width) == k {
          IndexInjective(i, c, b, i', c', b', channels, width);
          assert false;
        }
      }
    }
  }

  /** `bits / 8` bytes per sample; a fraction of a byte is dropped. */
  method Interleave(buffer: seq<seq<int32>>, blockSize: nat, bits: nat) returns (output: array<byte>)
    requires Rectangular(buffer, blockSize)
    ensures fresh(output) && output.Length == blockSize * (bits / 8) * |buffer|
    ensures Interleaved(output[..], buffer, blockSize, bits / 8)
  {
    var channels := |buffer|;
    var width := bits / 8;
    var bufferSize := blockSize * width * channels;
    output := new byte[bufferSize];
    var i := 0;
    while i < blockSize
      invariant i <= blockSize
      invariant WrittenBefore(output[..], buffer, blockSize, channels, width, i, 0, 0)
    {
      var channel := 0;
      while channel < channels
        invariant channel <= channels
        invariant WrittenBefore(output[..], buffer, blockSize, channels, width, i, channel, 0)
      {
        var offset := i * width * channels + width * channel;
        var b := 0;
        while b < width
          invariant b <= width
          invariant WrittenBefore(output[..], buffer, blockSize, channels, width, i, channel, b)
        {
          StoreKeeps(output[..], buffer, blockSize, channels, width, i, channel, b);
          ghost var before := output[..];
          output[offset + b] := SampleByte(buffer[channel][i], b, width);
          assert output[..] == before[offset + b := SampleByte(buffer[channel][i], b, width)];
          b := b + 1;
        }
        channel := channel + 1;
      }
      i := i + 1;
    }
  }

  // ---- what the bytes mean -----------------------------------------------------------------------

  /** The bytes of one sample as they lie in the output. */
  function SampleBytes(sample: int, width: nat): (s: seq<byte>)
    ensures |s| == width
  {
    seq(width, b requires 0 <= b < width => SampleByte(sample, b, width))
  }

  /** The two bytes of a sixteen-bit sample, high byte first. */
  lemma SixteenBits(sample: int)
    ensures SampleBytes(sample, 2) == [sample / 0x100 % 0x100, sample % 0x100]
  {
    assert Pow256(1) == 0x100 && Pow256(0) == 1;
  }

  /** Reading big-endian two's complement. */
  function SignedValue(s: seq<byte>): (x: int)
  {
    var u := FromBigEndian(s);
    if 2 * u < Pow256(|s|) then u else u - Pow256(|s|)
  }

  predicate FitsWidth(sample: int, width: nat)
  {
    0 <= 2 * sample + Pow256(width) && 2 * sample < Pow256(width)
  }

  lemma {:induction false} SampleBytesAreDigits(sample: int, width: nat)
    ensures FromBigEndian(SampleBytes(sample, width)) == sample % Pow256(width)
    decreases width
  {
    if width == 0 {
      assert sample % 1 == 0;
    } else {
      var s := SampleBytes(sample, width);
      var q := sample / 0x100;
      assert s[..width - 1] == SampleBytes(q, width - 1) by {
        forall b | 0 <= b < width - 1
          ensures SampleByte(sample, b, width) == SampleByte(q, b, width - 1)
        {
          DivDiv(sample, 0x100, Pow256(width - 2 - b));
        }
      }
      SampleBytesAreDigits(q, width - 1);
      assert s[width - 1] == sample / 1 % 0x100 == sample % 0x100;
      ModSplit(sample, Pow256(width - 1));
    }
  }

  lemma DivDiv(x: int, a: nat, b: nat)
    requires a > 0 && b > 0
    ensures a * b > 0 && x / (a * b) == x / a / b
  {
    var q, r := x / a, x % a;
    var q2, r2 := q / b, q % b;
    assert x == a * q + r && q == b * q2 + r2;
    assert x == (a * b) * q2 + (a * r2 + r) by {
      assert a * (b * q2 + r2) == a * b * q2 + a * r2;
    }
    assert a * r2 + r < a * b by {
      MulLe(r2 + 1, b, a);
      assert (r2 + 1) * a == a * r2 + a;
    }
    DivUnique(x, a * b, q2, a * r2 + r);
  }

  lemma DivUnique(x: int, d: nat, q: int, r: nat)
    requires d > 0 && r < d && x == d * q + r
    ensures x / d == q && x % d == r
  {
    assert x == x / d * d + x % d;
    QuotientUnique(q, r, x / d, x % d, d);
  }

  lemma ModSplit(x: int, p: nat)
    requires p > 0
    ensures x % (0x100 * p) == (x / 0x100 % p) * 0x100 + x % 0x100
  {
    var q, r := x / 0x100, x % 0x100;
    var q2, r2 := q / p, q % p;
    assert q == p * q2 + r2;
    assert x == (0x100 * p) * q2 + (0x100 * r2 + r);
    DivUnique(x, 0x100 * p, q2, 0x100 * r2 + r);
  }

  /** The bytes of a sample read back as that sample exactly when it fits the width. */
  lemma SampleRoundTrip(sample: int, width: nat)
    requires width > 0
    ensures SignedValue(SampleBytes(sample, width)) == sample <==> FitsWidth(sample, width)
  {
    var p := Pow256(width);
    var u := sample % p;
    SampleBytesAreDigits(sample, width);
    if FitsWidth(sample, width) {
      if sample >= 0 {
        DivUnique(sample, p, 0, sample);
      } else {
        DivUnique(sample, p, -1, sample + p);
      }
    }
  }

  /** The device side: the sample of channel `c` at time `i` in an interleaved buffer. */
  function SampleAt(out: seq<byte>, i: nat, c: nat, channels: nat, width: nat): (x: int)
    requires Index(i, c, 0, channels, width) + width <= |out|
  {
    SignedValue(out[Index(i, c, 0, channels, width)..Index(i, c, 0, channels, width) + width])
  }

  /** Round trip of a whole block: the device finds every sample that fits, of every channel, in time order. */
  lemma InterleaveRoundTrip(out: seq<byte>, buffer: seq<seq<int32>>, blockSize: nat, width: nat, i: nat, c: nat)
    requires width > 0 && Interleaved(out, buffer, blockSize, width) && i < blockSize && c < |buffer|
    ensures Index(i, c, 0, |buffer|, width) + width <= |out|
    ensures SampleAt(out, i, c, |buffer|, width) == buffer[c][i] <==> FitsWidth(buffer[c][i], width)
  {
    var channels := |buffer|;
    var at := Index(i, c, 0, channels, width);
    IndexInRange(i, c, width - 1, blockSize, channels, width);
    forall b | 0 <= b < width
      ensures out[at + b] == SampleByte(buffer[c][i], b, width)
    {
      assert Before(i, c, b, blockSize, 0, 0);
      assert Stored(out, buffer, channels, width, i, c, b);
    }
    assert out[at..at + width] == SampleBytes(buffer[c][i], width);
    SampleRoundTrip(buffer[c][i], width);
  }

  /** There is only one such buffer: the loop leaves no byte to chance. */
  lemma InterleavedIsUnique(out: seq<byte>, out': seq<byte>, buffer: seq<seq<int32>>, blockSize: nat, width: nat)
    requires Interleaved(out, buffer, blockSize, width) && Interleaved(out', buffer, blockSize, width)
    ensures out == out'
  {
    forall k | 0 <= k < |out|
      ensures out[k] == out'[k]
    {
      NonEmptyBlock(k, blockSize, |buffer|, width);
      var i, c, b := IndexOnto(k, blockSize, |buffer|, width);
      assert Before(i, c, b, blockSize, 0, 0);
      assert Stored(out, buffer, |buffer|, width, i, c, b) && Stored(out', buffer, |buffer|, width, i, c, b);
    }
  }

  lemma NonEmptyBlock(k: nat, blockSize: nat, channels: nat, width: nat)
    requires k < blockSize * width * channels
    ensures width > 0 && channels > 0
  {
  }

  // ---- the slot that has to hold it ---------------------------------------------------------------

  /** The element size the metadata callback gives the raw ring; `*` and `/` associate to the left. */
  function SlotSize(minBlockSize: nat, bits: nat, channels: nat): (n: nat)
  {
    minBlockSize * bits / 8 * channels
  }

  /** The slot size is the number of whole bytes in the samples of one channel, for each channel. */
  lemma SlotSizeIsExact(minBlockSize: nat, bits: nat, channels: nat)
    ensures channels > 0 ==> SlotSize(minBlockSize, bits, channels) % channels == 0
    ensures 8 * SlotSize(minBlockSize, bits, channels) <= minBlockSize * bits * channels
    ensures minBlockSize * bits * channels <= 8 * SlotSize(minBlockSize, bits, channels) + 7 * channels
  {
    var samples := minBlockSize * bits;
    var bytes := samples / 8;
    if channels > 0 {
      DivUnique(bytes * channels, channels, bytes, 0);
    }
    assert samples == 8 * bytes + samples % 8;
    MulLe(8 * bytes, samples, channels);
    MulLe(samples, 8 * bytes + 7, channels);
    assert 8 * bytes * channels == 8 * (bytes * channels);
    assert (8 * bytes + 7) * channels == 8 * (bytes * channels) + 7 * channels;
  }

  lemma DivMul(a: nat, bits: nat)
    ensures a * (bits / 8) <= a * bits / 8
  {
    assert bits == bits / 8 * 8 + bits % 8;
    assert a * bits == a * (bits / 8) * 8 + a * (bits % 8) by {
      assert a * (bits / 8 * 8 + bits % 8) == a * (bits / 8) * 8 + a * (bits % 8);
    }
  }

  /** A frame of a fixed-block-size stream (section 8.2 of RFC 9639), its last and shorter one included, fits
      the slot, even when the sample width is not a whole number of bytes. */
  lemma FrameFitsSlot(blockSize: nat, minBlockSize: nat, bits: nat, channels: nat)
    requires blockSize <= minBlockSize
    ensures blockSize * (bits / 8) * channels <= SlotSize(minBlockSize, bits, channels)
  {
    MulLe(blockSize, minBlockSize, bits / 8);
    DivMul(minBlockSize, bits);
    MulLe(blockSize * (bits / 8), minBlockSize * bits / 8, channels);
  }

  /** For whole bytes the bound is exact: the copy into the slot is in bounds for these frames and no others. */
  lemma FrameFitsExactly(blockSize: nat, minBlockSize: nat, width: nat, channels: nat)
    requires width > 0 && channels > 0
    ensures blockSize * (8 * width / 8) * channels <= SlotSize(minBlockSize, 8 * width, channels)
      <==> blockSize <= minBlockSize
  {
    assert minBlockSize * (8 * width) == 8 * (minBlockSize * width);
    assert SlotSize(minBlockSize, 8 * width, channels) == minBlockSize * width * channels;
    if blockSize <= minBlockSize {
      FrameFitsSlot(blockSize, minBlockSize, 8 * width, channels);
    } else {
      MulLe(minBlockSize + 1, blockSize, width);
      MulLe(minBlockSize * width + width, blockSize * width, channels);
      assert (minBlockSize * width + width) * channels == minBlockSize * width * channels + width * channels;
      assert width * channels > 0;
    }
  }
}
