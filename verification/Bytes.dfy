/** Model of bytes.c: fixed-width integers moved to and from byte buffers in big-endian order
    by a little-endian host.  Masks and shifts of unsigned values are written as `%` and `/`. */
module Bytes {

  type byte = b: int | 0 <= b < 0x100
  type uint16 = n: int | 0 <= n < 0x1_0000
  type uint32 = n: int | 0 <= n < 0x1_0000_0000

  function Min(a: int, b: int): int {
    if a <= b then a else b
  }

  /** The number of values of a `w`-byte unsigned integer. */
  function Pow256(w: nat): (p: nat)
    ensures p > 0
  {
    if w == 0 then 1 else 0x100 * Pow256(w - 1)
  }

  /** The wire format: base-256 digits, most significant first. */
  function BigEndian(x: nat, w: nat): (b: seq<byte>)
    ensures |b| == w
  {
    if w == 0 then [] else BigEndian(x / 0x100, w - 1) + [x % 0x100]
  }

  function FromBigEndian(b: seq<byte>): (x: nat)
    ensures x < Pow256(|b|)
  {
    if b == [] then 0 else FromBigEndian(b[..|b| - 1]) * 0x100 + b[|b| - 1]
  }

  lemma {:induction false} BigEndianRoundTrip(x: nat, w: nat)
    requires x < Pow256(w)
    ensures FromBigEndian(BigEndian(x, w)) == x
  {
    if w > 0 {
      BigEndianRoundTrip(x / 0x100, w - 1);
      assert BigEndian(x, w)[..w - 1] == BigEndian(x / 0x100, w - 1);
    }
  }

  lemma {:induction false} BigEndianOnto(b: seq<byte>)
    ensures BigEndian(FromBigEndian(b), |b|) == b
  {
    if b != [] {
      var high, low := b[..|b| - 1], b[|b| - 1];
      BigEndianOnto(high);
      LastDigit(FromBigEndian(high), low);
      assert BigEndian(FromBigEndian(b), |b|) == BigEndian(FromBigEndian(high), |high|) + [low];
      assert b == high + [low];
    }
  }

  lemma LastDigit(high: nat, low: byte)
    ensures (high * 0x100 + low) / 0x100 == high && (high * 0x100 + low) % 0x100 == low
  {
  }

  /** What the host keeps in memory for a `w`-byte integer: least significant digit first. */
  function HostImage(x: nat, w: nat): (b: seq<byte>)
    ensures |b| == w
  {
    if w == 0 then [] else [x % 0x100] + HostImage(x / 0x100, w - 1)
  }

  function FromHostImage(b: seq<byte>): (x: nat)
    ensures x < Pow256(|b|)
  {
    if b == [] then 0 else b[0] + 0x100 * FromHostImage(b[1..])
  }

  function Reverse(b: seq<byte>): (r: seq<byte>)
    ensures |r| == |b|
    ensures forall i :: 0 <= i < |b| ==> r[i] == b[|b| - 1 - i]
  {
    seq(|b|, i requires 0 <= i < |b| => b[|b| - 1 - i])
  }

  /** The two formats are mirror images, in both directions. */
  lemma {:induction false} HostImageMirrorsBigEndian(x: nat, w: nat)
    ensures HostImage(x, w) == Reverse(BigEndian(x, w))
  {
    if w > 0 {
      HostImageMirrorsBigEndian(x / 0x100, w - 1);
    }
  }

  lemma {:induction false} FromHostImageMirrors(b: seq<byte>)
    ensures FromHostImage(b) == FromBigEndian(Reverse(b))
  {
    if b != [] {
      FromHostImageMirrors(b[1..]);
      assert Reverse(b)[..|b| - 1] == Reverse(b[1..]);
    }
  }

  /** The byte-swapped value: the number whose host image is the wire format of `x`. */
  function Swapped(x: nat, w: nat): (y: nat)
    ensures y < Pow256(w)
  {
    FromHostImage(BigEndian(x, w))
  }

  /** Storing the swapped value in host order puts the big-endian digits in memory. */
  lemma SwappedImage(x: nat, w: nat)
    ensures HostImage(Swapped(x, w), w) == BigEndian(x, w)
  {
    var wire := BigEndian(x, w);
    FromHostImageMirrors(wire);
    BigEndianOnto(Reverse(wire));
    HostImageMirrorsBigEndian(Swapped(x, w), w);
    assert Reverse(Reverse(wire)) == wire;
  }

  /** Loading wire bytes as a host integer and swapping gives the value on the wire. */
  lemma SwappedLoad(wire: seq<byte>)
    ensures Swapped(FromHostImage(wire), |wire|) == FromBigEndian(wire)
  {
    var x := FromHostImage(wire);
    FromHostImageMirrors(wire);
    BigEndianOnto(Reverse(wire));
    FromHostImageMirrors(Reverse(wire));
    assert Reverse(Reverse(wire)) == wire;
  }

  /** The byte toggles undo themselves, at every width. */
  lemma SwapInvolution(x: nat, w: nat)
    requires x < Pow256(w)
    ensures Swapped(Swapped(x, w), w) == x
  {
    SwappedLoad(BigEndian(x, w));
    BigEndianRoundTrip(x, w);
  }

  lemma PowerTable()
    ensures Pow256(0) == 1 && Pow256(1) == 0x100 && Pow256(2) == 0x1_0000 && Pow256(4) == 0x1_0000_0000
  {
    assert Pow256(3) == 0x100_0000;
  }

  lemma FourDigits(x: uint32)
    ensures BigEndian(x, 4) == [x / 0x100_0000, x / 0x1_0000 % 0x100, x / 0x100 % 0x100, x % 0x100]
  {
    var high := x / 0x100 / 0x100 / 0x100;
    assert high == x / 0x100_0000 && x / 0x100 / 0x100 == x / 0x1_0000;
    assert BigEndian(high, 1) == [high];
    assert BigEndian(x / 0x100 / 0x100, 2) == [high] + [x / 0x100 / 0x100 % 0x100];
    assert BigEndian(x / 0x100, 3) == BigEndian(x / 0x100 / 0x100, 2) + [x / 0x100 % 0x100];
  }

  lemma TwoDigits(x: uint16)
    ensures BigEndian(x, 2) == [x / 0x100, x % 0x100]
  {
    assert BigEndian(x / 0x100, 1) == [x / 0x100 % 0x100];
  }

  lemma FourHostDigits(b: seq<byte>)
    requires |b| == 4
    ensures FromHostImage(b) == b[0] as int + 0x100 * b[1] as int + 0x1_0000 * b[2] as int + 0x100_0000 * b[3] as int
  {
    assert b[1..][1..] == b[2..] && b[2..][1..] == b[3..] && b[3..][1..] == [];
    assert FromHostImage(b[3..]) == b[3];
    assert FromHostImage(b[2..]) == b[2] as int + 0x100 * FromHostImage(b[3..]);
  }

  lemma NoCarry(a: byte, b: byte, c: byte, d: byte)
    ensures 0 <= a * 0x100_0000 + b * 0x1_0000 + c * 0x100 + d < 0x1_0000_0000
  {
  }

  method ToggleEndianess32(number: uint32) returns (converted: uint32)
    ensures converted == Swapped(number, 4)
  {
    var sum: nat := 0;
    sum := sum + (number % 0x100) * 0x100_0000;
    sum := sum + (number / 0x100 % 0x100) * 0x1_0000;
    sum := sum + (number / 0x1_0000 % 0x100) * 0x100;
    sum := sum + number / 0x100_0000 % 0x100;
    converted := sum % 0x1_0000_0000;
    NoCarry(number % 0x100, number / 0x100 % 0x100, number / 0x1_0000 % 0x100, number / 0x100_0000 % 0x100);
    assert converted == sum;
    FourDigits(number);
    FourHostDigits(BigEndian(number, 4));
  }

  method ToggleEndianess16(number: uint16) returns (converted: uint16)
    ensures converted == Swapped(number, 2)
  {
    converted := (number * 0x100 + number / 0x100) % 0x1_0000;
    ghost var wire := BigEndian(number, 2);
    assert wire == [number / 0x100, number % 0x100] by {
      assert BigEndian(number / 0x100, 1) == [number / 0x100 % 0x100];
    }
    assert FromHostImage(wire[1..]) == wire[1];
  }

  /** `buffer` with `bytes` stored from position `at` on and nothing else changed. */
  function Overwrite(buffer: seq<byte>, at: nat, bytes: seq<byte>): (r: seq<byte>)
    requires at + |bytes| <= |buffer|
    ensures |r| == |buffer|
  {
    buffer[..at] + bytes + buffer[at + |bytes|..]
  }

  /** Byte by byte: the window holds the new bytes, everything before and behind it is as it was. */
  lemma OverwriteFrame(buffer: seq<byte>, at: nat, bytes: seq<byte>, k: nat)
    requires at + |bytes| <= |buffer| && k < |buffer|
    ensures Overwrite(buffer, at, bytes)[k] == if at <= k < at + |bytes| then bytes[k - at] else buffer[k]
  {
  }

  lemma OverwriteTwice(buffer: seq<byte>, at: nat, first: seq<byte>, second: seq<byte>)
    requires at + |first| + |second| <= |buffer|
    ensures Overwrite(Overwrite(buffer, at, first), at + |first|, second) == Overwrite(buffer, at, first + second)
  {
  }

  method Memcpy(dst: array<byte>, at: nat, src: seq<byte>)
    requires at + |src| <= dst.Length
    modifies dst
    ensures dst[..] == Overwrite(old(dst[..]), at, src)
  {
    for i := 0 to |src|
      invariant dst[..] == Overwrite(old(dst[..]), at, src[..i])
    {
      ghost var before := dst[..];
      dst[at + i] := src[i];
      assert dst[..] == before[at + i := src[i]];
      assert src[..i + 1] == src[..i] + [src[i]];
    }
    assert src[..|src|] == src;
  }

  method BufferWriteInt(dst: array<byte>, at: nat, src: nat, size: nat) returns (written: nat)
    requires size == 1 || size == 2 || size == 4
    requires src < Pow256(size) && at + size <= dst.Length
    modifies dst
    ensures written == size
    ensures dst[..] == Overwrite(old(dst[..]), at, BigEndian(src, size))
  {
    PowerTable();
    if size == 1 {
      dst[at] := src;
      assert BigEndian(src, 1) == [src];
      assert dst[..] == Overwrite(old(dst[..]), at, [src]);
      return size;
    }
    SwappedImage(src, size);
    var tmp;
    if size == 2 {
      tmp := ToggleEndianess16(src);
    } else {
      tmp := ToggleEndianess32(src);
    }
    Memcpy(dst, at, HostImage(tmp, size));
    written := size;
  }

  method BufferReadInt(src: array<byte>, at: nat, size: nat) returns (value: nat, used: nat)
    requires size == 1 || size == 2 || size == 4
    requires at + size <= src.Length
    ensures used == size
    ensures value == FromBigEndian(src[at..at + size])
    ensures value < Pow256(size)
  {
    PowerTable();
    used := size;
    if size == 1 {
      assert src[at..at + 1] == [src[at]];
      return src[at], size;
    }
    var tmp := FromHostImage(src[at..at + size]);
    SwappedLoad(src[at..at + size]);
    if size == 2 {
      value := ToggleEndianess16(tmp);
    } else {
      value := ToggleEndianess32(tmp);
    }
  }
}
