/** Model of the two loops a song passes through between file and player: the segment loop of
    handle_feed_me_msg_fn in server.c and the merge loop of the request thread in player_daemon.c. */
module Feeding {
  import opened Bytes
  import opened Messages

  const SEGMENTS: nat := 10
  const SEGMENT_SIZE: nat := 450
  const DGRAM_MAX: nat := 508
  const SERIES_SIZE: nat := 4500
  const MERGE_BUFFER: nat := 5080

  function Concat(parts: seq<seq<byte>>): (b: seq<byte>)
  {
    if parts == [] then [] else parts[0] + Concat(parts[1..])
  }

  lemma {:induction false} ConcatAppend(first: seq<seq<byte>>, second: seq<seq<byte>>)
    ensures Concat(first + second) == Concat(first) + Concat(second)
    decreases |first|
  {
    if first == [] {
      assert first + second == second;
    } else {
      assert (first + second)[1..] == first[1..] + second;
      ConcatAppend(first[1..], second);
    }
  }

  lemma ConcatSnoc(parts: seq<seq<byte>>, last: seq<byte>)
    ensures Concat(parts + [last]) == Concat(parts) + last
  {
    ConcatAppend(parts, [last]);
    assert Concat([last]) == last + Concat([last][1..]) == last;
  }

  // ---- the server's side ----------------------------------------------------------------------

  /** fread of one segment at a position within the file. */
  function Fread(file: seq<byte>, pos: nat, size: nat): (data: seq<byte>)
    requires pos <= |file|
    ensures |data| == Min(size, |file| - pos)
    ensures data == file[pos..pos + |data|]
  {
    file[pos..pos + Min(size, |file| - pos)]
  }

  /** One datagram.  header.size is the length of the body alone. */
  function Datagram(songId: uint32, data: seq<byte>, number: nat): (d: seq<byte>)
    requires number < 0x1_0000_0000
    ensures |d| == HEADER_SIZE + 8 + |data|
  {
    EncodeHeader(Header(DATA, DataLength(|data|) % 0x1_0000, number)) + EncodeData(songId, data)
  }

  /** The header of a datagram: type 1, the size of the body alone, the number of the segment. */
  lemma DatagramHeader(songId: uint32, data: seq<byte>, number: nat)
    requires number < 0x1_0000_0000
    ensures ParseHeader(Datagram(songId, data, number)) == Header(1, (8 + |data|) % 0x1_0000, number)
  {
    HeaderRoundTrip(Header(DATA, DataLength(|data|) % 0x1_0000, number), EncodeData(songId, data));
  }

  /** What the daemon makes of the body of a datagram. */
  function BodyOf(d: seq<byte>): (r: Parsed<Item>)
  {
    if |d| < HEADER_SIZE then OutOfBounds else ParseItem(d[HEADER_SIZE..], 4)
  }

  /** The daemon parses in a fixed buffer: bytes left behind the datagram do not matter. */
  lemma DatagramBody(songId: uint32, data: seq<byte>, number: nat, stale: seq<byte>)
    requires number < 0x1_0000_0000 && |data| < 0x1_0000_0000
    ensures BodyOf(Datagram(songId, data, number) + stale) == Done(Item(songId, data), 8 + |data|)
  {
    PowerTable();
    ItemRoundTrip(Item(songId, data), 4, stale);
    assert (Datagram(songId, data, number) + stale)[HEADER_SIZE..] == EncodeData(songId, data) + stale;
  }

  /** The payloads of one request: consecutive segments from `pos` on. */
  function Segments(file: seq<byte>, pos: nat, size: nat, count: nat): (ps: seq<seq<byte>>)
    requires pos <= |file|
    ensures |ps| == count
    decreases count
  {
    if count == 0 then []
    else [Fread(file, pos, size)] + Segments(file, pos + |Fread(file, pos, size)|, size, count - 1)
  }

  /** The datagrams that carry them, numbered from 0. */
  function Packed(songId: uint32, payloads: seq<seq<byte>>): (ds: seq<seq<byte>>)
    requires |payloads| < 0x1_0000_0000
    ensures |ds| == |payloads|
    ensures forall i :: 0 <= i < |ds| ==> ds[i] == Datagram(songId, payloads[i], i)
  {
    seq(|payloads|, i requires 0 <= i < |payloads| => Datagram(songId, payloads[i], i))
  }

  /** Where `count` reads of `size` bytes leave the file position. */
  function PositionAfter(file: seq<byte>, pos: nat, size: nat, count: nat): (p: nat)
    requires pos <= |file|
    ensures pos <= p <= |file|
    decreases count
  {
    if count == 0 then pos else PositionAfter(file, pos + |Fread(file, pos, size)|, size, count - 1)
  }

  lemma {:induction false} PositionIsExact(file: seq<byte>, pos: nat, size: nat, count: nat)
    requires pos <= |file|
    ensures PositionAfter(file, pos, size, count) == Min(pos + count * size, |file|)
    decreases count
  {
    if count > 0 {
      PositionIsExact(file, pos + |Fread(file, pos, size)|, size, count - 1);
      assert count * size == size + (count - 1) * size;
    }
  }

  lemma {:induction false} PositionNext(file: seq<byte>, pos: nat, size: nat, count: nat)
    requires pos <= |file|
    ensures var p := PositionAfter(file, pos, size, count);
      p + |Fread(file, p, size)| == PositionAfter(file, pos, size, count + 1)
    decreases count
  {
    if count > 0 {
      PositionNext(file, pos + |Fread(file, pos, size)|, size, count - 1);
    }
  }

  lemma {:induction false} SegmentsSnoc(file: seq<byte>, pos: nat, size: nat, count: nat)
    requires pos <= |file|
    ensures Segments(file, pos, size, count + 1)
         == Segments(file, pos, size, count) + [Fread(file, PositionAfter(file, pos, size, count), size)]
    decreases count
  {
    var next := pos + |Fread(file, pos, size)|;
    if count > 0 {
      SegmentsSnoc(file, next, size, count - 1);
    } else {
      assert Segments(file, next, size, 0) == [];
    }
  }

  /** The payloads of one request are the file from `pos` to where the request leaves the position. */
  lemma {:induction false} SegmentsCoverTheFile(file: seq<byte>, pos: nat, size: nat, count: nat)
    requires pos <= |file|
    ensures Concat(Segments(file, pos, size, count)) == file[pos..PositionAfter(file, pos, size, count)]
    decreases count
  {
    if count > 0 {
      var data := Fread(file, pos, size);
      SegmentsCoverTheFile(file, pos + |data|, size, count - 1);
      var rest := Segments(file, pos + |data|, size, count - 1);
      assert ([data] + rest)[1..] == rest;
      SliceJoin(file, pos, pos + |data|, PositionAfter(file, pos, size, count));
    }
  }

  lemma SliceJoin(file: seq<byte>, from: nat, mid: nat, to: nat)
    requires from <= mid <= to <= |file|
    ensures file[from..mid] + file[mid..to] == file[from..to]
  {
  }

  /** The daemon finds those payloads in the datagrams, each under the id of the song. */
  lemma PackedBodies(songId: uint32, payloads: seq<seq<byte>>, i: nat)
    requires i < |payloads| < 0x1_0000_0000 && |payloads[i]| < 0x1_0000_0000
    ensures BodyOf(Packed(songId, payloads)[i]) == Done(Item(songId, payloads[i]), 8 + |payloads[i]|)
  {
    DatagramBody(songId, payloads[i], i, []);
    assert Datagram(songId, payloads[i], i) + [] == Datagram(songId, payloads[i], i);
  }

  lemma PackedHeaders(songId: uint32, payloads: seq<seq<byte>>, i: nat)
    requires i < |payloads| < 0x1_0000_0000
    ensures ParseHeader(Packed(songId, payloads)[i]) == Header(1, (8 + |payloads[i]|) % 0x1_0000, i)
  {
    DatagramHeader(songId, payloads[i], i);
  }

  /** The payloads of datagrams, as the daemon parses them. */
  function PayloadsOf(datagrams: seq<seq<byte>>): (ps: seq<seq<byte>>)
    ensures |ps| == |datagrams|
  {
    seq(|datagrams|, i requires 0 <= i < |datagrams| =>
      var r := BodyOf(datagrams[i]); if r.Done? then r.value.name else [])
  }

  lemma PayloadsArrive(songId: uint32, payloads: seq<seq<byte>>)
    requires |payloads| < 0x1_0000_0000 && forall i :: 0 <= i < |payloads| ==> |payloads[i]| < 0x1_0000_0000
    ensures PayloadsOf(Packed(songId, payloads)) == payloads
  {
    forall i | 0 <= i < |payloads|
      ensures PayloadsOf(Packed(songId, payloads))[i] == payloads[i]
    {
      PackedBodies(songId, payloads, i);
    }
  }

  lemma {:induction false} SegmentsAreShort(file: seq<byte>, pos: nat, size: nat, count: nat)
    requires pos <= |file|
    ensures forall i :: 0 <= i < count ==> |Segments(file, pos, size, count)[i]| <= size
    decreases count
  {
    if count > 0 {
      SegmentsAreShort(file, pos + |Fread(file, pos, size)|, size, count - 1);
    }
  }

  lemma OneMoreSegment(file: seq<byte>, pos: nat, size: nat, songId: uint32, count: nat)
    requires pos <= |file| && count < 0x100
    ensures var p := PositionAfter(file, pos, size, count);
      && PositionAfter(file, pos, size, count + 1) == p + |Fread(file, p, size)|
      && Packed(songId, Segments(file, pos, size, count + 1))
         == Packed(songId, Segments(file, pos, size, count)) + [Datagram(songId, Fread(file, p, size), count)]
  {
    PositionNext(file, pos, size, count);
    SegmentsSnoc(file, pos, size, count);
    PackedSnoc(songId, Segments(file, pos, size, count), Fread(file, PositionAfter(file, pos, size, count), size));
  }

  lemma PackedSnoc(songId: uint32, payloads: seq<seq<byte>>, last: seq<byte>)
    requires |payloads| < 0x1_0000
    ensures Packed(songId, payloads + [last]) == Packed(songId, payloads) + [Datagram(songId, last, |payloads|)]
  {
  }

  lemma LongestFirst(file: seq<byte>, start: nat, size: nat, count: nat)
    requires start <= |file|
    ensures |Fread(file, PositionAfter(file, start, size, count), size)| <= |Fread(file, start, size)|
  {
  }

  /** A datagram with the next `size` bytes of a file with `left` bytes left is larger than the stack buffer. */
  predicate Overflows(size: nat, left: int)
  {
    HEADER_SIZE + 8 + Min(size, left) > DGRAM_MAX
  }

  /** After `count` rounds of the segment loop. */
  predicate SentSoFar(file: seq<byte>, start: nat, message: FeedMe, count: nat, position: nat, sent: seq<seq<byte>>)
  {
    && start <= |file| && count < 0x1_0000
    && position == PositionAfter(file, start, message.dataSize, count)
    && sent == Packed(message.songId, Segments(file, start, message.dataSize, count))
    && (count > 0 ==> !Overflows(message.dataSize, |file| - start))
  }

  /** What a request for `segments` pieces from position `start` of its file comes to. */
  predicate Answered(file: seq<byte>, start: nat, message: FeedMe, segments: nat,
                     sent: seq<seq<byte>>, position: nat, overflow: bool)
  {
    && start <= |file| && segments < 0x100
    && (overflow <==> segments > 0 && 15 + Min(message.dataSize, |file| - start) > 508)
    && (overflow ==> sent == [])
    && (!overflow ==> sent == Packed(message.songId, Segments(file, start, message.dataSize, segments)))
    && (!overflow ==> position == PositionAfter(file, start, message.dataSize, segments))
  }

  lemma SentAreNumbered(file: seq<byte>, start: nat, message: FeedMe, segments: nat,
                        sent: seq<seq<byte>>, position: nat, overflow: bool)
    requires Answered(file, start, message, segments, sent, position, overflow)
    ensures forall i :: 0 <= i < |sent| ==>
      |sent[i]| >= 15 && ParseHeader(sent[i]) == Header(1, (|sent[i]| - 7) % 0x1_0000, i)
  {
    if !overflow {
      var payloads := Segments(file, start, message.dataSize, segments);
      forall i | 0 <= i < |sent|
        ensures |sent[i]| >= 15 && ParseHeader(sent[i]) == Header(1, (|sent[i]| - 7) % 0x1_0000, i)
      {
        DatagramHeader(message.songId, payloads[i], i);
      }
    }
  }

  lemma OneMoreSent(file: seq<byte>, start: nat, message: FeedMe, count: nat, position: nat, sent: seq<seq<byte>>)
    requires SentSoFar(file, start, message, count, position, sent) && count < 0x100
    requires HEADER_SIZE + 8 + |Fread(file, position, message.dataSize)| <= DGRAM_MAX
    ensures var data := Fread(file, position, message.dataSize);
      SentSoFar(file, start, message, count + 1, position + |data|, sent + [Datagram(message.songId, data, count)])
  {
    OneMoreSegment(file, start, message.dataSize, message.songId, count);
  }

  class ContentServer {
    const files: map<uint32, seq<byte>>
    var openedFile: seq<byte>
    var position: nat
    var currentSongId: int

    constructor (files: map<uint32, seq<byte>>)
      ensures this.files == files && currentSongId == -1 && position == 0 && openedFile == []
    {
      this.files := files;
      openedFile := [];
      position := 0;
      currentSongId := -1;
    }

    ghost predicate Valid()
      reads this
    {
      position <= |openedFile| && (currentSongId != -1 ==> currentSongId in files && openedFile == files[currentSongId])
    }

    /** One request: the file of the song, reopened at its start only if another song was open, sent on in
        `segments` pieces through one stack buffer.  Nothing checks that a piece fits this buffer: the first one,
        which is the longest, overflows it or none does. */
    method HandleFeedMe(message: FeedMe, segments: byte) returns (sent: seq<seq<byte>>, overflow: bool)
      requires Valid() && message.songId in files
      modifies this
      ensures Valid() && currentSongId == message.songId
      ensures old(currentSongId) == message.songId ==>
        Answered(files[message.songId], old(position), message, segments, sent, position, overflow)
      ensures old(currentSongId) != message.songId ==>
        Answered(files[message.songId], 0, message, segments, sent, position, overflow)
      ensures forall i :: 0 <= i < |sent| ==>
        |sent[i]| >= 15 && ParseHeader(sent[i]) == Header(1, (|sent[i]| - 7) % 0x1_0000, i)
    {
      if currentSongId != message.songId {
        openedFile := files[message.songId];
        position := 0;
        currentSongId := message.songId;
      }
      ghost var start := position;
      sent, position, overflow := SendSegments(openedFile, position, message, segments);
      SentAreNumbered(files[message.songId], start, message, segments, sent, position, overflow);
    }

    /** The segment loop, from a position of the open file. */
    static method SendSegments(file: seq<byte>, start: nat, message: FeedMe, segments: byte)
      returns (sent: seq<seq<byte>>, position: nat, overflow: bool)
      requires start <= |file|
      ensures position <= |file|
      ensures overflow <==> segments > 0 && Overflows(message.dataSize, |file| - start)
      ensures !overflow ==> SentSoFar(file, start, message, segments, position, sent)
      ensures overflow ==> sent == []
    {
      sent, position, overflow := [], start, false;
      var i := 0;
      while i < segments
        invariant i <= segments && SentSoFar(file, start, message, i, position, sent)
      {
        var data := Fread(file, position, message.dataSize);
        var next := position + |data|;
        if HEADER_SIZE + 8 + |data| > DGRAM_MAX {
          LongestFirst(file, start, message.dataSize, i);
          return [], next, true;
        }
        OneMoreSent(file, start, message, i, position, sent);
        var datagram := PackDatagram(message.songId, data, i);
        sent, position := sent + [datagram], next;
        i := i + 1;
      }
    }

    /** Header and body written into the stack buffer, of which the written part is sent. */
    static method PackDatagram(songId: uint32, data: seq<byte>, number: uint32) returns (datagram: seq<byte>)
      requires HEADER_SIZE + 8 + |data| <= DGRAM_MAX
      ensures datagram == Datagram(songId, data, number)
    {
      var buffer := new byte[DGRAM_MAX];
      var header := Header(DATA, DataLength(|data|) % 0x1_0000, number);
      var headerSize := HeaderSerialize(header, buffer, 0);
      ghost var headed := buffer[..];
      assert headed[..HEADER_SIZE] == EncodeHeader(header);
      var bodySize := DataSerialize(songId, data, buffer, headerSize);
      datagram := buffer[..headerSize + bodySize];
      assert datagram == headed[..HEADER_SIZE] + EncodeData(songId, data);
    }
  }

  /** The bytes that one request brings. */
  lemma RequestBrings(file: seq<byte>, start: nat, message: FeedMe, segments: nat, sent: seq<seq<byte>>, position: nat)
    requires Answered(file, start, message, segments, sent, position, false)
    ensures start <= position <= |file| && position == Min(start + segments * message.dataSize, |file|)
    ensures Concat(PayloadsOf(sent)) == file[start..position]
  {
    PositionIsExact(file, start, message.dataSize, segments);
    SegmentsAreShort(file, start, message.dataSize, segments);
    PayloadsArrive(message.songId, Segments(file, start, message.dataSize, segments));
    SegmentsCoverTheFile(file, start, message.dataSize, segments);
  }

  lemma NextMultiple(k: nat, total: nat, limit: nat)
    ensures Min(Min(k * total, limit) + total, limit) == Min((k + 1) * total, limit)
  {
    assert (k + 1) * total == k * total + total;
  }

  lemma Joined(file: seq<byte>, start: nat, position: nat, payloads: seq<seq<byte>>, more: seq<seq<byte>>)
    requires start <= position <= |file| && Concat(payloads) == file[..start] && Concat(more) == file[start..position]
    ensures Concat(payloads + more) == file[..position]
  {
    ConcatAppend(payloads, more);
    assert file[..start] + file[start..position] == file[..position];
  }

  /** `k` requests for `total` bytes each have brought the file up to `position`. */
  predicate HasBrought(file: seq<byte>, total: nat, k: nat, position: nat, payloads: seq<seq<byte>>)
  {
    position <= |file| && position == Min(k * total, |file|) && Concat(payloads) == file[..position]
  }

  /** One more request behind `k` others. */
  lemma RequestContinues(file: seq<byte>, start: nat, message: FeedMe, segments: nat, k: nat, payloads: seq<seq<byte>>,
                         sent: seq<seq<byte>>, position: nat)
    requires Answered(file, start, message, segments, sent, position, false)
    requires HasBrought(file, segments * message.dataSize, k, start, payloads)
    ensures HasBrought(file, segments * message.dataSize, k + 1, position, payloads + PayloadsOf(sent))
  {
    RequestBrings(file, start, message, segments, sent, position);
    NextMultiple(k, segments * message.dataSize, |file|);
    Joined(file, start, position, payloads, PayloadsOf(sent));
  }

  /** `n` requests in a row for a song that was not open: what the daemon parses out of the datagrams is the file
      from its start, without gap or repetition. */
  method RequestsInARow(server: ContentServer, message: FeedMe, segments: byte, n: nat)
    returns (payloads: seq<seq<byte>>)
    requires server.Valid() && message.songId in server.files && server.currentSongId != message.songId
    requires 15 + Min(message.dataSize, |server.files[message.songId]|) <= 508
    modifies server
    ensures server.Valid()
    ensures var file := server.files[message.songId];
      Concat(payloads) == file[..Min(n * (segments * message.dataSize), |file|)]
  {
    ghost var file, total := server.files[message.songId], segments * message.dataSize;
    ghost var start := 0;
    payloads := [];
    var k := 0;
    assert k * total == 0;
    while k < n
      invariant k <= n && server.Valid()
      invariant if k == 0 then server.currentSongId != message.songId else server.currentSongId == message.songId
      invariant k > 0 ==> server.position == start
      invariant HasBrought(file, total, k, start, payloads)
    {
      var sent, overflow := server.HandleFeedMe(message, segments);
      RequestContinues(file, start, message, segments, k, payloads, sent, server.position);
      payloads := payloads + PayloadsOf(sent);
      start := server.position;
      k := k + 1;
    }
  }

  // ---- the daemon's side --------------------------------------------------------------------------

  lemma {:induction false} ConcatBound(parts: seq<seq<byte>>, bound: nat)
    requires forall i :: 0 <= i < |parts| ==> |parts[i]| <= bound
    ensures |Concat(parts)| <= |parts| * bound
    decreases |parts|
  {
    if parts != [] {
      ConcatBound(parts[1..], bound);
      assert |parts| * bound == bound + |parts[1..]| * bound;
    }
  }

  /** The merge loop: the payloads of the series, in the order they were stored. */
  method MergeSeries(messages: array<seq<byte>>, counter: nat) returns (merged: array<byte>, size: nat)
    requires counter <= messages.Length && counter <= SEGMENTS
    requires forall i :: 0 <= i < counter ==> |messages[i]| <= DGRAM_MAX
    ensures fresh(merged) && size <= merged.Length == MERGE_BUFFER
    ensures merged[..size] == Concat(messages[..counter])
  {
    merged := new byte[MERGE_BUFFER];
    size := 0;
    var i := 0;
    while i < counter
      invariant i <= counter && size <= i * DGRAM_MAX
      invariant merged[..size] == Concat(messages[..i])
    {
      ghost var before := merged[..];
      assert messages[..i + 1] == messages[..i] + [messages[i]];
      ConcatSnoc(messages[..i], messages[i]);
      Memcpy(merged, size, messages[i]);
      assert merged[..size + |messages[i]|] == before[..size] + messages[i];
      size := size + |messages[i]|;
      i := i + 1;
    }
  }
}
