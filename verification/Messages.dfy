/** Model of messages.c: the wire formats as functions from values to bytes and back, and the loops that
    write and read them in place, proved against those functions. */
module Messages {
  import opened Bytes

  // ---- fixed-size messages ------------------------------------------------------------------

  datatype Header = Header(kind: byte, size: uint16, number: uint32)

  const HEADER_SIZE := 7
  const FEED_ME_SIZE := 6
  const DATA := 1
  const FEED_ME := 2
  const ALBUM_SONGS_RESP := 9

  /** The running byte counts are a uint32_t in the album list, a C int in the song list. */
  const UINT32_LIMIT := 0x1_0000_0000
  const INT_LIMIT := 0x8000_0000

  /** segments_n does not travel in the message. */
  datatype FeedMe = FeedMe(dataSize: uint16, songId: uint32)

  function EncodeHeader(h: Header): (b: seq<byte>)
    ensures |b| == HEADER_SIZE
  {
    BigEndian(h.kind, 1) + BigEndian(h.size, 2) + BigEndian(h.number, 4)
  }

  function ParseHeader(b: seq<byte>): (h: Header)
    requires |b| >= HEADER_SIZE
  {
    PowerTable();
    Header(FromBigEndian(b[0..1]), FromBigEndian(b[1..3]), FromBigEndian(b[3..7]))
  }

  function EncodeFeedMe(m: FeedMe): (b: seq<byte>)
    ensures |b| == FEED_ME_SIZE
  {
    BigEndian(m.dataSize, 2) + BigEndian(m.songId, 4)
  }

  function ParseFeedMe(b: seq<byte>): (m: FeedMe)
    requires |b| >= FEED_ME_SIZE
  {
    PowerTable();
    FeedMe(FromBigEndian(b[0..2]), FromBigEndian(b[2..6]))
  }

  /** The seven bytes, one by one: type, size, sequence number. */
  lemma HeaderBytes(h: Header)
    ensures EncodeHeader(h) == [h.kind, h.size / 0x100, h.size % 0x100, h.number / 0x100_0000,
                                h.number / 0x1_0000 % 0x100, h.number / 0x100 % 0x100, h.number % 0x100]
  {
    TwoDigits(h.size);
    FourDigits(h.number);
    assert BigEndian(h.kind, 1) == [h.kind];
  }

  /** The six bytes of a request: data size, song id. */
  lemma FeedMeBytes(m: FeedMe)
    ensures EncodeFeedMe(m) == [m.dataSize / 0x100, m.dataSize % 0x100, m.songId / 0x100_0000,
                                m.songId / 0x1_0000 % 0x100, m.songId / 0x100 % 0x100, m.songId % 0x100]
  {
    TwoDigits(m.dataSize);
    FourDigits(m.songId);
  }

  lemma HeaderRoundTrip(h: Header, rest: seq<byte>)
    ensures ParseHeader(EncodeHeader(h) + rest) == h
  {
    PowerTable();
    var b := EncodeHeader(h) + rest;
    assert b[0..1] == BigEndian(h.kind, 1) && b[1..3] == BigEndian(h.size, 2) && b[3..7] == BigEndian(h.number, 4);
    BigEndianRoundTrip(h.kind, 1);
    BigEndianRoundTrip(h.size, 2);
    BigEndianRoundTrip(h.number, 4);
  }

  lemma HeaderOnto(b: seq<byte>)
    requires |b| >= HEADER_SIZE
    ensures EncodeHeader(ParseHeader(b)) == b[..HEADER_SIZE]
  {
    BigEndianOnto(b[0..1]);
    BigEndianOnto(b[1..3]);
    BigEndianOnto(b[3..7]);
    assert b[..7] == b[0..1] + b[1..3] + b[3..7];
  }

  lemma FeedMeRoundTrip(m: FeedMe, rest: seq<byte>)
    ensures ParseFeedMe(EncodeFeedMe(m) + rest) == m
  {
    PowerTable();
    var b := EncodeFeedMe(m) + rest;
    assert b[0..2] == BigEndian(m.dataSize, 2) && b[2..6] == BigEndian(m.songId, 4);
    BigEndianRoundTrip(m.dataSize, 2);
    BigEndianRoundTrip(m.songId, 4);
  }

  // ---- values with their encoded length -----------------------------------------------------

  datatype Parsed<+T> = OutOfBounds | Done(value: T, used: nat)

  /** The unit of every variable-length format: an id, a length field of `w` bytes, and that many bytes. */
  datatype Item = Item(id: uint32, name: seq<byte>)

  predicate ItemOk(item: Item, w: nat)
  {
    |item.name| < Pow256(w)
  }

  predicate ItemsOk(items: seq<Item>, w: nat)
  {
    forall i :: 0 <= i < |items| ==> ItemOk(items[i], w)
  }

  function EncodeItem(item: Item, w: nat): (b: seq<byte>)
    ensures |b| == 4 + w + |item.name|
  {
    BigEndian(item.id, 4) + BigEndian(|item.name|, w) + item.name
  }

  /** An item byte by byte: the id in four bytes, the length in `w`, the name. */
  lemma ItemBytes(item: Item, w: nat, k: nat)
    requires k < |item.name|
    ensures EncodeItem(item, w)[..4] == [item.id / 0x100_0000, item.id / 0x1_0000 % 0x100,
                                         item.id / 0x100 % 0x100, item.id % 0x100]
    ensures w > 0 ==> EncodeItem(item, w)[3 + w] == |item.name| % 0x100
    ensures EncodeItem(item, w)[4 + w + k] == item.name[k]
  {
    FourDigits(item.id);
  }

  /** Reading an item that has to lie inside `b`. */
  function ParseItem(b: seq<byte>, w: nat): (r: Parsed<Item>)
  {
    PowerTable();
    if |b| < 4 + w then OutOfBounds
    else
      var size := FromBigEndian(b[4..4 + w]);
      if |b| < 4 + w + size then OutOfBounds
      else Done(Item(FromBigEndian(b[0..4]), b[4 + w..4 + w + size]), 4 + w + size)
  }

  /** Parsing undoes encoding and stops where the item ends, whatever follows. */
  lemma ItemRoundTrip(item: Item, w: nat, rest: seq<byte>)
    requires ItemOk(item, w)
    ensures ParseItem(EncodeItem(item, w) + rest, w) == Done(item, |EncodeItem(item, w)|)
  {
    PowerTable();
    var b := EncodeItem(item, w) + rest;
    assert b[0..4] == BigEndian(item.id, 4) && b[4..4 + w] == BigEndian(|item.name|, w);
    BigEndianRoundTrip(item.id, 4);
    BigEndianRoundTrip(|item.name|, w);
    assert b[4 + w..4 + w + |item.name|] == item.name;
  }

  /** Encoding undoes parsing: there is one encoding per item. */
  lemma ItemOnto(b: seq<byte>, w: nat)
    requires ParseItem(b, w).Done?
    ensures var r := ParseItem(b, w);
      r.used <= |b| && ItemOk(r.value, w) && EncodeItem(r.value, w) == b[..r.used]
  {
    var size := FromBigEndian(b[4..4 + w]);
    BigEndianOnto(b[0..4]);
    BigEndianOnto(b[4..4 + w]);
    assert b[..4 + w + size] == b[0..4] + b[4..4 + w] + b[4 + w..4 + w + size];
  }

  // ---- lists ------------------------------------------------------------------------------------

  function EncodeItems(items: seq<Item>, w: nat): (b: seq<byte>)
  {
    if items == [] then [] else EncodeItem(items[0], w) + EncodeItems(items[1..], w)
  }

  function ParseItems(b: seq<byte>, count: nat, w: nat): (r: Parsed<seq<Item>>)
    decreases count
  {
    if count == 0 then Done([], 0)
    else
      var first := ParseItem(b, w);
      if first.OutOfBounds? || first.used > |b| then OutOfBounds
      else
        var rest := ParseItems(b[first.used..], count - 1, w);
        if rest.OutOfBounds? then OutOfBounds else Done([first.value] + rest.value, first.used + rest.used)
  }

  lemma {:induction false} ItemsRoundTrip(items: seq<Item>, w: nat, rest: seq<byte>)
    requires ItemsOk(items, w)
    ensures ParseItems(EncodeItems(items, w) + rest, |items|, w) == Done(items, |EncodeItems(items, w)|)
    decreases |items|
  {
    if items != [] {
      var tail := EncodeItems(items[1..], w) + rest;
      assert EncodeItems(items, w) + rest == EncodeItem(items[0], w) + tail;
      ItemRoundTrip(items[0], w, tail);
      assert (EncodeItem(items[0], w) + tail)[|EncodeItem(items[0], w)|..] == tail;
      ItemsRoundTrip(items[1..], w, rest);
      assert [items[0]] + items[1..] == items;
    }
  }

  lemma {:induction false} ItemsOnto(b: seq<byte>, count: nat, w: nat)
    requires ParseItems(b, count, w).Done?
    ensures var r := ParseItems(b, count, w);
      r.used <= |b| && |r.value| == count && ItemsOk(r.value, w) && EncodeItems(r.value, w) == b[..r.used]
    decreases count
  {
    if count > 0 {
      var first := ParseItem(b, w);
      ItemOnto(b, w);
      ItemsOnto(b[first.used..], count - 1, w);
      var r, rest := ParseItems(b, count, w), ParseItems(b[first.used..], count - 1, w);
      assert r.value[1..] == rest.value;
      TwoSlices(b, first.used, rest.used);
    }
  }

  lemma TwoSlices(b: seq<byte>, i: nat, j: nat)
    requires i + j <= |b|
    ensures b[..i] + b[i..][..j] == b[..i + j]
  {
  }

  /** Both list messages: a count, then the items.  Album lists have w = 4, album songs w = 1. */
  predicate ListOk(items: seq<Item>, w: nat)
  {
    |items| < 0x1_0000_0000 && ItemsOk(items, w)
  }

  function EncodeList(items: seq<Item>, w: nat): (b: seq<byte>)
    ensures |b| == 4 + |EncodeItems(items, w)|
  {
    BigEndian(|items|, 4) + EncodeItems(items, w)
  }

  function ParseList(b: seq<byte>, w: nat): (r: Parsed<seq<Item>>)
  {
    if |b| < 4 then OutOfBounds
    else
      var r := ParseItems(b[4..], FromBigEndian(b[0..4]), w);
      if r.OutOfBounds? then OutOfBounds else Done(r.value, 4 + r.used)
  }

  /** A list starts with its count in four bytes, and its first item follows. */
  lemma ListBytes(items: seq<Item>, w: nat)
    requires ListOk(items, w)
    ensures EncodeList(items, w)[..4] == [|items| / 0x100_0000, |items| / 0x1_0000 % 0x100,
                                          |items| / 0x100 % 0x100, |items| % 0x100]
    ensures items != [] ==> EncodeItem(items[0], w) <= EncodeList(items, w)[4..]
  {
    FourDigits(|items|);
    assert EncodeList(items, w)[4..] == EncodeItems(items, w);
  }

  /** Decoding undoes encoding for lists of any length, and ignores what follows. */
  lemma ListRoundTrip(items: seq<Item>, w: nat, rest: seq<byte>)
    requires ListOk(items, w)
    ensures ParseList(EncodeList(items, w) + rest, w) == Done(items, |EncodeList(items, w)|)
  {
    PowerTable();
    var b := EncodeList(items, w) + rest;
    assert b[0..4] == BigEndian(|items|, 4) && b[4..] == EncodeItems(items, w) + rest;
    BigEndianRoundTrip(|items|, 4);
    ItemsRoundTrip(items, w, rest);
  }

  /** Any buffer that parses within its bounds starts with the encoding of what was parsed. */
  lemma ListOnto(b: seq<byte>, w: nat)
    requires ParseList(b, w).Done?
    ensures var r := ParseList(b, w);
      r.used <= |b| && ListOk(r.value, w) && EncodeList(r.value, w) == b[..r.used]
  {
    PowerTable();
    var count := FromBigEndian(b[0..4]);
    BigEndianOnto(b[0..4]);
    ItemsOnto(b[4..], count, w);
    var r := ParseItems(b[4..], count, w);
    assert b[..4 + r.used] == b[0..4] + b[4..][..r.used];
  }

  /** No encoding is a prefix of another one; in particular different lists have different encodings. */
  lemma ListsArePrefixFree(first: seq<Item>, second: seq<Item>, w: nat)
    requires ListOk(first, w) && ListOk(second, w) && EncodeList(first, w) <= EncodeList(second, w)
    ensures first == second
  {
    var rest := EncodeList(second, w)[|EncodeList(first, w)|..];
    assert EncodeList(second, w) == EncodeList(first, w) + rest;
    ListRoundTrip(first, w, rest);
    ListRoundTrip(second, w, []);
    assert EncodeList(second, w) + [] == EncodeList(second, w);
  }

  /** A truncated encoding never parses within its bounds: the length fields lead the reader past its end. */
  lemma TruncationOverruns(items: seq<Item>, w: nat, cut: nat)
    requires ListOk(items, w) && cut < |EncodeList(items, w)|
    ensures ParseList(EncodeList(items, w)[..cut], w).OutOfBounds?
  {
    var b := EncodeList(items, w);
    var r := ParseList(b[..cut], w);
    if r.Done? {
      ListOnto(b[..cut], w);
      assert EncodeList(r.value, w) <= b;
      ListsArePrefixFree(r.value, items, w);
      assert false;
    }
  }

  // ---- the data message: one item with a four-byte length --------------------------------------

  function EncodeData(songId: uint32, data: seq<byte>): (b: seq<byte>)
    ensures |b| == 8 + |data|
  {
    EncodeItem(Item(songId, data), 4)
  }

  // ---- length functions ---------------------------------------------------------------------------

  lemma {:induction false} EncodeItemsAppend(items: seq<Item>, more: seq<Item>, w: nat)
    ensures EncodeItems(items + more, w) == EncodeItems(items, w) + EncodeItems(more, w)
    decreases |items|
  {
    if items == [] {
      assert items + more == more;
    } else {
      assert (items + more)[1..] == items[1..] + more;
      EncodeItemsAppend(items[1..], more, w);
    }
  }

  lemma EncodeItemsSnoc(items: seq<Item>, i: nat, w: nat)
    requires i < |items|
    ensures EncodeItems(items[..i + 1], w) == EncodeItems(items[..i], w) + EncodeItem(items[i], w)
  {
    assert items[..i + 1] == items[..i] + [items[i]];
    assert [items[i]][1..] == [];
    assert EncodeItems([items[i]], w) == EncodeItem(items[i], w) + [];
    EncodeItemsAppend(items[..i], [items[i]], w);
  }

  /** messages_data_msg_get_length_bytes. */
  function DataLength(dataSize: nat): nat {
    4 + 4 + dataSize
  }

  /** The list length functions count without writing; the count is what serialization writes. */
  method ListLength(items: seq<Item>, w: nat) returns (total: nat)
    ensures total == |EncodeList(items, w)|
  {
    total := 4;
    var entry := 0;
    while entry < |items|
      invariant entry <= |items|
      invariant total == 4 + |EncodeItems(items[..entry], w)|
    {
      EncodeItemsSnoc(items, entry, w);
      total := total + 4 + w + |items[entry].name|;
      entry := entry + 1;
    }
    assert items[..entry] == items;
  }

  method AlbumListLength(items: seq<Item>) returns (total: nat)
    requires |EncodeList(items, 4)| < UINT32_LIMIT
    ensures total == |EncodeList(items, 4)|
  {
    total := ListLength(items, 4);
  }

  method AlbumSongsLength(items: seq<Item>) returns (total: nat)
    requires |EncodeList(items, 1)| < INT_LIMIT
    ensures total == |EncodeList(items, 1)|
  {
    total := ListLength(items, 1);
  }

  // ---- writing in place ----------------------------------------------------------------------------

  method HeaderSerialize(h: Header, buffer: array<byte>, at: nat) returns (written: nat)
    requires at + HEADER_SIZE <= buffer.Length
    modifies buffer
    ensures written == HEADER_SIZE
    ensures buffer[..] == Overwrite(old(buffer[..]), at, EncodeHeader(h))
  {
    PowerTable();
    ghost var before := buffer[..];
    written := BufferWriteInt(buffer, at, h.kind, 1);
    var n := BufferWriteInt(buffer, at + written, h.size, 2);
    OverwriteTwice(before, at, BigEndian(h.kind, 1), BigEndian(h.size, 2));
    written := written + n;
    n := BufferWriteInt(buffer, at + written, h.number, 4);
    OverwriteTwice(before, at, BigEndian(h.kind, 1) + BigEndian(h.size, 2), BigEndian(h.number, 4));
    written := written + n;
  }

  method FeedMeSerialize(m: FeedMe, buffer: array<byte>, at: nat) returns (written: nat)
    requires at + FEED_ME_SIZE <= buffer.Length
    modifies buffer
    ensures written == FEED_ME_SIZE
    ensures buffer[..] == Overwrite(old(buffer[..]), at, EncodeFeedMe(m))
  {
    PowerTable();
    ghost var before := buffer[..];
    written := BufferWriteInt(buffer, at, m.dataSize, 2);
    var n := BufferWriteInt(buffer, at + written, m.songId, 4);
    OverwriteTwice(before, at, BigEndian(m.dataSize, 2), BigEndian(m.songId, 4));
    written := written + n;
  }

  method ItemSerialize(item: Item, w: nat, buffer: array<byte>, at: nat) returns (written: nat)
    requires (w == 1 || w == 4) && ItemOk(item, w) && at + |EncodeItem(item, w)| <= buffer.Length
    modifies buffer
    ensures written == |EncodeItem(item, w)|
    ensures buffer[..] == Overwrite(old(buffer[..]), at, EncodeItem(item, w))
  {
    PowerTable();
    ghost var before := buffer[..];
    ghost var id, size := BigEndian(item.id, 4), BigEndian(|item.name|, w);
    written := BufferWriteInt(buffer, at, item.id, 4);
    var n := BufferWriteInt(buffer, at + written, |item.name|, w);
    OverwriteTwice(before, at, id, size);
    written := written + n;
    Memcpy(buffer, at + written, item.name);
    OverwriteTwice(before, at, id + size, item.name);
    written := written + |item.name|;
  }

  method DataSerialize(songId: uint32, data: seq<byte>, buffer: array<byte>, at: nat) returns (written: nat)
    requires |data| < 0x1_0000_0000 && at + 8 + |data| <= buffer.Length
    modifies buffer
    ensures written == DataLength(|data|)
    ensures buffer[..] == Overwrite(old(buffer[..]), at, EncodeData(songId, data))
  {
    PowerTable();
    written := ItemSerialize(Item(songId, data), 4, buffer, at);
  }

  lemma NextItemFits(items: seq<Item>, i: nat, w: nat)
    requires i < |items|
    ensures EncodeItems(items[..i + 1], w) == EncodeItems(items[..i], w) + EncodeItem(items[i], w)
    ensures |EncodeItems(items[..i], w)| + |EncodeItem(items[i], w)| <= |EncodeItems(items, w)|
  {
    EncodeItemsSnoc(items, i, w);
    assert items == items[..i + 1] + items[i + 1..];
    EncodeItemsAppend(items[..i + 1], items[i + 1..], w);
  }

  method ItemsSerialize(items: seq<Item>, w: nat, buffer: array<byte>, at: nat) returns (written: nat)
    requires (w == 1 || w == 4) && ItemsOk(items, w) && at + |EncodeItems(items, w)| <= buffer.Length
    modifies buffer
    ensures written == |EncodeItems(items, w)|
    ensures buffer[..] == Overwrite(old(buffer[..]), at, EncodeItems(items, w))
  {
    ghost var before := buffer[..];
    written := 0;
    var i := 0;
    while i < |items|
      invariant i <= |items|
      invariant written == |EncodeItems(items[..i], w)| && at + written <= buffer.Length
      invariant buffer[..] == Overwrite(before, at, EncodeItems(items[..i], w))
    {
      NextItemFits(items, i, w);
      OverwriteTwice(before, at, EncodeItems(items[..i], w), EncodeItem(items[i], w));
      var n := ItemSerialize(items[i], w, buffer, at + written);
      written := written + n;
      i := i + 1;
    }
    assert items[..i] == items;
  }

  /** The serializing loop writes the encoding at `at`, and nothing outside that window. */
  method ListSerialize(items: seq<Item>, w: nat, buffer: array<byte>, at: nat) returns (written: nat)
    requires (w == 1 || w == 4) && ListOk(items, w) && at + |EncodeList(items, w)| <= buffer.Length
    modifies buffer
    ensures written == |EncodeList(items, w)|
    ensures buffer[..] == Overwrite(old(buffer[..]), at, EncodeList(items, w))
  {
    PowerTable();
    OverwriteTwice(buffer[..], at, BigEndian(|items|, 4), EncodeItems(items, w));
    written := BufferWriteInt(buffer, at, |items|, 4);
    var n := ItemsSerialize(items, w, buffer, at + written);
    written := written + n;
  }

  method AlbumListSerialize(items: seq<Item>, buffer: array<byte>, at: nat) returns (written: nat)
    requires ListOk(items, 4) && at + |EncodeList(items, 4)| <= buffer.Length
    requires |EncodeList(items, 4)| < UINT32_LIMIT
    modifies buffer
    ensures written == |EncodeList(items, 4)|
    ensures buffer[..] == Overwrite(old(buffer[..]), at, EncodeList(items, 4))
  {
    written := ListSerialize(items, 4, buffer, at);
  }

  method AlbumSongsSerialize(items: seq<Item>, buffer: array<byte>, at: nat) returns (written: nat)
    requires ListOk(items, 1) && at + |EncodeList(items, 1)| <= buffer.Length
    requires |EncodeList(items, 1)| < INT_LIMIT
    modifies buffer
    ensures written == |EncodeList(items, 1)|
    ensures buffer[..] == Overwrite(old(buffer[..]), at, EncodeList(items, 1))
  {
    written := ListSerialize(items, 1, buffer, at);
  }

  // ---- reading in place ------------------------------------------------------------------------------

  method HeaderDeserialize(buffer: array<byte>, at: nat) returns (h: Header, used: nat)
    requires at + HEADER_SIZE <= buffer.Length
    ensures h == ParseHeader(buffer[at..]) && used == HEADER_SIZE
  {
    PowerTable();
    var kind, n := BufferReadInt(buffer, at, 1);
    used := n;
    var size;
    size, n := BufferReadInt(buffer, at + used, 2);
    used := used + n;
    var number;
    number, n := BufferReadInt(buffer, at + used, 4);
    used := used + n;
    h := Header(kind, size, number);
    var b := buffer[at..];
    assert b[0..1] == buffer[at..at + 1] && b[1..3] == buffer[at + 1..at + 3] && b[3..7] == buffer[at + 3..at + 7];
  }

  method FeedMeDeserialize(buffer: array<byte>, at: nat) returns (m: FeedMe, used: nat)
    requires at + FEED_ME_SIZE <= buffer.Length
    ensures m == ParseFeedMe(buffer[at..]) && used == FEED_ME_SIZE
  {
    PowerTable();
    var size, n := BufferReadInt(buffer, at, 2);
    used := n;
    var song;
    song, n := BufferReadInt(buffer, at + used, 4);
    used := used + n;
    m := FeedMe(size, song);
    var b := buffer[at..];
    assert b[0..2] == buffer[at..at + 2] && b[2..6] == buffer[at + 2..at + 6];
  }

  /** The source trusts the length field; reading past the buffer is the caller's fault. */
  method ItemDeserialize(buffer: array<byte>, at: nat, w: nat) returns (item: Item, used: nat)
    requires (w == 1 || w == 4) && at <= buffer.Length && ParseItem(buffer[at..], w).Done?
    ensures Done(item, used) == ParseItem(buffer[at..], w)
  {
    PowerTable();
    ghost var b := buffer[at..];
    assert b[0..4] == buffer[at..at + 4] && b[4..4 + w] == buffer[at + 4..at + 4 + w];
    var id, n := BufferReadInt(buffer, at, 4);
    used := n;
    var size;
    size, n := BufferReadInt(buffer, at + used, w);
    used := used + n;
    assert b[4 + w..4 + w + size] == buffer[at + used..at + used + size];
    item := Item(id, buffer[at + used..at + used + size]);
    used := used + size;
  }

  method DataDeserialize(buffer: array<byte>, at: nat) returns (songId: uint32, data: seq<byte>, used: nat)
    requires at <= buffer.Length && ParseItem(buffer[at..], 4).Done?
    ensures Done(Item(songId, data), used) == ParseItem(buffer[at..], 4)
    ensures at + used <= buffer.Length && buffer[at..at + used] == EncodeData(songId, data)
  {
    var item;
    item, used := ItemDeserialize(buffer, at, 4);
    songId, data := item.id, item.name;
    ItemOnto(buffer[at..], 4);
    assert buffer[at..at + used] == buffer[at..][..used];
  }

  /** Where the items of a list start, and what a parser finds there. */
  lemma ItemAt(b: seq<byte>, items: seq<Item>, i: nat, w: nat)
    requires ItemsOk(items, w) && i < |items| && EncodeItems(items, w) <= b
    ensures |EncodeItems(items[..i + 1], w)| <= |b|
    ensures |EncodeItems(items[..i + 1], w)| == |EncodeItems(items[..i], w)| + |EncodeItem(items[i], w)|
    ensures ParseItem(b[|EncodeItems(items[..i], w)|..], w) == Done(items[i], |EncodeItem(items[i], w)|)
  {
    var before, here, after := EncodeItems(items[..i], w), EncodeItem(items[i], w), EncodeItems(items[i + 1..], w);
    assert EncodeItems(items, w) == before + here + after by {
      assert items == items[..i + 1] + items[i + 1..];
      EncodeItemsAppend(items[..i + 1], items[i + 1..], w);
      EncodeItemsSnoc(items, i, w);
    }
    EncodeItemsSnoc(items, i, w);
    SplitAt(b, before, here, after);
    ItemRoundTrip(items[i], w, after + b[|before + here + after|..]);
  }

  lemma SplitAt(b: seq<byte>, before: seq<byte>, here: seq<byte>, after: seq<byte>)
    requires before + here + after <= b
    ensures b[|before|..] == here + (after + b[|before + here + after|..])
  {
    assert b == before + here + after + b[|before + here + after|..];
  }

  /** The deserializing loop: in front of it lies the encoding of `all`, and that is what it finds. */
  method ItemsDeserialize(buffer: array<byte>, at: nat, count: nat, w: nat, ghost all: seq<Item>)
    returns (items: seq<Item>, used: nat)
    requires (w == 1 || w == 4) && at <= buffer.Length && count == |all| && ItemsOk(all, w)
    requires EncodeItems(all, w) <= buffer[at..]
    ensures items == all && used == |EncodeItems(all, w)|
  {
    ghost var b := buffer[at..];
    items, used := [], 0;
    var entry := 0;
    while entry < count
      invariant entry <= count && items == all[..entry]
      invariant used == |EncodeItems(all[..entry], w)| <= buffer.Length - at
    {
      ItemAt(b, all, entry, w);
      DropTwice(buffer[..], at, used);
      assert b[used..] == buffer[at + used..];
      var item, n := ItemDeserialize(buffer, at + used, w);
      items := items + [item];
      used := used + n;
      entry := entry + 1;
    }
    assert all[..entry] == all;
  }

  /** Reading a list computes its parse and takes exactly its bytes. */
  method ListDeserialize(buffer: array<byte>, at: nat, w: nat) returns (items: seq<Item>, used: nat)
    requires (w == 1 || w == 4) && at <= buffer.Length && ParseList(buffer[at..], w).Done?
    ensures Done(items, used) == ParseList(buffer[at..], w)
    ensures at + used <= buffer.Length && buffer[at..at + used] == EncodeList(items, w)
  {
    ghost var b := buffer[at..];
    assert b[0..4] == buffer[at..at + 4];
    DropTwice(buffer[..], at, 4);
    var count, n := BufferReadInt(buffer, at, 4);
    ItemsOnto(b[4..], count, w);
    items, used := ItemsDeserialize(buffer, at + n, count, w, ParseItems(b[4..], count, w).value);
    used := used + n;
    ListOnto(b, w);
    assert buffer[at..at + used] == b[..used];
  }

  lemma DropTwice(b: seq<byte>, i: nat, j: nat)
    requires i + j <= |b|
    ensures b[i..][j..] == b[i + j..]
  {
  }

  method AlbumListDeserialize(buffer: array<byte>, at: nat) returns (items: seq<Item>, used: nat)
    requires at <= buffer.Length && ParseList(buffer[at..], 4).Done?
    requires ParseList(buffer[at..], 4).used < UINT32_LIMIT
    ensures Done(items, used) == ParseList(buffer[at..], 4)
    ensures at + used <= buffer.Length && buffer[at..at + used] == EncodeList(items, 4)
  {
    items, used := ListDeserialize(buffer, at, 4);
  }

  method AlbumSongsDeserialize(buffer: array<byte>, at: nat) returns (items: seq<Item>, used: nat)
    requires at <= buffer.Length && ParseList(buffer[at..], 1).Done?
    requires ParseList(buffer[at..], 1).used < INT_LIMIT
    ensures Done(items, used) == ParseList(buffer[at..], 1)
    ensures at + used <= buffer.Length && buffer[at..at + used] == EncodeList(items, 1)
  {
    items, used := ListDeserialize(buffer, at, 1);
  }

  // ---- reassembling a header from a byte stream -------------------------------------------------------

  /** Where the reception of a header stands: the peer closed before the first byte, the header is there, or
      the loop goes on receiving. */
  datatype Reception = Disconnected | Received(header: Header, used: nat) | Receiving(used: nat)

  function Total(pieces: seq<nat>): (n: nat)
  {
    if pieces == [] then 0 else pieces[0] + Total(pieces[1..])
  }

  /** What the results of the recv calls so far amount to. */
  function ReceptionOf(stream: seq<byte>, pieces: seq<nat>): (r: Reception)
    requires Min(Total(pieces), HEADER_SIZE) <= |stream|
  {
    if pieces != [] && pieces[0] == 0 then Disconnected
    else if Total(pieces) >= HEADER_SIZE then Received(ParseHeader(stream), HEADER_SIZE)
    else Receiving(Total(pieces))
  }

  /** The loop, call by call of recv.  `pieces` are the bytes the calls would give if asked for any number; 0 is
      what a closed connection gives. */
  method ReceiveHeader(stream: seq<byte>, pieces: seq<nat>) returns (r: Reception)
    requires Min(Total(pieces), HEADER_SIZE) <= |stream|
    ensures r == ReceptionOf(stream, pieces)
  {
    var buffer := new byte[HEADER_SIZE];
    var used, calls := 0, 0;
    while used != HEADER_SIZE
      invariant calls <= |pieces|
      invariant used == Min(Total(pieces) - Total(pieces[calls..]), HEADER_SIZE) && used <= |stream|
      invariant Total(pieces[calls..]) <= Total(pieces)
      invariant calls > 0 ==> pieces[0] > 0 && used > 0
      invariant buffer[..used] == stream[..used]
      decreases |pieces| - calls
    {
      if calls == |pieces| {
        return Receiving(used);
      }
      assert pieces[calls..][1..] == pieces[calls + 1..];
      var n := Min(pieces[calls], HEADER_SIZE - used);
      ghost var before := buffer[..];
      Memcpy(buffer, used, stream[used..used + n]);
      assert buffer[..used + n] == before[..used] + stream[used..used + n];
      used := used + n;
      calls := calls + 1;
      if used == 0 {
        return Disconnected;
      }
    }
    var h, n := HeaderDeserialize(buffer, 0);
    assert buffer[0..] == buffer[..used] == stream[..7];
    assert stream[..7][0..1] == stream[0..1] && stream[..7][1..3] == stream[1..3] && stream[..7][3..7] == stream[3..7];
    r := Received(h, used);
  }

  /** Whatever header a peer sends, in whatever pieces and whatever it sends behind: that header is received. */
  lemma HeaderIsReceived(h: Header, rest: seq<byte>, pieces: seq<nat>)
    requires pieces != [] && pieces[0] > 0 && Total(pieces) >= 7
    ensures ReceptionOf(EncodeHeader(h) + rest, pieces) == Received(h, 7)
  {
    HeaderRoundTrip(h, rest);
  }

  lemma {:induction false} PositiveTotal(pieces: seq<nat>)
    requires forall k :: 0 <= k < |pieces| ==> pieces[k] > 0
    ensures Total(pieces) >= |pieces|
    decreases |pieces|
  {
    if pieces != [] {
      PositiveTotal(pieces[1..]);
    }
  }

  /** Before that the loop goes on with what it has, a peer that has closed at once is noticed, and as long as data
      comes seven calls are enough. */
  lemma HeaderIsAwaited(stream: seq<byte>, pieces: seq<nat>)
    requires Min(Total(pieces), HEADER_SIZE) <= |stream|
    ensures (pieces == [] || pieces[0] > 0) && Total(pieces) < 7 ==>
      ReceptionOf(stream, pieces) == Receiving(Total(pieces))
    ensures pieces != [] && pieces[0] == 0 ==> ReceptionOf(stream, pieces) == Disconnected
    ensures (forall k :: 0 <= k < |pieces| ==> pieces[k] > 0) && |pieces| >= 7 ==>
      ReceptionOf(stream, pieces).Received?
  {
    if forall k :: 0 <= k < |pieces| ==> pieces[k] > 0 {
      PositiveTotal(pieces);
    }
  }

  lemma {:induction false} NothingMore(pieces: seq<nat>, closed: nat)
    ensures Total(pieces + seq(closed, _ => 0)) == Total(pieces)
    decreases |pieces|, closed
  {
    var zeros := seq(closed, _ => 0);
    if pieces != [] {
      assert (pieces + zeros)[1..] == pieces[1..] + zeros;
      NothingMore(pieces[1..], closed);
    } else if closed > 0 {
      assert pieces + zeros == zeros && zeros[1..] == seq(closed - 1, _ => 0) == [] + seq(closed - 1, _ => 0);
      NothingMore([], closed - 1);
    }
  }

  /** A peer that closes inside the header is never noticed: however many more calls are made, the loop goes on. */
  lemma ClosingInsideSpins(stream: seq<byte>, pieces: seq<nat>, closed: nat)
    requires Min(Total(pieces), HEADER_SIZE) <= |stream| && ReceptionOf(stream, pieces).Receiving? && pieces != []
    ensures Total(pieces + seq(closed, _ => 0)) == Total(pieces)
    ensures ReceptionOf(stream, pieces + seq(closed, _ => 0)) == ReceptionOf(stream, pieces)
  {
    NothingMore(pieces, closed);
  }
}
