/** The way from the library to the player: the album-songs answer the server builds in server.c, what a client
    decodes from it, and the file the server opens for the song id the client sends back. */
module Browse {
  import opened Bytes
  import opened Messages
  import opened Library

  /** A name as the answer carries it: the declared size counts the NUL and is kept in one byte. */
  function WireName(n: Name): (b: seq<byte>)
    ensures |b| < 0x100
    ensures b == n + [NUL] <==> |n| <= 254
  {
    (n + [NUL])[..(|n| + 1) % 0x100]
  }

  /** The items of the answer for one album. */
  function SongItems(first: nat, songs: seq<Song>): (items: seq<Item>)
    requires first + |songs| <= 0x1_0000_0000
    ensures |items| == |songs|
    ensures forall i :: 0 <= i < |songs| ==> items[i] == Item(first + i, WireName(songs[i].name))
  {
    seq(|songs|, i requires 0 <= i < |songs| => Item(first + i, WireName(songs[i].name)))
  }

  predicate WindowOk(ix: Index, a: nat)
  {
    a < |ix.albums| && ix.albums[a].firstSongId + ix.albums[a].albumSize <= |ix.songs| < 0x1_0000_0000
  }

  /** The items the server answers with for album `a`. */
  function AlbumItems(ix: Index, a: nat): (items: seq<Item>)
    requires WindowOk(ix, a)
    ensures |items| == ix.albums[a].albumSize
  {
    var first := ix.albums[a].firstSongId;
    SongItems(first, ix.songs[first..first + ix.albums[a].albumSize])
  }

  /** Header and body; the total is stored in sixteen bits. */
  function AlbumSongsAnswer(items: seq<Item>): (b: seq<byte>)
  {
    var total := HEADER_SIZE + |EncodeList(items, 1)|;
    EncodeHeader(Header(ALBUM_SONGS_RESP, total % 0x1_0000, 0)) + EncodeList(items, 1)
  }

  lemma SongItemsOk(first: nat, songs: seq<Song>)
    requires first + |songs| <= 0x1_0000_0000 && |songs| < 0x1_0000_0000
    ensures ListOk(SongItems(first, songs), 1)
  {
    PowerTable();
  }

  method ListSongs(first: nat, songs: seq<Song>) returns (items: seq<Item>)
    requires first + |songs| <= 0x1_0000_0000
    ensures items == SongItems(first, songs)
  {
    items := [];
    var i := 0;
    while i < |songs|
      invariant i <= |songs| && items == SongItems(first, songs)[..i]
    {
      items := items + [Item(first + i, WireName(songs[i].name))];
      i := i + 1;
    }
  }

  lemma BodyBehindHeader(headed: seq<byte>, header: seq<byte>, body: seq<byte>)
    requires |headed| == |header| + |body| && headed[..|header|] == header
    ensures Overwrite(headed, |header|, body) == header + body
  {
  }

  /** The buffer of an answer: the allocation is exactly the header and the body. */
  method WriteAnswer(items: seq<Item>) returns (buffer: array<byte>, written: nat)
    requires ListOk(items, 1) && |EncodeList(items, 1)| < INT_LIMIT
    ensures fresh(buffer) && written == buffer.Length && buffer[..] == AlbumSongsAnswer(items)
  {
    var length := AlbumSongsLength(items);
    var size := HEADER_SIZE + length;
    var header := Header(ALBUM_SONGS_RESP, size % 0x1_0000, 0);
    buffer := new byte[size];
    written := HeaderSerialize(header, buffer, 0);
    ghost var headed := buffer[..];
    var n := AlbumSongsSerialize(items, buffer, written);
    BodyBehindHeader(headed, EncodeHeader(header), EncodeList(items, 1));
    written := written + n;
  }

  /** The branch of server_tcp_handle_connection for this request, up to the send loop. */
  method BuildAlbumSongsAnswer(lib: MusicLibrary, albumId: nat) returns (buffer: array<byte>, written: nat)
    requires lib.Valid() && WindowOk(IndexOf(lib.listing), albumId)
    requires |EncodeList(AlbumItems(IndexOf(lib.listing), albumId), 1)| < INT_LIMIT
    ensures fresh(buffer) && written == buffer.Length
    ensures buffer[..] == AlbumSongsAnswer(AlbumItems(IndexOf(lib.listing), albumId))
  {
    var first, songs := lib.AlbumSongs(albumId);
    AlbumWindow(lib.listing, albumId);
    var items := ListSongs(first, songs);
    assert items == AlbumItems(IndexOf(lib.listing), albumId);
    SongItemsOk(first, songs);
    buffer, written := WriteAnswer(items);
  }

  /** header.size announces the whole answer exactly when that fits its sixteen bits. */
  lemma AnnouncedSizeExactly(items: seq<Item>)
    ensures |AlbumSongsAnswer(items)| == HEADER_SIZE + |EncodeList(items, 1)|
    ensures ParseHeader(AlbumSongsAnswer(items)).size == |AlbumSongsAnswer(items)|
      <==> |AlbumSongsAnswer(items)| <= 65535
  {
    var total := HEADER_SIZE + |EncodeList(items, 1)|;
    HeaderRoundTrip(Header(ALBUM_SONGS_RESP, total % 0x1_0000, 0), EncodeList(items, 1));
  }

  /** The header of an answer: type 9, the size in sixteen bits, sequence number 0. */
  lemma AnswerHeader(items: seq<Item>)
    ensures ParseHeader(AlbumSongsAnswer(items)) == Header(9, |AlbumSongsAnswer(items)| % 0x1_0000, 0)
  {
    var total := HEADER_SIZE + |EncodeList(items, 1)|;
    HeaderRoundTrip(Header(ALBUM_SONGS_RESP, total % 0x1_0000, 0), EncodeList(items, 1));
  }

  /** The announced size of a name in an answer: that of the name with its NUL, up to 254 bytes; 0 for 255. */
  lemma WireNameSize(n: Name)
    ensures |n| <= 254 ==> |WireName(n)| == |n| + 1
    ensures |n| == 255 ==> WireName(n) == []
  {
  }

  /** What player_client_show_album gets out of an answer: it receives as many bytes behind the header as the
      header announces, and parses those.  An announced size below that of the header asks for a buffer of
      negative size. */
  function Decoded(answer: seq<byte>): (r: Parsed<seq<Item>>)
  {
    if |answer| < HEADER_SIZE then OutOfBounds
    else
      var size := ParseHeader(answer).size;
      if HEADER_SIZE <= size <= |answer| then ParseList(answer[HEADER_SIZE..size], 1) else OutOfBounds
  }

  /** A client decodes the list the server put in if the size field can hold the size of the answer, and runs out
      of its buffer if not. */
  lemma AnswerDecodes(items: seq<Item>)
    requires ListOk(items, 1)
    ensures |AlbumSongsAnswer(items)| <= 65535 ==>
      Decoded(AlbumSongsAnswer(items)) == Done(items, |EncodeList(items, 1)|)
    ensures |AlbumSongsAnswer(items)| > 65535 ==> Decoded(AlbumSongsAnswer(items)).OutOfBounds?
  {
    var answer, body := AlbumSongsAnswer(items), EncodeList(items, 1);
    var size := |answer| % 0x1_0000;
    HeaderRoundTrip(Header(ALBUM_SONGS_RESP, size, 0), body);
    if |answer| <= 65535 {
      ListRoundTrip(items, 1, []);
      assert answer[HEADER_SIZE..size] == body + [];
    } else if size >= HEADER_SIZE {
      TruncationOverruns(items, 1, size - HEADER_SIZE);
      assert answer[HEADER_SIZE..size] == body[..size - HEADER_SIZE];
    }
  }

  /** The path of a song shows the name on the wire exactly when the length field can hold its size. */
  lemma ShownNameIsOpened(prefix: seq<byte>, name: Name)
    ensures prefix + name + [NUL] == prefix + WireName(name) <==> |name| <= 254
  {
    assert prefix + name + [NUL] == prefix + (name + [NUL]);
    SamePrefix(prefix, name + [NUL], WireName(name));
  }

  /** A client that asked for album `a` holds this list. */
  predicate ClientHolds(ix: Index, a: nat, held: seq<Item>)
    requires WindowOk(ix, a)
  {
    var r := Decoded(AlbumSongsAnswer(AlbumItems(ix, a)));
    r.Done? && r.value == held
  }

  /** Exactly the answers of at most 65535 bytes give a client a list, and that is the album's. */
  lemma ClientHoldsTheAlbum(ix: Index, a: nat, held: seq<Item>)
    requires WindowOk(ix, a)
    ensures ClientHolds(ix, a, held) <==> |AlbumSongsAnswer(AlbumItems(ix, a))| <= 65535 && held == AlbumItems(ix, a)
  {
    var first := ix.albums[a].firstSongId;
    SongItemsOk(first, ix.songs[first..first + ix.albums[a].albumSize]);
    AnswerDecodes(AlbumItems(ix, a));
  }

  lemma ItemOfAlbum(ix: Index, a: nat, i: nat)
    requires WindowOk(ix, a) && i < ix.albums[a].albumSize
    ensures |AlbumItems(ix, a)| == ix.albums[a].albumSize
    ensures var id := ix.albums[a].firstSongId + i;
      AlbumItems(ix, a)[i] == Item(id, WireName(ix.songs[id].name))
  {
  }

  /** Browse and play agree: the song id a client picks from the list it holds of album `a` makes the server open
      root/album/name with the very name the client was shown, exactly when that name has at most 254 bytes. */
  lemma BrowseThenPlay(root: Name, listing: seq<Directory>, a: nat, held: seq<Item>, i: nat)
    requires WindowOk(IndexOf(listing), a)
    requires ClientHolds(IndexOf(listing), a, held) && i < |held|
    ensures var ix := IndexOf(listing);
      && held[i].id < |ix.songs| && ix.songs[held[i].id].albumId == a
      && (PathOf(root, ix, held[i].id) == root + [SLASH] + ix.albums[a].name + [SLASH] + held[i].name
          <==> |ix.songs[held[i].id].name| <= 254)
  {
    var ix := IndexOf(listing);
    ClientHoldsTheAlbum(ix, a, held);
    ItemOfAlbum(ix, a, i);
    BackPointersMatchWindows(listing, ix.albums[a].firstSongId + i, a);
    ShownNameIsOpened(root + [SLASH] + ix.albums[a].name + [SLASH], ix.songs[ix.albums[a].firstSongId + i].name);
  }

  /** An album has one entry for each of its flac files, and a client gets to hold its list exactly if the answer
      fits the size field. */
  lemma EverySongIsShown(listing: seq<Directory>, a: nat)
    requires |IndexOf(listing).songs| < 0x1_0000_0000 && a < |IndexOf(listing).albums|
    ensures WindowOk(IndexOf(listing), a)
    ensures var ix := IndexOf(listing);
      ClientHolds(ix, a, AlbumItems(ix, a)) <==> |AlbumSongsAnswer(AlbumItems(ix, a))| <= 65535
    ensures |Kept(listing)| == |IndexOf(listing).albums|
    ensures |AlbumItems(IndexOf(listing), a)| == |FlacNames(Kept(listing)[a].files)| > 0
  {
    AlbumWindow(listing, a);
    ClientHoldsTheAlbum(IndexOf(listing), a, AlbumItems(IndexOf(listing), a));
  }

  lemma SamePrefix(p: seq<byte>, a: seq<byte>, b: seq<byte>)
    ensures p + a == p + b <==> a == b
  {
    assert (p + a)[|p|..] == a && (p + b)[|p|..] == b;
  }
}
