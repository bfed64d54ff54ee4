/** Model of library.c: one flat song array, partitioned into the windows of the albums. */
module Library {
  import opened Bytes

  /** A file name without its terminating NUL. */
  type Name = seq<byte>

  const DOT: byte := 46
  const SLASH: byte := 47
  const NUL: byte := 0
  const FLAC: seq<byte> := [102, 108, 97, 99]

  datatype Directory = Directory(name: Name, files: seq<Name>)
  datatype Album = Album(firstSongId: nat, albumSize: nat, name: Name)
  datatype Song = Song(albumId: nat, name: Name)
  datatype Index = Index(albums: seq<Album>, songs: seq<Song>)

  predicate Hidden(d: Directory)
  {
    d.name != [] && d.name[0] == DOT
  }

  /** The last four bytes, no dot asked for.  A name shorter than that does not match. */
  predicate IsFlac(n: Name)
  {
    |n| >= 4 && n[|n| - 4..] == FLAC
  }

  function FlacNames(files: seq<Name>): (names: seq<Name>)
  {
    if files == [] then []
    else FlacNames(files[..|files| - 1]) + (if IsFlac(files[|files| - 1]) then [files[|files| - 1]] else [])
  }

  // ---- the index as a function of the listing ------------------------------------------------

  function SongsOf(albumId: nat, names: seq<Name>): (songs: seq<Song>)
    ensures |songs| == |names|
    ensures forall j :: 0 <= j < |names| ==> songs[j] == Song(albumId, names[j])
  {
    seq(|names|, j requires 0 <= j < |names| => Song(albumId, names[j]))
  }

  function AddDirectory(ix: Index, d: Directory): (ix': Index)
  {
    var names := FlacNames(d.files);
    if Hidden(d) || names == [] then ix
    else Index(ix.albums + [Album(|ix.songs|, |names|, d.name)], ix.songs + SongsOf(|ix.albums|, names))
  }

  function IndexOf(listing: seq<Directory>): (ix: Index)
  {
    if listing == [] then Index([], []) else AddDirectory(IndexOf(listing[..|listing| - 1]), listing[|listing| - 1])
  }

  /** The directories that become albums. */
  function Kept(listing: seq<Directory>): (kept: seq<Directory>)
    ensures forall d :: d in kept ==> d in listing && !Hidden(d) && FlacNames(d.files) != []
  {
    if listing == [] then []
    else
      var last := listing[|listing| - 1];
      Kept(listing[..|listing| - 1]) + (if Hidden(last) || FlacNames(last.files) == [] then [] else [last])
  }

  // ---- the partition ----------------------------------------------------------------------------

  predicate InWindow(album: Album, songId: nat)
  {
    album.firstSongId <= songId < album.firstSongId + album.albumSize
  }

  /** Album `a` is directory `d`: its window is not empty and lists the flac files of `d` in order. */
  predicate AlbumIs(ix: Index, a: nat, d: Directory)
    requires a < |ix.albums|
  {
    var album, names := ix.albums[a], FlacNames(d.files);
    && album.name == d.name
    && 0 < album.albumSize == |names|
    && album.firstSongId + album.albumSize <= |ix.songs|
    && ix.songs[album.firstSongId..album.firstSongId + album.albumSize] == SongsOf(a, names)
  }

  /** The windows start at 0, follow each other without gap or overlap, and end at the last song. */
  predicate Contiguous(ix: Index)
  {
    && (ix.albums == [] ==> ix.songs == [])
    && (ix.albums != [] ==> ix.albums[0].firstSongId == 0)
    && (ix.albums != [] ==> ix.albums[|ix.albums| - 1].firstSongId + ix.albums[|ix.albums| - 1].albumSize == |ix.songs|)
    && forall a :: 0 < a < |ix.albums| ==>
         ix.albums[a].firstSongId == ix.albums[a - 1].firstSongId + ix.albums[a - 1].albumSize
  }

  predicate Partitioned(ix: Index, kept: seq<Directory>)
  {
    && |ix.albums| == |kept|
    && Contiguous(ix)
    && forall a :: 0 <= a < |kept| ==> AlbumIs(ix, a, kept[a])
  }

  lemma AddDirectoryKeeps(ix: Index, kept: seq<Directory>, d: Directory)
    requires Partitioned(ix, kept) && !Hidden(d) && FlacNames(d.files) != []
    ensures Partitioned(AddDirectory(ix, d), kept + [d])
  {
    var ix' := AddDirectory(ix, d);
    var names := FlacNames(d.files);
    forall a | 0 <= a < |kept| + 1
      ensures AlbumIs(ix', a, (kept + [d])[a])
    {
      if a < |kept| {
        assert AlbumIs(ix, a, kept[a]);
        var from, to := ix.albums[a].firstSongId, ix.albums[a].firstSongId + ix.albums[a].albumSize;
        assert ix'.songs[from..to] == ix.songs[from..to];
      } else {
        assert ix'.songs[|ix.songs|..|ix.songs| + |names|] == SongsOf(a, names);
      }
    }
  }

  /** For every directory listing the index is a partition; directories without flac files leave no trace. */
  lemma {:induction false} IndexIsPartition(listing: seq<Directory>)
    ensures Partitioned(IndexOf(listing), Kept(listing))
    decreases |listing|
  {
    if listing != [] {
      var last := listing[|listing| - 1];
      IndexIsPartition(listing[..|listing| - 1]);
      if !Hidden(last) && FlacNames(last.files) != [] {
        AddDirectoryKeeps(IndexOf(listing[..|listing| - 1]), Kept(listing[..|listing| - 1]), last);
      }
    }
  }

  /** The window of an album in the song array. */
  lemma AlbumWindow(listing: seq<Directory>, a: nat)
    requires a < |IndexOf(listing).albums|
    ensures var ix := IndexOf(listing);
      && |Kept(listing)| == |ix.albums| && AlbumIs(ix, a, Kept(listing)[a])
  {
    IndexIsPartition(listing);
    assert AlbumIs(IndexOf(listing), a, Kept(listing)[a]);
  }

  // ---- the index against the listing, file by file ---------------------------------------------

  predicate Ascending(at: seq<nat>)
  {
    forall j, k :: 0 <= j < k < |at| ==> at[j] < at[k]
  }

  predicate Within<T(==)>(at: seq<nat>, all: seq<T>, picked: seq<T>)
  {
    |at| == |picked| && forall j :: 0 <= j < |at| ==> at[j] < |all| && all[at[j]] == picked[j]
  }

  /** `picked` are the elements of `all` that meet `p`, each once and in their order; `at` is where they are. */
  predicate Picks<T(==)>(at: seq<nat>, all: seq<T>, picked: seq<T>, p: T -> bool)
  {
    && Ascending(at)
    && Within(at, all, picked)
    && forall f :: 0 <= f < |all| ==> (f in at <==> p(all[f]))
  }

  lemma PickNext<T>(at: seq<nat>, all: seq<T>, picked: seq<T>, p: T -> bool, x: T) returns (at': seq<nat>)
    requires Picks(at, all, picked, p)
    ensures Picks(at', all + [x], if p(x) then picked + [x] else picked, p)
  {
    at' := if p(x) then at + [|all|] else at;
    forall f | 0 <= f < |all| + 1
      ensures f in at' <==> p((all + [x])[f])
    {
      if f < |all| {
        assert f in at <==> p(all[f]);
      }
    }
  }

  predicate EndsInFlac(n: Name)
  {
    |n| >= 4 && n[|n| - 4..] == [102, 108, 97, 99]
  }

  lemma SameEnding(n: Name)
    ensures IsFlac(n) <==> EndsInFlac(n)
  {
  }

  predicate BecomesAlbum(d: Directory)
  {
    (d.name != [] ==> d.name[0] != 46) && exists f :: 0 <= f < |d.files| && EndsInFlac(d.files[f])
  }

  lemma LastFlacName(files: seq<Name>) returns (before: seq<Name>, last: Name)
    requires files != []
    ensures before + [last] == files && |before| < |files|
    ensures FlacNames(files) == if EndsInFlac(last) then FlacNames(before) + [last] else FlacNames(before)
  {
    before, last := files[..|files| - 1], files[|files| - 1];
    SameEnding(last);
  }

  lemma {:induction false} FlacPositions(files: seq<Name>) returns (at: seq<nat>)
    ensures Picks(at, files, FlacNames(files), EndsInFlac)
    decreases |files|
  {
    if files == [] {
      at := [];
    } else {
      var before, last := LastFlacName(files);
      at := FlacPositions(before);
      at := PickNext(at, before, FlacNames(before), EndsInFlac, last);
    }
  }

  lemma BecomesAlbumExactly(d: Directory)
    ensures BecomesAlbum(d) <==> !Hidden(d) && FlacNames(d.files) != []
  {
    var at := FlacPositions(d.files);
    assert Within(at, d.files, FlacNames(d.files));
    if FlacNames(d.files) != [] {
      assert at[0] in at;
    }
  }

  lemma LastKept(listing: seq<Directory>) returns (before: seq<Directory>, last: Directory)
    requires listing != []
    ensures before + [last] == listing && |before| < |listing|
    ensures Kept(listing) == if BecomesAlbum(last) then Kept(before) + [last] else Kept(before)
  {
    before, last := listing[..|listing| - 1], listing[|listing| - 1];
    BecomesAlbumExactly(last);
  }

  lemma {:induction false} KeptPositions(listing: seq<Directory>) returns (at: seq<nat>)
    ensures Picks(at, listing, Kept(listing), BecomesAlbum)
    decreases |listing|
  {
    if listing == [] {
      at := [];
    } else {
      var before, last := LastKept(listing);
      at := KeptPositions(before);
      at := PickNext(at, before, Kept(before), BecomesAlbum, last);
    }
  }

  /** The song names in the window of album `a`. */
  function Shown(ix: Index, a: nat): (names: seq<Name>)
    requires a < |ix.albums| && ix.albums[a].firstSongId + ix.albums[a].albumSize <= |ix.songs|
  {
    seq(ix.albums[a].albumSize, j requires 0 <= j < ix.albums[a].albumSize =>
      ix.songs[ix.albums[a].firstSongId + j].name)
  }

  ghost predicate AlbumLists(ix: Index, a: nat, d: Directory)
  {
    && a < |ix.albums| && ix.albums[a].firstSongId + ix.albums[a].albumSize <= |ix.songs|
    && ix.albums[a].name == d.name && exists at :: Picks(at, d.files, Shown(ix, a), EndsInFlac)
  }

  lemma AlbumListsItsFiles(listing: seq<Directory>, a: nat)
    requires a < |IndexOf(listing).albums|
    ensures a < |Kept(listing)| && AlbumLists(IndexOf(listing), a, Kept(listing)[a])
  {
    AlbumWindow(listing, a);
    var ix, d := IndexOf(listing), Kept(listing)[a];
    var at := FlacPositions(d.files);
    var first, size := ix.albums[a].firstSongId, ix.albums[a].albumSize;
    forall j | 0 <= j < size
      ensures Shown(ix, a)[j] == FlacNames(d.files)[j]
    {
      assert ix.songs[first..first + size][j] == SongsOf(a, FlacNames(d.files))[j];
    }
    assert Shown(ix, a) == FlacNames(d.files);
  }

  /** The whole index against the listing: the albums are, in the order of the listing, the directories whose name
      does not begin with a dot and which hold a file that ends in "flac"; the songs of an album are, in the order of
      the directory, those files. */
  lemma IndexIsExact(listing: seq<Directory>) returns (at: seq<nat>, kept: seq<Directory>)
    ensures Picks(at, listing, kept, BecomesAlbum) && |kept| == |IndexOf(listing).albums|
    ensures forall a :: 0 <= a < |kept| ==> AlbumLists(IndexOf(listing), a, kept[a])
  {
    IndexIsPartition(listing);
    kept := Kept(listing);
    at := KeptPositions(listing);
    forall a | 0 <= a < |kept|
      ensures AlbumLists(IndexOf(listing), a, kept[a])
    {
      AlbumListsItsFiles(listing, a);
    }
  }

  lemma {:induction false} WindowsAscend(ix: Index, kept: seq<Directory>, a: nat, b: nat)
    requires Partitioned(ix, kept) && a < b < |ix.albums|
    ensures ix.albums[a].firstSongId + ix.albums[a].albumSize <= ix.albums[b].firstSongId
    decreases b - a
  {
    assert ix.albums[b].firstSongId == ix.albums[b - 1].firstSongId + ix.albums[b - 1].albumSize;
    if a < b - 1 {
      WindowsAscend(ix, kept, a, b - 1);
    }
  }

  /** Some window contains each song id. */
  lemma {:induction false} FindWindow(ix: Index, kept: seq<Directory>, songId: nat, a: nat) returns (b: nat)
    requires Partitioned(ix, kept) && a < |ix.albums|
    requires songId < ix.albums[a].firstSongId + ix.albums[a].albumSize
    ensures b <= a && InWindow(ix.albums[b], songId)
    decreases a
  {
    if ix.albums[a].firstSongId <= songId {
      b := a;
    } else {
      assert a > 0 && ix.albums[a].firstSongId == ix.albums[a - 1].firstSongId + ix.albums[a - 1].albumSize;
      b := FindWindow(ix, kept, songId, a - 1);
    }
  }

  lemma SongsPointBack(ix: Index, kept: seq<Directory>, songId: nat, a: nat)
    requires Partitioned(ix, kept) && a < |ix.albums| && songId < |ix.songs| && InWindow(ix.albums[a], songId)
    ensures ix.songs[songId].albumId == a
  {
    assert AlbumIs(ix, a, kept[a]);
    var album := ix.albums[a];
    var first := album.firstSongId;
    assert ix.songs[first..first + album.albumSize][songId - first] == ix.songs[songId];
  }

  /** The back pointer of a song names the one album whose window contains it, and the windows cover all songs. */
  lemma BackPointersMatchWindows(listing: seq<Directory>, songId: nat, a: nat)
    requires songId < |IndexOf(listing).songs|
    ensures var ix := IndexOf(listing);
      && ix.songs[songId].albumId < |ix.albums|
      && (a < |ix.albums| ==> (InWindow(ix.albums[a], songId) <==> ix.songs[songId].albumId == a))
  {
    var ix, kept := IndexOf(listing), Kept(listing);
    IndexIsPartition(listing);
    var b := FindWindow(ix, kept, songId, |ix.albums| - 1);
    SongsPointBack(ix, kept, songId, b);
    if a < |ix.albums| && InWindow(ix.albums[a], songId) {
      SongsPointBack(ix, kept, songId, a);
    }
  }

  // ---- building it in growing arrays --------------------------------------------------------------

  /** realloc to four times the size. */
  method Grow<T(0)>(old': array<T>) returns (grown: array<T>)
    requires old'.Length > 0
    ensures fresh(grown) && grown.Length == 4 * old'.Length
    ensures grown[..old'.Length] == old'[..]
  {
    grown := new T[old'.Length * 4];
    for i := 0 to old'.Length
      invariant grown[..i] == old'[..i]
    {
      grown[i] := old'[i];
    }
    assert old'[..old'.Length] == old'[..];
  }

  lemma SongsSnoc(albumId: nat, files: seq<Name>, i: nat)
    requires i < |files|
    ensures SongsOf(albumId, FlacNames(files[..i + 1]))
         == SongsOf(albumId, FlacNames(files[..i])) + (if IsFlac(files[i]) then [Song(albumId, files[i])] else [])
  {
    assert files[..i + 1][..i] == files[..i];
  }

  /** One song stored behind the others, in a larger array if need be. */
  method AppendSong(songs0: array<Song>, count: nat, song: Song) returns (songs: array<Song>)
    requires count <= songs0.Length && songs0.Length > 0
    modifies songs0
    ensures songs == songs0 || fresh(songs)
    ensures count < songs.Length
    ensures songs[..count + 1] == old(songs0[..count]) + [song]
  {
    songs := songs0;
    if count == songs.Length {
      songs := Grow(songs);
      assert songs[..count] == old(songs0[..count]);
    }
    songs[count] := song;
    assert songs[..count] == old(songs0[..count]);
  }

  /** The inner loop: the flac names of one directory appended to the song array. */
  method AddSongs(songs0: array<Song>, count0: nat, albumId: nat, files: seq<Name>)
    returns (songs: array<Song>, count: nat)
    requires count0 <= songs0.Length && songs0.Length > 0
    modifies songs0
    ensures songs == songs0 || fresh(songs)
    ensures count <= songs.Length && songs.Length > 0
    ensures count == count0 + |FlacNames(files)|
    ensures songs[..count] == old(songs0[..count0]) + SongsOf(albumId, FlacNames(files))
  {
    songs, count := songs0, count0;
    var i := 0;
    while i < |files|
      invariant i <= |files|
      invariant songs == songs0 || fresh(songs)
      invariant count <= songs.Length && songs.Length > 0
      invariant count == count0 + |SongsOf(albumId, FlacNames(files[..i]))|
      invariant songs[..count] == old(songs0[..count0]) + SongsOf(albumId, FlacNames(files[..i]))
    {
      SongsSnoc(albumId, files, i);
      if IsFlac(files[i]) {
        songs := AppendSong(songs, count, Song(albumId, files[i]));
        count := count + 1;
      }
      i := i + 1;
    }
    assert files[..i] == files;
  }

  method Trim<T(0)>(a: array<T>, count: nat) returns (exact: array<T>)
    requires count <= a.Length
    ensures fresh(exact) && exact[..] == a[..count]
  {
    exact := new T[count];
    for i := 0 to count
      invariant exact[..i] == a[..i]
    {
      exact[i] := a[i];
    }
  }

  /** The outer loop of library_init.  The album array is grown before an album is stored, not after. */
  method ReadDirectories(listing: seq<Directory>)
    returns (albums: array<Album>, albumCount: nat, songs: array<Song>, songCount: nat)
    ensures fresh(albums) && fresh(songs) && albumCount <= albums.Length && songCount <= songs.Length
    ensures Index(albums[..albumCount], songs[..songCount]) == IndexOf(listing)
  {
    albums, songs := new Album[10], new Song[20];
    albumCount, songCount := 0, 0;
    var i := 0;
    while i < |listing|
      invariant i <= |listing| && fresh(albums) && fresh(songs)
      invariant albumCount <= albums.Length && albums.Length > 0
      invariant songCount <= songs.Length && songs.Length > 0
      invariant Index(albums[..albumCount], songs[..songCount]) == IndexOf(listing[..i])
    {
      ghost var before := IndexOf(listing[..i]);
      assert listing[..i + 1][..i] == listing[..i];
      if !Hidden(listing[i]) {
        var first := songCount;
        songs, songCount := AddSongs(songs, songCount, albumCount, listing[i].files);
        var albumSize := songCount - first;
        if albumSize != 0 {
          if albumCount == albums.Length {
            albums := Grow(albums);
          }
          assert albums[..albumCount] == before.albums;
          albums[albumCount] := Album(first, albumSize, listing[i].name);
          albumCount := albumCount + 1;
          assert albums[..albumCount] == before.albums + [Album(first, albumSize, listing[i].name)];
        }
      }
      i := i + 1;
    }
    assert listing[..i] == listing;
  }

  class MusicLibrary {
    const root: Name
    ghost const listing: seq<Directory>
    var albumList: array<Album>
    var songList: array<Song>

    function Value(): (ix: Index)
      reads this, albumList, songList
    {
      Index(albumList[..], songList[..])
    }

    /** The arrays hold the index of the listing. */
    ghost predicate Valid()
      reads this, albumList, songList
    {
      Value() == IndexOf(listing)
    }

    /** library_init. */
    constructor (root: Name, listing: seq<Directory>)
      ensures Valid() && this.root == root && this.listing == listing
      ensures fresh(albumList) && fresh(songList)
    {
      var albums, albumCount, songs, songCount := ReadDirectories(listing);
      var albumList' := Trim(albums, albumCount);
      var songList' := Trim(songs, songCount);
      this.root := root;
      this.listing := listing;
      albumList := albumList';
      songList := songList';
    }

    /** library_album_songs: pointer arithmetic into the song array gives the flac files of the album's
        directory.  An album id out of range is the caller's fault. */
    method AlbumSongs(albumId: nat) returns (first: nat, songs: seq<Song>)
      requires Valid() && albumId < albumList.Length
      ensures albumId < |Kept(listing)| && songs == SongsOf(albumId, FlacNames(Kept(listing)[albumId].files))
      ensures first + |songs| <= songList.Length && songList[first..first + |songs|] == songs
      ensures first == IndexOf(listing).albums[albumId].firstSongId
    {
      AlbumWindow(listing, albumId);
      first := albumList[albumId].firstSongId;
      songs := songList[first..first + albumList[albumId].albumSize];
    }

    /** library_song_build_path: a NUL-terminated path in a buffer of exactly its size. */
    method SongBuildPath(songId: nat) returns (path: array<byte>)
      requires Valid() && songId < songList.Length
      ensures IndexOf(listing).songs[songId].albumId < |IndexOf(listing).albums|
      ensures fresh(path) && path[..] == PathOf(root, IndexOf(listing), songId)
      ensures var song := IndexOf(listing).songs[songId];
        path[..] == root + [47] + IndexOf(listing).albums[song.albumId].name + [47] + song.name + [0]
    {
      BackPointersMatchWindows(listing, songId, 0);
      var song := songList[songId];
      var album := albumList[song.albumId];
      path := JoinPath(root, album.name, song.name);
    }
  }

  /** The copying in library_song_build_path. */
  method JoinPath(root: Name, album: Name, song: Name) returns (path: array<byte>)
    ensures fresh(path) && path[..] == root + [SLASH] + album + [SLASH] + song + [NUL]
  {
    path := new byte[|root| + 2 + |album| + |song| + 1];
    Memcpy(path, 0, root);
    path[|root|] := SLASH;
    ghost var first := root + [SLASH];
    assert path[..|first|] == first;
    Memcpy(path, |root| + 1, album);
    path[|root| + 1 + |album|] := SLASH;
    ghost var second := first + album + [SLASH];
    assert path[..|second|] == second;
    Memcpy(path, |root| + 1 + |album| + 1, song + [NUL]);
    assert path[..] == second + (song + [NUL]);
  }

  /** The path of a song, with its terminating NUL. */
  function PathOf(root: Name, ix: Index, songId: nat): (p: seq<byte>)
    requires songId < |ix.songs| && ix.songs[songId].albumId < |ix.albums|
  {
    root + [SLASH] + ix.albums[ix.songs[songId].albumId].name + [SLASH] + ix.songs[songId].name + [NUL]
  }
}
