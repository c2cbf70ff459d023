/**
 * The built-in library: 24 songs on six albums, six artists, four playlists, six genres
 * and fifteen photos in three photo albums, with the lookups the screens use.
 * The song and photo arrays are written as the concatenation of their per-album groups,
 * in the source's order.
 */
module MockData {
  import opened Wrappers
  import opened Types
  import opened Seqs

  const ArtMidnight := "linear-gradient(135deg, #1a1a2e 0%, #16213e 50%, #0f3460 100%)"
  const ArtSunset := "linear-gradient(135deg, #ff6b6b 0%, #feca57 50%, #ff9ff3 100%)"
  const ArtOcean := "linear-gradient(135deg, #0077b6 0%, #00b4d8 50%, #90e0ef 100%)"
  const ArtForest := "linear-gradient(135deg, #2d6a4f 0%, #40916c 50%, #74c69d 100%)"
  const ArtPurple := "linear-gradient(135deg, #7400b8 0%, #6930c3 50%, #5e60ce 100%)"
  const ArtGolden := "linear-gradient(135deg, #f4a261 0%, #e76f51 50%, #e9c46a 100%)"

  const MidnightDreamsSongs: seq<Song> := [
    Song("s1", "Starlight", "Luna Nova", "Midnight Dreams", ArtMidnight, 245, "Electronic", 2023, false),
    Song("s2", "Night Drive", "Luna Nova", "Midnight Dreams", ArtMidnight, 198, "Electronic", 2023, false),
    Song("s3", "Cosmic Dance", "Luna Nova", "Midnight Dreams", ArtMidnight, 276, "Electronic", 2023, false),
    Song("s4", "Dream State", "Luna Nova", "Midnight Dreams", ArtMidnight, 312, "Electronic", 2023, false)]
  const SunsetBoulevardSongs: seq<Song> := [
    Song("s5", "Golden Hour", "The Waves", "Sunset Boulevard", ArtSunset, 223, "Indie", 2022, false),
    Song("s6", "Summer Nights", "The Waves", "Sunset Boulevard", ArtSunset, 187, "Indie", 2022, false),
    Song("s7", "Beach Town", "The Waves", "Sunset Boulevard", ArtSunset, 265, "Indie", 2022, false),
    Song("s8", "Fading Light", "The Waves", "Sunset Boulevard", ArtSunset, 298, "Indie", 2022, false)]
  const DeepBlueSongs: seq<Song> := [
    Song("s9", "Ocean Waves", "Aqua", "Deep Blue", ArtOcean, 234, "Ambient", 2023, false),
    Song("s10", "Coral Reef", "Aqua", "Deep Blue", ArtOcean, 189, "Ambient", 2023, false),
    Song("s11", "Tidal", "Aqua", "Deep Blue", ArtOcean, 267, "Ambient", 2023, false),
    Song("s12", "Submarine", "Aqua", "Deep Blue", ArtOcean, 345, "Ambient", 2023, false)]
  const IntoTheWildSongs: seq<Song> := [
    Song("s13", "Forest Path", "Wanderer", "Into The Wild", ArtForest, 212, "Folk", 2021, false),
    Song("s14", "Mountain High", "Wanderer", "Into The Wild", ArtForest, 278, "Folk", 2021, false),
    Song("s15", "River Song", "Wanderer", "Into The Wild", ArtForest, 195, "Folk", 2021, false),
    Song("s16", "Wilderness", "Wanderer", "Into The Wild", ArtForest, 324, "Folk", 2021, false)]
  const UltravioletSongs: seq<Song> := [
    Song("s17", "Neon Lights", "Synth City", "Ultraviolet", ArtPurple, 198, "Synthwave", 2024, false),
    Song("s18", "Retrowave", "Synth City", "Ultraviolet", ArtPurple, 245, "Synthwave", 2024, false),
    Song("s19", "Digital Dreams", "Synth City", "Ultraviolet", ArtPurple, 267, "Synthwave", 2024, false),
    Song("s20", "Cyber Night", "Synth City", "Ultraviolet", ArtPurple, 289, "Synthwave", 2024, false)]
  const AutumnGoldSongs: seq<Song> := [
    Song("s21", "Falling Leaves", "Amber", "Autumn Gold", ArtGolden, 234, "Jazz", 2022, false),
    Song("s22", "Harvest Moon", "Amber", "Autumn Gold", ArtGolden, 312, "Jazz", 2022, false),
    Song("s23", "Warm Glow", "Amber", "Autumn Gold", ArtGolden, 278, "Jazz", 2022, false),
    Song("s24", "Cozy Evening", "Amber", "Autumn Gold", ArtGolden, 345, "Jazz", 2022, false)]

  const Songs: seq<Song> :=
    MidnightDreamsSongs + SunsetBoulevardSongs + DeepBlueSongs + IntoTheWildSongs + UltravioletSongs + AutumnGoldSongs

  const Albums: seq<Album> := [
    Album("a1", "Midnight Dreams", "Luna Nova", ArtMidnight, 2023, ["s1", "s2", "s3", "s4"]),
    Album("a2", "Sunset Boulevard", "The Waves", ArtSunset, 2022, ["s5", "s6", "s7", "s8"]),
    Album("a3", "Deep Blue", "Aqua", ArtOcean, 2023, ["s9", "s10", "s11", "s12"]),
    Album("a4", "Into The Wild", "Wanderer", ArtForest, 2021, ["s13", "s14", "s15", "s16"]),
    Album("a5", "Ultraviolet", "Synth City", ArtPurple, 2024, ["s17", "s18", "s19", "s20"]),
    Album("a6", "Autumn Gold", "Amber", ArtGolden, 2022, ["s21", "s22", "s23", "s24"])]

  const Artists: seq<Artist> := [
    Artist("ar1", "Luna Nova", ["a1"]),
    Artist("ar2", "The Waves", ["a2"]),
    Artist("ar3", "Aqua", ["a3"]),
    Artist("ar4", "Wanderer", ["a4"]),
    Artist("ar5", "Synth City", ["a5"]),
    Artist("ar6", "Amber", ["a6"])]

  const Playlists: seq<Playlist> := [
    Playlist("p1", "Favorites", ["s1", "s5", "s9", "s17", "s21"]),
    Playlist("p2", "Chill Vibes", ["s9", "s10", "s11", "s13", "s14", "s23"]),
    Playlist("p3", "Night Drive", ["s1", "s2", "s17", "s18", "s19"]),
    Playlist("p4", "Recently Added", ["s17", "s18", "s19", "s20"])]

  const Genres: seq<string> := ["Electronic", "Indie", "Ambient", "Folk", "Synthwave", "Jazz"]

  const NaturePhotos: seq<Photo> := [
    Photo("ph1", "https://picsum.photos/seed/nature1/400/300", "pa1", "Mountain View"),
    Photo("ph2", "https://picsum.photos/seed/nature2/400/300", "pa1", "Forest Trail"),
    Photo("ph3", "https://picsum.photos/seed/nature3/400/300", "pa1", "Lake Sunset"),
    Photo("ph4", "https://picsum.photos/seed/nature4/400/300", "pa1", "Ocean Waves"),
    Photo("ph5", "https://picsum.photos/seed/nature5/400/300", "pa1", "Desert Dunes")]
  const CityPhotos: seq<Photo> := [
    Photo("ph6", "https://picsum.photos/seed/city1/400/300", "pa2", "Skyline"),
    Photo("ph7", "https://picsum.photos/seed/city2/400/300", "pa2", "Street Lights"),
    Photo("ph8", "https://picsum.photos/seed/city3/400/300", "pa2", "Downtown"),
    Photo("ph9", "https://picsum.photos/seed/city4/400/300", "pa2", "Bridge")]
  const TravelPhotos: seq<Photo> := [
    Photo("ph10", "https://picsum.photos/seed/travel1/400/300", "pa3", "Paris"),
    Photo("ph11", "https://picsum.photos/seed/travel2/400/300", "pa3", "Tokyo"),
    Photo("ph12", "https://picsum.photos/seed/travel3/400/300", "pa3", "New York"),
    Photo("ph13", "https://picsum.photos/seed/travel4/400/300", "pa3", "London"),
    Photo("ph14", "https://picsum.photos/seed/travel5/400/300", "pa3", "Sydney"),
    Photo("ph15", "https://picsum.photos/seed/travel6/400/300", "pa3", "Rome")]

  const Photos: seq<Photo> := NaturePhotos + CityPhotos + TravelPhotos

  const PhotoAlbums: seq<PhotoAlbum> := [
    PhotoAlbum("pa1", "Nature", "ph1", ["ph1", "ph2", "ph3", "ph4", "ph5"]),
    PhotoAlbum("pa2", "City", "ph6", ["ph6", "ph7", "ph8", "ph9"]),
    PhotoAlbum("pa3", "Travel", "ph10", ["ph10", "ph11", "ph12", "ph13", "ph14", "ph15"])]

  // ---------------------------------------------------------------- id projections

  function SongIds(s: seq<Song>): (r: seq<string>)
    ensures |r| == |s| && forall i :: 0 <= i < |s| ==> r[i] == s[i].id
  {
    seq(|s|, i requires 0 <= i < |s| => s[i].id)
  }

  function PhotoIds(s: seq<Photo>): (r: seq<string>)
    ensures |r| == |s| && forall i :: 0 <= i < |s| ==> r[i] == s[i].id
  {
    seq(|s|, i requires 0 <= i < |s| => s[i].id)
  }

  function AlbumIds(s: seq<Album>): (r: seq<string>)
    ensures |r| == |s| && forall i :: 0 <= i < |s| ==> r[i] == s[i].id
  {
    seq(|s|, i requires 0 <= i < |s| => s[i].id)
  }

  // ---------------------------------------------------------------- the matching predicates

  function HasSongId(id: string): Song -> bool { (s: Song) => s.id == id }
  function InAlbum(title: string): Song -> bool { (s: Song) => s.album == title }
  function InGenre(genre: string): Song -> bool { (s: Song) => s.genre == genre }
  function ByArtist(name: string): Album -> bool { (a: Album) => a.artist == name }
  function InPhotoAlbum(albumId: string): Photo -> bool { (p: Photo) => p.albumId == albumId }

  // ---------------------------------------------------------------- lookups

  /** The first built-in song with this id, if any. */
  function GetSongById(id: string): (r: Option<Song>)
    ensures r.Some? ==> r.value.id == id && r.value in Songs
    ensures r.None? <==> forall i :: 0 <= i < |Songs| ==> Songs[i].id != id
    ensures r.Some? ==> exists k :: 0 <= k < |Songs| && Songs[k] == r.value &&
                          forall j :: 0 <= j < k ==> Songs[j].id != id
  {
    match FindIndex(Songs, HasSongId(id))
    case None => None
    case Some(k) => Some(Songs[k])
  }

  function GetAlbumById(id: string): (r: Option<Album>)
    ensures r.Some? ==> r.value.id == id && r.value in Albums
    ensures r.None? ==> forall i :: 0 <= i < |Albums| ==> Albums[i].id != id
  {
    Find(Albums, (a: Album) => a.id == id)
  }

  function GetArtistById(id: string): (r: Option<Artist>)
    ensures r.Some? ==> r.value.id == id && r.value in Artists
    ensures r.None? ==> forall i :: 0 <= i < |Artists| ==> Artists[i].id != id
  {
    Find(Artists, (a: Artist) => a.id == id)
  }

  function GetArtistByName(name: string): (r: Option<Artist>)
    ensures r.Some? ==> r.value.name == name && r.value in Artists
    ensures r.None? ==> forall i :: 0 <= i < |Artists| ==> Artists[i].name != name
  {
    Find(Artists, (a: Artist) => a.name == name)
  }

  function GetPhotoById(id: string): (r: Option<Photo>)
    ensures r.Some? ==> r.value.id == id && r.value in Photos
    ensures r.None? ==> forall i :: 0 <= i < |Photos| ==> Photos[i].id != id
  {
    Find(Photos, (p: Photo) => p.id == id)
  }

  function GetPhotoAlbumById(id: string): (r: Option<PhotoAlbum>)
    ensures r.Some? ==> r.value.id == id && r.value in PhotoAlbums
    ensures r.None? ==> forall i :: 0 <= i < |PhotoAlbums| ==> PhotoAlbums[i].id != id
  {
    Find(PhotoAlbums, (a: PhotoAlbum) => a.id == id)
  }

  function AlbumsByArtist(artistName: string): (r: seq<Album>)
    ensures forall a :: a in r <==> a in Albums && a.artist == artistName
  {
    forall a ensures a in Filter(Albums, ByArtist(artistName)) <==> a in Albums && a.artist == artistName {
      FilterMembership(Albums, ByArtist(artistName), a);
    }
    Filter(Albums, ByArtist(artistName))
  }

  function SongsByAlbum(albumTitle: string): (r: seq<Song>)
    ensures forall s :: s in r <==> s in Songs && s.album == albumTitle
  {
    forall s ensures s in Filter(Songs, InAlbum(albumTitle)) <==> s in Songs && s.album == albumTitle {
      FilterMembership(Songs, InAlbum(albumTitle), s);
    }
    Filter(Songs, InAlbum(albumTitle))
  }

  function SongsByGenre(genre: string): (r: seq<Song>)
    ensures forall s :: s in r <==> s in Songs && s.genre == genre
  {
    forall s ensures s in Filter(Songs, InGenre(genre)) <==> s in Songs && s.genre == genre {
      FilterMembership(Songs, InGenre(genre), s);
    }
    Filter(Songs, InGenre(genre))
  }

  function PhotosByAlbum(albumId: string): (r: seq<Photo>)
    ensures forall p :: p in r <==> p in Photos && p.albumId == albumId
  {
    forall p ensures p in Filter(Photos, InPhotoAlbum(albumId)) <==> p in Photos && p.albumId == albumId {
      FilterMembership(Photos, InPhotoAlbum(albumId), p);
    }
    Filter(Photos, InPhotoAlbum(albumId))
  }

  predicate KnownSongId(id: string)
  {
    GetSongById(id).Some?
  }

  /** The songs the ids name, in the order of the ids, skipping ids no song carries. */
  function SongsByIds(ids: seq<string>): (r: seq<Song>)
    ensures |r| <= |ids|
    ensures forall s :: s in r ==> s in Songs
  {
    if ids == [] then []
    else match GetSongById(ids[0])
      case Some(s) => [s] + SongsByIds(ids[1..])
      case None => SongsByIds(ids[1..])
  }

  /** The ids of the found songs are the known ids, in order: unknown ids are dropped and nothing
      is reordered. */
  lemma {:induction false} SongsByIdsKeepsOrder(ids: seq<string>)
    ensures SongIds(SongsByIds(ids)) == Filter(ids, KnownSongId)
  {
    if ids != [] {
      SongsByIdsKeepsOrder(ids[1..]);
      var rest := SongsByIds(ids[1..]);
      match GetSongById(ids[0])
      case Some(s) =>
        assert SongIds([s] + rest) == [s.id] + SongIds(rest);
      case None =>
    }
  }

  lemma {:induction false} SongsByIdsAllKnown(ids: seq<string>)
    requires forall i :: 0 <= i < |ids| ==> KnownSongId(ids[i])
    ensures |SongsByIds(ids)| == |ids|
  {
    if ids != [] {
      SongsByIdsAllKnown(ids[1..]);
    }
  }

  // ---------------------------------------------------------------- consistency of the constants

  lemma SongIdsConcat(s: seq<Song>, t: seq<Song>)
    ensures SongIds(s + t) == SongIds(s) + SongIds(t)
  {
  }

  lemma PhotoIdsConcat(s: seq<Photo>, t: seq<Photo>)
    ensures PhotoIds(s + t) == PhotoIds(s) + PhotoIds(t)
  {
  }

  /** The filter over the whole song list, one album group at a time. */
  lemma SongsByAlbumGroups(title: string)
    ensures SongsByAlbum(title) ==
      Filter(MidnightDreamsSongs, InAlbum(title)) + Filter(SunsetBoulevardSongs, InAlbum(title)) +
      Filter(DeepBlueSongs, InAlbum(title)) + Filter(IntoTheWildSongs, InAlbum(title)) +
      Filter(UltravioletSongs, InAlbum(title)) + Filter(AutumnGoldSongs, InAlbum(title))
  {
    var p := InAlbum(title);
    FilterConcat(MidnightDreamsSongs, SunsetBoulevardSongs, p);
    FilterConcat(MidnightDreamsSongs + SunsetBoulevardSongs, DeepBlueSongs, p);
    FilterConcat(MidnightDreamsSongs + SunsetBoulevardSongs + DeepBlueSongs, IntoTheWildSongs, p);
    FilterConcat(MidnightDreamsSongs + SunsetBoulevardSongs + DeepBlueSongs + IntoTheWildSongs, UltravioletSongs, p);
    FilterConcat(MidnightDreamsSongs + SunsetBoulevardSongs + DeepBlueSongs + IntoTheWildSongs + UltravioletSongs,
                 AutumnGoldSongs, p);
  }

  /** Every song of the group belongs to the album with this title. */
  predicate AllOfAlbum(group: seq<Song>, title: string)
  {
    forall i :: 0 <= i < |group| ==> group[i].album == title
  }

  lemma GroupsAreAlbums()
    ensures AllOfAlbum(MidnightDreamsSongs, "Midnight Dreams") && AllOfAlbum(SunsetBoulevardSongs, "Sunset Boulevard")
    ensures AllOfAlbum(DeepBlueSongs, "Deep Blue") && AllOfAlbum(IntoTheWildSongs, "Into The Wild")
    ensures AllOfAlbum(UltravioletSongs, "Ultraviolet") && AllOfAlbum(AutumnGoldSongs, "Autumn Gold")
  {
  }

  /** A group whose songs all share one album filters to all of it or to nothing. */
  lemma UniformGroup(group: seq<Song>, album: string, title: string)
    requires AllOfAlbum(group, album)
    ensures Filter(group, InAlbum(title)) == if album == title then group else []
  {
    if album == title { FilterAll(group, InAlbum(title)); } else { FilterNone(group, InAlbum(title)); }
  }

  /** Filtering each album group by a title keeps exactly the group of that album. */
  lemma GroupFilters(title: string)
    ensures Filter(MidnightDreamsSongs, InAlbum(title)) + Filter(SunsetBoulevardSongs, InAlbum(title)) +
      Filter(DeepBlueSongs, InAlbum(title)) + Filter(IntoTheWildSongs, InAlbum(title)) +
      Filter(UltravioletSongs, InAlbum(title)) + Filter(AutumnGoldSongs, InAlbum(title)) ==
      (if title == "Midnight Dreams" then MidnightDreamsSongs else []) +
      (if title == "Sunset Boulevard" then SunsetBoulevardSongs else []) +
      (if title == "Deep Blue" then DeepBlueSongs else []) +
      (if title == "Into The Wild" then IntoTheWildSongs else []) +
      (if title == "Ultraviolet" then UltravioletSongs else []) +
      (if title == "Autumn Gold" then AutumnGoldSongs else [])
  {
    GroupsAreAlbums();
    UniformGroup(MidnightDreamsSongs, "Midnight Dreams", title);
    UniformGroup(SunsetBoulevardSongs, "Sunset Boulevard", title);
    UniformGroup(DeepBlueSongs, "Deep Blue", title);
    UniformGroup(IntoTheWildSongs, "Into The Wild", title);
    UniformGroup(UltravioletSongs, "Ultraviolet", title);
    UniformGroup(AutumnGoldSongs, "Autumn Gold", title);
  }

  /** The songs of one album are the album group that carries its title. */
  lemma SongsByAlbumIsGroup(title: string)
    ensures SongsByAlbum(title) ==
      (if title == "Midnight Dreams" then MidnightDreamsSongs else []) +
      (if title == "Sunset Boulevard" then SunsetBoulevardSongs else []) +
      (if title == "Deep Blue" then DeepBlueSongs else []) +
      (if title == "Into The Wild" then IntoTheWildSongs else []) +
      (if title == "Ultraviolet" then UltravioletSongs else []) +
      (if title == "Autumn Gold" then AutumnGoldSongs else [])
  {
    SongsByAlbumGroups(title);
    GroupFilters(title);
  }

  lemma MidnightDreamsMatches()
    ensures SongsByAlbum("Midnight Dreams") == MidnightDreamsSongs
  {
    var t := "Midnight Dreams";
    assert t != "Sunset Boulevard" && t != "Deep Blue" && t != "Into The Wild" && t != "Ultraviolet" && t != "Autumn Gold";
    SongsByAlbumIsGroup(t);
  }

  lemma SunsetBoulevardMatches()
    ensures SongsByAlbum("Sunset Boulevard") == SunsetBoulevardSongs
  {
    var t := "Sunset Boulevard";
    assert t != "Midnight Dreams" && t != "Deep Blue" && t != "Into The Wild" && t != "Ultraviolet" && t != "Autumn Gold";
    SongsByAlbumIsGroup(t);
  }

  lemma DeepBlueMatches()
    ensures SongsByAlbum("Deep Blue") == DeepBlueSongs
  {
    var t := "Deep Blue";
    assert t != "Midnight Dreams" && t != "Sunset Boulevard" && t != "Into The Wild" && t != "Ultraviolet" && t != "Autumn Gold";
    SongsByAlbumIsGroup(t);
  }

  lemma IntoTheWildMatches()
    ensures SongsByAlbum("Into The Wild") == IntoTheWildSongs
  {
    var t := "Into The Wild";
    assert t != "Midnight Dreams" && t != "Sunset Boulevard" && t != "Deep Blue" && t != "Ultraviolet" && t != "Autumn Gold";
    SongsByAlbumIsGroup(t);
  }

  lemma UltravioletMatches()
    ensures SongsByAlbum("Ultraviolet") == UltravioletSongs
  {
    var t := "Ultraviolet";
    assert t != "Midnight Dreams" && t != "Sunset Boulevard" && t != "Deep Blue" && t != "Into The Wild" && t != "Autumn Gold";
    SongsByAlbumIsGroup(t);
  }

  lemma AutumnGoldMatches()
    ensures SongsByAlbum("Autumn Gold") == AutumnGoldSongs
  {
    var t := "Autumn Gold";
    assert t != "Midnight Dreams" && t != "Sunset Boulevard" && t != "Deep Blue" && t != "Into The Wild" && t != "Ultraviolet";
    SongsByAlbumIsGroup(t);
  }

  lemma AlbumsListGroups()
    ensures Albums[0].title == "Midnight Dreams" && Albums[0].songs == SongIds(MidnightDreamsSongs)
    ensures Albums[1].title == "Sunset Boulevard" && Albums[1].songs == SongIds(SunsetBoulevardSongs)
    ensures Albums[2].title == "Deep Blue" && Albums[2].songs == SongIds(DeepBlueSongs)
    ensures Albums[3].title == "Into The Wild" && Albums[3].songs == SongIds(IntoTheWildSongs)
    ensures Albums[4].title == "Ultraviolet" && Albums[4].songs == SongIds(UltravioletSongs)
    ensures Albums[5].title == "Autumn Gold" && Albums[5].songs == SongIds(AutumnGoldSongs)
  {
  }

  /** Every album's song list is, in order, the ids of the songs whose album field is its title. */
  lemma AlbumSongsMatchLibrary()
    ensures forall i :: 0 <= i < |Albums| ==> Albums[i].songs == SongIds(SongsByAlbum(Albums[i].title))
  {
    forall i | 0 <= i < |Albums| ensures Albums[i].songs == SongIds(SongsByAlbum(Albums[i].title)) {
      AlbumsListGroups();
      if i == 0 {
        MidnightDreamsMatches();
      } else if i == 1 {
        SunsetBoulevardMatches();
      } else if i == 2 {
        DeepBlueMatches();
      } else if i == 3 {
        IntoTheWildMatches();
      } else if i == 4 {
        UltravioletMatches();
      } else {
        AutumnGoldMatches();
      }
    }
  }

  /** The ids of the built-in songs, album by album. */
  const AllSongIds: seq<string> :=
    ["s1", "s2", "s3", "s4"] + ["s5", "s6", "s7", "s8"] + ["s9", "s10", "s11", "s12"] +
    ["s13", "s14", "s15", "s16"] + ["s17", "s18", "s19", "s20"] + ["s21", "s22", "s23", "s24"]

  lemma GroupIds()
    ensures SongIds(MidnightDreamsSongs) == ["s1", "s2", "s3", "s4"]
    ensures SongIds(SunsetBoulevardSongs) == ["s5", "s6", "s7", "s8"]
    ensures SongIds(DeepBlueSongs) == ["s9", "s10", "s11", "s12"]
    ensures SongIds(IntoTheWildSongs) == ["s13", "s14", "s15", "s16"]
    ensures SongIds(UltravioletSongs) == ["s17", "s18", "s19", "s20"]
    ensures SongIds(AutumnGoldSongs) == ["s21", "s22", "s23", "s24"]
  {
  }

  lemma SongIdsOfLibrary()
    ensures SongIds(Songs) == AllSongIds
  {
    var a, b, c, d, e, f := MidnightDreamsSongs, SunsetBoulevardSongs, DeepBlueSongs, IntoTheWildSongs, UltravioletSongs, AutumnGoldSongs;
    SongIdsConcat(a, b);
    SongIdsConcat(a + b, c);
    SongIdsConcat(a + b + c, d);
    SongIdsConcat(a + b + c + d, e);
    SongIdsConcat(a + b + c + d + e, f);
    GroupIds();
  }

  lemma KnownSongIdIsListed(id: string)
    ensures KnownSongId(id) <==> id in AllSongIds
  {
    SongIdsOfLibrary();
    if id in AllSongIds {
      var k :| 0 <= k < |AllSongIds| && AllSongIds[k] == id;
      assert Songs[k].id == id;
    }
  }

  /** Every playlist names only existing songs, so its song list loses nothing when looked up. */
  lemma PlaylistsNameKnownSongs()
    ensures forall p :: p in Playlists ==> forall i :: 0 <= i < |p.songs| ==> KnownSongId(p.songs[i])
    ensures forall p :: p in Playlists ==> |SongsByIds(p.songs)| == |p.songs|
  {
    forall id | id in AllSongIds ensures KnownSongId(id) { KnownSongIdIsListed(id); }
    forall p | p in Playlists ensures |SongsByIds(p.songs)| == |p.songs| {
      SongsByIdsAllKnown(p.songs);
    }
  }

  /** Every photo of the group belongs to the photo album with this id. */
  predicate AllOfPhotoAlbum(group: seq<Photo>, id: string)
  {
    forall i :: 0 <= i < |group| ==> group[i].albumId == id
  }

  lemma UniformPhotoGroup(group: seq<Photo>, id: string, albumId: string)
    requires AllOfPhotoAlbum(group, id)
    ensures Filter(group, InPhotoAlbum(albumId)) == if id == albumId then group else []
  {
    if id == albumId {
      FilterAll(group, InPhotoAlbum(albumId));
    } else {
      FilterNone(group, InPhotoAlbum(albumId));
    }
  }

  /** The filter over all photos, one album group at a time. */
  lemma PhotosByAlbumGroups(albumId: string)
    ensures PhotosByAlbum(albumId) ==
      Filter(NaturePhotos, InPhotoAlbum(albumId)) + Filter(CityPhotos, InPhotoAlbum(albumId)) +
      Filter(TravelPhotos, InPhotoAlbum(albumId))
  {
    var p := InPhotoAlbum(albumId);
    FilterConcat(NaturePhotos, CityPhotos, p);
    FilterConcat(NaturePhotos + CityPhotos, TravelPhotos, p);
  }

  lemma NatureFilter(albumId: string)
    ensures Filter(NaturePhotos, InPhotoAlbum(albumId)) == if albumId == "pa1" then NaturePhotos else []
  {
    assert AllOfPhotoAlbum(NaturePhotos, "pa1");
    UniformPhotoGroup(NaturePhotos, "pa1", albumId);
  }

  lemma CityFilter(albumId: string)
    ensures Filter(CityPhotos, InPhotoAlbum(albumId)) == if albumId == "pa2" then CityPhotos else []
  {
    assert AllOfPhotoAlbum(CityPhotos, "pa2");
    UniformPhotoGroup(CityPhotos, "pa2", albumId);
  }

  lemma TravelFilter(albumId: string)
    ensures Filter(TravelPhotos, InPhotoAlbum(albumId)) == if albumId == "pa3" then TravelPhotos else []
  {
    assert AllOfPhotoAlbum(TravelPhotos, "pa3");
    UniformPhotoGroup(TravelPhotos, "pa3", albumId);
  }

  lemma PhotosByAlbumIsGroup(albumId: string)
    ensures PhotosByAlbum(albumId) ==
      (if albumId == "pa1" then NaturePhotos else []) +
      (if albumId == "pa2" then CityPhotos else []) +
      (if albumId == "pa3" then TravelPhotos else [])
  {
    PhotosByAlbumGroups(albumId);
    NatureFilter(albumId);
    CityFilter(albumId);
    TravelFilter(albumId);
  }

  lemma PhotoAlbumsListGroups()
    ensures PhotoAlbums[0].id == "pa1" && PhotoAlbums[0].photos == PhotoIds(NaturePhotos)
    ensures PhotoAlbums[1].id == "pa2" && PhotoAlbums[1].photos == PhotoIds(CityPhotos)
    ensures PhotoAlbums[2].id == "pa3" && PhotoAlbums[2].photos == PhotoIds(TravelPhotos)
  {
  }

  /** Every photo album lists, in order, the ids of the photos that name it as their album. */
  lemma PhotoAlbumsMatchLibrary()
    ensures forall a :: a in PhotoAlbums ==> a.photos == PhotoIds(PhotosByAlbum(a.id))
  {
    PhotoAlbumsListGroups();
    PhotosByAlbumIsGroup("pa1");
    PhotosByAlbumIsGroup("pa2");
    PhotosByAlbumIsGroup("pa3");
    assert PhotosByAlbum("pa1") == NaturePhotos;
    assert PhotosByAlbum("pa2") == CityPhotos;
    assert PhotosByAlbum("pa3") == TravelPhotos;
    forall a | a in PhotoAlbums ensures a.photos == PhotoIds(PhotosByAlbum(a.id)) {
      assert a == PhotoAlbums[0] || a == PhotoAlbums[1] || a == PhotoAlbums[2];
    }
  }
}
