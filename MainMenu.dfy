/**
 * The menu screens: which rows each screen lists, what select does on a menu or setting
 * screen, the preselected row of a setting screen, and how many rows bound the wheel.
 *
 * Select is decided by `SelectCommand`, a value naming the store actions to run, and
 * `OnSelect` runs them on the store record; `HandleSelect` runs them on the store object.
 */
module MainMenu {
  import opened Wrappers
  import opened Types
  import opened Text
  import opened Seqs
  import MockData
  import SM = StoreModel
  import Store
  import Shell

  /** A row of a menu list. */
  datatype MenuItemData = MenuItemData(id: string, title: string, hasSubmenu: bool, rightText: Option<string>)

  function Entry(id: string, title: string): MenuItemData { MenuItemData(id, title, true, None) }

  /** `formatDuration`: whole minutes, a colon and the seconds padded to two digits. */
  function FormatDuration(seconds: int): (r: string)
    ensures seconds >= 0 ==> ParseMinutesSeconds(r) == Some(seconds)
  {
    assert seconds >= 0 ==> ParseMinutesSeconds(MinutesSeconds(seconds)) == Some(seconds) by {
      if seconds >= 0 {
        MinutesSecondsRoundTrip(seconds);
      }
    }
    MinutesSeconds(seconds)
  }

  // ---------------------------------------------------------------- rows

  function SongRow(s: Song): MenuItemData { MenuItemData("song-" + s.id, s.title, false, Some(s.artist)) }

  function AlbumSongRow(s: Song): MenuItemData { MenuItemData("song-" + s.id, s.title, false, Some(FormatDuration(s.duration))) }

  function GenreRow(g: string): MenuItemData { Entry("genre-" + g, g) }

  function SongRows(songs: seq<Song>): (r: seq<MenuItemData>)
    ensures |r| == |songs| && forall i :: 0 <= i < |songs| ==> r[i] == SongRow(songs[i])
  {
    seq(|songs|, i requires 0 <= i < |songs| => SongRow(songs[i]))
  }

  function AlbumSongRows(songs: seq<Song>): (r: seq<MenuItemData>)
    ensures |r| == |songs| && forall i :: 0 <= i < |songs| ==> r[i] == AlbumSongRow(songs[i])
  {
    seq(|songs|, i requires 0 <= i < |songs| => AlbumSongRow(songs[i]))
  }

  function PlaylistRows(ps: seq<Playlist>): seq<MenuItemData>
  {
    seq(|ps|, i requires 0 <= i < |ps| => MenuItemData("playlist-" + ps[i].id, ps[i].name, true, Some(NatToString(|ps[i].songs|))))
  }

  function ArtistRows(xs: seq<Artist>): seq<MenuItemData>
  {
    seq(|xs|, i requires 0 <= i < |xs| => Entry("artist-" + xs[i].id, xs[i].name))
  }

  function AlbumRows(xs: seq<Album>): seq<MenuItemData>
  {
    seq(|xs|, i requires 0 <= i < |xs| => MenuItemData("album-" + xs[i].id, xs[i].title, true, Some(xs[i].artist)))
  }

  function ArtistAlbumRows(xs: seq<Album>): seq<MenuItemData>
  {
    seq(|xs|, i requires 0 <= i < |xs| => MenuItemData("album-" + xs[i].id, xs[i].title, true, Some(IntToString(xs[i].year))))
  }

  function GenreRows(gs: seq<string>): seq<MenuItemData>
  {
    seq(|gs|, i requires 0 <= i < |gs| => GenreRow(gs[i]))
  }

  function PhotoAlbumRows(xs: seq<PhotoAlbum>): seq<MenuItemData>
  {
    seq(|xs|, i requires 0 <= i < |xs| => MenuItemData("photoAlbum-" + xs[i].id, xs[i].name, true, Some(NatToString(|xs[i].photos|))))
  }

  function PhotoRows(ps: seq<Photo>): seq<MenuItemData>
  {
    seq(|ps|, i requires 0 <= i < |ps| => MenuItemData("photo-" + ps[i].id, ps[i].name, false, Some(NatToString(i + 1))))
  }

  function ShuffleText(m: ShuffleMode): string
  {
    match m
    case ShuffleOff => "Off"
    case ShuffleSongs => "songs"
    case ShuffleAlbums => "albums"
  }

  function RepeatText(m: RepeatMode): string
  {
    match m
    case RepeatOff => "Off"
    case RepeatOne => "one"
    case RepeatAll => "all"
  }

  function MainRows(currentSong: Option<Song>): seq<MenuItemData>
  {
    [Entry("music", "Music"), Entry("photos", "Photos"), Entry("extras", "Extras"), Entry("settings", "Settings"),
     MenuItemData("shuffle", "Shuffle Songs", false, None)] +
    (if currentSong.Some? then [Entry("nowPlaying", "Now Playing")] else [])
  }

  function MusicRows(userSongs: seq<Song>): seq<MenuItemData>
  {
    [Entry("playlists", "Playlists"), Entry("artists", "Artists"), Entry("albums", "Albums"), Entry("songs", "Songs"),
     Entry("genres", "Genres")] +
    (if |userSongs| > 0 then [MenuItemData("myMusic", "My Music", true, Some(NatToString(|userSongs|)))] else []) +
    [Entry("addMusic", "Add Music...")]
  }

  function SettingsRows(settings: Settings): seq<MenuItemData>
  {
    [Entry("about", "About"),
     MenuItemData("settingShuffle", "Shuffle", true, Some(ShuffleText(settings.shuffle))),
     MenuItemData("settingRepeat", "Repeat", true, Some(RepeatText(settings.repeat))),
     MenuItemData("settingBacklight", "Backlight Timer", true,
                  Some(if settings.backlightTimer == 0 then "Always On" else IntToString(settings.backlightTimer) + "s")),
     Entry("settingBrightness", "Brightness"),
     MenuItemData("settingClicker", "Clicker", true, Some(if settings.clicker then "On" else "Off"))]
  }

  /** The rows of a list screen reached by selecting an artist, album, playlist, genre or photo
      album: the payload the screen was opened with picks them. */
  function DynamicRows(screen: NavigationItem): seq<MenuItemData>
  {
    var id := screen.screenId;
    if StartsWith(id, "artist-") then
      (match screen.data case ArtistData(name) => ArtistAlbumRows(MockData.AlbumsByArtist(name)) case _ => [])
    else if StartsWith(id, "album-") then
      (match screen.data case AlbumData(title) => AlbumSongRows(MockData.SongsByAlbum(title)) case _ => [])
    else if StartsWith(id, "playlist-") then
      (match screen.data case PlaylistData(ids) => SongRows(MockData.SongsByIds(ids)) case _ => [])
    else if StartsWith(id, "genre-") then
      (match screen.data case GenreData(genre) => SongRows(MockData.SongsByGenre(genre)) case _ => [])
    else if StartsWith(id, "photoAlbum-") then
      (match screen.data case PhotoAlbumData(albumId) => PhotoRows(MockData.PhotosByAlbum(albumId)) case _ => [])
    else []
  }

  /** The rows of the current screen; only menu screens have rows. */
  function MenuItems(screen: NavigationItem, currentSong: Option<Song>, settings: Settings, userSongs: seq<Song>): seq<MenuItemData>
  {
    if screen.screenType != MenuType then []
    else
      var id := screen.screenId;
      if id == "main" then MainRows(currentSong)
      else if id == "music" then MusicRows(userSongs)
      else if id == "playlists" then PlaylistRows(MockData.Playlists)
      else if id == "artists" then ArtistRows(MockData.Artists)
      else if id == "albums" then AlbumRows(MockData.Albums)
      else if id == "songs" then SongRows(MockData.Songs + userSongs)
      else if id == "myMusic" then SongRows(userSongs)
      else if id == "genres" then GenreRows(MockData.Genres)
      else if id == "photos" then [Entry("photoLibrary", "Photo Library")] + PhotoAlbumRows(MockData.PhotoAlbums)
      else if id == "extras" then [Entry("clock", "Clock"), Entry("stopwatch", "Stopwatch"), Entry("timer", "Timer")]
      else if id == "settings" then SettingsRows(settings)
      else DynamicRows(screen)
  }

  function Items(s: SM.StoreState): seq<MenuItemData>
  {
    MenuItems(s.nav.currentScreen, s.player.currentSong, s.settings, s.library.userSongs)
  }

  predicate HasRow(rows: seq<MenuItemData>, id: string)
  {
    exists i :: 0 <= i < |rows| && rows[i].id == id
  }

  /** The main menu offers "Now Playing" exactly when a song is loaded, as its sixth and last row. */
  lemma NowPlayingRowIffSong(currentSong: Option<Song>)
    ensures HasRow(MainRows(currentSong), "nowPlaying") <==> currentSong.Some?
    ensures |MainRows(currentSong)| == if currentSong.Some? then 6 else 5
  {
    if currentSong.Some? {
      assert MainRows(currentSong)[5].id == "nowPlaying";
    }
  }

  /** The music menu offers "My Music", showing how many songs were added, exactly when there are
      any; "Add Music..." is always its last row. */
  lemma MyMusicRowIffUserSongs(userSongs: seq<Song>)
    ensures HasRow(MusicRows(userSongs), "myMusic") <==> |userSongs| > 0
    ensures |userSongs| > 0 ==> MusicRows(userSongs)[5] == MenuItemData("myMusic", "My Music", true, Some(NatToString(|userSongs|)))
    ensures MusicRows(userSongs)[|MusicRows(userSongs)| - 1].id == "addMusic"
  {
    if |userSongs| > 0 {
      assert MusicRows(userSongs)[5].id == "myMusic";
    }
  }

  /** A song row's id is "song-" and the song's id, and stripping the prefix gives the id back;
      genre rows round-trip the same way. */
  lemma RowIdsRoundTrip(s: Song, genre: string)
    ensures StartsWith(SongRow(s).id, "song-") && RemovePrefix(SongRow(s).id, "song-") == s.id
    ensures StartsWith(AlbumSongRow(s).id, "song-") && RemovePrefix(AlbumSongRow(s).id, "song-") == s.id
    ensures StartsWith(GenreRow(genre).id, "genre-") && RemovePrefix(GenreRow(genre).id, "genre-") == genre
  {
    PrefixRoundTrip("song-", s.id);
    PrefixRoundTrip("genre-", genre);
  }

  // ---------------------------------------------------------------- settings screens

  datatype SettingKind = ShuffleSetting | RepeatSetting | BacklightSetting | BrightnessSetting | ClickerSetting

  const ShuffleOptions: seq<ShuffleMode> := [ShuffleOff, ShuffleSongs, ShuffleAlbums]
  const RepeatOptions: seq<RepeatMode> := [RepeatOff, RepeatOne, RepeatAll]
  /** Backlight timeouts in seconds; 0 is "Always On". */
  const BacklightOptions: seq<int> := [0, 2, 5, 10, 15, 20]

  /** The `settingType` a setting screen carries, which is also its screen id. */
  function KindName(k: SettingKind): string
  {
    match k
    case ShuffleSetting => "shuffle"
    case RepeatSetting => "repeat"
    case BacklightSetting => "backlight"
    case BrightnessSetting => "brightness"
    case ClickerSetting => "clicker"
  }

  /** The option screen a `settingType` names; "about" and unknown types name none. */
  function ParseKind(settingType: string): Option<SettingKind>
  {
    if settingType == "shuffle" then Some(ShuffleSetting)
    else if settingType == "repeat" then Some(RepeatSetting)
    else if settingType == "backlight" then Some(BacklightSetting)
    else if settingType == "brightness" then Some(BrightnessSetting)
    else if settingType == "clicker" then Some(ClickerSetting)
    else None
  }

  lemma KindNameRoundTrip(k: SettingKind)
    ensures ParseKind(KindName(k)) == Some(k)
    ensures KindName(k) != "about"
  {
  }

  function KindTitle(k: SettingKind): string
  {
    match k
    case ShuffleSetting => "Shuffle"
    case RepeatSetting => "Repeat"
    case BacklightSetting => "Backlight"
    case BrightnessSetting => "Brightness"
    case ClickerSetting => "Clicker"
  }

  /** The position of the first option equal to `value`, or 0 when no option is. */
  function IndexOr0<T(==)>(options: seq<T>, value: T): (i: nat)
    ensures |options| > 0 ==> i < |options|
    ensures value in options ==> options[i] == value
    ensures value !in options ==> i == 0
  {
    match FindIndex(options, (x: T) => x == value)
    case Some(i) => i
    case None => 0
  }

  /** The row a setting screen opens on: the current value's (brightness opens on its own value). */
  function Preselected(k: SettingKind, settings: Settings): int
  {
    match k
    case ShuffleSetting => IndexOr0(ShuffleOptions, settings.shuffle)
    case RepeatSetting => IndexOr0(RepeatOptions, settings.repeat)
    case BacklightSetting => IndexOr0(BacklightOptions, settings.backlightTimer)
    case BrightnessSetting => settings.brightness
    case ClickerSetting => if settings.clicker then 0 else 1
  }

  function SettingScreen(k: SettingKind, settings: Settings): NavigationItem
  {
    NavigationItem(SettingsType, KindName(k), KindTitle(k), Preselected(k, settings), SettingData(KindName(k)))
  }

  /** What select changes on the option screen `k` at row `index`. Brightness is not changed here
      but by the brightness screen itself (module SettingsScreen). */
  function SettingPatch(k: SettingKind, index: int): Option<SettingsPatch>
  {
    match k
    case ShuffleSetting =>
      if 0 <= index < |ShuffleOptions| then Some(EmptyPatch.(shuffle := Some(ShuffleOptions[index]))) else None
    case RepeatSetting =>
      if 0 <= index < |RepeatOptions| then Some(EmptyPatch.(repeat := Some(RepeatOptions[index]))) else None
    case BacklightSetting =>
      if 0 <= index < |BacklightOptions| then Some(EmptyPatch.(backlightTimer := Some(BacklightOptions[index]))) else None
    case ClickerSetting => Some(EmptyPatch.(clicker := Some(index == 0)))
    case BrightnessSetting => None
  }

  /** Row `i` of each option screen selects option `i`; on the clicker screen row 0 is "On". */
  lemma SettingRowsSelectOptions(index: int)
    ensures 0 <= index < 3 ==>
              SettingPatch(ShuffleSetting, index) == Some(EmptyPatch.(shuffle := Some([ShuffleOff, ShuffleSongs, ShuffleAlbums][index]))) &&
              SettingPatch(RepeatSetting, index) == Some(EmptyPatch.(repeat := Some([RepeatOff, RepeatOne, RepeatAll][index])))
    ensures 0 <= index < 6 ==>
              SettingPatch(BacklightSetting, index) == Some(EmptyPatch.(backlightTimer := Some([0, 2, 5, 10, 15, 20][index])))
    ensures SettingPatch(ClickerSetting, index) == Some(EmptyPatch.(clicker := Some(index == 0)))
    ensures SettingPatch(BrightnessSetting, index) == None
  {
  }

  // ---------------------------------------------------------------- select

  /** The store actions a select asks for. */
  datatype Command =
    | Stay
    | Open(screen: NavigationItem)
    | ShuffleThenOpen(screen: NavigationItem)
    | PlayThenOpen(song: Song, queue: seq<Song>, screen: NavigationItem)
    | PhotoThenOpen(albumId: string, index: int, screen: NavigationItem)
    | Configure(patch: SettingsPatch)

  function MenuScreen(id: string, title: string, data: ScreenData): NavigationItem
  {
    NavigationItem(MenuType, id, title, 0, data)
  }

  const NowPlayingScreen := NavigationItem(NowPlayingType, "nowPlaying", "Now Playing", 0, NoData)

  /** The play queue for a song selected on `screen`: the list the screen shows, or the song alone. */
  function QueueFor(screen: NavigationItem, song: Song, userSongs: seq<Song>): seq<Song>
  {
    var id := screen.screenId;
    if id == "songs" then MockData.Songs + userSongs
    else if id == "myMusic" then userSongs
    else if StartsWith(id, "album-") then
      (match screen.data case AlbumData(title) => MockData.SongsByAlbum(title) case _ => [])
    else if StartsWith(id, "playlist-") then
      (match screen.data case PlaylistData(ids) => MockData.SongsByIds(ids) case _ => [])
    else if StartsWith(id, "genre-") then
      (match screen.data case GenreData(genre) => MockData.SongsByGenre(genre) case _ => [])
    else [song]
  }

  /** The queue is the list the screen shows: every song of the library on "songs", the added songs
      on "myMusic", the album, playlist or genre on their screens, and the song alone elsewhere. */
  lemma QueueChoice(screen: NavigationItem, song: Song, userSongs: seq<Song>)
    ensures screen.screenId == "songs" ==> QueueFor(screen, song, userSongs) == MockData.Songs + userSongs
    ensures screen.screenId == "myMusic" ==> QueueFor(screen, song, userSongs) == userSongs
    ensures StartsWith(screen.screenId, "album-") && screen.data.AlbumData? ==>
              QueueFor(screen, song, userSongs) == MockData.SongsByAlbum(screen.data.albumTitle)
    ensures StartsWith(screen.screenId, "playlist-") && screen.data.PlaylistData? ==>
              QueueFor(screen, song, userSongs) == MockData.SongsByIds(screen.data.songIds)
    ensures StartsWith(screen.screenId, "genre-") && screen.data.GenreData? ==>
              QueueFor(screen, song, userSongs) == MockData.SongsByGenre(screen.data.genre)
    ensures screen.screenId != "songs" && screen.screenId != "myMusic" && !StartsWith(screen.screenId, "album-") &&
            !StartsWith(screen.screenId, "playlist-") && !StartsWith(screen.screenId, "genre-") ==>
              QueueFor(screen, song, userSongs) == [song]
  {
    var id := screen.screenId;
    if StartsWith(id, "album-") || StartsWith(id, "playlist-") || StartsWith(id, "genre-") {
      assert id[0] in {'a', 'p', 'g'};
      assert id != "songs" && id != "myMusic" by {
        assert "songs"[0] == 's' && "myMusic"[0] == 'm';
      }
      if StartsWith(id, "playlist-") {
        NotPrefix(id, "album-");
      } else if StartsWith(id, "genre-") {
        NotPrefix(id, "album-");
        NotPrefix(id, "playlist-");
      }
    }
  }

  function ArtistRowIs(id: string): Artist -> bool { (a: Artist) => "artist-" + a.id == id }
  function AlbumRowIs(id: string): Album -> bool { (a: Album) => "album-" + a.id == id }
  function PlaylistRowIs(id: string): Playlist -> bool { (p: Playlist) => "playlist-" + p.id == id }
  function PhotoRowIs(id: string): Photo -> bool { (p: Photo) => "photo-" + p.id == id }
  function PhotoAlbumIs(id: string): PhotoAlbum -> bool { (a: PhotoAlbum) => a.id == id }

  function ExtraScreen(id: string, screenType: ScreenType, title: string): NavigationItem
  {
    NavigationItem(screenType, id, title, 0, ModeData(id))
  }

  /** Select on a row with a fixed id (one without a dash). */
  function FixedCommand(itemId: string, settings: Settings): Command
  {
    if itemId == "music" then Open(MenuScreen("music", "Music", NoData))
    else if itemId == "photos" then Open(MenuScreen("photos", "Photos", NoData))
    else if itemId == "extras" then Open(MenuScreen("extras", "Extras", NoData))
    else if itemId == "settings" then Open(MenuScreen("settings", "Settings", NoData))
    else if itemId == "shuffle" then ShuffleThenOpen(NowPlayingScreen)
    else if itemId == "nowPlaying" then Open(NowPlayingScreen)
    else if itemId == "playlists" then Open(MenuScreen("playlists", "Playlists", NoData))
    else if itemId == "artists" then Open(MenuScreen("artists", "Artists", NoData))
    else if itemId == "albums" then Open(MenuScreen("albums", "Albums", NoData))
    else if itemId == "songs" then Open(MenuScreen("songs", "Songs", NoData))
    else if itemId == "genres" then Open(MenuScreen("genres", "Genres", NoData))
    else if itemId == "myMusic" then Open(MenuScreen("myMusic", "My Music", NoData))
    else if itemId == "addMusic" then Open(NavigationItem(MusicUploadType, "addMusic", "Add Music", 0, NoData))
    else if itemId == "photoLibrary" then
      PhotoThenOpen("pa1", 0, NavigationItem(PhotoViewerType, "photoLibrary", "Photo Library", 0, PhotoAlbumData("pa1")))
    else if itemId == "clock" then Open(ExtraScreen("clock", ClockType, "Clock"))
    else if itemId == "stopwatch" then Open(ExtraScreen("stopwatch", StopwatchType, "Stopwatch"))
    else if itemId == "timer" then Open(ExtraScreen("timer", TimerType, "Timer"))
    else if itemId == "about" then Open(NavigationItem(SettingsType, "about", "About", 0, SettingData("about")))
    else if itemId == "settingShuffle" then Open(SettingScreen(ShuffleSetting, settings))
    else if itemId == "settingRepeat" then Open(SettingScreen(RepeatSetting, settings))
    else if itemId == "settingBacklight" then Open(SettingScreen(BacklightSetting, settings))
    else if itemId == "settingBrightness" then Open(SettingScreen(BrightnessSetting, settings))
    else if itemId == "settingClicker" then Open(SettingScreen(ClickerSetting, settings))
    else Stay
  }

  /** Select on a song row: play the first song with the id the row carries, if there is one. */
  function SongCommand(songId: string, screen: NavigationItem, userSongs: seq<Song>): Command
  {
    match Find(MockData.Songs + userSongs, MockData.HasSongId(songId))
    case Some(song) => PlayThenOpen(song, QueueFor(screen, song, userSongs), NowPlayingScreen)
    case None => Stay
  }

  /** Select on a row whose id is a prefix and the id of a library entry. */
  function LinkCommand(itemId: string, screen: NavigationItem, userSongs: seq<Song>): Command
  {
    if StartsWith(itemId, "artist-") then
      (match Find(MockData.Artists, ArtistRowIs(itemId))
       case Some(a) => Open(MenuScreen(itemId, a.name, ArtistData(a.name)))
       case None => Stay)
    else if StartsWith(itemId, "album-") then
      (match Find(MockData.Albums, AlbumRowIs(itemId))
       case Some(a) => Open(MenuScreen(itemId, a.title, AlbumData(a.title)))
       case None => Stay)
    else if StartsWith(itemId, "playlist-") then
      (match Find(MockData.Playlists, PlaylistRowIs(itemId))
       case Some(p) => Open(MenuScreen(itemId, p.name, PlaylistData(p.songs)))
       case None => Stay)
    else if StartsWith(itemId, "genre-") then
      var genre := RemovePrefix(itemId, "genre-");
      Open(MenuScreen(itemId, genre, GenreData(genre)))
    else if StartsWith(itemId, "song-") then SongCommand(RemovePrefix(itemId, "song-"), screen, userSongs)
    else if StartsWith(itemId, "photoAlbum-") then
      var albumId := RemovePrefix(itemId, "photoAlbum-");
      var title := match Find(MockData.PhotoAlbums, PhotoAlbumIs(albumId))
                   case Some(a) => if a.name == "" then "Album" else a.name
                   case None => "Album";
      Open(MenuScreen(itemId, title, PhotoAlbumData(albumId)))
    else if StartsWith(itemId, "photo-") then
      (match screen.data
       case PhotoAlbumData(albumId) =>
         var index := FindIndex(MockData.PhotosByAlbum(albumId), PhotoRowIs(itemId));
         PhotoThenOpen(albumId, if index.Some? then index.value else 0,
                       NavigationItem(PhotoViewerType, "photo", "Photo", 0, PhotoAlbumData(albumId)))
       case _ => Stay)
    else Stay
  }

  /** What selecting the row with id `itemId` on the menu `screen` asks for. No fixed id contains
      a dash and every prefixed one does, so testing for the dash first keeps the source's order. */
  function ItemCommand(itemId: string, screen: NavigationItem, settings: Settings, userSongs: seq<Song>): Command
  {
    if '-' in itemId then LinkCommand(itemId, screen, userSongs) else FixedCommand(itemId, settings)
  }

  /** Select on a setting screen: an option screen sets the option of the selected row. */
  function SettingCommand(data: ScreenData, selectedIndex: int): Command
  {
    match data
    case SettingData(settingType) =>
      (match ParseKind(settingType)
       case Some(k) => (match SettingPatch(k, selectedIndex) case Some(p) => Configure(p) case None => Stay)
       case None => Stay)
    case _ => Stay
  }

  /** What select asks for on the current screen: nothing on the photo viewer or on a menu with
      no row at the selected index, the option on a setting screen, the row's action on a menu. */
  function SelectCommand(screen: NavigationItem, selectedIndex: int, settings: Settings, currentSong: Option<Song>,
                         userSongs: seq<Song>): Command
  {
    if screen.screenType == PhotoViewerType then Stay
    else if screen.screenType == SettingsType then SettingCommand(screen.data, selectedIndex)
    else if screen.screenType != MenuType then Stay
    else
      var items := MenuItems(screen, currentSong, settings, userSongs);
      if 0 <= selectedIndex < |items| then ItemCommand(items[selectedIndex].id, screen, settings, userSongs) else Stay
  }

  function CommandOf(s: SM.StoreState): Command
  {
    SelectCommand(s.nav.currentScreen, s.nav.selectedIndex, s.settings, s.player.currentSong, s.library.userSongs)
  }

  /** The store after the actions of `c`; `shuffled` is the order shuffle play picks. */
  function Apply(s: SM.StoreState, c: Command, shuffled: seq<Song>): SM.StoreState
    requires multiset(shuffled) == multiset(s.library.userSongs)
  {
    match c
    case Stay => s
    case Open(screen) => SM.NavigateTo(s, screen)
    case ShuffleThenOpen(screen) => SM.NavigateTo(SM.ShufflePlay(s, shuffled), screen)
    case PlayThenOpen(song, queue, screen) => SM.NavigateTo(SM.PlaySong(s, song, Some(queue)), screen)
    case PhotoThenOpen(albumId, index, screen) => SM.NavigateTo(SM.SetCurrentPhoto(s, albumId, index), screen)
    case Configure(patch) => SM.UpdateSettings(s, patch)
  }

  function OnSelect(s: SM.StoreState, shuffled: seq<Song>): SM.StoreState
    requires multiset(shuffled) == multiset(s.library.userSongs)
  {
    Apply(s, CommandOf(s), shuffled)
  }

  // ---------------------------------------------------------------- properties of select

  /** Select does nothing on a menu without a row at the selected index, nor on the photo viewer. */
  lemma SelectWithoutRowDoesNothing(s: SM.StoreState, shuffled: seq<Song>)
    requires multiset(shuffled) == multiset(s.library.userSongs)
    requires s.nav.currentScreen.screenType == PhotoViewerType ||
             (s.nav.currentScreen.screenType == MenuType && !(0 <= s.nav.selectedIndex < |Items(s)|))
    ensures OnSelect(s, shuffled) == s
  {
  }

  /** The option at the preselected row is the current value, except a backlight timeout that is
      not among the options. */
  lemma PreselectedPatchKeeps(k: SettingKind, settings: Settings)
    ensures var c := SettingCommand(SettingData(KindName(k)), Preselected(k, settings));
            (k == BacklightSetting && settings.backlightTimer !in BacklightOptions ==>
               c.Configure? && ApplyPatch(settings, c.patch) == settings.(backlightTimer := 0)) &&
            (k == BrightnessSetting ==> c == Stay) &&
            (k != BrightnessSetting && !(k == BacklightSetting && settings.backlightTimer !in BacklightOptions) ==>
               c.Configure? && ApplyPatch(settings, c.patch) == settings)
  {
    KindNameRoundTrip(k);
    match k
    case ShuffleSetting =>
      match settings.shuffle {
        case ShuffleOff => assert ShuffleOptions[0] == ShuffleOff;
        case ShuffleSongs => assert ShuffleOptions[1] == ShuffleSongs;
        case ShuffleAlbums => assert ShuffleOptions[2] == ShuffleAlbums;
      }
    case RepeatSetting =>
      match settings.repeat {
        case RepeatOff => assert RepeatOptions[0] == RepeatOff;
        case RepeatOne => assert RepeatOptions[1] == RepeatOne;
        case RepeatAll => assert RepeatOptions[2] == RepeatAll;
      }
    case BacklightSetting =>
    case BrightnessSetting =>
    case ClickerSetting =>
  }

  /** Opening a setting preselects the current value, so selecting straight away leaves the
      settings as they were; a backlight timeout that is not among the options is replaced by
      "Always On". */
  lemma PreselectionKeepsSetting(s: SM.StoreState, k: SettingKind, shuffled: seq<Song>)
    requires multiset(shuffled) == multiset(s.library.userSongs)
    ensures var t := SM.NavigateTo(s, SettingScreen(k, s.settings));
            var u := OnSelect(t, shuffled);
            (k == BacklightSetting && s.settings.backlightTimer !in BacklightOptions ==>
               u.settings == s.settings.(backlightTimer := 0)) &&
            (!(k == BacklightSetting && s.settings.backlightTimer !in BacklightOptions) ==> u.settings == s.settings) &&
            u.nav == t.nav
  {
    var t := SM.NavigateTo(s, SettingScreen(k, s.settings));
    assert t.nav.currentScreen == SettingScreen(k, s.settings);
    assert t.library == s.library && t.settings == s.settings;
    KindNameRoundTrip(k);
    assert CommandOf(t) == SettingCommand(SettingData(KindName(k)), Preselected(k, s.settings));
    PreselectedPatchKeeps(k, s.settings);
  }

  lemma NotPrefix(s: string, prefix: string)
    requires |s| > 0 && |prefix| > 0 && s[0] != prefix[0]
    ensures !StartsWith(s, prefix)
  {
  }

  /** The command of a song row, found through its prefix. */
  lemma SongRowCommand(songId: string, screen: NavigationItem, settings: Settings, userSongs: seq<Song>)
    ensures ItemCommand("song-" + songId, screen, settings, userSongs) == SongCommand(songId, screen, userSongs)
  {
    var itemId := "song-" + songId;
    PrefixRoundTrip("song-", songId);
    assert itemId[0] == 's' && itemId[4] == '-';
    NotPrefix(itemId, "artist-");
    NotPrefix(itemId, "album-");
    NotPrefix(itemId, "playlist-");
    NotPrefix(itemId, "genre-");
  }

  /** Selecting a song row plays the first song with that id, with the queue the screen chooses,
      and opens Now Playing over the list; a row whose id names no song does nothing. */
  lemma SelectSongPlaysIt(s: SM.StoreState, songId: string, shuffled: seq<Song>)
    requires multiset(shuffled) == multiset(s.library.userSongs)
    requires s.nav.currentScreen.screenType == MenuType && 0 <= s.nav.selectedIndex < |Items(s)|
    requires Items(s)[s.nav.selectedIndex].id == "song-" + songId
    ensures Find(MockData.Songs + s.library.userSongs, MockData.HasSongId(songId)).None? ==> OnSelect(s, shuffled) == s
    ensures Find(MockData.Songs + s.library.userSongs, MockData.HasSongId(songId)).Some? ==>
              var song := Find(MockData.Songs + s.library.userSongs, MockData.HasSongId(songId)).value;
              var r := OnSelect(s, shuffled);
              song.id == songId && r.player.currentSong == Some(song) && r.player.isPlaying &&
              (exists k :: 0 <= k < |MockData.Songs + s.library.userSongs| && (MockData.Songs + s.library.userSongs)[k] == song &&
                 forall j :: 0 <= j < k ==> (MockData.Songs + s.library.userSongs)[j].id != songId) &&
              r.player.queue == QueueFor(s.nav.currentScreen, song, s.library.userSongs) &&
              r.nav.currentScreen == NowPlayingScreen &&
              r.nav.navigationStack == s.nav.navigationStack + [s.nav.currentScreen.(selectedIndex := s.nav.selectedIndex)]
  {
    SongRowCommand(songId, s.nav.currentScreen, s.settings, s.library.userSongs);
    assert CommandOf(s) == SongCommand(songId, s.nav.currentScreen, s.library.userSongs);
  }

  // ---------------------------------------------------------------- row counts

  function OptionCount(k: SettingKind): int
  {
    match k
    case ShuffleSetting => 3
    case RepeatSetting => 3
    case BacklightSetting => 6
    case BrightnessSetting => 101
    case ClickerSetting => 2
  }

  /** The number of rows the wheel scrolls through on the current screen: 8 on About, the option
      count on an option screen, 1 on any other setting screen. */
  function ItemCount(s: SM.StoreState): int
  {
    var screen := s.nav.currentScreen;
    if screen.screenType == PhotoViewerType then Shell.ViewerPhotoCount(screen)
    else if screen.screenType == SettingsType then
      (match screen.data
       case SettingData(t) =>
         if t == "about" then 8
         else (match ParseKind(t) case Some(k) => OptionCount(k) case None => 1)
       case _ => 1)
    else |Items(s)|
  }

  /** The row counts of the option screens are the lengths of their option lists (two clicker
      rows, brightness 0 to 100), so every option can be reached and no row is past the list. */
  lemma SettingCountsMatchOptions(s: SM.StoreState, k: SettingKind)
    requires s.nav.currentScreen.screenType == SettingsType && s.nav.currentScreen.data == SettingData(KindName(k))
    ensures k == ShuffleSetting ==> ItemCount(s) == |ShuffleOptions|
    ensures k == RepeatSetting ==> ItemCount(s) == |RepeatOptions|
    ensures k == BacklightSetting ==> ItemCount(s) == |BacklightOptions|
    ensures k == ClickerSetting ==> ItemCount(s) == 2
    ensures k == BrightnessSetting ==> ItemCount(s) == 101
    ensures k != BrightnessSetting ==> 0 <= Preselected(k, s.settings) < ItemCount(s)
    ensures k != ClickerSetting && k != BrightnessSetting ==>
              forall i :: 0 <= i < ItemCount(s) <==> SettingPatch(k, i).Some?
  {
    KindNameRoundTrip(k);
  }

  /** On a menu the count is the number of rows, on the photo viewer the album's photo count, on
      About the eight rows it lists. */
  lemma ItemCountOfListsAndPhotos(s: SM.StoreState)
    ensures s.nav.currentScreen.screenType == MenuType ==> ItemCount(s) == |Items(s)|
    ensures s.nav.currentScreen.screenType == PhotoViewerType ==>
              ItemCount(s) == |MockData.PhotosByAlbum(Shell.ViewerAlbumId(s.nav.currentScreen))|
    ensures s.nav.currentScreen.screenType == SettingsType && s.nav.currentScreen.data == SettingData("about") ==>
              ItemCount(s) == 8
  {
  }

  // ---------------------------------------------------------------- on the store object

  /** Runs the actions of `c` on the store object. */
  method Run(store: Store.IPodStore, c: Command, shuffled: seq<Song>)
    requires multiset(shuffled) == multiset(store.library.userSongs)
    modifies store
    ensures store.Snapshot() == Apply(old(store.Snapshot()), c, shuffled)
  {
    match c {
      case Stay =>
      case Open(screen) =>
        store.NavigateTo(screen);
      case ShuffleThenOpen(screen) =>
        store.ShufflePlay(shuffled);
        store.NavigateTo(screen);
      case PlayThenOpen(song, queue, screen) =>
        store.PlaySong(song, Some(queue));
        store.NavigateTo(screen);
      case PhotoThenOpen(albumId, index, screen) =>
        store.SetCurrentPhoto(albumId, index);
        store.NavigateTo(screen);
      case Configure(patch) =>
        store.UpdateSettings(patch);
    }
  }

  method HandleSelect(store: Store.IPodStore, shuffled: seq<Song>)
    requires multiset(shuffled) == multiset(store.library.userSongs)
    modifies store
    ensures store.Snapshot() == OnSelect(old(store.Snapshot()), shuffled)
  {
    var c := SelectCommand(store.nav.currentScreen, store.nav.selectedIndex, store.settings, store.player.currentSong,
                           store.library.userSongs);
    Run(store, c, shuffled);
  }
}
