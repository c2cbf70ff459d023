/** The entities of the device: songs and the library records, settings, and the screens
    the navigation stack holds. */
module Types {
  import opened Wrappers

  /** A track. Durations and years are whole numbers. `isUserSong` is false where the source
      leaves the optional flag undefined. */
  datatype Song = Song(
    id: string,
    title: string,
    artist: string,
    album: string,
    albumArt: string,
    duration: int,
    genre: string,
    year: int,
    isUserSong: bool)

  datatype Album = Album(id: string, title: string, artist: string, artwork: string, year: int, songs: seq<string>)

  datatype Artist = Artist(id: string, name: string, albums: seq<string>)

  datatype Playlist = Playlist(id: string, name: string, songs: seq<string>)

  datatype Photo = Photo(id: string, src: string, albumId: string, name: string)

  datatype PhotoAlbum = PhotoAlbum(id: string, name: string, coverPhoto: string, photos: seq<string>)

  datatype ShuffleMode = ShuffleOff | ShuffleSongs | ShuffleAlbums

  datatype RepeatMode = RepeatOff | RepeatOne | RepeatAll

  /** backlightTimer is in seconds (0 means always on); brightness and volume are percentages. */
  datatype Settings = Settings(
    shuffle: ShuffleMode,
    repeat: RepeatMode,
    backlightTimer: int,
    brightness: int,
    clicker: bool,
    volume: int)

  /** A partial settings object as passed to `updateSettings`: absent fields stay as they are. */
  datatype SettingsPatch = SettingsPatch(
    shuffle: Option<ShuffleMode>,
    repeat: Option<RepeatMode>,
    backlightTimer: Option<int>,
    brightness: Option<int>,
    clicker: Option<bool>,
    volume: Option<int>)

  const EmptyPatch := SettingsPatch(None, None, None, None, None, None)

  function ApplyPatch(s: Settings, p: SettingsPatch): Settings
  {
    Settings(
      p.shuffle.GetOr(s.shuffle),
      p.repeat.GetOr(s.repeat),
      p.backlightTimer.GetOr(s.backlightTimer),
      p.brightness.GetOr(s.brightness),
      p.clicker.GetOr(s.clicker),
      p.volume.GetOr(s.volume))
  }

  datatype ScreenType =
    | MenuType | NowPlayingType | CoverFlowType | PhotoViewerType | PhotoType
    | ClockType | StopwatchType | TimerType | SettingsType | AboutType | MusicUploadType

  /** The payload a screen carries (the source's untyped `data` field). */
  datatype ScreenData =
    | NoData
    | ArtistData(artistName: string)
    | AlbumData(albumTitle: string)
    | PlaylistData(songIds: seq<string>)
    | GenreData(genre: string)
    | PhotoAlbumData(albumId: string)
    | SettingData(settingType: string)
    | ModeData(mode: string)

  /** An entry of the navigation stack. */
  datatype NavigationItem = NavigationItem(
    screenType: ScreenType,
    screenId: string,
    title: string,
    selectedIndex: int,
    data: ScreenData)

  datatype SeekDirection = Forward | Backward
}
