/**
 * The music upload screen: which dropped files count as audio, the song each one becomes (tag
 * values with their defaults, the title taken from the file name), the progress shown while
 * files are stored, and the loop that adds the stored songs to the user library.
 *
 * The metadata parser, the audio element, the database and the clock are outside the model:
 * what they produce for a file is part of its `FileInput`.
 */
module Upload {
  import opened Wrappers
  import opened Types
  import opened Text
  import opened Seqs
  import opened Arith
  import Base64
  import SM = StoreModel
  import Store

  // ---------------------------------------------------------------- which files are audio

  datatype SourceFile = SourceFile(name: string, mimeType: string)

  /** The name ends in .mp3, .m4a, .wav, .ogg or .flac, in any mix of upper and lower case. */
  predicate HasAudioExtension(name: string)
  {
    var lower := ToLowerAscii(name);
    EndsWith(lower, ".mp3") || EndsWith(lower, ".m4a") || EndsWith(lower, ".wav") ||
    EndsWith(lower, ".ogg") || EndsWith(lower, ".flac")
  }

  predicate IsAudioFile(f: SourceFile)
  {
    StartsWith(f.mimeType, "audio/") || HasAudioExtension(f.name)
  }

  lemma LowerTwice(s: string)
    ensures ToLowerAscii(ToLowerAscii(s)) == ToLowerAscii(s)
  {
  }

  /** The extension test ignores case: a name and its lower-case form are accepted alike. */
  lemma ExtensionIgnoresCase(name: string)
    ensures HasAudioExtension(ToLowerAscii(name)) == HasAudioExtension(name)
  {
    LowerTwice(name);
  }

  // ---------------------------------------------------------------- the title from a file name

  /** `k` is where the extension starts: a dot followed, up to the end, by at least one character
      and by no dot and no slash. */
  predicate ExtensionAt(name: string, k: int)
  {
    0 <= k < |name| - 1 && name[k] == '.' && forall j :: k < j < |name| ==> name[j] != '.' && name[j] != '/'
  }

  /** Scans back from `j` for the start of the extension. */
  function ExtensionStart(name: string, j: int): (r: Option<nat>)
    requires -1 <= j < |name|
    requires forall m :: j < m < |name| ==> name[m] != '.' && name[m] != '/'
    ensures r.Some? ==> ExtensionAt(name, r.value)
    ensures r.None? ==> forall k :: !ExtensionAt(name, k)
    decreases j + 1
  {
    if j < 0 then None
    else if name[j] == '/' then
      assert forall k :: ExtensionAt(name, k) ==> k > j;
      None
    else if name[j] == '.' then
      (if j < |name| - 1 then Some(j)
       else
         assert forall k :: ExtensionAt(name, k) ==> k >= j;
         None)
    else ExtensionStart(name, j - 1)
  }

  /** The name without its extension (a final dot with at least one character after it and no
      dot or slash among those), or the whole name when it has none. */
  function StripExtension(name: string): (r: string)
    ensures forall k :: ExtensionAt(name, k) ==> r == name[..k]
    ensures (forall k :: !ExtensionAt(name, k)) ==> r == name
  {
    match ExtensionStart(name, |name| - 1)
    case Some(k) =>
      assert forall k' :: ExtensionAt(name, k') ==> k' == k;
      name[..k]
    case None => name
  }

  /** A base name followed by an extension loses exactly that extension. */
  lemma StripAddedExtension(base: string, ext: string)
    requires |ext| >= 2 && ext[0] == '.'
    requires forall j :: 1 <= j < |ext| ==> ext[j] != '.' && ext[j] != '/'
    ensures StripExtension(base + ext) == base
  {
    var name := base + ext;
    assert forall j :: |base| < j < |name| ==> name[j] == ext[j - |base|];
    assert ExtensionAt(name, |base|);
    assert name[..|base|] == base;
  }

  /** Lower-casing leaves dots and slashes alone and makes no other character one. */
  lemma LowerCharPunctuation(c: char)
    ensures LowerChar(c) == '.' <==> c == '.'
    ensures LowerChar(c) == '/' <==> c == '/'
  {
  }

  /** A file accepted for its extension is titled with its name less that extension. */
  lemma AudioNameTitle(name: string)
    requires EndsWith(ToLowerAscii(name), ".mp3")
    ensures StripExtension(name) == name[..|name| - 4]
  {
    var k := |name| - 4;
    var lower := ToLowerAscii(name);
    assert lower[k..] == ".mp3";
    assert lower[k] == '.' && lower[k + 1] == 'm' && lower[k + 2] == 'p' && lower[k + 3] == '3';
    forall j | k <= j < |name|
      ensures (name[j] == '.') == (j == k) && name[j] != '/'
    {
      LowerCharPunctuation(name[j]);
    }
    assert ExtensionAt(name, k);
  }

  // ---------------------------------------------------------------- the song a file becomes

  datatype Picture = Picture(data: seq<Base64.Byte>, format: string)

  /** The tags the metadata parser found; absent ones are `None` or empty. */
  datatype Tags = Tags(
    title: Option<string>,
    artist: Option<string>,
    album: Option<string>,
    genres: seq<string>,
    year: Option<int>,
    duration: Option<real>,
    pictures: seq<Picture>)

  /** What reading a file gave: the parser's tags; or, when the parser failed, the duration the
      audio element reported, or its error. */
  datatype Probe = Parsed(tags: Tags) | AudioDuration(seconds: real) | AudioError

  datatype SongDetails = SongDetails(
    title: string,
    artist: string,
    album: string,
    albumArt: string,
    duration: int,
    genre: string,
    year: int)

  const DefaultAlbumArt := "linear-gradient(135deg, #667eea 0%, #764ba2 50%, #f093fb 100%)"
  const UnknownArtist := "Unknown Artist"
  const UnknownAlbum := "Unknown Album"
  const UnknownGenre := "Unknown"

  /** `value || fallback` on a string: an absent or empty value gives the fallback. */
  function OrText(value: Option<string>, fallback: string): (r: string)
    ensures value.Some? && value.value != "" ==> r == value.value
    ensures value.None? || value.value == "" ==> r == fallback
  {
    if value.Some? && value.value != "" then value.value else fallback
  }

  function AlbumArt(pictures: seq<Picture>): string
  {
    if |pictures| > 0 then Base64.DataUrl(pictures[0].data, pictures[0].format) else DefaultAlbumArt
  }

  /** The fields of the song made from a file. `currentYear` is the year of the clock. */
  function Extract(fileName: string, probe: Probe, currentYear: int): SongDetails
  {
    var fallbackTitle := StripExtension(fileName);
    match probe
    case Parsed(t) =>
      SongDetails(
        OrText(t.title, fallbackTitle),
        OrText(t.artist, UnknownArtist),
        OrText(t.album, UnknownAlbum),
        AlbumArt(t.pictures),
        t.duration.GetOr(0.0).Floor,
        OrText(if |t.genres| > 0 then Some(t.genres[0]) else None, UnknownGenre),
        if t.year.Some? && t.year.value != 0 then t.year.value else currentYear)
    case AudioDuration(seconds) =>
      SongDetails(fallbackTitle, UnknownArtist, UnknownAlbum, DefaultAlbumArt, seconds.Floor, UnknownGenre, currentYear)
    case AudioError =>
      SongDetails(fallbackTitle, UnknownArtist, UnknownAlbum, DefaultAlbumArt, 0, UnknownGenre, currentYear)
  }

  const NoTags := Tags(None, None, None, [], None, None, [])

  /** A file without tags, or one the parser cannot read, gets the default fields: its name less
      the extension as title, the unknown artist, album and genre, the default artwork and the
      current year. */
  lemma MissingTagsGiveDefaults(fileName: string, probe: Probe, currentYear: int)
    requires probe == Parsed(NoTags) || probe.AudioDuration? || probe == AudioError
    ensures var d := Extract(fileName, probe, currentYear);
            d.title == StripExtension(fileName) && d.artist == UnknownArtist && d.album == UnknownAlbum &&
            d.genre == UnknownGenre && d.albumArt == DefaultAlbumArt && d.year == currentYear
    ensures !probe.AudioDuration? ==> Extract(fileName, probe, currentYear).duration == 0
  {
  }

  /** Tags that are present and not empty are used as they are. */
  lemma TagsAreKept(fileName: string, t: Tags, currentYear: int)
    ensures var d := Extract(fileName, Parsed(t), currentYear);
            (t.title.Some? && t.title.value != "" ==> d.title == t.title.value) &&
            (t.artist.Some? && t.artist.value != "" ==> d.artist == t.artist.value) &&
            (t.album.Some? && t.album.value != "" ==> d.album == t.album.value) &&
            (|t.genres| > 0 && t.genres[0] != "" ==> d.genre == t.genres[0]) &&
            (t.year.Some? && t.year.value != 0 ==> d.year == t.year.value)
  {
  }

  /** The duration is the reported one rounded down to whole seconds. */
  lemma DurationIsFloored(fileName: string, probe: Probe, currentYear: int)
    ensures var d := Extract(fileName, probe, currentYear).duration;
            (probe.Parsed? && probe.tags.duration.Some? ==> d as real <= probe.tags.duration.value < d as real + 1.0) &&
            (probe.AudioDuration? ==> d as real <= probe.seconds < d as real + 1.0)
  {
  }

  /** Embedded artwork becomes a data URL that gives back the picture's type and bytes. */
  lemma ArtworkRoundTrip(pictures: seq<Picture>)
    requires |pictures| > 0 && ';' !in pictures[0].format
    ensures Base64.ParseDataUrl(AlbumArt(pictures)) == Some((pictures[0].format, pictures[0].data))
  {
    Base64.DataUrlRoundTrip(pictures[0].data, pictures[0].format);
  }

  /** `user-<time>-<random>`; the random part is taken as given. */
  function GenerateId(now: nat, random: string): (id: string)
    ensures StartsWith(id, "user-")
  {
    var id := "user-" + NatToString(now) + "-" + random;
    assert id[..5] == "user-";
    id
  }

  function MakeSong(id: string, d: SongDetails): Song
  {
    Song(id, d.title, d.artist, d.album, d.albumArt, d.duration, d.genre, d.year, true)
  }

  // ---------------------------------------------------------------- progress

  /** The percentage shown while file `i` of `n` is processed: the middle of its share, on exact
      fractions, rounded half up. */
  function Progress(i: int, n: int): (r: int)
    requires 0 <= i < n
    ensures 0 <= r <= 100
  {
    var x, d := 100 * (2 * i + 1) + n, 2 * n;
    var r := x / d;
    assert d * r <= x;
    assert r < 101 by {
      assert x < 202 * n;
      if r >= 101 {
        MulMonotone(101, r, d);
      }
    }
    r
  }

  /** The progress is the exact percentage (i + 1/2) / n, rounded half up. */
  lemma ProgressRoundsHalfUp(i: int, n: int)
    requires 0 <= i < n
    ensures var r := Progress(i, n); (2 * r - 1) * n <= 100 * (2 * i + 1) < (2 * r + 1) * n
  {
    var x, d := 100 * (2 * i + 1) + n, 2 * n;
    var r := x / d;
    assert d * r <= x < d * r + d;
    assert (2 * r - 1) * n == d * r - n && (2 * r + 1) * n == d * r + d - n;
  }

  /** The progress never goes back as the files are processed. */
  lemma ProgressMonotone(i: int, j: int, n: int)
    requires 0 <= i <= j < n
    ensures Progress(i, n) <= Progress(j, n)
  {
    var p, q := Progress(i, n), Progress(j, n);
    ProgressRoundsHalfUp(i, n);
    ProgressRoundsHalfUp(j, n);
    assert (2 * p - 1) * n < (2 * q + 1) * n;
    MulCancelLess(2 * p - 1, 2 * q + 1, n);
  }

  // ---------------------------------------------------------------- processing the files

  datatype UploadState = UploadState(isUploading: bool, progress: int, currentFile: string, error: Option<string>)

  const Idle := UploadState(false, 0, "", None)
  const Done := UploadState(false, 100, "", None)
  const NoAudioFiles := "No audio files found"

  /** A dropped file with what the outside world does with it: the metadata read, the clock and
      random part of its id, and whether the database stored it. */
  datatype FileInput = FileInput(file: SourceFile, probe: Probe, now: nat, random: string, stored: bool)

  function IsAudioInput(f: FileInput): bool { IsAudioFile(f.file) }

  function SongOf(f: FileInput, currentYear: int): Song
  {
    MakeSong(GenerateId(f.now, f.random), Extract(f.file.name, f.probe, currentYear))
  }

  /** The songs of the files the database stored, in the order of the files. */
  function Uploaded(files: seq<FileInput>, currentYear: int): (r: seq<Song>)
    ensures |r| <= |files|
    ensures forall k :: 0 <= k < |r| ==> r[k].isUserSong && StartsWith(r[k].id, "user-")
    decreases |files|
  {
    if files == [] then []
    else
      var last := files[|files| - 1];
      Uploaded(files[..|files| - 1], currentYear) + (if last.stored then [SongOf(last, currentYear)] else [])
  }

  /** When every file is stored, every file gives a song, in order. */
  lemma {:induction false} AllStoredAllUploaded(files: seq<FileInput>, currentYear: int)
    requires forall k :: 0 <= k < |files| ==> files[k].stored
    ensures |Uploaded(files, currentYear)| == |files|
    ensures forall k :: 0 <= k < |files| ==> Uploaded(files, currentYear)[k] == SongOf(files[k], currentYear)
    decreases |files|
  {
    if files != [] {
      AllStoredAllUploaded(files[..|files| - 1], currentYear);
    }
  }

  /** The store after the songs are added one by one at the end of the user library. */
  function AddAll(s: SM.StoreState, songs: seq<Song>): (r: SM.StoreState)
    ensures r == s.(library := s.library.(userSongs := s.library.userSongs + songs))
    decreases |songs|
  {
    if songs == [] then s
    else
      var t := SM.AddUserSong(AddAll(s, songs[..|songs| - 1]), songs[|songs| - 1]);
      assert s.library.userSongs + songs[..|songs| - 1] + [songs[|songs| - 1]] == s.library.userSongs + songs;
      t
  }

  /** One more file: its song, if it was stored, comes after the songs of the earlier files. */
  lemma UploadedStep(files: seq<FileInput>, i: int, currentYear: int)
    requires 0 <= i < |files|
    ensures Uploaded(files[..i + 1], currentYear) ==
            Uploaded(files[..i], currentYear) + (if files[i].stored then [SongOf(files[i], currentYear)] else [])
  {
    assert files[..i + 1][..i] == files[..i];
  }

  lemma AddAllStep(s: SM.StoreState, songs: seq<Song>, song: Song)
    ensures AddAll(s, songs + [song]) == SM.AddUserSong(AddAll(s, songs), song)
  {
    assert s.library.userSongs + (songs + [song]) == s.library.userSongs + songs + [song];
  }

  /** Only audio files are processed: with none, the error is shown and nothing else happens;
      otherwise the songs of the stored files are added and the screen ends idle at 100%. */
  function Processed(u: UploadState, s: SM.StoreState, files: seq<FileInput>, currentYear: int): (UploadState, SM.StoreState)
  {
    var audio := Filter(files, IsAudioInput);
    if audio == [] then (u.(error := Some(NoAudioFiles)), s)
    else (Done, AddAll(s, Uploaded(audio, currentYear)))
  }

  /** Files that are not audio add nothing, and no song of another file is lost. Without audio only
      the error is set; otherwise the screen ends idle at 100% with no error. */
  lemma ProcessedKeepsLibrary(u: UploadState, s: SM.StoreState, files: seq<FileInput>, currentYear: int)
    ensures var (u', s') := Processed(u, s, files, currentYear);
            var audio := Filter(files, IsAudioInput);
            (audio == [] <==> u'.error == Some(NoAudioFiles) && s' == s && u'.isUploading == u.isUploading) &&
            s'.library.userSongs == s.library.userSongs + Uploaded(audio, currentYear) &&
            s' == s.(library := s'.library) && s'.library.userLibraryLoaded == s.library.userLibraryLoaded &&
            (audio == [] ==> u' == u.(error := Some(NoAudioFiles))) &&
            (audio != [] ==> u' == Done)
  {
  }

  /** The screen object with its upload state. */
  class Uploader {
    var state: UploadState

    constructor ()
      ensures state == Idle
    {
      state := Idle;
    }

    method ProcessFiles(files: seq<FileInput>, currentYear: int, store: Store.IPodStore)
      modifies this, store
      ensures state == Processed(old(state), old(store.Snapshot()), files, currentYear).0
      ensures store.Snapshot() == Processed(old(state), old(store.Snapshot()), files, currentYear).1
    {
      var audio := Filter(files, IsAudioInput);
      if |audio| == 0 {
        state := state.(error := Some(NoAudioFiles));
        return;
      }
      state := UploadState(true, 0, "", None);
      UploadEach(audio, currentYear, store);
      state := Done;
    }

    /** The loop over the audio files: the screen shows each file's name and its progress while
        its song is made, and the song is added when the database stored it. */
    method UploadEach(audio: seq<FileInput>, currentYear: int, store: Store.IPodStore)
      requires state.isUploading && state.error == None
      modifies this, store
      ensures store.Snapshot() == AddAll(old(store.Snapshot()), Uploaded(audio, currentYear))
      ensures state.isUploading && state.error == None
      ensures audio != [] ==> state.progress == Progress(|audio| - 1, |audio|) && state.currentFile == audio[|audio| - 1].file.name
    {
      ghost var s0 := store.Snapshot();
      var i := 0;
      while i < |audio|
        invariant 0 <= i <= |audio|
        invariant store.Snapshot() == AddAll(s0, Uploaded(audio[..i], currentYear))
        invariant state.isUploading && state.error == None
        invariant i > 0 ==> state.progress == Progress(i - 1, |audio|) && state.currentFile == audio[i - 1].file.name
      {
        var f := audio[i];
        state := state.(currentFile := f.file.name, progress := Progress(i, |audio|));
        var song := MakeSong(GenerateId(f.now, f.random), Extract(f.file.name, f.probe, currentYear));
        assert song == SongOf(f, currentYear);
        ghost var done := Uploaded(audio[..i], currentYear);
        UploadedStep(audio, i, currentYear);
        if f.stored {
          AddAllStep(s0, done, song);
          store.AddUserSong(song);
          assert store.Snapshot() == AddAll(s0, done + [song]);
        } else {
          assert Uploaded(audio[..i + 1], currentYear) == done;
        }
        i := i + 1;
      }
      assert audio[..i] == audio;
    }
  }

  // ---------------------------------------------------------------- loading the stored library

  /** On mounting, the songs kept in the database replace the user library, once. */
  function LoadLibrary(s: SM.StoreState, stored: seq<Song>): (r: SM.StoreState)
    ensures s.library.userLibraryLoaded ==> r == s
    ensures !s.library.userLibraryLoaded ==> r.library == SM.LibraryState(stored, true) && r == s.(library := r.library)
  {
    if s.library.userLibraryLoaded then s else SM.SetUserLibraryLoaded(SM.SetUserSongs(s, stored), true)
  }

  /** A second mount loads nothing more. */
  lemma LoadLibraryOnce(s: SM.StoreState, first: seq<Song>, second: seq<Song>)
    ensures LoadLibrary(LoadLibrary(s, first), second) == LoadLibrary(s, first)
  {
  }

  method LoadLibraryOnMount(store: Store.IPodStore, stored: seq<Song>)
    modifies store
    ensures store.Snapshot() == LoadLibrary(old(store.Snapshot()), stored)
  {
    if !store.library.userLibraryLoaded {
      store.SetUserSongs(stored);
      store.SetUserLibraryLoaded(true);
    }
  }
}
