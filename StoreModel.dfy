/**
 * The device store as a record and its actions as total transitions on that record.
 * The store's fields are grouped as the source's own section comments group them
 * (navigation, now playing with scrubbing and seeking, ratings, sleep/hold/volume/backlight,
 * settings, photo viewer, user library).
 * The imperative store object (module Store) is specified by these functions; the properties
 * the device relies on are proved here about them.
 *
 * The wall-clock stamp `lastActivityTime`, the wheel velocity and the handle of the volume
 * overlay timer are not fields of the model: the timer survives only as "a hide is pending".
 */
module StoreModel {
  import opened Wrappers
  import opened Types
  import opened Seqs

  datatype NavState = NavState(
    navigationStack: seq<NavigationItem>,
    currentScreen: NavigationItem,
    selectedIndex: int)

  datatype PlayerState = PlayerState(
    currentSong: Option<Song>,
    isPlaying: bool,
    currentTime: int,
    queue: seq<Song>,
    queueIndex: nat,
    isScrubbing: bool,
    isSeeking: bool,
    seekDirection: Option<SeekDirection>)

  datatype DeviceState = DeviceState(
    isSleeping: bool,
    isHoldOn: bool,
    showVolumeOverlay: bool,
    volumeTimerPending: bool,
    backlightOn: bool)

  datatype PhotoState = PhotoState(currentPhotoIndex: int, currentPhotoAlbumId: Option<string>)

  datatype LibraryState = LibraryState(userSongs: seq<Song>, userLibraryLoaded: bool)

  datatype StoreState = StoreState(
    nav: NavState,
    player: PlayerState,
    songRatings: map<string, int>,
    device: DeviceState,
    settings: Settings,
    photos: PhotoState,
    library: LibraryState)

  const DefaultSettings := Settings(ShuffleOff, RepeatOff, 10, 80, true, 50)

  const InitialScreen := NavigationItem(MenuType, "main", "iPod", 0, NoData)

  function Initial(): (r: StoreState)
    ensures r.nav.navigationStack == [] && r.player.queue == [] && r.player.currentSong == None
    ensures !r.player.isPlaying && !r.device.isSleeping && !r.device.isHoldOn && r.device.backlightOn
    ensures r.nav.currentScreen == InitialScreen && r.nav.currentScreen.screenId == "main" && r.nav.selectedIndex == 0
    ensures r.settings == DefaultSettings && r.songRatings == map[] && r.library.userSongs == []
  {
    StoreState(
      NavState([], InitialScreen, 0),
      PlayerState(None, false, 0, [], 0, false, false, None),
      map[],
      DeviceState(false, false, false, false, true),
      DefaultSettings,
      PhotoState(0, None),
      LibraryState([], false))
  }

  function Min(a: int, b: int): int { if a <= b then a else b }
  function Max(a: int, b: int): int { if a >= b then a else b }

  /** `queue[i]`, which is `undefined` outside the array. */
  function At(q: seq<Song>, i: int): (r: Option<Song>)
    ensures r.Some? <==> 0 <= i < |q|
    ensures r.Some? ==> r.value == q[i]
  {
    if 0 <= i < |q| then Some(q[i]) else None
  }

  /** User activity: the backlight comes on (the source also stamps the activity time). */
  function Lit(d: DeviceState): DeviceState
  {
    d.(backlightOn := true)
  }

  // ---------------------------------------------------------------- navigation

  /** The current screen as it is pushed: stamped with the selection it had. */
  function Stamped(n: NavState): NavigationItem
  {
    n.currentScreen.(selectedIndex := n.selectedIndex)
  }

  function NavigateTo(s: StoreState, screen: NavigationItem): (r: StoreState)
    ensures |r.nav.navigationStack| == |s.nav.navigationStack| + 1
    ensures r.nav.navigationStack[..|s.nav.navigationStack|] == s.nav.navigationStack
    ensures r.nav.navigationStack[|s.nav.navigationStack|] == Stamped(s.nav)
    ensures r.nav.navigationStack[|s.nav.navigationStack|].selectedIndex == s.nav.selectedIndex
    ensures r.nav.currentScreen == screen && r.nav.selectedIndex == screen.selectedIndex
    ensures r == s.(nav := r.nav, device := r.device) && r.device == Lit(s.device)
  {
    s.(nav := NavState(s.nav.navigationStack + [Stamped(s.nav)], screen, screen.selectedIndex),
       device := Lit(s.device))
  }

  function GoBack(s: StoreState): (r: StoreState)
    ensures |s.nav.navigationStack| == 0 ==> r == s
    ensures |s.nav.navigationStack| > 0 ==> |r.nav.navigationStack| + 1 == |s.nav.navigationStack|
    ensures |s.nav.navigationStack| > 0 ==> r.nav.currentScreen == s.nav.navigationStack[|s.nav.navigationStack| - 1]
    ensures |s.nav.navigationStack| > 0 ==> r.nav.selectedIndex == r.nav.currentScreen.selectedIndex
  {
    var stack := s.nav.navigationStack;
    if |stack| == 0 then s
    else
      var previous := stack[|stack| - 1];
      s.(nav := NavState(stack[..|stack| - 1], previous, previous.selectedIndex), device := Lit(s.device))
  }

  function SetSelectedIndex(s: StoreState, index: int): StoreState
  {
    s.(nav := s.nav.(selectedIndex := index), device := Lit(s.device))
  }

  /** Scrolling down moves one row, but never past the last row `max - 1`: the new selection is
      the smaller of the two. With no rows at all (`max == 0`) a selection of row 0 or
      further becomes -1. */
  function IncrementSelectedIndex(s: StoreState, max: int): (r: StoreState)
    ensures r.nav.selectedIndex <= max - 1
    ensures r.nav.selectedIndex <= s.nav.selectedIndex + 1
    ensures r.nav.selectedIndex == s.nav.selectedIndex + 1 || r.nav.selectedIndex == max - 1
    ensures max == 0 && s.nav.selectedIndex >= 0 ==> r.nav.selectedIndex == -1
    ensures r == s.(nav := s.nav.(selectedIndex := r.nav.selectedIndex), device := Lit(s.device))
  {
    s.(nav := s.nav.(selectedIndex := Min(s.nav.selectedIndex + 1, max - 1)), device := Lit(s.device))
  }

  /** Scrolling up moves one row, but never above row 0: the new selection is the larger of the two. */
  function DecrementSelectedIndex(s: StoreState): (r: StoreState)
    ensures r.nav.selectedIndex >= 0
    ensures r.nav.selectedIndex >= s.nav.selectedIndex - 1
    ensures r.nav.selectedIndex == s.nav.selectedIndex - 1 || r.nav.selectedIndex == 0
    ensures r == s.(nav := s.nav.(selectedIndex := r.nav.selectedIndex), device := Lit(s.device))
  {
    s.(nav := s.nav.(selectedIndex := Max(s.nav.selectedIndex - 1, 0)), device := Lit(s.device))
  }

  /** Scrolling keeps a selection inside a list of `max >= 1` rows inside it, moving by one row
      except against the ends. */
  lemma ScrollStaysInList(s: StoreState, max: int)
    requires 1 <= max && 0 <= s.nav.selectedIndex < max
    ensures 0 <= IncrementSelectedIndex(s, max).nav.selectedIndex < max
    ensures 0 <= DecrementSelectedIndex(s).nav.selectedIndex < max
    ensures s.nav.selectedIndex + 1 < max ==> IncrementSelectedIndex(s, max).nav.selectedIndex == s.nav.selectedIndex + 1
    ensures s.nav.selectedIndex + 1 == max ==> IncrementSelectedIndex(s, max).nav.selectedIndex == s.nav.selectedIndex
    ensures s.nav.selectedIndex > 0 ==> DecrementSelectedIndex(s).nav.selectedIndex == s.nav.selectedIndex - 1
    ensures s.nav.selectedIndex == 0 ==> DecrementSelectedIndex(s).nav.selectedIndex == 0
  {
  }

  /** The state after `navigateTo` followed by `goBack`: the screen comes back stamped with the
      selection it had, the selection is restored, and only the backlight has changed. */
  function Restored(s: StoreState): StoreState
  {
    s.(nav := s.nav.(currentScreen := Stamped(s.nav)), device := Lit(s.device))
  }

  lemma NavigateThenGoBack(s: StoreState, screen: NavigationItem)
    ensures GoBack(NavigateTo(s, screen)) == Restored(s)
  {
    var t := NavigateTo(s, screen);
    assert t.nav.navigationStack[..|t.nav.navigationStack| - 1] == s.nav.navigationStack;
  }

  function NavigateAll(s: StoreState, screens: seq<NavigationItem>): StoreState
    decreases |screens|
  {
    if screens == [] then s else NavigateAll(NavigateTo(s, screens[0]), screens[1..])
  }

  function GoBackTimes(s: StoreState, n: nat): StoreState
  {
    if n == 0 then s else GoBack(GoBackTimes(s, n - 1))
  }

  /** Going back from a state whose stack is `s`'s stack plus `s`'s stamped screen, and whose
      other parts are `s`'s after a navigation, gives `Restored(s)`. */
  lemma GoBackPops(s: StoreState, t: StoreState)
    requires t.nav.navigationStack == s.nav.navigationStack + [Stamped(s.nav)]
    requires t.device == Lit(s.device)
    requires t == s.(nav := t.nav, device := t.device)
    ensures GoBack(t) == Restored(s)
  {
    assert t.nav.navigationStack[..|t.nav.navigationStack| - 1] == s.nav.navigationStack;
  }

  /** `n` navigations followed by `n` goBacks lead back to the starting screen, selection and
      stack: the stack behaves as a stack of stamped screens. */
  lemma {:induction false} NavigateAllThenGoBackAll(s: StoreState, screens: seq<NavigationItem>)
    requires |screens| > 0
    ensures |NavigateAll(s, screens).nav.navigationStack| == |s.nav.navigationStack| + |screens|
    ensures GoBackTimes(NavigateAll(s, screens), |screens|) == Restored(s)
    decreases |screens|
  {
    var s1 := NavigateTo(s, screens[0]);
    var rest := screens[1..];
    if rest == [] {
      NavigateThenGoBack(s, screens[0]);
    } else {
      NavigateAllThenGoBackAll(s1, rest);
      assert GoBackTimes(NavigateAll(s, screens), |screens|) == GoBack(Restored(s1));
      GoBackPops(s, Restored(s1));
    }
  }

  // ---------------------------------------------------------------- playback

  /** The queue position is meaningful: inside a non-empty queue, and 0 for an empty one. */
  predicate QueueIndexValid(p: PlayerState)
  {
    if |p.queue| > 0 then p.queueIndex < |p.queue| else p.queueIndex == 0
  }

  /** `playSong(song, queue)`; `queue` is `None` when the argument is omitted. An empty array is
      a given queue, not a missing one. */
  function PlaySong(s: StoreState, song: Song, queue: Option<seq<Song>>): (r: StoreState)
    ensures queue.None? ==> r.player.queue == [song]
    ensures queue.Some? ==> r.player.queue == queue.value
    ensures r.player.currentSong == Some(song) && r.player.isPlaying && r.player.currentTime == 0
    ensures QueueIndexValid(r.player)
    ensures (exists i :: 0 <= i < |r.player.queue| && r.player.queue[i].id == song.id) ==>
              r.player.queueIndex < |r.player.queue| && r.player.queue[r.player.queueIndex].id == song.id &&
              forall j :: 0 <= j < r.player.queueIndex ==> r.player.queue[j].id != song.id
    ensures (forall i :: 0 <= i < |r.player.queue| ==> r.player.queue[i].id != song.id) ==> r.player.queueIndex == 0
    ensures r.player.isSeeking == s.player.isSeeking && r.player.seekDirection == s.player.seekDirection
    ensures r.settings == s.settings
    ensures r.player == s.player.(currentSong := Some(song), isPlaying := true, currentTime := 0,
                                  queue := r.player.queue, queueIndex := r.player.queueIndex)
    ensures r == s.(player := r.player, device := Lit(s.device))
  {
    var newQueue := if queue.Some? then queue.value else [song];
    var index := match FindIndex(newQueue, (x: Song) => x.id == song.id)
      case Some(i) => i
      case None => 0;
    s.(player := s.player.(currentSong := Some(song), isPlaying := true, currentTime := 0, queue := newQueue,
                           queueIndex := index),
       device := Lit(s.device))
  }

  function TogglePlayPause(s: StoreState): (r: StoreState)
    ensures r.player.isPlaying != s.player.isPlaying
    ensures r.player == s.player.(isPlaying := r.player.isPlaying)
  {
    s.(player := s.player.(isPlaying := !s.player.isPlaying), device := Lit(s.device))
  }

  /** Play/pause pressed twice resumes the state it started from; only the backlight stays lit. */
  lemma TogglePlayPauseTwice(s: StoreState)
    ensures TogglePlayPause(TogglePlayPause(s)) == ResetBacklight(s)
    ensures TogglePlayPause(s).player.isPlaying == !s.player.isPlaying
    ensures TogglePlayPause(s) == s.(player := TogglePlayPause(s).player, device := Lit(s.device))
  {
  }

  /** The position `nextTrack` moves to in a non-empty queue of length `len`, or `None` when
      playback stops at the end. `pick` stands for the random index of shuffle-songs mode. */
  function NextIndex(len: nat, index: nat, repeat: RepeatMode, shuffle: ShuffleMode, pick: nat): (r: Option<nat>)
    requires 0 < len && pick < len
    ensures r.None? <==> repeat.RepeatOff? && index + 1 >= len
    ensures index < len && r.Some? ==> r.value < len
  {
    var next := index + 1;
    if repeat != RepeatOne && next >= len && repeat != RepeatAll then None
    else
      var chosen := if repeat == RepeatOne then index else if next >= len then 0 else next;
      Some(if shuffle == ShuffleSongs then pick else chosen)
  }

  function NextTrack(s: StoreState, pick: nat): (r: StoreState)
    requires |s.player.queue| > 0 ==> pick < |s.player.queue|
    ensures r.player.queue == s.player.queue && r.settings == s.settings && r.songRatings == s.songRatings
    ensures r.player.isSeeking == s.player.isSeeking && r.player.seekDirection == s.player.seekDirection
    ensures QueueIndexValid(s.player) ==> QueueIndexValid(r.player)
  {
    var p := s.player;
    if |p.queue| == 0 then s
    else match NextIndex(|p.queue|, p.queueIndex, s.settings.repeat, s.settings.shuffle, pick)
      case None => s.(player := p.(isPlaying := false))
      case Some(index) =>
        s.(player := p.(currentSong := At(p.queue, index), queueIndex := index, currentTime := 0),
           device := Lit(s.device))
  }

  /** The position `previousTrack` steps back to in a non-empty queue of length `len`. */
  function PreviousIndex(len: nat, index: nat, repeat: RepeatMode): (r: nat)
    requires 0 < len
    ensures index < len ==> r < len
  {
    if index - 1 < 0 then (if repeat == RepeatAll then len - 1 else 0) else index - 1
  }

  function PreviousTrack(s: StoreState): (r: StoreState)
    ensures r.player.queue == s.player.queue && r.settings == s.settings && r.songRatings == s.songRatings
    ensures r.player.isSeeking == s.player.isSeeking && r.player.seekDirection == s.player.seekDirection
    ensures QueueIndexValid(s.player) ==> QueueIndexValid(r.player)
  {
    var p := s.player;
    if |p.queue| == 0 then s
    else if p.currentTime > 3 then s.(player := p.(currentTime := 0), device := Lit(s.device))
    else
      var index := PreviousIndex(|p.queue|, p.queueIndex, s.settings.repeat);
      s.(player := p.(currentSong := At(p.queue, index), queueIndex := index, currentTime := 0),
         device := Lit(s.device))
  }

  function SetCurrentTime(s: StoreState, time: int): StoreState
  {
    s.(player := s.player.(currentTime := time))
  }

  /** `shufflePlay`; `shuffled` is the order the random sort produced. */
  function ShufflePlay(s: StoreState, shuffled: seq<Song>): (r: StoreState)
    requires multiset(shuffled) == multiset(s.library.userSongs)
    ensures s.library.userSongs == [] ==> r == s
    ensures s.library.userSongs != [] ==>
              r.player.isPlaying && r.player.queueIndex == 0 && |r.player.queue| > 0 &&
              r.player.currentSong == Some(r.player.queue[0])
    ensures s.library.userSongs != [] ==> multiset(r.player.queue) == multiset(s.library.userSongs)
    ensures s.library.userSongs != [] ==> r.player.queue == shuffled && r.player.currentTime == 0
    ensures r.player.isSeeking == s.player.isSeeking && r.player.seekDirection == s.player.seekDirection
    ensures r.settings == s.settings
  {
    if |s.library.userSongs| == 0 then s
    else
      assert |shuffled| == |multiset(shuffled)| == |s.library.userSongs|;
      s.(player := s.player.(currentSong := Some(shuffled[0]), isPlaying := true, currentTime := 0,
                             queue := shuffled, queueIndex := 0),
         device := Lit(s.device))
  }

  lemma NextTrackOnEmptyQueue(s: StoreState, pick: nat)
    requires s.player.queue == []
    ensures NextTrack(s, pick) == s
  {
  }

  lemma NextTrackRepeatOne(s: StoreState, pick: nat)
    requires |s.player.queue| > 0 && pick < |s.player.queue| && QueueIndexValid(s.player)
    requires s.settings.repeat == RepeatOne && s.settings.shuffle != ShuffleSongs
    ensures NextTrack(s, pick).player.queueIndex == s.player.queueIndex
    ensures NextTrack(s, pick).player.currentSong == Some(s.player.queue[s.player.queueIndex])
    ensures NextTrack(s, pick).player.currentTime == 0
  {
    assert NextIndex(|s.player.queue|, s.player.queueIndex, RepeatOne, s.settings.shuffle, pick) == Some(s.player.queueIndex);
  }

  /** Past the end of the queue: wrap to the first song with repeat all, otherwise stop and keep
      everything else, including the position. */
  lemma NextTrackAtEnd(s: StoreState, pick: nat)
    requires |s.player.queue| > 0 && pick < |s.player.queue|
    requires s.player.queueIndex == |s.player.queue| - 1 && s.settings.repeat != RepeatOne
    ensures s.settings.repeat == RepeatOff ==> NextTrack(s, pick) == s.(player := s.player.(isPlaying := false))
    ensures s.settings.repeat == RepeatAll && s.settings.shuffle != ShuffleSongs ==>
              NextTrack(s, pick) == s.(player := s.player.(currentSong := Some(s.player.queue[0]), queueIndex := 0,
                                                           currentTime := 0),
                                       device := Lit(s.device))
  {
    var n := NextIndex(|s.player.queue|, s.player.queueIndex, s.settings.repeat, s.settings.shuffle, pick);
    if s.settings.repeat == RepeatOff {
      assert n.None?;
    } else if s.settings.shuffle != ShuffleSongs {
      assert n == Some(0);
    }
  }

  lemma NextTrackAdvances(s: StoreState, pick: nat)
    requires |s.player.queue| > 0 && pick < |s.player.queue|
    requires s.player.queueIndex + 1 < |s.player.queue|
    requires s.settings.repeat != RepeatOne && s.settings.shuffle != ShuffleSongs
    ensures NextTrack(s, pick).player.queueIndex == s.player.queueIndex + 1
    ensures NextTrack(s, pick).player.currentSong == Some(s.player.queue[s.player.queueIndex + 1])
    ensures NextTrack(s, pick) ==
              s.(player := s.player.(currentSong := Some(s.player.queue[s.player.queueIndex + 1]),
                                     queueIndex := s.player.queueIndex + 1, currentTime := 0),
                 device := Lit(s.device))
  {
    assert NextIndex(|s.player.queue|, s.player.queueIndex, s.settings.repeat, s.settings.shuffle, pick)
        == Some(s.player.queueIndex + 1);
  }

  /** In shuffle-songs mode any index of the queue may come next, unless playback stops. */
  lemma NextTrackShuffle(s: StoreState, pick: nat)
    requires |s.player.queue| > 0 && pick < |s.player.queue| && s.settings.shuffle == ShuffleSongs
    requires s.settings.repeat != RepeatOff || s.player.queueIndex + 1 < |s.player.queue|
    ensures NextTrack(s, pick).player.queueIndex == pick
    ensures NextTrack(s, pick).player.currentSong == Some(s.player.queue[pick])
    ensures NextTrack(s, pick) ==
              s.(player := s.player.(currentSong := Some(s.player.queue[pick]), queueIndex := pick, currentTime := 0),
                 device := Lit(s.device))
  {
    assert NextIndex(|s.player.queue|, s.player.queueIndex, s.settings.repeat, ShuffleSongs, pick) == Some(pick);
  }

  /** With nothing queued, the previous button changes nothing, not even the backlight. */
  lemma PreviousTrackOnEmptyQueue(s: StoreState)
    requires s.player.queue == []
    ensures PreviousTrack(s) == s
  {
  }

  lemma PreviousTrackRestarts(s: StoreState)
    requires |s.player.queue| > 0 && s.player.currentTime > 3
    ensures PreviousTrack(s) == s.(player := s.player.(currentTime := 0), device := Lit(s.device))
  {
  }

  lemma PreviousTrackSteps(s: StoreState)
    requires |s.player.queue| > 0 && s.player.currentTime <= 3 && QueueIndexValid(s.player)
    ensures s.player.queueIndex > 0 ==> PreviousTrack(s).player.queueIndex == s.player.queueIndex - 1
    ensures s.player.queueIndex == 0 && s.settings.repeat == RepeatAll ==>
              PreviousTrack(s).player.queueIndex == |s.player.queue| - 1
    ensures s.player.queueIndex == 0 && s.settings.repeat != RepeatAll ==> PreviousTrack(s).player.queueIndex == 0
    ensures PreviousTrack(s).player.currentSong == Some(s.player.queue[PreviousTrack(s).player.queueIndex])
    ensures PreviousTrack(s) ==
              s.(player := s.player.(currentSong := PreviousTrack(s).player.currentSong,
                                     queueIndex := PreviousTrack(s).player.queueIndex, currentTime := 0),
                 device := Lit(s.device))
  {
    var p := s.player;
    var i := PreviousIndex(|p.queue|, p.queueIndex, s.settings.repeat);
    assert i < |p.queue|;
    assert PreviousTrack(s).player == p.(currentSong := At(p.queue, i), queueIndex := i, currentTime := 0);
  }

  // ---------------------------------------------------------------- scrubbing

  function StartScrubbing(s: StoreState): StoreState
  {
    s.(player := s.player.(isScrubbing := true), device := Lit(s.device))
  }

  function StopScrubbing(s: StoreState): StoreState
  {
    s.(player := s.player.(isScrubbing := false), device := Lit(s.device))
  }

  function Scrub(s: StoreState, delta: int): (r: StoreState)
    ensures s.player.currentSong.None? || !s.player.isScrubbing ==> r == s
  {
    var p := s.player;
    if p.currentSong.None? || !p.isScrubbing then s
    else s.(player := p.(currentTime := Max(0, Min(p.currentSong.value.duration, p.currentTime + delta))),
            device := Lit(s.device))
  }

  /** A scrub moves the time by `delta`, stopped at the start and at the end of the song, and
      changes nothing else but the backlight. */
  lemma ScrubClamps(s: StoreState, delta: int)
    requires s.player.currentSong.Some? && s.player.isScrubbing && s.player.currentSong.value.duration >= 0
    ensures 0 <= Scrub(s, delta).player.currentTime <= s.player.currentSong.value.duration
    ensures 0 <= s.player.currentTime + delta <= s.player.currentSong.value.duration ==>
              Scrub(s, delta).player.currentTime == s.player.currentTime + delta
    ensures s.player.currentTime + delta < 0 ==> Scrub(s, delta).player.currentTime == 0
    ensures s.player.currentTime + delta > s.player.currentSong.value.duration ==>
              Scrub(s, delta).player.currentTime == s.player.currentSong.value.duration
    ensures Scrub(s, delta) == s.(player := s.player.(currentTime := Scrub(s, delta).player.currentTime),
                                  device := Lit(s.device))
  {
  }

  // ---------------------------------------------------------------- ratings

  function SetRating(s: StoreState, songId: string, rating: int): StoreState
  {
    s.(songRatings := s.songRatings[songId := rating], device := Lit(s.device))
  }

  /** `songRatings[songId] || 0`. */
  function GetRating(s: StoreState, songId: string): (r: int)
    ensures songId !in s.songRatings ==> r == 0
    ensures songId in s.songRatings ==> r == s.songRatings[songId]
  {
    if songId in s.songRatings then s.songRatings[songId] else 0
  }

  lemma RatingRoundTrip(s: StoreState, songId: string, rating: int, other: string)
    requires other != songId
    ensures GetRating(SetRating(s, songId, rating), songId) == rating
    ensures GetRating(SetRating(s, songId, rating), other) == GetRating(s, other)
  {
  }

  // ---------------------------------------------------------------- sleep, backlight, hold

  function Sleep(s: StoreState): (r: StoreState)
    ensures r.device.isSleeping && !r.player.isPlaying && !r.device.backlightOn
  {
    s.(player := s.player.(isPlaying := false), device := s.device.(isSleeping := true, backlightOn := false))
  }

  function Wake(s: StoreState): (r: StoreState)
    ensures !r.device.isSleeping && r.device.backlightOn && r.player == s.player
  {
    s.(device := s.device.(isSleeping := false, backlightOn := true))
  }

  function ToggleSleep(s: StoreState): StoreState
  {
    if s.device.isSleeping then s.(device := s.device.(isSleeping := false, backlightOn := true))
    else s.(player := s.player.(isPlaying := false), device := s.device.(isSleeping := true, backlightOn := false))
  }

  /** toggleSleep is wake while asleep and sleep otherwise; waking does not resume playback. */
  lemma ToggleSleepIsSleepOrWake(s: StoreState)
    ensures ToggleSleep(s) == if s.device.isSleeping then Wake(s) else Sleep(s)
    ensures !s.device.isSleeping ==>
              ToggleSleep(ToggleSleep(s)) == s.(player := s.player.(isPlaying := false), device := Lit(s.device))
  {
  }

  function ResetBacklight(s: StoreState): StoreState { s.(device := Lit(s.device)) }

  function DimBacklight(s: StoreState): StoreState { s.(device := s.device.(backlightOn := false)) }

  function ToggleHold(s: StoreState): (r: StoreState)
    ensures r.device.isHoldOn != s.device.isHoldOn
  {
    s.(device := s.device.(isHoldOn := !s.device.isHoldOn))
  }

  function SetHold(s: StoreState, on: bool): StoreState { s.(device := s.device.(isHoldOn := on)) }

  lemma ToggleHoldInvolution(s: StoreState)
    ensures ToggleHold(ToggleHold(s)) == s
  {
  }

  // ---------------------------------------------------------------- settings and volume

  function UpdateSettings(s: StoreState, patch: SettingsPatch): StoreState
  {
    s.(settings := ApplyPatch(s.settings, patch), device := Lit(s.device))
  }

  /** A patch sets exactly the fields it names. */
  lemma UpdateSettingsSetsNamedFields(s: StoreState, patch: SettingsPatch)
    ensures patch.shuffle.Some? ==> UpdateSettings(s, patch).settings.shuffle == patch.shuffle.value
    ensures patch.shuffle.None? ==> UpdateSettings(s, patch).settings.shuffle == s.settings.shuffle
    ensures patch.repeat.Some? ==> UpdateSettings(s, patch).settings.repeat == patch.repeat.value
    ensures patch.repeat.None? ==> UpdateSettings(s, patch).settings.repeat == s.settings.repeat
    ensures patch.backlightTimer.Some? ==> UpdateSettings(s, patch).settings.backlightTimer == patch.backlightTimer.value
    ensures patch.brightness.Some? ==> UpdateSettings(s, patch).settings.brightness == patch.brightness.value
    ensures patch.clicker.Some? ==> UpdateSettings(s, patch).settings.clicker == patch.clicker.value
    ensures patch.volume.Some? ==> UpdateSettings(s, patch).settings.volume == patch.volume.value
    ensures patch.backlightTimer.None? ==> UpdateSettings(s, patch).settings.backlightTimer == s.settings.backlightTimer
    ensures patch.brightness.None? ==> UpdateSettings(s, patch).settings.brightness == s.settings.brightness
    ensures patch.clicker.None? ==> UpdateSettings(s, patch).settings.clicker == s.settings.clicker
    ensures patch.volume.None? ==> UpdateSettings(s, patch).settings.volume == s.settings.volume
    ensures UpdateSettings(s, EmptyPatch) == s.(device := Lit(s.device))
  {
  }

  function AdjustVolume(s: StoreState, delta: int): (r: StoreState)
    ensures 0 <= r.settings.volume <= 100
    ensures r.device.showVolumeOverlay
  {
    s.(settings := s.settings.(volume := Max(0, Min(100, s.settings.volume + delta))),
       device := s.device.(showVolumeOverlay := true, backlightOn := true))
  }

  /** Only the volume moves, by `delta` unless stopped at 0 or 100. */
  lemma AdjustVolumeChangesOnlyVolume(s: StoreState, delta: int)
    ensures AdjustVolume(s, delta).settings == s.settings.(volume := AdjustVolume(s, delta).settings.volume)
    ensures 0 <= s.settings.volume + delta <= 100 ==> AdjustVolume(s, delta).settings.volume == s.settings.volume + delta
    ensures s.settings.volume + delta > 100 ==> AdjustVolume(s, delta).settings.volume == 100
    ensures s.settings.volume + delta < 0 ==> AdjustVolume(s, delta).settings.volume == 0
  {
  }

  /** `showVolume`: the overlay is shown and a hide is scheduled, replacing any earlier one. */
  function ShowVolume(s: StoreState): StoreState
  {
    s.(device := s.device.(showVolumeOverlay := true, volumeTimerPending := true))
  }

  function HideVolume(s: StoreState): StoreState
  {
    s.(device := s.device.(showVolumeOverlay := false, volumeTimerPending := false))
  }

  /** The scheduled hide fires (1500 ms after the last `showVolume`); without one nothing happens. */
  function VolumeTimerFired(s: StoreState): (r: StoreState)
    ensures !r.device.volumeTimerPending
    ensures !s.device.volumeTimerPending ==> r == s
  {
    if s.device.volumeTimerPending then s.(device := s.device.(showVolumeOverlay := false, volumeTimerPending := false))
    else s
  }

  lemma ShowThenTimerHides(s: StoreState)
    ensures VolumeTimerFired(ShowVolume(s)) == HideVolume(s)
    ensures ShowVolume(ShowVolume(s)) == ShowVolume(s)
  {
  }

  // ---------------------------------------------------------------- seeking

  function StartSeeking(s: StoreState, direction: SeekDirection): StoreState
  {
    s.(player := s.player.(isSeeking := true, seekDirection := Some(direction)), device := Lit(s.device))
  }

  function StopSeeking(s: StoreState): StoreState
  {
    s.(player := s.player.(isSeeking := false, seekDirection := None))
  }

  /** The seek direction is set exactly while seeking. */
  predicate SeekConsistent(p: PlayerState)
  {
    p.isSeeking <==> p.seekDirection.Some?
  }

  // ---------------------------------------------------------------- photos

  function SetCurrentPhoto(s: StoreState, albumId: string, index: int): StoreState
  {
    s.(photos := PhotoState(index, Some(albumId)), device := Lit(s.device))
  }

  function NextPhoto(s: StoreState): (r: StoreState)
    ensures r.photos.currentPhotoIndex == s.photos.currentPhotoIndex + 1
  {
    s.(photos := s.photos.(currentPhotoIndex := s.photos.currentPhotoIndex + 1), device := Lit(s.device))
  }

  function PreviousPhoto(s: StoreState): (r: StoreState)
    ensures r.photos.currentPhotoIndex >= 0
    ensures s.photos.currentPhotoIndex > 0 ==> r.photos.currentPhotoIndex == s.photos.currentPhotoIndex - 1
    ensures s.photos.currentPhotoIndex <= 0 ==> r.photos.currentPhotoIndex == 0
    ensures r == s.(photos := s.photos.(currentPhotoIndex := r.photos.currentPhotoIndex), device := Lit(s.device))
  {
    s.(photos := s.photos.(currentPhotoIndex := Max(0, s.photos.currentPhotoIndex - 1)), device := Lit(s.device))
  }

  /** A step forward and a step back return to the same photo of the same album, and neither
      step touches anything but the photo index and the backlight. */
  lemma NextThenPreviousPhoto(s: StoreState)
    requires s.photos.currentPhotoIndex >= 0
    ensures PreviousPhoto(NextPhoto(s)) == ResetBacklight(s)
    ensures NextPhoto(s).photos.currentPhotoIndex > s.photos.currentPhotoIndex
    ensures NextPhoto(s) == s.(photos := NextPhoto(s).photos, device := Lit(s.device))
    ensures NextPhoto(s).photos.currentPhotoAlbumId == s.photos.currentPhotoAlbumId
  {
  }

  // ---------------------------------------------------------------- user library

  function SetUserSongs(s: StoreState, songs: seq<Song>): StoreState
  {
    s.(library := s.library.(userSongs := songs))
  }

  function AddUserSong(s: StoreState, song: Song): (r: StoreState)
    ensures r.library.userSongs == s.library.userSongs + [song]
  {
    s.(library := s.library.(userSongs := s.library.userSongs + [song]))
  }

  function NotId(id: string): Song -> bool { (x: Song) => x.id != id }

  function RemoveUserSong(s: StoreState, songId: string): (r: StoreState)
    ensures forall x :: x in r.library.userSongs <==> x in s.library.userSongs && x.id != songId
    ensures |r.library.userSongs| <= |s.library.userSongs|
    ensures r == s.(library := s.library.(userSongs := Filter(s.library.userSongs, NotId(songId))))
  {
    var songs := s.library.userSongs;
    forall x ensures x in Filter(songs, NotId(songId)) <==> x in songs && x.id != songId {
      FilterMembership(songs, NotId(songId), x);
    }
    s.(library := s.library.(userSongs := Filter(songs, NotId(songId))))
  }

  function SetUserLibraryLoaded(s: StoreState, loaded: bool): StoreState
  {
    s.(library := s.library.(userLibraryLoaded := loaded))
  }

  /** Removing a song just added under a fresh id gives back the earlier state. */
  lemma AddThenRemoveUserSong(s: StoreState, song: Song)
    requires forall x :: x in s.library.userSongs ==> x.id != song.id
    ensures RemoveUserSong(AddUserSong(s, song), song.id) == s
  {
    var p := NotId(song.id);
    FilterConcat(s.library.userSongs, [song], p);
    FilterAll(s.library.userSongs, p);
    assert Filter([song], p) == [];
  }

  // ---------------------------------------------------------------- all actions

  /** Every store action with its arguments, grouped by what it is about, so that properties
      can be stated for all of them. */
  datatype Action =
    | Navigation(n: NavigationAction)
    | Playback(p: PlaybackAction)
    | Device(d: DeviceAction)
    | SettingsChange(c: SettingsAction)
    | Library(l: LibraryAction)

  datatype NavigationAction =
    | NavigateToAction(screen: NavigationItem)
    | GoBackAction
    | SetSelectedIndexAction(index: int)
    | IncrementSelectedIndexAction(max: int)
    | DecrementSelectedIndexAction

  datatype PlaybackAction =
    | PlaySongAction(song: Song, queue: Option<seq<Song>>)
    | TogglePlayPauseAction
    | NextTrackAction(pick: nat)
    | PreviousTrackAction
    | SetCurrentTimeAction(time: int)
    | ShufflePlayAction(shuffled: seq<Song>)
    | StartScrubbingAction
    | StopScrubbingAction
    | ScrubAction(delta: int)
    | StartSeekingAction(direction: SeekDirection)
    | StopSeekingAction

  datatype DeviceAction =
    | SetRatingAction(songId: string, rating: int)
    | SleepAction
    | WakeAction
    | ToggleSleepAction
    | ResetBacklightAction
    | DimBacklightAction
    | ToggleHoldAction
    | SetHoldAction(on: bool)
    | ShowVolumeAction
    | HideVolumeAction
    | VolumeTimerFiredAction

  datatype SettingsAction =
    | UpdateSettingsAction(patch: SettingsPatch)
    | AdjustVolumeAction(delta: int)

  datatype LibraryAction =
    | SetCurrentPhotoAction(albumId: string, index: int)
    | NextPhotoAction
    | PreviousPhotoAction
    | SetUserSongsAction(songs: seq<Song>)
    | AddUserSongAction(song: Song)
    | RemoveUserSongAction(songId: string)
    | SetUserLibraryLoadedAction(loaded: bool)

  /** What the inputs standing for randomness must be: a random index inside the queue and a
      permutation of the user songs. */
  predicate Admissible(s: StoreState, a: PlaybackAction)
  {
    match a
    case NextTrackAction(pick) => |s.player.queue| > 0 ==> pick < |s.player.queue|
    case ShufflePlayAction(shuffled) => multiset(shuffled) == multiset(s.library.userSongs)
    case _ => true
  }

  function NavigationStep(s: StoreState, a: NavigationAction): StoreState
  {
    match a
    case NavigateToAction(screen) => NavigateTo(s, screen)
    case GoBackAction => GoBack(s)
    case SetSelectedIndexAction(index) => SetSelectedIndex(s, index)
    case IncrementSelectedIndexAction(max) => IncrementSelectedIndex(s, max)
    case DecrementSelectedIndexAction => DecrementSelectedIndex(s)
  }

  function PlaybackStep(s: StoreState, a: PlaybackAction): StoreState
    requires Admissible(s, a)
  {
    match a
    case PlaySongAction(song, queue) => PlaySong(s, song, queue)
    case TogglePlayPauseAction => TogglePlayPause(s)
    case NextTrackAction(pick) => NextTrack(s, pick)
    case PreviousTrackAction => PreviousTrack(s)
    case SetCurrentTimeAction(time) => SetCurrentTime(s, time)
    case ShufflePlayAction(shuffled) => ShufflePlay(s, shuffled)
    case StartScrubbingAction => StartScrubbing(s)
    case StopScrubbingAction => StopScrubbing(s)
    case ScrubAction(delta) => Scrub(s, delta)
    case StartSeekingAction(direction) => StartSeeking(s, direction)
    case StopSeekingAction => StopSeeking(s)
  }

  function DeviceStep(s: StoreState, a: DeviceAction): StoreState
  {
    match a
    case SetRatingAction(songId, rating) => SetRating(s, songId, rating)
    case SleepAction => Sleep(s)
    case WakeAction => Wake(s)
    case ToggleSleepAction => ToggleSleep(s)
    case ResetBacklightAction => ResetBacklight(s)
    case DimBacklightAction => DimBacklight(s)
    case ToggleHoldAction => ToggleHold(s)
    case SetHoldAction(on) => SetHold(s, on)
    case ShowVolumeAction => ShowVolume(s)
    case HideVolumeAction => HideVolume(s)
    case VolumeTimerFiredAction => VolumeTimerFired(s)
  }

  function SettingsStep(s: StoreState, a: SettingsAction): StoreState
  {
    match a
    case UpdateSettingsAction(patch) => UpdateSettings(s, patch)
    case AdjustVolumeAction(delta) => AdjustVolume(s, delta)
  }

  function LibraryStep(s: StoreState, a: LibraryAction): StoreState
  {
    match a
    case SetCurrentPhotoAction(albumId, index) => SetCurrentPhoto(s, albumId, index)
    case NextPhotoAction => NextPhoto(s)
    case PreviousPhotoAction => PreviousPhoto(s)
    case SetUserSongsAction(songs) => SetUserSongs(s, songs)
    case AddUserSongAction(song) => AddUserSong(s, song)
    case RemoveUserSongAction(songId) => RemoveUserSong(s, songId)
    case SetUserLibraryLoadedAction(loaded) => SetUserLibraryLoaded(s, loaded)
  }

  predicate CanStep(s: StoreState, a: Action)
  {
    a.Playback? ==> Admissible(s, a.p)
  }

  function Step(s: StoreState, a: Action): StoreState
    requires CanStep(s, a)
  {
    match a
    case Navigation(n) => NavigationStep(s, n)
    case Playback(p) => PlaybackStep(s, p)
    case Device(d) => DeviceStep(s, d)
    case SettingsChange(c) => SettingsStep(s, c)
    case Library(l) => LibraryStep(s, l)
  }

  /** The facts every reachable state keeps: a meaningful queue position, a seek direction
      exactly while seeking, and a percentage volume. */
  predicate Valid(s: StoreState)
  {
    QueueIndexValid(s.player) && SeekConsistent(s.player) && 0 <= s.settings.volume <= 100
  }

  /** Settings patches as the screens send them: none of them carries a volume out of range. */
  predicate KeepsValid(a: Action)
  {
    a.SettingsChange? && a.c.UpdateSettingsAction? && a.c.patch.volume.Some? ==> 0 <= a.c.patch.volume.value <= 100
  }

  lemma InitialValid()
    ensures Valid(Initial())
  {
  }

  /** What `Valid` speaks about is the same in both states. */
  predicate SamePlayback(s: StoreState, t: StoreState)
  {
    t.player.queue == s.player.queue && t.player.queueIndex == s.player.queueIndex &&
    t.player.isSeeking == s.player.isSeeking && t.player.seekDirection == s.player.seekDirection &&
    t.settings.volume == s.settings.volume
  }

  /** Navigation, the device controls and the library leave the queue, the seeking state and
      the volume alone. */
  lemma OthersKeepPlayback(s: StoreState, a: Action)
    requires !a.Playback? && !a.SettingsChange?
    ensures SamePlayback(s, Step(s, a))
  {
    match a
    case Navigation(n) =>
    case Device(d) =>
    case Library(l) =>
  }

  lemma PlaybackKeepsValid(s: StoreState, a: PlaybackAction)
    requires Valid(s) && Admissible(s, a)
    ensures Valid(PlaybackStep(s, a))
  {
    match a
    case PlaySongAction(song, queue) =>
      var t := PlaySong(s, song, queue);
      assert QueueIndexValid(t.player) && SeekConsistent(t.player) && t.settings == s.settings;
    case ShufflePlayAction(shuffled) =>
      var t := ShufflePlay(s, shuffled);
      assert QueueIndexValid(t.player) && SeekConsistent(t.player) && t.settings == s.settings;
    case _ =>
  }

  lemma SettingsKeepValid(s: StoreState, a: SettingsAction)
    requires Valid(s) && KeepsValid(SettingsChange(a))
    ensures Valid(SettingsStep(s, a))
  {
    match a
    case UpdateSettingsAction(patch) =>
      assert SettingsStep(s, a).settings.volume == patch.volume.GetOr(s.settings.volume);
    case AdjustVolumeAction(delta) =>
  }

  lemma StepPreservesValid(s: StoreState, a: Action)
    requires Valid(s) && CanStep(s, a) && KeepsValid(a)
    ensures Valid(Step(s, a))
  {
    if a.Playback? {
      PlaybackKeepsValid(s, a.p);
    } else if a.SettingsChange? {
      SettingsKeepValid(s, a.c);
    } else {
      OthersKeepPlayback(s, a);
    }
  }

  /** Runs a sequence of actions; `None` if one of them is not admissible where it is applied. */
  function Run(s: StoreState, actions: seq<Action>): Option<StoreState>
    decreases |actions|
  {
    if actions == [] then Some(s)
    else if !CanStep(s, actions[0]) then None
    else Run(Step(s, actions[0]), actions[1..])
  }

  /** Whatever the user does, the queue position stays inside the queue, the seek direction is
      set exactly while seeking, and the volume stays inside [0, 100]. */
  lemma {:induction false} RunPreservesValid(s: StoreState, actions: seq<Action>)
    requires Valid(s)
    requires forall i :: 0 <= i < |actions| ==> KeepsValid(actions[i])
    ensures Run(s, actions).Some? ==> Valid(Run(s, actions).value)
    decreases |actions|
  {
    if actions != [] && CanStep(s, actions[0]) {
      StepPreservesValid(s, actions[0]);
      RunPreservesValid(Step(s, actions[0]), actions[1..]);
    }
  }

  /** The part of the state kept across page loads. */
  function Persisted(s: StoreState): (Settings, map<string, int>)
  {
    (s.settings, s.songRatings)
  }

  /** Navigation, playback and the library never change what is kept across page loads; only
      settings updates, volume changes and ratings do. */
  lemma NavigationDoesNotPersist(s: StoreState, a: NavigationAction)
    ensures Persisted(NavigationStep(s, a)) == Persisted(s)
  {
  }

  lemma PlaybackDoesNotPersist(s: StoreState, a: PlaybackAction)
    requires Admissible(s, a)
    ensures Persisted(PlaybackStep(s, a)) == Persisted(s)
  {
  }

  lemma LibraryDoesNotPersist(s: StoreState, a: LibraryAction)
    ensures Persisted(LibraryStep(s, a)) == Persisted(s)
  {
  }
}
