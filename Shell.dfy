/**
 * The device shell: what each wheel callback does to the store, given the mode the device is
 * in (scrubbing, photo viewer, menus, stopwatch or timer, asleep), and the backlight check.
 *
 * The decisions are functions on the store record; the handler methods drive the store object
 * and are specified by them. Select and play/pause on the stopwatch and timer screens, and
 * select on a menu, are answered with the `Route` value: the clock and the menu screen handle
 * them (modules Clock and MainMenu).
 */
module Shell {
  import opened Wrappers
  import opened Types
  import MockData
  import opened ClickWheel
  import SM = StoreModel
  import Store

  /** Seconds one scroll step moves the playback position while scrubbing. */
  const ScrubStep := 5

  /** Where a handled callback goes next. */
  datatype Route = Handled | ToClock | ToMenu

  /** The album a photo-viewer screen shows: its album id, or "pa1" when it has none. */
  function ViewerAlbumId(screen: NavigationItem): (id: string)
    ensures id != ""
    ensures screen.data.PhotoAlbumData? && screen.data.albumId != "" ==> id == screen.data.albumId
    ensures !(screen.data.PhotoAlbumData? && screen.data.albumId != "") ==> id == "pa1"
  {
    match screen.data
    case PhotoAlbumData(albumId) => if albumId == "" then "pa1" else albumId
    case _ => "pa1"
  }

  function ViewerPhotoCount(screen: NavigationItem): nat
  {
    |MockData.PhotosByAlbum(ViewerAlbumId(screen))|
  }

  /** The photo after `index` in an album of `count` photos, stopping at the last one. */
  function NextPhotoIndex(index: int, count: int): int { SM.Min(index + 1, count - 1) }

  /** The photo before `index`, stopping at the first one. */
  function PreviousPhotoIndex(index: int): int { SM.Max(index - 1, 0) }

  /** Stepping through a non-empty album stays inside it, moving by one photo except at the ends. */
  lemma PhotoStepsStayInAlbum(index: int, count: int)
    requires 0 <= index < count
    ensures 0 <= NextPhotoIndex(index, count) < count && 0 <= PreviousPhotoIndex(index) < count
    ensures index + 1 < count ==> NextPhotoIndex(index, count) == index + 1
    ensures index + 1 == count ==> NextPhotoIndex(index, count) == index
    ensures index > 0 ==> PreviousPhotoIndex(index) == index - 1
    ensures index == 0 ==> PreviousPhotoIndex(index) == 0
  {
  }

  predicate OnClockScreen(s: SM.StoreState)
  {
    s.nav.currentScreen.screenType == StopwatchType || s.nav.currentScreen.screenType == TimerType
  }

  predicate OnPhotoViewer(s: SM.StoreState)
  {
    s.nav.currentScreen.screenType == PhotoViewerType
  }

  predicate ScrubbingSong(s: SM.StoreState)
  {
    s.player.isScrubbing && s.player.currentSong.Some?
  }

  // ---------------------------------------------------------------- the handlers

  function OnScroll(s: SM.StoreState, direction: Direction, itemCount: int): SM.StoreState
  {
    if ScrubbingSong(s) then SM.Scrub(s, if direction == Down then ScrubStep else -ScrubStep)
    else if OnPhotoViewer(s) then
      var albumId := ViewerAlbumId(s.nav.currentScreen);
      var index := s.photos.currentPhotoIndex;
      SM.SetCurrentPhoto(s, albumId,
        if direction == Down then NextPhotoIndex(index, ViewerPhotoCount(s.nav.currentScreen)) else PreviousPhotoIndex(index))
    else if direction == Up then SM.DecrementSelectedIndex(s)
    else SM.IncrementSelectedIndex(s, itemCount)
  }

  function OnMenu(s: SM.StoreState): SM.StoreState
  {
    if s.player.isScrubbing then SM.StopScrubbing(s) else SM.GoBack(s)
  }

  function OnSelect(s: SM.StoreState): (SM.StoreState, Route)
  {
    if OnClockScreen(s) then (s, ToClock)
    else if s.player.isScrubbing then (SM.StopScrubbing(s), Handled)
    else (s, ToMenu)
  }

  function OnSelectLongPress(s: SM.StoreState): SM.StoreState
  {
    if s.nav.currentScreen.screenType == NowPlayingType && s.player.currentSong.Some? then SM.StartScrubbing(s)
    else s
  }

  function OnPlayPause(s: SM.StoreState): (SM.StoreState, Route)
  {
    if OnClockScreen(s) then (s, ToClock)
    else if s.player.currentSong.Some? then (SM.TogglePlayPause(s), Handled)
    else (s, Handled)
  }

  function OnNext(s: SM.StoreState, pick: nat): SM.StoreState
    requires |s.player.queue| > 0 ==> pick < |s.player.queue|
  {
    if OnPhotoViewer(s) then
      SM.SetCurrentPhoto(s, ViewerAlbumId(s.nav.currentScreen),
        NextPhotoIndex(s.photos.currentPhotoIndex, ViewerPhotoCount(s.nav.currentScreen)))
    else if s.player.currentSong.Some? then SM.NextTrack(s, pick)
    else s
  }

  function OnPrevious(s: SM.StoreState): SM.StoreState
  {
    if OnPhotoViewer(s) then
      SM.SetCurrentPhoto(s, ViewerAlbumId(s.nav.currentScreen), PreviousPhotoIndex(s.photos.currentPhotoIndex))
    else if s.player.currentSong.Some? then SM.PreviousTrack(s)
    else s
  }

  /** The callbacks the shell gives the wheel while awake. It gives none for the long presses
      of the track buttons or for the seek release, so those do nothing. */
  function OnAwakeCallback(s: SM.StoreState, e: WheelEvent, itemCount: int, pick: nat): (SM.StoreState, Route)
    requires |s.player.queue| > 0 ==> pick < |s.player.queue|
  {
    match e
    case Scroll(direction) => (OnScroll(s, direction, itemCount), Handled)
    case Select => OnSelect(s)
    case SelectLongPress => (OnSelectLongPress(s), Handled)
    case Menu => (OnMenu(s), Handled)
    case PlayPause => OnPlayPause(s)
    case PlayPauseLongPress => (SM.Sleep(s), Handled)
    case Next => (OnNext(s, pick), Handled)
    case Previous => (OnPrevious(s), Handled)
    case NextLongPress => (s, Handled)
    case PreviousLongPress => (s, Handled)
    case SeekRelease => (s, Handled)
  }

  /** The callbacks the sleeping device gives the wheel: each of them wakes it. */
  predicate WakesFromSleep(e: WheelEvent)
  {
    !(e.NextLongPress? || e.PreviousLongPress? || e.SeekRelease?)
  }

  function OnCallback(s: SM.StoreState, e: WheelEvent, itemCount: int, pick: nat): (SM.StoreState, Route)
    requires |s.player.queue| > 0 ==> pick < |s.player.queue|
  {
    if s.device.isSleeping then (if WakesFromSleep(e) then SM.Wake(s) else s, Handled)
    else OnAwakeCallback(s, e, itemCount, pick)
  }

  /** What one signal of the wheel does to the store. */
  function OnSignal(s: SM.StoreState, x: Signal, itemCount: int, pick: nat): (SM.StoreState, Route)
    requires |s.player.queue| > 0 ==> pick < |s.player.queue|
  {
    match x
    case ResetBacklightSignal => (SM.ResetBacklight(s), Handled)
    case ToggleHoldSignal => (SM.ToggleHold(s), Handled)
    case VolumeSignal(delta) => (SM.ShowVolume(SM.AdjustVolume(s, delta)), Handled)
    case Callback(e) => OnCallback(s, e, itemCount, pick)
  }

  /** A click on the sleep screen. */
  function OnSleepScreenClick(s: SM.StoreState): (r: SM.StoreState)
    ensures !r.device.isSleeping
    ensures !s.device.isSleeping ==> r == s
  {
    if s.device.isSleeping then SM.Wake(s) else s
  }

  // ---------------------------------------------------------------- backlight

  /** The once-a-second backlight check, `elapsedMs` milliseconds after the last activity. The
      check runs only while awake and with a backlight timeout (0 means always on). */
  predicate ShouldDim(s: SM.StoreState, elapsedMs: int)
  {
    !s.device.isSleeping && s.settings.backlightTimer != 0 && s.device.backlightOn &&
    elapsedMs >= s.settings.backlightTimer * 1000
  }

  function CheckBacklight(s: SM.StoreState, elapsedMs: int): SM.StoreState
  {
    if ShouldDim(s, elapsedMs) then SM.DimBacklight(s) else s
  }

  /** The backlight goes off exactly when the device is awake, the timeout is set, the light is on
      and the timeout has passed; nothing else changes. */
  lemma CheckBacklightDims(s: SM.StoreState, elapsedMs: int)
    ensures !CheckBacklight(s, elapsedMs).device.backlightOn <==>
              !s.device.backlightOn || (!s.device.isSleeping && s.settings.backlightTimer != 0 &&
                                        elapsedMs >= s.settings.backlightTimer * 1000)
    ensures CheckBacklight(s, elapsedMs) == s.(device := s.device.(backlightOn := CheckBacklight(s, elapsedMs).device.backlightOn))
    ensures s.settings.backlightTimer == 0 ==> CheckBacklight(s, elapsedMs) == s
  {
  }

  // ---------------------------------------------------------------- properties of the routing

  /** While scrubbing a song the wheel only scrubs, five seconds per step. */
  lemma ScrollWhileScrubbing(s: SM.StoreState, direction: Direction, itemCount: int)
    requires ScrubbingSong(s)
    ensures OnScroll(s, direction, itemCount) == SM.Scrub(s, if direction == Down then 5 else -5)
    ensures OnScroll(s, direction, itemCount).nav == s.nav && OnScroll(s, direction, itemCount).photos == s.photos
  {
  }

  /** On the photo viewer a turn of the wheel sets the photo of the viewed album to the next or
      the previous index. */
  lemma PhotoViewerScroll(s: SM.StoreState, direction: Direction, itemCount: int)
    requires OnPhotoViewer(s) && !ScrubbingSong(s)
    ensures var index := s.photos.currentPhotoIndex;
            OnScroll(s, direction, itemCount) ==
              SM.SetCurrentPhoto(s, ViewerAlbumId(s.nav.currentScreen),
                                 if direction == Down then NextPhotoIndex(index, ViewerPhotoCount(s.nav.currentScreen))
                                 else PreviousPhotoIndex(index))
  {
  }

  /** On the photo viewer the wheel steps through the album and stays in it. */
  lemma PhotoViewerSteps(s: SM.StoreState, direction: Direction, itemCount: int)
    requires OnPhotoViewer(s) && !ScrubbingSong(s)
    requires 0 <= s.photos.currentPhotoIndex < ViewerPhotoCount(s.nav.currentScreen)
    ensures 0 <= OnScroll(s, direction, itemCount).photos.currentPhotoIndex < ViewerPhotoCount(s.nav.currentScreen)
    ensures OnScroll(s, direction, itemCount).photos.currentPhotoAlbumId == Some(ViewerAlbumId(s.nav.currentScreen))
    ensures OnScroll(s, direction, itemCount).player == s.player
  {
    PhotoViewerScroll(s, direction, itemCount);
    PhotoStepsStayInAlbum(s.photos.currentPhotoIndex, ViewerPhotoCount(s.nav.currentScreen));
  }

  /** On the photo viewer the track buttons do what the wheel does: next is a turn down and
      previous a turn up, and neither touches playback. */
  lemma PhotoViewerButtons(s: SM.StoreState, itemCount: int, pick: nat)
    requires OnPhotoViewer(s) && !ScrubbingSong(s)
    requires |s.player.queue| > 0 ==> pick < |s.player.queue|
    ensures OnNext(s, pick) == OnScroll(s, Down, itemCount) && OnPrevious(s) == OnScroll(s, Up, itemCount)
    ensures OnNext(s, pick).player == s.player && OnPrevious(s).player == s.player
  {
  }

  /** Elsewhere the wheel moves the menu selection, inside a list of `itemCount >= 1` rows. */
  lemma MenuScroll(s: SM.StoreState, direction: Direction, itemCount: int)
    requires !OnPhotoViewer(s) && !ScrubbingSong(s)
    ensures OnScroll(s, direction, itemCount) ==
              if direction == Up then SM.DecrementSelectedIndex(s) else SM.IncrementSelectedIndex(s, itemCount)
    ensures 1 <= itemCount && 0 <= s.nav.selectedIndex < itemCount ==>
              0 <= OnScroll(s, direction, itemCount).nav.selectedIndex < itemCount
  {
    if 1 <= itemCount && 0 <= s.nav.selectedIndex < itemCount {
      SM.ScrollStaysInList(s, itemCount);
    }
  }

  /** While scrubbing, MENU and select only stop scrubbing: MENU never goes back. Select on the
      stopwatch or timer still goes to the clock first. */
  lemma ButtonsWhileScrubbing(s: SM.StoreState)
    requires s.player.isScrubbing
    ensures OnMenu(s) == SM.StopScrubbing(s) && OnMenu(s).nav == s.nav
    ensures OnClockScreen(s) ==> OnSelect(s) == (s, ToClock)
    ensures !OnClockScreen(s) ==> OnSelect(s) == (SM.StopScrubbing(s), Handled)
    ensures !OnMenu(s).player.isScrubbing
  {
  }

  /** Select's long press starts scrubbing exactly on the now-playing screen with a song loaded. */
  lemma LongPressStartsScrubbing(s: SM.StoreState)
    ensures OnSelectLongPress(s).player.isScrubbing <==>
              s.player.isScrubbing || (s.nav.currentScreen.screenType == NowPlayingType && s.player.currentSong.Some?)
    ensures !(s.nav.currentScreen.screenType == NowPlayingType && s.player.currentSong.Some?) ==> OnSelectLongPress(s) == s
  {
  }

  /** Without a song, play/pause, next and previous leave playback alone. */
  lemma NoSongNoPlayback(s: SM.StoreState, pick: nat)
    requires s.player.currentSong.None? && (|s.player.queue| > 0 ==> pick < |s.player.queue|)
    ensures OnPlayPause(s).0 == s
    ensures OnNext(s, pick).player == s.player && OnPrevious(s).player == s.player
  {
  }

  /** With a song and away from the photo viewer and the clock, the buttons drive playback. */
  lemma ButtonsDrivePlayback(s: SM.StoreState, pick: nat)
    requires s.player.currentSong.Some? && !OnPhotoViewer(s) && !OnClockScreen(s)
    requires |s.player.queue| > 0 ==> pick < |s.player.queue|
    ensures OnPlayPause(s) == (SM.TogglePlayPause(s), Handled)
    ensures OnNext(s, pick) == SM.NextTrack(s, pick) && OnPrevious(s) == SM.PreviousTrack(s)
  {
  }

  /** While asleep, every callback of the wheel, long presses included, only wakes the device. */
  lemma SleepingOnlyWakes(s: SM.StoreState, e: WheelEvent, itemCount: int, pick: nat)
    requires s.device.isSleeping && (|s.player.queue| > 0 ==> pick < |s.player.queue|)
    requires WakesFromSleep(e)
    ensures OnCallback(s, e, itemCount, pick) == (SM.Wake(s), Handled)
    ensures OnCallback(s, e, itemCount, pick).0.player == s.player && OnCallback(s, e, itemCount, pick).0.nav == s.nav
  {
  }

  // ---------------------------------------------------------------- the hold lock and the wheel

  /** `disabled` as the shell passes it to the wheel: it passes none, so the wheel is never
      disabled. */
  function WheelDisabledAsWired(s: SM.StoreState): bool { false }

  /** The evidently intended wiring: the wheel is disabled while hold is on. */
  function WheelDisabled(s: SM.StoreState): bool { s.device.isHoldOn }

  /** As wired, hold does not lock the wheel: with hold on, a click of the centre button reaches
      the shell as Select. */
  lemma HoldLeavesWheelOpenAsWired(s: SM.StoreState, w: WheelState)
    requires s.device.isHoldOn
    ensures RunWheel(w, WheelDisabledAsWired(s), s.player.isScrubbing, s.device.isHoldOn,
                     [ButtonDownInput(CenterButton), ButtonUpInput(CenterButton)]).1
         == [ResetBacklightSignal, Callback(Select)]
  {
    EnabledWheelClicks(w, s.player.isScrubbing, s.device.isHoldOn);
  }

  /** With the intended wiring, hold lets through only the hold switch and the volume keys, for
      any inputs to the wheel, provided no press was under way when hold went on. */
  lemma HoldLocksWheel(s: SM.StoreState, w: WheelState, inputs: seq<WheelInput>)
    requires s.device.isHoldOn && NoTimerPending(w)
    ensures forall x :: x in RunWheel(w, WheelDisabled(s), s.player.isScrubbing, s.device.isHoldOn, inputs).1 ==>
              PassesHold(x)
  {
    DisabledWheelRun(w, s.player.isScrubbing, inputs);
  }

  /** The signals that pass the hold lock change neither the screen nor playback. */
  lemma HoldSignalsKeepScreenAndPlayback(s: SM.StoreState, x: Signal, itemCount: int, pick: nat)
    requires PassesHold(x) && (|s.player.queue| > 0 ==> pick < |s.player.queue|)
    ensures OnSignal(s, x, itemCount, pick).0.nav == s.nav && OnSignal(s, x, itemCount, pick).0.player == s.player
  {
  }

  // ---------------------------------------------------------------- the handlers on the store object

  method HandleScroll(store: Store.IPodStore, direction: Direction, itemCount: int)
    modifies store
    ensures store.Snapshot() == OnScroll(old(store.Snapshot()), direction, itemCount)
  {
    if store.player.isScrubbing && store.player.currentSong.Some? {
      store.Scrub(if direction == Down then ScrubStep else -ScrubStep);
      return;
    }
    if store.nav.currentScreen.screenType == PhotoViewerType {
      var albumId := ViewerAlbumId(store.nav.currentScreen);
      var photos := MockData.PhotosByAlbum(albumId);
      var index := store.photos.currentPhotoIndex;
      if direction == Down {
        store.SetCurrentPhoto(albumId, SM.Min(index + 1, |photos| - 1));
      } else {
        store.SetCurrentPhoto(albumId, SM.Max(index - 1, 0));
      }
      return;
    }
    if direction == Up {
      store.DecrementSelectedIndex();
    } else {
      store.IncrementSelectedIndex(itemCount);
    }
  }

  method HandleMenu(store: Store.IPodStore)
    modifies store
    ensures store.Snapshot() == OnMenu(old(store.Snapshot()))
  {
    if store.player.isScrubbing {
      store.StopScrubbing();
      return;
    }
    store.GoBack();
  }

  method HandleSelect(store: Store.IPodStore) returns (route: Route)
    modifies store
    ensures (store.Snapshot(), route) == OnSelect(old(store.Snapshot()))
  {
    var screenType := store.nav.currentScreen.screenType;
    if screenType == StopwatchType || screenType == TimerType {
      return ToClock;
    }
    if store.player.isScrubbing {
      store.StopScrubbing();
      return Handled;
    }
    return ToMenu;
  }

  method HandleSelectLongPress(store: Store.IPodStore)
    modifies store
    ensures store.Snapshot() == OnSelectLongPress(old(store.Snapshot()))
  {
    if store.nav.currentScreen.screenType == NowPlayingType && store.player.currentSong.Some? {
      store.StartScrubbing();
    }
  }

  method HandlePlayPause(store: Store.IPodStore) returns (route: Route)
    modifies store
    ensures (store.Snapshot(), route) == OnPlayPause(old(store.Snapshot()))
  {
    var screenType := store.nav.currentScreen.screenType;
    if screenType == StopwatchType || screenType == TimerType {
      return ToClock;
    }
    if store.player.currentSong.Some? {
      store.TogglePlayPause();
    }
    return Handled;
  }

  method HandleNext(store: Store.IPodStore, pick: nat)
    requires |store.player.queue| > 0 ==> pick < |store.player.queue|
    modifies store
    ensures store.Snapshot() == OnNext(old(store.Snapshot()), pick)
  {
    if store.nav.currentScreen.screenType == PhotoViewerType {
      var albumId := ViewerAlbumId(store.nav.currentScreen);
      var photos := MockData.PhotosByAlbum(albumId);
      store.SetCurrentPhoto(albumId, SM.Min(store.photos.currentPhotoIndex + 1, |photos| - 1));
      return;
    }
    if store.player.currentSong.Some? {
      store.NextTrack(pick);
    }
  }

  method HandlePrevious(store: Store.IPodStore)
    modifies store
    ensures store.Snapshot() == OnPrevious(old(store.Snapshot()))
  {
    if store.nav.currentScreen.screenType == PhotoViewerType {
      var albumId := ViewerAlbumId(store.nav.currentScreen);
      store.SetCurrentPhoto(albumId, SM.Max(store.photos.currentPhotoIndex - 1, 0));
      return;
    }
    if store.player.currentSong.Some? {
      store.PreviousTrack();
    }
  }

  /** The backlight interval fires. */
  method BacklightTick(store: Store.IPodStore, elapsedMs: int)
    modifies store
    ensures store.Snapshot() == CheckBacklight(old(store.Snapshot()), elapsedMs)
  {
    if store.device.isSleeping || store.settings.backlightTimer == 0 {
      return;
    }
    if elapsedMs >= store.settings.backlightTimer * 1000 && store.device.backlightOn {
      store.DimBacklight();
    }
  }
}
