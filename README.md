# iPod web simulator: a verified model of its control logic

This project models the control logic of a browser iPod simulator in Dafny and proves the
properties its screens depend on. The modelled logic is:

- the device store, with its navigation stack, play queue and playback rules, scrubbing and
  seeking, volume, sleep, hold, backlight, ratings, photo index and user library;
- the shell, which decides what each click-wheel callback does in the device's current mode;
- the click wheel, covering the keyboard hold gate, short and long presses and the rotary
  accumulator;
- the menu and setting screens, with their rows, the select actions, the preselected rows
  and the item counts that bound scrolling;
- the Extras clock, with its stopwatch, laps and countdown timer;
- the Now Playing tick and time display;
- the upload screen, with its file filter, titles, metadata defaults, progress and data URLs;
- the menu list's scroll-into-view rule, the photo viewer's index clamp and the status bar
  icons;
- the built-in library and its lookups.

## Layout

| module | models |
|---|---|
| `Types`, `Wrappers` | songs, library records, settings, screens; `Option` |
| `StoreModel` | the store as a record and every store action as a total transition, with the lemmas about them |
| `Store` | the store object `IPodStore`: one method per action, each specified by its `StoreModel` transition |
| `Shell` | the shell's handlers for each wheel callback, the backlight check, the hold-lock wiring |
| `ClickWheel` | the wheel's key gate, press machines and accumulator, as pure steps and as the `Wheel` object |
| `MainMenu` | the menu rows, select, preselection, item counts, queue choice, duration format |
| `SettingsScreen` | checkmark rows, the About list, the brightness effect (`BrightnessSync`) |
| `Clock` | the stopwatch and timer state machine (`ClockScreen`) and the clock formatters |
| `NowPlaying` | the playback tick and the time and position display |
| `Upload` | the upload filter, title stripping, metadata defaults, progress, the loop (`Uploader`) |
| `Base64` | the base64 encoding of section 4 of RFC 4648 and the data URL of RFC 2397 used for artwork |
| `MenuList`, `PhotoViewer`, `StatusBar` | scroll-into-view (`ListContainer`), the photo counter, the status icons |
| `MockData`, `Seqs` | the constant library, its lookups and their consistency; ordered filtering |
| `Text`, `Arith` | decimal rendering and parsing, padding, JavaScript's remainder, lower-casing; arithmetic helpers |

Objects that the source updates in place are classes: the store, each click-wheel button's
state, the clock screen, the upload screen, the brightness effect and the list container. Each
class method's `ensures` ties its new state to a pure function of the old state. The properties
are proved about those functions.

Time, randomness and foreign results enter the model as parameters: elapsed seconds, timer
firings, the random track index, the shuffle permutation, the metadata outcome of a file, and
whether the database stored it.

## Model

Functions that only define an operation have no row of their own; the lemma and method rows that name them state their contracts.
- StoreModel: GoBack (GoBackPops), TogglePlayPause (TogglePlayPauseTwice), Scrub (ScrubClamps), SetRating (RatingRoundTrip), Sleep, Wake and ToggleSleep (ToggleSleepIsSleepOrWake), ToggleHold (ToggleHoldInvolution), UpdateSettings (UpdateSettingsSetsNamedFields), NextPhoto (NextThenPreviousPhoto), AddUserSong (AddThenRemoveUserSong).
- Shell: OnScroll, OnMenu, OnSelect, OnPlayPause, OnNext, OnPrevious and CheckBacklight (the Shell lemma rows and the Shell.Handle* and Shell.BacklightTick methods).
- ClickWheel: KeyEvent (KeyDown and the key lemmas), Press, Fire, Release and Leave (PressCycle, HeldPress, LeaveDuringSeek and the Wheel.Button* methods), Move (MoveSteps and Wheel.WheelMove).
- MainMenu: MenuItems, ItemCount, OnSelect and QueueFor (the MainMenu lemma rows and MainMenu.HandleSelect).
- Clock: FormatStopwatch, StopwatchTick, TimerTick, Select and PlayPause (the Clock lemma rows and the ClockScreen methods).
- NowPlaying: RemainingAsWritten and PositionText (RemainingOvershootsAsWritten, OneSecondOver, PositionNumber).
- Upload: IsAudioFile, Extract and Processed (ExtensionIgnoresCase, the tag lemmas, ProcessedKeepsLibrary).
- PhotoViewer.Render (RenderRules), SettingsScreen.Render (ListsMatchItemCount and the check lemmas), SettingsScreen.SyncBrightness (SyncSetsClampedBrightness, SyncSkipsAndSettles), StatusBar.IconsOf (the StatusBar lemmas).

| member | source | states |
|---|---|---|
| StoreModel.Initial | app/store/iPodStore.ts:128-177 | the store starts on the main menu ("main", row 0) with an empty stack and queue, no song, not playing, awake, hold off, backlight on, the default settings, no ratings and no user songs |
| StoreModel.NavigateTo | app/store/iPodStore.ts:180-190 | the stack grows by one, keeps the old entries, and its top is the old screen stamped with the old selection; the new screen and its own selection become current; nothing but navigation and the backlight changes |
| StoreModel.IncrementSelectedIndex | app/store/iPodStore.ts:213-218 | the new selection is the smaller of one row further and the last row `max - 1` (so a selection of 0 or more becomes -1 on a screen with no rows); only the selection and the backlight change |
| StoreModel.DecrementSelectedIndex | app/store/iPodStore.ts:220-225 | the new selection is the larger of one row back and row 0; only the selection and the backlight change |
| StoreModel.ScrollStaysInList | app/store/iPodStore.ts:213-225 | for `max >= 1` a selection in `[0, max)` stays there; it moves by one row except at the two ends, where it stays put |
| StoreModel.NavigateThenGoBack | app/store/iPodStore.ts:180-204 | `goBack` after `navigateTo` restores the screen with the selection it had, the stack and everything else except the backlight |
| StoreModel.GoBackPops | app/store/iPodStore.ts:192-204 | popping a stack whose top is a stamped screen restores that screen and selection |
| StoreModel.NavigateAllThenGoBackAll | app/store/iPodStore.ts:180-204 | `n` navigations grow the stack by `n`, and `n` goBacks after them restore the starting screen, selection and stack |
| StoreModel.PlaySong | app/store/iPodStore.ts:228-241 | the queue is the given one or `[song]`; the song plays from time 0; the queue index is the first position holding the song's id, or 0 when none does; nothing but these player fields and the backlight changes (navigation, photos, library, ratings, settings, scrubbing and seeking are kept) |
| StoreModel.TogglePlayPauseTwice | app/store/iPodStore.ts:243-248 | play/pause flips only the playing flag, and pressing it twice gives back the starting state with the backlight lit |
| StoreModel.NextIndex | app/store/iPodStore.ts:254-268 | playback stops exactly with repeat off at the end of the queue; any other outcome is an index inside the queue |
| StoreModel.NextTrack | app/store/iPodStore.ts:250-277 | queue, settings and ratings are unchanged, and a queue index inside the queue stays inside it |
| StoreModel.NextTrackOnEmptyQueue | app/store/iPodStore.ts:252 | on an empty queue nothing changes |
| StoreModel.NextTrackRepeatOne | app/store/iPodStore.ts:256-257 | repeat one (without shuffle songs) replays the same position from time 0 |
| StoreModel.NextTrackAtEnd | app/store/iPodStore.ts:258-264 | at the last song, repeat off only stops playback and keeps the position; repeat all wraps to the first song from time 0, and nothing else but the backlight changes |
| StoreModel.NextTrackAdvances | app/store/iPodStore.ts:254-276 | before the end, without repeat one or shuffle songs, the next position is loaded from time 0, and nothing else but the backlight changes |
| StoreModel.NextTrackShuffle | app/store/iPodStore.ts:266-276 | in shuffle songs mode the random pick is the new position, loaded from time 0, whenever playback does not stop; nothing else but the backlight changes |
| StoreModel.PreviousIndex | app/store/iPodStore.ts:292-296 | the position stepped back to is inside the queue |
| StoreModel.PreviousTrack | app/store/iPodStore.ts:279-305 | queue, settings and ratings are unchanged, and the queue index stays inside the queue |
| StoreModel.PreviousTrackOnEmptyQueue | app/store/iPodStore.ts:279-281 | with an empty queue the previous button changes nothing at all |
| StoreModel.PreviousTrackRestarts | app/store/iPodStore.ts:283-290 | more than 3 seconds in, only the time goes back to 0 |
| StoreModel.PreviousTrackSteps | app/store/iPodStore.ts:292-304 | otherwise it steps back one; from the first song it goes to the last one only with repeat all and stays at 0 otherwise; the song at the new position is loaded from time 0, and nothing else but the backlight changes |
| StoreModel.ShufflePlay | app/store/iPodStore.ts:309-322 | no user songs: no change; otherwise the given permutation of the user songs becomes the queue and its first song plays from 0 |
| StoreModel.ScrubClamps | app/store/iPodStore.ts:339-351 | the new time is `currentTime + delta` clamped into `[0, duration]`: 0 below the start, the duration past the end, and nothing else but the backlight changes |
| StoreModel.RatingRoundTrip | app/store/iPodStore.ts:354-363 | a rating set reads back, and the other songs' ratings are unaffected |
| StoreModel.ToggleSleepIsSleepOrWake | app/store/iPodStore.ts:380-391 | toggleSleep is wake when asleep and sleep otherwise; sleeping and waking again leaves the device paused |
| StoreModel.ToggleHoldInvolution | app/store/iPodStore.ts:452-455 | toggling twice gives back the same state |
| StoreModel.UpdateSettingsSetsNamedFields | app/store/iPodStore.ts:403-408 | a partial settings update sets exactly the fields it names and keeps the others |
| StoreModel.AdjustVolume | app/store/iPodStore.ts:460-472 | the volume stays in `[0, 100]` and the overlay is shown |
| StoreModel.AdjustVolumeChangesOnlyVolume | app/store/iPodStore.ts:460-472 | only the volume setting changes: by `delta`, or to 0 or 100 when stopped at an end |
| StoreModel.ShowThenTimerHides | app/store/iPodStore.ts:474-491 | the timer armed by showVolume hides the overlay as hideVolume does; showing twice arms one timer |
| StoreModel.NextThenPreviousPhoto | app/store/iPodStore.ts:422-434 | a step forward moves to a later photo of the same album, and a step back returns to the photo it started from; only the index and the backlight change |
| StoreModel.PreviousPhoto | app/store/iPodStore.ts:429-434 | the photo index goes back one, and an index at or below 0 becomes 0; nothing but the index and the backlight changes |
| StoreModel.RemoveUserSong | app/store/iPodStore.ts:444-447 | exactly the songs with a different id remain, in their order and as often as before, the list does not grow, and nothing else of the store changes |
| StoreModel.AddThenRemoveUserSong | app/store/iPodStore.ts:439-447 | removing a song just added under a fresh id gives back the earlier state |
| StoreModel.InitialValid | app/store/iPodStore.ts:128-177 | the initial store has a meaningful queue index, a consistent seek direction and a percentage volume |
| StoreModel.OthersKeepPlayback | app/store/iPodStore.ts:179-457 | navigation, device and library actions leave the queue, the seek state and the volume alone |
| StoreModel.PlaybackKeepsValid | app/store/iPodStore.ts:227-506 | every playback action keeps the queue index inside the queue and the seek direction set exactly while seeking |
| StoreModel.SettingsKeepValid | app/store/iPodStore.ts:403-491 | settings updates that carry no out-of-range volume, and volume changes, keep the volume inside `[0, 100]` |
| StoreModel.StepPreservesValid | app/store/iPodStore.ts:179-506 | every store action keeps the store's invariant |
| StoreModel.RunPreservesValid | app/store/iPodStore.ts:179-506 | any sequence of actions keeps the invariant |
| StoreModel.NavigationDoesNotPersist | app/store/iPodStore.ts:510-513 | navigation never changes the persisted settings and ratings |
| StoreModel.PlaybackDoesNotPersist | app/store/iPodStore.ts:510-513 | neither does playback |
| StoreModel.LibraryDoesNotPersist | app/store/iPodStore.ts:510-513 | neither do user-library actions |
| Store.IPodStore.constructor | app/store/iPodStore.ts:146-177 | the store object starts in `StoreModel.Initial` and satisfies the invariant |
| Store.IPodStore.NavigateTo | app/store/iPodStore.ts:180-190 | the fields become `StoreModel.NavigateTo` of the old fields, and the store invariant is kept |
| Store.IPodStore.GoBack | app/store/iPodStore.ts:192-204 | the fields become `StoreModel.GoBack` of the old fields, and the store invariant is kept |
| Store.IPodStore.SetSelectedIndex | app/store/iPodStore.ts:206-211 | sets the selection and lights the backlight, and the store invariant is kept |
| Store.IPodStore.IncrementSelectedIndex | app/store/iPodStore.ts:213-218 | the fields become `StoreModel.IncrementSelectedIndex` of the old fields, and the store invariant is kept |
| Store.IPodStore.DecrementSelectedIndex | app/store/iPodStore.ts:220-225 | the fields become `StoreModel.DecrementSelectedIndex` of the old fields, and the store invariant is kept |
| Store.IPodStore.PlaySong | app/store/iPodStore.ts:228-241 | the fields become `StoreModel.PlaySong` of the old fields, and the store invariant is kept |
| Store.IPodStore.TogglePlayPause | app/store/iPodStore.ts:243-248 | the fields become `StoreModel.TogglePlayPause` of the old fields, and the store invariant is kept |
| Store.IPodStore.NextTrack | app/store/iPodStore.ts:250-277 | the fields become `StoreModel.NextTrack` of the old fields for the given random pick, and the store invariant is kept |
| Store.IPodStore.PreviousTrack | app/store/iPodStore.ts:279-305 | the fields become `StoreModel.PreviousTrack` of the old fields, and the store invariant is kept |
| Store.IPodStore.SetCurrentTime | app/store/iPodStore.ts:307 | sets the playback time and nothing else, and the store invariant is kept |
| Store.IPodStore.ShufflePlay | app/store/iPodStore.ts:309-322 | the fields become `StoreModel.ShufflePlay` of the old fields for the given shuffled order, and the store invariant is kept |
| Store.IPodStore.StartScrubbing | app/store/iPodStore.ts:325-330 | scrubbing on, backlight on, and the store invariant is kept |
| Store.IPodStore.StopScrubbing | app/store/iPodStore.ts:332-337 | scrubbing off, backlight on, and the store invariant is kept |
| Store.IPodStore.Scrub | app/store/iPodStore.ts:339-351 | the fields become `StoreModel.Scrub` of the old fields, and the store invariant is kept |
| Store.IPodStore.SetRating | app/store/iPodStore.ts:354-359 | the ratings map gains the rating for that song, and the store invariant is kept |
| Store.IPodStore.GetRating | app/store/iPodStore.ts:361-363 | returns the stored rating, or 0 for a song never rated |
| Store.IPodStore.Sleep | app/store/iPodStore.ts:366-371 | the fields become `StoreModel.Sleep` of the old fields, and the store invariant is kept |
| Store.IPodStore.Wake | app/store/iPodStore.ts:373-378 | the fields become `StoreModel.Wake` of the old fields, and the store invariant is kept |
| Store.IPodStore.ToggleSleep | app/store/iPodStore.ts:380-391 | the fields become `StoreModel.ToggleSleep` of the old fields, and the store invariant is kept |
| Store.IPodStore.ResetBacklight | app/store/iPodStore.ts:394-398 | backlight on, nothing else, and the store invariant is kept |
| Store.IPodStore.DimBacklight | app/store/iPodStore.ts:400 | backlight off, nothing else, and the store invariant is kept |
| Store.IPodStore.ToggleHold | app/store/iPodStore.ts:452-455 | the hold flag flips, nothing else, and the store invariant is kept |
| Store.IPodStore.SetHold | app/store/iPodStore.ts:457 | the hold flag is set, nothing else, and the store invariant is kept |
| Store.IPodStore.UpdateSettings | app/store/iPodStore.ts:403-408 | the fields become `StoreModel.UpdateSettings` of the old fields, and a patch with no volume outside [0, 100] keeps the store invariant |
| Store.IPodStore.AdjustVolume | app/store/iPodStore.ts:460-472 | the fields become `StoreModel.AdjustVolume` of the old fields, and the store invariant is kept |
| Store.IPodStore.ShowVolume | app/store/iPodStore.ts:474-483 | overlay shown and one hide pending, and the store invariant is kept |
| Store.IPodStore.HideVolume | app/store/iPodStore.ts:485-491 | overlay hidden and no hide pending, and the store invariant is kept |
| Store.IPodStore.VolumeTimerFired | app/store/iPodStore.ts:479-481 | the fields become `StoreModel.VolumeTimerFired` of the old fields, and the store invariant is kept |
| Store.IPodStore.StartSeeking | app/store/iPodStore.ts:494-500 | seeking in the given direction, backlight on, and the store invariant is kept |
| Store.IPodStore.StopSeeking | app/store/iPodStore.ts:502-506 | not seeking, no direction, and the store invariant is kept |
| Store.IPodStore.SetCurrentPhoto | app/store/iPodStore.ts:414-420 | sets the album and the index, and the store invariant is kept |
| Store.IPodStore.NextPhoto | app/store/iPodStore.ts:422-427 | the fields become `StoreModel.NextPhoto` of the old fields, and the store invariant is kept |
| Store.IPodStore.PreviousPhoto | app/store/iPodStore.ts:429-434 | the fields become `StoreModel.PreviousPhoto` of the old fields, and the store invariant is kept |
| Store.IPodStore.SetUserSongs | app/store/iPodStore.ts:437 | replaces the user songs, and the store invariant is kept |
| Store.IPodStore.AddUserSong | app/store/iPodStore.ts:439-442 | the fields become `StoreModel.AddUserSong` of the old fields, and the store invariant is kept |
| Store.IPodStore.RemoveUserSong | app/store/iPodStore.ts:444-447 | the fields become `StoreModel.RemoveUserSong` of the old fields, and the store invariant is kept |
| Store.IPodStore.SetUserLibraryLoaded | app/store/iPodStore.ts:449 | sets the loaded flag, and the store invariant is kept |
| Shell.ViewerAlbumId | app/components/iPod/iPodShell.tsx:78-79 | the album the photo viewer steps through is the screen's album id, or "pa1" when it has none; never empty |
| Shell.PhotoStepsStayInAlbum | app/components/iPod/iPodShell.tsx:81-88 | in a non-empty album the next and previous photo indices stay inside the album, moving by one except at the ends |
| Shell.OnSleepScreenClick | app/components/iPod/iPodShell.tsx:221-225 | a click on the sleep screen wakes the device; while awake it does nothing |
| Shell.CheckBacklightDims | app/components/iPod/iPodShell.tsx:44-53 | the backlight goes off exactly when awake, the timeout is set, the light is on and the timeout has elapsed; nothing else changes; timeout 0 never dims |
| Shell.ScrollWhileScrubbing | app/components/iPod/iPodShell.tsx:69-74 | while scrubbing a song a scroll is exactly scrub(+5) down or scrub(-5) up, and screen and photo are untouched |
| Shell.PhotoViewerScroll | app/components/iPod/iPodShell.tsx:76-91 | on the photo viewer a turn down moves to min(i+1, len-1) and a turn up to max(i-1, 0) in the viewed album |
| Shell.PhotoViewerSteps | app/components/iPod/iPodShell.tsx:76-91 | from a photo inside the album, a turn keeps the index inside the album, sets the viewed album, and leaves playback untouched |
| Shell.PhotoViewerButtons | app/components/iPod/iPodShell.tsx:174-207 | on the photo viewer next does what a turn down does and previous what a turn up does, and neither touches playback |
| Shell.MenuScroll | app/components/iPod/iPodShell.tsx:93-98 | elsewhere scroll up is decrementSelectedIndex and scroll down is incrementSelectedIndex(itemCount), so the selection stays inside the list |
| Shell.ButtonsWhileScrubbing | app/components/iPod/iPodShell.tsx:113-141 | while scrubbing MENU only stops scrubbing and never goes back; select stops scrubbing too, except on the stopwatch and timer where it goes to the clock |
| Shell.LongPressStartsScrubbing | app/components/iPod/iPodShell.tsx:143-148 | a long press of select starts scrubbing exactly on the now-playing screen with a song, and does nothing otherwise |
| Shell.NoSongNoPlayback | app/components/iPod/iPodShell.tsx:165-211 | without a song, play/pause, next and previous leave playback unchanged |
| Shell.ButtonsDrivePlayback | app/components/iPod/iPodShell.tsx:150-218 | with a song and off the photo viewer and clock screens, the buttons toggle play, go to the next and to the previous track |
| Shell.SleepingOnlyWakes | app/components/iPod/iPodShell.tsx:227-250 | while asleep every wheel callback, long presses included, only wakes the device |
| Shell.HoldLeavesWheelOpenAsWired | app/components/iPod/iPodShell.tsx:265-274 | as wired, the wheel is given no `disabled`, so with hold on a click of the centre button still reaches the shell as select |
| Shell.HoldLocksWheel | app/components/iPod/ClickWheel.tsx:189-325 | with the wheel disabled while hold is on, only the hold switch and the volume keys get through, whatever the inputs |
| Shell.HoldSignalsKeepScreenAndPlayback | app/components/iPod/ClickWheel.tsx:303-322 | the signals that pass hold change neither the screen nor playback |
| Shell.HandleScroll | app/components/iPod/iPodShell.tsx:65-111 | the store becomes `Shell.OnScroll` of the old store |
| Shell.HandleMenu | app/components/iPod/iPodShell.tsx:113-119 | the store becomes `Shell.OnMenu` of the old store |
| Shell.HandleSelect | app/components/iPod/iPodShell.tsx:121-141 | the store and the route become `Shell.OnSelect` of the old store |
| Shell.HandleSelectLongPress | app/components/iPod/iPodShell.tsx:143-148 | the store becomes `Shell.OnSelectLongPress` of the old store |
| Shell.HandlePlayPause | app/components/iPod/iPodShell.tsx:150-168 | the store and the route become `Shell.OnPlayPause` of the old store |
| Shell.HandleNext | app/components/iPod/iPodShell.tsx:174-196 | the store becomes `Shell.OnNext` of the old store |
| Shell.HandlePrevious | app/components/iPod/iPodShell.tsx:198-218 | the store becomes `Shell.OnPrevious` of the old store |
| Shell.BacklightTick | app/components/iPod/iPodShell.tsx:44-63 | the store becomes `Shell.CheckBacklight` of the old store |
| ClickWheel.KeyDown | app/components/iPod/ClickWheel.tsx:302-365 | a key press sends at most two signals |
| ClickWheel.KeyTableInverse | app/components/iPod/ClickWheel.tsx:328-364 | the key switch and the table of keys per callback agree: a key stands for a callback exactly when it is one of that callback's keys |
| ClickWheel.HoldKeyAlwaysWorks | app/components/iPod/ClickWheel.tsx:303-308 | 'h' and 'H' toggle hold and nothing else, whether or not hold is on or the wheel is disabled |
| ClickWheel.VolumeKeysIgnoreHold | app/components/iPod/ClickWheel.tsx:310-322 | '+' and '=' change the volume by +5, '-' and '_' by -5, even on hold |
| ClickWheel.LockedKeysInert | app/components/iPod/ClickWheel.tsx:324-325 | disabled or on hold, every other key does nothing at all |
| ClickWheel.UnlockedKeySendsItsCallback | app/components/iPod/ClickWheel.tsx:326-364 | unlocked, a bound key resets the backlight and sends the callback it is bound to (arrows scroll, Enter selects, Escape and Backspace go to MENU, space plays, right and left skip, 's' sleeps) |
| ClickWheel.StaysLong | app/components/iPod/ClickWheel.tsx:206-209 | once the long-press timer has fired, further firings change nothing and send nothing |
| ClickWheel.HeldPress | app/components/iPod/ClickWheel.tsx:202-211 | a held press sends its long-press callback exactly once, on the first firing, and none before |
| ClickWheel.RunAppend | app/components/iPod/ClickWheel.tsx:202-295 | running two input sequences in turn is running their concatenation |
| ClickWheel.PressCycle | app/components/iPod/ClickWheel.tsx:202-295 | a press held through `n` firings and released sends the short callback when `n == 0` and the long callback (then a seek release on the track buttons) otherwise, never both, and leaves the button idle |
| ClickWheel.PressWhileDisabled | app/components/iPod/ClickWheel.tsx:202-222 | a disabled press does nothing; any release leaves the button idle |
| ClickWheel.LeaveDuringSeek | app/components/iPod/ClickWheel.tsx:418-427 | leaving a track button during a long press releases the seek, and a later release sends the short callback |
| ClickWheel.MenuClick | app/components/iPod/ClickWheel.tsx:396-402 | a disabled wheel's menu click sends nothing; an enabled one resets the backlight and then sends menu |
| ClickWheel.WrapShortestTurn | app/components/iPod/ClickWheel.tsx:115-118 | the difference of two angles, pulled by one turn, lies in [-180, 180] and differs from the raw difference by 0 or one whole turn |
| ClickWheel.MoveSteps | app/components/iPod/ClickWheel.tsx:114-129 | the wrapped delta is added; once the total reaches the threshold (8 scrubbing, 15 otherwise) one scroll is sent, down iff the total is positive, and the total restarts from 0; otherwise the total is kept |
| ClickWheel.MovePreservesValid | app/components/iPod/ClickWheel.tsx:90-135 | every move keeps the accumulator below the threshold and sends at most one callback, a scroll |
| ClickWheel.SmallTurnDoesNotScroll | app/components/iPod/ClickWheel.tsx:122-129 | a turn from rest smaller than the threshold does not scroll |
| ClickWheel.WithButton | app/components/iPod/ClickWheel.tsx:41-55 | updating one button's press state leaves the other buttons and the rotary as they were |
| ClickWheel.DisabledWheelStep | app/components/iPod/ClickWheel.tsx:153-325 | a disabled wheel locked by hold, with no timer armed, sends only hold and volume signals and arms no timer |
| ClickWheel.DisabledWheelRun | app/components/iPod/ClickWheel.tsx:153-325 | the same for every sequence of inputs |
| ClickWheel.EnabledWheelClicks | app/components/iPod/ClickWheel.tsx:202-222 | an enabled wheel passes a centre click on as select whether or not hold is on |
| ClickWheel.Wheel.constructor | app/components/iPod/ClickWheel.tsx:35-55 | the wheel starts at rest with every button idle |
| ClickWheel.Wheel.Button | app/components/iPod/ClickWheel.tsx:41-55 | reads the press state of one button |
| ClickWheel.Wheel.SetButton | app/components/iPod/ClickWheel.tsx:41-55 | the wheel becomes `WithButton` of the old wheel |
| ClickWheel.Wheel.ButtonDown | app/components/iPod/ClickWheel.tsx:202-282 | the button's state and the signals follow `ClickWheel.Press` |
| ClickWheel.Wheel.ButtonTimerFired | app/components/iPod/ClickWheel.tsx:206-209 | the button's state and the signals follow `ClickWheel.Fire` |
| ClickWheel.Wheel.ButtonUp | app/components/iPod/ClickWheel.tsx:213-295 | the button's state and the signals follow `ClickWheel.Release` |
| ClickWheel.Wheel.ButtonLeave | app/components/iPod/ClickWheel.tsx:418-515 | the button's state and the signals follow `ClickWheel.Leave` |
| ClickWheel.Wheel.WheelMove | app/components/iPod/ClickWheel.tsx:90-135 | the rotary state and the signals follow `ClickWheel.Move` |
| ClickWheel.Wheel.WheelPointerDown | app/components/iPod/ClickWheel.tsx:151-186 | the rotary state and the signals follow `ClickWheel.PointerDown` |
| ClickWheel.Wheel.WheelPointerUp | app/components/iPod/ClickWheel.tsx:144-175 | the rotary state follows `ClickWheel.PointerUp` |
| MainMenu.FormatDuration | app/components/iPod/iPodMain.tsx:711-715 | for a non-negative number of seconds the text reads back as whole minutes, a colon and the seconds below 60, so it names that duration |
| MainMenu.NowPlayingRowIffSong | app/components/iPod/iPodMain.tsx:69-79 | the main menu has a "Now Playing" row exactly when a song is loaded, as its sixth and last row |
| MainMenu.MyMusicRowIffUserSongs | app/components/iPod/iPodMain.tsx:81-99 | the music menu has "My Music", showing the number of added songs, exactly when there are any; "Add Music..." is always last |
| MainMenu.RowIdsRoundTrip | app/components/iPod/iPodMain.tsx:124-143 | song and genre row ids carry their prefix, and stripping it gives back the song id or the genre |
| MainMenu.KindNameRoundTrip | app/components/iPod/iPodMain.tsx:551-594 | each setting screen's type name parses back to that setting, and none of them is "about" |
| MainMenu.IndexOr0 | app/components/iPod/iPodMain.tsx:552-557 | `max(0, indexOf)` is a position inside a non-empty option list, holding the value when it is present and 0 when it is not |
| MainMenu.SettingRowsSelectOptions | app/components/iPod/iPodMain.tsx:268-288 | row `i` selects shuffle from [off, songs, albums], repeat from [off, one, all], backlight from [0, 2, 5, 10, 15, 20]; clicker becomes (row is 0); brightness is left to its own screen |
| MainMenu.QueueChoice | app/components/iPod/iPodMain.tsx:453-470 | the queue is all songs on "songs", the added songs on "myMusic", the album, playlist or genre on their screens, and the song alone anywhere else |
| MainMenu.SelectWithoutRowDoesNothing | app/components/iPod/iPodMain.tsx:258-265 | select changes nothing on a menu with no row at the selection, and nothing on the photo viewer |
| MainMenu.PreselectedPatchKeeps | app/components/iPod/iPodMain.tsx:551-594 | the option at the preselected row is the current value, except a backlight timeout that is not among the options, which the first row turns into 0 |
| MainMenu.PreselectionKeepsSetting | app/components/iPod/iPodMain.tsx:268-288 | opening a setting and selecting without scrolling leaves the settings and the screen unchanged, except that an unlisted backlight timeout becomes "Always On" |
| MainMenu.SongRowCommand | app/components/iPod/iPodMain.tsx:446-448 | a row id "song-" + id is handled as the song with that id |
| MainMenu.SelectSongPlaysIt | app/components/iPod/iPodMain.tsx:446-480 | selecting a song row plays the first song with that id with the queue the screen chooses and pushes Now Playing over the list; an id naming no song does nothing |
| MainMenu.SettingCountsMatchOptions | app/components/iPod/iPodMain.tsx:661-679 | the option screens count 3, 3, 6, 2 and 101 rows, the lengths of the option lists selection uses, the preselected row is inside the count, and exactly the rows inside the count select an option |
| MainMenu.ItemCountOfListsAndPhotos | app/components/iPod/iPodMain.tsx:653-682 | a menu counts its rows, the photo viewer its album's photos, About its eight rows |
| MainMenu.Run | app/components/iPod/iPodMain.tsx:294-595 | running a command's store actions gives `MainMenu.Apply` of the old store |
| MainMenu.HandleSelect | app/components/iPod/iPodMain.tsx:256-608 | the store becomes `MainMenu.OnSelect` of the old store |
| SettingsScreen.OptionRows | app/components/screens/Settings.tsx:53-92 | an option list has one row per option with its id and label, and a row carries the checkmark exactly when its option is the current value |
| SettingsScreen.IndexOfDistinct | app/components/iPod/iPodMain.tsx:551-594 | in an option list without repetitions the row the screen opens on is the only row holding the current value |
| SettingsScreen.ShuffleAndRepeatCheckOne | app/components/screens/Settings.tsx:53-92 | exactly one shuffle row and exactly one repeat row is checked, and it is the row the screen opens on |
| SettingsScreen.BacklightCheck | app/components/screens/Settings.tsx:95-128 | the row of the current backlight timeout is checked and is the row the screen opens on; a timeout not among the six checks no row |
| SettingsScreen.ClickerCheckOne | app/components/screens/Settings.tsx:189-194 | exactly one of On and Off is checked, the row the screen opens on |
| SettingsScreen.AboutRows | app/components/screens/Settings.tsx:36-50 | the About list has eight rows |
| SettingsScreen.AboutCounts | app/components/screens/Settings.tsx:37-43 | the Songs row reads back as the number of user songs and the Photos row as the number of photos |
| SettingsScreen.UnknownTypeRendersNothing | app/components/screens/Settings.tsx:36-197 | a setting screen renders nothing exactly when its type is none of about, shuffle, repeat, backlight, brightness and clicker |
| SettingsScreen.ListsMatchItemCount | app/components/iPod/iPodMain.tsx:653-682 | every list a setting screen shows has as many rows as the wheel may scroll through on that screen |
| SettingsScreen.Clamp | app/components/screens/Settings.tsx:29 | the brightness lies in [0, 100]: an index inside is kept, one below gives 0 and one above gives 100 |
| SettingsScreen.SyncSetsClampedBrightness | app/components/screens/Settings.tsx:28-32 | after mounting, the effect on the brightness screen sets the brightness to the clamped index and leaves the store alone exactly when it already had that value |
| SettingsScreen.SyncSkipsAndSettles | app/components/screens/Settings.tsx:20-34 | the run on mounting and runs on other screens change nothing, and a second run with the same index changes nothing more |
| SettingsScreen.OpeningBrightnessKeepsIt | app/components/screens/Settings.tsx:20-34 | the brightness screen opens on the current brightness, so a brightness inside [0, 100] is kept until the wheel moves |
| SettingsScreen.BrightnessSync.constructor | app/components/screens/Settings.tsx:18 | the effect starts in its mounting state |
| SettingsScreen.BrightnessSync.Run | app/components/screens/Settings.tsx:20-34 | one run of the effect: the mounting flag is cleared by the first run on the brightness screen, and the store becomes the synchronised store |
| MenuList.ScrollIntoView | app/components/menus/MenuList.tsx:31-35 | a row already in view keeps the offset, and a row no taller than the viewport is in view afterwards |
| MenuList.ScrollIsMinimal | app/components/menus/MenuList.tsx:31-35 | a row that fits is brought into view with the smallest move of the offset |
| MenuList.ScrollIdempotent | app/components/menus/MenuList.tsx:31-35 | a row that fits needs no second adjustment |
| MenuList.TallRowAlternates | app/components/menus/MenuList.tsx:31-35 | a row taller than the viewport is never shown whole, and repeated adjustments flip between its top and its bottom edge |
| MenuList.ListContainer.constructor | app/components/menus/MenuList.tsx:40 | the container starts at offset 0 with its fixed height |
| MenuList.ListContainer.ScrollSelectedIntoView | app/components/menus/MenuList.tsx:22-37 | the offset becomes the adjusted one for a mounted selected row and is kept otherwise; a selected row that fits ends up in view |
| MenuList.ExactlySelectedRowMarked | app/components/menus/MenuList.tsx:48 | exactly the row at the selected index is drawn as selected, and an index outside the list marks no row |
| NowPlaying.PlaybackTick | app/components/screens/NowPlaying.tsx:25-44 | a tick never changes the queue or the settings |
| NowPlaying.TickOnlyWhilePlaying | app/components/screens/NowPlaying.tsx:26 | without a song, while paused or while scrubbing the tick does nothing |
| NowPlaying.TickCountsSecond | app/components/screens/NowPlaying.tsx:28-33 | inside the song a tick only moves the time on by one second |
| NowPlaying.TickAtEndOfSong | app/components/screens/NowPlaying.tsx:28-33 | once the time before the tick has reached the duration it moves on to the track `nextTrack` picks and plays it from 0, except on the last song with repeat off, where it stops with the time one second past the end |
| NowPlaying.TickKeepsValid | app/components/screens/NowPlaying.tsx:28-33 | the tick keeps the store's invariant |
| NowPlaying.PicksFitTail | app/components/screens/NowPlaying.tsx:28-34 | random picks that fit the queue still fit after the first one is used |
| NowPlaying.TicksCountSeconds | app/components/screens/NowPlaying.tsx:28-34 | while the song lasts, `n` ticks move the time on exactly `n` seconds and change nothing else |
| NowPlaying.Tick | app/components/screens/NowPlaying.tsx:28-34 | the store becomes `NowPlaying.PlaybackTick` of the old store |
| NowPlaying.PositionNumber | app/components/screens/NowPlaying.tsx:59-61 | the position "n of m" has n in 1..m for a queue index inside the queue |
| NowPlaying.Remaining | app/components/screens/NowPlaying.tsx:86-87 | the remaining time reads back as duration minus elapsed time, cut at zero |
| NowPlaying.TimesAddUp | app/components/screens/NowPlaying.tsx:6-10 | inside the song the elapsed and the remaining time read back and add up to the duration |
| NowPlaying.Render | app/components/screens/NowPlaying.tsx:46-52 | the screen shows "No song selected" exactly when no song is loaded |
| NowPlaying.RemainingIsLeft | app/components/screens/NowPlaying.tsx:87 | both remaining-time texts are the formatted number of seconds left (the clamped one cut at zero) |
| NowPlaying.MinusOneSecond | app/components/screens/NowPlaying.tsx:6-10 | minus one second is formatted as "-1:-1" (JavaScript's floor and remainder of a negative number) |
| NowPlaying.ZeroSeconds | app/components/screens/NowPlaying.tsx:6-10 | zero seconds is formatted as "0:00" |
| NowPlaying.OneSecondOver | app/components/screens/NowPlaying.tsx:87 | one second past the end the screen as written shows the remaining time "-1:-1", the clamped one "0:00" |
| NowPlaying.RemainingOvershootsAsWritten | app/components/screens/NowPlaying.tsx:28-33 | on the last song with repeat off the final tick stops one second past the end, and the screen as written then shows "--1:-1" where the clamped screen shows "-0:00" |
| Clock.StopwatchParts | app/components/screens/Clock.tsx:118-122 | hours, minutes, seconds, centiseconds and the leftover milliseconds make up the stopwatch time exactly |
| Clock.ShortLayout | app/components/screens/Clock.tsx:129-131 | where the three fields and the separators of MM:SS.cc sit |
| Clock.LongLayout | app/components/screens/Clock.tsx:125-127 | where the three fields and the separators of H:MM:SS sit |
| Clock.ShortParts | app/components/screens/Clock.tsx:118-122 | below an hour the minutes, seconds and centiseconds make up the time without its last digit |
| Clock.ShortDisplayReadsBack | app/components/screens/Clock.tsx:118-132 | below an hour the display is MM:SS.cc and reads back as the time cut to centiseconds |
| Clock.LongParts | app/components/screens/Clock.tsx:118-122 | the hours, minutes and seconds make up the time without its milliseconds |
| Clock.ReadLongParts | app/components/screens/Clock.tsx:125-127 | an H:MM:SS text reads back from its three fields |
| Clock.ReadLongOf | app/components/screens/Clock.tsx:125-127 | the joined fields read back as their hours, minutes and seconds |
| Clock.LongDisplayReadsBack | app/components/screens/Clock.tsx:118-128 | from one hour on the display is H:MM:SS and reads back as the time cut to seconds |
| Clock.FormatTimer | app/components/screens/Clock.tsx:134-138 | the timer text reads back as whole minutes and seconds below 60 that name the time |
| Clock.LapMatchesStopwatch | app/components/screens/Clock.tsx:140-147 | below an hour a lap row is "Lap n", three spaces and exactly the stopwatch display |
| Clock.DisplayHour | app/components/screens/Clock.tsx:151-154 | the displayed hour is in 1..12 |
| Clock.DisplayHourRoundTrip | app/components/screens/Clock.tsx:151-154 | the displayed hour with its AM/PM names the hour of the day exactly, and PM holds iff the hour is at least 12 |
| Clock.AddLap | app/components/screens/Clock.tsx:68 | the new lap comes first, the older laps follow in order, and at most five are kept |
| Clock.InitialClockValid | app/components/screens/Clock.tsx:14-19 | the starting clock state meets the invariant |
| Clock.AddLapValid | app/components/screens/Clock.tsx:66-68 | taking a lap keeps at most five laps, newest first, none later than the stopwatch |
| Clock.ClockStepValid | app/components/screens/Clock.tsx:35-103 | every tick and button keeps the invariant: the stopwatch non-negative in 10 ms steps, laps bounded and ordered, the timer never negative and never running at zero |
| Clock.RunClockValid | app/components/screens/Clock.tsx:35-103 | the same for any sequence of ticks and buttons |
| Clock.StopwatchSelect | app/components/screens/Clock.tsx:63-97 | select takes a lap while running, resets time and laps when stopped past zero, starts at zero; play/pause toggles running |
| Clock.TimerRules | app/components/screens/Clock.tsx:45-102 | each tick counts down one second and stops at zero; select at zero reloads the initial time and otherwise toggles running; play/pause toggles only above zero |
| Clock.ModesAreSeparate | app/components/screens/Clock.tsx:35-60 | one mode's interval never changes the other mode's state, and nothing happens on the clock face |
| Clock.ClockScreen.constructor | app/components/screens/Clock.tsx:14-19 | the stopwatch and laps start empty and the timer at 300 s, stopped |
| Clock.ClockScreen.StopwatchInterval | app/components/screens/Clock.tsx:35-43 | the state becomes `Clock.StopwatchTick` of the old state |
| Clock.ClockScreen.TimerInterval | app/components/screens/Clock.tsx:45-60 | the state becomes `Clock.TimerTick` of the old state |
| Clock.ClockScreen.HandleSelect | app/components/screens/Clock.tsx:63-92 | the state becomes `Clock.Select` of the old state, and the store only resets the backlight |
| Clock.ClockScreen.HandlePlayPause | app/components/screens/Clock.tsx:94-103 | the state becomes `Clock.PlayPause` of the old state, and the store only resets the backlight |
| PhotoViewer.SafeIndex | app/components/screens/PhotoViewer.tsx:16 | the shown index lies inside a non-empty album, an index inside is kept, one below goes to the first photo and one above to the last |
| PhotoViewer.RenderRules | app/components/screens/PhotoViewer.tsx:15-46 | an empty album shows "No photos"; otherwise the counter is in 1..total, names the photo shown, and an index inside the album is shown as it is |
| PhotoViewer.UnknownAlbumShowsNothing | app/components/screens/PhotoViewer.tsx:15-24 | an album id that no photo carries shows "No photos" |
| StatusBar.PlayPauseExclusive | app/components/iPod/StatusBar.tsx:16-44 | play and pause never show together; one of them shows exactly when a song is loaded and hold is off; the lock hides both |
| StatusBar.ModeIcons | app/components/iPod/StatusBar.tsx:51-73 | shuffle shows iff shuffle is not off; repeat shows iff repeat is not off, with the "one" glyph iff repeat is one |
| StatusBar.HoldTogglesLock | app/components/iPod/StatusBar.tsx:16-44 | toggling hold flips the lock icon, hides play and pause when hold comes on, and leaves the mode icons alone |
| StatusBar.PlayPauseSwapsIcons | app/components/iPod/StatusBar.tsx:26-44 | with a song loaded and hold off, play/pause swaps the play and pause icons |
| Upload.LowerTwice | app/components/screens/MusicUpload.tsx:132 | lower-casing twice is lower-casing once |
| Upload.ExtensionIgnoresCase | app/components/screens/MusicUpload.tsx:132 | the audio-extension test accepts a name exactly when it accepts the name's lower-case form |
| Upload.ExtensionStart | app/components/screens/MusicUpload.tsx:53 | the scan finds a position where an extension starts, or reports that the name has none |
| Upload.StripExtension | app/components/screens/MusicUpload.tsx:53 | the title is the name cut where its extension starts, or the whole name when it has no extension |
| Upload.StripAddedExtension | app/components/screens/MusicUpload.tsx:74 | a base name followed by one extension loses exactly that extension |
| Upload.LowerCharPunctuation | app/components/screens/MusicUpload.tsx:132 | lower-casing turns no character into a dot or a slash and leaves dots and slashes alone |
| Upload.AudioNameTitle | app/components/screens/MusicUpload.tsx:129-133 | a file accepted for its .mp3 ending is titled with its name less the last four characters |
| Upload.MissingTagsGiveDefaults | app/components/screens/MusicUpload.tsx:61-96 | without tags, or when parsing fails, the song is titled after the file and gets the default artist, album, genre, artwork and the current year; without a duration from the audio element the duration is 0 |
| Upload.TagsAreKept | app/components/screens/MusicUpload.tsx:52-60 | tags that are present and not empty are used as they are |
| Upload.DurationIsFloored | app/components/screens/MusicUpload.tsx:57-70 | the duration is the reported one rounded down to whole seconds |
| Upload.ArtworkRoundTrip | app/components/screens/MusicUpload.tsx:45-50 | embedded artwork becomes a data URL that gives back the picture's media type and bytes |
| Upload.GenerateId | app/components/screens/MusicUpload.tsx:16-18 | every generated id starts with "user-" |
| Upload.Progress | app/components/screens/MusicUpload.tsx:155 | the progress shown while a file is processed lies in [0, 100] |
| Upload.ProgressRoundsHalfUp | app/components/screens/MusicUpload.tsx:155 | the progress is the exact percentage of file i + 1/2 out of n, rounded half up |
| Upload.ProgressMonotone | app/components/screens/MusicUpload.tsx:150-156 | the progress never goes back as the files are processed |
| Upload.Uploaded | app/components/screens/MusicUpload.tsx:158-173 | at most one song per file, each a user song with a "user-" id |
| Upload.AllStoredAllUploaded | app/components/screens/MusicUpload.tsx:158-173 | when every file is stored, every file gives its song, in the order of the files |
| Upload.AddAll | app/components/screens/MusicUpload.tsx:170 | adding the songs one by one appends them to the user library and changes nothing else |
| Upload.UploadedStep | app/components/screens/MusicUpload.tsx:150-174 | one more file adds its song, if it was stored, after the songs of the earlier files |
| Upload.AddAllStep | app/components/screens/MusicUpload.tsx:170 | adding one more song is the store's addUserSong on the store with the earlier songs |
| Upload.ProcessedKeepsLibrary | app/components/screens/MusicUpload.tsx:127-184 | with no audio file only the error is set and the store is unchanged; otherwise the screen ends idle at 100% with no error, exactly the songs of the stored audio files are appended, nothing else of the store changes, and files that are not audio add nothing |
| Upload.Uploader.constructor | app/components/screens/MusicUpload.tsx:108-113 | the upload screen starts idle, at 0%, with no error |
| Upload.Uploader.ProcessFiles | app/components/screens/MusicUpload.tsx:127-184 | the screen state and the store become those of processing the files |
| Upload.Uploader.UploadEach | app/components/screens/MusicUpload.tsx:150-174 | the loop appends the songs of the stored files to the library and leaves the screen uploading at the last file's name and progress |
| Upload.LoadLibrary | app/components/screens/MusicUpload.tsx:117-125 | on mounting the songs kept in the database replace the user library once, and nothing else changes |
| Upload.LoadLibraryOnce | app/components/screens/MusicUpload.tsx:118-125 | a second mount loads nothing more |
| Upload.LoadLibraryOnMount | app/components/screens/MusicUpload.tsx:117-125 | the store becomes the loaded store |
| Base64.CharRoundTrip | app/components/screens/MusicUpload.tsx:26-30 | every six-bit value's character decodes back to it and is not padding |
| Base64.Encode | app/components/screens/MusicUpload.tsx:26-30 | the encoding has four characters per started group of three bytes |
| Base64.GroupRoundTrip | app/components/screens/MusicUpload.tsx:26-30 | a full group of three bytes decodes back |
| Base64.OneRoundTrip | app/components/screens/MusicUpload.tsx:26-30 | a single final byte, padded with two "=", decodes back |
| Base64.TwoRoundTrip | app/components/screens/MusicUpload.tsx:26-30 | a final pair of bytes, padded with one "=", decodes back |
| Base64.DecodeLast | app/components/screens/MusicUpload.tsx:26-30 | a last group decodes on its own |
| Base64.DecodeFront | app/components/screens/MusicUpload.tsx:26-30 | a full group in front of an encoding decodes in front of its bytes |
| Base64.OneByteRoundTrip | app/components/screens/MusicUpload.tsx:26-30 | one byte encodes and decodes back |
| Base64.TwoBytesRoundTrip | app/components/screens/MusicUpload.tsx:26-30 | two bytes encode and decode back |
| Base64.GroupStep | app/components/screens/MusicUpload.tsx:26-30 | a full group in front of a rest that round-trips round-trips |
| Base64.EncodeRoundTrip | app/components/screens/MusicUpload.tsx:26-30 | decoding gives back exactly the bytes that were encoded |
| Base64.EncodeAlphabet | app/components/screens/MusicUpload.tsx:26-30 | every character of an encoding is in the alphabet or is padding, and padding comes only in the last two places |
| Base64.DataUrlRoundTrip | app/components/screens/MusicUpload.tsx:25-32 | a data URL gives back its media type and its bytes |
| Seqs.Filter | app/data/mockData.ts:115-117 | `Array.filter` keeps only elements of the list that satisfy the test, and never lengthens it |
| Seqs.FilterConcat | app/data/mockData.ts:115-121 | filtering a concatenation filters each part in turn, so the kept elements keep their original order |
| Seqs.FilterMultiset | app/data/mockData.ts:115-121 | exactly the matching elements survive, each as often as in the list |
| Seqs.FilterMembership | app/data/mockData.ts:115-121 | an element is in the result exactly when it is in the list and matches |
| Seqs.FilterAll | app/data/mockData.ts:115-121 | a list whose elements all match filters to itself |
| Seqs.FilterNone | app/data/mockData.ts:115-121 | a list none of whose elements match filters to nothing |
| Seqs.FindIndex | app/components/iPod/iPodMain.tsx:504 | `findIndex` gives the first position satisfying the test, or none when no position does |
| Seqs.Find | app/data/mockData.ts:111 | `find` gives an element satisfying the test exactly when one exists, and it is the first such element of the list |
| MockData.GetSongById | app/data/mockData.ts:111 | the first song with that id, or none exactly when no song has it |
| MockData.GetAlbumById | app/data/mockData.ts:112 | an album with that id, or none when there is none |
| MockData.GetArtistById | app/data/mockData.ts:113 | an artist with that id, or none when there is none |
| MockData.GetArtistByName | app/data/mockData.ts:114 | an artist with that name, or none when there is none |
| MockData.GetPhotoById | app/data/mockData.ts:119 | a photo with that id, or none when there is none |
| MockData.GetPhotoAlbumById | app/data/mockData.ts:120 | a photo album with that id, or none when there is none |
| MockData.AlbumsByArtist | app/data/mockData.ts:115 | exactly the albums by that artist |
| MockData.SongsByAlbum | app/data/mockData.ts:116 | exactly the songs of that album |
| MockData.SongsByGenre | app/data/mockData.ts:117 | exactly the songs of that genre |
| MockData.PhotosByAlbum | app/data/mockData.ts:121 | exactly the photos of that album |
| MockData.SongsByIds | app/data/mockData.ts:118 | only built-in songs are found, and no more of them than there are ids |
| MockData.SongsByIdsKeepsOrder | app/data/mockData.ts:118 | the ids of the songs found are the known ids in the order given: unknown ids are dropped and nothing is reordered |
| MockData.SongsByIdsAllKnown | app/data/mockData.ts:118 | when every id is known, one song is found per id |
| MockData.SongIdsConcat | app/data/mockData.ts:15-51 | the ids of two lists joined are their ids joined |
| MockData.PhotoIdsConcat | app/data/mockData.ts:81-102 | the ids of two photo lists joined are their ids joined |
| MockData.SongsByAlbumGroups | app/data/mockData.ts:15-51 | filtering the song list is filtering its six album groups in turn |
| MockData.GroupsAreAlbums | app/data/mockData.ts:16-50 | every song of each group carries that group's album title |
| MockData.UniformGroup | app/data/mockData.ts:116 | a group all of one album filters to the whole group or to nothing |
| MockData.GroupFilters | app/data/mockData.ts:116 | filtering the groups by a title keeps exactly the group of that title |
| MockData.SongsByAlbumIsGroup | app/data/mockData.ts:116 | the songs of an album are the group with that title, in their order |
| MockData.MidnightDreamsMatches | app/data/mockData.ts:16-20 | the Midnight Dreams filter gives exactly its four songs in order |
| MockData.SunsetBoulevardMatches | app/data/mockData.ts:15-51 | the same for Sunset Boulevard |
| MockData.DeepBlueMatches | app/data/mockData.ts:15-51 | the same for Deep Blue |
| MockData.IntoTheWildMatches | app/data/mockData.ts:15-51 | the same for Into The Wild |
| MockData.UltravioletMatches | app/data/mockData.ts:15-51 | the same for Ultraviolet |
| MockData.AutumnGoldMatches | app/data/mockData.ts:15-51 | the same for Autumn Gold |
| MockData.AlbumsListGroups | app/data/mockData.ts:53-60 | each album's title and song list match one album group |
| MockData.AlbumSongsMatchLibrary | app/data/mockData.ts:53-60 | every album's song list is, in order, the ids of the songs whose album field is its title |
| MockData.GroupIds | app/data/mockData.ts:15-51 | the ids of the six groups are s1..s24 in blocks of four |
| MockData.SongIdsOfLibrary | app/data/mockData.ts:15-51 | the ids of all built-in songs are s1..s24 in order |
| MockData.KnownSongIdIsListed | app/data/mockData.ts:111 | an id is known exactly when it is one of s1..s24 |
| MockData.PlaylistsNameKnownSongs | app/data/mockData.ts:71-76 | every playlist id names a built-in song, so looking up a playlist loses no song |
| MockData.UniformPhotoGroup | app/data/mockData.ts:121 | a photo group all of one album filters to the whole group or to nothing |
| MockData.PhotosByAlbumGroups | app/data/mockData.ts:81-102 | filtering the photos is filtering their three album groups in turn |
| MockData.NatureFilter | app/data/mockData.ts:82-87 | the Nature photos filter to themselves for "pa1" and to nothing otherwise |
| MockData.CityFilter | app/data/mockData.ts:89-93 | the City photos filter to themselves for "pa2" and to nothing otherwise |
| MockData.TravelFilter | app/data/mockData.ts:95-101 | the Travel photos filter to themselves for "pa3" and to nothing otherwise |
| MockData.PhotosByAlbumIsGroup | app/data/mockData.ts:121 | the photos of an album are its group, in order, and nothing for any other id |
| MockData.PhotoAlbumsListGroups | app/data/mockData.ts:104-108 | each photo album's id and photo list match one photo group |
| MockData.PhotoAlbumsMatchLibrary | app/data/mockData.ts:104-108 | every photo album lists, in order, the ids of the photos that name it |
| Text.RemovePrefix | app/components/iPod/iPodMain.tsx:436 | taking the prefix off leaves the rest, which the prefix completes back to the id |
| Text.PrefixRoundTrip | app/components/iPod/iPodMain.tsx:448 | a prefixed id starts with the prefix and gives back what followed it |
| Text.DigitChar | app/components/iPod/iPodMain.tsx:94 | a digit's character is a digit of that value |
| Text.NatToString | app/components/iPod/iPodMain.tsx:94 | a rendered count is digits with no leading zero, one digit exactly below ten |
| Text.ParseNatToString | app/components/iPod/iPodMain.tsx:94 | a rendered count reads back as the count |
| Text.NatToStringInjective | app/components/iPod/iPodMain.tsx:245 | different numbers never render alike |
| Text.PadStart2 | app/components/screens/NowPlaying.tsx:9 | padding puts zeros in front up to two characters and keeps the string at its end |
| Text.TwoDigits | app/components/screens/NowPlaying.tsx:9 | a number below 100 padded to two characters is two digits that read back as the number |
| Text.JsRem | app/components/screens/NowPlaying.tsx:8 | the remainder takes the sign of the dividend and lies strictly between -b and b |
| Text.MinutesSecondsRoundTrip | app/components/screens/NowPlaying.tsx:6-10 | a non-negative time formats to "m:ss", which reads back as the time |

## Left out

- Timers and wall time (`setTimeout`, `setInterval`, `Date.now`, `lastActivityTime`) are not modelled. Ticks and timer firings are explicit events, and the backlight check takes the seconds since the last activity as a parameter.
- `Math.random` is a parameter. The next-track pick in shuffle-songs mode is an index into the queue, and shufflePlay's random sort is any permutation of the songs given as input.
- The ring test, `atan2`, `sqrt` and the bounding rectangle of the wheel are left out, because they are floating-point DOM geometry. The pointer arrives as "inside the ring" plus an angle in whole degrees.
- The click sound (AudioContext) and the audio engine are left out. They are browser audio with floating-point volume.
- The IndexedDB music database is a parameter. Its stored songs are the argument of `Upload.LoadLibrary`, and each file's "stored or failed" outcome is part of that file's input.
- The music-metadata parser and the Audio-element duration fallback are foreign asynchronous calls. Their outcome (tags, only a duration, or an error) is an input. Durations arrive as exact rationals and the model floors them.
- Store.IPodStore.UpdateSettings: keeps the store invariant only for a patch with no volume or a volume inside [0, 100]. `updateSettings` merges any number into the volume; the volume keys go through `adjustVolume`, which clamps.
- Store.IPodStore: `setWheelVelocity` and the `wheelVelocity` field are not modelled. No file of the core reads the velocity.
- The persist middleware and localStorage are left out. They only save `settings` and `songRatings`, and the model keeps those fields in the store.
- The browser's clamping of `scrollTop` to the scrollable range is left out. `MenuList.ListContainer` keeps the offset that the effect assigns.
- Clock: the analog hand angles and `toLocaleDateString` are floating-point and locale rendering. Only the hour, minute and AM/PM values are modelled.
- Presentation is left out: the brightness CSS filter, animations, MenuItem rendering, icons and layout.
- The window-global `clockSelect`/`clockPlayPause` bridge and React hook timing (stale closures, dependency arrays) are not modelled. The shell answers the clock screens with `Shell.Route.ToClock`, and `Clock.ClockScreen` handles the event.
- Shell: the wheel's `onNextLongPress`, `onPreviousLongPress` and `onSeekRelease` are not wired by the shell, so they do nothing. Seeking in the store is therefore never started from the wheel.
- MainMenu.SettingRowsSelectOptions: a row outside an option list changes nothing in the model. The source would write `undefined` into the setting. The wheel keeps the index inside the item count, and `MainMenu.SettingCountsMatchOptions` shows that the item count equals the length of the option list.
- Shell.HoldLocksWheel: the corrected hold lock is proved only when no press timer was armed before hold went on. A timer that is already running still fires.
- Integer seconds: song durations, the playback position and the upload progress are whole numbers. The progress is computed on exact fractions with halves rounded up, where the source uses `Math.round` on floating point.

## Findings

| source | as written | input that shows it | evidently intended | confidence | as-written member | corrected member |
|---|---|---|---|---|---|---|
| app/components/iPod/iPodShell.tsx:265-274 | the shell renders the click wheel without `disabled`, so hold only blocks the keyboard: wheel buttons and rotation still act | hold on, then a click of the centre button: the shell receives select | the wheel is disabled while hold is on, so only the hold switch and the volume keys act | not executed | Shell.HoldLeavesWheelOpenAsWired | Shell.HoldLocksWheel |
| app/components/screens/NowPlaying.tsx:87 | the remaining time is `duration - currentTime` formatted as is; the final tick of the last song with repeat off leaves the time one second past the end, so the value is -1 | a 180 s song alone in the queue, repeat off, ticked at 180 s: the screen shows "--1:-1" | the remaining time is cut at zero and shows "-0:00" | not executed | NowPlaying.RemainingOvershootsAsWritten | NowPlaying.Remaining |
