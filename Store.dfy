/**
 * The device store object: its state in the groups of StoreModel, and one method per action.
 * Each method is specified by the transition of the same name in StoreModel, so every
 * property proved there holds of the object.
 */
module Store {
  import opened Wrappers
  import opened Types
  import opened Seqs
  import SM = StoreModel

  class IPodStore {
    var nav: SM.NavState
    var player: SM.PlayerState
    var songRatings: map<string, int>
    var device: SM.DeviceState
    var settings: Settings
    var photos: SM.PhotoState
    var library: SM.LibraryState

    /** The fields as one record. */
    ghost function Snapshot(): SM.StoreState
      reads this
    {
      SM.StoreState(nav, player, songRatings, device, settings, photos, library)
    }

    ghost predicate Valid()
      reads this
    {
      SM.Valid(Snapshot())
    }

    constructor ()
      ensures Snapshot() == SM.Initial()
      ensures Valid()
    {
      nav := SM.NavState([], SM.InitialScreen, 0);
      player := SM.PlayerState(None, false, 0, [], 0, false, false, None);
      songRatings := map[];
      device := SM.DeviceState(false, false, false, false, true);
      settings := SM.DefaultSettings;
      photos := SM.PhotoState(0, None);
      library := SM.LibraryState([], false);
    }

    // -------------------------------------------------------------- navigation

    method NavigateTo(screen: NavigationItem)
      modifies this
      ensures Snapshot() == SM.NavigateTo(old(Snapshot()), screen)
      ensures old(Valid()) ==> Valid()
    {
      nav := SM.NavState(nav.navigationStack + [nav.currentScreen.(selectedIndex := nav.selectedIndex)],
                         screen, screen.selectedIndex);
      device := device.(backlightOn := true);
    }

    method GoBack()
      modifies this
      ensures Snapshot() == SM.GoBack(old(Snapshot()))
      ensures old(Valid()) ==> Valid()
    {
      var stack := nav.navigationStack;
      if |stack| == 0 {
        return;
      }
      var previous := stack[|stack| - 1];
      nav := SM.NavState(stack[..|stack| - 1], previous, previous.selectedIndex);
      device := device.(backlightOn := true);
    }

    method SetSelectedIndex(index: int)
      modifies this
      ensures Snapshot() == SM.SetSelectedIndex(old(Snapshot()), index)
      ensures old(Valid()) ==> Valid()
    {
      nav := nav.(selectedIndex := index);
      device := device.(backlightOn := true);
    }

    method IncrementSelectedIndex(max: int)
      modifies this
      ensures Snapshot() == SM.IncrementSelectedIndex(old(Snapshot()), max)
      ensures old(Valid()) ==> Valid()
    {
      nav := nav.(selectedIndex := SM.Min(nav.selectedIndex + 1, max - 1));
      device := device.(backlightOn := true);
    }

    method DecrementSelectedIndex()
      modifies this
      ensures Snapshot() == SM.DecrementSelectedIndex(old(Snapshot()))
      ensures old(Valid()) ==> Valid()
    {
      nav := nav.(selectedIndex := SM.Max(nav.selectedIndex - 1, 0));
      device := device.(backlightOn := true);
    }

    // -------------------------------------------------------------- playback

    method PlaySong(song: Song, songs: Option<seq<Song>>)
      modifies this
      ensures Snapshot() == SM.PlaySong(old(Snapshot()), song, songs)
      ensures old(Valid()) ==> Valid()
    {
      var newQueue := if songs.Some? then songs.value else [song];
      var found := FindIndex(newQueue, (x: Song) => x.id == song.id);
      var index := if found.Some? then found.value else 0;
      player := player.(currentSong := Some(song), isPlaying := true, currentTime := 0, queue := newQueue,
                        queueIndex := index);
      device := device.(backlightOn := true);
    }

    method TogglePlayPause()
      modifies this
      ensures Snapshot() == SM.TogglePlayPause(old(Snapshot()))
      ensures old(Valid()) ==> Valid()
    {
      player := player.(isPlaying := !player.isPlaying);
      device := device.(backlightOn := true);
    }

    method NextTrack(pick: nat)
      requires |player.queue| > 0 ==> pick < |player.queue|
      modifies this
      ensures Snapshot() == SM.NextTrack(old(Snapshot()), pick)
      ensures old(Valid()) ==> Valid()
    {
      if |player.queue| == 0 {
        return;
      }
      var next := SM.NextIndex(|player.queue|, player.queueIndex, settings.repeat, settings.shuffle, pick);
      if next.None? {
        player := player.(isPlaying := false);
        return;
      }
      player := player.(currentSong := SM.At(player.queue, next.value), queueIndex := next.value, currentTime := 0);
      device := device.(backlightOn := true);
    }

    method PreviousTrack()
      modifies this
      ensures Snapshot() == SM.PreviousTrack(old(Snapshot()))
      ensures old(Valid()) ==> Valid()
    {
      if |player.queue| == 0 {
        return;
      }
      if player.currentTime > 3 {
        player := player.(currentTime := 0);
        device := device.(backlightOn := true);
        return;
      }
      var index := SM.PreviousIndex(|player.queue|, player.queueIndex, settings.repeat);
      player := player.(currentSong := SM.At(player.queue, index), queueIndex := index, currentTime := 0);
      device := device.(backlightOn := true);
    }

    method SetCurrentTime(time: int)
      modifies this
      ensures Snapshot() == SM.SetCurrentTime(old(Snapshot()), time)
      ensures old(Valid()) ==> Valid()
    {
      player := player.(currentTime := time);
    }

    method ShufflePlay(shuffled: seq<Song>)
      requires multiset(shuffled) == multiset(library.userSongs)
      modifies this
      ensures Snapshot() == SM.ShufflePlay(old(Snapshot()), shuffled)
      ensures old(Valid()) ==> Valid()
    {
      if |library.userSongs| == 0 {
        return;
      }
      assert |shuffled| == |multiset(shuffled)| == |library.userSongs|;
      player := player.(currentSong := Some(shuffled[0]), isPlaying := true, currentTime := 0, queue := shuffled,
                        queueIndex := 0);
      device := device.(backlightOn := true);
    }

    // -------------------------------------------------------------- scrubbing

    method StartScrubbing()
      modifies this
      ensures Snapshot() == SM.StartScrubbing(old(Snapshot()))
      ensures old(Valid()) ==> Valid()
    {
      player := player.(isScrubbing := true);
      device := device.(backlightOn := true);
    }

    method StopScrubbing()
      modifies this
      ensures Snapshot() == SM.StopScrubbing(old(Snapshot()))
      ensures old(Valid()) ==> Valid()
    {
      player := player.(isScrubbing := false);
      device := device.(backlightOn := true);
    }

    method Scrub(delta: int)
      modifies this
      ensures Snapshot() == SM.Scrub(old(Snapshot()), delta)
      ensures old(Valid()) ==> Valid()
    {
      if player.currentSong.None? || !player.isScrubbing {
        return;
      }
      var duration := player.currentSong.value.duration;
      player := player.(currentTime := SM.Max(0, SM.Min(duration, player.currentTime + delta)));
      device := device.(backlightOn := true);
    }

    // -------------------------------------------------------------- ratings

    method SetRating(songId: string, rating: int)
      modifies this
      ensures Snapshot() == SM.SetRating(old(Snapshot()), songId, rating)
      ensures old(Valid()) ==> Valid()
    {
      songRatings := songRatings[songId := rating];
      device := device.(backlightOn := true);
    }

    /** The stored rating, 0 for a song never rated. */
    method GetRating(songId: string) returns (rating: int)
      ensures songId in songRatings ==> rating == songRatings[songId]
      ensures songId !in songRatings ==> rating == 0
    {
      rating := if songId in songRatings then songRatings[songId] else 0;
    }

    // -------------------------------------------------------------- sleep, backlight, hold

    method Sleep()
      modifies this
      ensures Snapshot() == SM.Sleep(old(Snapshot()))
      ensures old(Valid()) ==> Valid()
    {
      player := player.(isPlaying := false);
      device := device.(isSleeping := true, backlightOn := false);
    }

    method Wake()
      modifies this
      ensures Snapshot() == SM.Wake(old(Snapshot()))
      ensures old(Valid()) ==> Valid()
    {
      device := device.(isSleeping := false, backlightOn := true);
    }

    method ToggleSleep()
      modifies this
      ensures Snapshot() == SM.ToggleSleep(old(Snapshot()))
      ensures old(Valid()) ==> Valid()
    {
      if device.isSleeping {
        device := device.(isSleeping := false, backlightOn := true);
      } else {
        player := player.(isPlaying := false);
        device := device.(isSleeping := true, backlightOn := false);
      }
    }

    method ResetBacklight()
      modifies this
      ensures Snapshot() == SM.ResetBacklight(old(Snapshot()))
      ensures old(Valid()) ==> Valid()
    {
      device := device.(backlightOn := true);
    }

    method DimBacklight()
      modifies this
      ensures Snapshot() == SM.DimBacklight(old(Snapshot()))
      ensures old(Valid()) ==> Valid()
    {
      device := device.(backlightOn := false);
    }

    method ToggleHold()
      modifies this
      ensures Snapshot() == SM.ToggleHold(old(Snapshot()))
      ensures old(Valid()) ==> Valid()
    {
      device := device.(isHoldOn := !device.isHoldOn);
    }

    method SetHold(on: bool)
      modifies this
      ensures Snapshot() == SM.SetHold(old(Snapshot()), on)
      ensures old(Valid()) ==> Valid()
    {
      device := device.(isHoldOn := on);
    }

    // -------------------------------------------------------------- settings and volume

    method UpdateSettings(patch: SettingsPatch)
      modifies this
      ensures Snapshot() == SM.UpdateSettings(old(Snapshot()), patch)
      ensures old(Valid()) && (patch.volume.Some? ==> 0 <= patch.volume.value <= 100) ==> Valid()
    {
      settings := ApplyPatch(settings, patch);
      device := device.(backlightOn := true);
    }

    method AdjustVolume(delta: int)
      modifies this
      ensures Snapshot() == SM.AdjustVolume(old(Snapshot()), delta)
      ensures old(Valid()) ==> Valid()
    {
      settings := settings.(volume := SM.Max(0, SM.Min(100, settings.volume + delta)));
      device := device.(showVolumeOverlay := true, backlightOn := true);
    }

    method ShowVolume()
      modifies this
      ensures Snapshot() == SM.ShowVolume(old(Snapshot()))
      ensures old(Valid()) ==> Valid()
    {
      device := device.(showVolumeOverlay := true, volumeTimerPending := true);
    }

    method HideVolume()
      modifies this
      ensures Snapshot() == SM.HideVolume(old(Snapshot()))
      ensures old(Valid()) ==> Valid()
    {
      device := device.(showVolumeOverlay := false, volumeTimerPending := false);
    }

    /** The pending hide of the volume overlay fires. */
    method VolumeTimerFired()
      modifies this
      ensures Snapshot() == SM.VolumeTimerFired(old(Snapshot()))
      ensures old(Valid()) ==> Valid()
    {
      if device.volumeTimerPending {
        device := device.(showVolumeOverlay := false, volumeTimerPending := false);
      }
    }

    // -------------------------------------------------------------- seeking

    method StartSeeking(direction: SeekDirection)
      modifies this
      ensures Snapshot() == SM.StartSeeking(old(Snapshot()), direction)
      ensures old(Valid()) ==> Valid()
    {
      player := player.(isSeeking := true, seekDirection := Some(direction));
      device := device.(backlightOn := true);
    }

    method StopSeeking()
      modifies this
      ensures Snapshot() == SM.StopSeeking(old(Snapshot()))
      ensures old(Valid()) ==> Valid()
    {
      player := player.(isSeeking := false, seekDirection := None);
    }

    // -------------------------------------------------------------- photos

    method SetCurrentPhoto(albumId: string, index: int)
      modifies this
      ensures Snapshot() == SM.SetCurrentPhoto(old(Snapshot()), albumId, index)
      ensures old(Valid()) ==> Valid()
    {
      photos := SM.PhotoState(index, Some(albumId));
      device := device.(backlightOn := true);
    }

    method NextPhoto()
      modifies this
      ensures Snapshot() == SM.NextPhoto(old(Snapshot()))
      ensures old(Valid()) ==> Valid()
    {
      photos := photos.(currentPhotoIndex := photos.currentPhotoIndex + 1);
      device := device.(backlightOn := true);
    }

    method PreviousPhoto()
      modifies this
      ensures Snapshot() == SM.PreviousPhoto(old(Snapshot()))
      ensures old(Valid()) ==> Valid()
    {
      photos := photos.(currentPhotoIndex := SM.Max(0, photos.currentPhotoIndex - 1));
      device := device.(backlightOn := true);
    }

    // -------------------------------------------------------------- user library

    method SetUserSongs(songs: seq<Song>)
      modifies this
      ensures Snapshot() == SM.SetUserSongs(old(Snapshot()), songs)
      ensures old(Valid()) ==> Valid()
    {
      library := library.(userSongs := songs);
    }

    method AddUserSong(song: Song)
      modifies this
      ensures Snapshot() == SM.AddUserSong(old(Snapshot()), song)
      ensures old(Valid()) ==> Valid()
    {
      library := library.(userSongs := library.userSongs + [song]);
    }

    method RemoveUserSong(songId: string)
      modifies this
      ensures Snapshot() == SM.RemoveUserSong(old(Snapshot()), songId)
      ensures old(Valid()) ==> Valid()
    {
      library := library.(userSongs := Filter(library.userSongs, SM.NotId(songId)));
    }

    method SetUserLibraryLoaded(loaded: bool)
      modifies this
      ensures Snapshot() == SM.SetUserLibraryLoaded(old(Snapshot()), loaded)
      ensures old(Valid()) ==> Valid()
    {
      library := library.(userLibraryLoaded := loaded);
    }
  }
}
