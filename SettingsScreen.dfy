/**
 * The setting screens: the option lists with their checkmarks, the About list, and the effect
 * that writes the brightness while the wheel scrolls on the brightness screen.
 */
module SettingsScreen {
  import opened Wrappers
  import opened Types
  import opened Text
  import MockData
  import SM = StoreModel
  import Store
  import MainMenu

  type Row = MainMenu.MenuItemData

  const CheckMark := "✓"

  function Check(on: bool): string { if on then CheckMark else "" }

  predicate Checked(row: Row) { row.rightText == Some(CheckMark) }

  /** Rows of an option list; a row carries the checkmark when its option is the current value. */
  function OptionRows<T(==)>(ids: seq<string>, titles: seq<string>, options: seq<T>, current: T): (rows: seq<Row>)
    requires |ids| == |options| && |titles| == |options|
    ensures |rows| == |options|
    ensures forall i :: 0 <= i < |rows| ==> rows[i].id == ids[i] && rows[i].title == titles[i]
    ensures forall i :: 0 <= i < |rows| ==> (Checked(rows[i]) <==> options[i] == current)
  {
    seq(|options|, i requires 0 <= i < |options| =>
      MainMenu.MenuItemData(ids[i], titles[i], false, Some(Check(options[i] == current))))
  }

  function ShuffleRows(settings: Settings): seq<Row>
  {
    OptionRows(["off", "songs", "albums"], ["Off", "Songs", "Albums"], MainMenu.ShuffleOptions, settings.shuffle)
  }

  function RepeatRows(settings: Settings): seq<Row>
  {
    OptionRows(["off", "one", "all"], ["Off", "One", "All"], MainMenu.RepeatOptions, settings.repeat)
  }

  function BacklightRows(settings: Settings): seq<Row>
  {
    OptionRows(["0", "2", "5", "10", "15", "20"],
               ["Always On", "2 Seconds", "5 Seconds", "10 Seconds", "15 Seconds", "20 Seconds"],
               MainMenu.BacklightOptions, settings.backlightTimer)
  }

  function ClickerRows(settings: Settings): seq<Row>
  {
    [MainMenu.MenuItemData("on", "On", false, Some(Check(settings.clicker))),
     MainMenu.MenuItemData("off", "Off", false, Some(Check(!settings.clicker)))]
  }

  /** In a list without repetitions the position of a listed value is the only one holding it. */
  lemma IndexOfDistinct<T>(options: seq<T>, value: T, i: int)
    requires forall a, b :: 0 <= a < b < |options| ==> options[a] != options[b]
    requires value in options && 0 <= i < |options|
    ensures options[i] == value <==> i == MainMenu.IndexOr0(options, value)
  {
  }

  /** Exactly one shuffle row and exactly one repeat row is checked: the row the screen opens on,
      whose option select would set. */
  lemma ShuffleAndRepeatCheckOne(settings: Settings, i: int)
    requires 0 <= i < 3
    ensures Checked(ShuffleRows(settings)[i]) <==> i == MainMenu.Preselected(MainMenu.ShuffleSetting, settings)
    ensures Checked(RepeatRows(settings)[i]) <==> i == MainMenu.Preselected(MainMenu.RepeatSetting, settings)
  {
    match settings.shuffle {
      case ShuffleOff => assert MainMenu.ShuffleOptions[0] == ShuffleOff;
      case ShuffleSongs => assert MainMenu.ShuffleOptions[1] == ShuffleSongs;
      case ShuffleAlbums => assert MainMenu.ShuffleOptions[2] == ShuffleAlbums;
    }
    match settings.repeat {
      case RepeatOff => assert MainMenu.RepeatOptions[0] == RepeatOff;
      case RepeatOne => assert MainMenu.RepeatOptions[1] == RepeatOne;
      case RepeatAll => assert MainMenu.RepeatOptions[2] == RepeatAll;
    }
    IndexOfDistinct(MainMenu.ShuffleOptions, settings.shuffle, i);
    IndexOfDistinct(MainMenu.RepeatOptions, settings.repeat, i);
  }

  /** The backlight row of the current timeout is checked, the row the screen opens on; a
      timeout that is not among the six checks no row. */
  lemma BacklightCheck(settings: Settings, i: int)
    requires 0 <= i < 6
    ensures settings.backlightTimer in MainMenu.BacklightOptions ==>
              (Checked(BacklightRows(settings)[i]) <==> i == MainMenu.Preselected(MainMenu.BacklightSetting, settings))
    ensures settings.backlightTimer !in MainMenu.BacklightOptions ==> !Checked(BacklightRows(settings)[i])
  {
    if settings.backlightTimer in MainMenu.BacklightOptions {
      IndexOfDistinct(MainMenu.BacklightOptions, settings.backlightTimer, i);
    }
  }

  /** Exactly one of On and Off is checked, the row the screen opens on. */
  lemma ClickerCheckOne(settings: Settings, i: int)
    requires 0 <= i < 2
    ensures Checked(ClickerRows(settings)[i]) <==> i == MainMenu.Preselected(MainMenu.ClickerSetting, settings)
    ensures Checked(ClickerRows(settings)[0]) != Checked(ClickerRows(settings)[1])
  {
  }

  /** The About list: device name, song and photo counts, and fixed facts. */
  function AboutRows(userSongCount: nat): (rows: seq<Row>)
    ensures |rows| == 8
  {
    [MainMenu.MenuItemData("name", "Name", false, Some("iPod Web")),
     MainMenu.MenuItemData("songs", "Songs", false, Some(NatToString(userSongCount))),
     MainMenu.MenuItemData("photos", "Photos", false, Some(NatToString(|MockData.Photos|))),
     MainMenu.MenuItemData("capacity", "Capacity", false, Some("∞")),
     MainMenu.MenuItemData("available", "Available", false, Some("∞")),
     MainMenu.MenuItemData("version", "Version", false, Some("1.0.0")),
     MainMenu.MenuItemData("serial", "S/N", false, Some("WEBIPOD2024")),
     MainMenu.MenuItemData("format", "Format", false, Some("Next.js"))]
  }

  /** The Songs row reads back as the number of user songs and the Photos row as the number of
      photos in the library. */
  lemma AboutCounts(userSongCount: nat)
    ensures AboutRows(userSongCount)[1].rightText.Some? && AboutRows(userSongCount)[2].rightText.Some?
    ensures ParseDigits(AboutRows(userSongCount)[1].rightText.value) == userSongCount
    ensures ParseDigits(AboutRows(userSongCount)[2].rightText.value) == |MockData.Photos|
  {
    ParseNatToString(userSongCount);
    ParseNatToString(|MockData.Photos|);
  }

  datatype View = ListView(rows: seq<Row>) | BrightnessView(level: int) | NoView

  /** What a setting screen shows; the brightness bar shows the selected index itself. */
  function Render(settingType: string, settings: Settings, userSongCount: nat, selectedIndex: int): View
  {
    if settingType == "about" then ListView(AboutRows(userSongCount))
    else match MainMenu.ParseKind(settingType)
      case Some(k) =>
        if k.ShuffleSetting? then ListView(ShuffleRows(settings))
        else if k.RepeatSetting? then ListView(RepeatRows(settings))
        else if k.BacklightSetting? then ListView(BacklightRows(settings))
        else if k.BrightnessSetting? then BrightnessView(selectedIndex)
        else ListView(ClickerRows(settings))
      case None => NoView
  }

  /** A setting type that names no screen renders nothing. */
  lemma UnknownTypeRendersNothing(settingType: string, settings: Settings, n: nat, index: int)
    ensures Render(settingType, settings, n, index).NoView? <==>
              settingType != "about" && MainMenu.ParseKind(settingType).None?
  {
  }

  /** Every list a setting screen shows has as many rows as the wheel may scroll through there. */
  lemma ListsMatchItemCount(s: SM.StoreState, settingType: string)
    requires s.nav.currentScreen.screenType == SettingsType && s.nav.currentScreen.data == SettingData(settingType)
    ensures var v := Render(settingType, s.settings, |s.library.userSongs|, s.nav.selectedIndex);
            v.ListView? ==> |v.rows| == MainMenu.ItemCount(s)
  {
  }

  // ---------------------------------------------------------------- brightness

  function Clamp(index: int): (b: int)
    ensures 0 <= b <= 100
    ensures 0 <= index <= 100 ==> b == index
    ensures index < 0 ==> b == 0
    ensures index > 100 ==> b == 100
  {
    SM.Max(0, SM.Min(100, index))
  }

  /** One run of the brightness effect. `first` says whether this is the run on mounting,
      which is skipped. */
  function SyncBrightness(s: SM.StoreState, first: bool, settingType: string, index: int): SM.StoreState
  {
    if settingType != "brightness" || first then s
    else if Clamp(index) != s.settings.brightness then SM.UpdateSettings(s, EmptyPatch.(brightness := Some(Clamp(index))))
    else s
  }

  /** After a run on the brightness screen past mounting, the brightness is the selected index
      brought into [0, 100], and no other setting changed; the store is written only when the
      value differs. */
  lemma SyncSetsClampedBrightness(s: SM.StoreState, index: int)
    ensures var r := SyncBrightness(s, false, "brightness", index);
            r.settings == s.settings.(brightness := Clamp(index)) &&
            (r == s <==> Clamp(index) == s.settings.brightness)
  {
  }

  /** The run on mounting, and runs on other screens, change nothing; a second run with the same
      index changes nothing either. */
  lemma SyncSkipsAndSettles(s: SM.StoreState, first: bool, settingType: string, index: int)
    ensures (first || settingType != "brightness") ==> SyncBrightness(s, first, settingType, index) == s
    ensures var r := SyncBrightness(s, first, settingType, index);
            SyncBrightness(r, false, settingType, index) == SyncBrightness(s, false, settingType, index)
  {
  }

  /** The brightness screen opens on the current brightness, so when that is inside [0, 100] the
      effect leaves it alone until the wheel moves. */
  lemma OpeningBrightnessKeepsIt(s: SM.StoreState)
    requires 0 <= s.settings.brightness <= 100
    ensures MainMenu.Preselected(MainMenu.BrightnessSetting, s.settings) == s.settings.brightness
    ensures SyncBrightness(s, false, "brightness", MainMenu.Preselected(MainMenu.BrightnessSetting, s.settings)) == s
  {
  }

  /** The mounted settings screen, with the effect's "initial mount" flag. */
  class BrightnessSync {
    var isInitialMount: bool

    constructor ()
      ensures isInitialMount
    {
      isInitialMount := true;
    }

    method Run(settingType: string, selectedIndex: int, store: Store.IPodStore)
      modifies this, store
      ensures isInitialMount == (old(isInitialMount) && settingType != "brightness")
      ensures store.Snapshot() == SyncBrightness(old(store.Snapshot()), old(isInitialMount), settingType, selectedIndex)
    {
      if settingType == "brightness" {
        if isInitialMount {
          isInitialMount := false;
          return;
        }
        var level := SM.Max(0, SM.Min(100, selectedIndex));
        if level != store.settings.brightness {
          store.UpdateSettings(EmptyPatch.(brightness := Some(level)));
        }
      }
    }
  }
}
