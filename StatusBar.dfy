/**
 * The status bar's icons: hold lock, play or pause, shuffle, and repeat with its "one" glyph.
 */
module StatusBar {
  import opened Types
  import SM = StoreModel

  datatype RepeatIcon = NoRepeatIcon | RepeatAllIcon | RepeatOneIcon

  datatype Icons = Icons(lock: bool, play: bool, pause: bool, shuffle: bool, repeat: RepeatIcon)

  function IconsOf(s: SM.StoreState): Icons
  {
    var hold, song := s.device.isHoldOn, s.player.currentSong.Some?;
    Icons(
      hold,
      s.player.isPlaying && song && !hold,
      !s.player.isPlaying && song && !hold,
      s.settings.shuffle != ShuffleOff,
      if s.settings.repeat == RepeatOff then NoRepeatIcon
      else if s.settings.repeat == RepeatOne then RepeatOneIcon
      else RepeatAllIcon)
  }

  /** Play and pause never show together, neither shows while hold is on or no song is
      loaded, and otherwise exactly one of them shows. */
  lemma PlayPauseExclusive(s: SM.StoreState)
    ensures var i := IconsOf(s); !(i.play && i.pause)
    ensures var i := IconsOf(s); i.play || i.pause <==> s.player.currentSong.Some? && !s.device.isHoldOn
    ensures var i := IconsOf(s); i.lock ==> !i.play && !i.pause
  {
  }

  /** Shuffle shows iff shuffle is not off; repeat shows iff repeat is not off, with the "one"
      glyph iff repeat is "one". */
  lemma ModeIcons(s: SM.StoreState)
    ensures IconsOf(s).shuffle <==> s.settings.shuffle != ShuffleOff
    ensures IconsOf(s).repeat != NoRepeatIcon <==> s.settings.repeat != RepeatOff
    ensures IconsOf(s).repeat == RepeatOneIcon <==> s.settings.repeat == RepeatOne
  {
  }

  /** Toggling hold flips the lock icon, and while hold is on the play state is hidden. */
  lemma HoldTogglesLock(s: SM.StoreState)
    ensures IconsOf(SM.ToggleHold(s)).lock == !IconsOf(s).lock
    ensures !s.device.isHoldOn ==> !IconsOf(SM.ToggleHold(s)).play && !IconsOf(SM.ToggleHold(s)).pause
    ensures IconsOf(SM.ToggleHold(s)).shuffle == IconsOf(s).shuffle && IconsOf(SM.ToggleHold(s)).repeat == IconsOf(s).repeat
  {
  }

  /** With a song loaded and hold off, play/pause swaps the play and pause icons. */
  lemma PlayPauseSwapsIcons(s: SM.StoreState)
    requires s.player.currentSong.Some? && !s.device.isHoldOn
    ensures IconsOf(SM.TogglePlayPause(s)).play == IconsOf(s).pause
    ensures IconsOf(SM.TogglePlayPause(s)).pause == IconsOf(s).play
  {
  }
}
