/**
 * The Now Playing screen: the one-second playback tick and the values it displays (position in
 * the queue, elapsed and remaining time). Times are whole seconds, shown by `Text.MinutesSeconds`.
 */
module NowPlaying {
  import opened Wrappers
  import opened Types
  import opened Text
  import SM = StoreModel
  import Store

  /** The interval is installed only while a song is loaded and playing and the user is not
      scrubbing. */
  predicate TickRuns(p: SM.PlayerState)
  {
    p.isPlaying && p.currentSong.Some? && !p.isScrubbing
  }

  predicate PickFits(s: SM.StoreState, pick: nat)
  {
    |s.player.queue| > 0 ==> pick < |s.player.queue|
  }

  /** One firing of the interval: the time moves on a second, and when the time before the tick
      had reached the song's duration the store moves to the next track. `pick` stands for the
      random index of shuffle-songs mode. */
  function PlaybackTick(s: SM.StoreState, pick: nat): (r: SM.StoreState)
    requires PickFits(s, pick)
    ensures r.player.queue == s.player.queue && r.settings == s.settings
  {
    if !TickRuns(s.player) then s
    else
      var t := SM.SetCurrentTime(s, s.player.currentTime + 1);
      if s.player.currentTime >= s.player.currentSong.value.duration then SM.NextTrack(t, pick) else t
  }

  lemma TickOnlyWhilePlaying(s: SM.StoreState, pick: nat)
    requires PickFits(s, pick)
    ensures !TickRuns(s.player) ==> PlaybackTick(s, pick) == s
  {
  }

  /** Inside the song a tick only counts one second. */
  lemma TickCountsSecond(s: SM.StoreState, pick: nat)
    requires PickFits(s, pick) && TickRuns(s.player)
    requires s.player.currentTime < s.player.currentSong.value.duration
    ensures PlaybackTick(s, pick) == s.(player := s.player.(currentTime := s.player.currentTime + 1))
  {
  }

  /** At the end of the song the tick moves to the next track, as `nextTrack` chooses it, or,
      with repeat off on the last song, stops playing with the time one second further on. */
  lemma TickAtEndOfSong(s: SM.StoreState, pick: nat)
    requires PickFits(s, pick) && TickRuns(s.player) && SM.QueueIndexValid(s.player) && |s.player.queue| > 0
    requires s.player.currentTime >= s.player.currentSong.value.duration
    ensures var r := PlaybackTick(s, pick);
            if s.settings.repeat == RepeatOff && s.player.queueIndex + 1 == |s.player.queue|
            then r == s.(player := s.player.(isPlaying := false, currentTime := s.player.currentTime + 1))
            else r.player.isPlaying && r.player.currentTime == 0 && r.player.queueIndex < |s.player.queue| &&
                 r.player.currentSong == Some(s.player.queue[r.player.queueIndex])
  {
    var p := s.player;
    var n := SM.NextIndex(|p.queue|, p.queueIndex, s.settings.repeat, s.settings.shuffle, pick);
    if !(s.settings.repeat == RepeatOff && p.queueIndex + 1 == |p.queue|) {
      assert n.Some?;
    }
  }

  /** The tick keeps the store's invariant. */
  lemma TickKeepsValid(s: SM.StoreState, pick: nat)
    requires PickFits(s, pick) && SM.Valid(s)
    ensures SM.Valid(PlaybackTick(s, pick))
  {
  }

  /** Every random index of a run fits a queue of length `len`. */
  predicate PicksFit(len: nat, picks: seq<nat>)
  {
    forall i :: 0 <= i < |picks| ==> (len > 0 ==> picks[i] < len)
  }

  lemma PicksFitTail(len: nat, picks: seq<nat>)
    requires PicksFit(len, picks) && picks != []
    ensures PicksFit(len, picks[1..])
  {
    forall i | 0 <= i < |picks| - 1
      ensures len > 0 ==> picks[1..][i] < len
    {
      assert picks[1..][i] == picks[i + 1];
    }
  }

  /** A run of interval firings; each one may draw its own random index. */
  function Ticks(s: SM.StoreState, picks: seq<nat>): SM.StoreState
    requires PicksFit(|s.player.queue|, picks)
    decreases |picks|
  {
    if picks == [] then s
    else
      assert PickFits(s, picks[0]);
      assert PicksFit(|s.player.queue|, picks[1..]) by { PicksFitTail(|s.player.queue|, picks); }
      Ticks(PlaybackTick(s, picks[0]), picks[1..])
  }

  /** While the song lasts, n firings move the time on exactly n seconds and change nothing else. */
  lemma {:induction false} TicksCountSeconds(s: SM.StoreState, picks: seq<nat>)
    requires PicksFit(|s.player.queue|, picks)
    requires TickRuns(s.player)
    requires s.player.currentTime + |picks| <= s.player.currentSong.value.duration
    ensures Ticks(s, picks) == s.(player := s.player.(currentTime := s.player.currentTime + |picks|))
    decreases |picks|
  {
    if picks != [] {
      assert PickFits(s, picks[0]);
      TickCountsSecond(s, picks[0]);
      PicksFitTail(|s.player.queue|, picks);
      TicksCountSeconds(PlaybackTick(s, picks[0]), picks[1..]);
    }
  }

  /** The interval firing on the store object. */
  method Tick(store: Store.IPodStore, pick: nat)
    requires PickFits(store.Snapshot(), pick)
    modifies store
    ensures store.Snapshot() == PlaybackTick(old(store.Snapshot()), pick)
  {
    var p := store.player;
    if !p.isPlaying || p.currentSong.None? || p.isScrubbing {
      return;
    }
    var before := p.currentTime;
    store.SetCurrentTime(before + 1);
    if before >= p.currentSong.value.duration {
      store.NextTrack(pick);
    }
  }

  // ---------------------------------------------------------------- what the screen shows

  /** The number in "n of m". */
  function PositionNumber(p: SM.PlayerState): (n: int)
    ensures SM.QueueIndexValid(p) && |p.queue| > 0 ==> 1 <= n <= |p.queue|
  {
    p.queueIndex + 1
  }

  function PositionText(p: SM.PlayerState): string
  {
    IntToString(PositionNumber(p)) + " of " + IntToString(|p.queue|)
  }

  /** The remaining time as the screen computes it, before its leading minus sign. */
  function RemainingAsWritten(p: SM.PlayerState): string
    requires p.currentSong.Some?
  {
    MinutesSeconds(p.currentSong.value.duration - p.currentTime)
  }

  /** The remaining time with the overshoot of the final tick cut at zero. */
  function Remaining(p: SM.PlayerState): (r: string)
    requires p.currentSong.Some?
    ensures p.currentTime >= 0 && p.currentSong.value.duration >= 0 ==>
              ParseMinutesSeconds(r) == Some(SM.Max(0, p.currentSong.value.duration - p.currentTime))
  {
    var left := SM.Max(0, p.currentSong.value.duration - p.currentTime);
    MinutesSecondsRoundTrip(left);
    MinutesSeconds(left)
  }

  /** Elapsed and remaining time always add up to the song's length, as long as the elapsed time
      is inside the song. */
  lemma TimesAddUp(p: SM.PlayerState)
    requires p.currentSong.Some? && 0 <= p.currentTime <= p.currentSong.value.duration
    ensures ParseMinutesSeconds(MinutesSeconds(p.currentTime)).Some?
    ensures ParseMinutesSeconds(MinutesSeconds(p.currentTime)).value + ParseMinutesSeconds(Remaining(p)).value ==
            p.currentSong.value.duration
  {
    MinutesSecondsRoundTrip(p.currentTime);
  }

  datatype View = NoSong | Showing(position: string, elapsed: string, remaining: string)

  function Render(p: SM.PlayerState): (v: View)
    ensures v.NoSong? <==> p.currentSong.None?
  {
    if p.currentSong.None? then NoSong
    else Showing(PositionText(p), MinutesSeconds(p.currentTime), "-" + Remaining(p))
  }

  /** Both remaining-time strings of a player `left` seconds from the end of its song. */
  lemma RemainingIsLeft(p: SM.PlayerState, left: int)
    requires p.currentSong.Some? && p.currentSong.value.duration - p.currentTime == left
    ensures RemainingAsWritten(p) == MinutesSeconds(left)
    ensures Remaining(p) == MinutesSeconds(SM.Max(0, left))
  {
  }

  lemma MinusOneSecond()
    ensures MinutesSeconds(-1) == "-1:-1"
  {
    assert NatToString(1) == "1";
    assert IntToString(-1) == "-1";
    assert -1 / 60 == -1;
    assert JsRem(-1, 60) == -1;
    assert PadStart2("-1") == "-1";
  }

  lemma ZeroSeconds()
    ensures MinutesSeconds(0) == "0:00"
  {
    assert NatToString(0) == "0";
    assert IntToString(0) == "0";
    assert JsRem(0, 60) == 0;
    assert PadStart2("0") == "00";
  }

  /** One second past the end of a song, the screen as written shows "-1:-1" as the remaining
      time, and the clamped display shows "0:00". */
  lemma OneSecondOver(p: SM.PlayerState)
    requires p.currentSong.Some? && p.currentTime == p.currentSong.value.duration + 1
    ensures RemainingAsWritten(p) == "-1:-1" && Remaining(p) == "0:00"
  {
    RemainingIsLeft(p, -1);
    MinusOneSecond();
    ZeroSeconds();
  }

  /** The last song of a queue with repeat off: the tick at its last second takes the time one
      second past the end and stops, and the screen as written then shows "--1:-1". */
  lemma RemainingOvershootsAsWritten()
    ensures var song := Song("a", "A", "B", "C", "", 180, "G", 2000, false);
            var s := SM.Initial().(player := SM.PlayerState(Some(song), true, 180, [song], 0, false, false, None));
            var r := PlaybackTick(s, 0);
            r.player.currentTime == 181 && !r.player.isPlaying &&
            "-" + RemainingAsWritten(r.player) == "--1:-1" && Render(r.player).remaining == "-0:00"
  {
    var song := Song("a", "A", "B", "C", "", 180, "G", 2000, false);
    var s := SM.Initial().(player := SM.PlayerState(Some(song), true, 180, [song], 0, false, false, None));
    assert s.settings.repeat == RepeatOff;
    TickAtEndOfSong(s, 0);
    var r := PlaybackTick(s, 0);
    assert r.player == s.player.(isPlaying := false, currentTime := 181);
    OneSecondOver(r.player);
  }
}
