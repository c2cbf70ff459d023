/**
 * The Extras clock screens: the stopwatch with its lap list, the countdown timer, and the
 * clock face's 12-hour display.
 *
 * The state of the screen is `ClockState`; ticks of the 10 ms stopwatch interval and of the
 * one-second timer interval are events like the button presses. Times are whole numbers:
 * milliseconds on the stopwatch, seconds on the timer.
 */
module Clock {
  import opened Wrappers
  import opened Text
  import SM = StoreModel
  import Store
  import opened Arith

  /** Hours, minutes, seconds, centiseconds and the leftover milliseconds make up the time. */
  lemma StopwatchParts(ms: nat)
    ensures 3600000 * (ms / 3600000) + 60000 * ((ms % 3600000) / 60000) + 1000 * ((ms % 60000) / 1000)
            + 10 * ((ms % 1000) / 10) + ms % 10 == ms
  {
    ModOfMod(ms, 60000, 60);
    ModOfMod(ms, 1000, 60);
    ModOfMod(ms, 10, 100);
  }

  // ---------------------------------------------------------------- formatters

  function Pad2(n: nat): string { PadStart2(NatToString(n)) }

  /** The stopwatch display: H:MM:SS from one hour on, MM:SS.cc below. */
  function FormatStopwatch(ms: nat): string
  {
    var hours := ms / 3600000;
    var minutes := (ms % 3600000) / 60000;
    var seconds := (ms % 60000) / 1000;
    var centiseconds := (ms % 1000) / 10;
    if hours > 0 then NatToString(hours) + ":" + Pad2(minutes) + ":" + Pad2(seconds)
    else ShortClock(minutes, seconds, centiseconds)
  }

  /** "MM:SS.cc", the display below an hour and the time of a lap. */
  function ShortClock(minutes: nat, seconds: nat, centiseconds: nat): string
  {
    Pad2(minutes) + ":" + Pad2(seconds) + "." + Pad2(centiseconds)
  }

  /** Reads "MM:SS.cc" back as milliseconds. */
  function ReadShort(r: string): Option<nat>
  {
    if |r| == 8 && r[2] == ':' && r[5] == '.' && AllDigits(r[..2]) && AllDigits(r[3..5]) && AllDigits(r[6..])
    then Some(60000 * ParseDigits(r[..2]) + 1000 * ParseDigits(r[3..5]) + 10 * ParseDigits(r[6..]))
    else None
  }

  /** Reads "H:MM:SS" back as milliseconds. */
  function ReadLong(r: string): Option<nat>
  {
    var n := |r|;
    if n >= 7 && r[n - 3] == ':' && r[n - 6] == ':' &&
       AllDigits(r[..n - 6]) && AllDigits(r[n - 5..n - 3]) && AllDigits(r[n - 2..])
    then Some(3600000 * ParseDigits(r[..n - 6]) + 60000 * ParseDigits(r[n - 5..n - 3]) + 1000 * ParseDigits(r[n - 2..]))
    else None
  }

  /** Where the fields of "MM:SS.cc" sit. */
  lemma ShortLayout(a: string, b: string, c: string)
    requires |a| == 2 && |b| == 2 && |c| == 2
    ensures var r := a + ":" + b + "." + c;
            |r| == 8 && r[2] == ':' && r[5] == '.' && r[..2] == a && r[3..5] == b && r[6..] == c
  {
    var r := a + ":" + b + "." + c;
    assert r[..2] == a;
    assert r[3..5] == b;
    assert r[6..] == c;
  }

  /** Where the fields of "H:MM:SS" sit. */
  lemma LongLayout(h: string, b: string, c: string)
    requires |h| >= 1 && |b| == 2 && |c| == 2
    ensures var r := h + ":" + b + ":" + c;
            var n := |r|;
            n >= 7 && r[n - 3] == ':' && r[n - 6] == ':' && r[..n - 6] == h && r[n - 5..n - 3] == b && r[n - 2..] == c
  {
    var r := h + ":" + b + ":" + c;
    var n := |r|;
    assert r[..n - 6] == h;
    assert r[n - 5..n - 3] == b;
    assert r[n - 2..] == c;
  }

  /** Below an hour the parts of the display make up the time without its last digit. */
  lemma ShortParts(ms: nat)
    requires ms < 3600000
    ensures ms / 3600000 == 0
    ensures 60000 * ((ms % 3600000) / 60000) + 1000 * ((ms % 60000) / 1000) + 10 * ((ms % 1000) / 10) == ms - ms % 10
  {
    DivModUnique(ms, 3600000, 0, ms);
    StopwatchParts(ms);
  }

  /** Below an hour the display shows the time cut to centiseconds. */
  lemma ShortDisplayReadsBack(ms: nat)
    requires ms < 3600000
    ensures ReadShort(FormatStopwatch(ms)) == Some(ms - ms % 10)
  {
    var minutes, seconds, cs := (ms % 3600000) / 60000, (ms % 60000) / 1000, (ms % 1000) / 10;
    ShortParts(ms);
    TwoDigits(minutes);
    TwoDigits(seconds);
    TwoDigits(cs);
    ShortLayout(Pad2(minutes), Pad2(seconds), Pad2(cs));
    assert FormatStopwatch(ms) == ShortClock(minutes, seconds, cs);
  }

  /** From an hour on the parts of the display make up the time without its milliseconds. */
  lemma LongParts(ms: nat)
    ensures 3600000 * (ms / 3600000) + 60000 * ((ms % 3600000) / 60000) + 1000 * ((ms % 60000) / 1000) == ms - ms % 1000
  {
    StopwatchParts(ms);
    ModOfMod(ms, 10, 100);
    var r := ms % 1000;
    assert r == 10 * (r / 10) + r % 10;
  }

  /** ReadLong only looks at the two colons and the three fields between them. */
  lemma ReadLongParts(r: string, hs: string, mm: string, ss: string)
    requires |hs| >= 1 && |mm| == 2 && |ss| == 2 && AllDigits(hs) && AllDigits(mm) && AllDigits(ss)
    requires |r| >= 7 && r[|r| - 3] == ':' && r[|r| - 6] == ':'
    requires r[..|r| - 6] == hs && r[|r| - 5..|r| - 3] == mm && r[|r| - 2..] == ss
    ensures ReadLong(r) == Some(3600000 * ParseDigits(hs) + 60000 * ParseDigits(mm) + 1000 * ParseDigits(ss))
  {
  }

  /** "H:MM:SS" with digit fields reads back as the time those fields name. */
  lemma ReadLongOf(hs: string, mm: string, ss: string)
    requires |hs| >= 1 && |mm| == 2 && |ss| == 2 && AllDigits(hs) && AllDigits(mm) && AllDigits(ss)
    ensures ReadLong(hs + ":" + mm + ":" + ss) == Some(3600000 * ParseDigits(hs) + 60000 * ParseDigits(mm) + 1000 * ParseDigits(ss))
  {
    LongLayout(hs, mm, ss);
    ReadLongParts(hs + ":" + mm + ":" + ss, hs, mm, ss);
  }

  /** From an hour on the display shows the time cut to seconds. */
  lemma LongDisplayReadsBack(ms: nat)
    requires ms >= 3600000
    ensures ReadLong(FormatStopwatch(ms)) == Some(ms - ms % 1000)
  {
    var hours, minutes, seconds := ms / 3600000, (ms % 3600000) / 60000, (ms % 60000) / 1000;
    assert hours > 0 by {
      if hours == 0 {
        assert ms == 3600000 * hours + ms % 3600000;
      }
    }
    var hs, mm, ss := NatToString(hours), Pad2(minutes), Pad2(seconds);
    assert FormatStopwatch(ms) == hs + ":" + mm + ":" + ss;
    assert |hs| >= 1 && AllDigits(hs) && ParseDigits(hs) == hours by { ParseNatToString(hours); }
    assert |mm| == 2 && AllDigits(mm) && ParseDigits(mm) == minutes by { TwoDigits(minutes); }
    assert |ss| == 2 && AllDigits(ss) && ParseDigits(ss) == seconds by { TwoDigits(seconds); }
    ReadLongOf(hs, mm, ss);
    LongParts(ms);
  }

  /** The timer display: minutes, a colon and the seconds padded to two digits. */
  function FormatTimer(seconds: nat): (r: string)
    ensures ParseMinutesSeconds(r) == Some(seconds)
  {
    MinutesSecondsRoundTrip(seconds);
    MinutesSeconds(seconds)
  }

  /** A lap row: its number, then the lap time with unbounded minutes. */
  function FormatLap(ms: nat, index: nat): string
  {
    "Lap " + NatToString(index + 1) + "   " + ShortClock(ms / 60000, (ms % 60000) / 1000, (ms % 1000) / 10)
  }

  /** Below an hour a lap reads exactly as the stopwatch display did when it was taken. */
  lemma LapMatchesStopwatch(ms: nat, index: nat)
    requires ms < 3600000
    ensures FormatLap(ms, index) == "Lap " + NatToString(index + 1) + "   " + FormatStopwatch(ms)
  {
    DivModUnique(ms, 3600000, 0, ms);
  }

  /** The lap rows, newest first: the newest is numbered with the count of laps, the oldest 1. */
  function LapRows(laps: seq<nat>): (rows: seq<string>)
    ensures |rows| == |laps|
    ensures forall i :: 0 <= i < |laps| ==> rows[i] == FormatLap(laps[i], |laps| - 1 - i)
  {
    seq(|laps|, i requires 0 <= i < |laps| => FormatLap(laps[i], |laps| - 1 - i))
  }

  // ---------------------------------------------------------------- the clock face

  /** The hour on a 12-hour dial: the hour of the day modulo 12, with 12 in place of 0. */
  function DisplayHour(hours: int): (h: int)
    requires 0 <= hours < 24
    ensures 1 <= h <= 12
  {
    if hours % 12 == 0 then 12 else hours % 12
  }

  predicate IsPM(hours: int) { hours >= 12 }

  /** The 24-hour hour a 12-hour display stands for. */
  function To24(display: int, pm: bool): int { display % 12 + (if pm then 12 else 0) }

  /** The displayed hour with AM/PM names the hour of the day exactly. */
  lemma DisplayHourRoundTrip(hours: int)
    requires 0 <= hours < 24
    ensures To24(DisplayHour(hours), IsPM(hours)) == hours
    ensures IsPM(hours) <==> hours >= 12
  {
  }

  // ---------------------------------------------------------------- stopwatch and timer

  datatype ClockMode = ClockFace | StopwatchMode | TimerMode

  const LapLimit := 5
  const DefaultTimer := 300

  datatype ClockState = ClockState(
    stopwatchTime: int,
    stopwatchRunning: bool,
    laps: seq<int>,
    timerTime: int,
    timerRunning: bool,
    timerInitial: int)

  const InitialClock := ClockState(0, false, [], DefaultTimer, false, DefaultTimer)

  /** The 10 ms stopwatch interval, which runs only in stopwatch mode while the stopwatch runs. */
  function StopwatchTick(c: ClockState, mode: ClockMode): (r: ClockState)
    ensures mode == StopwatchMode && c.stopwatchRunning ==> r == c.(stopwatchTime := c.stopwatchTime + 10)
    ensures !(mode == StopwatchMode && c.stopwatchRunning) ==> r == c
  {
    if mode == StopwatchMode && c.stopwatchRunning then c.(stopwatchTime := c.stopwatchTime + 10) else c
  }

  /** The one-second timer interval, which runs in timer mode while the timer runs above zero.
      At one second or less it stops the timer at zero. */
  function TimerTick(c: ClockState, mode: ClockMode): ClockState
  {
    if mode == TimerMode && c.timerRunning && c.timerTime > 0 then
      (if c.timerTime <= 1 then c.(timerTime := 0, timerRunning := false) else c.(timerTime := c.timerTime - 1))
    else c
  }

  /** The newest lap in front of the others, keeping the newest five. */
  function AddLap(laps: seq<int>, t: int): (r: seq<int>)
    ensures |r| == SM.Min(LapLimit, |laps| + 1) && r[0] == t
    ensures forall i :: 1 <= i < |r| ==> r[i] == laps[i - 1]
  {
    ([t] + laps)[..SM.Min(LapLimit, |laps| + 1)]
  }

  function Select(c: ClockState, mode: ClockMode): ClockState
  {
    match mode
    case StopwatchMode =>
      if c.stopwatchRunning then c.(laps := AddLap(c.laps, c.stopwatchTime))
      else if c.stopwatchTime > 0 then c.(stopwatchTime := 0, laps := [])
      else c.(stopwatchRunning := true)
    case TimerMode =>
      if c.timerTime == 0 then c.(timerTime := c.timerInitial) else c.(timerRunning := !c.timerRunning)
    case ClockFace => c
  }

  function PlayPause(c: ClockState, mode: ClockMode): ClockState
  {
    match mode
    case StopwatchMode => c.(stopwatchRunning := !c.stopwatchRunning)
    case TimerMode => if c.timerTime > 0 then c.(timerRunning := !c.timerRunning) else c
    case ClockFace => c
  }

  /** The stopwatch never goes below zero and counts in ticks of 10 ms; there are at most five
      laps, newest first, none later than the stopwatch; the timer is never negative and never
      runs at zero. */
  predicate ClockValid(c: ClockState)
  {
    0 <= c.stopwatchTime && c.stopwatchTime % 10 == 0 &&
    |c.laps| <= LapLimit &&
    (forall i :: 0 <= i < |c.laps| ==> 0 <= c.laps[i] <= c.stopwatchTime) &&
    (forall i, j :: 0 <= i < j < |c.laps| ==> c.laps[j] <= c.laps[i]) &&
    0 <= c.timerTime && 0 <= c.timerInitial &&
    (c.timerRunning ==> c.timerTime > 0)
  }

  datatype ClockEvent = SelectPress | PlayPausePress | StopwatchInterval | TimerInterval

  function ClockStep(c: ClockState, mode: ClockMode, e: ClockEvent): ClockState
  {
    match e
    case SelectPress => Select(c, mode)
    case PlayPausePress => PlayPause(c, mode)
    case StopwatchInterval => StopwatchTick(c, mode)
    case TimerInterval => TimerTick(c, mode)
  }

  function RunClock(c: ClockState, mode: ClockMode, events: seq<ClockEvent>): ClockState
    decreases |events|
  {
    if events == [] then c else RunClock(ClockStep(c, mode, events[0]), mode, events[1..])
  }

  lemma InitialClockValid()
    ensures ClockValid(InitialClock)
  {
  }

  lemma AddLapValid(c: ClockState)
    requires ClockValid(c)
    ensures ClockValid(c.(laps := AddLap(c.laps, c.stopwatchTime)))
  {
    var r := AddLap(c.laps, c.stopwatchTime);
    forall i, j | 0 <= i < j < |r|
      ensures r[j] <= r[i]
    {
      if i > 0 {
        assert r[i] == c.laps[i - 1] && r[j] == c.laps[j - 1];
      }
    }
  }

  lemma ClockStepValid(c: ClockState, mode: ClockMode, e: ClockEvent)
    requires ClockValid(c)
    ensures ClockValid(ClockStep(c, mode, e))
  {
    if e == SelectPress && mode == StopwatchMode && c.stopwatchRunning {
      AddLapValid(c);
    }
  }

  lemma {:induction false} RunClockValid(c: ClockState, mode: ClockMode, events: seq<ClockEvent>)
    requires ClockValid(c)
    ensures ClockValid(RunClock(c, mode, events))
    decreases |events|
  {
    if events != [] {
      ClockStepValid(c, mode, events[0]);
      RunClockValid(ClockStep(c, mode, events[0]), mode, events[1..]);
    }
  }

  /** Select on the stopwatch: a lap while it runs (newest first, at most five), a reset when it is
      stopped past zero, a start at zero. */
  lemma StopwatchSelect(c: ClockState)
    ensures c.stopwatchRunning ==>
              Select(c, StopwatchMode).laps == ([c.stopwatchTime] + c.laps)[..SM.Min(5, |c.laps| + 1)] &&
              Select(c, StopwatchMode).stopwatchTime == c.stopwatchTime
    ensures !c.stopwatchRunning && c.stopwatchTime > 0 ==>
              Select(c, StopwatchMode).stopwatchTime == 0 && Select(c, StopwatchMode).laps == [] &&
              !Select(c, StopwatchMode).stopwatchRunning
    ensures !c.stopwatchRunning && c.stopwatchTime <= 0 ==> Select(c, StopwatchMode) == c.(stopwatchRunning := true)
    ensures PlayPause(c, StopwatchMode).stopwatchRunning == !c.stopwatchRunning
  {
  }

  /** The timer counts down one second per tick to zero and stops there; select at zero reloads
      the initial time, otherwise it starts or pauses; play/pause does so only above zero. */
  lemma TimerRules(c: ClockState)
    requires ClockValid(c)
    ensures c.timerRunning && c.timerTime > 1 ==> TimerTick(c, TimerMode).timerTime == c.timerTime - 1
    ensures c.timerRunning && c.timerTime == 1 ==>
              TimerTick(c, TimerMode).timerTime == 0 && !TimerTick(c, TimerMode).timerRunning
    ensures !c.timerRunning ==> TimerTick(c, TimerMode) == c
    ensures c.timerTime == 0 ==> Select(c, TimerMode) == c.(timerTime := c.timerInitial) && PlayPause(c, TimerMode) == c
    ensures c.timerTime > 0 ==> Select(c, TimerMode).timerRunning == !c.timerRunning &&
                                PlayPause(c, TimerMode).timerRunning == !c.timerRunning
  {
  }

  /** A tick of one mode's interval never changes the other mode's state, and nothing happens on
      the clock face. */
  lemma ModesAreSeparate(c: ClockState, e: ClockEvent)
    ensures TimerTick(c, StopwatchMode) == c && StopwatchTick(c, TimerMode) == c
    ensures ClockStep(c, ClockFace, e) == c
  {
  }

  // ---------------------------------------------------------------- the screen object

  class ClockScreen {
    var stopwatchTime: int
    var stopwatchRunning: bool
    var laps: seq<int>
    var timerTime: int
    var timerRunning: bool
    var timerInitial: int

    function Model(): ClockState
      reads this
    {
      ClockState(stopwatchTime, stopwatchRunning, laps, timerTime, timerRunning, timerInitial)
    }

    constructor ()
      ensures Model() == InitialClock
    {
      stopwatchTime := 0;
      stopwatchRunning := false;
      laps := [];
      timerTime := DefaultTimer;
      timerRunning := false;
      timerInitial := DefaultTimer;
    }

    method StopwatchInterval(mode: ClockMode)
      modifies this
      ensures Model() == StopwatchTick(old(Model()), mode)
    {
      if mode == StopwatchMode && stopwatchRunning {
        stopwatchTime := stopwatchTime + 10;
      }
    }

    method TimerInterval(mode: ClockMode)
      modifies this
      ensures Model() == TimerTick(old(Model()), mode)
    {
      if mode != TimerMode || !timerRunning || timerTime <= 0 {
        return;
      }
      if timerTime <= 1 {
        timerRunning := false;
        timerTime := 0;
      } else {
        timerTime := timerTime - 1;
      }
    }

    /** Select, routed here by the shell on the stopwatch and timer screens; it also resets the
        backlight. */
    method HandleSelect(mode: ClockMode, store: Store.IPodStore)
      modifies this, store
      ensures Model() == Select(old(Model()), mode)
      ensures store.Snapshot() == SM.ResetBacklight(old(store.Snapshot()))
    {
      store.ResetBacklight();
      if mode == StopwatchMode {
        if stopwatchRunning {
          laps := ([stopwatchTime] + laps)[..SM.Min(LapLimit, |laps| + 1)];
        } else if stopwatchTime > 0 {
          stopwatchTime := 0;
          laps := [];
        } else {
          stopwatchRunning := true;
        }
      } else if mode == TimerMode {
        if timerTime == 0 {
          timerTime := timerInitial;
        } else {
          timerRunning := !timerRunning;
        }
      }
    }

    method HandlePlayPause(mode: ClockMode, store: Store.IPodStore)
      modifies this, store
      ensures Model() == PlayPause(old(Model()), mode)
      ensures store.Snapshot() == SM.ResetBacklight(old(store.Snapshot()))
    {
      store.ResetBacklight();
      if mode == StopwatchMode {
        stopwatchRunning := !stopwatchRunning;
      } else if mode == TimerMode {
        if timerTime > 0 {
          timerRunning := !timerRunning;
        }
      }
    }
  }
}
