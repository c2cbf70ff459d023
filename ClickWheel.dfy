/**
 * The click wheel: the keyboard gate, the four buttons that tell a short press from a long
 * one, and the rotary accumulator that turns angle changes into scroll steps.
 *
 * The wheel does not act on the device itself: each handler returns the signals it sends,
 * in order (a backlight reset, a hold toggle, a volume change, or one of the callbacks the
 * shell supplies). The shell interprets them. Timers are explicit "fired" events, and the
 * pointer position arrives already reduced to "inside the ring" and an angle in whole degrees.
 */
module ClickWheel {
  import opened Wrappers

  datatype Direction = Up | Down

  /** The callbacks of the wheel. */
  datatype WheelEvent =
    | Scroll(direction: Direction)
    | Select
    | SelectLongPress
    | Menu
    | PlayPause
    | PlayPauseLongPress
    | Next
    | Previous
    | NextLongPress
    | PreviousLongPress
    | SeekRelease

  /** What a handler does, in order. */
  datatype Signal =
    | ResetBacklightSignal
    | ToggleHoldSignal
    | VolumeSignal(delta: int)
    | Callback(event: WheelEvent)

  predicate IsCallback(x: Signal) { x.Callback? }

  // ---------------------------------------------------------------- keyboard

  /** The wheel callback a key stands for once the keyboard is not locked. */
  function KeyEvent(key: string): Option<WheelEvent>
  {
    if key == "ArrowUp" then Some(Scroll(Up))
    else if key == "ArrowDown" then Some(Scroll(Down))
    else if key == "Enter" then Some(Select)
    else if key == "Escape" || key == "Backspace" then Some(Menu)
    else if key == " " then Some(PlayPause)
    else if key == "ArrowRight" then Some(Next)
    else if key == "ArrowLeft" then Some(Previous)
    else if key == "s" then Some(PlayPauseLongPress)
    else None
  }

  /** The keys bound to each callback, listed callback by callback. */
  function KeysFor(e: WheelEvent): set<string>
  {
    match e
    case Scroll(Up) => {"ArrowUp"}
    case Scroll(Down) => {"ArrowDown"}
    case Select => {"Enter"}
    case Menu => {"Escape", "Backspace"}
    case PlayPause => {" "}
    case Next => {"ArrowRight"}
    case Previous => {"ArrowLeft"}
    case PlayPauseLongPress => {"s"}
    case _ => {}
  }

  predicate IsHoldKey(key: string) { key == "h" || key == "H" }

  /** The volume step of a volume key, 0 for any other key. */
  function VolumeStep(key: string): int
  {
    if key == "+" || key == "=" then 5 else if key == "-" || key == "_" then -5 else 0
  }

  /** `handleKeyDown`. */
  function KeyDown(key: string, disabled: bool, isHoldOn: bool): (out: seq<Signal>)
    ensures |out| <= 2
  {
    if IsHoldKey(key) then [ToggleHoldSignal]
    else if VolumeStep(key) != 0 then [VolumeSignal(VolumeStep(key))]
    else if disabled || isHoldOn then []
    else [ResetBacklightSignal] + match KeyEvent(key) case Some(e) => [Callback(e)] case None => []
  }

  /** The key table and its inverse agree: a key stands for a callback exactly when it is one of
      that callback's keys. */
  lemma KeyTableInverse(key: string, e: WheelEvent)
    ensures KeyEvent(key) == Some(e) <==> key in KeysFor(e)
  {
  }

  /** The hold switch key works whatever the state of the wheel. */
  lemma HoldKeyAlwaysWorks(key: string, disabled: bool, isHoldOn: bool)
    requires IsHoldKey(key)
    ensures KeyDown(key, disabled, isHoldOn) == [ToggleHoldSignal]
  {
  }

  /** The volume keys change the volume by five in their direction, even on hold. */
  lemma VolumeKeysIgnoreHold(key: string, disabled: bool, isHoldOn: bool)
    requires key in {"+", "=", "-", "_"}
    ensures KeyDown(key, disabled, isHoldOn) == [VolumeSignal(if key in {"+", "="} then 5 else -5)]
  {
  }

  /** On hold (or with the wheel disabled) every other key does nothing at all. */
  lemma LockedKeysInert(key: string, disabled: bool, isHoldOn: bool)
    requires disabled || isHoldOn
    requires !IsHoldKey(key) && key !in {"+", "=", "-", "_"}
    ensures KeyDown(key, disabled, isHoldOn) == []
  {
  }

  /** Unlocked, a key resets the backlight and then sends the callback it is bound to, if any. */
  lemma UnlockedKeySendsItsCallback(key: string, e: WheelEvent)
    requires key in KeysFor(e)
    ensures KeyDown(key, false, false) == [ResetBacklightSignal, Callback(e)]
  {
    KeyTableInverse(key, e);
  }

  // ---------------------------------------------------------------- buttons

  datatype ButtonKind = CenterButton | PlayButton | NextButton | PrevButton

  /** A button's press timer is armed (set on press, not yet fired or cleared), and whether the
      running press has become a long press. */
  datatype ButtonState = ButtonState(timerPending: bool, isLongPress: bool)

  const IdleButton := ButtonState(false, false)

  /** Milliseconds a button must be held before its press counts as long. */
  function LongPressDelay(kind: ButtonKind): nat
  {
    if kind == PlayButton then 1500 else 500
  }

  function ShortEvent(kind: ButtonKind): WheelEvent
  {
    match kind
    case CenterButton => Select
    case PlayButton => PlayPause
    case NextButton => Next
    case PrevButton => Previous
  }

  function LongEvent(kind: ButtonKind): WheelEvent
  {
    match kind
    case CenterButton => SelectLongPress
    case PlayButton => PlayPauseLongPress
    case NextButton => NextLongPress
    case PrevButton => PreviousLongPress
  }

  /** Only the track buttons end a long press with a seek release. */
  predicate Seeks(kind: ButtonKind) { kind == NextButton || kind == PrevButton }

  function Press(b: ButtonState, disabled: bool): (ButtonState, seq<Signal>)
  {
    if disabled then (b, []) else (ButtonState(true, false), [ResetBacklightSignal])
  }

  /** The press timer fires; a cleared timer never does. */
  function Fire(b: ButtonState, kind: ButtonKind): (ButtonState, seq<Signal>)
  {
    if b.timerPending then (ButtonState(false, true), [Callback(LongEvent(kind))]) else (b, [])
  }

  function Release(b: ButtonState, kind: ButtonKind): (ButtonState, seq<Signal>)
  {
    (IdleButton,
     if !b.isLongPress then [Callback(ShortEvent(kind))]
     else if Seeks(kind) then [Callback(SeekRelease)]
     else [])
  }

  /** The pointer leaves the button: the timer is cleared, and a track button's long press ends
      with a seek release. */
  function Leave(b: ButtonState, kind: ButtonKind): (ButtonState, seq<Signal>)
  {
    if Seeks(kind) && b.isLongPress then (IdleButton, [Callback(SeekRelease)])
    else (b.(timerPending := false), [])
  }

  datatype ButtonInput = PressInput | FireInput | ReleaseInput | LeaveInput

  function ButtonStep(b: ButtonState, kind: ButtonKind, disabled: bool, i: ButtonInput): (ButtonState, seq<Signal>)
  {
    match i
    case PressInput => Press(b, disabled)
    case FireInput => Fire(b, kind)
    case ReleaseInput => Release(b, kind)
    case LeaveInput => Leave(b, kind)
  }

  /** The state and the signals after a sequence of inputs. */
  function RunButton(b: ButtonState, kind: ButtonKind, disabled: bool, inputs: seq<ButtonInput>): (ButtonState, seq<Signal>)
    decreases |inputs|
  {
    if inputs == [] then (b, [])
    else
      var first := ButtonStep(b, kind, disabled, inputs[0]);
      var rest := RunButton(first.0, kind, disabled, inputs[1..]);
      (rest.0, first.1 + rest.1)
  }

  /** `n` firings of the press timer. */
  function Fires(n: nat): (r: seq<ButtonInput>)
    ensures |r| == n && forall k :: 0 <= k < n ==> r[k] == FireInput
  {
    seq(n, _ => FireInput)
  }

  /** Running one input and then the rest. */
  lemma RunCons(b: ButtonState, kind: ButtonKind, disabled: bool, inputs: seq<ButtonInput>)
    requires inputs != []
    ensures var first := ButtonStep(b, kind, disabled, inputs[0]);
            var rest := RunButton(first.0, kind, disabled, inputs[1..]);
            RunButton(b, kind, disabled, inputs) == (rest.0, first.1 + rest.1)
  {
  }

  /** Once the timer has fired, further firings do nothing. */
  lemma {:induction false} StaysLong(kind: ButtonKind, n: nat)
    ensures RunButton(ButtonState(false, true), kind, false, Fires(n)) == (ButtonState(false, true), [])
  {
    var long := ButtonState(false, true);
    if n > 0 {
      var f := Fires(n);
      assert f[0] == FireInput;
      assert f[1..] == Fires(n - 1);
      StaysLong(kind, n - 1);
      var first := ButtonStep(long, kind, false, f[0]);
      var rest := RunButton(first.0, kind, false, f[1..]);
      assert first == (long, []) && rest == (long, []);
      assert first.1 + rest.1 == [];
    } else {
      assert Fires(n) == [];
    }
  }

  /** A press that is held through any number of timer firings: the timer fires only once. */
  lemma HeldPress(kind: ButtonKind, n: nat)
    ensures n == 0 ==> RunButton(ButtonState(true, false), kind, false, Fires(n)) == (ButtonState(true, false), [])
    ensures n > 0 ==> RunButton(ButtonState(true, false), kind, false, Fires(n))
                      == (ButtonState(false, true), [Callback(LongEvent(kind))])
  {
    var held := ButtonState(true, false);
    if n > 0 {
      var f := Fires(n);
      assert f[0] == FireInput;
      assert f[1..] == Fires(n - 1);
      StaysLong(kind, n - 1);
      var first := ButtonStep(held, kind, false, f[0]);
      var rest := RunButton(first.0, kind, false, f[1..]);
      assert first == (ButtonState(false, true), [Callback(LongEvent(kind))]);
      assert rest == (ButtonState(false, true), []);
      assert first.1 + rest.1 == [Callback(LongEvent(kind))];
    } else {
      assert Fires(n) == [];
    }
  }

  /** Running two input sequences one after the other. */
  lemma {:induction false} RunAppend(b: ButtonState, kind: ButtonKind, disabled: bool, xs: seq<ButtonInput>, ys: seq<ButtonInput>)
    ensures var first := RunButton(b, kind, disabled, xs);
            var rest := RunButton(first.0, kind, disabled, ys);
            RunButton(b, kind, disabled, xs + ys) == (rest.0, first.1 + rest.1)
    decreases |xs|
  {
    if xs == [] {
      assert xs + ys == ys;
      assert RunButton(b, kind, disabled, xs) == (b, []);
      assert [] + RunButton(b, kind, disabled, ys).1 == RunButton(b, kind, disabled, ys).1;
    } else {
      var zs := xs + ys;
      assert zs[0] == xs[0];
      assert zs[1..] == xs[1..] + ys;
      var step := ButtonStep(b, kind, disabled, xs[0]);
      RunAppend(step.0, kind, disabled, xs[1..], ys);
      var mid := RunButton(step.0, kind, disabled, xs[1..]);
      var last := RunButton(mid.0, kind, disabled, ys);
      assert RunButton(step.0, kind, disabled, zs[1..]) == (last.0, mid.1 + last.1);
      assert RunButton(b, kind, disabled, zs) == (last.0, step.1 + (mid.1 + last.1));
      assert RunButton(b, kind, disabled, xs) == (mid.0, step.1 + mid.1);
      assert step.1 + (mid.1 + last.1) == (step.1 + mid.1) + last.1;
    }
  }

  /** One input alone. */
  lemma RunOne(b: ButtonState, kind: ButtonKind, disabled: bool, i: ButtonInput)
    ensures RunButton(b, kind, disabled, [i]) == ButtonStep(b, kind, disabled, i)
  {
    var first := ButtonStep(b, kind, disabled, i);
    assert [i][1..] == [];
    assert RunButton(first.0, kind, disabled, [i][1..]) == (first.0, []);
    assert first.1 + [] == first.1;
  }

  /** The signals a full press sends: the short callback, or the long one followed, on a track
      button, by a seek release. */
  function PressSignals(kind: ButtonKind, long: bool): seq<Signal>
  {
    [ResetBacklightSignal] +
    (if !long then [Callback(ShortEvent(kind))]
     else [Callback(LongEvent(kind))] + (if Seeks(kind) then [Callback(SeekRelease)] else []))
  }

  /** A full press: down, the timer firing `n` times (0 if released in time), up. A press released
      in time sends the short callback once, a long one sends the long callback once (and a track
      button then a seek release), never both; the button ends idle. */
  lemma PressCycle(b: ButtonState, kind: ButtonKind, n: nat)
    ensures RunButton(b, kind, false, [PressInput] + Fires(n) + [ReleaseInput]) == (IdleButton, PressSignals(kind, n > 0))
  {
    var held := ButtonState(true, false);
    var release := [ReleaseInput];
    assert [PressInput] + Fires(n) + release == [PressInput] + (Fires(n) + release);
    RunAppend(b, kind, false, [PressInput], Fires(n) + release);
    RunOne(b, kind, false, PressInput);
    RunAppend(held, kind, false, Fires(n), release);
    HeldPress(kind, n);
    var after := if n > 0 then ButtonState(false, true) else held;
    RunOne(after, kind, false, ReleaseInput);
    var fired := if n > 0 then [Callback(LongEvent(kind))] else [];
    assert RunButton(held, kind, false, Fires(n)) == (after, fired);
    assert RunButton(held, kind, false, Fires(n) + release) == (IdleButton, fired + Release(after, kind).1);
    assert [ResetBacklightSignal] + (fired + Release(after, kind).1) == PressSignals(kind, n > 0);
  }

  /** A disabled wheel ignores presses, and a released button is idle. */
  lemma PressWhileDisabled(b: ButtonState, kind: ButtonKind)
    ensures Press(b, true) == (b, [])
    ensures Release(b, kind).0 == IdleButton
  {
  }

  /** Leaving a track button during a long press ends the seek, and a later release sends its
      short callback. */
  lemma LeaveDuringSeek(kind: ButtonKind)
    requires Seeks(kind)
    ensures RunButton(IdleButton, kind, false, [PressInput, FireInput, LeaveInput, ReleaseInput])
         == (IdleButton, [ResetBacklightSignal, Callback(LongEvent(kind)), Callback(SeekRelease), Callback(ShortEvent(kind))])
  {
    var held := ButtonState(true, false);
    var long := ButtonState(false, true);
    var r1 := RunButton(IdleButton, kind, false, [ReleaseInput]);
    RunOne(IdleButton, kind, false, ReleaseInput);
    assert r1 == (IdleButton, [Callback(ShortEvent(kind))]);
    RunAppend(long, kind, false, [LeaveInput], [ReleaseInput]);
    RunOne(long, kind, false, LeaveInput);
    assert [LeaveInput] + [ReleaseInput] == [LeaveInput, ReleaseInput];
    var r2 := RunButton(long, kind, false, [LeaveInput, ReleaseInput]);
    assert r2 == (IdleButton, [Callback(SeekRelease)] + r1.1);
    RunAppend(held, kind, false, [FireInput], [LeaveInput, ReleaseInput]);
    RunOne(held, kind, false, FireInput);
    assert [FireInput] + [LeaveInput, ReleaseInput] == [FireInput, LeaveInput, ReleaseInput];
    var r3 := RunButton(held, kind, false, [FireInput, LeaveInput, ReleaseInput]);
    assert r3 == (IdleButton, [Callback(LongEvent(kind))] + r2.1);
    RunAppend(IdleButton, kind, false, [PressInput], [FireInput, LeaveInput, ReleaseInput]);
    RunOne(IdleButton, kind, false, PressInput);
    assert [PressInput] + [FireInput, LeaveInput, ReleaseInput] == [PressInput, FireInput, LeaveInput, ReleaseInput];
    assert [ResetBacklightSignal] + r3.1
        == [ResetBacklightSignal, Callback(LongEvent(kind)), Callback(SeekRelease), Callback(ShortEvent(kind))];
  }

  /** The menu button has no long press: a click that is not disabled sends Menu. */
  function MenuClick(disabled: bool): (out: seq<Signal>)
    ensures disabled <==> out == []
    ensures !disabled ==> out == [ResetBacklightSignal, Callback(Menu)]
  {
    if disabled then [] else [ResetBacklightSignal, Callback(Menu)]
  }

  // ---------------------------------------------------------------- rotary accumulator

  /** The angle of the previous move (none once the pointer left the ring or was released) and
      the degrees turned since the last scroll step. */
  datatype RotaryState = RotaryState(lastAngle: Option<int>, accumulated: int)

  const RestingRotary := RotaryState(None, 0)

  /** Degrees of turn per scroll step: finer while scrubbing. */
  function Threshold(isScrubbing: bool): int { if isScrubbing then 8 else 15 }

  function Abs(x: int): nat { if x < 0 then -x else x }

  /** An angle difference pulled into [-180, 180] by one turn in either direction. */
  function Wrap(delta: int): int
  {
    var d := if delta > 180 then delta - 360 else delta;
    if d < -180 then d + 360 else d
  }

  /** The difference of two angles in [-180, 180] wraps to the shorter way round. */
  lemma WrapShortestTurn(current: int, last: int)
    requires -180 <= current <= 180 && -180 <= last <= 180
    ensures -180 <= Wrap(current - last) <= 180
    ensures Wrap(current - last) == current - last || Wrap(current - last) == current - last - 360 ||
            Wrap(current - last) == current - last + 360
  {
  }

  /** `handleWheelMove` with the pointer inside or outside the ring at `angle`. */
  function Move(r: RotaryState, disabled: bool, inRing: bool, angle: int, isScrubbing: bool): (res: (RotaryState, seq<Signal>))
    ensures disabled ==> res == (r, [])
    ensures !disabled && inRing ==> res.0.lastAngle == Some(angle)
  {
    if disabled then (r, [])
    else if !inRing then (r.(lastAngle := None), [ResetBacklightSignal])
    else if r.lastAngle.None? then (RotaryState(Some(angle), r.accumulated), [ResetBacklightSignal])
    else
      var acc := r.accumulated + Wrap(angle - r.lastAngle.value);
      if Abs(acc) >= Threshold(isScrubbing) then
        (RotaryState(Some(angle), 0), [ResetBacklightSignal, Callback(Scroll(if acc > 0 then Down else Up))])
      else (RotaryState(Some(angle), acc), [ResetBacklightSignal])
  }

  /** The pointer goes down on the wheel: the backlight is reset, then it counts as a move. */
  function PointerDown(r: RotaryState, disabled: bool, inRing: bool, angle: int, isScrubbing: bool): (RotaryState, seq<Signal>)
  {
    if disabled then (r, [])
    else
      var (r1, out) := Move(r, false, inRing, angle, isScrubbing);
      (r1, [ResetBacklightSignal] + out)
  }

  /** The pointer is released: the accumulator rests. */
  function PointerUp(r: RotaryState): (r1: RotaryState)
    ensures r1.lastAngle.None? && r1.accumulated == 0
  {
    RestingRotary
  }

  /** Between moves the turn not yet spent stays under the coarser threshold, and the last angle
      is a real angle. */
  predicate RotaryValid(r: RotaryState)
  {
    Abs(r.accumulated) < 15 && (r.lastAngle.Some? ==> -180 <= r.lastAngle.value <= 180)
  }

  /** A move sends at most one scroll step: one exactly when the turn accumulated since the last
      step reaches the threshold, downward for a clockwise turn, and the accumulator then starts
      from zero; otherwise the turn is kept. The accumulator stays valid. */
  lemma MoveSteps(r: RotaryState, inRing: bool, angle: int, isScrubbing: bool)
    requires RotaryValid(r) && -180 <= angle <= 180
    requires inRing && r.lastAngle.Some?
    ensures var acc := r.accumulated + Wrap(angle - r.lastAngle.value);
            var (r1, out) := Move(r, false, inRing, angle, isScrubbing);
            RotaryValid(r1) &&
            (Abs(acc) >= Threshold(isScrubbing) ==> r1.accumulated == 0 && out[1..] == [Callback(Scroll(if acc > 0 then Down else Up))]) &&
            (Abs(acc) < Threshold(isScrubbing) ==> r1.accumulated == acc && out == [ResetBacklightSignal])
  {
  }

  /** Every move keeps the accumulator valid, and sends at most one callback, a scroll. */
  lemma MovePreservesValid(r: RotaryState, disabled: bool, inRing: bool, angle: int, isScrubbing: bool)
    requires RotaryValid(r) && -180 <= angle <= 180
    ensures RotaryValid(Move(r, disabled, inRing, angle, isScrubbing).0)
    ensures var out := Move(r, disabled, inRing, angle, isScrubbing).1;
            |out| <= 2 && forall k :: 0 <= k < |out| && out[k].Callback? ==> k == 1 && out[k].event.Scroll?
  {
  }

  /** A turn of less than the threshold from rest never scrolls. */
  lemma SmallTurnDoesNotScroll(last: int, angle: int, isScrubbing: bool)
    requires -180 <= last <= 180 && -180 <= angle <= 180
    requires Abs(Wrap(angle - last)) < Threshold(isScrubbing)
    ensures Move(RotaryState(Some(last), 0), false, true, angle, isScrubbing).1 == [ResetBacklightSignal]
  {
  }

  // ---------------------------------------------------------------- the wheel object

  /** The state of the whole wheel. */
  datatype WheelState = WheelState(
    rotary: RotaryState,
    center: ButtonState,
    play: ButtonState,
    next: ButtonState,
    prev: ButtonState)

  function ButtonOf(w: WheelState, kind: ButtonKind): ButtonState
  {
    match kind
    case CenterButton => w.center
    case PlayButton => w.play
    case NextButton => w.next
    case PrevButton => w.prev
  }

  function WithButton(w: WheelState, kind: ButtonKind, b: ButtonState): (w1: WheelState)
    ensures ButtonOf(w1, kind) == b
    ensures w1.rotary == w.rotary
    ensures forall k :: k != kind ==> ButtonOf(w1, k) == ButtonOf(w, k)
  {
    match kind
    case CenterButton => w.(center := b)
    case PlayButton => w.(play := b)
    case NextButton => w.(next := b)
    case PrevButton => w.(prev := b)
  }

  /** One input to the wheel component. A disabled button receives no pointer events (the
      `disabled` attribute of its element), but a timer armed before still fires. */
  datatype WheelInput =
    | ButtonDownInput(kind: ButtonKind)
    | ButtonUpInput(kind: ButtonKind)
    | ButtonLeaveInput(kind: ButtonKind)
    | PressTimerInput(kind: ButtonKind)
    | MenuClickInput
    | PointerDownInput(inRing: bool, angle: int)
    | PointerMoveInput(inRing: bool, angle: int)
    | PointerUpInput
    | KeyInput(key: string)

  function OnButton(w: WheelState, kind: ButtonKind, r: (ButtonState, seq<Signal>)): (WheelState, seq<Signal>)
  {
    (WithButton(w, kind, r.0), r.1)
  }

  function WheelStep(w: WheelState, disabled: bool, isScrubbing: bool, isHoldOn: bool, i: WheelInput): (WheelState, seq<Signal>)
  {
    match i
    case ButtonDownInput(k) => if disabled then (w, []) else OnButton(w, k, Press(ButtonOf(w, k), false))
    case ButtonUpInput(k) => if disabled then (w, []) else OnButton(w, k, Release(ButtonOf(w, k), k))
    case ButtonLeaveInput(k) => if disabled then (w, []) else OnButton(w, k, Leave(ButtonOf(w, k), k))
    case PressTimerInput(k) => OnButton(w, k, Fire(ButtonOf(w, k), k))
    case MenuClickInput => (w, MenuClick(disabled))
    case PointerDownInput(inRing, angle) =>
      var r := PointerDown(w.rotary, disabled, inRing, angle, isScrubbing);
      (w.(rotary := r.0), r.1)
    case PointerMoveInput(inRing, angle) =>
      var r := Move(w.rotary, disabled, inRing, angle, isScrubbing);
      (w.(rotary := r.0), r.1)
    case PointerUpInput => (w.(rotary := PointerUp(w.rotary)), [])
    case KeyInput(key) => (w, KeyDown(key, disabled, isHoldOn))
  }

  /** No press timer is armed. */
  predicate NoTimerPending(w: WheelState)
  {
    !w.center.timerPending && !w.play.timerPending && !w.next.timerPending && !w.prev.timerPending
  }

  /** A signal a locked device still lets through: the hold switch and the volume keys. */
  predicate PassesHold(x: Signal) { x.ToggleHoldSignal? || x.VolumeSignal? }

  /** A disabled wheel with no press timer armed sends nothing but hold toggles and volume
      changes, and arms no timer, whatever the input. */
  lemma DisabledWheelStep(w: WheelState, isScrubbing: bool, i: WheelInput)
    requires NoTimerPending(w)
    ensures NoTimerPending(WheelStep(w, true, isScrubbing, true, i).0)
    ensures forall x :: x in WheelStep(w, true, isScrubbing, true, i).1 ==> PassesHold(x)
  {
    match i
    case PressTimerInput(k) =>
      assert WheelStep(w, true, isScrubbing, true, i) == (w, []);
    case _ =>
  }

  function RunWheel(w: WheelState, disabled: bool, isScrubbing: bool, isHoldOn: bool, inputs: seq<WheelInput>): (WheelState, seq<Signal>)
    decreases |inputs|
  {
    if inputs == [] then (w, [])
    else
      var first := WheelStep(w, disabled, isScrubbing, isHoldOn, inputs[0]);
      var rest := RunWheel(first.0, disabled, isScrubbing, isHoldOn, inputs[1..]);
      (rest.0, first.1 + rest.1)
  }

  /** A disabled wheel, locked by hold with no press under way, lets only the hold switch and the
      volume keys through, for any sequence of inputs. */
  lemma {:induction false} DisabledWheelRun(w: WheelState, isScrubbing: bool, inputs: seq<WheelInput>)
    requires NoTimerPending(w)
    ensures forall x :: x in RunWheel(w, true, isScrubbing, true, inputs).1 ==> PassesHold(x)
    decreases |inputs|
  {
    if inputs != [] {
      var first := WheelStep(w, true, isScrubbing, true, inputs[0]);
      DisabledWheelStep(w, isScrubbing, inputs[0]);
      DisabledWheelRun(first.0, isScrubbing, inputs[1..]);
      var rest := RunWheel(first.0, true, isScrubbing, true, inputs[1..]);
      assert RunWheel(w, true, isScrubbing, true, inputs).1 == first.1 + rest.1;
    }
  }

  /** An enabled wheel passes a centre click on to the shell, whether or not hold is on. */
  lemma EnabledWheelClicks(w: WheelState, isScrubbing: bool, isHoldOn: bool)
    ensures RunWheel(w, false, isScrubbing, isHoldOn, [ButtonDownInput(CenterButton), ButtonUpInput(CenterButton)]).1
         == [ResetBacklightSignal, Callback(Select)]
  {
    var inputs := [ButtonDownInput(CenterButton), ButtonUpInput(CenterButton)];
    var first := WheelStep(w, false, isScrubbing, isHoldOn, inputs[0]);
    var second := WheelStep(first.0, false, isScrubbing, isHoldOn, inputs[1]);
    assert inputs[1..][1..] == [];
    assert RunWheel(first.0, false, isScrubbing, isHoldOn, inputs[1..]) == (second.0, second.1 + []);
    assert second.1 == [Callback(Select)];
  }

  /** The wheel component: its refs and press flags as fields, its handlers as methods. */
  class Wheel {
    var rotary: RotaryState
    var center: ButtonState
    var play: ButtonState
    var next: ButtonState
    var prev: ButtonState

    ghost function Model(): WheelState
      reads this
    {
      WheelState(rotary, center, play, next, prev)
    }

    constructor ()
      ensures Model() == WheelState(RestingRotary, IdleButton, IdleButton, IdleButton, IdleButton)
    {
      rotary := RestingRotary;
      center := IdleButton;
      play := IdleButton;
      next := IdleButton;
      prev := IdleButton;
    }

    function Button(kind: ButtonKind): (b: ButtonState)
      reads this
      ensures b == ButtonOf(Model(), kind)
    {
      match kind
      case CenterButton => center
      case PlayButton => play
      case NextButton => next
      case PrevButton => prev
    }

    method SetButton(kind: ButtonKind, b: ButtonState)
      modifies this
      ensures Model() == WithButton(old(Model()), kind, b)
    {
      match kind
      case CenterButton => center := b;
      case PlayButton => play := b;
      case NextButton => next := b;
      case PrevButton => prev := b;
    }

    method ButtonDown(kind: ButtonKind, disabled: bool) returns (out: seq<Signal>)
      modifies this
      ensures (Model(), out) == (WithButton(old(Model()), kind, Press(old(Button(kind)), disabled).0),
                                 Press(old(Button(kind)), disabled).1)
    {
      if disabled {
        out := [];
        assert WithButton(Model(), kind, Button(kind)) == Model();
        return;
      }
      SetButton(kind, ButtonState(true, false));
      out := [ResetBacklightSignal];
    }

    /** The press timer of `kind` fires. */
    method ButtonTimerFired(kind: ButtonKind) returns (out: seq<Signal>)
      modifies this
      ensures (Model(), out) == (WithButton(old(Model()), kind, Fire(old(Button(kind)), kind).0),
                                 Fire(old(Button(kind)), kind).1)
    {
      var b := Button(kind);
      if !b.timerPending {
        out := [];
        assert WithButton(Model(), kind, b) == Model();
        return;
      }
      SetButton(kind, ButtonState(false, true));
      out := [Callback(LongEvent(kind))];
    }

    method ButtonUp(kind: ButtonKind) returns (out: seq<Signal>)
      modifies this
      ensures (Model(), out) == (WithButton(old(Model()), kind, Release(old(Button(kind)), kind).0),
                                 Release(old(Button(kind)), kind).1)
    {
      var b := Button(kind);
      if !b.isLongPress {
        out := [Callback(ShortEvent(kind))];
      } else if Seeks(kind) {
        out := [Callback(SeekRelease)];
      } else {
        out := [];
      }
      SetButton(kind, IdleButton);
    }

    method ButtonLeave(kind: ButtonKind) returns (out: seq<Signal>)
      modifies this
      ensures (Model(), out) == (WithButton(old(Model()), kind, Leave(old(Button(kind)), kind).0),
                                 Leave(old(Button(kind)), kind).1)
    {
      var b := Button(kind);
      if Seeks(kind) && b.isLongPress {
        SetButton(kind, IdleButton);
        out := [Callback(SeekRelease)];
      } else {
        SetButton(kind, b.(timerPending := false));
        out := [];
      }
    }

    method WheelMove(disabled: bool, inRing: bool, angle: int, isScrubbing: bool) returns (out: seq<Signal>)
      modifies this
      ensures Model() == old(Model()).(rotary := Move(old(rotary), disabled, inRing, angle, isScrubbing).0)
      ensures out == Move(old(rotary), disabled, inRing, angle, isScrubbing).1
    {
      if disabled {
        out := [];
        return;
      }
      out := [ResetBacklightSignal];
      if !inRing {
        rotary := rotary.(lastAngle := None);
        return;
      }
      if rotary.lastAngle.Some? {
        var acc := rotary.accumulated + Wrap(angle - rotary.lastAngle.value);
        if Abs(acc) >= Threshold(isScrubbing) {
          out := out + [Callback(Scroll(if acc > 0 then Down else Up))];
          acc := 0;
        }
        rotary := rotary.(accumulated := acc);
      }
      rotary := rotary.(lastAngle := Some(angle));
    }

    method WheelPointerDown(disabled: bool, inRing: bool, angle: int, isScrubbing: bool) returns (out: seq<Signal>)
      modifies this
      ensures Model() == old(Model()).(rotary := PointerDown(old(rotary), disabled, inRing, angle, isScrubbing).0)
      ensures out == PointerDown(old(rotary), disabled, inRing, angle, isScrubbing).1
    {
      if disabled {
        out := [];
        return;
      }
      var moved := WheelMove(false, inRing, angle, isScrubbing);
      out := [ResetBacklightSignal] + moved;
    }

    method WheelPointerUp()
      modifies this
      ensures Model() == old(Model()).(rotary := PointerUp(old(rotary)))
    {
      rotary := RotaryState(None, 0);
    }
  }
}
