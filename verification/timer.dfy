/**
  The countdown Timer: a time value in whole seconds with a fixed kind (a
  shrinking Bar or a Digit label), the start anchor that `Reset` returns to,
  the timer's own UI element and, for Bar timers, the active tween. Tweens are
  abstract handles: a duration and whether the engine reports them as playing.
 */
module Timers {
  import opened Wrappers

  /** The numeric enum `TimerType`: Bar is 0, Digit is 1. */
  datatype TimerType = Bar | Digit

  function TypeCode(k: TimerType): int {
    match k
    case Bar => 0
    case Digit => 1
  }

  /** The six preset positions of `TimerPosition`. */
  datatype TimerPosition = TopLeft | TopRight | Top | BottomLeft | BottomRight | Bottom

  /** Corner presets are for Digit timers, edge presets for Bar timers. */
  predicate IsCorner(p: TimerPosition) {
    p == TopLeft || p == TopRight || p == BottomLeft || p == BottomRight
  }

  predicate IsEdge(p: TimerPosition) {
    p == Top || p == Bottom
  }

  /**
    A position coordinate: a scale in hundredths of the parent's size, or
    the negated height scale of the timer's own element (the Top preset).
   */
  datatype Coord = Hundredths(h: int) | AboveOwnHeight

  /** AnchorPoint (in hundredths) and Position of the timer's element. */
  datatype Placement = Placement(anchorX: int, anchorY: int, posX: Coord, posY: Coord)

  /** An instance's placement before any preset is applied. */
  const DefaultPlacement := Placement(0, 0, Hundredths(0), Hundredths(0))

  /**
    The timer's element. `shown` is the number a Digit label shows; None
    means the engine's default text, shown until the first refresh.
   */
  datatype TimeUI = TimeUI(placement: Placement, visible: bool, shown: Option<int>)

  datatype Tween = Tween(duration: int, playing: bool)

  datatype Timer = Timer(
    kind: TimerType,
    time: int,
    lastStart: int,
    ui: Option<TimeUI>,
    tween: Option<Tween>)

  datatype TimerError = InvalidTimerType(code: int)

  /** A timer that has not been destroyed still holds its element. */
  predicate Live(t: Timer) {
    t.ui.Some?
  }

  /**
    The shape every constructed timer keeps: only Bar timers get tweens, every
    tween has a positive duration, a Bar's element is not a label, and a
    destroyed timer holds no tween.
   */
  predicate Valid(t: Timer) {
    && (t.kind == Digit ==> t.tween.None?)
    && (t.tween.Some? ==> t.tween.value.duration > 0)
    && (t.kind == Bar && t.ui.Some? ==> t.ui.value.shown.None?)
    && (t.ui.None? ==> t.tween.None?)
  }

  predicate Playing(tw: Option<Tween>) {
    tw.Some? && tw.value.playing
  }

  /** Construction from the enum code and the optional start time. */
  function NewTimer(code: int, start: Option<int>): (r: Result<Timer, TimerError>)
    ensures r.Success? <==> code == 0 || code == 1
    ensures r.Failure? ==> r.error == InvalidTimerType(code)
    ensures r.Success? ==>
      && TypeCode(r.value.kind) == code
      && r.value.time == r.value.lastStart
      && (start.Some? ==> r.value.time == start.value)
      && (start.None? ==> r.value.time == 0)
      && r.value.ui == Some(TimeUI(DefaultPlacement, true, None))
      && r.value.tween.None?
      && Valid(r.value)
  {
    var time := start.GetOr(0);
    var ui := Some(TimeUI(DefaultPlacement, true, None));
    if code == 0 then Success(Timer(Bar, time, time, ui, None))
    else if code == 1 then Success(Timer(Digit, time, time, ui, None))
    else Failure(InvalidTimerType(code))
  }

  /** The step an optional argument stands for: omitted or 0 means 1. */
  function Step(n: Option<int>): (k: int)
    ensures k != 0
    ensures n.None? || n.value == 0 ==> k == 1
    ensures n.Some? && n.value != 0 ==> k == n.value
  {
    if n.None? || n.value == 0 then 1 else n.value
  }

  /**
    The private refresh. A Bar keeps its tween when the time is not positive
    or the current tween is playing; otherwise a fresh, unplayed tween running
    for `time` seconds replaces it. A Digit's label shows the time.
   */
  function UpdateUI(t: Timer): (r: Timer)
    requires Live(t)
    ensures r.kind == t.kind && r.time == t.time && r.lastStart == t.lastStart
    ensures Live(r) && r.ui.value.placement == t.ui.value.placement
    ensures r.ui.value.visible == t.ui.value.visible
    ensures t.kind == Bar ==> r.ui == t.ui
    ensures t.kind == Bar ==>
      (r.tween == t.tween <==> t.time <= 0 || Playing(t.tween) || t.tween == Some(Tween(t.time, false)))
    ensures t.kind == Bar && r.tween != t.tween ==> r.tween == Some(Tween(t.time, false))
    ensures t.kind == Digit ==> r.tween == t.tween && r.ui.value.shown == Some(t.time)
    ensures Valid(t) ==> Valid(r)
  {
    match t.kind
    case Bar =>
      if t.time <= 0 || Playing(t.tween) then t
      else t.(tween := Some(Tween(t.time, false)))
    case Digit =>
      t.(ui := Some(t.ui.value.(shown := Some(t.time))))
  }

  /** Adds the step to the time, with no bound in either direction. */
  function Increment(t: Timer, n: Option<int>): (r: Timer)
    requires Live(t)
    ensures Live(r)
    ensures r.time == t.time + Step(n)
    ensures r.kind == t.kind && r.lastStart == t.lastStart
    ensures r.ui.value.placement == t.ui.value.placement
    ensures r.ui.value.visible == t.ui.value.visible
    ensures t.kind == Digit ==> r.tween == t.tween && r.ui.value.shown == Some(r.time)
    ensures t.kind == Bar ==> r.ui == t.ui
    ensures t.kind == Bar ==>
      (r.tween == t.tween <==> r.time <= 0 || Playing(t.tween) || t.tween == Some(Tween(r.time, false)))
    ensures t.kind == Bar && r.tween != t.tween ==> r.tween == Some(Tween(r.time, false))
    ensures Valid(t) ==> Valid(r)
  {
    UpdateUI(t.(time := t.time + Step(n)))
  }

  /** Subtracts the step from the time, clamping at zero. */
  function Decrement(t: Timer, n: Option<int>): (r: Timer)
    requires Live(t)
    ensures Live(r)
    ensures r.time >= 0
    ensures r.time >= t.time - Step(n)
    ensures r.time == 0 || r.time == t.time - Step(n)
    ensures r.kind == t.kind && r.lastStart == t.lastStart
    ensures r.ui.value.placement == t.ui.value.placement
    ensures r.ui.value.visible == t.ui.value.visible
    ensures t.kind == Digit ==> r.tween == t.tween && r.ui.value.shown == Some(r.time)
    ensures t.kind == Bar ==> r.ui == t.ui
    ensures t.kind == Bar ==>
      (r.tween == t.tween <==> r.time <= 0 || Playing(t.tween) || t.tween == Some(Tween(r.time, false)))
    ensures t.kind == Bar && r.tween != t.tween ==> r.tween == Some(Tween(r.time, false))
    ensures Valid(t) ==> Valid(r)
  {
    var k := Step(n);
    if t.time - k < 0 then UpdateUI(t.(time := 0))
    else UpdateUI(t.(time := t.time - k))
  }

  /** Drops the tween of a Bar timer; a Digit timer is returned as it is. */
  function ClearBar(t: Timer): Timer {
    if t.kind == Bar then t.(tween := None) else t
  }

  /** Returns the time to the start anchor; a Bar's tween is cancelled first. */
  function Reset(t: Timer): (r: Timer)
    requires Live(t)
    ensures Live(r)
    ensures r.time == t.lastStart && r.lastStart == t.lastStart
    ensures r.kind == t.kind && r.ui.value.placement == t.ui.value.placement
    ensures r.ui.value.visible == t.ui.value.visible
    ensures t.kind == Bar ==> r.ui == t.ui
    ensures t.kind == Digit ==> r.tween == t.tween && r.ui.value.shown == Some(t.lastStart)
    ensures t.kind == Bar ==> (r.tween.None? <==> t.lastStart <= 0)
    ensures t.kind == Bar && r.tween.Some? ==> r.tween.value == Tween(t.lastStart, false)
    ensures Valid(t) ==> Valid(r)
  {
    UpdateUI(ClearBar(t.(time := t.lastStart)))
  }

  /** Moves both the time and the start anchor to `v`; a Bar's tween is cancelled first. */
  function Set(t: Timer, v: int): (r: Timer)
    requires Live(t)
    ensures Live(r)
    ensures r.time == v && r.lastStart == v
    ensures r.kind == t.kind && r.ui.value.placement == t.ui.value.placement
    ensures r.ui.value.visible == t.ui.value.visible
    ensures t.kind == Bar ==> r.ui == t.ui
    ensures t.kind == Digit ==> r.tween == t.tween && r.ui.value.shown == Some(v)
    ensures t.kind == Bar ==> (r.tween.None? <==> v <= 0)
    ensures t.kind == Bar && r.tween.Some? ==> r.tween.value == Tween(v, false)
    ensures Valid(t) ==> Valid(r)
  {
    UpdateUI(ClearBar(t.(lastStart := v, time := v)))
  }

  /** A preset suits a kind when it is a corner for a Digit or an edge for a Bar. */
  predicate Compatible(k: TimerType, p: TimerPosition) {
    match k
    case Bar => IsEdge(p)
    case Digit => IsCorner(p)
  }

  /** The fixed AnchorPoint and Position each preset assigns. */
  function PresetPlacement(p: TimerPosition): Placement {
    match p
    case TopLeft => Placement(0, 0, Hundredths(3), Hundredths(3))
    case TopRight => Placement(100, 0, Hundredths(97), Hundredths(3))
    case Top => Placement(50, 0, Hundredths(50), AboveOwnHeight)
    case BottomLeft => Placement(0, 100, Hundredths(3), Hundredths(97))
    case BottomRight => Placement(100, 100, Hundredths(97), Hundredths(97))
    case Bottom => Placement(50, 0, Hundredths(50), Hundredths(100))
  }

  /** The warning logged for a preset that does not suit the timer's kind. */
  datatype PositionWarning = InvalidPosition(kind: TimerType, pos: TimerPosition)

  datatype Positioned = Positioned(timer: Timer, warning: Option<PositionWarning>)

  /**
    Applies a preset. A mismatched preset logs a warning and changes nothing;
    a matching one sets the preset's placement and leaves the element visible.
   */
  function SetPosition(t: Timer, p: TimerPosition): (r: Positioned)
    requires Live(t)
    ensures r.warning.None? <==> Compatible(t.kind, p)
    ensures r.warning.Some? ==> r.timer == t && r.warning.value == InvalidPosition(t.kind, p)
    ensures r.warning.None? ==>
      && Live(r.timer)
      && r.timer.ui.value.placement == PresetPlacement(p)
      && r.timer.ui.value.visible
      && r.timer.ui.value.shown == t.ui.value.shown
      && r.timer.(ui := t.ui) == t
  {
    if !Compatible(t.kind, p) then Positioned(t, Some(InvalidPosition(t.kind, p)))
    else
      var ui := t.ui.value.(visible := false).(placement := PresetPlacement(p));
      Positioned(t.(ui := Some(ui.(visible := true))), None)
  }

  /** Releases the element and cancels the tween; safe to call again. */
  function Destroy(t: Timer): (r: Timer)
    ensures r.ui.None? && r.tween.None?
    ensures r.kind == t.kind && r.time == t.time && r.lastStart == t.lastStart
    ensures Valid(r)
  {
    var t1 := if t.ui.Some? then t.(ui := None) else t;
    if t1.tween.Some? then t1.(tween := None) else t1
  }

  // ---------------------------------------------------------------------
  // Properties relating several operations
  // ---------------------------------------------------------------------

  /** Construction puts the time at the start anchor, so an immediate Reset keeps it. */
  lemma ResetAfterConstruction(code: int, start: Option<int>)
    requires NewTimer(code, start).Success?
    ensures Reset(NewTimer(code, start).value).time == start.GetOr(0)
  {
  }

  /** After Set(v), Reset changes nothing at all. */
  lemma ResetAfterSet(t: Timer, v: int)
    requires Live(t)
    ensures Reset(Set(t, v)) == Set(t, v)
  {
  }

  /** Reset is idempotent. */
  lemma ResetIdempotent(t: Timer)
    requires Live(t)
    ensures Reset(Reset(t)) == Reset(t)
  {
  }

  /** The refresh is idempotent: a second refresh installs nothing new. */
  lemma UpdateUIIdempotent(t: Timer)
    requires Live(t)
    ensures UpdateUI(UpdateUI(t)) == UpdateUI(t)
  {
  }

  /** A refreshed Bar with positive time always ends up with a tween. */
  lemma UpdateUIBarHasTween(t: Timer)
    requires Live(t) && t.kind == Bar && t.time > 0
    ensures UpdateUI(t).tween.Some?
    ensures !Playing(t.tween) ==> UpdateUI(t).tween.value.duration == t.time
  {
  }

  /** Decrementing by the step just added returns a non-negative time to where it was. */
  lemma IncrementDecrementRoundTrip(t: Timer, n: int)
    requires Live(t) && t.time >= 0
    ensures Decrement(Increment(t, Some(n)), Some(n)).time == t.time
  {
  }

  /** Incrementing by a negative amount can drive the time below zero: there is no clamp. */
  lemma IncrementNegativeUnclamped(t: Timer, n: int)
    requires Live(t) && n < 0 && t.time < -n
    ensures Increment(t, Some(n)).time < 0
  {
  }

  /** Decrementing a timer whose time is at most the step yields exactly zero. */
  lemma DecrementToZero(t: Timer, n: Option<int>)
    requires Live(t) && t.time <= Step(n)
    ensures Decrement(t, n).time == 0
  {
  }

  /** Applying a preset twice is the same as applying it once. */
  lemma SetPositionIdempotent(t: Timer, p: TimerPosition)
    requires Live(t)
    ensures Live(SetPosition(t, p).timer)
    ensures SetPosition(SetPosition(t, p).timer, p).timer == SetPosition(t, p).timer
  {
  }

  /** Destroy is idempotent. */
  lemma DestroyIdempotent(t: Timer)
    ensures Destroy(Destroy(t)) == Destroy(t)
  {
  }

  // ---------------------------------------------------------------------
  // Runs of mutator calls on a live timer
  // ---------------------------------------------------------------------

  datatype TimerOp =
    | IncrementOp(n: Option<int>)
    | DecrementOp(n: Option<int>)
    | ResetOp
    | SetOp(v: int)
    | SetPositionOp(p: TimerPosition)

  function Apply(t: Timer, op: TimerOp): (r: Timer)
    requires Live(t)
    ensures Live(r) && r.kind == t.kind
  {
    match op
    case IncrementOp(n) => Increment(t, n)
    case DecrementOp(n) => Decrement(t, n)
    case ResetOp => Reset(t)
    case SetOp(v) => Set(t, v)
    case SetPositionOp(p) => SetPosition(t, p).timer
  }

  /** The timer after applying each call of `ops` in order. */
  function Run(t: Timer, ops: seq<TimerOp>): (r: Timer)
    requires Live(t)
    ensures Live(r) && r.kind == t.kind
    decreases |ops|
  {
    if ops == [] then t else Run(Apply(t, ops[0]), ops[1..])
  }

  /** The argument of the last Set in `ops`, or `start` when there is none. */
  function LastSet(start: int, ops: seq<TimerOp>): int
    decreases |ops|
  {
    if ops == [] then start
    else LastSet(if ops[0].SetOp? then ops[0].v else start, ops[1..])
  }

  /** Every mutator keeps the timer's shape. */
  lemma {:induction false} RunPreservesValid(t: Timer, ops: seq<TimerOp>)
    requires Live(t) && Valid(t)
    ensures Valid(Run(t, ops))
    decreases |ops|
  {
    if ops != [] {
      var t1 := Apply(t, ops[0]);
      assert Valid(t1) by {
        match ops[0]
        case IncrementOp(n) =>
        case DecrementOp(n) =>
        case ResetOp =>
        case SetOp(v) =>
        case SetPositionOp(p) =>
      }
      RunPreservesValid(t1, ops[1..]);
    }
  }

  /** Only Set moves the start anchor: after any run it is the last value Set. */
  lemma {:induction false} RunLastStart(t: Timer, ops: seq<TimerOp>)
    requires Live(t)
    ensures Run(t, ops).lastStart == LastSet(t.lastStart, ops)
    decreases |ops|
  {
    if ops != [] {
      var t1 := Apply(t, ops[0]);
      assert t1.lastStart == (if ops[0].SetOp? then ops[0].v else t.lastStart);
      RunLastStart(t1, ops[1..]);
    }
  }

  /**
    Reset restores the time to the value of the most recent Set, or to the
    construction start when no Set was made.
   */
  lemma ResetRestoresLastSet(code: int, start: Option<int>, ops: seq<TimerOp>)
    requires NewTimer(code, start).Success?
    ensures Reset(Run(NewTimer(code, start).value, ops)).time == LastSet(start.GetOr(0), ops)
  {
    RunLastStart(NewTimer(code, start).value, ops);
  }
}
