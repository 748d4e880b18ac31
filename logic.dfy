/** The controller's per-cycle behaviour as functions on state values: one step
    function per handler of src/main.cpp, composed as `loop` composes them. The
    methods of FeederController are proved equal to these, and the lemmas of
    FeederProperties are stated about them. */
module FeederLogic {
  import opened FeederTypes

  /** The bounds on the settings and the screen counters. */
  predicate Settings(s: State) {
    && 0 <= s.buttonStatus < 3
    && 0 <= s.alarmHr < 24
    && 0 <= s.alarmMin < 60 && s.alarmMin % 10 == 0
    && 0 <= s.screenBlankDelayCount <= SCREEN_BLANK_DELAY
    && 0 <= s.screenBlankEffectDelay < SCREEN_BLANK_EFFECT_DELAY
    && 0 <= s.timerCount <= MAX_TIMER_COUNT + 1
  }

  /** Invariant of the controller between cycles. */
  predicate Inv(s: State) {
    && Settings(s)
    && (s.timerCount > MAX_TIMER_COUNT ==> s.mode == Error)
    && s.mode != TimeForFood
  }

  /** A button press is acted upon when the line reads HIGH while its latch is clear. */
  predicate Accepted(latch: bool, high: bool) {
    high && !latch
  }

  // ---------------------------------------------------------------- loop

  /** Copy the clock reading into `clockHr`/`clockMin`, then fire the alarm. */
  function AlarmStep(s: State, now: Time): State {
    var c := s.(clockMin := now.minute, clockHr := now.hour);
    if (c.mode == DoNothing || c.mode == Error)
       && c.clockHr == c.alarmHr && c.clockMin == c.alarmMin && now.second == 0
    then c.(mode := TimeForFood)
    else c
  }

  // -------------------------------------------------------- handleButtons

  /** The focus after one rotation. */
  function NextFocus(b: int): int {
    Rem(b + 1, 3)
  }

  /** Button 3 rotates the input focus. */
  function Button3Step(s: State, high: bool): State {
    var s1 := if !high then s.(button3Pressed := false) else s;
    if high && !s1.button3Pressed then
      s1.(screenBlankDelayCount := 0, buttonStatus := NextFocus(s1.buttonStatus), button3Pressed := true)
    else s1
  }

  /** What an accepted press of button 2 does, by focus: ten minutes onto the alarm,
      or one minute onto the clock, written to the real-time clock. */
  function Button2Action(s: State, now: Time): Outcome {
    if s.buttonStatus == SET_ALARM then
      Outcome(s.(alarmMin := Rem(s.alarmMin + 10, 60)), [])
    else if s.buttonStatus == SET_TIME then
      var m := Rem(s.clockMin + 1, 60);
      Outcome(s.(clockMin := m), [SetRtc(now.hour, m)])
    else Outcome(s, [])
  }

  /** Button 2: release clears the latch; an accepted press wakes the screen, acts, and latches. */
  function Button2Step(s: State, now: Time, high: bool): Outcome {
    var s1 := if !high then s.(button2Pressed := false) else s;
    if high && !s1.button2Pressed then
      var o := Button2Action(s1.(screenBlankDelayCount := 0), now);
      Outcome(o.state.(button2Pressed := true), o.effects)
    else Outcome(s1, [])
  }

  /** The mode a door command selects (src/main.cpp:175). */
  function DoorCommandTarget(positionKnown: bool, door: DoorStatus): Mode {
    if positionKnown then (if door == Closed then DisplayOpening else DisplayClosing)
    else DisplayInit
  }

  /** What an accepted press of button 1 does, by focus: one hour onto the clock,
      written to the real-time clock, or onto the alarm, or a door command from idle
      or `Error`. */
  function Button1Action(s: State, now: Time): Outcome {
    if s.buttonStatus == SET_TIME then
      var h := Rem(s.clockHr + 1, 24);
      Outcome(s.(clockHr := h), [SetRtc(h, now.minute)])
    else if s.buttonStatus == SET_ALARM then
      Outcome(s.(alarmHr := Rem(s.alarmHr + 1, 24)), [])
    else if s.buttonStatus == OPEN_CLOSE && (s.mode == DoNothing || s.mode == Error) then
      Outcome(s.(mode := DoorCommandTarget(s.positionKnown, s.doorStatus)), [])
    else Outcome(s, [])
  }

  /** Button 1: release clears the latch; an accepted press wakes the screen, acts, and latches. */
  function Button1Step(s: State, now: Time, high: bool): Outcome {
    var s1 := if !high then s.(button1Pressed := false) else s;
    if high && !s1.button1Pressed then
      var o := Button1Action(s1.(screenBlankDelayCount := 0), now);
      Outcome(o.state.(button1Pressed := true), o.effects)
    else Outcome(s1, [])
  }

  /** A HIGH stop pin ends homing, and is ignored in every other mode. */
  function StopPinStep(s: State, high: bool): State {
    if high && s.mode == InitPos then s.(mode := InitPosAchieved) else s
  }

  function ButtonsStep(s: State, now: Time, pins: Pins): Outcome {
    var s3 := Button3Step(s, pins.button3);
    var o2 := Button2Step(s3, now, pins.button2);
    var o1 := Button1Step(o2.state, now, pins.button1);
    Outcome(StopPinStep(o1.state, pins.stop), o2.effects + o1.effects)
  }

  // ---------------------------------------------------------- handleModes

  /** Index of the first HIGH read, or `|samples|` when there is none. */
  function FirstHigh(samples: seq<bool>): (k: nat)
    ensures k <= |samples|
    ensures forall j :: 0 <= j < k ==> !samples[j]
    ensures k < |samples| ==> samples[k]
  {
    if samples == [] then 0
    else if samples[0] then 0
    else 1 + FirstHigh(samples[1..])
  }

  /** Number of motor steps the sweep issues: up to and including the first HIGH read. */
  function SweepSteps(samples: seq<bool>): nat {
    var k := FirstHigh(samples);
    if k < |samples| then k + 1 else |samples|
  }

  function Steps(n: nat): seq<Action> {
    seq(n, _ => StepMotor(MOVE_CLOCKWISE))
  }

  /** handleModeInitPos: one sweep of at most HOMING_STEPS steps, polling the stop pin. */
  function InitPosStep(s: State, samples: seq<bool>): Outcome
    requires |samples| == HOMING_STEPS
  {
    var found := FirstHigh(samples) < |samples|;
    Outcome(s.(mode := if found then InitPosAchieved else s.mode, timerCount := s.timerCount + 1),
            Steps(SweepSteps(samples)))
  }

  function RunForOpenStep(s: State): Outcome {
    Outcome(s.(mode := DoNothing, doorStatus := Open),
            [MoveMotor(!MOVE_CLOCKWISE, SLIDE_DISTANCE), ReleaseCoils])
  }

  function RunForCloseStep(s: State): Outcome {
    Outcome(s.(mode := DoNothing, doorStatus := Closed),
            [MoveMotor(MOVE_CLOCKWISE, SLIDE_DISTANCE), ReleaseCoils])
  }

  function DisplayOpeningStep(s: State): State {
    if s.doorStatus == Closed then s.(mode := RunForOpen, doorStatus := Unknown) else s
  }

  function DisplayClosingStep(s: State): State {
    s.(mode := RunForClose, doorStatus := Unknown)
  }

  /** End of homing: the door is at the closed stop, so open it. */
  function InitPosAchievedStep(s: State): State {
    s.(positionKnown := true, doorStatus := Closed, mode := DisplayOpening, timerCount := 0)
  }

  /** The alarm's hand-over: wait, then open the door with the door focus selected. */
  function TimeForFoodStep(s: State): Outcome {
    Outcome(s.(mode := DisplayOpening, buttonStatus := OPEN_CLOSE), [Wait(SETTLE_DELAY_MS)])
  }

  /** The mode switch; `DisplayInit`, `DoNothing`, `EndOfTimeForFood` and `Error` fall to `default`. */
  function DispatchStep(s: State, samples: seq<bool>): Outcome
    requires |samples| == HOMING_STEPS
  {
    match s.mode
    case InitPos => InitPosStep(s, samples)
    case RunForOpen => RunForOpenStep(s)
    case RunForClose => RunForCloseStep(s)
    case DisplayOpening => Outcome(DisplayOpeningStep(s), [])
    case DisplayClosing => Outcome(DisplayClosingStep(s), [])
    case InitPosAchieved => Outcome(InitPosAchievedStep(s), [])
    case TimeForFood => TimeForFoodStep(s)
    case _ => Outcome(s, [])
  }

  /** handleModes: the switch, then the timer bound that forces `Error`. */
  function ModesStep(s: State, samples: seq<bool>): Outcome
    requires |samples| == HOMING_STEPS
  {
    var o := DispatchStep(s, samples);
    if o.state.timerCount > MAX_TIMER_COUNT then Outcome(o.state.(mode := Error), o.effects) else o
  }

  // -------------------------------------------------------- updateDisplay

  /** The screen-blank counters: a saturating idle counter and a wrapping ping counter. */
  function DisplayStep(s: State): Outcome {
    if s.screenBlankDelayCount < SCREEN_BLANK_DELAY then
      Outcome(s.(screenBlankDelayCount := s.screenBlankDelayCount + 1, showScreen := true), [])
    else
      var e := s.screenBlankEffectDelay + 1;
      if e == SCREEN_BLANK_EFFECT_DELAY then
        Outcome(s.(showScreen := false, screenBlankEffectDelay := 0), [BlankPing])
      else Outcome(s.(showScreen := false, screenBlankEffectDelay := e), [])
  }

  // ------------------------------------------------------- cycles and runs

  /** One `loop` iteration: alarm check, buttons, modes, display counters. */
  function CycleStep(s: State, now: Time, pins: Pins, samples: seq<bool>): Outcome
    requires |samples| == HOMING_STEPS
  {
    var b := ButtonsStep(AlarmStep(s, now), now, pins);
    var m := ModesStep(b.state, samples);
    var d := DisplayStep(m.state);
    Outcome(d.state, b.effects + m.effects + d.effects)
  }

  predicate WellFormed(ins: seq<Input>) {
    forall i :: 0 <= i < |ins| ==> |ins[i].stopReads| == HOMING_STEPS
  }

  /** Consecutive cycles, one per input. */
  function Run(s: State, ins: seq<Input>): Outcome
    requires WellFormed(ins)
    decreases |ins|
  {
    if ins == [] then Outcome(s, [])
    else
      var o := CycleStep(s, ins[0].now, ins[0].pins, ins[0].stopReads);
      var rest := Run(o.state, ins[1..]);
      Outcome(rest.state, o.effects + rest.effects)
  }
}
