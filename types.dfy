/** Data model of the pet-feeder door controller (src/main.cpp): its compiled-in
    constants, the mode and door enumerations, the inputs sampled once per cycle,
    the hardware effects it issues, and a value snapshot of its global state. */
module FeederTypes {

  // Compiled-in constants (src/main.cpp:23-26).
  const SLIDE_DISTANCE: int := 8600
  const MAX_TIMER_COUNT: int := 50
  const SCREEN_BLANK_DELAY: int := 50
  const SCREEN_BLANK_EFFECT_DELAY: int := 30

  /** Upper bound of the homing sweep's `for` loop (src/main.cpp:268). */
  const HOMING_STEPS: nat := 8000

  /** Argument of `delay` when the alarm hands over to the opening sequence. */
  const SETTLE_DELAY_MS: nat := 2000

  /** `moveClockwise` is initialised to true and never reassigned. */
  const MOVE_CLOCKWISE: bool := true

  // Values of `buttonStatus`, the input focus (enum ButtonStatus).
  const OPEN_CLOSE: int := 0
  const SET_TIME: int := 1
  const SET_ALARM: int := 2

  /** The controller's program counter (enum Mode), in declaration order. */
  datatype Mode =
    | DoNothing
    | DisplayInit
    | InitPos
    | DisplayOpening
    | RunForOpen
    | DisplayClosing
    | RunForClose
    | InitPosAchieved
    | TimeForFood
    | EndOfTimeForFood
    | Error

  /** What the controller believes about the door. */
  datatype DoorStatus = Closed | Open | Unknown

  /** A reading of the real-time clock; only hour, minute and second matter. */
  datatype Time = Time(hour: nat, minute: nat, second: nat)

  /** One sample of the four digital lines; `true` is a HIGH level. */
  datatype Pins = Pins(button1: bool, button2: bool, button3: bool, stop: bool)

  /** Everything one cycle consumes: the clock reading, the four line levels, and
      the stop-pin levels the homing sweep would read, one per motor step. */
  datatype Input = Input(now: Time, pins: Pins, stopReads: seq<bool>)

  /** Hardware effects, recorded in the order the controller issues them. */
  datatype Action =
    | SetRtc(hour: int, minute: int)           // Rtc.SetDateTime on the fixed date 2019-01-21, second 0
    | StepMotor(clockwise: bool)               // stepper.step
    | MoveMotor(clockwise: bool, steps: int)   // stepper.move
    | ReleaseCoils                             // resetStepperPins
    | Wait(ms: nat)                            // delay
    | BlankPing                                // printRandom on the blanked screen

  /** The global controller variables of src/main.cpp:31-45 as one value. */
  datatype State = State(
    button3Pressed: bool,
    button2Pressed: bool,
    button1Pressed: bool,
    positionKnown: bool,
    showScreen: bool,
    screenBlankDelayCount: int,
    screenBlankEffectDelay: int,
    buttonStatus: int,
    doorStatus: DoorStatus,
    mode: Mode,
    timerCount: int,
    alarmHr: int,
    alarmMin: int,
    clockHr: int,
    clockMin: int)

  /** A new state together with the effects issued on the way to it. */
  datatype Outcome = Outcome(state: State, effects: seq<Action>)

  /** The power-on values of the globals; the door constants are never declared
      in the source, so the door's initial status is a parameter. */
  function Initial(door: DoorStatus): State {
    State(false, false, false, false, true, 0, 0, OPEN_CLOSE, door, DoNothing, 0, 0, 0, 0, 0)
  }

  /** C's `%` on int: truncates toward zero, so the remainder takes the sign of `a`. */
  function Rem(a: int, m: int): (r: int)
    requires m > 0
    ensures a >= 0 ==> 0 <= r < m
    ensures a < 0 ==> -m < r <= 0
  {
    if a >= 0 then a % m else -((-a) % m)
  }

  /** Regrouping the effect log appended by consecutive handlers. */
  lemma AppendAssoc(a: seq<Action>, b: seq<Action>, c: seq<Action>, d: seq<Action>)
    ensures a + b + c + d == a + (b + c + d)
    ensures a + b + c == a + (b + c)
  {
  }
}
