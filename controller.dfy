/** The controller as the source has it: its globals are the fields of one object,
    and each handler of src/main.cpp is a method that updates them in place. Every
    method is proved to compute exactly the corresponding step function of
    FeederLogic; hardware effects are appended to the ghost log `effects`. */
module FeederController {
  import opened FeederTypes
  import opened FeederLogic
  import FeederProperties

  class Controller {
    var button3Pressed: bool
    var button2Pressed: bool
    var button1Pressed: bool
    var positionKnown: bool
    var showScreen: bool
    var screenBlankDelayCount: int
    var screenBlankEffectDelay: int
    var buttonStatus: int
    var doorStatus: DoorStatus
    var mode: Mode
    var timerCount: int
    var alarmHr: int
    var alarmMin: int
    var clockHr: int
    var clockMin: int

    /** Hardware effects issued so far, oldest first. */
    ghost var effects: seq<Action>

    /** The fields as one value. */
    ghost function Snapshot(): State
      reads this
    {
      State(button3Pressed, button2Pressed, button1Pressed, positionKnown, showScreen,
            screenBlankDelayCount, screenBlankEffectDelay, buttonStatus, doorStatus, mode,
            timerCount, alarmHr, alarmMin, clockHr, clockMin)
    }

    ghost predicate Valid()
      reads this
    {
      Inv(Snapshot())
    }

    /** Power-on: the initialisers of the globals. */
    constructor (door: DoorStatus)
      ensures Snapshot() == Initial(door) && effects == []
      ensures Valid()
    {
      button3Pressed, button2Pressed, button1Pressed := false, false, false;
      positionKnown, showScreen := false, true;
      screenBlankDelayCount, screenBlankEffectDelay := 0, 0;
      buttonStatus, doorStatus, mode, timerCount := OPEN_CLOSE, door, DoNothing, 0;
      alarmHr, alarmMin, clockHr, clockMin := 0, 0, 0, 0;
      effects := [];
    }

    /** `loop`: one control cycle. */
    method Cycle(now: Time, pins: Pins, stopReads: seq<bool>)
      requires Valid() && |stopReads| == HOMING_STEPS
      modifies this
      ensures Valid()
      ensures Snapshot() == CycleStep(old(Snapshot()), now, pins, stopReads).state
      ensures effects == old(effects) + CycleStep(old(Snapshot()), now, pins, stopReads).effects
    {
      ghost var e0 := effects;
      CheckAlarm(now);
      ghost var s1 := Snapshot();
      HandleButtons(now, pins);
      ghost var s2, e1 := Snapshot(), ButtonsStep(s1, now, pins).effects;
      HandleModes(stopReads);
      ghost var s3, e2 := Snapshot(), ModesStep(s2, stopReads).effects;
      UpdateDisplay();
      ghost var e3 := DisplayStep(s3).effects;
      AppendAssoc(e0, e1, e2, e3);
      FeederProperties.CycleKeepsInv(old(Snapshot()), now, pins, stopReads);
    }

    /** The head of `loop`: read the clock into `clockHr`/`clockMin`, then the alarm check. */
    method CheckAlarm(now: Time)
      modifies this
      ensures Snapshot() == AlarmStep(old(Snapshot()), now)
      ensures effects == old(effects)
    {
      clockMin := now.minute;
      clockHr := now.hour;
      if (mode == DoNothing || mode == Error)
         && clockHr == alarmHr && clockMin == alarmMin && now.second == 0 {
        mode := TimeForFood;
      }
    }

    /** `handleButtons`: the three latched buttons in order, then the stop pin. */
    method HandleButtons(now: Time, pins: Pins)
      modifies this
      ensures Snapshot() == ButtonsStep(old(Snapshot()), now, pins).state
      ensures effects == old(effects) + ButtonsStep(old(Snapshot()), now, pins).effects
    {
      ghost var e0 := effects;
      HandleButton3(pins.button3);
      ghost var s3 := Snapshot();
      HandleButton2(now, pins.button2);
      ghost var s2, e2 := Snapshot(), Button2Step(s3, now, pins.button2).effects;
      HandleButton1(now, pins.button1);
      AppendAssoc(e0, e2, Button1Step(s2, now, pins.button1).effects, []);
      if pins.stop && mode == InitPos {
        mode := InitPosAchieved;
      }
    }

    method HandleButton3(high: bool)
      modifies this
      ensures Snapshot() == Button3Step(old(Snapshot()), high)
      ensures effects == old(effects)
    {
      if !high { button3Pressed := false; }
      if high && !button3Pressed {
        screenBlankDelayCount := 0;
        buttonStatus := Rem(buttonStatus + 1, 3);
        button3Pressed := true;
      }
    }

    method HandleButton2(now: Time, high: bool)
      modifies this
      ensures Snapshot() == Button2Step(old(Snapshot()), now, high).state
      ensures effects == old(effects) + Button2Step(old(Snapshot()), now, high).effects
    {
      if !high { button2Pressed := false; }
      if high && !button2Pressed {
        PressButton2(now);
      }
    }

    /** Button 2 acted upon: its latch was clear and the line reads HIGH. */
    method PressButton2(now: Time)
      requires !button2Pressed
      modifies this
      ensures Snapshot() == Button2Step(old(Snapshot()), now, true).state
      ensures effects == old(effects) + Button2Step(old(Snapshot()), now, true).effects
    {
      screenBlankDelayCount := 0;
      Button2Focus(now);
      button2Pressed := true;
    }

    method Button2Focus(now: Time)
      modifies this
      ensures Snapshot() == Button2Action(old(Snapshot()), now).state
      ensures effects == old(effects) + Button2Action(old(Snapshot()), now).effects
    {
      if buttonStatus == SET_ALARM {
        alarmMin := Rem(alarmMin + 10, 60);
      } else if buttonStatus == SET_TIME {
        clockMin := Rem(clockMin + 1, 60);
        effects := effects + [SetRtc(now.hour, clockMin)];
      }
    }

    method HandleButton1(now: Time, high: bool)
      modifies this
      ensures Snapshot() == Button1Step(old(Snapshot()), now, high).state
      ensures effects == old(effects) + Button1Step(old(Snapshot()), now, high).effects
    {
      if !high { button1Pressed := false; }
      if high && !button1Pressed {
        PressButton1(now);
      }
    }

    /** Button 1 acted upon: its latch was clear and the line reads HIGH. */
    method PressButton1(now: Time)
      requires !button1Pressed
      modifies this
      ensures Snapshot() == Button1Step(old(Snapshot()), now, true).state
      ensures effects == old(effects) + Button1Step(old(Snapshot()), now, true).effects
    {
      screenBlankDelayCount := 0;
      Button1Focus(now);
      button1Pressed := true;
    }

    method Button1Focus(now: Time)
      modifies this
      ensures Snapshot() == Button1Action(old(Snapshot()), now).state
      ensures effects == old(effects) + Button1Action(old(Snapshot()), now).effects
    {
      if buttonStatus == SET_TIME {
        clockHr := Rem(clockHr + 1, 24);
        effects := effects + [SetRtc(clockHr, now.minute)];
      } else if buttonStatus == SET_ALARM {
        alarmHr := Rem(alarmHr + 1, 24);
      } else if buttonStatus == OPEN_CLOSE {
        if mode == DoNothing || mode == Error {
          mode := if positionKnown then (if doorStatus == Closed then DisplayOpening else DisplayClosing)
                  else DisplayInit;
        }
      }
    }

    /** `handleModes`: the mode switch, then the timer bound that forces `Error`. */
    method HandleModes(stopReads: seq<bool>)
      requires |stopReads| == HOMING_STEPS
      modifies this
      ensures Snapshot() == ModesStep(old(Snapshot()), stopReads).state
      ensures effects == old(effects) + ModesStep(old(Snapshot()), stopReads).effects
    {
      Dispatch(stopReads);
      if timerCount > MAX_TIMER_COUNT {
        mode := Error;
      }
    }

    /** The `switch` of `handleModes`. */
    method Dispatch(stopReads: seq<bool>)
      requires |stopReads| == HOMING_STEPS
      modifies this
      ensures Snapshot() == DispatchStep(old(Snapshot()), stopReads).state
      ensures effects == old(effects) + DispatchStep(old(Snapshot()), stopReads).effects
    {
      match mode {
        case InitPos =>
          HandleModeInitPos(stopReads);
        case RunForOpen =>
          HandleModeRunForOpen();
        case RunForClose =>
          HandleModeRunForClose();
        case DisplayOpening =>
          HandleModeDisplayOpening();
        case DisplayClosing =>
          HandleModeDisplayClosing();
        case InitPosAchieved =>
          HandleModeInitPosAchieved();
        case TimeForFood =>
          HandleModeTimeForFood();
        case _ =>
      }
    }

    method HandleModeInitPosAchieved()
      modifies this
      ensures Snapshot() == InitPosAchievedStep(old(Snapshot()))
      ensures effects == old(effects)
    {
      positionKnown := true;
      doorStatus := Closed;
      mode := DisplayOpening;
      timerCount := 0;
    }

    method HandleModeTimeForFood()
      modifies this
      ensures Snapshot() == TimeForFoodStep(old(Snapshot())).state
      ensures effects == old(effects) + TimeForFoodStep(old(Snapshot())).effects
    {
      mode := DisplayOpening;
      effects := effects + [Wait(SETTLE_DELAY_MS)];
      buttonStatus := OPEN_CLOSE;
    }

    /** The homing sweep: step, then poll the stop pin, at most HOMING_STEPS times. */
    method HandleModeInitPos(stopReads: seq<bool>)
      requires |stopReads| == HOMING_STEPS
      modifies this
      ensures Snapshot() == InitPosStep(old(Snapshot()), stopReads).state
      ensures effects == old(effects) + InitPosStep(old(Snapshot()), stopReads).effects
    {
      var s := 0;
      while s < HOMING_STEPS
        invariant 0 <= s <= HOMING_STEPS
        invariant forall j :: 0 <= j < s ==> !stopReads[j]
        invariant Snapshot() == old(Snapshot())
        invariant effects == old(effects) + Steps(s)
      {
        effects := effects + [StepMotor(MOVE_CLOCKWISE)];
        assert Steps(s) + [StepMotor(MOVE_CLOCKWISE)] == Steps(s + 1);
        if stopReads[s] {
          mode := InitPosAchieved;
          assert FirstHigh(stopReads) == s;
          break;
        }
        s := s + 1;
      }
      timerCount := timerCount + 1;
    }

    method HandleModeRunForOpen()
      modifies this
      ensures Snapshot() == RunForOpenStep(old(Snapshot())).state
      ensures effects == old(effects) + RunForOpenStep(old(Snapshot())).effects
    {
      effects := effects + [MoveMotor(!MOVE_CLOCKWISE, SLIDE_DISTANCE), ReleaseCoils];
      mode := DoNothing;
      doorStatus := Open;
    }

    method HandleModeRunForClose()
      modifies this
      ensures Snapshot() == RunForCloseStep(old(Snapshot())).state
      ensures effects == old(effects) + RunForCloseStep(old(Snapshot())).effects
    {
      effects := effects + [MoveMotor(MOVE_CLOCKWISE, SLIDE_DISTANCE), ReleaseCoils];
      mode := DoNothing;
      doorStatus := Closed;
    }

    method HandleModeDisplayOpening()
      modifies this
      ensures Snapshot() == DisplayOpeningStep(old(Snapshot()))
      ensures effects == old(effects)
    {
      if doorStatus == Closed {
        mode := RunForOpen;
        doorStatus := Unknown;
      }
    }

    method HandleModeDisplayClosing()
      modifies this
      ensures Snapshot() == DisplayClosingStep(old(Snapshot()))
      ensures effects == old(effects)
    {
      mode := RunForClose;
      doorStatus := Unknown;
    }

    /** The screen-blank counters of `updateDisplay`; the rendering itself is not modelled. */
    method UpdateDisplay()
      modifies this
      ensures Snapshot() == DisplayStep(old(Snapshot())).state
      ensures effects == old(effects) + DisplayStep(old(Snapshot())).effects
    {
      if screenBlankDelayCount < SCREEN_BLANK_DELAY {
        screenBlankDelayCount := screenBlankDelayCount + 1;
        showScreen := true;
      } else {
        showScreen := false;
      }
      if !showScreen {
        screenBlankEffectDelay := screenBlankEffectDelay + 1;
        if screenBlankEffectDelay == SCREEN_BLANK_EFFECT_DELAY {
          effects := effects + [BlankPing];
          screenBlankEffectDelay := 0;
        }
      }
    }
  }
}
