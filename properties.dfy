/** What the controller of src/main.cpp guarantees, stated about the step
    functions of FeederLogic. */
module FeederProperties {
  import opened FeederTypes
  import opened FeederLogic

  // ------------------------------------------------------------ invariant

  lemma InitialInv(door: DoorStatus)
    ensures Inv(Initial(door))
  {
  }

  /** Past the timer bound, nothing before `handleModes` can reach a homing mode. */
  predicate NoHomingPastBound(s: State) {
    s.timerCount > MAX_TIMER_COUNT ==> s.mode != InitPos && s.mode != InitPosAchieved
  }

  lemma AlarmKeepsSettings(s: State, now: Time)
    requires Inv(s)
    ensures Settings(AlarmStep(s, now)) && NoHomingPastBound(AlarmStep(s, now))
  {
  }

  lemma Button3KeepsSettings(s: State, high: bool)
    requires Settings(s) && NoHomingPastBound(s)
    ensures Settings(Button3Step(s, high)) && NoHomingPastBound(Button3Step(s, high))
  {
  }

  lemma Button2KeepsSettings(s: State, now: Time, high: bool)
    requires Settings(s) && NoHomingPastBound(s)
    ensures Settings(Button2Step(s, now, high).state) && NoHomingPastBound(Button2Step(s, now, high).state)
  {
    AlarmMinStep(s.alarmMin);
  }

  lemma Button1KeepsSettings(s: State, now: Time, high: bool)
    requires Settings(s) && NoHomingPastBound(s)
    ensures Settings(Button1Step(s, now, high).state) && NoHomingPastBound(Button1Step(s, now, high).state)
  {
  }

  lemma ButtonsKeepSettings(s: State, now: Time, pins: Pins)
    requires Settings(s) && NoHomingPastBound(s)
    ensures Settings(ButtonsStep(s, now, pins).state) && NoHomingPastBound(ButtonsStep(s, now, pins).state)
  {
    var s3 := Button3Step(s, pins.button3);
    Button3KeepsSettings(s, pins.button3);
    var o2 := Button2Step(s3, now, pins.button2);
    Button2KeepsSettings(s3, now, pins.button2);
    Button1KeepsSettings(o2.state, now, pins.button1);
  }

  lemma ModesRestoreInv(s: State, samples: seq<bool>)
    requires Settings(s) && NoHomingPastBound(s) && |samples| == HOMING_STEPS
    ensures Inv(ModesStep(s, samples).state)
  {
    DispatchKeepsSettings(s, samples);
  }

  lemma DispatchKeepsSettings(s: State, samples: seq<bool>)
    requires Settings(s) && NoHomingPastBound(s) && |samples| == HOMING_STEPS
    ensures Settings(DispatchStep(s, samples).state)
    ensures DispatchStep(s, samples).state.mode != TimeForFood
  {
    if s.mode == InitPos {
    } else if s.mode == InitPosAchieved {
    } else if s.mode == TimeForFood {
    } else if s.mode == DisplayOpening {
    } else if s.mode == DisplayClosing {
    }
  }

  lemma DisplayKeepsInv(s: State)
    requires Inv(s)
    ensures Inv(DisplayStep(s).state)
  {
  }

  /** Every cycle keeps the setting ranges, the counter bounds and the timer/error link. */
  lemma CycleKeepsInv(s: State, now: Time, pins: Pins, samples: seq<bool>)
    requires Inv(s) && |samples| == HOMING_STEPS
    ensures Inv(CycleStep(s, now, pins, samples).state)
  {
    var a := AlarmStep(s, now);
    AlarmKeepsSettings(s, now);
    var b := ButtonsStep(a, now, pins).state;
    ButtonsKeepSettings(a, now, pins);
    var m := ModesStep(b, samples).state;
    ModesRestoreInv(b, samples);
    DisplayKeepsInv(m);
  }

  /** Adding ten minutes modulo 60 keeps the alarm minute a multiple of ten. */
  lemma AlarmMinStep(m: int)
    requires 0 <= m < 60 && m % 10 == 0
    ensures Rem(m + 10, 60) % 10 == 0
  {
  }

  // ----------------------------------------------------------------- frames

  /** The alarm check writes only the clock fields and possibly the mode. */
  lemma AlarmFrame(s: State, now: Time)
    ensures var r := AlarmStep(s, now);
      && r == s.(clockMin := now.minute, clockHr := now.hour, mode := r.mode)
      && (r.mode == s.mode || r.mode == TimeForFood)
  {
  }

  lemma Button3Frame(s: State, high: bool)
    ensures var r := Button3Step(s, high);
      && r == s.(button3Pressed := high, buttonStatus := r.buttonStatus,
                 screenBlankDelayCount := r.screenBlankDelayCount)
      && r.buttonStatus == (if Accepted(s.button3Pressed, high) then NextFocus(s.buttonStatus) else s.buttonStatus)
      && r.screenBlankDelayCount == (if Accepted(s.button3Pressed, high) then 0 else s.screenBlankDelayCount)
  {
  }

  lemma Button2Frame(s: State, now: Time, high: bool)
    ensures var r := Button2Step(s, now, high).state;
      && r == s.(button2Pressed := high, screenBlankDelayCount := r.screenBlankDelayCount,
                 alarmMin := r.alarmMin, clockMin := r.clockMin)
      && r.screenBlankDelayCount == (if Accepted(s.button2Pressed, high) then 0 else s.screenBlankDelayCount)
      && (r.clockMin == s.clockMin || r.clockMin == Rem(s.clockMin + 1, 60))
      && (s.buttonStatus == OPEN_CLOSE ==> r.clockMin == s.clockMin && r.alarmMin == s.alarmMin
                                            && Button2Step(s, now, high).effects == [])
  {
  }

  lemma Button1Frame(s: State, now: Time, high: bool)
    ensures var r := Button1Step(s, now, high).state;
      && r == s.(button1Pressed := high, screenBlankDelayCount := r.screenBlankDelayCount,
                 alarmHr := r.alarmHr, clockHr := r.clockHr, mode := r.mode)
      && r.screenBlankDelayCount == (if Accepted(s.button1Pressed, high) then 0 else s.screenBlankDelayCount)
      && (r.mode == s.mode || r.mode == DoorCommandTarget(s.positionKnown, s.doorStatus))
      && (r.clockHr == s.clockHr || r.clockHr == Rem(s.clockHr + 1, 24))
      && (s.buttonStatus == OPEN_CLOSE ==> r.clockHr == s.clockHr && r.alarmHr == s.alarmHr
                                            && Button1Step(s, now, high).effects == [])
  {
  }

  /** A button-2 line that reads LOW, or HIGH with its latch already set, only updates
      the latch: no setting changes and nothing is written to the clock. */
  lemma Button2Idle(s: State, now: Time, high: bool)
    requires !Accepted(s.button2Pressed, high)
    ensures Button2Step(s, now, high) == Outcome(s.(button2Pressed := high), [])
  {
  }

  /** Likewise for button 1: a held or released button issues no door command. */
  lemma Button1Idle(s: State, now: Time, high: bool)
    requires !Accepted(s.button1Pressed, high)
    ensures Button1Step(s, now, high) == Outcome(s.(button1Pressed := high), [])
  {
  }

  /** `handleButtons` touches only the latches, the settings, the idle counter and the
      mode, and the only modes it can select are a door command's target and the end
      of homing. */
  lemma ButtonsFrame(s: State, now: Time, pins: Pins)
    ensures var r := ButtonsStep(s, now, pins).state;
      && r == s.(button1Pressed := pins.button1, button2Pressed := pins.button2,
                 button3Pressed := pins.button3, screenBlankDelayCount := r.screenBlankDelayCount,
                 buttonStatus := r.buttonStatus, alarmHr := r.alarmHr, alarmMin := r.alarmMin,
                 clockHr := r.clockHr, clockMin := r.clockMin, mode := r.mode)
      && r.buttonStatus == (if Accepted(s.button3Pressed, pins.button3) then NextFocus(s.buttonStatus) else s.buttonStatus)
      && r.screenBlankDelayCount == (if Accepted(s.button1Pressed, pins.button1) || Accepted(s.button2Pressed, pins.button2)
                                        || Accepted(s.button3Pressed, pins.button3)
                                     then 0 else s.screenBlankDelayCount)
      && (r.mode == s.mode || r.mode == DoorCommandTarget(s.positionKnown, s.doorStatus)
          || (s.mode == InitPos && r.mode == InitPosAchieved))
  {
    var s3 := Button3Step(s, pins.button3);
    Button3Frame(s, pins.button3);
    var s2 := Button2Step(s3, now, pins.button2).state;
    Button2Frame(s3, now, pins.button2);
    var s1 := Button1Step(s2, now, pins.button1).state;
    Button1Frame(s2, now, pins.button1);
  }

  /** The mode switch touches only the position flag, the door, the mode, the homing
      counter and the focus, and never leaves the mode at `TimeForFood`. */
  lemma DispatchFrame(s: State, samples: seq<bool>)
    requires |samples| == HOMING_STEPS
    ensures var r := DispatchStep(s, samples).state;
      && r == s.(positionKnown := r.positionKnown, doorStatus := r.doorStatus, mode := r.mode,
                 timerCount := r.timerCount, buttonStatus := r.buttonStatus)
      && (s.mode != TimeForFood ==> r.buttonStatus == s.buttonStatus)
      && r.mode != TimeForFood
      && (s.mode != InitPos && s.mode != InitPosAchieved ==> r.timerCount == s.timerCount)
  {
    DispatchFields(s, samples);
    DispatchFacts(s, samples);
  }

  lemma DispatchFields(s: State, samples: seq<bool>)
    requires |samples| == HOMING_STEPS
    ensures var r := DispatchStep(s, samples).state;
      r == s.(positionKnown := r.positionKnown, doorStatus := r.doorStatus, mode := r.mode,
              timerCount := r.timerCount, buttonStatus := r.buttonStatus)
  {
    var o := DispatchStep(s, samples);
    if s.mode == InitPos {
      assert o == InitPosStep(s, samples);
    } else if s.mode == InitPosAchieved {
      assert o.state == InitPosAchievedStep(s);
    } else if s.mode == TimeForFood {
      assert o == TimeForFoodStep(s);
    } else if s.mode == RunForOpen {
      assert o == RunForOpenStep(s);
    } else if s.mode == RunForClose {
      assert o == RunForCloseStep(s);
    } else if s.mode == DisplayOpening {
      assert o.state == DisplayOpeningStep(s);
    } else if s.mode == DisplayClosing {
      assert o.state == DisplayClosingStep(s);
    } else {
      assert o.state == s;
    }
  }

  lemma DispatchFacts(s: State, samples: seq<bool>)
    requires |samples| == HOMING_STEPS
    ensures var r := DispatchStep(s, samples).state;
      && (s.mode != TimeForFood ==> r.buttonStatus == s.buttonStatus)
      && r.mode != TimeForFood
      && (s.mode != InitPos && s.mode != InitPosAchieved ==> r.timerCount == s.timerCount)
  {
    var o := DispatchStep(s, samples);
    if s.mode == InitPos {
      assert o == InitPosStep(s, samples);
    } else if s.mode == InitPosAchieved {
      assert o.state == InitPosAchievedStep(s);
    } else if s.mode == TimeForFood {
      assert o == TimeForFoodStep(s);
    } else if s.mode == RunForOpen {
      assert o == RunForOpenStep(s);
    } else if s.mode == RunForClose {
      assert o == RunForCloseStep(s);
    } else if s.mode == DisplayOpening {
      assert o.state == DisplayOpeningStep(s);
    } else if s.mode == DisplayClosing {
      assert o.state == DisplayClosingStep(s);
    } else {
      assert o.state == s;
    }
  }

  lemma ModesFrame(s: State, samples: seq<bool>)
    requires |samples| == HOMING_STEPS
    ensures var d := DispatchStep(s, samples);
      ModesStep(s, samples) == Outcome(d.state.(mode := ModesStep(s, samples).state.mode), d.effects)
  {
  }

  /** The display update touches only the screen fields. */
  lemma DisplayFrame(s: State)
    ensures var r := DisplayStep(s).state;
      r == s.(screenBlankDelayCount := r.screenBlankDelayCount, showScreen := r.showScreen,
              screenBlankEffectDelay := r.screenBlankEffectDelay)
  {
  }

  /** After the buttons, the rest of the cycle touches only the homing and door
      fields, the mode, the focus and the screen fields. */
  lemma CycleFrame(s: State, now: Time, pins: Pins, samples: seq<bool>)
    requires |samples| == HOMING_STEPS
    ensures var b := ButtonsStep(AlarmStep(s, now), now, pins).state;
      var c := CycleStep(s, now, pins, samples).state;
      c == b.(positionKnown := c.positionKnown, doorStatus := c.doorStatus, mode := c.mode,
              timerCount := c.timerCount, buttonStatus := c.buttonStatus,
              screenBlankDelayCount := c.screenBlankDelayCount, showScreen := c.showScreen,
              screenBlankEffectDelay := c.screenBlankEffectDelay)
  {
    var b := ButtonsStep(AlarmStep(s, now), now, pins).state;
    DispatchFrame(b, samples);
    ModesFrame(b, samples);
    DisplayFrame(ModesStep(b, samples).state);
  }

  // ----------------------------------------------------- buttons and latches

  /** After a cycle each latch holds the level its line was read at, so a press is
      acted upon exactly when the line goes from LOW in one cycle to HIGH in the next. */
  lemma LatchFollowsLevel(s: State, now: Time, pins: Pins, samples: seq<bool>)
    requires |samples| == HOMING_STEPS
    ensures CycleStep(s, now, pins, samples).state.button1Pressed == pins.button1
    ensures CycleStep(s, now, pins, samples).state.button2Pressed == pins.button2
    ensures CycleStep(s, now, pins, samples).state.button3Pressed == pins.button3
  {
    ButtonsFrame(AlarmStep(s, now), now, pins);
    CycleFrame(s, now, pins, samples);
  }

  /** Rotation stays within the three foci and three rotations are the identity. */
  lemma FocusRotation(b: int)
    requires 0 <= b < 3
    ensures 0 <= NextFocus(b) < 3 && NextFocus(b) != b
    ensures NextFocus(NextFocus(NextFocus(b))) == b
  {
  }

  /** Outside an alarm tick, a cycle advances the focus by one exactly when button 3
      is accepted, and leaves it alone otherwise. */
  lemma FocusCycle(s: State, now: Time, pins: Pins, samples: seq<bool>)
    requires Inv(s) && |samples| == HOMING_STEPS && now.second != 0
    ensures CycleStep(s, now, pins, samples).state.buttonStatus
            == if Accepted(s.button3Pressed, pins.button3) then (s.buttonStatus + 1) % 3 else s.buttonStatus
  {
    var a := AlarmStep(s, now);
    AlarmFrame(s, now);
    var b := ButtonsStep(a, now, pins).state;
    ButtonsFrame(a, now, pins);
    DispatchFrame(b, samples);
    ModesFrame(b, samples);
    DisplayFrame(ModesStep(b, samples).state);
  }

  /** Every accepted press wakes the screen: the idle counter restarts, so after the
      cycle's display update it stands at one and the screen is shown. */
  lemma PressWakesScreen(s: State, now: Time, pins: Pins, samples: seq<bool>)
    requires |samples| == HOMING_STEPS
    requires Accepted(s.button1Pressed, pins.button1) || Accepted(s.button2Pressed, pins.button2)
             || Accepted(s.button3Pressed, pins.button3)
    ensures CycleStep(s, now, pins, samples).state.screenBlankDelayCount == 1
    ensures CycleStep(s, now, pins, samples).state.showScreen
  {
    var a := AlarmStep(s, now);
    AlarmFrame(s, now);
    var b := ButtonsStep(a, now, pins).state;
    ButtonsFrame(a, now, pins);
    DispatchFrame(b, samples);
    ModesFrame(b, samples);
  }

  /** Button 2 in the alarm focus moves the alarm minute forward by ten, wrapping at
      the hour; in the clock focus it moves the clock minute by one and writes the
      clock with the minute it has just computed. */
  lemma MinuteButton(s: State, now: Time)
    requires Inv(s) && !s.button2Pressed
    ensures s.buttonStatus == SET_ALARM ==>
      Button2Step(s, now, true) == Outcome(s.(alarmMin := (s.alarmMin + 10) % 60,
                                               screenBlankDelayCount := 0, button2Pressed := true), [])
    ensures s.buttonStatus == SET_TIME && 0 <= s.clockMin ==>
      Button2Step(s, now, true) == Outcome(s.(clockMin := (s.clockMin + 1) % 60,
                                               screenBlankDelayCount := 0, button2Pressed := true),
                                           [SetRtc(now.hour, (s.clockMin + 1) % 60)])
  {
  }

  /** Button 1 in the clock focus moves the clock hour forward, wrapping at midnight,
      and writes the clock; in the alarm focus it moves the alarm hour. */
  lemma HourButton(s: State, now: Time)
    requires Inv(s) && !s.button1Pressed
    ensures s.buttonStatus == SET_TIME && 0 <= s.clockHr ==>
      Button1Step(s, now, true) == Outcome(s.(clockHr := (s.clockHr + 1) % 24,
                                               screenBlankDelayCount := 0, button1Pressed := true),
                                           [SetRtc((s.clockHr + 1) % 24, now.minute)])
    ensures s.buttonStatus == SET_ALARM ==>
      Button1Step(s, now, true) == Outcome(s.(alarmHr := (s.alarmHr + 1) % 24,
                                               screenBlankDelayCount := 0, button1Pressed := true), [])
  {
  }

  /** With the focus on door commands, buttons 1 and 2 change neither the alarm nor
      the clock and write nothing to the clock. */
  lemma DoorFocusLeavesSettings(s: State, now: Time, pins: Pins)
    requires s.buttonStatus == OPEN_CLOSE && !Accepted(s.button3Pressed, pins.button3)
    ensures var r := ButtonsStep(s, now, pins);
      && r.state.alarmHr == s.alarmHr && r.state.alarmMin == s.alarmMin
      && r.state.clockHr == s.clockHr && r.state.clockMin == s.clockMin
      && r.effects == []
  {
    var s3 := Button3Step(s, pins.button3);
    Button3Frame(s, pins.button3);
    var s2 := Button2Step(s3, now, pins.button2).state;
    Button2Frame(s3, now, pins.button2);
    Button1Frame(s2, now, pins.button1);
  }

  /** When the clock reads a valid time, the cycle leaves the clock fields in range. */
  lemma ClockInRange(s: State, now: Time, pins: Pins, samples: seq<bool>)
    requires |samples| == HOMING_STEPS && now.hour < 24 && now.minute < 60
    ensures 0 <= CycleStep(s, now, pins, samples).state.clockHr < 24
    ensures 0 <= CycleStep(s, now, pins, samples).state.clockMin < 60
  {
    var a := AlarmStep(s, now);
    AlarmFrame(s, now);
    var s3 := Button3Step(a, pins.button3);
    Button3Frame(a, pins.button3);
    var s2 := Button2Step(s3, now, pins.button2).state;
    Button2Frame(s3, now, pins.button2);
    var s1 := Button1Step(s2, now, pins.button1).state;
    Button1Frame(s2, now, pins.button1);
    var b := ButtonsStep(a, now, pins).state;
    assert b.clockHr == s1.clockHr && b.clockMin == s1.clockMin;
    DispatchFrame(b, samples);
    ModesFrame(b, samples);
    DisplayFrame(ModesStep(b, samples).state);
  }

  /** In the clock focus, pressing buttons 2 and 1 in the same cycle writes the clock
      twice, and the second write carries the minute read at the start of the cycle:
      the minute step does not reach the clock. */
  lemma BothClockButtonsLoseMinute(s: State, now: Time, pins: Pins)
    requires s.buttonStatus == SET_TIME && !Accepted(s.button3Pressed, pins.button3)
    requires Accepted(s.button2Pressed, pins.button2) && Accepted(s.button1Pressed, pins.button1)
    requires now.hour < 24 && now.minute < 60
    ensures ButtonsStep(AlarmStep(s, now), now, pins).effects
            == [SetRtc(now.hour, (now.minute + 1) % 60), SetRtc((now.hour + 1) % 24, now.minute)]
  {
  }

  // ------------------------------------------------------------------ alarm

  /** The alarm check moves to `TimeForFood` exactly when the controller is idle or in
      error, the clock's hour and minute equal the alarm's and the second is zero;
      otherwise it leaves the mode alone. Either way the clock fields take the reading. */
  lemma AlarmCheck(s: State, now: Time)
    requires s.mode != TimeForFood
    ensures var r := AlarmStep(s, now);
      && (r.mode == TimeForFood <==>
            (s.mode == DoNothing || s.mode == Error)
            && now.hour == s.alarmHr && now.minute == s.alarmMin && now.second == 0)
      && (r.mode != TimeForFood ==> r.mode == s.mode)
      && r.clockHr == now.hour && r.clockMin == now.minute
      && r == s.(mode := r.mode, clockHr := now.hour, clockMin := now.minute)
  {
  }

  // ---------------------------------------------------------- door commands

  /** An accepted button-1 press with the door focus selects the opening, closing or
      initialising display from the idle and error modes, and changes no other mode. */
  lemma DoorCommand(s: State, now: Time, pins: Pins)
    requires s.buttonStatus == OPEN_CLOSE && !Accepted(s.button3Pressed, pins.button3)
    requires Accepted(s.button1Pressed, pins.button1)
    ensures ButtonsStep(s, now, pins).state.mode ==
      if s.mode == DoNothing || s.mode == Error then
        (if !s.positionKnown then DisplayInit
         else if s.doorStatus == Closed then DisplayOpening
         else DisplayClosing)
      else if s.mode == InitPos && pins.stop then InitPosAchieved
      else s.mode
  {
    var s3 := Button3Step(s, pins.button3);
    Button3Frame(s, pins.button3);
    var s2 := Button2Step(s3, now, pins.button2).state;
    Button2Frame(s3, now, pins.button2);
  }

  // ------------------------------------------------------------- door motion

  /** Opening takes two dispatches: the door is first marked unknown, then the motor
      makes one full slide and the door is marked open. */
  lemma OpeningSequence(s: State, samples: seq<bool>)
    requires |samples| == HOMING_STEPS && s.timerCount <= MAX_TIMER_COUNT
    requires s.mode == DisplayOpening && s.doorStatus == Closed
    ensures var m1 := ModesStep(s, samples);
      var m2 := ModesStep(m1.state, samples);
      && m1.state == s.(mode := RunForOpen, doorStatus := Unknown) && m1.effects == []
      && m2.state == s.(mode := DoNothing, doorStatus := Open)
      && m2.effects == [MoveMotor(!MOVE_CLOCKWISE, SLIDE_DISTANCE), ReleaseCoils]
  {
  }

  /** `DisplayOpening` with the door not known to be closed does nothing. */
  lemma OpeningGuard(s: State, samples: seq<bool>)
    requires |samples| == HOMING_STEPS && s.timerCount <= MAX_TIMER_COUNT
    requires s.mode == DisplayOpening && s.doorStatus != Closed
    ensures ModesStep(s, samples) == Outcome(s, [])
  {
  }

  /** Closing takes two dispatches, mirroring the opening in the other direction. */
  lemma ClosingSequence(s: State, samples: seq<bool>)
    requires |samples| == HOMING_STEPS && s.timerCount <= MAX_TIMER_COUNT
    requires s.mode == DisplayClosing
    ensures var m1 := ModesStep(s, samples);
      var m2 := ModesStep(m1.state, samples);
      && m1.state == s.(mode := RunForClose, doorStatus := Unknown) && m1.effects == []
      && m2.state == s.(mode := DoNothing, doorStatus := Closed)
      && m2.effects == [MoveMotor(MOVE_CLOCKWISE, SLIDE_DISTANCE), ReleaseCoils]
  {
  }

  // ----------------------------------------------------------------- homing

  /** One sweep counts one homing attempt, reaches `InitPosAchieved` exactly when one
      of the sampled stop-pin reads is HIGH, and issues one motor step per sample read,
      up to and including the first HIGH one. */
  lemma HomingSweep(s: State, samples: seq<bool>)
    requires |samples| == HOMING_STEPS && s.mode == InitPos
    ensures var r := InitPosStep(s, samples);
      && r.state.timerCount == s.timerCount + 1
      && (r.state.mode == InitPosAchieved <==> exists j :: 0 <= j < |samples| && samples[j])
      && (r.state.mode != InitPosAchieved ==> r.state.mode == InitPos)
      && 1 <= |r.effects| <= HOMING_STEPS
      && (forall i :: 0 <= i < |r.effects| ==> r.effects[i] == StepMotor(MOVE_CLOCKWISE))
      && (forall j :: 0 <= j < |r.effects| - 1 ==> !samples[j])
      && (r.state.mode == InitPosAchieved ==> samples[|r.effects| - 1])
      && r.state == s.(mode := r.state.mode, timerCount := s.timerCount + 1)
  {
    var k := FirstHigh(samples);
    if exists j :: 0 <= j < |samples| && samples[j] {
      var j :| 0 <= j < |samples| && samples[j];
      assert k <= j;
    }
  }

  /** Once the stop position is reached the door is taken as closed, the position as
      known, the attempt counter is cleared and the opening display follows. */
  lemma HomingAchieved(s: State, samples: seq<bool>)
    requires |samples| == HOMING_STEPS && s.mode == InitPosAchieved
    ensures ModesStep(s, samples) == Outcome(s.(positionKnown := true, doorStatus := Closed,
                                                 mode := DisplayOpening, timerCount := 0), [])
  {
  }

  /** A sweep that finds no stop keeps homing while attempts remain and ends in `Error`
      on the attempt that takes the counter past MAX_TIMER_COUNT. */
  lemma HomingBudget(s: State, samples: seq<bool>)
    requires |samples| == HOMING_STEPS && s.mode == InitPos
    requires forall j :: 0 <= j < |samples| ==> !samples[j]
    ensures ModesStep(s, samples).state.mode == if s.timerCount + 1 > MAX_TIMER_COUNT then Error else InitPos
    ensures ModesStep(s, samples).state.timerCount == s.timerCount + 1
  {
  }

  /** After `handleModes`, a counter past the bound always means `Error`. */
  lemma ModesForceError(s: State, samples: seq<bool>)
    requires |samples| == HOMING_STEPS
    ensures ModesStep(s, samples).state.timerCount > MAX_TIMER_COUNT ==> ModesStep(s, samples).state.mode == Error
  {
  }

  // ---------------------------------------------------------- screen blanking

  /** The idle counter saturates at SCREEN_BLANK_DELAY and the screen shows while it
      is below; once blank, the ping counter wraps at SCREEN_BLANK_EFFECT_DELAY and a
      ping is drawn exactly when it wraps. */
  lemma DisplayCounters(s: State)
    requires Inv(s)
    ensures var r := DisplayStep(s);
      && r.state.screenBlankDelayCount == (if s.screenBlankDelayCount < SCREEN_BLANK_DELAY
                                           then s.screenBlankDelayCount + 1 else SCREEN_BLANK_DELAY)
      && (r.state.showScreen <==> s.screenBlankDelayCount < SCREEN_BLANK_DELAY)
      && (r.state.showScreen ==> r.state.screenBlankEffectDelay == s.screenBlankEffectDelay)
      && (!r.state.showScreen ==> r.state.screenBlankEffectDelay
                                  == (s.screenBlankEffectDelay + 1) % SCREEN_BLANK_EFFECT_DELAY)
      && (r.effects == [BlankPing] <==>
            !r.state.showScreen && s.screenBlankEffectDelay == SCREEN_BLANK_EFFECT_DELAY - 1)
      && (r.effects != [BlankPing] ==> r.effects == [])
  {
  }
}
