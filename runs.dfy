/** Properties of the controller of src/main.cpp over many consecutive cycles. */
module FeederRuns {
  import opened FeederTypes
  import opened FeederLogic
  import opened FeederProperties

  // ------------------------------------------------------ single-cycle steps

  /** Buttons 3 and 2 leave the mode and the homing and door fields alone. */
  lemma SettingButtonsKeepMode(s: State, now: Time, pins: Pins)
    ensures var r := Button2Step(Button3Step(s, pins.button3), now, pins.button2).state;
      && r.mode == s.mode && r.timerCount == s.timerCount
      && r.positionKnown == s.positionKnown && r.doorStatus == s.doorStatus
  {
  }

  /** Button 1 changes the mode only by a door command from idle or `Error`. */
  lemma Button1Mode(s: State, now: Time, high: bool)
    ensures var r := Button1Step(s, now, high).state;
      && r.timerCount == s.timerCount
      && r.positionKnown == s.positionKnown && r.doorStatus == s.doorStatus
      && (|| r.mode == s.mode
          || ((s.mode == DoNothing || s.mode == Error) && r.mode == DoorCommandTarget(s.positionKnown, s.doorStatus)))
  {
  }

  /** Button 1 held from the previous cycle issues no second door command: only the
      stop pin can change the mode, and only to end homing. With `LatchFollowsLevel`,
      a button held down over many cycles commands the door once. */
  lemma HeldButton1NoCommand(s: State, now: Time, pins: Pins)
    requires s.button1Pressed && pins.button1
    ensures ButtonsStep(s, now, pins).state.mode
            == if s.mode == InitPos && pins.stop then InitPosAchieved else s.mode
  {
    var s2 := Button2Step(Button3Step(s, pins.button3), now, pins.button2).state;
    SettingButtonsKeepMode(s, now, pins);
    Button1Idle(s2, now, pins.button1);
  }

  /** What the buttons can do to the homing and door fields and to the mode: a door
      command from idle or `Error`, or the stop pin ending homing. */
  lemma ButtonsModeFacts(a: State, now: Time, pins: Pins)
    ensures var b := ButtonsStep(a, now, pins).state;
      && b.timerCount == a.timerCount && b.positionKnown == a.positionKnown
      && b.doorStatus == a.doorStatus
      && (|| b.mode == a.mode
          || ((a.mode == DoNothing || a.mode == Error) && b.mode == DoorCommandTarget(a.positionKnown, a.doorStatus))
          || (a.mode == InitPos && b.mode == InitPosAchieved))
  {
    SettingButtonsKeepMode(a, now, pins);
    Button1Mode(Button2Step(Button3Step(a, pins.button3), now, pins.button2).state, now, pins.button1);
  }

  /** What the mode switch and the timer bound do to the fields the run-level
      properties speak of. */
  lemma ModesModeFacts(b: State, samples: seq<bool>)
    requires |samples| == HOMING_STEPS
    ensures var m := ModesStep(b, samples).state;
      && (b.mode != InitPos && b.mode != InitPosAchieved ==>
            m.timerCount == b.timerCount && m.positionKnown == b.positionKnown)
      && (m.mode == InitPos || m.mode == InitPosAchieved ==> b.mode == InitPos)
      && (b.timerCount <= MAX_TIMER_COUNT && b.mode == DisplayInit ==> m.mode == DisplayInit)
      && (b.timerCount <= MAX_TIMER_COUNT && b.mode == DisplayOpening && b.doorStatus != Closed ==>
            m.mode == DisplayOpening && m.doorStatus == b.doorStatus)
  {
    DispatchFrame(b, samples);
    ModesFrame(b, samples);
    if b.mode == InitPos {
    } else if b.mode == DisplayOpening {
    }
  }

  /** The display update leaves the fields the run-level properties speak of alone. */
  lemma CycleEndsWithModes(s: State, now: Time, pins: Pins, samples: seq<bool>)
    requires |samples| == HOMING_STEPS
    ensures var m := ModesStep(ButtonsStep(AlarmStep(s, now), now, pins).state, samples).state;
      var c := CycleStep(s, now, pins, samples).state;
      && c.mode == m.mode && c.timerCount == m.timerCount
      && c.positionKnown == m.positionKnown && c.doorStatus == m.doorStatus
  {
    var m := ModesStep(ButtonsStep(AlarmStep(s, now), now, pins).state, samples).state;
    DisplayFrame(m);
  }

  /** Past the homing budget a cycle always ends in `Error` with the counter unchanged. */
  lemma CycleKeepsError(s: State, now: Time, pins: Pins, samples: seq<bool>)
    requires Inv(s) && |samples| == HOMING_STEPS && s.timerCount > MAX_TIMER_COUNT
    ensures CycleStep(s, now, pins, samples).state.mode == Error
    ensures CycleStep(s, now, pins, samples).state.timerCount == s.timerCount
  {
    var a := AlarmStep(s, now);
    AlarmFrame(s, now);
    var b := ButtonsStep(a, now, pins).state;
    ButtonsModeFacts(a, now, pins);
    ModesModeFacts(b, samples);
    ModesForceError(b, samples);
    CycleEndsWithModes(s, now, pins, samples);
  }

  /** No statement selects `InitPos`: a cycle that does not start in it cannot end in it,
      and without homing the position stays unknown. */
  lemma CycleNeverHomes(s: State, now: Time, pins: Pins, samples: seq<bool>)
    requires |samples| == HOMING_STEPS && s.mode != InitPos
    ensures CycleStep(s, now, pins, samples).state.mode != InitPos
    ensures s.mode != InitPosAchieved && !s.positionKnown ==>
      CycleStep(s, now, pins, samples).state.mode != InitPosAchieved
      && !CycleStep(s, now, pins, samples).state.positionKnown
  {
    var a := AlarmStep(s, now);
    AlarmFrame(s, now);
    var b := ButtonsStep(a, now, pins).state;
    ButtonsModeFacts(a, now, pins);
    ModesModeFacts(b, samples);
    CycleEndsWithModes(s, now, pins, samples);
  }

  /** `DisplayInit` has no handler, and neither the alarm nor a door command leaves it. */
  lemma CycleKeepsDisplayInit(s: State, now: Time, pins: Pins, samples: seq<bool>)
    requires Inv(s) && |samples| == HOMING_STEPS && s.mode == DisplayInit
    ensures CycleStep(s, now, pins, samples).state.mode == DisplayInit
  {
    var a := AlarmStep(s, now);
    AlarmFrame(s, now);
    var b := ButtonsStep(a, now, pins).state;
    ButtonsModeFacts(a, now, pins);
    ModesModeFacts(b, samples);
    CycleEndsWithModes(s, now, pins, samples);
  }

  /** `DisplayOpening` with a door not known to be closed is left by no transition. */
  lemma CycleKeepsBlockedOpening(s: State, now: Time, pins: Pins, samples: seq<bool>)
    requires Inv(s) && |samples| == HOMING_STEPS
    requires s.mode == DisplayOpening && s.doorStatus != Closed
    ensures CycleStep(s, now, pins, samples).state.mode == DisplayOpening
    ensures CycleStep(s, now, pins, samples).state.doorStatus == s.doorStatus
  {
    var a := AlarmStep(s, now);
    AlarmFrame(s, now);
    var b := ButtonsStep(a, now, pins).state;
    ButtonsModeFacts(a, now, pins);
    ModesModeFacts(b, samples);
    CycleEndsWithModes(s, now, pins, samples);
  }

  /** In the cycle where the alarm fires the controller already hands over to the
      opening sequence, whatever the buttons do: the settle delay is issued, the focus
      returns to door commands and the door is left as it was. */
  lemma AlarmHandsOver(s: State, now: Time, pins: Pins, samples: seq<bool>)
    requires Inv(s) && |samples| == HOMING_STEPS
    requires s.mode == DoNothing || s.mode == Error
    requires now.hour == s.alarmHr && now.minute == s.alarmMin && now.second == 0
    requires s.timerCount <= MAX_TIMER_COUNT
    ensures var c := CycleStep(s, now, pins, samples);
      && c.state.mode == DisplayOpening
      && c.state.buttonStatus == OPEN_CLOSE
      && c.state.doorStatus == s.doorStatus
      && Wait(SETTLE_DELAY_MS) in c.effects
  {
    var a := AlarmStep(s, now);
    AlarmFrame(s, now);
    var b := ButtonsStep(a, now, pins);
    ButtonsModeFacts(a, now, pins);
    var m := ModesStep(b.state, samples);
    assert m.effects == [Wait(SETTLE_DELAY_MS)];
    CycleEndsWithModes(s, now, pins, samples);
    DisplayFrame(m.state);
  }

  // ------------------------------------------------------------------- runs

  lemma {:induction false} RunPrefix(s: State, ins: seq<Input>)
    requires WellFormed(ins) && ins != []
    ensures WellFormed(ins[1..])
    ensures Run(s, ins).state == Run(CycleStep(s, ins[0].now, ins[0].pins, ins[0].stopReads).state, ins[1..]).state
  {
    assert forall i :: 0 <= i < |ins[1..]| ==> ins[1..][i] == ins[i + 1];
  }

  /** The invariant holds after any number of cycles. */
  lemma {:induction false} RunKeepsInv(s: State, ins: seq<Input>)
    requires Inv(s) && WellFormed(ins)
    ensures Inv(Run(s, ins).state)
    decreases |ins|
  {
    if ins != [] {
      RunPrefix(s, ins);
      CycleKeepsInv(s, ins[0].now, ins[0].pins, ins[0].stopReads);
      RunKeepsInv(CycleStep(s, ins[0].now, ins[0].pins, ins[0].stopReads).state, ins[1..]);
    }
  }

  /** Once the homing counter is past its bound, every later cycle ends in `Error`:
      the only reset of the counter is the end of homing, which `Error` never reaches. */
  lemma {:induction false} ErrorPersists(s: State, ins: seq<Input>)
    requires Inv(s) && WellFormed(ins) && s.timerCount > MAX_TIMER_COUNT
    ensures Run(s, ins).state.mode == Error
    ensures Run(s, ins).state.timerCount == s.timerCount
    decreases |ins|
  {
    if ins != [] {
      var c := CycleStep(s, ins[0].now, ins[0].pins, ins[0].stopReads).state;
      RunPrefix(s, ins);
      CycleKeepsInv(s, ins[0].now, ins[0].pins, ins[0].stopReads);
      CycleKeepsError(s, ins[0].now, ins[0].pins, ins[0].stopReads);
      ErrorPersists(c, ins[1..]);
    }
  }

  /** A run that does not start homing never homes. */
  lemma {:induction false} NeverEntersInitPos(s: State, ins: seq<Input>)
    requires WellFormed(ins) && s.mode != InitPos
    ensures Run(s, ins).state.mode != InitPos
    ensures s.mode != InitPosAchieved && !s.positionKnown ==>
      Run(s, ins).state.mode != InitPosAchieved && !Run(s, ins).state.positionKnown
    decreases |ins|
  {
    if ins != [] {
      var c := CycleStep(s, ins[0].now, ins[0].pins, ins[0].stopReads).state;
      RunPrefix(s, ins);
      CycleNeverHomes(s, ins[0].now, ins[0].pins, ins[0].stopReads);
      NeverEntersInitPos(c, ins[1..]);
    }
  }

  /** From power-on the door position never becomes known, whatever the inputs. */
  lemma PowerOnNeverHomes(door: DoorStatus, ins: seq<Input>)
    requires WellFormed(ins)
    ensures !Run(Initial(door), ins).state.positionKnown
    ensures Run(Initial(door), ins).state.mode != InitPos
  {
    NeverEntersInitPos(Initial(door), ins);
  }

  /** Once a door command with an unknown position has selected `DisplayInit`, the
      controller stays there for good. */
  lemma {:induction false} DisplayInitAbsorbing(s: State, ins: seq<Input>)
    requires Inv(s) && WellFormed(ins) && s.mode == DisplayInit
    ensures Run(s, ins).state.mode == DisplayInit
    decreases |ins|
  {
    if ins != [] {
      var c := CycleStep(s, ins[0].now, ins[0].pins, ins[0].stopReads).state;
      RunPrefix(s, ins);
      CycleKeepsInv(s, ins[0].now, ins[0].pins, ins[0].stopReads);
      CycleKeepsDisplayInit(s, ins[0].now, ins[0].pins, ins[0].stopReads);
      DisplayInitAbsorbing(c, ins[1..]);
    }
  }

  /** An opening request while the door is not known to be closed (the alarm firing
      with the door already open, say) leaves the controller in `DisplayOpening` for good. */
  lemma {:induction false} BlockedOpeningAbsorbing(s: State, ins: seq<Input>)
    requires Inv(s) && WellFormed(ins) && s.mode == DisplayOpening && s.doorStatus != Closed
    ensures Run(s, ins).state.mode == DisplayOpening
    ensures Run(s, ins).state.doorStatus == s.doorStatus
    decreases |ins|
  {
    if ins != [] {
      var c := CycleStep(s, ins[0].now, ins[0].pins, ins[0].stopReads).state;
      RunPrefix(s, ins);
      CycleKeepsInv(s, ins[0].now, ins[0].pins, ins[0].stopReads);
      CycleKeepsBlockedOpening(s, ins[0].now, ins[0].pins, ins[0].stopReads);
      BlockedOpeningAbsorbing(c, ins[1..]);
    }
  }

  // ------------------------------------------------------- presses over runs

  /** The levels of button 3 over a run. */
  function Levels3(ins: seq<Input>): (r: seq<bool>)
    ensures |r| == |ins|
    ensures forall i :: 0 <= i < |ins| ==> r[i] == ins[i].pins.button3
  {
    seq(|ins|, i requires 0 <= i < |ins| => ins[i].pins.button3)
  }

  /** Number of LOW-to-HIGH transitions in `levels`, `prev` being the level before. */
  function RisingEdges(prev: bool, levels: seq<bool>): nat
    decreases |levels|
  {
    if levels == [] then 0
    else (if levels[0] && !prev then 1 else 0) + RisingEdges(levels[0], levels[1..])
  }

  /** A level held HIGH has at most one rising edge, and none if it was already HIGH. */
  lemma {:induction false} HeldHighOneEdge(prev: bool, levels: seq<bool>)
    requires forall i :: 0 <= i < |levels| ==> levels[i]
    ensures RisingEdges(prev, levels) == if levels != [] && !prev then 1 else 0
    decreases |levels|
  {
    if levels != [] {
      HeldHighOneEdge(true, levels[1..]);
    }
  }

  /** One rotation of the focus through its three values. */
  function Turn(b: int): int {
    if b == 2 then 0 else b + 1
  }

  /** The focus after `n` rotations. */
  function Rotate(b: int, n: nat): int
    decreases n
  {
    if n == 0 then b else Rotate(Turn(b), n - 1)
  }

  /** `Turn` is the source's `(buttonStatus + 1) % 3` on the three foci. */
  lemma TurnIsNextFocus(b: int)
    requires 0 <= b < 3
    ensures Turn(b) == (b + 1) % 3 == NextFocus(b)
  {
  }

  /** Rotating `n` times is adding `n` modulo three. */
  lemma {:induction false} RotateIsMod(b: int, n: nat)
    requires 0 <= b < 3
    ensures Rotate(b, n) == (b + n) % 3
    decreases n
  {
    if n > 0 {
      TurnIsNextFocus(b);
      RotateIsMod(Turn(b), n - 1);
      assert (Turn(b) + (n - 1)) % 3 == (b + n) % 3 by {
        ModThreeAdd(b + 1, n - 1);
      }
    }
  }

  /** Adding to a value already reduced modulo three. */
  lemma {:induction false} ModThreeAdd(x: nat, y: nat)
    ensures (x % 3 + y) % 3 == (x + y) % 3
    decreases x
  {
    if x >= 3 {
      ModThreeAdd(x - 3, y);
    }
  }

  /** The first cycle's share of the rising edges of a run. */
  lemma RisingEdgesHead(prev: bool, ins: seq<Input>)
    requires ins != []
    ensures RisingEdges(prev, Levels3(ins))
            == (if Accepted(prev, ins[0].pins.button3) then 1 else 0)
               + RisingEdges(ins[0].pins.button3, Levels3(ins[1..]))
  {
    assert Levels3(ins)[1..] == Levels3(ins[1..]);
  }

  lemma AlarmFreeTail(ins: seq<Input>)
    requires ins != [] && forall i :: 0 <= i < |ins| ==> ins[i].now.second != 0
    ensures forall i :: 0 <= i < |ins[1..]| ==> ins[1..][i].now.second != 0
  {
    forall i | 0 <= i < |ins[1..]| ensures ins[1..][i].now.second != 0 {
      assert ins[1..][i] == ins[i + 1];
    }
  }

  /** The first cycle of a run away from alarm ticks, as `FocusFollowsPresses` needs it:
      the state `c` it leads to, from which the rest of the run continues. */
  lemma FocusRunHead(s: State, ins: seq<Input>) returns (c: State)
    requires Inv(s) && WellFormed(ins) && ins != [] && ins[0].now.second != 0
    ensures WellFormed(ins[1..]) && Run(s, ins).state == Run(c, ins[1..]).state
    ensures Inv(c) && c.button3Pressed == ins[0].pins.button3
    ensures c.buttonStatus == if Accepted(s.button3Pressed, ins[0].pins.button3) then Turn(s.buttonStatus) else s.buttonStatus
  {
    c := CycleStep(s, ins[0].now, ins[0].pins, ins[0].stopReads).state;
    RunPrefix(s, ins);
    CycleKeepsInv(s, ins[0].now, ins[0].pins, ins[0].stopReads);
    FocusCycle(s, ins[0].now, ins[0].pins, ins[0].stopReads);
    LatchFollowsLevel(s, ins[0].now, ins[0].pins, ins[0].stopReads);
    TurnIsNextFocus(s.buttonStatus);
  }

  /** Away from alarm ticks, the focus after a run is the starting focus rotated once
      per rising edge of button 3: the latch makes each rising edge exactly one
      accepted press, and a line held HIGH is not acted upon again. */
  lemma {:induction false} FocusFollowsPresses(s: State, ins: seq<Input>)
    requires Inv(s) && WellFormed(ins)
    requires forall i :: 0 <= i < |ins| ==> ins[i].now.second != 0
    ensures Run(s, ins).state.buttonStatus == Rotate(s.buttonStatus, RisingEdges(s.button3Pressed, Levels3(ins)))
    decreases |ins|
  {
    if ins != [] {
      var c := FocusRunHead(s, ins);
      AlarmFreeTail(ins);
      FocusFollowsPresses(c, ins[1..]);
      RisingEdgesHead(s.button3Pressed, ins);
    }
  }

  /** Button 3 held down over any number of cycles away from alarm ticks rotates the
      focus at most once: once if it was released before, not at all otherwise. */
  lemma HeldButtonRotatesOnce(s: State, ins: seq<Input>)
    requires Inv(s) && WellFormed(ins)
    requires forall i :: 0 <= i < |ins| ==> ins[i].now.second != 0 && ins[i].pins.button3
    ensures Run(s, ins).state.buttonStatus
            == if ins != [] && !s.button3Pressed then (s.buttonStatus + 1) % 3 else s.buttonStatus
  {
    FocusFollowsPresses(s, ins);
    HeldHighOneEdge(s.button3Pressed, Levels3(ins));
    TurnIsNextFocus(s.buttonStatus);
  }

  /** Three presses of button 3 away from alarm ticks restore the focus. */
  lemma ThreePressesRestoreFocus(s: State, ins: seq<Input>)
    requires Inv(s) && WellFormed(ins)
    requires forall i :: 0 <= i < |ins| ==> ins[i].now.second != 0
    requires RisingEdges(s.button3Pressed, Levels3(ins)) == 3
    ensures Run(s, ins).state.buttonStatus == s.buttonStatus
  {
    FocusFollowsPresses(s, ins);
    var b := s.buttonStatus;
    assert Rotate(b, 3) == Turn(Turn(Turn(b)));
  }

  // ------------------------------------------------------ door round trip

  /** With the door focus and a known position, a door-command press from idle starts
      the motion in the same cycle: the door is marked unknown and the run mode for
      the opposite position is selected. */
  lemma PressStartsMotion(s: State, now: Time, samples: seq<bool>)
    requires Inv(s) && |samples| == HOMING_STEPS && now.second != 0
    requires s.mode == DoNothing && s.positionKnown && s.buttonStatus == OPEN_CLOSE && !s.button1Pressed
    ensures var c := CycleStep(s, now, Pins(true, false, false, false), samples).state;
      && c.mode == (if s.doorStatus == Closed then RunForOpen else RunForClose)
      && c.doorStatus == Unknown && c.positionKnown && c.buttonStatus == OPEN_CLOSE
      && c.button1Pressed && c.timerCount == s.timerCount
  {
    var pins := Pins(true, false, false, false);
    var a := AlarmStep(s, now);
    AlarmFrame(s, now);
    var b := ButtonsStep(a, now, pins).state;
    ButtonsFrame(a, now, pins);
    DoorCommand(a, now, pins);
    DispatchFrame(b, samples);
    ModesFrame(b, samples);
    CycleFrame(s, now, pins, samples);
  }

  /** The next cycle, with the button released, runs the slide and ends idle with the
      door open (after `RunForOpen`) or closed (after `RunForClose`). */
  lemma MotionCompletes(s: State, now: Time, samples: seq<bool>)
    requires Inv(s) && |samples| == HOMING_STEPS && now.second != 0
    requires s.mode == RunForOpen || s.mode == RunForClose
    ensures var c := CycleStep(s, now, Pins(false, false, false, false), samples);
      && c.state.mode == DoNothing
      && c.state.doorStatus == (if s.mode == RunForOpen then Open else Closed)
      && c.state.positionKnown == s.positionKnown && c.state.buttonStatus == s.buttonStatus
      && !c.state.button1Pressed && c.state.timerCount == s.timerCount
      && MoveMotor(s.mode == RunForClose, SLIDE_DISTANCE) in c.effects
  {
    var pins := Pins(false, false, false, false);
    var a := AlarmStep(s, now);
    AlarmFrame(s, now);
    var b := ButtonsStep(a, now, pins).state;
    ButtonsFrame(a, now, pins);
    DispatchFrame(b, samples);
    ModesFrame(b, samples);
    CycleFrame(s, now, pins, samples);
    var m := ModesStep(b, samples);
    assert MoveMotor(s.mode == RunForClose, SLIDE_DISTANCE) in m.effects;
  }

  /** Press, release, press, release from idle with a closed door opens and then closes
      the door again; the position stays known throughout. */
  lemma DoorRoundTrip(s: State, now: Time, samples: seq<bool>)
    requires Inv(s) && |samples| == HOMING_STEPS && now.second != 0
    requires s.mode == DoNothing && s.positionKnown && s.doorStatus == Closed
    requires s.buttonStatus == OPEN_CLOSE && !s.button1Pressed
    ensures var press, release := Pins(true, false, false, false), Pins(false, false, false, false);
      var c1 := CycleStep(s, now, press, samples).state;
      var c2 := CycleStep(c1, now, release, samples).state;
      var c3 := CycleStep(c2, now, press, samples).state;
      var c4 := CycleStep(c3, now, release, samples).state;
      && c2.mode == DoNothing && c2.doorStatus == Open && c2.positionKnown
      && c4.mode == DoNothing && c4.doorStatus == Closed && c4.positionKnown
  {
    var press, release := Pins(true, false, false, false), Pins(false, false, false, false);
    PressStartsMotion(s, now, samples);
    var c1 := CycleStep(s, now, press, samples).state;
    CycleKeepsInv(s, now, press, samples);
    MotionCompletes(c1, now, samples);
    var c2 := CycleStep(c1, now, release, samples).state;
    CycleKeepsInv(c1, now, release, samples);
    PressStartsMotion(c2, now, samples);
    var c3 := CycleStep(c2, now, press, samples).state;
    CycleKeepsInv(c2, now, press, samples);
    MotionCompletes(c3, now, samples);
  }
}
