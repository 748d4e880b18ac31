# Pet-feeder door controller — verified model

This project models the control loop of an Arduino pet-feeder door
(`src/main.cpp`). A sliding door is driven by a stepper motor. Three latched
push buttons change the input focus (door commands, set time, set alarm), set
the clock and the alarm, or command the door. A stop switch marks the home
position during a homing sweep. A real-time clock fires a daily alarm that
opens the door. An OLED screen blanks after a period without button presses.

The firmware keeps its whole state in globals and runs `loop()` forever. Each
iteration reads the clock, checks the alarm, handles the buttons and the stop
pin, dispatches on `mode` and updates the screen-blank counters.

The model has four modules:

- `FeederTypes` (`types.dfy`): the compiled-in constants, the `Mode` and door
  enumerations, the inputs sampled in one cycle (`Time`, `Pins`, `Input`), the
  hardware effects the firmware issues (`Action`: clock writes, motor steps,
  full slides, coil release, delays, the blank-screen ping) and `State`, a value
  holding all the globals.
- `FeederLogic` (`logic.dfy`): one pure step function per handler, composed as
  `loop` composes them (`CycleStep`), and `Run`, a sequence of cycles. These
  functions are the specification. `Inv` is the invariant that holds between
  cycles.
- `FeederController` (`controller.dfy`): class `Controller` has the globals as
  fields and one method per handler with the firmware's statements. Each method
  is proved to compute the corresponding step function on the fields it changes.
  The effects it issues are proved to be appended to a ghost log. The homing
  sweep keeps its `for` loop, with invariants.
- `FeederProperties` (`properties.dfy`) and `FeederRuns` (`runs.dfy`): what the
  firmware does, proved about the step functions. They cover:
  - the invariant;
  - latching;
  - focus rotation;
  - clock and alarm setting;
  - the alarm condition;
  - the door command;
  - the opening and closing sequences;
  - the homing sweep and its attempt bound;
  - the screen-blank counters;
  - properties over whole runs.

Inputs are parameters. The clock reading is `Time` and the four pin levels are
`Pins`. The 8000 stop-pin reads one homing sweep would make are a sequence;
the sweep consumes them up to the first HIGH one.

Behaviour of the code as written:

- The globals start with `mode` at 0, `ModeDoNothing`, and the position unknown.
- No statement ever assigns `ModeInitPos`. A door command with an unknown
  position selects `ModeDisplayInit`, and no handler leaves that mode. As
  written, the homing sweep is therefore unreachable from power-on.
  - `FeederRuns.PowerOnNeverHomes` proves that the position never becomes known.
  - `FeederRuns.DisplayInitAbsorbing` proves that `DisplayInit` is never left.
- `ModeDisplayOpening` with the door not closed does nothing, and nothing else
  leaves that mode. This happens, for example, when the alarm fires while the
  door is open. `FeederRuns.BlockedOpeningAbsorbing` proves the mode is kept.
- The alarm fires from `ModeError` as well as from idle. It goes straight to
  the opening sequence without homing, whatever the buttons do in that cycle
  (`FeederRuns.AlarmHandsOver`).
- With the set-time focus, pressing buttons 2 and 1 in the same cycle writes
  the clock twice. The second write uses the minute read at the start of the
  cycle, so the minute step is lost (`FeederProperties.BothClockButtonsLoseMinute`).
- The alarm minute only moves in steps of ten, so it is always a multiple of
  ten (part of `Inv`).

## Model

| member | source | states |
|---|---|---|
| FeederTypes.Rem | src/main.cpp:149 | C's `%` for a positive modulus: a non-negative dividend gives a remainder in `[0, m)`, a negative one a remainder in `(-m, 0]` |
| FeederLogic.FirstHigh | src/main.cpp:267-274 | the index where the sweep stops: every earlier stop-pin read is LOW, and the read at that index is HIGH unless all 8000 were LOW |
| FeederController.Controller.constructor | src/main.cpp:29-45 | power-on state: latches clear, screen shown, counters zero, focus on door commands, mode `DoNothing`, position unknown, no effects; the invariant holds |
| FeederController.Controller.Cycle | src/main.cpp:110-137 | one `loop` iteration keeps the invariant; the new fields and the effects appended are those of `CycleStep` |
| FeederController.Controller.CheckAlarm | src/main.cpp:118-127 | the clock fields take the reading, and the mode becomes `TimeForFood` as `AlarmStep` says; no effects |
| FeederController.Controller.HandleButtons | src/main.cpp:140-184 | buttons 3, 2 and 1 in that order, then the stop pin; the result is `ButtonsStep`, with its clock writes appended to the log |
| FeederController.Controller.HandleButton3 | src/main.cpp:146-151 | latch follows the level; an accepted press resets the idle counter and rotates the focus (`Button3Step`) |
| FeederController.Controller.HandleButton2 | src/main.cpp:153-163 | latch handling of button 2 (`Button2Step`): an accepted press acts on the focus, any other read only updates the latch (`Button2Idle`) |
| FeederController.Controller.PressButton2 | src/main.cpp:154-163 | an accepted button-2 press: wake the screen, act on the focus, set the latch |
| FeederController.Controller.Button2Focus | src/main.cpp:156-161 | alarm minute +10 mod 60, or clock minute +1 mod 60 and a clock write (`Button2Action`) |
| FeederController.Controller.HandleButton1 | src/main.cpp:165-179 | latch handling of button 1 (`Button1Step`): an accepted press acts on the focus, any other read only updates the latch (`Button1Idle`) |
| FeederController.Controller.PressButton1 | src/main.cpp:166-179 | an accepted button-1 press: wake the screen, act on the focus, set the latch |
| FeederController.Controller.Button1Focus | src/main.cpp:168-177 | clock hour +1 mod 24 and a clock write, alarm hour +1 mod 24, or a door command from idle or `Error` (`Button1Action`) |
| FeederController.Controller.HandleModes | src/main.cpp:187-222 | the mode switch, then `Error` when the attempt counter is past MAX_TIMER_COUNT (`ModesStep`) |
| FeederController.Controller.Dispatch | src/main.cpp:188-217 | the switch on `mode`, each case running its handler (`DispatchStep`) |
| FeederController.Controller.HandleModeInitPosAchieved | src/main.cpp:204-208 | position known, door closed, opening display, counter cleared |
| FeederController.Controller.HandleModeTimeForFood | src/main.cpp:210-214 | opening display, a 2000 ms delay, focus back on door commands |
| FeederController.Controller.HandleModeInitPos | src/main.cpp:267-276 | the sweep loop: one motor step per iteration, stopping after the first HIGH stop-pin read or 8000 steps, then one more attempt counted (`InitPosStep`) |
| FeederController.Controller.HandleModeRunForOpen | src/main.cpp:278-283 | a full slide counter-clockwise, coil release, idle, door open |
| FeederController.Controller.HandleModeRunForClose | src/main.cpp:285-290 | a full slide clockwise, coil release, idle, door closed |
| FeederController.Controller.HandleModeDisplayOpening | src/main.cpp:292-297 | starts the opening run only when the door is closed |
| FeederController.Controller.HandleModeDisplayClosing | src/main.cpp:299-302 | starts the closing run unconditionally |
| FeederController.Controller.UpdateDisplay | src/main.cpp:248-263 | the screen-blank counters (`DisplayStep`) |
| FeederProperties.InitialInv | src/main.cpp:29-45 | the power-on state satisfies the invariant |
| FeederProperties.AlarmKeepsSettings | src/main.cpp:118-127 | the alarm check keeps focus, alarm and counters in range |
| FeederProperties.Button3KeepsSettings | src/main.cpp:146-151 | the focus stays in 0..2 after a button-3 press |
| FeederProperties.Button2KeepsSettings | src/main.cpp:153-163 | the alarm minute stays a multiple of ten below 60 |
| FeederProperties.Button1KeepsSettings | src/main.cpp:165-179 | the alarm hour stays below 24 |
| FeederProperties.ButtonsKeepSettings | src/main.cpp:140-184 | all of the button handling keeps the settings in range |
| FeederProperties.DispatchKeepsSettings | src/main.cpp:188-217 | the switch keeps the settings in range and never leaves `TimeForFood` standing |
| FeederProperties.ModesRestoreInv | src/main.cpp:187-222 | after the bound check, a counter past MAX_TIMER_COUNT always comes with `Error`: the invariant is restored |
| FeederProperties.DisplayKeepsInv | src/main.cpp:248-263 | the counter updates keep the invariant |
| FeederProperties.CycleKeepsInv | src/main.cpp:110-137 | a whole cycle keeps the invariant |
| FeederProperties.AlarmMinStep | src/main.cpp:157 | a ten-minute step keeps the alarm minute a multiple of ten |
| FeederProperties.AlarmFrame | src/main.cpp:118-127 | the alarm check writes only the clock fields and possibly moves the mode to `TimeForFood` |
| FeederProperties.Button3Frame | src/main.cpp:146-151 | button 3 writes only its latch, the focus and the idle counter, as an accepted press dictates |
| FeederProperties.Button2Frame | src/main.cpp:153-163 | button 2 writes only its latch, the idle counter, the alarm minute and the clock minute |
| FeederProperties.Button1Frame | src/main.cpp:165-179 | button 1 writes only its latch, the idle counter, the hours and the mode |
| FeederProperties.Button2Idle | src/main.cpp:153-154 | a button-2 read that is LOW, or HIGH with the latch set, changes only the latch and writes nothing to the clock |
| FeederProperties.Button1Idle | src/main.cpp:165-166 | a button-1 read that is LOW, or HIGH with the latch set, changes only the latch: no hour change, no door command, no clock write |
| FeederProperties.ButtonsFrame | src/main.cpp:140-184 | what the button handling can change, field by field |
| FeederProperties.DispatchFrame | src/main.cpp:188-217 | what the switch can change, and that it never ends in `TimeForFood` |
| FeederProperties.ModesFrame | src/main.cpp:219-221 | the bound check changes only the mode of the switch's result and adds no effects |
| FeederProperties.DisplayFrame | src/main.cpp:248-263 | the display update changes only the screen fields |
| FeederProperties.CycleFrame | src/main.cpp:110-137 | after the buttons, the rest of the cycle changes only position, door, mode, attempt counter, focus and the screen fields |
| FeederProperties.LatchFollowsLevel | src/main.cpp:146-179 | after a cycle each button latch equals the level read in it |
| FeederProperties.FocusRotation | src/main.cpp:149 | the focus step stays in 0..2, always moves, and returns after three steps |
| FeederProperties.FocusCycle | src/main.cpp:146-151 | outside an alarm tick, a cycle advances the focus by one exactly when button 3 is accepted |
| FeederProperties.PressWakesScreen | src/main.cpp:146-251 | any accepted press leaves the idle counter at one and the screen shown |
| FeederProperties.MinuteButton | src/main.cpp:153-163 | alarm minute +10 mod 60, or clock minute +1 mod 60 and a clock write with that minute and the current hour |
| FeederProperties.HourButton | src/main.cpp:165-172 | clock hour +1 mod 24 and a clock write with that hour and the current minute, or alarm hour +1 mod 24 |
| FeederProperties.DoorFocusLeavesSettings | src/main.cpp:153-179 | with the door focus, buttons 1 and 2 change neither clock nor alarm and write nothing |
| FeederProperties.ClockInRange | src/main.cpp:118-170 | a valid clock reading leaves the clock fields in range after the cycle |
| FeederProperties.BothClockButtonsLoseMinute | src/main.cpp:159-170 | both clock buttons in one cycle: the second clock write carries the old minute |
| FeederProperties.AlarmCheck | src/main.cpp:123-127 | the alarm fires if and only if the mode is idle or `Error`, hour and minute match and the second is zero; otherwise the mode is kept |
| FeederRuns.AlarmHandsOver | src/main.cpp:123-214 | in the alarm cycle, for any button and stop-pin levels, the controller issues the 2000 ms delay, selects the opening display, puts the focus on door commands and leaves the door as it was |
| FeederProperties.DoorCommand | src/main.cpp:173-183 | a door command selects opening, closing or initialising by position and door, only from idle or `Error` |
| FeederProperties.OpeningSequence | src/main.cpp:278-297 | two dispatches from a closed door: run for open with the door unknown, then one slide and the door open |
| FeederProperties.OpeningGuard | src/main.cpp:292-297 | the opening display with the door not closed changes nothing |
| FeederProperties.ClosingSequence | src/main.cpp:285-302 | two dispatches: run for close with the door unknown, then one slide the other way and the door closed |
| FeederProperties.HomingSweep | src/main.cpp:267-276 | one attempt counted; `InitPosAchieved` if and only if some read is HIGH; between 1 and 8000 steps; the reads before the last step are LOW |
| FeederProperties.HomingAchieved | src/main.cpp:204-208 | reaching home sets position known, door closed, counter zero, opening display |
| FeederProperties.HomingBudget | src/main.cpp:267-276 | a sweep without a stop keeps homing, and ends in `Error` on the attempt past MAX_TIMER_COUNT |
| FeederProperties.ModesForceError | src/main.cpp:219-221 | after the mode handling a counter past the bound always means `Error` |
| FeederProperties.DisplayCounters | src/main.cpp:248-263 | the idle counter saturates at 50 and the screen shows if and only if it was below; the ping counter wraps at 30 and the ping is drawn if and only if it wraps |
| FeederRuns.SettingButtonsKeepMode | src/main.cpp:146-163 | buttons 3 and 2 leave mode, counter, position and door alone |
| FeederRuns.Button1Mode | src/main.cpp:165-179 | button 1 changes the mode only by a door command from idle or `Error` |
| FeederRuns.HeldButton1NoCommand | src/main.cpp:165-183 | button 1 held HIGH from the previous cycle issues no second door command; only the stop pin can change the mode, ending homing |
| FeederRuns.ButtonsModeFacts | src/main.cpp:140-184 | the buttons change the mode only by a door command or the stop pin ending homing |
| FeederRuns.ModesModeFacts | src/main.cpp:187-222 | only the homing cases move the counter or the position; homing modes come only from homing |
| FeederRuns.CycleEndsWithModes | src/main.cpp:134-136 | the display update leaves mode, counter, position and door as the mode handling left them |
| FeederRuns.CycleKeepsError | src/main.cpp:219-221 | a counter past the bound keeps the controller in `Error` for the cycle |
| FeederRuns.CycleNeverHomes | src/main.cpp:173-217 | no cycle enters `InitPos`, and without it the position stays unknown |
| FeederRuns.CycleKeepsDisplayInit | src/main.cpp:173-216 | `DisplayInit` has no handler and no way out |
| FeederRuns.CycleKeepsBlockedOpening | src/main.cpp:292-297 | the opening display with the door not closed is kept for the cycle |
| FeederRuns.RunPrefix | src/main.cpp:110 | a run is its first cycle followed by the rest |
| FeederRuns.RunKeepsInv | src/main.cpp:110-137 | the invariant holds after any number of cycles |
| FeederRuns.ErrorPersists | src/main.cpp:219-221 | once the attempt counter is past the bound, every later cycle ends in `Error` with the same counter |
| FeederRuns.NeverEntersInitPos | src/main.cpp:173-217 | no run enters `InitPos`; without homing the position never becomes known |
| FeederRuns.PowerOnNeverHomes | src/main.cpp:29-176 | from power-on the position never becomes known and homing never starts |
| FeederRuns.DisplayInitAbsorbing | src/main.cpp:173-216 | once in `DisplayInit`, every later cycle stays there |
| FeederRuns.BlockedOpeningAbsorbing | src/main.cpp:292-297 | the opening display with the door not closed is never left |
| FeederRuns.Levels3 | src/main.cpp:143 | the button-3 levels of a run, one per cycle |
| FeederRuns.HeldHighOneEdge | src/main.cpp:146-147 | a button held HIGH throughout gives one accepted press if its latch was clear, none otherwise |
| FeederRuns.TurnIsNextFocus | src/main.cpp:149 | the mod-free focus step agrees with `(b + 1) % 3` |
| FeederRuns.RotateIsMod | src/main.cpp:149 | n focus steps from b give `(b + n) % 3` |
| FeederRuns.FocusRunHead | src/main.cpp:146-151 | the first cycle of a run sets the latch to the level and steps the focus exactly on an accepted press |
| FeederRuns.FocusFollowsPresses | src/main.cpp:146-151 | outside alarm ticks, the focus after a run is the start focus rotated once per rising edge of button 3 |
| FeederRuns.HeldButtonRotatesOnce | src/main.cpp:146-151 | holding button 3 down for a whole run advances the focus at most once |
| FeederRuns.ThreePressesRestoreFocus | src/main.cpp:149 | three accepted presses bring the focus back where it was |
| FeederRuns.PressStartsMotion | src/main.cpp:173-302 | a door-command press from idle ends the cycle running to open (door closed) or to close, door unknown |
| FeederRuns.MotionCompletes | src/main.cpp:278-290 | the next cycle issues the slide and ends idle with the door open or closed |
| FeederRuns.DoorRoundTrip | src/main.cpp:165-302 | press, release, press, release from a closed door opens and then closes it again, position kept |

## Left out

- Serial logging, the OLED drawing (`printTimeAndAlarm`, `printRandom`'s
  contents, `DrawToOled`, `printDateTime`) and the status strings chosen in
  `updateDisplay`. Only the screen-blank counters and the ping are modelled.
- `setup()`: pin modes, the serial port, the RTC start-up and the stepper speed.
  The constructor models only the initialisers of the globals.
- The RTC validity check in `loop` only logs a message, so it is not modelled.
  The clock reading is an input.
- Elapsed time: `delay`, the stepper's per-step timing and `millis`. `delay(2000)`
  is the effect `Wait(2000)`. `moveStartTime` and `reading` are never used by
  the control logic.
- `ModeEndOfTimeForFood` is declared but never assigned. It is kept in the
  enumeration and behaves like any mode without a handler.
- Pins: the model takes the level the code tests (`HIGH` means pressed or at
  home). The electrical effect of `INPUT_PULLUP` wiring is not modelled.
- The door status constants are not declared in `src/main.cpp`, so the initial
  value of `doorStatus` is a constructor parameter.
- FeederTypes.Rem: specified only by its range, which is all the proofs need.
  Concrete values are stated where they matter (`MinuteButton`, `HourButton`).
- 16-bit `int` overflow: every counter is bounded by the invariant far below
  32767 (`timerCount` ≤ 51, the screen counters ≤ 50). So integers are
  unbounded in the model.
- The stop-pin reads during a homing sweep are a sequence given with the cycle.
  The motor's physical position and the timing between reads are not modelled.
- FeederProperties.FocusCycle and FeederRuns.FocusFollowsPresses assume no
  alarm tick in the cycles concerned. An alarm from idle or `Error` also puts
  the focus back on door commands; `AlarmHandsOver` states that case.
