# Mecanum robot motor control, modelled in Dafny

This project models the motor-control core of a MicroPython controller for a
four-wheel mecanum robot with one auxiliary motor. It covers three variants of
the core:

- `final_driver.py` is the full driver. It keeps a registry of wiring
  profiles. `set_motor_config` binds one profile after a fail-safe sweep over
  the pins of all profiles. A `_running` safety flag is cleared by the stop
  button (`check_stop`) and set by the start button (`wait_for_start`).
  `wait`, `run_motor` and `movement` drive the channels in 50 ms ticks and
  poll the stop button on every tick.
- `motor_library.py` is an older driver. It has one fixed wiring table and a
  `check_stop` that both stops and resumes. Its `movement` tick loop never
  polls the buttons.
- `motors.py` is a bare channel table with raw `run_motor`, `stop_motor` and
  `stop_all`.

Each channel is a record of its pin pair, its direction level and its PWM
duty. A bound table maps wheel roles (`front_left` … `extra_motor`) to
channels. A button is a recorded stream of readings. Once a stream runs out,
the button reads its idle level: 1 for the pulled-up stop button, 0 for the
pulled-down start button.

A duration is a whole number of 50 ms ticks. Each driver records a
`timeline`: the outputs held during each sleep. The lemmas about stop
latency and about what a motion drives are stated over that timeline.

The code is modelled in its own imperative form:

- Each driver is a class whose fields are the globals the source updates:
  `motors`, `_running`, the button streams and the pins.
- Each Python function is a method with the source's loops.
- Each method is proved equal to a function on a state value:
  `CheckStopStep`, `WaitTicks`, `WaitForStartRun`, `RunMotorRun`,
  `MovementRun` and `TickLoop`.
- The properties are lemmas about those functions.

Points in the code that a reader might not expect, and that the model keeps:

- In `final_driver.py` each diagonal motion (lines 306-328) sets the
  direction of two wheels and forces the other two to duty 0. The tick loop
  (lines 353-358) then writes the duty to every role except `extra_motor`, so
  all four wheels turn during every tick (`FinalDriver.MovementTicksUniform`).
- `final_driver.py`'s rotations (lines 330-336) loop over every bound motor,
  so they also set the direction of `extra_motor`.
- `motor_library.py`'s `check_stop` (lines 70-81) resumes on any start
  reading of 1 at the end of the call, even in the same call as a stop press
  (`MotorLibrary.CheckStopEffect`, `Variants.ResumePolicies`).

## Model

| member | source | states |
|---|---|---|
| Actuators.ScaleDuty | final_driver.py:280 | the duty is always in [0, 1023]; speed ≤ 0 gives 0, speed ≥ 100 gives 1023, any positive speed gives a positive duty; motor_library.py line 95 computes the same duty |
| Actuators.ScaleDutyMonotone | final_driver.py:190 | a larger speed never yields a smaller duty |
| Actuators.ParseRole | final_driver.py:338 | a dictionary key names at most one role, and names it exactly when it is that role's key |
| Buttons.AfterRelease | final_driver.py:244-245 | the release wait consumes only low readings up to the first high one, or the whole stream if it never comes |
| Buttons.PollStopReads | final_driver.py:227-245 | a poll counts as a press exactly on a low first reading; if there is no press it uses one reading; after a press it returns only after a released (1) reading or the end of the readings |
| FinalConfig.MotorConfigsUniform | final_driver.py:61-160 | every profile in `motor_configs` binds the same five roles |
| FinalConfig.TablePinSets | final_driver.py:61-160 | over the shipped profiles, the PWM pins and the direction pins are the same ten GPIOs |
| FinalConfig.Sweep | final_driver.py:27-37 | the two passes fail independently: a pin whose direction write succeeds ends as an output at 0, because that pass runs last; a pin whose deinit succeeds and that the direction pass does not reset ends released; a pin neither pass resets keeps its state |
| FinalConfig.SweepOfTable | final_driver.py:18-37 | whichever profile is chosen, every table pin whose direction write succeeds ends as an output at 0; one whose direction write raises ends released if its deinit succeeded, and otherwise keeps its state |
| FinalConfig.Bind | final_driver.py:175-182 | the new table has exactly the profile's roles, on the profile's pins, each at duty 0 and direction 0 |
| FinalDriver.CheckStopStep | final_driver.py:225-247 | `check_stop` as a function of the driver state; its own contract keeps the bound roles, and `FinalDriver.CheckStopEffect` states its behaviour |
| FinalDriver.WaitTicks | final_driver.py:5-14 | `wait` as a function of the driver state; its contract keeps the bound roles and leaves the start readings alone; `FinalDriver.WaitEffect` and `FinalDriver.WaitStopPriority` state the rest |
| FinalDriver.WaitStopPriority | final_driver.py:5-14 | if the stop button first reads low at tick j of a wait, the wait returns at that tick with the flag clear and every duty 0, after exactly j sleeps |
| FinalDriver.WaitForStartRun | final_driver.py:216-222 | `wait_for_start` as a function of the driver state; its contract keeps the bound roles, and `FinalDriver.WaitForStartEffect` states its behaviour |
| FinalDriver.RunMotorRun | final_driver.py:186-193 | `run_motor` as a function of the driver state; its contract keeps the bound roles, and `FinalDriver.RunMotorEffect` states its behaviour |
| FinalDriver.Prepare | final_driver.py:282-343 | the table after the direction block; its contract keeps the bound roles, and `FinalDriver.PrepareDuties` and the `DirWrites` lemmas state what it writes |
| FinalDriver.DriveTick | final_driver.py:353-358 | one tick's duty writes; its contract keeps the bound roles, and `FinalDriver.DriveTickWrites` states what it writes |
| FinalDriver.TickLoop | final_driver.py:345-363 | the tick loop as a function of the driver state; its contract keeps the bound roles and the start readings, and `FinalDriver.TickLoopEffect` states its behaviour |
| FinalDriver.MovementRun | final_driver.py:273-363 | `movement` as a function of the driver state; its contract keeps the bound roles, and `FinalDriver.MovementEndsAtRest` with the movement lemmas state its behaviour |
| FinalDriver.CheckStopEffect | final_driver.py:225-247 | a low stop reading zeroes every duty and clears the flag without touching directions; a high one changes nothing but the reading; the flag is never set |
| FinalDriver.WaitEffect | final_driver.py:5-14 | a wait holds the outputs unchanged for each tick it sleeps and never sets the flag; after an early return the outputs are at rest; if the flag is still set, it slept every tick |
| FinalDriver.WaitWhileStopped | final_driver.py:9-12 | with the flag clear, a wait polls once, stops everything and returns without sleeping |
| FinalDriver.WaitForStartEffect | final_driver.py:216-222 | the flag is set exactly when a start reading of 1 arrives, and the readings after that press are left; with no press the flag is never set by the waiting |
| FinalDriver.RunMotorEffect | final_driver.py:186-193 | an unbound name costs one stop poll and nothing else; a bound name ends at duty 0 with its direction written, every tick it slept holds the scaled duty, and every other channel is unchanged or stopped |
| FinalDriver.RunMotorWhileStopped | final_driver.py:186-193 | with the flag clear, a bound motor is never slept with: nothing is added to the timeline, every duty ends at 0 and the flag stays clear |
| FinalDriver.ForwardBackwardComplement | final_driver.py:282-292 | FW and BW write bitwise-complementary direction levels to the four wheels |
| FinalDriver.DirWritesTranslations | final_driver.py:282-328 | FW, BW, L and R write exactly the four wheels; each diagonal writes exactly its two listed wheels |
| FinalDriver.DirWritesRotations | final_driver.py:330-343 | CCW and CW write every bound motor, `extra_motor` included; a role motion writes only that role's level; an unknown motion writes nothing |
| FinalDriver.DriveTickWrites | final_driver.py:353-358 | a tick of a role motion writes only that role's duty; any other tick writes the duty to every role except `extra_motor` |
| FinalDriver.DriveTickKeepsDirs | final_driver.py:353-358 | a tick changes only duties, and repeating it changes nothing |
| FinalDriver.TickLoopEffect | final_driver.py:345-363 | the loop always ends with every duty 0 and the directions it was given; every sleep holds one tick's outputs; it completes exactly when no poll cleared the flag, and then it slept every tick |
| FinalDriver.StopPriority | final_driver.py:347-351 | if the stop button first reads low at tick j, the loop returns at that tick, at rest, after exactly j sleeps, whatever duration was asked for |
| FinalDriver.RunsFullDuration | final_driver.py:345-363 | with no low stop reading during the loop, the motion completes with one sleep per tick |
| FinalDriver.MovementWhileStopped | final_driver.py:276-278 | with the flag clear, `movement` only zeroes every duty: no direction write, no reading, no sleep |
| FinalDriver.MovementEndsAtRest | final_driver.py:273-363 | an unknown motion, or a missing wheel, writes nothing; every other outcome ends at rest with the motion's directions in place |
| FinalDriver.ClassifyRole | final_driver.py:282-339 | a motion resolves to a single role exactly when it is a bound role name |
| FinalDriver.PrepareDuties | final_driver.py:306-328 | before the loop, only a diagonal's two idle wheels are forced to duty 0 |
| FinalDriver.MovementTicksUniform | final_driver.py:345-358 | for every non-role motion, the diagonals included, each tick holds all four wheels at the scaled duty, and `extra_motor` keeps its duty |
| FinalDriver.MovementTicksRole | final_driver.py:338-354 | a role motion drives only the named role, with its direction, in every tick |
| FinalDriver.NothingElseStarts | final_driver.py:222 | `movement`, `run_motor` and `wait` never set the running flag; only `wait_for_start` does |
| FinalDriver.WaitKeepsSafe | final_driver.py:5-14 | a wait keeps the invariant that a clear flag means every duty is 0 |
| FinalDriver.WaitForStartKeepsSafe | final_driver.py:216-222 | `wait_for_start` keeps the same invariant |
| FinalDriver.RunMotorKeepsSafe | final_driver.py:186-193 | `run_motor` keeps the same invariant |
| FinalDriver.MovementKeepsSafe | final_driver.py:273-363 | `movement` keeps the same invariant |
| FinalDriver.Driver.constructor | final_driver.py:164-165 | at import, the table is empty, the flag is clear and the registry is `motor_configs` |
| FinalDriver.Driver.IsRunning | final_driver.py:268-269 | reports the running flag |
| FinalDriver.Driver.StopAll | final_driver.py:201-206 | every bound channel goes to duty 0, with nothing else changed |
| FinalDriver.Driver.StopMotor | final_driver.py:196-198 | a bound name goes to duty 0; an unbound name changes nothing |
| FinalDriver.Driver.SetAllDirs | final_driver.py:331-336 | every bound motor gets the given direction level |
| FinalDriver.Driver.DriveAll | final_driver.py:356-358 | every bound motor except `extra_motor` gets the duty |
| FinalDriver.Driver.CheckStop | final_driver.py:225-247 | the stop poll, including its blocking release loop, has exactly the effect `CheckStopStep` describes |
| FinalDriver.Driver.AwaitRelease | final_driver.py:244-245 | the release loop leaves exactly the readings `AfterRelease` describes |
| FinalDriver.Driver.Wait | final_driver.py:5-14 | the tick loop of `wait` has exactly the effect `WaitTicks` describes |
| FinalDriver.Driver.WaitForStart | final_driver.py:216-222 | the start loop has exactly the effect `WaitForStartRun` describes, and keeps the class invariant |
| FinalDriver.Driver.RunMotor | final_driver.py:186-193 | `run_motor` has exactly the effect `RunMotorRun` describes, and keeps the class invariant |
| FinalDriver.Driver.SetDiagonal | final_driver.py:306-328 | a diagonal's two direction writes and two duty-0 writes |
| FinalDriver.Driver.ApplyDirections | final_driver.py:282-340 | the direction block leaves the table `Prepare` describes |
| FinalDriver.Driver.Tick | final_driver.py:348-361 | one iteration either stops everything after a press, or writes the tick's duties and sleeps; either way it advances `TickLoop` by exactly one tick |
| FinalDriver.Driver.RunTicks | final_driver.py:345-363 | the tick loop has exactly the effect `TickLoop` describes |
| FinalDriver.Driver.Movement | final_driver.py:273-363 | `movement` has exactly the effect and outcome `MovementRun` describes, and keeps the class invariant |
| FinalDriver.Driver.CollectPins | final_driver.py:19-25 | the collected sets are the PWM pins and the direction pins of all profiles |
| FinalDriver.Driver.CollectProfile | final_driver.py:23-25 | one profile's PWM pins and direction pins |
| FinalDriver.Driver.ResetPass | final_driver.py:27-37 | one pass resets every listed pin whose call does not raise, and carries on past one that does |
| FinalDriver.Driver.ResetAllPwmAndDir | final_driver.py:18-37 | the pins end as `Sweep` over the pins of all profiles describes, with the pins whose deinit raises and those whose direction write raises given separately |
| FinalDriver.Driver.SetMotorConfig | final_driver.py:168-182 | an unknown id is refused before any pin or the table changes; otherwise the sweep runs and the table becomes the selected profile at rest; the class invariant is kept |
| FinalDriver.Driver.BindProfile | final_driver.py:175-182 | the binding loop yields `Bind` of the profile |
| MotorLibrary.CheckStopStep | motor_library.py:70-81 | `check_stop` as a function of the library state; its contract keeps the bound roles, and `MotorLibrary.CheckStopEffect` states its behaviour |
| MotorLibrary.RunMotorRun | motor_library.py:44-53 | `run_motor` as a function of the library state; its contract keeps the bound roles, and `MotorLibrary.RunMotorEffect` states its behaviour |
| MotorLibrary.DriveRoles | motor_library.py:150-167 | one tick's duty writes on the driven roles; its contract keeps the bound roles, and `MotorLibrary.DiagonalDuties` states what each diagonal drives |
| MotorLibrary.TickLoop | motor_library.py:143-172 | the tick loop and final `stop_all` as a function of the library state; its contract keeps the bound roles, and `MotorLibrary.TickLoopEffect` states its behaviour |
| MotorLibrary.MovementRun | motor_library.py:87-172 | `movement` as a function of the library state; its contract keeps the bound roles, and `MotorLibrary.MovementRunsFull` and `MotorLibrary.MovementGuards` state its behaviour |
| MotorLibrary.CheckStopEffect | motor_library.py:70-81 | a press zeroes every duty; afterwards the flag is set exactly when the start reading is 1, or when it was already set and stop was not pressed (level-triggered resume) |
| MotorLibrary.RunMotorEffect | motor_library.py:44-53 | an unbound name changes nothing; a bound one sleeps once with that motor driven, ends at duty 0, and touches no other motor, the flag or the buttons |
| MotorLibrary.TickLoopEffect | motor_library.py:143-172 | the loop sleeps exactly `ticks` times with the same duties, leaves the flag and buttons alone, and ends at rest with its directions |
| MotorLibrary.MovementRunsFull | motor_library.py:143-172 | past the entry guard, a recognised motion always runs its whole duration and ends at rest |
| MotorLibrary.MovementGuards | motor_library.py:91-140 | with the flag clear only duties are zeroed; an unknown motion, role names included, writes nothing |
| MotorLibrary.DirTable | motor_library.py:108-123 | R writes 1,1,0,0 and L writes 0,0,1,1; CCW and CW write only the four wheels, never `extra_motor` |
| MotorLibrary.DiagonalDuties | motor_library.py:150-161 | FR and BL drive only front_right and back_left; FL and BR drive only front_left and back_right; other duties are left untouched |
| Actuators.BootTable | motor_library.py:36-41 | the import loop binds exactly the roles of `motor_pins`, each on its own pins; motors.py lines 13-18 run the same loop |
| MotorLibrary.Library.constructor | motor_library.py:36-41 | at import, the table is `BootTable` of `motor_pins` (so the five roles) and the flag is clear |
| MotorLibrary.Library.IsRunning | motor_library.py:83-84 | reports the running flag |
| MotorLibrary.Library.StopMotor | motor_library.py:55-57 | a bound name goes to duty 0; an unbound name changes nothing |
| MotorLibrary.Library.StopAll | motor_library.py:59-61 | `stop_motor` on every name leaves every channel at duty 0 |
| MotorLibrary.Library.RunMotor | motor_library.py:44-53 | `run_motor` has exactly the effect `RunMotorRun` describes |
| MotorLibrary.Library.CheckStop | motor_library.py:70-81 | the stop-and-resume poll has exactly the effect `CheckStopStep` describes |
| MotorLibrary.Library.SetRotationDirs | motor_library.py:108-113 | the loop over the four wheel names sets each of them to the level |
| MotorLibrary.Library.ApplyDirections | motor_library.py:97-140 | the direction block writes exactly `DirWrites` of the motion |
| MotorLibrary.Library.DriveTick | motor_library.py:150-167 | one tick writes the duty to exactly the motion's driven roles |
| MotorLibrary.Library.RunTicks | motor_library.py:143-172 | the tick loop and the final `stop_all` have exactly the effect `TickLoop` describes |
| MotorLibrary.Library.Movement | motor_library.py:87-172 | `movement` has exactly the effect and outcome `MovementRun` describes |
| BareMotors.DriveEffect | motors.py:21-24 | `run_motor` writes the direction level and the raw speed as duty to the named channel only |
| BareMotors.NoClamping | motors.py:24 | the duty is not clamped: a speed of 5000 reaches the channel unchanged |
| BareMotors.HaltedEffect | motors.py:29-31 | after `stop_all` every channel has duty 0 and direction 0, on unchanged pins |
| BareMotors.MotorTable.constructor | motors.py:13-18 | at import, the table is `BootTable` of `motor_pins`, so it binds the five roles |
| BareMotors.MotorTable.RunMotor | motors.py:21-24 | a bound name's channel becomes `Drive` of the speed and direction |
| BareMotors.MotorTable.StopMotor | motors.py:26-27 | `run_motor(name, 0, 0)` |
| BareMotors.MotorTable.StopAll | motors.py:29-31 | `stop_motor` on every name leaves the table `Halted` |
| Variants.TranslationsAgree | motor_library.py:98-107 | both drivers write the same FW and BW levels |
| Variants.SidewaysSwapped | motor_library.py:114-123 | L and R are swapped between the two drivers |
| Variants.DiagonalsCompared | motor_library.py:124-135 | the two front diagonals swap their direction pairs between the drivers; the two back diagonals agree |
| Variants.RotationsCompared | motor_library.py:108-113 | the full driver's rotations also turn `extra_motor`; the library's never do; on the four wheels they agree |
| Variants.ResumePolicies | motor_library.py:79-81 | after a press and release with start held high, the library resumes in the same `check_stop` call, while the full driver stays stopped |
| Variants.SharedWiring | motor_library.py:27-33 | the library's and the bare table's `motor_pins` are the same wiring, and it is the full driver's profile "ONE" |

## Left out

- `Servo` and its instances in both drivers: `pos` maps a floating-point position to a duty.
- The LED blinking in `check_stop`, `led_on`, `led_off`, `buzz` and every `print`: these are timing feedback and console output, with no effect on the channels.
- Real time: sleeps and the float `elapsed += 0.05` accumulation. A duration is a whole number of ticks, so no float-rounding effects are modelled.
- The sleeps of the stop-release wait, and of the blink in `final_driver.py`'s `check_stop`, are not recorded in the timeline. The model proves every duty is 0 at that point.
- The PWM frequency and `Pin`/`PWM` construction are not modelled. Only each channel's duty and direction level are tracked.
- The `pins` map records only what the fail-safe sweep does. Re-creating the pins for a newly bound profile is not recorded there.
- The duty and direction values left by power-up are parameters (`bootDir`, `bootDuty`), because the import loops of `motor_library.py` and `motors.py` do not write them.
- FinalDriver.Driver.SetMotorConfig: assumes the `PWM(Pin(..), freq=1000)` and `Pin(.., Pin.OUT)` calls of the binding loop (final_driver.py lines 176-182, with no `try`) never raise, even for a pin the sweep could not reset. A raising call there would leave `motors` half rebuilt and propagate the exception. The model always returns `Configured` with the whole profile bound, because a half-built table would break the invariant that the table binds no role or all five.
- FinalDriver.Driver.StopAll: does not model the `except` path of `stop_all`, because a duty write that raises has no counterpart here.
- FinalDriver.Driver.WaitForStart: the source waits forever when no start press ever comes. The model returns `false` once the recorded start readings run out.
- FinalDriver.Driver.Movement: a missing wheel is the `MissingRole` outcome with nothing written, where the source raises KeyError. With the class invariant this can only happen before any profile is bound.
- MotorLibrary.Library.RunTicks: the loop's `if not _running` exit is not modelled. The entry guard found the flag set and nothing in the loop clears it, so that exit can never be taken.
- MotorLibrary.RunMotorRun: `run_motor`'s single sleep is one timeline entry, whatever its length.
- BareMotors.MotorTable.RunMotor: requires the name to be bound, because `motors[name]` raises otherwise. The duty is written raw, and what the PWM peripheral does with a value above 1023 is not modelled.
- `boot.py`, `main.py`, `final.py` and `test.py` are not part of this model. They are network set-up and demo loops that replay fixed command lists.
