/** final_driver.py, the full driver: the safety flag driven by the stop and
    start buttons, the safety-checked `wait`, single-motor `run_motor`, the
    `movement` dispatcher with its 50 ms tick loop, and `set_motor_config`.

    Each operation is a method of `Driver` that changes the driver's fields
    step by step as the source does, and is proved equal to a function on
    `DriverState` values (CheckStopStep, WaitTicks, WaitForStartRun,
    RunMotorRun, MovementRun); the lemmas below state what the source promises
    about those functions. Durations are whole ticks: `ticks` is the number of
    iterations a `while elapsed < duration` loop makes. */
module FinalDriver {
  import opened Actuators
  import opened Buttons
  import opened FinalConfig

  /** Everything the driver's operations read and change, apart from the
      pins of the fail-safe sweep. `timeline` holds the outputs held during
      each 50 ms tick sleep of `wait` and of the movement loop, oldest first. */
  datatype DriverState = DriverState(
    motors: Table,
    running: bool,
    stopInput: seq<bool>,
    startInput: seq<bool>,
    timeline: seq<Table>)

  /** `set_motor_config`'s two outcomes: done, or ValueError("Invalid config ID"). */
  datatype ConfigStatus = Configured | InvalidConfigId

  // ---------------------------------------------------------------- buttons

  /** `check_stop`: on a low stop reading, zero every duty, clear the running
      flag and wait for the release; otherwise only the one reading is used. */
  function CheckStopStep(s: DriverState): (t: DriverState)
    ensures t.motors.Keys == s.motors.Keys
  {
    var p := PollStop(s.stopInput);
    if p.pressed then s.(motors := ZeroDuties(s.motors), running := false, stopInput := p.rest)
    else s.(stopInput := p.rest)
  }

  /** `check_stop` never sets the running flag; a pressed stop leaves every
      channel at rest with its direction untouched; an unpressed one changes
      nothing but the stop readings. */
  lemma CheckStopEffect(s: DriverState)
    ensures CheckStopStep(s).running ==> s.running
    ensures s.stopInput != [] && !s.stopInput[0] ==>
              !CheckStopStep(s).running && CheckStopStep(s).motors == ZeroDuties(s.motors)
    ensures !(s.stopInput != [] && !s.stopInput[0]) ==>
              CheckStopStep(s) == s.(stopInput := if s.stopInput == [] then [] else s.stopInput[1..])
    ensures CheckStopStep(s).startInput == s.startInput && CheckStopStep(s).timeline == s.timeline
  {
    PollStopReads(s.stopInput);
  }

  /** `wait(duration)`: each tick polls the stop button; once the flag is
      clear after a poll everything is stopped and the wait returns early. */
  function WaitTicks(s: DriverState, ticks: nat): (t: DriverState)
    ensures t.motors.Keys == s.motors.Keys
    ensures t.startInput == s.startInput
    decreases ticks
  {
    if ticks == 0 then s
    else
      var c := CheckStopStep(s);
      if !c.running then c.(motors := ZeroDuties(c.motors))
      else WaitTicks(c.(timeline := c.timeline + [c.motors]), ticks - 1)
  }

  /** The outputs are held unchanged through a wait; it never sets the running
      flag; if the flag is clear at the end the outputs are at rest, and if it
      is still set the wait slept every tick. */
  lemma {:induction false} WaitEffect(s: DriverState, ticks: nat)
    ensures var t := WaitTicks(s, ticks);
            (t.running ==> s.running)
            && |s.timeline| <= |t.timeline| <= |s.timeline| + ticks
            && t.timeline[..|s.timeline|] == s.timeline
            && (forall i :: |s.timeline| <= i < |t.timeline| ==> t.timeline[i] == s.motors)
            && (t.running ==> t.motors == s.motors && |t.timeline| == |s.timeline| + ticks)
            && (ticks > 0 && !t.running ==> t.motors == ZeroDuties(s.motors))
    decreases ticks
  {
    if ticks > 0 {
      var c := CheckStopStep(s);
      CheckStopEffect(s);
      if c.running {
        var c' := c.(timeline := c.timeline + [c.motors]);
        WaitEffect(c', ticks - 1);
        var t := WaitTicks(c', ticks - 1);
        assert t.timeline[..|c'.timeline|] == c'.timeline;
        assert t.timeline[..|s.timeline|] == c'.timeline[..|s.timeline|];
      }
    }
  }

  /** With the flag already clear, a wait of at least one tick polls once,
      stops everything and returns without sleeping. */
  lemma WaitWhileStopped(s: DriverState, ticks: nat)
    requires !s.running && ticks > 0
    ensures WaitTicks(s, ticks) == CheckStopStep(s).(motors := ZeroDuties(s.motors))
  {
    CheckStopEffect(s);
  }

  /** Stop latency of `wait`, and so of `run_motor`'s wait: if the stop
      button first reads low at tick `j`, the wait returns at that tick with
      every duty 0 and the flag clear, having slept exactly `j` ticks. */
  lemma {:induction false} WaitStopPriority(s: DriverState, ticks: nat, j: nat)
    requires s.running && j < ticks && j < |s.stopInput|
    requires forall i :: 0 <= i < j ==> s.stopInput[i]
    requires !s.stopInput[j]
    ensures var t := WaitTicks(s, ticks);
            !t.running && AtRest(t.motors) && |t.timeline| == |s.timeline| + j
    decreases j
  {
    CheckStopEffect(s);
    if j > 0 {
      var c := CheckStopStep(s);
      var c' := c.(timeline := c.timeline + [c.motors]);
      assert c'.stopInput == s.stopInput[1..];
      WaitStopPriority(c', ticks - 1, j - 1);
    }
  }

  /** `wait_for_start`: read the start button until it reads 1, polling the
      stop button through `wait(0.01)` (one tick) after each 0 reading, then set
      the flag. The source waits forever when no press ever comes; the model
      returns `false` when the recorded start readings run out. */
  function WaitForStartRun(s: DriverState): (r: (DriverState, bool))
    ensures r.0.motors.Keys == s.motors.Keys
    decreases |s.startInput|
  {
    if s.startInput == [] then (s, false)
    else if s.startInput[0] then (s.(running := true, startInput := s.startInput[1..]), true)
    else WaitForStartRun(WaitTicks(s.(startInput := s.startInput[1..]), 1))
  }

  /** The flag is set exactly when a start reading of 1 arrives, and then the
      readings after that press are left; without a press the flag is never
      set by the waiting. */
  lemma {:induction false} WaitForStartEffect(s: DriverState)
    ensures var r := WaitForStartRun(s);
            (r.1 <==> true in s.startInput)
            && (r.1 ==>
                  (r.0.running
                   && exists i :: 0 <= i < |s.startInput| && s.startInput[i]
                        && (forall j :: 0 <= j < i ==> !s.startInput[j])
                        && r.0.startInput == s.startInput[i + 1..]))
            && (!r.1 ==> (r.0.running ==> s.running) && r.0.startInput == [])
    decreases |s.startInput|
  {
    if s.startInput != [] && !s.startInput[0] {
      var s1 := s.(startInput := s.startInput[1..]);
      var w := WaitTicks(s1, 1);
      WaitEffect(s1, 1);
      WaitForStartEffect(w);
      var r := WaitForStartRun(w);
      assert s.startInput == [false] + w.startInput;
      if r.1 {
        var i :| 0 <= i < |w.startInput| && w.startInput[i]
                 && (forall j :: 0 <= j < i ==> !w.startInput[j])
                 && r.0.startInput == w.startInput[i + 1..];
        assert s.startInput[i + 1] && s.startInput[i + 2..] == w.startInput[i + 1..];
        assert forall j :: 0 <= j < i + 1 ==> !s.startInput[j];
      }
    } else if s.startInput != [] {
      assert s.startInput[0];
    }
  }

  // ---------------------------------------------------------------- run_motor

  /** `run_motor(name, speed, duration, direction)`: poll the stop button; for
      a bound name set its direction and scaled duty, wait, then set its duty
      to 0. Nothing else happens for an unbound name. */
  function RunMotorRun(s: DriverState, name: string, speed: int, ticks: nat, direction: int): (t: DriverState)
    ensures t.motors.Keys == s.motors.Keys
  {
    var c := CheckStopStep(s);
    if !Bound(name, c.motors) then c
    else
      var r := ParseRole(name).value;
      var withDir := c.motors[r := c.motors[r].(dir := Level(direction))];
      var driven := withDir[r := withDir[r].(duty := ScaleDuty(speed))];
      var w := WaitTicks(c.(motors := driven), ticks);
      w.(motors := w.motors[r := w.motors[r].(duty := 0)])
  }

  /** An unbound name costs one stop poll and nothing else; a bound one ends at
      duty 0 with the direction written, the other channels either unchanged or
      stopped, and every tick slept holds the requested duty. */
  lemma RunMotorEffect(s: DriverState, name: string, speed: int, ticks: nat, direction: int)
    ensures !Bound(name, s.motors) ==> RunMotorRun(s, name, speed, ticks, direction) == CheckStopStep(s)
    ensures Bound(name, s.motors) ==>
              var t := RunMotorRun(s, name, speed, ticks, direction);
              var r := ParseRole(name).value;
              t.motors[r].duty == 0 && t.motors[r].dir == Level(direction)
              && (forall i :: |s.timeline| <= i < |t.timeline| ==>
                    r in t.timeline[i] && t.timeline[i][r].duty == ScaleDuty(speed))
              && (forall k :: k in s.motors && k != r ==>
                    t.motors[k] == s.motors[k] || t.motors[k] == s.motors[k].(duty := 0))
  {
    CheckStopEffect(s);
    var c := CheckStopStep(s);
    if Bound(name, s.motors) {
      var r := ParseRole(name).value;
      var withDir := c.motors[r := c.motors[r].(dir := Level(direction))];
      var driven := withDir[r := withDir[r].(duty := ScaleDuty(speed))];
      WaitEffect(c.(motors := driven), ticks);
    }
  }

  /** While the flag is clear, `run_motor` never sleeps with the motor driven:
      its wait stops everything at the first tick. */
  lemma RunMotorWhileStopped(s: DriverState, name: string, speed: int, ticks: nat, direction: int)
    requires !s.running && ticks > 0 && Bound(name, s.motors)
    ensures var t := RunMotorRun(s, name, speed, ticks, direction);
            t.timeline == s.timeline && AtRest(t.motors) && !t.running
  {
    CheckStopEffect(s);
    var c := CheckStopStep(s);
    var r := ParseRole(name).value;
    var withDir := c.motors[r := c.motors[r].(dir := Level(direction))];
    var driven := withDir[r := withDir[r].(duty := ScaleDuty(speed))];
    WaitWhileStopped(c.(motors := driven), ticks);
  }

  // ---------------------------------------------------------------- movement

  /** The `if motion == ... elif` chain of `movement`, in its order. */
  function Classify(motion: string, m: Table): Motion
  {
    if motion == "FW" then FW
    else if motion == "BW" then BW
    else if motion == "L" then L
    else if motion == "R" then R
    else if motion == "FL" then FL
    else if motion == "FR" then FR
    else if motion == "BL" then BL
    else if motion == "BR" then BR
    else if motion == "CCW" then CCW
    else if motion == "CW" then CW
    else if Bound(motion, m) then Role(ParseRole(motion).value)
    else Unknown(motion)
  }

  /** The direction levels each motion writes, role by role. */
  function DirWrites(mo: Motion, m: Table, direction: int): map<RoleName, int>
  {
    match mo
    case FW => map[FrontLeft := 0, FrontRight := 1, BackLeft := 0, BackRight := 1]
    case BW => map[FrontLeft := 1, FrontRight := 0, BackLeft := 1, BackRight := 0]
    case L => map[FrontLeft := 1, FrontRight := 1, BackLeft := 0, BackRight := 0]
    case R => map[FrontLeft := 0, FrontRight := 0, BackLeft := 1, BackRight := 1]
    case FL => map[FrontRight := 1, BackLeft := 0]
    case FR => map[FrontLeft := 0, BackRight := 1]
    case BL => map[FrontRight := 0, BackLeft := 1]
    case BR => map[FrontLeft := 1, BackRight := 0]
    case CCW => map r | r in m :: 1
    case CW => map r | r in m :: 0
    case Role(r) => map[r := Level(direction)]
    case Unknown(_) => map[]
  }

  /** The wheels a diagonal forces to duty 0 before the loop. */
  function DiagonalIdle(mo: Motion): set<RoleName>
  {
    match mo
    case FL => {FrontLeft, BackRight}
    case BL => {FrontLeft, BackRight}
    case FR => {FrontRight, BackLeft}
    case BR => {FrontRight, BackLeft}
    case _ => {}
  }

  /** The table after the direction block of `movement`. */
  function Prepare(m: Table, mo: Motion, direction: int): (p: Table)
    ensures p.Keys == m.Keys
  {
    ZeroDutiesOf(SetDirs(m, DirWrites(mo, m, direction)), DiagonalIdle(mo))
  }

  /** Every channel but `extra_motor` at duty `duty`. */
  function DriveAllButExtra(m: Table, duty: int): (t: Table)
    ensures t.Keys == m.Keys
  {
    map k | k in m :: if k != ExtraMotor then m[k].(duty := duty) else m[k]
  }

  /** The duty writes of one tick: the named motor for a role motion, else
      every motor but `extra_motor`. */
  function DriveTick(m: Table, motion: string, duty: int): (t: Table)
    ensures t.Keys == m.Keys
  {
    if Bound(motion, m) then
      var r := ParseRole(motion).value;
      m[r := m[r].(duty := duty)]
    else DriveAllButExtra(m, duty)
  }

  /** The tick loop of `movement`, from the first poll on. */
  function TickLoop(s: DriverState, motion: string, duty: int, ticks: nat): (r: (DriverState, MoveResult))
    ensures r.0.motors.Keys == s.motors.Keys
    ensures r.0.startInput == s.startInput
    decreases ticks
  {
    if ticks == 0 then (s.(motors := ZeroDuties(s.motors)), Completed)
    else
      var c := CheckStopStep(s);
      if !c.running then (c.(motors := ZeroDuties(c.motors)), StoppedMidway)
      else
        var d := DriveTick(c.motors, motion, duty);
        TickLoop(c.(motors := d, timeline := c.timeline + [d]), motion, duty, ticks - 1)
  }

  /** `movement(motion, speed, duration, direction)`. */
  function MovementRun(s: DriverState, motion: string, speed: int, ticks: nat, direction: int): (r: (DriverState, MoveResult))
    ensures r.0.motors.Keys == s.motors.Keys
  {
    if !s.running then (s.(motors := ZeroDuties(s.motors)), NotRunning)
    else
      var mo := Classify(motion, s.motors);
      if mo.Unknown? then (s, UnknownMotion)
      else if IndexesWheels(mo) && !(Wheels <= s.motors.Keys) then (s, MissingRole)
      else TickLoop(s.(motors := Prepare(s.motors, mo, direction)), motion, ScaleDuty(speed), ticks)
  }

  /** Only duties change in a tick, and a second identical tick changes nothing. */
  lemma DriveTickKeepsDirs(m: Table, motion: string, duty: int)
    ensures ZeroDuties(DriveTick(m, motion, duty)) == ZeroDuties(m)
    ensures DriveTick(DriveTick(m, motion, duty), motion, duty) == DriveTick(m, motion, duty)
  {
  }

  /** What one tick writes: for a role motion only that role's duty; for any
      other motion, the diagonals included, every role but `extra_motor` gets
      the duty and `extra_motor` keeps its own. */
  lemma DriveTickWrites(m: Table, motion: string, duty: int)
    ensures var t := DriveTick(m, motion, duty);
            (Bound(motion, m) ==>
               var r := ParseRole(motion).value;
               t[r] == m[r].(duty := duty) && forall k :: k in m && k != r ==> t[k] == m[k])
            && (!Bound(motion, m) ==>
               (forall k :: k in m && k != ExtraMotor ==> t[k] == m[k].(duty := duty))
               && (ExtraMotor in m ==> t[ExtraMotor] == m[ExtraMotor]))
  {
  }

  /** Whatever the stop readings, the loop ends with every duty 0 and the
      directions it was given; it sleeps at most `ticks` times, every sleep
      holding the duties of one tick; it completes exactly when no poll
      cleared the flag, and then it slept every tick. */
  lemma {:induction false} TickLoopEffect(s: DriverState, motion: string, duty: int, ticks: nat)
    requires s.running
    ensures var r := TickLoop(s, motion, duty, ticks);
            var d := DriveTick(s.motors, motion, duty);
            r.0.motors == ZeroDuties(s.motors)
            && (r.1 == Completed || r.1 == StoppedMidway)
            && (r.1 == Completed <==> r.0.running)
            && |s.timeline| <= |r.0.timeline| <= |s.timeline| + ticks
            && r.0.timeline[..|s.timeline|] == s.timeline
            && (forall i :: |s.timeline| <= i < |r.0.timeline| ==> r.0.timeline[i] == d)
            && (r.1 == Completed ==> |r.0.timeline| == |s.timeline| + ticks)
    decreases ticks
  {
    if ticks > 0 {
      CheckStopEffect(s);
      var c := CheckStopStep(s);
      if c.running {
        var d := DriveTick(c.motors, motion, duty);
        var c' := c.(motors := d, timeline := c.timeline + [d]);
        DriveTickKeepsDirs(s.motors, motion, duty);
        TickLoopEffect(c', motion, duty, ticks - 1);
        var r := TickLoop(c', motion, duty, ticks - 1);
        assert r.0.timeline[..|c'.timeline|] == c'.timeline;
        assert r.0.timeline[..|s.timeline|] == c'.timeline[..|s.timeline|];
      }
    }
  }

  /** Stop priority: if the stop button first reads low at tick `j` of the
      loop, the loop returns at that tick with every duty 0, having slept
      exactly `j` ticks, however long the motion was asked to last. */
  lemma {:induction false} StopPriority(s: DriverState, motion: string, duty: int, ticks: nat, j: nat)
    requires s.running && j < ticks && j < |s.stopInput|
    requires forall i :: 0 <= i < j ==> s.stopInput[i]
    requires !s.stopInput[j]
    ensures var r := TickLoop(s, motion, duty, ticks);
            r.1 == StoppedMidway && !r.0.running && AtRest(r.0.motors)
            && |r.0.timeline| == |s.timeline| + j
    decreases j
  {
    CheckStopEffect(s);
    TickLoopEffect(s, motion, duty, ticks);
    if j > 0 {
      var c := CheckStopStep(s);
      var d := DriveTick(c.motors, motion, duty);
      var c' := c.(motors := d, timeline := c.timeline + [d]);
      assert c'.stopInput == s.stopInput[1..];
      StopPriority(c', motion, duty, ticks - 1, j - 1);
    }
  }

  /** With no low stop reading among the loop's polls the motion runs its
      full duration: one sleep per tick, all at the motion's duties. */
  lemma {:induction false} RunsFullDuration(s: DriverState, motion: string, duty: int, ticks: nat)
    requires s.running
    requires forall i :: 0 <= i < ticks && i < |s.stopInput| ==> s.stopInput[i]
    ensures var r := TickLoop(s, motion, duty, ticks);
            r.1 == Completed && |r.0.timeline| == |s.timeline| + ticks
    decreases ticks
  {
    if ticks > 0 {
      CheckStopEffect(s);
      var c := CheckStopStep(s);
      var d := DriveTick(c.motors, motion, duty);
      var c' := c.(motors := d, timeline := c.timeline + [d]);
      assert forall i :: 0 <= i < ticks - 1 && i < |c'.stopInput| ==> c'.stopInput[i] == s.stopInput[i + 1];
      RunsFullDuration(c', motion, duty, ticks - 1);
    }
  }

  /** Forward and backward write complementary bits to the four wheels. */
  lemma ForwardBackwardComplement(m: Table, direction: int)
    ensures DirWrites(FW, m, direction).Keys == Wheels && DirWrites(BW, m, direction).Keys == Wheels
    ensures forall w :: w in Wheels ==> DirWrites(FW, m, direction)[w] == 1 - DirWrites(BW, m, direction)[w]
  {
  }

  /** The roles the direction block of each fixed motion touches: the four
      wheels for a translation, the two listed wheels for a diagonal. */
  lemma DirWritesTranslations(m: Table, direction: int)
    ensures DirWrites(FW, m, direction).Keys == Wheels && DirWrites(BW, m, direction).Keys == Wheels
    ensures DirWrites(L, m, direction).Keys == Wheels && DirWrites(R, m, direction).Keys == Wheels
    ensures DirWrites(FL, m, direction).Keys == {FrontRight, BackLeft} == DirWrites(BL, m, direction).Keys
    ensures DirWrites(FR, m, direction).Keys == {FrontLeft, BackRight} == DirWrites(BR, m, direction).Keys
  {
  }

  /** A rotation writes every bound motor, extra_motor included; a role
      motion writes only the named role; an unknown motion writes nothing. */
  lemma DirWritesRotations(m: Table, direction: int)
    ensures DirWrites(CCW, m, direction).Keys == m.Keys == DirWrites(CW, m, direction).Keys
    ensures forall k :: k in m ==> DirWrites(CCW, m, direction)[k] == 1 && DirWrites(CW, m, direction)[k] == 0
    ensures forall r :: DirWrites(Role(r), m, direction) == map[r := Level(direction)]
    ensures forall t :: DirWrites(Unknown(t), m, direction) == map[]
  {
  }

  /** `movement` with the flag clear only zeroes every duty: no direction bit,
      no reading, no sleep. */
  lemma MovementWhileStopped(s: DriverState, motion: string, speed: int, ticks: nat, direction: int)
    requires !s.running
    ensures MovementRun(s, motion, speed, ticks, direction) == (s.(motors := ZeroDuties(s.motors)), NotRunning)
  {
  }

  /** Every call that passes the entry guard and resolves its motion ends with
      all duties 0 and the motion's direction bits in place; an unknown motion
      or a missing wheel writes nothing at all. */
  lemma {:induction false} MovementEndsAtRest(s: DriverState, motion: string, speed: int, ticks: nat, direction: int)
    ensures var r := MovementRun(s, motion, speed, ticks, direction);
            var mo := Classify(motion, s.motors);
            (r.1 == UnknownMotion || r.1 == MissingRole ==> r.0 == s)
            && (r.1 == UnknownMotion <==> s.running && mo.Unknown?)
            && (r.1 == Completed || r.1 == StoppedMidway ==>
                  r.0.motors == ZeroDuties(Prepare(s.motors, mo, direction)))
            && (r.1 != UnknownMotion && r.1 != MissingRole ==> AtRest(r.0.motors))
  {
    if s.running {
      var mo := Classify(motion, s.motors);
      if !mo.Unknown? && !(IndexesWheels(mo) && !(Wheels <= s.motors.Keys)) {
        TickLoopEffect(s.(motors := Prepare(s.motors, mo, direction)), motion, ScaleDuty(speed), ticks);
      }
    }
  }

  /** A motion resolves to a role exactly when it is a bound role name: no
      motion keyword is a role name. */
  lemma ClassifyRole(motion: string, m: Table)
    ensures Classify(motion, m).Role? <==> Bound(motion, m)
    ensures Classify(motion, m).Role? ==> Classify(motion, m).role == ParseRole(motion).value
  {
  }

  /** The direction block forces only the diagonal's two wheels to duty 0. */
  lemma PrepareDuties(m: Table, mo: Motion, direction: int)
    ensures ExtraMotor !in DiagonalIdle(mo)
    ensures forall k :: k in m ==>
              Prepare(m, mo, direction)[k].duty == (if k in DiagonalIdle(mo) then 0 else m[k].duty)
  {
  }

  /** For every motion but a role motion, each tick sleeps with every wheel
      at the scaled duty, so the duty-0 writes of a diagonal never reach a
      tick, and `extra_motor` keeps the duty it had. */
  lemma {:induction false} MovementTicksUniform(s: DriverState, motion: string, speed: int, ticks: nat, direction: int)
    requires s.running && s.motors.Keys == Roles
    requires !Classify(motion, s.motors).Role? && !Classify(motion, s.motors).Unknown?
    ensures var r := MovementRun(s, motion, speed, ticks, direction);
            forall i, k :: |s.timeline| <= i < |r.0.timeline| && k in Roles ==>
              k in r.0.timeline[i]
              && r.0.timeline[i][k].duty == (if k == ExtraMotor then s.motors[k].duty else ScaleDuty(speed))
  {
    var mo := Classify(motion, s.motors);
    var duty := ScaleDuty(speed);
    var p := Prepare(s.motors, mo, direction);
    ClassifyRole(motion, s.motors);
    assert !Bound(motion, p);
    var st := s.(motors := p);
    var r := TickLoop(st, motion, duty, ticks);
    assert MovementRun(s, motion, speed, ticks, direction) == r;
    TickLoopEffect(st, motion, duty, ticks);
    var d := DriveTick(p, motion, duty);
    assert d == DriveAllButExtra(p, duty);
    PrepareDuties(s.motors, mo, direction);
    forall i, k | |s.timeline| <= i < |r.0.timeline| && k in Roles
      ensures k in r.0.timeline[i]
      ensures r.0.timeline[i][k].duty == (if k == ExtraMotor then s.motors[k].duty else duty)
    {
      assert r.0.timeline[i] == d;
    }
  }

  /** A role motion drives only the named role in every tick. */
  lemma {:induction false} MovementTicksRole(s: DriverState, motion: string, speed: int, ticks: nat, direction: int)
    requires s.running && Classify(motion, s.motors).Role?
    ensures var r := MovementRun(s, motion, speed, ticks, direction);
            var role := Classify(motion, s.motors).role;
            forall i, k :: |s.timeline| <= i < |r.0.timeline| && k in s.motors ==>
              k in r.0.timeline[i]
              && r.0.timeline[i][k].duty == (if k == role then ScaleDuty(speed) else s.motors[k].duty)
              && r.0.timeline[i][k].dir == (if k == role then Level(direction) else s.motors[k].dir)
  {
    var mo := Classify(motion, s.motors);
    var role := mo.role;
    var duty := ScaleDuty(speed);
    ClassifyRole(motion, s.motors);
    var p := Prepare(s.motors, mo, direction);
    assert p == s.motors[role := s.motors[role].(dir := Level(direction))];
    assert Bound(motion, p);
    var st := s.(motors := p);
    var r := TickLoop(st, motion, duty, ticks);
    assert MovementRun(s, motion, speed, ticks, direction) == r;
    TickLoopEffect(st, motion, duty, ticks);
    var d := DriveTick(p, motion, duty);
    assert d == p[role := p[role].(duty := duty)];
    forall i, k | |s.timeline| <= i < |r.0.timeline| && k in s.motors
      ensures k in r.0.timeline[i]
      ensures r.0.timeline[i][k].duty == (if k == role then duty else s.motors[k].duty)
      ensures r.0.timeline[i][k].dir == (if k == role then Level(direction) else s.motors[k].dir)
    {
      assert r.0.timeline[i] == d;
    }
  }

  /** Only `wait_for_start` sets the running flag: `movement`, `run_motor`
      and `wait` can clear it but never set it. */
  lemma NothingElseStarts(s: DriverState, motion: string, name: string, speed: int, ticks: nat, direction: int)
    ensures MovementRun(s, motion, speed, ticks, direction).0.running ==> s.running
    ensures RunMotorRun(s, name, speed, ticks, direction).running ==> s.running
    ensures WaitTicks(s, ticks).running ==> s.running
  {
    WaitEffect(s, ticks);
    CheckStopEffect(s);
    var c := CheckStopStep(s);
    if Bound(name, c.motors) {
      var r := ParseRole(name).value;
      var withDir := c.motors[r := c.motors[r].(dir := Level(direction))];
      var driven := withDir[r := withDir[r].(duty := ScaleDuty(speed))];
      WaitEffect(c.(motors := driven), ticks);
    }
  }

  /** The safety invariant: while the flag is clear every bound channel is
      at duty 0. */
  predicate StoppedAtRest(s: DriverState)
  {
    !s.running ==> AtRest(s.motors)
  }

  lemma {:induction false} WaitKeepsSafe(s: DriverState, ticks: nat)
    requires StoppedAtRest(s)
    ensures StoppedAtRest(WaitTicks(s, ticks))
  {
    WaitEffect(s, ticks);
  }

  lemma {:induction false} WaitForStartKeepsSafe(s: DriverState)
    requires StoppedAtRest(s)
    ensures StoppedAtRest(WaitForStartRun(s).0)
    decreases |s.startInput|
  {
    if s.startInput != [] && !s.startInput[0] {
      var s1 := s.(startInput := s.startInput[1..]);
      WaitKeepsSafe(s1, 1);
      WaitForStartKeepsSafe(WaitTicks(s1, 1));
    }
  }

  lemma RunMotorKeepsSafe(s: DriverState, name: string, speed: int, ticks: nat, direction: int)
    requires StoppedAtRest(s)
    ensures StoppedAtRest(RunMotorRun(s, name, speed, ticks, direction))
  {
    CheckStopEffect(s);
    var c := CheckStopStep(s);
    if Bound(name, c.motors) {
      var r := ParseRole(name).value;
      var withDir := c.motors[r := c.motors[r].(dir := Level(direction))];
      var driven := withDir[r := withDir[r].(duty := ScaleDuty(speed))];
      WaitEffect(c.(motors := driven), ticks);
    }
  }

  lemma MovementKeepsSafe(s: DriverState, motion: string, speed: int, ticks: nat, direction: int)
    requires StoppedAtRest(s)
    ensures StoppedAtRest(MovementRun(s, motion, speed, ticks, direction).0)
  {
    MovementEndsAtRest(s, motion, speed, ticks, direction);
  }

  // ---------------------------------------------------------------- the driver

  class Driver {
    /** `motor_configs`. */
    const configs: map<string, Profile>
    /** What the fail-safe sweep last did to each pin. */
    var pins: map<Gpio, PinState>
    /** The bound table `motors`. */
    var motors: Table
    /** `_running`. */
    var running: bool
    var stopInput: seq<bool>
    var startInput: seq<bool>
    var timeline: seq<Table>

    /** Every profile binds the five roles; the bound table is either still
        empty (no profile selected) or a whole profile; and while the flag is
        clear every channel is at duty 0. */
    ghost predicate Valid()
      reads this
    {
      UniformRoles(configs) && (motors.Keys == {} || motors.Keys == Roles)
      && StoppedAtRest(State())
    }

    function State(): DriverState
      reads this
    {
      DriverState(motors, running, stopInput, startInput, timeline)
    }

    /** Module import: the tables, an empty `motors`, `_running = False`;
        `pins0` is what the pins were doing at power-up, `stop` and `start`
        the readings the buttons will give. */
    constructor (pins0: map<Gpio, PinState>, stop: seq<bool>, start: seq<bool>)
      ensures Valid() && configs == MotorConfigs && pins == pins0
      ensures State() == DriverState(map[], false, stop, start, [])
    {
      configs := MotorConfigs;
      pins := pins0;
      motors := map[];
      running := false;
      stopInput := stop;
      startInput := start;
      timeline := [];
      MotorConfigsUniform();
    }

    /** `is_running()`. */
    function IsRunning(): (r: bool)
      reads this
      ensures r == State().running
    {
      running
    }

    method ReadStop() returns (high: bool)
      modifies this`stopInput
      ensures Reading(high, stopInput) == Read(old(stopInput), true)
    {
      if stopInput == [] {
        high := true;
      } else {
        high := stopInput[0];
        stopInput := stopInput[1..];
      }
    }

    method ReadStart() returns (high: bool)
      modifies this`startInput
      ensures Reading(high, startInput) == Read(old(startInput), false)
    {
      if startInput == [] {
        high := false;
      } else {
        high := startInput[0];
        startInput := startInput[1..];
      }
    }

    /** `stop_all()`. */
    method StopAll()
      modifies this`motors
      ensures motors == ZeroDuties(old(motors))
    {
      var todo := motors.Keys;
      while todo != {}
        invariant todo <= motors.Keys == old(motors).Keys
        invariant forall k :: k in motors ==>
                    motors[k] == if k in todo then old(motors)[k] else old(motors)[k].(duty := 0)
        decreases todo
      {
        var k :| k in todo;
        motors := motors[k := motors[k].(duty := 0)];
        todo := todo - {k};
      }
    }

    /** `stop_motor(name)`. */
    method StopMotor(name: string)
      modifies this`motors
      ensures motors == if Bound(name, old(motors))
                        then old(motors)[ParseRole(name).value := old(motors)[ParseRole(name).value].(duty := 0)]
                        else old(motors)
    {
      if Bound(name, motors) {
        var r := ParseRole(name).value;
        motors := motors[r := motors[r].(duty := 0)];
      }
    }

    method SetDir(r: RoleName, level: int)
      requires r in motors
      modifies this`motors
      ensures motors == old(motors)[r := old(motors)[r].(dir := level)]
    {
      motors := motors[r := motors[r].(dir := level)];
    }

    method SetDuty(r: RoleName, duty: int)
      requires r in motors
      modifies this`motors
      ensures motors == old(motors)[r := old(motors)[r].(duty := duty)]
    {
      motors := motors[r := motors[r].(duty := duty)];
    }

    /** `for m in motors: motors[m]["dir"].value(level)`. */
    method SetAllDirs(level: int)
      modifies this`motors
      ensures motors == SetDirs(old(motors), map k | k in old(motors) :: level)
    {
      var todo := motors.Keys;
      while todo != {}
        invariant todo <= motors.Keys == old(motors).Keys
        invariant forall k :: k in motors ==>
                    motors[k] == if k in todo then old(motors)[k] else old(motors)[k].(dir := level)
        decreases todo
      {
        var k :| k in todo;
        motors := motors[k := motors[k].(dir := level)];
        todo := todo - {k};
      }
    }

    /** `for m in motors: if m != "extra_motor": motors[m]["pwm"].duty(duty)`. */
    method DriveAll(duty: int)
      modifies this`motors
      ensures motors == DriveAllButExtra(old(motors), duty)
    {
      var todo := motors.Keys;
      while todo != {}
        invariant todo <= motors.Keys == old(motors).Keys
        invariant forall k :: k in motors ==>
                    motors[k] == if k in todo || k == ExtraMotor then old(motors)[k] else old(motors)[k].(duty := duty)
        decreases todo
      {
        var k :| k in todo;
        if k != ExtraMotor {
          motors := motors[k := motors[k].(duty := duty)];
        }
        todo := todo - {k};
      }
    }

    /** `check_stop()`; the LED blinking is not modelled. */
    method CheckStop()
      modifies this`motors, this`running, this`stopInput
      ensures State() == CheckStopStep(old(State()))
    {
      ghost var s0 := State();
      var high := ReadStop();
      ghost var first := Reading(high, stopInput);
      assert first == Read(s0.stopInput, true);
      if !high {
        StopAll();
        running := false;
        AwaitRelease();
        assert stopInput == AfterRelease(first.rest);
      }
    }

    /** The release wait of `check_stop`: `while button_stop.value() == 0`. */
    method AwaitRelease()
      modifies this`stopInput
      ensures stopInput == AfterRelease(old(stopInput))
    {
      var released := ReadStop();
      while !released
        invariant AfterRelease(old(stopInput)) == if released then stopInput else AfterRelease(stopInput)
        decreases |stopInput| + (if released then 0 else 1)
      {
        released := ReadStop();
      }
    }

    /** `wait(duration)`, `ticks` iterations long. */
    method Wait(ticks: nat)
      modifies this`motors, this`running, this`stopInput, this`timeline
      ensures State() == WaitTicks(old(State()), ticks)
    {
      var done := 0;
      while done < ticks
        invariant done <= ticks
        invariant WaitTicks(old(State()), ticks) == WaitTicks(State(), ticks - done)
      {
        CheckStop();
        if !running {
          StopAll();
          return;
        }
        timeline := timeline + [motors];
        done := done + 1;
      }
    }

    /** `wait_for_start()`; returns whether a press arrived before the recorded
        start readings ran out. */
    method WaitForStart() returns (started: bool)
      requires Valid()
      modifies this`motors, this`running, this`stopInput, this`startInput, this`timeline
      ensures Valid()
      ensures (State(), started) == WaitForStartRun(old(State()))
    {
      WaitForStartKeepsSafe(State());
      started := false;
      while !started && startInput != []
        invariant Valid()
        invariant WaitForStartRun(old(State())) == if started then (State(), true) else WaitForStartRun(State())
        decreases |startInput|, !started
      {
        var high := ReadStart();
        if high {
          running := true;
          started := true;
        } else {
          Wait(1);
        }
      }
    }

    /** `run_motor(name, speed, duration, direction)`. */
    method RunMotor(name: string, speed: int, ticks: nat, direction: int)
      requires Valid()
      modifies this`motors, this`running, this`stopInput, this`timeline
      ensures Valid()
      ensures State() == RunMotorRun(old(State()), name, speed, ticks, direction)
    {
      ghost var s0 := State();
      RunMotorKeepsSafe(s0, name, speed, ticks, direction);
      CheckStop();
      ghost var c := State();
      if Bound(name, motors) {
        var r := ParseRole(name).value;
        SetDir(r, Level(direction));
        SetDuty(r, ScaleDuty(speed));
        ghost var driven := State();
        assert driven == c.(motors := driven.motors);
        Wait(ticks);
        SetDuty(r, 0);
      }
    }

    /** The four direction writes of a translation. */
    method SetWheelDirs(fl: int, fr: int, bl: int, br: int)
      requires Wheels <= motors.Keys
      modifies this`motors
      ensures motors == SetDirs(old(motors), map[FrontLeft := fl, FrontRight := fr, BackLeft := bl, BackRight := br])
    {
      SetDir(FrontLeft, fl);
      SetDir(FrontRight, fr);
      SetDir(BackLeft, bl);
      SetDir(BackRight, br);
    }

    /** A diagonal: two direction writes, then two wheels forced to duty 0. */
    method SetDiagonal(a: RoleName, la: int, b: RoleName, lb: int, x: RoleName, y: RoleName)
      requires a in motors && b in motors && x in motors && y in motors
      requires a != b
      modifies this`motors
      ensures motors == ZeroDutiesOf(SetDirs(old(motors), map[a := la, b := lb]), {x, y})
    {
      ghost var m0 := motors;
      SetDir(a, la);
      SetDir(b, lb);
      TwoDirs(m0, a, la, b, lb);
      ghost var m1 := motors;
      SetDuty(x, 0);
      SetDuty(y, 0);
      TwoIdle(m1, x, y);
    }

    /** The direction block of `movement`, for a resolved motion. */
    method ApplyDirections(mo: Motion, direction: int)
      requires !mo.Unknown? && (IndexesWheels(mo) ==> Wheels <= motors.Keys)
      requires mo.Role? ==> mo.role in motors
      modifies this`motors
      ensures motors == Prepare(old(motors), mo, direction)
    {
      match mo {
        case FW => SetWheelDirs(0, 1, 0, 1);
        case BW => SetWheelDirs(1, 0, 1, 0);
        case L => SetWheelDirs(1, 1, 0, 0);
        case R => SetWheelDirs(0, 0, 1, 1);
        case FL => SetDiagonal(FrontRight, 1, BackLeft, 0, FrontLeft, BackRight);
        case FR => SetDiagonal(FrontLeft, 0, BackRight, 1, FrontRight, BackLeft);
        case BL => SetDiagonal(FrontRight, 0, BackLeft, 1, FrontLeft, BackRight);
        case BR => SetDiagonal(FrontLeft, 1, BackRight, 0, FrontRight, BackLeft);
        case CCW => SetAllDirs(1);
        case CW => SetAllDirs(0);
        case Role(r) => SetDir(r, Level(direction));
      }
      if DiagonalIdle(mo) == {} {
        NoIdleIsIdentity(SetDirs(old(motors), DirWrites(mo, old(motors), direction)), DiagonalIdle(mo));
      }
    }

    /** One iteration of the tick loop: poll, then either stop everything or
        write the tick's duties and sleep. */
    method Tick(motion: string, duty: int, left: nat) returns (stopped: bool)
      requires left > 0
      modifies this`motors, this`running, this`stopInput, this`timeline
      ensures var c := CheckStopStep(old(State()));
              var d := DriveTick(c.motors, motion, duty);
              stopped == !c.running
              && State() == if stopped then c.(motors := ZeroDuties(c.motors))
                            else c.(motors := d, timeline := c.timeline + [d])
      // so one iteration advances the tick loop by one tick
      ensures stopped ==> TickLoop(old(State()), motion, duty, left) == (State(), StoppedMidway)
      ensures !stopped ==> running && TickLoop(old(State()), motion, duty, left) == TickLoop(State(), motion, duty, left - 1)
    {
      CheckStop();
      if !running {
        StopAll();
        return true;
      }
      if Bound(motion, motors) {
        SetDuty(ParseRole(motion).value, duty);
      } else {
        DriveAll(duty);
      }
      timeline := timeline + [motors];
      return false;
    }

    /** The tick loop of `movement`. */
    method RunTicks(motion: string, duty: int, ticks: nat) returns (result: MoveResult)
      requires running
      modifies this`motors, this`running, this`stopInput, this`timeline
      ensures (State(), result) == TickLoop(old(State()), motion, duty, ticks)
    {
      ghost var goal := TickLoop(State(), motion, duty, ticks);
      var done := 0;
      while done < ticks
        invariant done <= ticks && running
        invariant goal == TickLoop(State(), motion, duty, ticks - done)
      {
        var stopped := Tick(motion, duty, ticks - done);
        if stopped {
          return StoppedMidway;
        }
        done := done + 1;
      }
      ghost var last := State();
      StopAll();
      assert goal == TickLoop(last, motion, duty, 0) == (State(), Completed);
      return Completed;
    }

    /** `movement(motion, speed, duration, direction)`; the result says which
        way it returned. */
    method Movement(motion: string, speed: int, ticks: nat, direction: int) returns (result: MoveResult)
      requires Valid()
      modifies this`motors, this`running, this`stopInput, this`timeline
      ensures Valid()
      ensures (State(), result) == MovementRun(old(State()), motion, speed, ticks, direction)
    {
      MovementKeepsSafe(State(), motion, speed, ticks, direction);
      if !running {
        StopAll();
        return NotRunning;
      }
      var duty := ScaleDuty(speed);
      var mo := Classify(motion, motors);
      if mo.Unknown? {
        return UnknownMotion;
      }
      if IndexesWheels(mo) && !(Wheels <= motors.Keys) {
        // the first `motors[...]` lookup raises before anything is written
        return MissingRole;
      }
      ApplyDirections(mo, direction);
      result := RunTicks(motion, duty, ticks);
    }

    /** The first pass of `_reset_all_pwm_and_dir`: the PWM pins and the
        direction pins of every profile. */
    method CollectPins() returns (usedPwm: set<Gpio>, usedDir: set<Gpio>)
      ensures usedPwm == PwmPins(configs) && usedDir == DirPins(configs)
    {
      usedPwm, usedDir := {}, {};
      var ids := configs.Keys;
      while ids != {}
        invariant ids <= configs.Keys
        invariant usedPwm == PwmPins(configs - ids) && usedDir == DirPins(configs - ids)
        decreases ids
      {
        var id :| id in ids;
        var pwm, dir := CollectProfile(configs[id]);
        CollectedStep(configs, ids, id);
        usedPwm, usedDir := usedPwm + pwm, usedDir + dir;
        ids := ids - {id};
      }
      assert configs - ids == configs;
    }

    /** `for name, pins in cfg.items(): used_pwm.add(...); used_dir.add(...)`. */
    method CollectProfile(cfg: Profile) returns (pwm: set<Gpio>, dir: set<Gpio>)
      ensures pwm == ProfilePwmPins(cfg) && dir == ProfileDirPins(cfg)
    {
      pwm, dir := {}, {};
      var roles := cfg.Keys;
      while roles != {}
        invariant roles <= cfg.Keys
        invariant pwm == ProfilePwmPins(cfg - roles) && dir == ProfileDirPins(cfg - roles)
        decreases roles
      {
        var r :| r in roles;
        ProfileStep(cfg, roles, r);
        pwm, dir := pwm + {cfg[r].pwm}, dir + {cfg[r].dir};
        roles := roles - {r};
      }
      assert cfg - roles == cfg;
    }

    /** One pass of the sweep over `used`, skipping a pin whose call raises. */
    method ResetPass(used: set<Gpio>, broken: set<Gpio>, to: PinState)
      modifies this`pins
      ensures pins == ResetPins(old(pins), used, broken, to)
    {
      var todo := used;
      while todo != {}
        invariant todo <= used
        invariant pins == ResetPins(old(pins), used - todo, broken, to)
        decreases todo
      {
        var p := PickPin(todo);
        if p !in broken {
          pins := pins[p := to];
        }
        assert used - (todo - {p}) == (used - todo) + {p};
        assert pins == ResetPins(old(pins), (used - todo) + {p}, broken, to) by {
          ResetPinsStep(old(pins), used - todo, p, broken, to);
        }
        todo := todo - {p};
      }
      assert used - todo == used;
    }

    /** `_reset_all_pwm_and_dir()`: collect the PWM pins and the direction pins
        of every profile, then release every PWM pin and drive every direction
        pin low, skipping a pin whose `deinit` raises (`pwmBroken`) in the
        first pass and one whose direction write raises (`dirBroken`) in the
        second. */
    method ResetAllPwmAndDir(pwmBroken: set<Gpio>, dirBroken: set<Gpio>)
      modifies this`pins
      ensures pins == Sweep(old(pins), PwmPins(configs), DirPins(configs), pwmBroken, dirBroken)
    {
      var usedPwm, usedDir := CollectPins();
      ResetPass(usedPwm, pwmBroken, PwmReleased);
      ResetPass(usedDir, dirBroken, DigitalOutput(0));
    }

    /** `set_motor_config(config_id)`: an unknown id is refused before any pin
        or the table is touched; otherwise every pin of every profile is swept
        and the table is replaced by the selected profile, every channel at
        duty 0 and direction 0. */
    method SetMotorConfig(id: string, pwmBroken: set<Gpio>, dirBroken: set<Gpio>) returns (status: ConfigStatus)
      requires Valid()
      modifies this`pins, this`motors
      ensures Valid()
      ensures status == (if id in configs then Configured else InvalidConfigId)
      ensures status == InvalidConfigId ==> pins == old(pins) && motors == old(motors)
      ensures status == Configured ==>
                pins == Sweep(old(pins), PwmPins(configs), DirPins(configs), pwmBroken, dirBroken)
                && motors == Bind(configs[id])
    {
      if id !in configs {
        return InvalidConfigId;
      }
      ResetAllPwmAndDir(pwmBroken, dirBroken);
      BindProfile(configs[id]);
      status := Configured;
    }

    /** The binding loop of `set_motor_config`: a fresh table with one channel
        per role of `cfg`, each written to duty 0 and direction 0. */
    method BindProfile(cfg: Profile)
      modifies this`motors
      ensures motors == Bind(cfg)
    {
      motors := map[];
      var todo := cfg.Keys;
      while todo != {}
        invariant todo <= cfg.Keys
        invariant motors == Bind(cfg - todo)
        decreases todo
      {
        var name :| name in todo;
        assert Bind(cfg - (todo - {name})) == Bind(cfg - todo)[name := Channel(cfg[name], 0, 0)];
        motors := motors[name := Channel(cfg[name], 0, 0)];
        todo := todo - {name};
      }
      assert cfg - todo == cfg;
    }
  }

  /** Any element of a non-empty pin set: the next pin a `for` loop visits. */
  method PickPin(pins: set<Gpio>) returns (p: Gpio)
    requires pins != {}
    ensures p in pins
  {
    p :| p in pins;
  }

  /** Two direction writes in turn are one `SetDirs`. */
  lemma TwoDirs(m: Table, a: RoleName, la: int, b: RoleName, lb: int)
    requires a in m && b in m && a != b
    ensures m[a := m[a].(dir := la)][b := m[a := m[a].(dir := la)][b].(dir := lb)]
            == SetDirs(m, map[a := la, b := lb])
  {
  }

  /** Two duty-0 writes in turn are one `ZeroDutiesOf`. */
  lemma TwoIdle(m: Table, x: RoleName, y: RoleName)
    requires x in m && y in m
    ensures m[x := m[x].(duty := 0)][y := m[x := m[x].(duty := 0)][y].(duty := 0)]
            == ZeroDutiesOf(m, {x, y})
  {
  }

  /** Forcing no role to duty 0 changes nothing. */
  lemma NoIdleIsIdentity(m: Table, idle: set<RoleName>)
    requires idle == {}
    ensures ZeroDutiesOf(m, idle) == m
  {
  }
}
