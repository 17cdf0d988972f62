/** motor_library.py, the older driver: one fixed wiring table bound at
    import, `run_motor` without a stop poll, a `check_stop` that both stops and
    resumes, and a `movement` whose tick loop never polls the buttons.

    As for the full driver, each method of `Library` is proved equal to a
    function on `LibState` values, and the lemmas are about those functions.
    Durations are whole 50 ms ticks. */
module MotorLibrary {
  import opened Actuators
  import opened Buttons

  /** `motor_pins`. */
  const MotorPins: map<RoleName, PinPair> := map[
    FrontLeft := PinPair(25, 23),
    FrontRight := PinPair(18, 19),
    BackLeft := PinPair(17, 16),
    BackRight := PinPair(13, 14),
    ExtraMotor := PinPair(4, 5)]

  /** The library's mutable state; `timeline` holds the outputs held during
      each sleep of `run_motor`, of `check_stop`'s resume delay and of the
      movement loop, oldest first. */
  datatype LibState = LibState(
    motors: Table,
    running: bool,
    stopInput: seq<bool>,
    startInput: seq<bool>,
    timeline: seq<Table>)

  // ---------------------------------------------------------------- buttons

  /** `check_stop`: a low stop reading stops everything, clears the flag and
      waits for the release; then, whatever happened before, a start reading
      of 1 sets the flag and sleeps 0.3 s. */
  function CheckStopStep(s: LibState): (t: LibState)
    ensures t.motors.Keys == s.motors.Keys
  {
    var p := PollStop(s.stopInput);
    var s1 := if p.pressed then s.(motors := ZeroDuties(s.motors), running := false, stopInput := p.rest)
              else s.(stopInput := p.rest);
    var start := Read(s1.startInput, false);
    if start.high then s1.(running := true, startInput := start.rest, timeline := s1.timeline + [s1.motors])
    else s1.(startInput := start.rest)
  }

  /** The resume is level-triggered: after the call the flag is set exactly
      when the start reading was 1, or when it was already set and the stop
      reading was not low. A press stops every motor first, and a start
      reading taken straight after the release resumes at once. */
  lemma CheckStopEffect(s: LibState)
    ensures var t := CheckStopStep(s);
            var pressed := s.stopInput != [] && !s.stopInput[0];
            var start := Read(s.startInput, false);
            (t.running <==> start.high || (s.running && !pressed))
            && (pressed ==> t.motors == ZeroDuties(s.motors))
            && (!pressed ==> t.motors == s.motors)
            && t.stopInput == PollStop(s.stopInput).rest
            && t.startInput == start.rest
            && t.timeline == s.timeline + (if start.high then [t.motors] else [])
  {
    PollStopReads(s.stopInput);
  }

  // ---------------------------------------------------------------- run_motor

  /** `run_motor(name, speed, duration, direction)`: no stop poll; for a bound
      name write the direction and scaled duty, sleep once, then duty 0. */
  function RunMotorRun(s: LibState, name: string, speed: int, direction: int): (t: LibState)
    ensures t.motors.Keys == s.motors.Keys
  {
    if !Bound(name, s.motors) then s
    else
      var r := ParseRole(name).value;
      var withDir := s.motors[r := s.motors[r].(dir := Level(direction))];
      var driven := withDir[r := withDir[r].(duty := ScaleDuty(speed))];
      s.(motors := driven[r := driven[r].(duty := 0)], timeline := s.timeline + [driven])
  }

  /** An unbound name changes nothing at all; a bound one sleeps once with
      that motor at the scaled duty and its direction written, then leaves it
      at duty 0, touching no other motor, the flag or the buttons. */
  lemma RunMotorEffect(s: LibState, name: string, speed: int, direction: int)
    ensures !Bound(name, s.motors) ==> RunMotorRun(s, name, speed, direction) == s
    ensures Bound(name, s.motors) ==>
              var t := RunMotorRun(s, name, speed, direction);
              var r := ParseRole(name).value;
              t.running == s.running && t.stopInput == s.stopInput && t.startInput == s.startInput
              && |t.timeline| == |s.timeline| + 1 && t.timeline[..|s.timeline|] == s.timeline
              && t.timeline[|s.timeline|][r] == s.motors[r].(dir := Level(direction), duty := ScaleDuty(speed))
              && t.motors[r] == s.motors[r].(dir := Level(direction), duty := 0)
              && forall k :: k in s.motors && k != r ==> t.motors[k] == s.motors[k] && t.timeline[|s.timeline|][k] == s.motors[k]
  {
  }

  // ---------------------------------------------------------------- movement

  /** The `if motion == ... elif` chain of `movement`. The second
      `elif motion == "FL"` (a single-motor motion) repeats an earlier test
      and can never be reached, so no motion resolves to a role. */
  function Classify(motion: string): Motion
  {
    if motion == "FW" then FW
    else if motion == "BW" then BW
    else if motion == "CCW" then CCW
    else if motion == "CW" then CW
    else if motion == "R" then R
    else if motion == "L" then L
    else if motion == "FR" then FR
    else if motion == "FL" then FL
    else if motion == "BR" then BR
    else if motion == "BL" then BL
    else Unknown(motion)
  }

  /** The direction levels each motion writes. */
  function DirWrites(mo: Motion): map<RoleName, int>
  {
    match mo
    case FW => map[FrontLeft := 0, FrontRight := 1, BackLeft := 0, BackRight := 1]
    case BW => map[FrontLeft := 1, FrontRight := 0, BackLeft := 1, BackRight := 0]
    case CCW => map[FrontLeft := 1, FrontRight := 1, BackLeft := 1, BackRight := 1]
    case CW => map[FrontLeft := 0, FrontRight := 0, BackLeft := 0, BackRight := 0]
    case R => map[FrontLeft := 1, FrontRight := 1, BackLeft := 0, BackRight := 0]
    case L => map[FrontLeft := 0, FrontRight := 0, BackLeft := 1, BackRight := 1]
    case FR => map[FrontRight := 1, BackLeft := 0]
    case FL => map[FrontLeft := 0, BackRight := 1]
    case BR => map[FrontLeft := 1, BackRight := 0]
    case BL => map[FrontRight := 0, BackLeft := 1]
    case _ => map[]
  }

  /** The roles each tick of a motion drives. */
  function Driven(mo: Motion, m: Table): set<RoleName>
  {
    match mo
    case FR => {FrontRight, BackLeft}
    case BL => {FrontRight, BackLeft}
    case FL => {FrontLeft, BackRight}
    case BR => {FrontLeft, BackRight}
    case _ => m.Keys - {ExtraMotor}
  }

  /** Duty `duty` on the roles `roles`, every other channel as it was. */
  function DriveRoles(m: Table, roles: set<RoleName>, duty: int): (t: Table)
    ensures t.Keys == m.Keys
  {
    map k | k in m :: if k in roles then m[k].(duty := duty) else m[k]
  }

  /** The tick loop, then the final `stop_all`. The loop's `if not _running`
      test sees the flag the entry guard already found set, and nothing in
      the loop changes it, so that exit is not part of the model. */
  function TickLoop(s: LibState, mo: Motion, duty: int, ticks: nat): (t: LibState)
    ensures t.motors.Keys == s.motors.Keys
    decreases ticks
  {
    if ticks == 0 then s.(motors := ZeroDuties(s.motors))
    else
      var d := DriveRoles(s.motors, Driven(mo, s.motors), duty);
      TickLoop(s.(motors := d, timeline := s.timeline + [d]), mo, duty, ticks - 1)
  }

  /** `movement(motion, speed, duration)`. */
  function MovementRun(s: LibState, motion: string, speed: int, ticks: nat): (r: (LibState, MoveResult))
    ensures r.0.motors.Keys == s.motors.Keys
  {
    if !s.running then (s.(motors := ZeroDuties(s.motors)), NotRunning)
    else
      var mo := Classify(motion);
      if mo.Unknown? then (s, UnknownMotion)
      else (TickLoop(s.(motors := SetDirs(s.motors, DirWrites(mo))), mo, ScaleDuty(speed), ticks), Completed)
  }

  /** The same duties again change nothing; then only duties have changed. */
  lemma DriveRolesKeepsDirs(m: Table, mo: Motion, duty: int)
    ensures DriveRoles(DriveRoles(m, Driven(mo, m), duty), Driven(mo, m), duty) == DriveRoles(m, Driven(mo, m), duty)
    ensures ZeroDuties(DriveRoles(m, Driven(mo, m), duty)) == ZeroDuties(m)
  {
  }

  /** The loop sleeps exactly `ticks` times, each time with the same duties,
      leaves the flag and the buttons alone, and ends with every duty 0 and
      the directions it started with. */
  lemma {:induction false} TickLoopEffect(s: LibState, mo: Motion, duty: int, ticks: nat)
    ensures var t := TickLoop(s, mo, duty, ticks);
            var d := DriveRoles(s.motors, Driven(mo, s.motors), duty);
            t.motors == ZeroDuties(s.motors)
            && t.running == s.running && t.stopInput == s.stopInput && t.startInput == s.startInput
            && |t.timeline| == |s.timeline| + ticks && t.timeline[..|s.timeline|] == s.timeline
            && forall i :: |s.timeline| <= i < |t.timeline| ==> t.timeline[i] == d
    decreases ticks
  {
    if ticks > 0 {
      var d := DriveRoles(s.motors, Driven(mo, s.motors), duty);
      var s' := s.(motors := d, timeline := s.timeline + [d]);
      DriveRolesKeepsDirs(s.motors, mo, duty);
      assert Driven(mo, d) == Driven(mo, s.motors);
      TickLoopEffect(s', mo, duty, ticks - 1);
      var t := TickLoop(s', mo, duty, ticks - 1);
      assert t.timeline[..|s'.timeline|] == s'.timeline;
      assert t.timeline[..|s.timeline|] == s'.timeline[..|s.timeline|];
    }
  }

  /** Once past the entry guard a recognised motion always runs its whole
      duration (no button can cut it short) and ends with every duty 0 and
      the motion's directions written. */
  lemma {:induction false} MovementRunsFull(s: LibState, motion: string, speed: int, ticks: nat)
    requires s.running && !Classify(motion).Unknown?
    ensures var r := MovementRun(s, motion, speed, ticks);
            r.1 == Completed && r.0.running
            && r.0.stopInput == s.stopInput && r.0.startInput == s.startInput
            && |r.0.timeline| == |s.timeline| + ticks
            && r.0.motors == ZeroDuties(SetDirs(s.motors, DirWrites(Classify(motion))))
  {
    var mo := Classify(motion);
    TickLoopEffect(s.(motors := SetDirs(s.motors, DirWrites(mo))), mo, ScaleDuty(speed), ticks);
  }

  /** With the flag clear, `movement` zeroes every duty and writes no
      direction bit; a role name, or any string outside the ten motions,
      writes nothing at all. */
  lemma MovementGuards(s: LibState, motion: string, speed: int, ticks: nat)
    ensures !s.running ==> MovementRun(s, motion, speed, ticks) == (s.(motors := ZeroDuties(s.motors)), NotRunning)
    ensures s.running && Classify(motion).Unknown? ==> MovementRun(s, motion, speed, ticks) == (s, UnknownMotion)
    ensures forall q :: Classify(Name(q)).Unknown?
  {
  }

  /** The direction table: R and L write 1,1,0,0 and 0,0,1,1 to fl/fr/bl/br;
      the rotations write only the four wheels, never extra_motor. */
  lemma DirTable()
    ensures DirWrites(R) == map[FrontLeft := 1, FrontRight := 1, BackLeft := 0, BackRight := 0]
    ensures DirWrites(L) == map[FrontLeft := 0, FrontRight := 0, BackLeft := 1, BackRight := 1]
    ensures DirWrites(CCW).Keys == Wheels == DirWrites(CW).Keys && ExtraMotor !in Wheels
    ensures forall w :: w in Wheels ==> DirWrites(CCW)[w] == 1 && DirWrites(CW)[w] == 0
  {
  }

  /** Each tick of FR or BL drives only front_right and back_left, each tick
      of FL or BR only front_left and back_right, and every other channel
      keeps the duty it had before the call. */
  lemma {:induction false} DiagonalDuties(s: LibState, motion: string, speed: int, ticks: nat)
    requires s.running
    requires Classify(motion) in {FR, FL, BR, BL}
    ensures var r := MovementRun(s, motion, speed, ticks);
            var pair := if Classify(motion) in {FR, BL} then {FrontRight, BackLeft} else {FrontLeft, BackRight};
            forall i, k :: |s.timeline| <= i < |r.0.timeline| && k in s.motors ==>
              k in r.0.timeline[i]
              && r.0.timeline[i][k].duty == (if k in pair then ScaleDuty(speed) else s.motors[k].duty)
  {
    var mo := Classify(motion);
    var p := SetDirs(s.motors, DirWrites(mo));
    var st := s.(motors := p);
    var duty := ScaleDuty(speed);
    TickLoopEffect(st, mo, duty, ticks);
    var r := TickLoop(st, mo, duty, ticks);
    assert MovementRun(s, motion, speed, ticks) == (r, Completed);
    var d := DriveRoles(p, Driven(mo, p), duty);
    forall i, k | |s.timeline| <= i < |r.timeline| && k in s.motors
      ensures k in r.timeline[i]
      ensures r.timeline[i][k].duty
              == (if k in (if mo in {FR, BL} then {FrontRight, BackLeft} else {FrontLeft, BackRight}) then duty else s.motors[k].duty)
    {
      assert r.timeline[i] == d;
    }
  }

  // ---------------------------------------------------------------- the library

  class Library {
    /** `motors`. */
    var motors: Table
    /** `_running`. */
    var running: bool
    var stopInput: seq<bool>
    var startInput: seq<bool>
    var timeline: seq<Table>

    /** The table always binds the five roles of `motor_pins`. */
    ghost predicate Valid()
      reads this
    {
      motors.Keys == Roles
    }

    function State(): LibState
      reads this
    {
      LibState(motors, running, stopInput, startInput, timeline)
    }

    /** Module import: bind every entry of `motor_pins`, `_running = False`. */
    constructor (bootDir: RoleName -> int, bootDuty: RoleName -> int, stop: seq<bool>, start: seq<bool>)
      ensures Valid()
      ensures State() == LibState(BootTable(MotorPins, bootDir, bootDuty), false, stop, start, [])
    {
      var table: Table := map[];
      var todo := MotorPins.Keys;
      while todo != {}
        invariant todo <= MotorPins.Keys
        invariant table == map r | r in MotorPins.Keys - todo :: Channel(MotorPins[r], bootDir(r), bootDuty(r))
        decreases todo
      {
        var name :| name in todo;
        table := table[name := Channel(MotorPins[name], bootDir(name), bootDuty(name))];
        todo := todo - {name};
      }
      assert MotorPins.Keys - todo == MotorPins.Keys;
      motors := table;
      running := false;
      stopInput := stop;
      startInput := start;
      timeline := [];
    }

    /** `is_running()`. */
    function IsRunning(): (r: bool)
      reads this
      ensures r == State().running
    {
      running
    }

    method ReadStop() returns (high: bool)
      modifies this`stopInput
      ensures Reading(high, stopInput) == Read(old(stopInput), true)
    {
      if stopInput == [] {
        high := true;
      } else {
        high := stopInput[0];
        stopInput := stopInput[1..];
      }
    }

    method ReadStart() returns (high: bool)
      modifies this`startInput
      ensures Reading(high, startInput) == Read(old(startInput), false)
    {
      if startInput == [] {
        high := false;
      } else {
        high := startInput[0];
        startInput := startInput[1..];
      }
    }

    /** `stop_motor(name)`. */
    method StopMotor(name: string)
      modifies this`motors
      ensures motors == if Bound(name, old(motors))
                        then old(motors)[ParseRole(name).value := old(motors)[ParseRole(name).value].(duty := 0)]
                        else old(motors)
    {
      if Bound(name, motors) {
        var r := ParseRole(name).value;
        motors := motors[r := motors[r].(duty := 0)];
      }
    }

    /** `stop_all()`: `stop_motor` for every bound name. */
    method StopAll()
      modifies this`motors
      ensures motors == ZeroDuties(old(motors))
    {
      var todo := motors.Keys;
      while todo != {}
        invariant todo <= motors.Keys == old(motors).Keys
        invariant forall k :: k in motors ==>
                    motors[k] == if k in todo then old(motors)[k] else old(motors)[k].(duty := 0)
        decreases todo
      {
        var k :| k in todo;
        assert ParseRole(Name(k)) == Some(k);
        StopMotor(Name(k));
        todo := todo - {k};
      }
    }

    /** `run_motor(name, speed, duration, direction)`. */
    method RunMotor(name: string, speed: int, direction: int)
      requires Valid()
      modifies this`motors, this`timeline
      ensures Valid()
      ensures State() == RunMotorRun(old(State()), name, speed, direction)
    {
      if Bound(name, motors) {
        var r := ParseRole(name).value;
        motors := motors[r := motors[r].(dir := Level(direction))];
        motors := motors[r := motors[r].(duty := ScaleDuty(speed))];
        timeline := timeline + [motors];
        motors := motors[r := motors[r].(duty := 0)];
      }
    }

    /** `check_stop()`; the message is not modelled. */
    method CheckStop()
      modifies this`motors, this`running, this`stopInput, this`startInput, this`timeline
      ensures State() == CheckStopStep(old(State()))
    {
      var high := ReadStop();
      if !high {
        StopAll();
        running := false;
        ghost var pressedAt := stopInput;
        ghost var stopped := motors;
        var released := ReadStop();
        while !released
          invariant motors == stopped && !running && startInput == old(startInput) && timeline == old(timeline)
          invariant AfterRelease(pressedAt) == if released then stopInput else AfterRelease(stopInput)
          decreases |stopInput| + (if released then 0 else 1)
        {
          released := ReadStop();
        }
      }
      var start := ReadStart();
      if start {
        running := true;
        timeline := timeline + [motors];
      }
    }

    method SetDir(r: RoleName, level: int)
      requires r in motors
      modifies this`motors
      ensures motors == old(motors)[r := old(motors)[r].(dir := level)]
    {
      motors := motors[r := motors[r].(dir := level)];
    }

    /** The four direction writes of a translation. */
    method SetWheelDirs(fl: int, fr: int, bl: int, br: int)
      requires Wheels <= motors.Keys
      modifies this`motors
      ensures motors == SetDirs(old(motors), map[FrontLeft := fl, FrontRight := fr, BackLeft := bl, BackRight := br])
    {
      SetDir(FrontLeft, fl);
      SetDir(FrontRight, fr);
      SetDir(BackLeft, bl);
      SetDir(BackRight, br);
    }

    /** `for m in [...the four wheels...]: motors[m]["dir"].value(level)`. */
    method SetRotationDirs(level: int)
      requires Wheels <= motors.Keys
      modifies this`motors
      ensures motors == SetDirs(old(motors), map[FrontLeft := level, FrontRight := level, BackLeft := level, BackRight := level])
    {
      var wheels := [FrontLeft, FrontRight, BackLeft, BackRight];
      for i := 0 to |wheels|
        invariant motors.Keys == old(motors).Keys
        invariant forall k :: k in motors ==>
                    motors[k] == if k in wheels[..i] then old(motors)[k].(dir := level) else old(motors)[k]
      {
        SetDir(wheels[i], level);
      }
      assert wheels[..|wheels|] == wheels;
    }

    /** Two direction writes of a diagonal. */
    method SetPairDirs(a: RoleName, la: int, b: RoleName, lb: int)
      requires a in motors && b in motors && a != b
      modifies this`motors
      ensures motors == SetDirs(old(motors), map[a := la, b := lb])
    {
      SetDir(a, la);
      SetDir(b, lb);
    }

    /** The direction block of `movement`, for a recognised motion. */
    method ApplyDirections(mo: Motion)
      requires Valid() && !mo.Unknown? && !mo.Role?
      modifies this`motors
      ensures motors == SetDirs(old(motors), DirWrites(mo))
    {
      match mo {
        case FW => SetWheelDirs(0, 1, 0, 1);
        case BW => SetWheelDirs(1, 0, 1, 0);
        case CCW => SetRotationDirs(1);
        case CW => SetRotationDirs(0);
        case R => SetWheelDirs(1, 1, 0, 0);
        case L => SetWheelDirs(0, 0, 1, 1);
        case FR => SetPairDirs(FrontRight, 1, BackLeft, 0);
        case FL => SetPairDirs(FrontLeft, 0, BackRight, 1);
        case BR => SetPairDirs(FrontLeft, 1, BackRight, 0);
        case BL => SetPairDirs(FrontRight, 0, BackLeft, 1);
      }
    }

    /** The duty writes of one tick. */
    method DriveTick(mo: Motion, duty: int)
      modifies this`motors
      ensures motors == DriveRoles(old(motors), Driven(mo, old(motors)), duty)
    {
      var roles := Driven(mo, motors);
      var todo := motors.Keys;
      while todo != {}
        invariant todo <= motors.Keys == old(motors).Keys
        invariant forall k :: k in motors ==>
                    motors[k] == if k in todo || k !in roles then old(motors)[k] else old(motors)[k].(duty := duty)
        decreases todo
      {
        var k :| k in todo;
        if k in roles {
          motors := motors[k := motors[k].(duty := duty)];
        }
        todo := todo - {k};
      }
    }

    /** The tick loop of `movement` and its final `stop_all`. */
    method RunTicks(mo: Motion, duty: int, ticks: nat)
      modifies this`motors, this`timeline
      ensures State() == TickLoop(old(State()), mo, duty, ticks)
    {
      var done := 0;
      while done < ticks
        invariant done <= ticks
        invariant TickLoop(old(State()), mo, duty, ticks) == TickLoop(State(), mo, duty, ticks - done)
      {
        // the source's `if not _running: stop_all(); return` cannot fire here
        DriveTick(mo, duty);
        timeline := timeline + [motors];
        done := done + 1;
      }
      StopAll();
    }

    /** `movement(motion, speed, duration)`. */
    method Movement(motion: string, speed: int, ticks: nat) returns (result: MoveResult)
      requires Valid()
      modifies this`motors, this`timeline
      ensures Valid()
      ensures (State(), result) == MovementRun(old(State()), motion, speed, ticks)
    {
      if !running {
        StopAll();
        return NotRunning;
      }
      var duty := ScaleDuty(speed);
      var mo := Classify(motion);
      if mo.Unknown? {
        return UnknownMotion;
      }
      ApplyDirections(mo);
      RunTicks(mo, duty, ticks);
      return Completed;
    }
  }
}
