/** motors.py, the bare channel table: the five channels of `motor_pins`
    bound at import, and raw `run_motor`, `stop_motor` and `stop_all` that
    write the direction level and the duty exactly as given. */
module BareMotors {
  import opened Actuators

  /** `motor_pins`. */
  const MotorPins: map<RoleName, PinPair> := map[
    FrontLeft := PinPair(25, 23),
    FrontRight := PinPair(18, 19),
    BackLeft := PinPair(17, 16),
    BackRight := PinPair(13, 14),
    ExtraMotor := PinPair(4, 5)]

  /** The table after `run_motor(name, speed, direction)` on role `r`. */
  function Drive(m: Table, r: RoleName, speed: int, direction: int): Table
    requires r in m
  {
    m[r := m[r].(dir := Level(direction), duty := speed)]
  }

  /** `run_motor` writes the direction's level and the speed itself as duty,
      unscaled and unclamped, to the named channel and to no other. */
  lemma DriveEffect(m: Table, r: RoleName, speed: int, direction: int)
    requires r in m
    ensures var t := Drive(m, r, speed, direction);
            t.Keys == m.Keys
            && t[r].duty == speed && t[r].dir == Level(direction) && t[r].pins == m[r].pins
            && forall k :: k in m && k != r ==> t[k] == m[k]
  {
  }

  /** Unlike the full drivers, no bound is imposed on the duty: a speed of
      5000 reaches the channel as 5000, where the full drivers would write 1023. */
  lemma NoClamping(m: Table, r: RoleName)
    requires r in m
    ensures Drive(m, r, 5000, 1)[r].duty == 5000 > DutyMax == ScaleDuty(5000)
  {
  }

  /** The table after `stop_all`: every channel at duty 0 and direction 0. */
  function Halted(m: Table): Table
  {
    map k | k in m :: m[k].(dir := 0, duty := 0)
  }

  /** `stop_all` leaves every bound channel at rest with its direction pin
      low, and keeps the table's roles and pins. */
  lemma HaltedEffect(m: Table)
    ensures Halted(m).Keys == m.Keys
    ensures AtRest(Halted(m))
    ensures forall k :: k in m ==> Halted(m)[k].dir == 0 && Halted(m)[k].pins == m[k].pins
  {
  }

  class MotorTable {
    /** `motors`. */
    var motors: Table

    /** The table binds exactly the five roles of `motor_pins`. */
    ghost predicate Valid()
      reads this
    {
      motors.Keys == Roles
    }

    /** Module import: one channel per entry of `motor_pins`. */
    constructor (bootDir: RoleName -> int, bootDuty: RoleName -> int)
      ensures Valid() && motors == BootTable(MotorPins, bootDir, bootDuty)
    {
      var table: Table := map[];
      var todo := MotorPins.Keys;
      while todo != {}
        invariant todo <= MotorPins.Keys
        invariant table == map r | r in MotorPins.Keys - todo :: Channel(MotorPins[r], bootDir(r), bootDuty(r))
        decreases todo
      {
        var name :| name in todo;
        table := table[name := Channel(MotorPins[name], bootDir(name), bootDuty(name))];
        todo := todo - {name};
      }
      assert MotorPins.Keys - todo == MotorPins.Keys;
      motors := table;
    }

    /** `run_motor(name, speed, direction)`; `motors[name]` raises for a name
        that is not bound, so the name must be bound. */
    method RunMotor(name: string, speed: int, direction: int)
      requires Bound(name, motors)
      modifies this`motors
      ensures motors == Drive(old(motors), ParseRole(name).value, speed, direction)
    {
      var r := ParseRole(name).value;
      motors := motors[r := motors[r].(dir := Level(direction))];
      motors := motors[r := motors[r].(duty := speed)];
    }

    /** `stop_motor(name)`: `run_motor(name, 0, 0)`. */
    method StopMotor(name: string)
      requires Bound(name, motors)
      modifies this`motors
      ensures motors == Drive(old(motors), ParseRole(name).value, 0, 0)
    {
      RunMotor(name, 0, 0);
    }

    /** `stop_all()`: `stop_motor` for every bound name. */
    method StopAll()
      modifies this`motors
      ensures motors == Halted(old(motors))
    {
      var todo := motors.Keys;
      while todo != {}
        invariant todo <= motors.Keys == old(motors).Keys
        invariant forall k :: k in motors ==>
                    motors[k] == if k in todo then old(motors)[k] else old(motors)[k].(dir := 0, duty := 0)
        decreases todo
      {
        var k :| k in todo;
        assert ParseRole(Name(k)) == Some(k);
        StopMotor(Name(k));
        todo := todo - {k};
      }
    }
  }
}
