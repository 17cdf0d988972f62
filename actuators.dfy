/** Output channels shared by the three driver variants of the mecanum robot:
    every wheel role owns a PWM duty output and a direction output. This module
    holds the channel record, the role names, the speed-to-duty rule and the
    motion vocabulary the two full drivers dispatch on. */
module Actuators {

  /** A GPIO number. */
  type Gpio = nat

  /** The physical pins of one channel, as the profile tables list them. */
  datatype PinPair = PinPair(pwm: Gpio, dir: Gpio)

  /** One bound channel: its pins, the level on its direction pin and the duty
      on its PWM pin. */
  datatype Channel = Channel(pins: PinPair, dir: int, duty: int)

  /** The wheel roles the profile tables name. */
  datatype RoleName = FrontLeft | FrontRight | BackLeft | BackRight | ExtraMotor

  /** The dictionary key each role goes by. */
  function Name(r: RoleName): string
  {
    match r
    case FrontLeft => "front_left"
    case FrontRight => "front_right"
    case BackLeft => "back_left"
    case BackRight => "back_right"
    case ExtraMotor => "extra_motor"
  }

  datatype Option<T> = None | Some(value: T)

  /** The role a dictionary key names, if any. */
  function ParseRole(s: string): (r: Option<RoleName>)
    ensures r.Some? ==> Name(r.value) == s
    ensures forall q: RoleName :: Name(q) == s ==> r == Some(q)
  {
    if s == "front_left" then Some(FrontLeft)
    else if s == "front_right" then Some(FrontRight)
    else if s == "back_left" then Some(BackLeft)
    else if s == "back_right" then Some(BackRight)
    else if s == "extra_motor" then Some(ExtraMotor)
    else None
  }

  /** A bound-channel table: the `motors` dictionary of a driver. */
  type Table = map<RoleName, Channel>

  /** `name in motors` for a dictionary key `name`. */
  predicate Bound(name: string, m: Table)
  {
    ParseRole(name).Some? && ParseRole(name).value in m
  }

  /** The table an import-time binding loop builds from the wiring `pins`.
      The loop writes neither the duty nor the direction level, so both are
      whatever the peripherals held at power-up: `bootDir` and `bootDuty`. */
  function BootTable(pins: map<RoleName, PinPair>, bootDir: RoleName -> int, bootDuty: RoleName -> int): (m: Table)
    ensures m.Keys == pins.Keys
    ensures forall r :: r in m ==> m[r].pins == pins[r]
  {
    map r | r in pins :: Channel(pins[r], bootDir(r), bootDuty(r))
  }

  /** The four driven wheels, and every role a profile binds. */
  const Wheels: set<RoleName> := {FrontLeft, FrontRight, BackLeft, BackRight}
  const Roles: set<RoleName> := {FrontLeft, FrontRight, BackLeft, BackRight, ExtraMotor}

  /** Largest duty the PWM peripheral takes (10-bit). */
  const DutyMax: int := 1023

  /** `Pin.value(v)` drives the pin high exactly when `v` is truthy. */
  function Level(v: int): int
  {
    if v != 0 then 1 else 0
  }

  /** `max(0, min(100, speed))`. */
  function Clamp(speed: int): int
  {
    if speed < 0 then 0 else if speed > 100 then 100 else speed
  }

  /** The duty both full drivers compute from a speed percentage:
      `int(max(0, min(100, speed)) * 1023 // 100)`; the operands are never
      negative, so Python's floor division agrees with Dafny's. */
  function ScaleDuty(speed: int): (d: int)
    ensures 0 <= d <= DutyMax
    ensures speed <= 0 ==> d == 0
    ensures speed >= 100 ==> d == DutyMax
    ensures 0 < speed ==> 0 < d
  {
    Clamp(speed) * DutyMax / 100
  }

  /** A larger speed never yields a smaller duty. */
  lemma ScaleDutyMonotone(a: int, b: int)
    requires a <= b
    ensures ScaleDuty(a) <= ScaleDuty(b)
  {
    var ca, cb := Clamp(a), Clamp(b);
    assert ca <= cb;
    assert ca * DutyMax <= cb * DutyMax;
    DivMonotone(ca * DutyMax, cb * DutyMax);
  }

  lemma DivMonotone(x: int, y: int)
    requires 0 <= x <= y
    ensures x / 100 <= y / 100
  {
    var qx, qy := x / 100, y / 100;
    assert 100 * qx <= x && y < 100 * qy + 100;
    assert 100 * qx < 100 * (qy + 1);
  }

  /** What `stop_all` leaves behind: every channel at duty 0, nothing else changed. */
  function ZeroDuties(m: Table): (z: Table)
    ensures z.Keys == m.Keys
  {
    map r | r in m :: m[r].(duty := 0)
  }

  /** Every bound channel is at duty 0. */
  predicate AtRest(m: Table)
  {
    forall r :: r in m ==> m[r].duty == 0
  }

  /** Overwrite the direction level of the roles `w` names. */
  function SetDirs(m: Table, w: map<RoleName, int>): (r: Table)
    ensures r.Keys == m.Keys
  {
    map k | k in m :: if k in w then m[k].(dir := w[k]) else m[k]
  }

  /** Force the duty of the roles in `idle` to 0. */
  function ZeroDutiesOf(m: Table, idle: set<RoleName>): (r: Table)
    ensures r.Keys == m.Keys
  {
    map k | k in m :: if k in idle then m[k].(duty := 0) else m[k]
  }

  /** The motion strings the drivers recognise, after dispatch: the ten
      kinematic motions, a bound role name (single-motor motion) and anything
      else. */
  datatype Motion =
    | FW | BW | L | R | FL | FR | BL | BR | CCW | CW
    | Role(role: RoleName)
    | Unknown(text: string)

  /** Motions whose direction writes index the four wheels by name. */
  predicate IndexesWheels(m: Motion)
  {
    m.FW? || m.BW? || m.L? || m.R? || m.FL? || m.FR? || m.BL? || m.BR?
  }

  /** Why `movement` returned. */
  datatype MoveResult =
    | Completed       // the tick loop ran to the requested duration
    | StoppedMidway   // a stop poll inside the loop cleared the running flag
    | NotRunning      // the entry guard: the flag was already clear
    | UnknownMotion   // "Unknown motion" diagnostic, nothing written
    | MissingRole     // `motors["front_left"]` (or another wheel) raised KeyError
}
