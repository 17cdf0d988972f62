/** The profile registry of final_driver.py: the named wiring tables in
    `motor_configs` and the fail-safe sweep `_reset_all_pwm_and_dir` runs over
    the pins of every profile before a profile is bound. */
module FinalConfig {
  import opened Actuators

  /** One wiring table: role name to its PWM and direction pins. */
  type Profile = map<RoleName, PinPair>

  function Wiring(fl: PinPair, fr: PinPair, bl: PinPair, br: PinPair, extra: PinPair): (p: Profile)
    ensures p.Keys == Roles
  {
    map[FrontLeft := fl, FrontRight := fr, BackLeft := bl, BackRight := br, ExtraMotor := extra]
  }

  function P(pwm: Gpio, dir: Gpio): PinPair
  {
    PinPair(pwm, dir)
  }

  /** `motor_configs`, profile by profile. */
  const MotorConfigs: map<string, Profile> := map[
    "ONE"      := Wiring(P(25, 23), P(18, 19), P(17, 16), P(13, 14), P(4, 5)),
    "TWO"      := Wiring(P(23, 25), P(18, 19), P(16, 17), P(13, 14), P(4, 5)),
    "THREE"    := Wiring(P(25, 23), P(18, 19), P(17, 16), P(13, 14), P(4, 5)),
    "FOUR"     := Wiring(P(25, 23), P(18, 19), P(17, 16), P(13, 14), P(4, 5)),
    "FIVE"     := Wiring(P(23, 25), P(18, 19), P(16, 17), P(13, 14), P(4, 5)),
    "SIX"      := Wiring(P(23, 25), P(19, 18), P(16, 17), P(14, 13), P(4, 5)),
    "SEVEN"    := Wiring(P(25, 23), P(18, 19), P(17, 16), P(13, 14), P(4, 5)),
    "EIGHT"    := Wiring(P(25, 23), P(18, 19), P(17, 16), P(13, 14), P(4, 5)),
    "NINE"     := Wiring(P(23, 25), P(18, 19), P(16, 17), P(13, 14), P(4, 5)),
    "TEN"      := Wiring(P(25, 23), P(18, 19), P(17, 16), P(13, 14), P(4, 5)),
    "ELEVEN"   := Wiring(P(25, 23), P(19, 18), P(17, 16), P(14, 13), P(5, 4)),
    "TWELVE"   := Wiring(P(25, 23), P(18, 19), P(17, 16), P(13, 14), P(4, 5)),
    "SIXTEEN"  := Wiring(P(5, 4), P(19, 18), P(17, 16), P(14, 13), P(23, 25)),
    "THIRTY"   := Wiring(P(25, 23), P(18, 19), P(16, 17), P(14, 13), P(4, 5))
  ]

  /** Every profile binds the same five roles. */
  predicate UniformRoles(configs: map<string, Profile>)
  {
    forall id :: id in configs ==> configs[id].Keys == Roles
  }

  lemma MotorConfigsUniform()
    ensures UniformRoles(MotorConfigs)
  {
  }

  /** The pins the sweep collects: every PWM pin, and separately every
      direction pin, of every profile. */
  function PwmPins(configs: map<string, Profile>): set<Gpio>
  {
    set id, r | id in configs && r in configs[id] :: configs[id][r].pwm
  }

  function DirPins(configs: map<string, Profile>): set<Gpio>
  {
    set id, r | id in configs && r in configs[id] :: configs[id][r].dir
  }

  function ProfilePwmPins(p: Profile): set<Gpio>
  {
    set r | r in p :: p[r].pwm
  }

  function ProfileDirPins(p: Profile): set<Gpio>
  {
    set r | r in p :: p[r].dir
  }

  /** The ten GPIO numbers the wiring tables use. */
  const TablePins: set<Gpio> := {25, 23, 18, 19, 17, 16, 13, 14, 4, 5}

  /** Both pins of every role of `p` are among `pins`. */
  predicate WiredWithin(p: Profile, pins: set<Gpio>)
    requires p.Keys == Roles
  {
    p[FrontLeft].pwm in pins && p[FrontLeft].dir in pins
    && p[FrontRight].pwm in pins && p[FrontRight].dir in pins
    && p[BackLeft].pwm in pins && p[BackLeft].dir in pins
    && p[BackRight].pwm in pins && p[BackRight].dir in pins
    && p[ExtraMotor].pwm in pins && p[ExtraMotor].dir in pins
  }

  lemma PinSetsWithin(configs: map<string, Profile>, pins: set<Gpio>)
    requires UniformRoles(configs)
    requires forall id :: id in configs ==> WiredWithin(configs[id], pins)
    ensures PwmPins(configs) <= pins && DirPins(configs) <= pins
  {
    forall id, r | id in configs && r in configs[id]
      ensures configs[id][r].pwm in pins && configs[id][r].dir in pins
    {
      assert WiredWithin(configs[id], pins);
    }
  }

  lemma TablePinsWithin()
    ensures PwmPins(MotorConfigs) <= TablePins
    ensures DirPins(MotorConfigs) <= TablePins
  {
    MotorConfigsUniform();
    TableWiredWithin();
    PinSetsWithin(MotorConfigs, TablePins);
  }

  lemma TableWiredWithin()
    ensures forall id :: id in MotorConfigs ==> WiredWithin(MotorConfigs[id], TablePins)
  {
    MotorConfigsUniform();
  }

  /** Every pin of profile `id` is collected. */
  lemma ProfileCollected(configs: map<string, Profile>, id: string)
    requires id in configs
    ensures ProfilePwmPins(configs[id]) <= PwmPins(configs)
    ensures ProfileDirPins(configs[id]) <= DirPins(configs)
  {
    forall r | r in configs[id]
      ensures configs[id][r].pwm in PwmPins(configs) && configs[id][r].dir in DirPins(configs)
    {
    }
  }

  lemma WiringPins(fl: PinPair, fr: PinPair, bl: PinPair, br: PinPair, extra: PinPair)
    ensures ProfilePwmPins(Wiring(fl, fr, bl, br, extra)) == {fl.pwm, fr.pwm, bl.pwm, br.pwm, extra.pwm}
    ensures ProfileDirPins(Wiring(fl, fr, bl, br, extra)) == {fl.dir, fr.dir, bl.dir, br.dir, extra.dir}
  {
    var w := Wiring(fl, fr, bl, br, extra);
    assert w[FrontLeft] == fl && w[FrontRight] == fr && w[BackLeft] == bl;
    assert w[BackRight] == br && w[ExtraMotor] == extra;
  }

  /** The four profiles that between them use every pin in both roles. */
  lemma Lookups()
    ensures "ONE" in MotorConfigs && MotorConfigs["ONE"] == Wiring(P(25, 23), P(18, 19), P(17, 16), P(13, 14), P(4, 5))
    ensures "TWO" in MotorConfigs && MotorConfigs["TWO"] == Wiring(P(23, 25), P(18, 19), P(16, 17), P(13, 14), P(4, 5))
    ensures "SIX" in MotorConfigs && MotorConfigs["SIX"] == Wiring(P(23, 25), P(19, 18), P(16, 17), P(14, 13), P(4, 5))
    ensures "ELEVEN" in MotorConfigs && MotorConfigs["ELEVEN"] == Wiring(P(25, 23), P(19, 18), P(17, 16), P(14, 13), P(5, 4))
  {
  }

  lemma TablePinsCollected()
    ensures TablePins <= PwmPins(MotorConfigs)
    ensures TablePins <= DirPins(MotorConfigs)
  {
    Lookups();
    ProfileCollected(MotorConfigs, "ONE");
    ProfileCollected(MotorConfigs, "TWO");
    ProfileCollected(MotorConfigs, "SIX");
    ProfileCollected(MotorConfigs, "ELEVEN");
    WiringPins(P(25, 23), P(18, 19), P(17, 16), P(13, 14), P(4, 5));
    WiringPins(P(23, 25), P(18, 19), P(16, 17), P(13, 14), P(4, 5));
    WiringPins(P(23, 25), P(19, 18), P(16, 17), P(14, 13), P(4, 5));
    WiringPins(P(25, 23), P(19, 18), P(17, 16), P(14, 13), P(5, 4));
  }

  /** With the shipped tables the PWM pins and the direction pins are the same
      ten pins: every pin is a PWM pin in one profile and a direction pin in
      another. */
  lemma TablePinSets()
    ensures PwmPins(MotorConfigs) == TablePins
    ensures DirPins(MotorConfigs) == TablePins
  {
    TablePinsWithin();
    TablePinsCollected();
  }

  /** What a pin is doing, as far as the sweep is concerned. */
  datatype PinState =
    | PwmOutput(duty: int)     // a PWM channel driving the pin
    | DigitalOutput(level: int)
    | DigitalInput
    | PwmReleased              // `PWM(Pin(p)).deinit()` has run

  /** One pass of the sweep: every pin of `used` whose driver call does not
      raise (is not in `broken`) is put into state `to`; a raising pin is
      skipped and the pass goes on. */
  function ResetPins(pins: map<Gpio, PinState>, used: set<Gpio>, broken: set<Gpio>, to: PinState): map<Gpio, PinState>
  {
    map p | p in pins.Keys + (used - broken) :: if p in used && p !in broken then to else pins[p]
  }

  /** `_reset_all_pwm_and_dir`: the PWM pass over `pwm`, then the direction
      pass over `dir`, which drives its pins as outputs at 0. The two passes
      sit in separate `try` blocks around different calls, so a pin can fail
      in one and not the other: `pwmBroken` are the pins whose
      `PWM(Pin(p)).deinit()` raises, `dirBroken` those whose
      `Pin(p, Pin.OUT).value(0)` raises. */
  function Sweep(pins: map<Gpio, PinState>, pwm: set<Gpio>, dir: set<Gpio>,
                 pwmBroken: set<Gpio>, dirBroken: set<Gpio>): (r: map<Gpio, PinState>)
    // the direction pass runs last, so a pin it resets ends as an output at 0
    ensures forall p :: p in dir && p !in dirBroken ==> p in r && r[p] == DigitalOutput(0)
    // a pin released by the PWM pass keeps that state unless the direction pass resets it
    ensures forall p :: p in pwm && p !in pwmBroken && !(p in dir && p !in dirBroken) ==>
              p in r && r[p] == PwmReleased
    // a pin neither pass resets keeps whatever state it had
    ensures forall p :: (p !in pwm || p in pwmBroken) && (p !in dir || p in dirBroken) ==>
              (p in r <==> p in pins) && (p in pins ==> r[p] == pins[p])
    ensures r.Keys == pins.Keys + (pwm - pwmBroken) + (dir - dirBroken)
  {
    ResetPins(ResetPins(pins, pwm, pwmBroken, PwmReleased), dir, dirBroken, DigitalOutput(0))
  }

  /** With the shipped tables every pin is both a PWM pin and a direction pin
      of some profile, whichever profile is chosen: a pin whose direction
      write succeeds ends as an output at 0, and a pin whose direction write
      raises after its deinit succeeded ends released. */
  lemma SweepOfTable(pins: map<Gpio, PinState>, pwmBroken: set<Gpio>, dirBroken: set<Gpio>, p: Gpio)
    requires p in TablePins
    ensures var r := Sweep(pins, PwmPins(MotorConfigs), DirPins(MotorConfigs), pwmBroken, dirBroken);
            (p !in dirBroken ==> p in r && r[p] == DigitalOutput(0))
            && (p in dirBroken && p !in pwmBroken ==> p in r && r[p] == PwmReleased)
            && (p in dirBroken && p in pwmBroken ==> (p in r <==> p in pins) && (p in pins ==> r[p] == pins[p]))
  {
    TablePinSets();
  }

  /** The fresh table `set_motor_config` binds: the profile's roles, each at
      duty 0 and direction 0. */
  function Bind(p: Profile): (m: Table)
    ensures m.Keys == p.Keys
    ensures AtRest(m)
    ensures forall r :: r in m ==> m[r].pins == p[r] && m[r].dir == 0
  {
    map r | r in p :: Channel(p[r], 0, 0)
  }

  /** Collecting one more profile adds exactly its pins. */
  lemma CollectedStep(configs: map<string, Profile>, ids: set<string>, id: string)
    requires id in ids && ids <= configs.Keys
    ensures PwmPins(configs - (ids - {id})) == PwmPins(configs - ids) + ProfilePwmPins(configs[id])
    ensures DirPins(configs - (ids - {id})) == DirPins(configs - ids) + ProfileDirPins(configs[id])
  {
    var before, after := configs - ids, configs - (ids - {id});
    assert after == before[id := configs[id]];
    forall p | p in PwmPins(after)
      ensures p in PwmPins(before) + ProfilePwmPins(configs[id])
    {
      var i, r :| i in after && r in after[i] && after[i][r].pwm == p;
      if i != id { assert i in before; }
    }
    forall p | p in DirPins(after)
      ensures p in DirPins(before) + ProfileDirPins(configs[id])
    {
      var i, r :| i in after && r in after[i] && after[i][r].dir == p;
      if i != id { assert i in before; }
    }
    forall p | p in PwmPins(before) ensures p in PwmPins(after) {
      var i, r :| i in before && r in before[i] && before[i][r].pwm == p;
      assert after[i][r].pwm == p;
    }
    forall p | p in DirPins(before) ensures p in DirPins(after) {
      var i, r :| i in before && r in before[i] && before[i][r].dir == p;
      assert after[i][r].dir == p;
    }
    forall p | p in ProfilePwmPins(configs[id]) ensures p in PwmPins(after) {
      var r :| r in configs[id] && configs[id][r].pwm == p;
      assert after[id][r].pwm == p;
    }
    forall p | p in ProfileDirPins(configs[id]) ensures p in DirPins(after) {
      var r :| r in configs[id] && configs[id][r].dir == p;
      assert after[id][r].dir == p;
    }
  }

  /** Collecting one more role of a profile adds exactly its two pins. */
  lemma ProfileStep(cfg: Profile, roles: set<RoleName>, r: RoleName)
    requires r in roles && roles <= cfg.Keys
    ensures ProfilePwmPins(cfg - (roles - {r})) == ProfilePwmPins(cfg - roles) + {cfg[r].pwm}
    ensures ProfileDirPins(cfg - (roles - {r})) == ProfileDirPins(cfg - roles) + {cfg[r].dir}
  {
    var before, after := cfg - roles, cfg - (roles - {r});
    assert after == before[r := cfg[r]];
    forall p | p in ProfilePwmPins(after) ensures p in ProfilePwmPins(before) + {cfg[r].pwm} {
      var k :| k in after && after[k].pwm == p;
      if k != r { assert k in before; }
    }
    forall p | p in ProfileDirPins(after) ensures p in ProfileDirPins(before) + {cfg[r].dir} {
      var k :| k in after && after[k].dir == p;
      if k != r { assert k in before; }
    }
    forall p | p in ProfilePwmPins(before) ensures p in ProfilePwmPins(after) {
      var k :| k in before && before[k].pwm == p;
      assert after[k].pwm == p;
    }
    forall p | p in ProfileDirPins(before) ensures p in ProfileDirPins(after) {
      var k :| k in before && before[k].dir == p;
      assert after[k].dir == p;
    }
    assert after[r].pwm == cfg[r].pwm && after[r].dir == cfg[r].dir;
  }

  /** Adding one pin to a pass of the sweep resets that pin, unless it raises. */
  lemma ResetPinsStep(pins: map<Gpio, PinState>, done: set<Gpio>, p: Gpio, broken: set<Gpio>, to: PinState)
    ensures ResetPins(pins, done + {p}, broken, to)
            == if p in broken then ResetPins(pins, done, broken, to) else ResetPins(pins, done, broken, to)[p := to]
  {
  }
}
