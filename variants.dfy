/** How the two full drivers and the bare table differ and agree, stated over
    their models: the direction tables, the rotations, the resume policy and
    the wiring they share. */
module Variants {
  import opened Actuators
  import FinalConfig
  import FD = FinalDriver
  import ML = MotorLibrary
  import BareMotors

  /** Forward and backward agree between the two drivers. */
  lemma TranslationsAgree(m: Table, direction: int)
    ensures FD.DirWrites(FW, m, direction) == ML.DirWrites(FW)
    ensures FD.DirWrites(BW, m, direction) == ML.DirWrites(BW)
  {
  }

  /** L and R are swapped between the two drivers. */
  lemma SidewaysSwapped(m: Table, direction: int)
    ensures FD.DirWrites(L, m, direction) == ML.DirWrites(R)
    ensures FD.DirWrites(R, m, direction) == ML.DirWrites(L)
    ensures FD.DirWrites(L, m, direction) != ML.DirWrites(L)
  {
    assert FD.DirWrites(L, m, direction)[FrontLeft] == 1 != 0 == ML.DirWrites(L)[FrontLeft];
  }

  /** The two front diagonals have their direction pairs swapped between the
      drivers; the two back diagonals agree. */
  lemma DiagonalsCompared(m: Table, direction: int)
    ensures FD.DirWrites(FL, m, direction) == ML.DirWrites(FR)
    ensures FD.DirWrites(FR, m, direction) == ML.DirWrites(FL)
    ensures FD.DirWrites(BL, m, direction) == ML.DirWrites(BL)
    ensures FD.DirWrites(BR, m, direction) == ML.DirWrites(BR)
  {
  }

  /** The full driver's rotations also turn extra_motor when it is bound; the
      library's never do. */
  lemma RotationsCompared(m: Table, direction: int)
    requires m.Keys == Roles
    ensures ExtraMotor in FD.DirWrites(CCW, m, direction) && ExtraMotor in FD.DirWrites(CW, m, direction)
    ensures ExtraMotor !in ML.DirWrites(CCW) && ExtraMotor !in ML.DirWrites(CW)
    ensures forall w :: w in Wheels ==>
              FD.DirWrites(CCW, m, direction)[w] == ML.DirWrites(CCW)[w]
              && FD.DirWrites(CW, m, direction)[w] == ML.DirWrites(CW)[w]
  {
  }

  /** A stop press followed by its release, with the start button held high:
      the library resumes within the same `check_stop` call, while the full
      driver stays stopped (it resumes only through `wait_for_start`). */
  lemma ResumePolicies(m: Table)
    ensures !FD.CheckStopStep(FD.DriverState(m, true, [false, true], [true], [])).running
    ensures ML.CheckStopStep(ML.LibState(m, true, [false, true], [true], [])).running
  {
    FD.CheckStopEffect(FD.DriverState(m, true, [false, true], [true], []));
    ML.CheckStopEffect(ML.LibState(m, true, [false, true], [true], []));
  }

  /** The library's and the bare table's `motor_pins` are the same wiring,
      and it is the full driver's profile "ONE". */
  lemma SharedWiring()
    ensures ML.MotorPins == BareMotors.MotorPins
    ensures "ONE" in FinalConfig.MotorConfigs && FinalConfig.MotorConfigs["ONE"] == ML.MotorPins
  {
    FinalConfig.Lookups();
  }
}
