/**
 * The whole TB6612FNG as the driver sees it: two motor channels and the
 * shared standby line, with the attribute callbacks that address them and
 * the probe and remove sequences.
 */
module Tb6612 {
  import opened Kernel
  import opened MotorMode
  import opened Motor
  import Decimal

  /** Which motor an attribute addresses: the motor_a_* or the motor_b_* files. */
  datatype Side = A | B

  function Other(side: Side): Side
  {
    if side == A then B else A
  }

  /**
   * `struct tb6612_data` together with the standby line. The chip uses
   * inverted standby logic: a low line puts it into standby.
   */
  class Chip {
    const motorA: MotorChannel
    const motorB: MotorChannel
    /** The recorded standby value (`unsigned char standby`). */
    var standby: nat
    var stbyPin: Bit

    function Channel(side: Side): MotorChannel
    {
      if side == A then motorA else motorB
    }

    ghost predicate Valid()
      reads this, motorA, motorB
    {
      motorA != motorB && motorA.Valid() && motorB.Valid() && standby <= 1
    }

    /** The recorded fields as devm_kzalloc leaves them. */
    ghost predicate ZeroFilled()
      reads this, motorA, motorB
    {
      motorA.speed == 0 && motorA.mode == 0 && motorB.speed == 0 && motorB.mode == 0 && standby == 0
    }

    /** The standby line carries the negation of the recorded standby value. */
    ghost predicate StandbyAgrees()
      reads this
    {
      stbyPin == Not(standby)
    }

    /** Every recorded value matches the output that is meant to carry it. */
    ghost predicate Consistent()
      reads this, motorA, motorB
    {
      motorA.PinsAgree() && motorA.DutyAgrees()
      && motorB.PinsAgree() && motorB.DutyAgrees()
      && StandbyAgrees()
    }

    /**
     * The zero-filled driver data, bound to devices whose present state is
     * given: both PWMs and the five lines.
     */
    constructor (pwmA: PwmState, pwmB: PwmState, ain1: Bit, ain2: Bit, bin1: Bit, bin2: Bit, stby: Bit)
      ensures Valid() && ZeroFilled() && fresh(motorA) && fresh(motorB)
      ensures motorA.pwm == pwmA && motorA.in1 == ain1 && motorA.in2 == ain2
      ensures motorB.pwm == pwmB && motorB.in1 == bin1 && motorB.in2 == bin2
      ensures stbyPin == stby
    {
      motorA := new MotorChannel(pwmA, ain1, ain2);
      motorB := new MotorChannel(pwmB, bin1, bin2);
      standby := 0;
      stbyPin := stby;
    }

    /** Writing motor_a_speed or motor_b_speed: only the addressed channel can change. */
    method StoreSpeed(side: Side, v: nat, configResult: int, count: nat) returns (ret: int)
      requires Valid()
      modifies Channel(side)
      ensures Valid()
      ensures ret >= 0 <==> v <= MaxSpeed && configResult >= 0
      ensures ret < 0 ==> ret == (if v > MaxSpeed then -EINVAL else configResult)
                          && unchanged(Channel(side))
      ensures ret >= 0 ==> ret == count && Channel(side).speed == v && Channel(side).DutyAgrees()
      ensures ret >= 0 ==> Channel(side).pwm == PwmConfig(old(Channel(side).pwm), v * DutyPerPercent, PwmPeriod)
                           && Channel(side).in1 == old(Channel(side).in1)
                           && Channel(side).in2 == old(Channel(side).in2)
                           && Channel(side).mode == old(Channel(side).mode)
      ensures unchanged(Channel(Other(side))) && standby == old(standby) && stbyPin == old(stbyPin)
      ensures old(Consistent()) ==> Consistent()
    {
      ret := Channel(side).StoreSpeed(v, configResult, count);
    }

    /** Writing motor_a_mode or motor_b_mode: only the addressed channel can change. */
    method StoreMode(side: Side, buf: string, count: nat) returns (ret: int)
      requires Valid()
      modifies Channel(side)
      ensures Valid()
      ensures ParseMode(buf).None? ==> ret == -EINVAL && unchanged(Channel(side))
      ensures ParseMode(buf).Some? ==>
                var m := ParseMode(buf).value;
                ret == count && Channel(side).mode == Code(m)
                && (Channel(side).in1, Channel(side).in2) == Pins(m)
                && Channel(side).ShowMode() == Ok(Token(m) + "\n")
      ensures ParseMode(buf).Some? ==>
                Channel(side).speed == old(Channel(side).speed) && Channel(side).pwm == old(Channel(side).pwm)
      ensures unchanged(Channel(Other(side))) && standby == old(standby) && stbyPin == old(stbyPin)
      ensures old(Consistent()) ==> Consistent()
    {
      ret := Channel(side).StoreMode(buf, count);
    }

    /** Reading the suspend attribute: the recorded standby value in decimal and a newline. */
    function ShowSuspend(): (r: string)
      reads this
      ensures |r| >= 2 && r[|r| - 1] == '\n'
      ensures Decimal.IsNumeral(r[..|r| - 1]) && Decimal.Value(r[..|r| - 1]) == standby
    {
      var digits := Decimal.Format(standby);
      assert (digits + "\n")[..|digits|] == digits;
      digits + "\n"
    }

    /**
     * Writing the suspend attribute with the parsed value `v`: above 1 it is
     * refused with -EINVAL; otherwise the standby line is driven to !v and v
     * is recorded.
     */
    method StoreSuspend(v: nat, count: nat) returns (ret: int)
      requires Valid()
      modifies this
      ensures Valid()
      ensures v > 1 ==> ret == -EINVAL && unchanged(this)
      ensures v <= 1 ==> ret == count && standby == v && stbyPin == Not(v)
      ensures v <= 1 ==> StandbyAgrees() && stbyPin == 1 - standby
      ensures old(Consistent()) ==> Consistent()
    {
      if v > 1 {
        return -EINVAL;
      }
      stbyPin := Not(v);
      standby := v;
      return count;
    }

    /**
     * Probe on the zero-filled data, given the return codes of the six PWM
     * calls in the order they are made: configure, polarity, enable for
     * motor A, then the same for motor B. The first non-zero code is returned
     * and no later step runs; when all succeed the five lines are requested
     * low. The recorded fields keep their zero values, which makes the
     * recorded mode CW and the recorded standby 0 while the lines show STOP
     * and standby.
     */
    method Probe(configA: int, polarityA: int, enableA: int,
                 configB: int, polarityB: int, enableB: int) returns (err: int)
      requires Valid() && ZeroFilled()
      modifies this, motorA, motorB
      ensures Valid() && ZeroFilled()
      ensures var codes := [configA, polarityA, enableA, configB, polarityB, enableB];
              var k := FirstFailure(codes);
              err == ProbeResult(codes)
              && motorA.pwm == PwmAfterSetUp(old(motorA.pwm), if k < 3 then k else 3)
              && motorB.pwm == PwmAfterSetUp(old(motorB.pwm), if k < 3 then 0 else k - 3)
      ensures err != 0 ==> motorA.in1 == old(motorA.in1) && motorA.in2 == old(motorA.in2)
                           && motorB.in1 == old(motorB.in1) && motorB.in2 == old(motorB.in2)
                           && stbyPin == old(stbyPin)
      ensures err == 0 ==> motorA.in1 == 0 && motorA.in2 == 0 && motorB.in1 == 0 && motorB.in2 == 0
                           && stbyPin == 0
      ensures err == 0 ==> motorA.pwm == PwmState(0, PwmPeriod, Normal, true)
                           && motorB.pwm == PwmState(0, PwmPeriod, Normal, true)
      ensures err == 0 ==> motorA.DutyAgrees() && motorB.DutyAgrees()
      ensures err == 0 ==> !motorA.PinsAgree() && !motorB.PinsAgree() && !StandbyAgrees()
    {
      ghost var codes := [configA, polarityA, enableA, configB, polarityB, enableB];
      assert codes == [configA, polarityA, enableA] + [configB, polarityB, enableB];
      FirstFailureAppend([configA, polarityA, enableA], [configB, polarityB, enableB]);
      err := motorA.SetUpPwm(configA, polarityA, enableA);
      if err != 0 {
        return;
      }
      err := motorB.SetUpPwm(configB, polarityB, enableB);
      if err != 0 {
        return;
      }
      motorA.in1 := 0;
      motorA.in2 := 0;
      motorB.in1 := 0;
      motorB.in2 := 0;
      stbyPin := 0;
    }

    /**
     * Probe followed by recording what the lines actually show: mode STOP on
     * both motors and standby 1. No output changes, and every recorded value
     * then matches its output.
     */
    method ProbeConsistent(configA: int, polarityA: int, enableA: int,
                           configB: int, polarityB: int, enableB: int) returns (err: int)
      requires Valid() && ZeroFilled()
      modifies this, motorA, motorB
      ensures Valid()
      ensures var codes := [configA, polarityA, enableA, configB, polarityB, enableB];
              var k := FirstFailure(codes);
              err == ProbeResult(codes)
              && motorA.pwm == PwmAfterSetUp(old(motorA.pwm), if k < 3 then k else 3)
              && motorB.pwm == PwmAfterSetUp(old(motorB.pwm), if k < 3 then 0 else k - 3)
      ensures err != 0 ==> ZeroFilled()
                           && motorA.in1 == old(motorA.in1) && motorA.in2 == old(motorA.in2)
                           && motorB.in1 == old(motorB.in1) && motorB.in2 == old(motorB.in2)
                           && stbyPin == old(stbyPin)
      ensures err == 0 ==> motorA.in1 == 0 && motorA.in2 == 0 && motorB.in1 == 0 && motorB.in2 == 0
                           && stbyPin == 0
      ensures err == 0 ==> motorA.pwm == PwmState(0, PwmPeriod, Normal, true)
                           && motorB.pwm == PwmState(0, PwmPeriod, Normal, true)
      ensures err == 0 ==> Consistent()
      ensures err == 0 ==> motorA.ShowMode() == Ok("stop\n") && motorB.ShowMode() == Ok("stop\n")
                           && standby == 1 && motorA.speed == 0 && motorB.speed == 0
    {
      err := Probe(configA, polarityA, enableA, configB, polarityB, enableB);
      if err == 0 {
        motorA.mode := Code(STOP);
        motorB.mode := Code(STOP);
        standby := 1;
      }
    }

    /**
     * Remove: both PWMs are disabled and all five lines are written low. The
     * standby line is written low directly, not negated, so it carries the
     * recorded standby value only when that value is 1.
     */
    method Remove()
      requires Valid()
      modifies this, motorA, motorB
      ensures Valid()
      ensures motorA.pwm == PwmDisable(old(motorA.pwm)) && motorB.pwm == PwmDisable(old(motorB.pwm))
      ensures !motorA.pwm.enabled && !motorB.pwm.enabled
      ensures motorA.in1 == 0 && motorA.in2 == 0 && motorB.in1 == 0 && motorB.in2 == 0 && stbyPin == 0
      ensures motorA.speed == old(motorA.speed) && motorA.mode == old(motorA.mode)
      ensures motorB.speed == old(motorB.speed) && motorB.mode == old(motorB.mode)
      ensures standby == old(standby)
      ensures StandbyAgrees() <==> standby == 1
    {
      motorA.pwm := PwmDisable(motorA.pwm);
      motorB.pwm := PwmDisable(motorB.pwm);
      motorA.in1 := 0;
      motorA.in2 := 0;
      motorB.in1 := 0;
      motorB.in2 := 0;
      stbyPin := 0;
    }
  }
}
