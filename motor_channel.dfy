/**
 * One motor output of the chip. The driver keeps the same record and the same
 * four callbacks for motor A and motor B; here they are written once, as a
 * class the chip instantiates twice.
 */
module Motor {
  import opened Kernel
  import opened MotorMode
  import Decimal

  /**
   * The PWM device after the first `steps` of the set-up probe performs on it:
   * configure duty 0 over the fixed period, select normal polarity, enable.
   */
  function PwmAfterSetUp(p: PwmState, steps: nat): (q: PwmState)
    ensures steps == 0 ==> q == p
    ensures steps >= 3 ==> q == PwmState(0, PwmPeriod, Normal, true)
  {
    var configured := if steps >= 1 then PwmConfig(p, 0, PwmPeriod) else p;
    var polarised := if steps >= 2 then PwmSetPolarity(configured, Normal) else configured;
    if steps >= 3 then PwmEnable(polarised) else polarised
  }

  /**
   * `struct motor_data` together with the state of the devices its handles
   * point to: the speed PWM and the in1/in2 direction lines.
   */
  class MotorChannel {
    var pwm: PwmState
    var in1: Bit
    var in2: Bit
    /** The last speed, in percent, a store committed. */
    var speed: nat
    /** The recorded `enum motor_mode`, as the integer memory holds. */
    var mode: int

    /** The recorded fields stay within what the stores can write. */
    ghost predicate Valid()
      reads this
    {
      speed <= MaxSpeed && FromCode(mode).Some?
    }

    /** The direction lines show the recorded mode. */
    ghost predicate PinsAgree()
      reads this
    {
      FromCode(mode).Some? && ModeOfPins(in1, in2) == FromCode(mode)
    }

    /** The PWM runs the recorded speed as a fraction of the fixed period. */
    ghost predicate DutyAgrees()
      reads this
    {
      pwm.duty == speed * DutyPerPercent && pwm.period == PwmPeriod
    }

    /**
     * Zero-filled channel data bound to a PWM device and two lines whose
     * present state is given. The zero mode is the enumerator CW.
     */
    constructor (pwm0: PwmState, in1Level: Bit, in2Level: Bit)
      ensures Valid()
      ensures pwm == pwm0 && in1 == in1Level && in2 == in2Level
      ensures speed == 0 && mode == 0 && FromCode(mode) == Some(CW)
    {
      pwm := pwm0;
      in1, in2 := in1Level, in2Level;
      speed, mode := 0, 0;
    }

    /** The speed attribute's read: the recorded speed in decimal and a newline. */
    function ShowSpeed(): (r: string)
      reads this
      ensures |r| >= 2 && r[|r| - 1] == '\n'
      ensures Decimal.IsNumeral(r[..|r| - 1]) && Decimal.Value(r[..|r| - 1]) == speed
    {
      var digits := Decimal.Format(speed);
      assert (digits + "\n")[..|digits|] == digits;
      digits + "\n"
    }

    /**
     * The speed attribute's write, for the value `v` parsed from the buffer
     * and the return code `configResult` of pwm_config. Out of range: -EINVAL
     * and the PWM is not touched. A negative pwm_config result is returned and
     * the speed is not committed. Otherwise the PWM runs duty v * 100000 over
     * the fixed period and v is recorded.
     */
    method StoreSpeed(v: nat, configResult: int, count: nat) returns (ret: int)
      requires Valid()
      modifies this
      ensures Valid()
      ensures ret >= 0 <==> v <= MaxSpeed && configResult >= 0
      ensures v > MaxSpeed ==> ret == -EINVAL
      ensures v <= MaxSpeed && configResult < 0 ==> ret == configResult
      ensures ret < 0 ==> unchanged(this)
      ensures ret >= 0 ==> ret == count && speed == v
                           && pwm == PwmConfig(old(pwm), v * DutyPerPercent, PwmPeriod)
                           && in1 == old(in1) && in2 == old(in2) && mode == old(mode)
      ensures ret >= 0 ==> DutyAgrees() && pwm.duty <= pwm.period
      ensures PinsAgree() == old(PinsAgree())
    {
      if v > MaxSpeed {
        return -EINVAL;
      }
      var error := configResult;
      if error < 0 {
        return error;
      }
      pwm := PwmConfig(pwm, v * DutyPerPercent, PwmPeriod);
      speed := v;
      return count;
    }

    /** The mode attribute's read: the recorded mode's token and a newline. */
    function ShowMode(): (r: Result<string>)
      reads this
      ensures r.Err? ==> r.errno == -EINVAL
      ensures Valid() ==> r.Ok? && ParseMode(r.value) == FromCode(mode)
    {
      if FromCode(mode).Some? then
        ShowParseRoundTrip(FromCode(mode).value);
        Show(mode)
      else
        Show(mode)
    }

    /**
     * The mode attribute's write. A buffer that starts with none of the tokens
     * is refused with -EINVAL and nothing changes; otherwise in1 and then in2
     * are driven to the selected mode's levels and the mode is recorded.
     */
    method StoreMode(buf: string, count: nat) returns (ret: int)
      requires Valid()
      modifies this
      ensures Valid()
      ensures ParseMode(buf).None? ==> ret == -EINVAL && unchanged(this)
      ensures ParseMode(buf).Some? ==>
                var m := ParseMode(buf).value;
                ret == count && (in1, in2) == Pins(m) && mode == Code(m)
                && speed == old(speed) && pwm == old(pwm)
      ensures ParseMode(buf).Some? ==>
                PinsAgree() && ShowMode() == Ok(Token(ParseMode(buf).value) + "\n")
      ensures DutyAgrees() == old(DutyAgrees())
    {
      match ParseMode(buf) {
        case None =>
          return -EINVAL;
        case Some(STOP) =>
          in1 := 0;
          in2 := 0;
          mode := Code(STOP);
        case Some(CW) =>
          in1 := 0;
          in2 := 1;
          mode := Code(CW);
        case Some(CCW) =>
          in1 := 1;
          in2 := 0;
          mode := Code(CCW);
      }
      return count;
    }

    /**
     * The PWM part of probe for this motor, given the return codes of
     * pwm_config, pwm_set_polarity and pwm_enable: the steps run in that order
     * and the first non-zero code is returned before any later step runs.
     */
    method SetUpPwm(configResult: int, polarityResult: int, enableResult: int) returns (err: int)
      modifies this
      ensures err == ProbeResult([configResult, polarityResult, enableResult])
      ensures pwm == PwmAfterSetUp(old(pwm), FirstFailure([configResult, polarityResult, enableResult]))
      ensures in1 == old(in1) && in2 == old(in2) && speed == old(speed) && mode == old(mode)
    {
      ghost var codes := [configResult, polarityResult, enableResult];
      err := configResult;
      if err != 0 {
        assert FirstFailure(codes) == 0;
        return;
      }
      pwm := PwmConfig(pwm, 0, PwmPeriod);
      err := polarityResult;
      if err != 0 {
        assert FirstFailure(codes) == 1;
        return;
      }
      pwm := PwmSetPolarity(pwm, Normal);
      err := enableResult;
      if err != 0 {
        assert codes[0] == 0 && codes[1] == 0 && codes[2] != 0;
        assert FirstFailure(codes) == 2;
        return;
      }
      pwm := PwmEnable(pwm);
      assert FirstFailure(codes) == 3;
    }
  }
}
