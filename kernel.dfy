/**
 * The parts of the kernel the TB6612FNG driver talks to, reduced to values:
 * the state of a PWM device, the level of a GPIO line, the driver's constants
 * and the convention that a callback returns a byte count or a negative errno.
 */
module Kernel {

  /** MOTOR_PWM_PERIOD: the fixed PWM period, in nanoseconds. */
  const PwmPeriod: nat := 10000000

  /** MOTOR_PWM_DUTY_MUL: the duty, in nanoseconds, of one percent of speed. */
  const DutyPerPercent: nat := 100000

  /** The largest speed, in percent, a store accepts. */
  const MaxSpeed: nat := 100

  /** The errno value of EINVAL; callbacks return its negation. */
  const EINVAL: int := 22

  /** The value written to a GPIO line with gpiod_set_value. */
  type Bit = b: int | 0 <= b <= 1

  datatype Option<T> = None | Some(value: T)

  /** What a show callback produces: the text it formats, or a negative errno. */
  datatype Result<T> = Ok(value: T) | Err(errno: int)

  datatype Polarity = Normal | Inversed

  /** What a PWM device holds: duty and period in nanoseconds, polarity, and whether it runs. */
  datatype PwmState = PwmState(duty: nat, period: nat, polarity: Polarity, enabled: bool)

  // The effect of each PWM call on its device when the call succeeds.

  function PwmConfig(p: PwmState, duty: nat, period: nat): PwmState
  {
    p.(duty := duty, period := period)
  }

  function PwmSetPolarity(p: PwmState, polarity: Polarity): PwmState
  {
    p.(polarity := polarity)
  }

  function PwmEnable(p: PwmState): PwmState
  {
    p.(enabled := true)
  }

  function PwmDisable(p: PwmState): PwmState
  {
    p.(enabled := false)
  }

  /** C's `!v` on an unsigned value. */
  function Not(v: nat): (b: Bit)
    ensures b == 1 <==> v == 0
  {
    if v == 0 then 1 else 0
  }

  /**
   * The number of steps of a sequence of kernel calls that run when every
   * call returning non-zero aborts the sequence: the index of the first
   * non-zero return code, or the length when all of them are zero.
   */
  function FirstFailure(codes: seq<int>): (k: nat)
    ensures k <= |codes|
    ensures forall i :: 0 <= i < k ==> codes[i] == 0
    ensures k < |codes| ==> codes[k] != 0
  {
    if codes == [] then 0
    else if codes[0] != 0 then 0
    else 1 + FirstFailure(codes[1..])
  }

  /** What such a sequence returns: the first non-zero return code, or 0. */
  function ProbeResult(codes: seq<int>): (err: int)
    ensures err == 0 <==> forall i :: 0 <= i < |codes| ==> codes[i] == 0
    ensures err != 0 ==> err in codes && err == codes[FirstFailure(codes)]
  {
    var k := FirstFailure(codes);
    if k < |codes| then codes[k] else 0
  }

  /** Running two sequences one after the other aborts where the first aborts, or else where the second does. */
  lemma {:induction false} FirstFailureAppend(a: seq<int>, b: seq<int>)
    ensures FirstFailure(a + b) == if FirstFailure(a) < |a| then FirstFailure(a) else |a| + FirstFailure(b)
  {
    if a == [] {
      assert a + b == b;
    } else {
      assert (a + b)[0] == a[0];
      if a[0] == 0 {
        assert (a + b)[1..] == a[1..] + b;
        FirstFailureAppend(a[1..], b);
        assert FirstFailure(a + b) == 1 + FirstFailure(a[1..] + b);
        assert FirstFailure(a) == 1 + FirstFailure(a[1..]);
      }
    }
  }
}
