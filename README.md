# TB6612FNG dual DC-motor driver: a Dafny model

This project models the Linux platform driver for the Toshiba TB6612FNG, a
chip that drives two DC motors. The driver keeps one record per motor and one
for the whole chip. Each motor has:

- a speed in percent, which sets the duty of the motor's PWM (10 000 000 ns period, 100 000 ns per percent);
- a direction mode (cw, ccw or stop), which sets the levels of its two direction lines in1 and in2.

The chip has one standby line with inverted logic: writing standby value v drives the line to `!v`.
Five sysfs attributes read and write these values: motor_a_speed, motor_a_mode,
motor_b_speed, motor_b_mode and suspend. Probe sets up both PWMs and requests
the five lines low. Remove disables both PWMs and writes every line low.

The kernel's outputs are plain fields. A PWM is a value with duty, period,
polarity and enabled. A GPIO line is a 0/1 value. Each kernel call's return code
is an input to the method that makes the call. A call that fails leaves its device as it was.

- `Kernel` (kernel.dfy): constants, PWM state, the effect of each PWM call. It also holds the
  "first non-zero return code aborts" rule of probe (`FirstFailure`, `ProbeResult`).
- `MotorMode` (motor_mode.dfy): the mode enum and the integer C gives each
  enumerator. Also the prefix classification of a written buffer, the text the
  mode attribute reads back, and the direction-line table.
- `Decimal` (decimal.dfy): the `%u`/`%i` rendering used by the speed and
  suspend reads, and the value a numeral denotes.
- `Motor` (motor_channel.dfy): class `MotorChannel`. It holds `struct motor_data` and
  the devices behind its handles. Its store, show and probe-time set-up
  callbacks are written once.
- `Tb6612` (chip.dfy): class `Chip`. It holds `struct tb6612_data`, its two `MotorChannel`
  objects and the standby line. It routes the motor attributes to one channel
  and models the suspend callbacks, probe and remove.

The recorded mode is kept as the integer the C enum stores. This lets the
zero-filled memory read as CW, and lets the show callback's `default: -EINVAL`
branch exist. `MotorChannel.Valid()` keeps the recorded value within the three
enumerators, so on a valid channel the read never fails.

Two points of the code's behaviour that a reader might not expect:
- A channel starts as CW, not STOP: the record is zero-filled and
  `MOTOR_MODE_CW` is 0 (see Findings).
- A speed store treats only a negative `pwm_config` result as failure
  (tb6612.c:77). Probe aborts on any non-zero code (tb6612.c:322).

## Model

| member | source | states |
|---|---|---|
| `Kernel.FirstFailure` | tb6612.c:321-362 | the number of steps that run when the first non-zero return code aborts: every earlier code is zero, and the code at that index is non-zero |
| `Kernel.ProbeResult` | tb6612.c:321-362 | probe's result is 0 exactly when every step returned 0; otherwise it is the first non-zero code |
| `Kernel.FirstFailureAppend` | tb6612.c:321-362 | the steps for A then B abort where A's steps abort, or else three steps later than where B's abort |
| `MotorMode.FromCode` | tb6612.c:12-16 | the integers 0, 1, 2 and only those name an enumerator, and they name CW, CCW, STOP in declaration order |
| `MotorMode.ParseMode` | tb6612.c:149-170 | a buffer selects a mode only if it starts with that mode's token, and is refused exactly when it starts with none of "stop", "cw", "ccw" |
| `MotorMode.TokensExclusive` | tb6612.c:149-166 | no buffer starts with two different tokens, so "ccw" never takes the "cw" branch |
| `MotorMode.ParseModeIffPrefix` | tb6612.c:149-166 | the order of the prefix checks does not matter: a buffer selects mode m exactly when it starts with m's token, trailing characters allowed |
| `MotorMode.Show` | tb6612.c:123-133 | a stored enumerator reads back as its token and a newline; any other stored value gives -EINVAL |
| `MotorMode.ShowParseRoundTrip` | tb6612.c:123-130 | the text a mode read returns, written back, selects the same mode |
| `MotorMode.Pins` | tb6612.c:149-166 | the direction levels per mode: (0,0) is driven exactly for STOP, and (1,1) is never driven |
| `MotorMode.ModeOfPins` | tb6612.c:149-166 | the inverse of the table: a pair of levels shows mode m exactly when m's levels are that pair, and (1,1) shows no mode |
| `Decimal.Format` | tb6612.c:59 | the `%u` numeral of a value: digits only, one digit exactly for values below 10, no leading zero except for 0, and it denotes the value |
| `Motor.PwmAfterSetUp` | tb6612.c:321-337 | the PWM after 0 to 3 set-up steps: unchanged after none, and running duty 0 over the fixed period with normal polarity after all three |
| `Motor.MotorChannel.constructor` | tb6612.c:303 | a channel's recorded speed and mode start at zero, and the zero mode is CW |
| `Motor.MotorChannel.ShowSpeed` | tb6612.c:53-60 | a speed read returns a decimal numeral that denotes the recorded speed, followed by a newline |
| `Motor.MotorChannel.StoreSpeed` | tb6612.c:62-83 | above 100 the result is -EINVAL; a negative pwm_config result is returned; both leave the channel unchanged. Otherwise the result is the byte count, the speed is v, and the PWM runs duty v·100000 (at most the period) over 10000000 with polarity, enable state, direction lines and mode untouched |
| `Motor.MotorChannel.ShowMode` | tb6612.c:117-137 | on a valid channel a mode read succeeds, and what it returns parses back to the recorded mode |
| `Motor.MotorChannel.StoreMode` | tb6612.c:139-174 | an unrecognised buffer gives -EINVAL and nothing changes. Otherwise the lines take the selected mode's levels, the mode is recorded, speed and PWM are untouched, and the next read returns the token and a newline |
| `Motor.MotorChannel.SetUpPwm` | tb6612.c:321-337 | configure, polarity, enable run in that order. The first non-zero code is returned and the PWM holds exactly the steps before it. Lines and recorded fields are untouched |
| `Tb6612.Chip.constructor` | tb6612.c:303-305 | the driver data starts zero-filled: both speeds 0, both modes CW, standby 0 |
| `Tb6612.Chip.StoreSpeed` | tb6612.c:62-115 | a speed write to one motor returns -EINVAL above 100 or the negative pwm_config code, leaving that channel unchanged. Otherwise it records v and reconfigures only duty and period, keeping that channel's lines, mode, polarity and enable state. It never changes the other motor or the standby state, and keeps every recorded value matching its output |
| `Tb6612.Chip.StoreMode` | tb6612.c:139-229 | a mode write to one motor returns -EINVAL and leaves that channel unchanged for an unrecognised buffer. Otherwise it drives that channel's lines to the selected mode's levels and records the mode, keeping its speed and PWM; the next read returns the token and a newline. It never changes the other motor or the standby state, and keeps every recorded value matching its output |
| `Tb6612.Chip.ShowSuspend` | tb6612.c:231-238 | a suspend read returns a decimal numeral that denotes the recorded standby value, followed by a newline |
| `Tb6612.Chip.StoreSuspend` | tb6612.c:240-259 | a value above 1 gives -EINVAL and nothing changes. Otherwise the line becomes !v and v is recorded, so line = 1 − standby |
| `Tb6612.Chip.Probe` | tb6612.c:290-398 | the six PWM steps run A then B, and the first non-zero code is returned before any later step. Only on success are the five lines driven low, and both PWMs then run duty 0 with normal polarity. Speed and duty then agree, but the recorded CW mode and standby 0 disagree with the lines |
| `Tb6612.Chip.ProbeConsistent` | tb6612.c:303-398 | the corrected probe: the same result, PWM states and line levels as `Chip.Probe` on every path, and the record left zero-filled on failure. On success both modes read "stop", standby is 1 and every recorded value matches its output |
| `Tb6612.Chip.Remove` | tb6612.c:416-432 | both PWMs are disabled and all five lines are low. Recorded speed, mode and standby are untouched. The standby line agrees with the recorded value only when that value is 1 |

## Left out

- Resource acquisition (`devm_pwm_get`, `devm_gpiod_get`, `devm_pinctrl_get_select_default`, the device-tree node check, `devm_kzalloc` failure, `platform_get_drvdata`) is not modelled. The handles are given. Two defects sit in that code:
  - A failed `devm_pwm_get` or `devm_gpiod_get` returns `error`, which is still 0 at tb6612.c:318, 342 and 370. Probe then reports success for a device it did not set up.
  - The results for ain2, bin2 and stby are checked against `in1_gpio` (tb6612.c:375, 389, 395), so their failures go unnoticed.
- `sysfs_create_group`, `sysfs_remove_group`, the attribute tables and the module and device-tree match boilerplate are not modelled. They are registration glue.
- `kstrtoul` is not modelled. The stores take the parsed value as a natural number. The source ignores its return code (tb6612.c:70, 102, 248), so an unparsable buffer leaves `tmp` uninitialised. The model does not claim that malformed numbers are rejected.
- `Motor.MotorChannel.StoreSpeed`: the `tmp < 0` half of the guard (tb6612.c:72, 104) is not modelled. `tmp` is unsigned, so that half can never hold; the value is a `nat` here.
- A failing PWM call is assumed to leave its device unchanged. What the kernel does to the hardware on such a failure is outside this model.
- The order of hardware writes within one callback is not observable in the model; only the state after the callback is.
- Concurrency is not modelled. The driver does not serialise sysfs writers; the model is single-threaded.
- `dev_err`/`dev_warn` logging is not modelled. `sprintf` is reduced to the text it produces, not the byte count it returns.

## Findings

| source | as written | input that shows it | evidently intended | confidence | as-written member | corrected member |
|---|---|---|---|---|---|---|
| tb6612.c:13, 303, 366-392 | the motor record is zero-filled and `MOTOR_MODE_CW` is 0, while probe requests both direction lines low, which is the STOP pattern | a successful probe, then a read of motor_a_mode: it returns "cw\n" while the lines hold (0,0) | the recorded mode starts as STOP, matching the lines | medium; not executed | `Tb6612.Chip.Probe` | `Tb6612.Chip.ProbeConsistent` |
| tb6612.c:49, 303, 394 | the recorded standby is zero-filled to 0, while probe requests the standby line low, which under the inverted logic means standby | a successful probe, then a read of suspend: it returns "0\n" while the chip is in standby | the recorded standby matches the line, i.e. 1 for a low line | medium; not executed | `Tb6612.Chip.Probe` | `Tb6612.Chip.ProbeConsistent` |

`Chip.Probe` models the code as written. Its postcondition shows that after a
successful probe neither motor's lines agree with its recorded mode, and that
the standby line does not carry the negation of the recorded standby.
`Chip.ProbeConsistent` records what the lines actually show and changes no output.
After it, `Chip.Consistent()` holds, and every store (`Chip.StoreSpeed`,
`Chip.StoreMode`, `Chip.StoreSuspend`) preserves it.
