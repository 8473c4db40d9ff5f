# BalBot firmware core in Dafny

BalBot is a two-wheeled self-balancing robot. Its firmware reads an
IMU and two quadrature wheel encoders. It estimates pitch, pitch rate
and yaw rate with a small Kalman filter over one-dimensional Gaussian
beliefs. It then computes left and right motor voltages with a
pitch/velocity state-space law plus a yaw-rate PID. The voltages are
clamped to the battery voltage and cut to zero when the robot has
tipped over. Finally they are driven through H-bridge motor drivers.
Sensors are reached over I2C with an endianness-aware register layer.

This project models that core and proves its promises:

| Module (file) | Source it models |
|---|---|
| `CppUtil` (`cpp_util.dfy`) | `clamp_limit`, `mod_limit`, `min`, `max` |
| `MathLib` (`math_lib.dfy`) | `fabsf`, `M_PI`; `atan2f`/`sinf`/`cosf` are passed in as function values |
| `GaussianBelief` (`gaussian.dfy`) | the `Gaussian` value type, its operators, `atan2` and `fuse` |
| `Quadrature` (`quad_encoder.dfy`) | `QuadEncoder`, with the edge handlers and the Gray-code walk they count |
| `Filter` (`discrete_filter.dfy`) | `DiscreteFilter`, specified by its difference equation and warm-up rule |
| `Imu` (`imu.dfy`) | the main firmware's pitch and yaw-rate estimator |
| `ImuLegacy` (`imu_legacy.dfy`) | the older estimator in the library tree |
| `Limiters` (`limiters.dfy`) | the interfaces of `Pid`/`PID`, `SlewLimiter` and `ClampLimiter` that the controllers rely on |
| `Controller` (`controller.dfy`) | the main balance controller |
| `SubController` (`controller_sub.dfy`) | the sub-project controller, with run-time limiters and an `init` guard |
| `LibController` (`controller_lib.dfy`) | the older cascaded-PID controller |
| `HBridge` (`hbridge.dfy`) | `HBridgeMotor`: the enabled flag and the PWM/forward/reverse pin levels |
| `I2C` (`i2c.dfy`) | `I2CDevice`: byte ordering, the typed register wrappers and a model of the bus library |

How the source is modelled:
- Floats are `real`.
- Integers keep their C widths where those matter:
  - the encoder count is `int32_t`;
  - bytes are `uint8_t` with wrap-around;
  - typed registers are 1, 2, 4 or 8-byte two's complement.
- Objects whose fields the firmware updates in place are classes with
  `modifies` clauses. This covers the encoder, the filter, the
  estimators, the controllers, the limiters, the H-bridge and the I2C
  device and bus.
- Arduino pin and bus I/O is replaced:
  - writes to a pin become assignments to a recorded pin level;
  - encoder pin reads and IMU readings are method parameters;
  - the bus is a log of transactions plus a queue of received bytes.

## Model

| member | source | states |
|---|---|---|
| CppUtil.ClampLimit | Firmware/lib/CppUtil/CppUtil.cpp:14-25 | with valMin <= valMax the result lies in [valMin, valMax]; it is always val, valMin or valMax |
| CppUtil.ClampIdentity | Firmware/lib/CppUtil/CppUtil.cpp:24 | a value already in range is returned unchanged |
| CppUtil.ClampIdempotent | Firmware/lib/CppUtil/CppUtil.cpp:14-25 | clamping twice with well-formed bounds equals clamping once |
| CppUtil.ClampUpperFirst | Firmware/lib/CppUtil/CppUtil.cpp:16-19 | anything above valMax yields valMax even with inverted bounds; with inverted bounds anything else yields valMin |
| CppUtil.ClampSymmetric | Firmware/lib/CppUtil/CppUtil.cpp:14-25 | clamping to [-b, b] commutes with negation |
| CppUtil.ModLimit | Firmware/lib/CppUtil/CppUtil.cpp:33-36 | whenever the remainder lies in [0, valMax - valMin), the wrapped value lies in [valMin, valMax) |
| CppUtil.Min | Firmware/lib/CppUtil/CppUtil.cpp:73-76 | returns one of its arguments and is <= both |
| CppUtil.Max | Firmware/lib/CppUtil/CppUtil.cpp:81-84 | returns one of its arguments and is >= both |
| MathLib.Fabs | Firmware/lib/HBridgeMotor/HBridgeMotor.cpp:84 | the magnitude: non-negative and equal to x or -x |
| GaussianBelief.NegProperties | Firmware/lib/Gaussian/Gaussian.cpp:48-51 | negation flips the mean, keeps the variance and is an involution |
| GaussianBelief.ScalarShift | Firmware/lib/Gaussian/Gaussian.cpp:56-67 | +n / -n move the mean by exactly n, keep the variance and undo each other; -n is +(-n) |
| GaussianBelief.ScaleProperties | Firmware/lib/Gaussian/Gaussian.cpp:72-75 | scaling keeps the variance non-negative; two scalings compose into one; scaling by 1 is the identity |
| GaussianBelief.DivIsScaleByInverse | Firmware/lib/Gaussian/Gaussian.cpp:80-84 | division by n != 0 is scaling by 1/n, undoes scaling by n and keeps validity |
| GaussianBelief.SumDifference | Firmware/lib/Gaussian/Gaussian.cpp:89-100 | sum and difference both add the variances; g1 - g2 == g1 + (-g2); the sum commutes; both keep validity |
| GaussianBelief.Atan2 | Firmware/lib/Gaussian/Gaussian.cpp:107-117 | away from the origin, the mean is atan2 of the means and the linearised variance is non-negative for valid inputs |
| GaussianBelief.Atan2EqualVariance | Firmware/lib/Gaussian/Gaussian.cpp:107-117 | with equal input variances v, the variance is v / (x^2 + y^2), positive when v is |
| GaussianBelief.Fuse | Firmware/lib/Gaussian/Gaussian.cpp:122-128 | for valid inputs the fused belief is valid, its variance is at most each input variance and its mean lies between the input means |
| GaussianBelief.FuseCommutative | Firmware/lib/Gaussian/Gaussian.cpp:122-128 | fusion is commutative in mean and variance |
| GaussianBelief.FuseSelf | Firmware/lib/Gaussian/Gaussian.cpp:122-128 | fuse(g, g) keeps the mean and halves the variance |
| GaussianBelief.FuseBounds | Firmware/lib/Gaussian/Gaussian.cpp:122-128 | with both variances > 0 the fused variance is > 0 and <= both, and the mean lies between the input means |
| GaussianBelief.FuseCertain | Firmware/lib/Gaussian/Gaussian.cpp:122-128 | a zero-variance belief fused with an uncertain one wins outright |
| Quadrature.Phase | Firmware/lib/QuadEncoder/QuadEncoder.cpp:18-43 | each level pair has a place 0..3 on the Gray cycle 00, 10, 11, 01 |
| Quadrature.EdgeDirection | Firmware/lib/QuadEncoder/QuadEncoder.cpp:18-43 | every legal edge, handled by the channel that toggled, moves one place on the cycle; it decrements the count going forward and increments it going back |
| Quadrature.NeighboursToggleOne | Firmware/lib/QuadEncoder/QuadEncoder.cpp:18-43 | neighbouring places on the cycle differ in exactly one channel |
| Quadrature.WalkForward | Firmware/lib/QuadEncoder/QuadEncoder.cpp:18-43 | n forward edges lower the count by exactly n |
| Quadrature.WalkBackward | Firmware/lib/QuadEncoder/QuadEncoder.cpp:18-43 | n backward edges raise the count by exactly n |
| Quadrature.GrayCycle | Firmware/lib/QuadEncoder/QuadEncoder.cpp:18-43 | the turn 00, 10, 11, 01, 00 counts -4; the reverse turn counts +4 |
| Quadrature.QuadEncoder.constructor | Firmware/lib/QuadEncoder/QuadEncoder.cpp:4-10 | counts = 0 and radPerCnt = 2 pi / cntsPerRev, so the angle reads 0 |
| Quadrature.QuadEncoder.InterruptA | Firmware/lib/QuadEncoder/QuadEncoder.cpp:18-30 | +1 on equal levels and -1 otherwise; nothing else changes; the count stays a 32-bit integer |
| Quadrature.QuadEncoder.InterruptB | Firmware/lib/QuadEncoder/QuadEncoder.cpp:31-43 | the mirror of InterruptA: -1 on equal levels, +1 otherwise |
| Quadrature.QuadEncoder.Zero | Firmware/lib/QuadEncoder/QuadEncoder.cpp:45-49 | counts = 0, so the angle is 0 |
| Quadrature.QuadEncoder.Read | Firmware/lib/QuadEncoder/QuadEncoder.cpp:51-55 | returns counts times radians per count |
| Filter.Out | Firmware/lib/DiscreteFilter/DiscreteFilter.h:7-14 | one output per input |
| Filter.SumAppend | Firmware/lib/DiscreteFilter/DiscreteFilter.h:9 | appending y[n] adds exactly the a[0] y[n] term to the left-hand side |
| Filter.SumPrefix | Firmware/lib/DiscreteFilter/DiscreteFilter.h:9-12 | the sums at time n look no further than sample n |
| Filter.OutSolves | Firmware/lib/DiscreteFilter/DiscreteFilter.h:7-14 | the computed outputs obey the warm-up rule and the difference equation |
| Filter.SolvesUnique | Firmware/lib/DiscreteFilter/DiscreteFilter.h:7-14 | with a[0] != 0 at most one output sequence obeys both rules |
| Filter.OutUnique | Firmware/lib/DiscreteFilter/DiscreteFilter.h:7-14 | any outputs obeying both rules are the computed ones |
| Filter.WarmUp | Firmware/lib/DiscreteFilter/DiscreteFilter.h:12-14 | the output is 0 until B inputs have been supplied |
| Filter.DifferenceEquation | Firmware/lib/DiscreteFilter/DiscreteFilter.h:7-12 | once warm, a[0]y[n] + ... + a[A-1]y[n-(A-1)] = b[0]x[n] + ... + b[B-1]x[n-(B-1)], with samples before time 0 read as zero |
| Filter.OutPrefix | Firmware/lib/DiscreteFilter/DiscreteFilter.h:7-14 | the filter is causal: the first m outputs depend only on the first m inputs |
| Filter.DiscreteFilter.OutputsAreOut | Firmware/lib/DiscreteFilter/DiscreteFilter.h:81-86 | the outputs recorded by the object are exactly those the specification computes for its inputs |
| Filter.DiscreteFilter.constructor | Firmware/lib/DiscreteFilter/DiscreteFilter.h:59-61 | coefficient counts within the capacities, fixed-size arrays, empty history |
| Filter.DiscreteFilter.Reset | Firmware/lib/DiscreteFilter/DiscreteFilter.h:64 | empty history and frame 0, exactly the state of a freshly constructed filter |
| Filter.DiscreteFilter.Update | Firmware/lib/DiscreteFilter/DiscreteFilter.h:63 | keeps the object's invariant while recording one input and one output; by OutputsAreOut the outputs since reset then equal the specification's outputs for the inputs since reset |
| Filter.DiscreteFilter.NextOutput | Firmware/lib/DiscreteFilter/DiscreteFilter.h:7-14 | advances the frame counter; outputs 0 while fewer than B inputs are in; otherwise solves the difference equation for y[n] |
| Filter.DiscreteFilter.RecordOutput | Firmware/lib/DiscreteFilter/DiscreteFilter.h:85 | stores y[n] as the newest output, so the output history stays the last A outputs |
| Filter.DiscreteFilter.PushInput | Firmware/lib/DiscreteFilter/DiscreteFilter.h:86 | shifts the input history so that x[k] holds the input k steps back |
| Filter.DiscreteFilter.ShiftOutputs | Firmware/lib/DiscreteFilter/DiscreteFilter.h:85 | shifts the output history one step back |
| Filter.DiscreteFilter.InputSum | Firmware/lib/DiscreteFilter/DiscreteFilter.h:10 | computes the right-hand side of the difference equation |
| Filter.DiscreteFilter.OutputSum | Firmware/lib/DiscreteFilter/DiscreteFilter.h:9 | computes the left-hand side without the a[0]y[n] term |
| Imu.AccPitch | Firmware/src/Imu.cpp:88-90 | mean atan2(accY, accZ), variance accVar / (accY^2 + accZ^2), positive when accVar is |
| Imu.Predict | Firmware/src/Imu.cpp:99 | the gyro prediction advances the mean by rate times period and adds rate variance times period squared |
| Imu.Estimator.constructor | Firmware/src/Imu.cpp:64-67 | first frame pending; null beliefs |
| Imu.Estimator.Update | Firmware/src/Imu.cpp:82-107 | pitchVel is set on every update; the first update adopts the accelerometer pitch and clears firstFrame for good; later updates fuse the prediction with it, so the variance is at most the accelerometer variance; yaw rate = gz cos + gy sin of the new pitch |
| Imu.Estimator.GetPitch | Firmware/src/Imu.cpp:112-115 | the pitch mean, without changing state |
| Imu.Estimator.GetPitchVel | Firmware/src/Imu.cpp:120-123 | the pitch-rate mean, without changing state |
| Imu.Estimator.GetYawVel | Firmware/src/Imu.cpp:128-131 | the yaw rate, without changing state |
| ImuLegacy.AccPitch | Firmware/lib/Imu/Imu.cpp:48-50 | mean -atan2(accY, accZ), positive variance when accVar is |
| ImuLegacy.AccPitchMirrors | Firmware/lib/Imu/Imu.cpp:48-50 | the legacy accelerometer estimate is the negation of the main one, with the same variance |
| ImuLegacy.Estimator.constructor | Firmware/lib/Imu/Imu.cpp:23-27 | first frame pending; null beliefs |
| ImuLegacy.Estimator.Update | Firmware/lib/Imu/Imu.cpp:42-67 | the first update adopts the estimate and leaves pitchVel untouched; later ones set pitchVel to the negated gyro rate and fuse; yaw rate = gz cos - gy sin |
| ImuLegacy.Estimator.GetPitch | Firmware/lib/Imu/Imu.cpp:72-75 | the pitch mean |
| ImuLegacy.Estimator.GetPitchVel | Firmware/lib/Imu/Imu.cpp:80-83 | the pitch-rate mean |
| ImuLegacy.Estimator.GetYawVel | Firmware/lib/Imu/Imu.cpp:88-91 | the yaw rate |
| Limiters.Pid.constructor | Firmware/src/Controller.cpp:61 | a PID with output range [outMin, outMax] and empty history |
| Limiters.Pid.Output | Firmware/src/Controller.cpp:61 | the PID output lies in its constructor's [min, max] |
| Limiters.Pid.Update | Firmware/src/Controller.cpp:96 | appends one (error, feed-forward) input and returns the clamped law on the new history |
| Limiters.Pid.Reset | Firmware/src/Controller.cpp:105 | forgets the history |
| Limiters.Slew | Firmware/src/Controller.cpp:62 | the step from the last output lies in [lo, hi]; a reachable target is hit exactly |
| Limiters.SlewNoOvershoot | Firmware/src/Controller.cpp:78 | with lo <= 0 <= hi a slew step lands between the last output and the target |
| Limiters.SlewLimiter.constructor | Firmware/sub/Controller/Controller.cpp:77 | rate range [-rateMax, rateMax], last output 0 |
| Limiters.SlewLimiter.Update | Firmware/sub/Controller/Controller.cpp:110 | the new output is the slew step from the last one with rate range over frequency |
| Limiters.SlewLimiter.SetMin | Firmware/sub/Controller/Controller.cpp:157 | sets the lower rate bound |
| Limiters.SlewLimiter.SetMax | Firmware/sub/Controller/Controller.cpp:158 | sets the upper rate bound |
| Limiters.ClampLimiter.constructor | Firmware/sub/Controller/Controller.cpp:76 | bounds [-x, x] |
| Limiters.ClampLimiter.Update | Firmware/sub/Controller/Controller.cpp:111 | clamp_limit with the current bounds; changes nothing |
| Limiters.ClampLimiter.SetMin | Firmware/sub/Controller/Controller.cpp:148 | sets the lower bound |
| Limiters.ClampLimiter.SetMax | Firmware/sub/Controller/Controller.cpp:149 | sets the upper bound |
| Controller.DeriveGains | Firmware/src/Controller.cpp:33-53 | Gv = Kv/dr and Gw = Kv dw/dr; for positive motor constants K1 > 0, K2 > Tg/Gt > 0, K3 < -Gv < 0 |
| Controller.AvgVoltage | Firmware/src/Controller.cpp:86-91 | v_avg lies in [-Vb, Vb] and equals the state-space law whenever that is in range |
| Controller.BalancedAtRest | Firmware/src/Controller.cpp:86-91 | upright, at rest and commanded to rest, the average voltage is 0 |
| Controller.BalanceOdd | Firmware/src/Controller.cpp:86-91 | mirroring every state and command mirrors the average voltage |
| Controller.Restoring | Firmware/src/Controller.cpp:89 | with K2 > 0, a lean alone gets a voltage of the opposite sign |
| Controller.Mix | Firmware/src/Controller.cpp:99-100 | both commands lie in [-Vb, Vb]; unclamped, they sum to 2 v_avg and differ by 2 v_diff |
| Controller.MixMirror | Firmware/src/Controller.cpp:99-100 | reversing v_diff swaps left and right |
| Controller.MixStraight | Firmware/src/Controller.cpp:99-100 | with v_diff = 0 both sides get the same command |
| Controller.Cutoff | Firmware/src/Controller.cpp:103-108 | tipped over: both commands exactly 0; otherwise the commands pass unchanged |
| Controller.CutoffShrinks | Firmware/src/Controller.cpp:103-108 | the cutoff never raises a command's magnitude |
| Controller.BalanceController.constructor | Firmware/src/Controller.cpp:61-69 | gains from the motor constants, yaw PID limited to +-Vb, zero state |
| Controller.BalanceController.Update | Firmware/src/Controller.cpp:75-109 | vel_cmd is the slew output clamped to +-0.8 and yaw_cmd clamped to +-1.6; lin_vel = dr/2 (vL + vR); the PID gets exactly (yaw_cmd - yaw_vel, Gw yaw_cmd); commands = cutoff(mix(v_avg, v_diff)); tipped over: both 0 and PID reset; otherwise history appended; both in [-Vb, Vb] |
| Controller.BalanceController.Command | Firmware/src/Controller.cpp:99-108 | the motor commands are the mix of v_avg and v_diff clamped to +-Vb, cut to 0 when the pitch exceeds the tip-over angle; the PID history is cleared exactly when tipped over |
| Controller.BalanceController.GetLinVel | Firmware/src/Controller.cpp:114-117 | the linear-velocity estimate |
| Controller.BalanceController.GetMotorLCmd | Firmware/src/Controller.cpp:122-125 | the left command |
| Controller.BalanceController.GetMotorRCmd | Firmware/src/Controller.cpp:130-133 | the right command |
| SubController.Controller.constructor | Firmware/sub/Controller/Controller.cpp:66-82 | default limiter bounds (0.4, 0.2 at 100 Hz, 0.8, Vb), zero state, init not complete |
| SubController.Controller.Init | Firmware/sub/Controller/Controller.cpp:88-101 | the subsystems are started exactly once; later calls change nothing |
| SubController.Controller.Update | Firmware/sub/Controller/Controller.cpp:106-141 | the linear command is slew-limited then clamp-limited, the yaw command clamp-limited; commands pass the +-Vb limiter; beyond 0.8 rad both are 0 and the PID is reset |
| SubController.Controller.Command | Firmware/sub/Controller/Controller.cpp:131-140 | the same mix, limit and tip-over cutoff as the balance controller, through the voltage limiter |
| SubController.Controller.SetLinVelMax | Firmware/sub/Controller/Controller.cpp:146-150 | the linear-velocity limiter becomes [-x, x] |
| SubController.Controller.SetLinAccMax | Firmware/sub/Controller/Controller.cpp:155-159 | the acceleration limiter's rate range becomes [-x, x]; its last output is kept |
| SubController.Controller.SetYawVelMax | Firmware/sub/Controller/Controller.cpp:164-168 | the yaw-rate limiter becomes [-x, x] |
| SubController.Controller.GetLinVel | Firmware/sub/Controller/Controller.cpp:173-176 | the linear-velocity estimate |
| SubController.Controller.GetMotorLCmd | Firmware/sub/Controller/Controller.cpp:181-184 | the left command |
| SubController.Controller.GetMotorRCmd | Firmware/sub/Controller/Controller.cpp:189-192 | the right command |
| LibController.Controller.constructor | Firmware/lib/Controller/Controller.cpp:17-24 | pitch and yaw PIDs limited to +-Vb, velocity PID to +-pitchMax, zero state |
| LibController.Controller.Update | Firmware/lib/Controller/Controller.cpp:30-47 | lin_vel = Rw/2 (vL + vR); the velocity PID gets the velocity error and its output, the setpoint, lies in +-pitchMax; the pitch PID gets (pitch - setpoint, Kv/Rw lin_vel); the yaw PID gets the yaw error; commands = mix, in [-Vb, Vb]; no cutoff |
| LibController.Controller.GetLinVel | Firmware/lib/Controller/Controller.cpp:52-55 | the linear-velocity estimate |
| LibController.Controller.GetMotorLCmd | Firmware/lib/Controller/Controller.cpp:60-63 | the left command |
| LibController.Controller.GetMotorRCmd | Firmware/lib/Controller/Controller.cpp:68-71 | the right command |
| HBridge.ScaledBounds | Firmware/lib/HBridgeMotor/HBridgeMotor.cpp:21 | scaling by 255 / v_supply maps [0, v_supply] monotonically into [0, 255] |
| HBridge.Duty | Firmware/lib/HBridgeMotor/HBridgeMotor.cpp:83-84 | the PWM duty lies in [0, 255] when v_supply > 0 |
| HBridge.DutySaturates | Firmware/lib/HBridgeMotor/HBridgeMotor.cpp:83-84 | a command at or beyond the supply voltage gives full scale 255 |
| HBridge.DutySymmetric | Firmware/lib/HBridgeMotor/HBridgeMotor.cpp:83-84 | the duty depends on the command's magnitude only |
| HBridge.DutyMonotone | Firmware/lib/HBridgeMotor/HBridgeMotor.cpp:83-84 | a larger magnitude never gives a smaller duty |
| HBridge.Drive | Firmware/lib/HBridgeMotor/HBridgeMotor.cpp:77-95 | 0 brakes; positive drives fwd 1, rev 0; negative drives fwd 0, rev 1, with the duty on the PWM pin; never both enables high while driving |
| HBridge.DriveReverses | Firmware/lib/HBridgeMotor/HBridgeMotor.cpp:85-94 | opposite commands give the same duty with the direction pins swapped |
| HBridge.HBridgeMotor.constructor | Firmware/lib/HBridgeMotor/HBridgeMotor.cpp:15-23 | disabled, dacPerVolt = 255 / vSupply |
| HBridge.HBridgeMotor.Init | Firmware/lib/HBridgeMotor/HBridgeMotor.cpp:28-34 | ends configured, disabled and coasting |
| HBridge.HBridgeMotor.Enable | Firmware/lib/HBridgeMotor/HBridgeMotor.cpp:39-43 | enabled and braking: pwm 0, fwd 1, rev 1 |
| HBridge.HBridgeMotor.Disable | Firmware/lib/HBridgeMotor/HBridgeMotor.cpp:48-54 | every pin 0 and disabled |
| HBridge.HBridgeMotor.Brake | Firmware/lib/HBridgeMotor/HBridgeMotor.cpp:59-67 | brakes when enabled; writes nothing when disabled |
| HBridge.HBridgeMotor.SetVoltage | Firmware/lib/HBridgeMotor/HBridgeMotor.cpp:73-97 | enabled: the pin levels are Drive of the command; disabled: no pin changes; a disabled driver keeps coasting |
| I2C.Decrement | Firmware/lib/I2CDevice/I2CDevice.cpp:308 | uint8 decrement: n - 1 for n > 0, and 0 wraps to 255 |
| I2C.Reverse | Firmware/lib/I2CDevice/I2CDevice.cpp:308-311 | element i of the result is element n-1-i of the input |
| I2C.ReverseInvolution | Firmware/lib/I2CDevice/I2CDevice.cpp:297-312 | reversing twice is the identity |
| I2C.Order | Firmware/lib/I2CDevice/I2CDevice.cpp:297-312 | lsb_first sends buffer[0..n-1] ascending; msb_first sends buffer[n-1] down to buffer[0] |
| I2C.OrderInvolution | Firmware/lib/I2CDevice/I2CDevice.cpp:290-342 | reading back in the same byte order undoes writing |
| I2C.Received | Firmware/lib/I2CDevice/I2CDevice.cpp:331 | k reads return the received bytes in order, and 0xFF past the end |
| I2C.ReceivedNext | Firmware/lib/I2CDevice/I2CDevice.cpp:331 | one more read appends the next byte and consumes it |
| I2C.BytesRoundTrip | Firmware/lib/I2CDevice/I2CDevice.cpp:290-342 | for the same endianness, reading back a written stream reproduces the buffer |
| I2C.DecodeEncode | Firmware/lib/I2CDevice/I2CDevice.cpp:35-116 | a number below 256^w survives w-byte little-endian encoding and decoding |
| I2C.EncodeDecode | Firmware/lib/I2CDevice/I2CDevice.cpp:215-282 | decoding then re-encoding w bytes gives the same bytes |
| I2C.InterpretPattern | Firmware/lib/I2CDevice/I2CDevice.cpp:35-116 | a fitting value survives the two's-complement bit pattern |
| I2C.Decode | Firmware/lib/I2CDevice/I2CDevice.cpp:215-282 | the value read from w >= 1 bytes fits the w-byte type |
| I2C.DecodeOfEncode | Firmware/lib/I2CDevice/I2CDevice.cpp:35-282 | storing a fitting value in the buffer and reloading it with the same width and signedness gives it back |
| I2C.WireBytes | Firmware/lib/I2CDevice/I2CDevice.cpp:35-116 | a typed write sends exactly w data bytes |
| I2C.TypedRoundTrip | Firmware/lib/I2CDevice/I2CDevice.cpp:35-282 | a typed read of a register that returns what a typed write sent yields the value written |
| I2C.Wire.RequestFrom | Firmware/lib/I2CDevice/I2CDevice.cpp:208 | logs a request; the receive buffer holds at most count reply bytes |
| I2C.Wire.Read | Firmware/lib/I2CDevice/I2CDevice.cpp:331 | takes the next received byte, or 0xFF when none is left |
| I2C.I2CDevice.constructor | Firmware/lib/I2CDevice/I2CDevice.cpp:13-18 | stores the bus, address and endianness |
| I2C.I2CDevice.Default | Firmware/lib/I2CDevice/I2CDevice.cpp:23-28 | address 0 and lsb_first |
| I2C.I2CDevice.WriteBytes | Firmware/lib/I2CDevice/I2CDevice.cpp:290-316 | one transaction with the register address, then exactly n bytes in bus order, then a stop; the descending loop ends by uint8 wrap-around and n = 0 sends no data |
| I2C.I2CDevice.ReadBytes | Firmware/lib/I2CDevice/I2CDevice.cpp:323-342 | the first n buffer bytes are the next n received ones in bus order; the rest of the buffer is kept |
| I2C.I2CDevice.ReadAscending | Firmware/lib/I2CDevice/I2CDevice.cpp:329-332 | buffer[0..n-1] are filled in receive order |
| I2C.I2CDevice.ReadDescending | Firmware/lib/I2CDevice/I2CDevice.cpp:337-340 | buffer[n-1] down to buffer[0] are filled in receive order; the loop ends by wrap-around |
| I2C.I2CDevice.Store | Firmware/lib/I2CDevice/I2CDevice.cpp:37 | the first w buffer bytes hold the value's little-endian encoding |
| I2C.I2CDevice.WriteInteger | Firmware/lib/I2CDevice/I2CDevice.cpp:35-116 | a typed write sends the register and the value's w bytes in bus order |
| I2C.I2CDevice.ReadInteger | Firmware/lib/I2CDevice/I2CDevice.cpp:215-282 | a sequential read consumes w bytes and returns their value, which fits the type |
| I2C.I2CDevice.ReadSeq | Firmware/lib/I2CDevice/I2CDevice.cpp:203-210 | the register address is written without a stop, then n bytes are requested with a stop |
| I2C.I2CDevice.ReadRegister | Firmware/lib/I2CDevice/I2CDevice.cpp:122-196 | read_seq for w bytes, then the typed value of the reply |
| I2C.I2CDevice.WriteInt8 | Firmware/lib/I2CDevice/I2CDevice.cpp:35-39 | sends the register and 1 byte |
| I2C.I2CDevice.WriteInt16 | Firmware/lib/I2CDevice/I2CDevice.cpp:46-50 | sends the register and 2 bytes |
| I2C.I2CDevice.WriteInt32 | Firmware/lib/I2CDevice/I2CDevice.cpp:57-61 | sends the register and 4 bytes |
| I2C.I2CDevice.WriteInt64 | Firmware/lib/I2CDevice/I2CDevice.cpp:68-72 | sends the register and 8 bytes |
| I2C.I2CDevice.WriteUint8 | Firmware/lib/I2CDevice/I2CDevice.cpp:79-83 | sends the register and 1 byte |
| I2C.I2CDevice.WriteUint16 | Firmware/lib/I2CDevice/I2CDevice.cpp:90-94 | sends the register and 2 bytes |
| I2C.I2CDevice.WriteUint32 | Firmware/lib/I2CDevice/I2CDevice.cpp:101-105 | sends the register and 4 bytes |
| I2C.I2CDevice.WriteUint64 | Firmware/lib/I2CDevice/I2CDevice.cpp:112-116 | sends the register and 8 bytes |
| I2C.I2CDevice.ReadInt8 | Firmware/lib/I2CDevice/I2CDevice.cpp:122-126 | requests 1 byte; the result is in [-128, 128) |
| I2C.I2CDevice.ReadInt16 | Firmware/lib/I2CDevice/I2CDevice.cpp:132-136 | requests 2 bytes; the result fits int16 |
| I2C.I2CDevice.ReadInt32 | Firmware/lib/I2CDevice/I2CDevice.cpp:142-146 | requests 4 bytes; the result fits int32 |
| I2C.I2CDevice.ReadInt64 | Firmware/lib/I2CDevice/I2CDevice.cpp:152-156 | requests 8 bytes; the result fits int64 |
| I2C.I2CDevice.ReadUint8 | Firmware/lib/I2CDevice/I2CDevice.cpp:162-166 | requests 1 byte; the result fits uint8 |
| I2C.I2CDevice.ReadUint16 | Firmware/lib/I2CDevice/I2CDevice.cpp:172-176 | requests 2 bytes; the result fits uint16 |
| I2C.I2CDevice.ReadUint32 | Firmware/lib/I2CDevice/I2CDevice.cpp:182-186 | requests 4 bytes; the result fits uint32 |
| I2C.I2CDevice.ReadUint64 | Firmware/lib/I2CDevice/I2CDevice.cpp:192-196 | requests 8 bytes; the result fits uint64 |
| I2C.I2CDevice.NextInt8 | Firmware/lib/I2CDevice/I2CDevice.cpp:215-219 | consumes 1 received byte; the result fits int8 |
| I2C.I2CDevice.NextInt16 | Firmware/lib/I2CDevice/I2CDevice.cpp:224-228 | consumes 2 received bytes; the result fits int16 |
| I2C.I2CDevice.NextInt32 | Firmware/lib/I2CDevice/I2CDevice.cpp:233-237 | consumes 4 received bytes; the result fits int32 |
| I2C.I2CDevice.NextInt64 | Firmware/lib/I2CDevice/I2CDevice.cpp:242-246 | consumes 8 received bytes; the result fits int64 |
| I2C.I2CDevice.NextUint8 | Firmware/lib/I2CDevice/I2CDevice.cpp:251-255 | consumes 1 received byte; the result fits uint8 |
| I2C.I2CDevice.NextUint16 | Firmware/lib/I2CDevice/I2CDevice.cpp:260-264 | consumes 2 received bytes; the result fits uint16 |
| I2C.I2CDevice.NextUint32 | Firmware/lib/I2CDevice/I2CDevice.cpp:269-273 | consumes 4 received bytes; the result fits uint32 |
| I2C.I2CDevice.NextUint64 | Firmware/lib/I2CDevice/I2CDevice.cpp:278-282 | consumes 8 received bytes; the result fits uint64 |

## Left out

- Arduino hardware calls are not modelled. This covers `pinMode`, `digitalWrite`, `analogWrite`, `digitalRead`, `attachInterrupt`, `Serial` and the `TwoWire` library itself. Pin levels are fields. Encoder pin reads and IMU readings are parameters. The bus is the `Wire` class, modelled after how the device layer uses it.
- Interrupts and the main loop are treated as sequential. The encoder handlers are calls, so the race between them and `zero`/`read` is not modelled (QuadEncoder.cpp:47,53). `Timer`, `main.cpp`, `SerialC` and `Bluetooth` are not part of this model.
- Floats are modelled as reals: no IEEE rounding, NaN, infinities or division by zero.
  - `GaussianBelief.Fuse` therefore requires a positive variance sum. Some calibration tables have all-zero variances; there the source divides by zero.
  - `GaussianBelief.Atan2` requires a point away from the origin.
  - `Imu.Estimator` requires a positive accelerometer variance and a nonzero y/z acceleration.
  - `HBridge.HBridgeMotor.constructor` requires v_supply > 0.
- `atan2f`, `sinf`, `cosf` and `fmod` are not modelled; they are parameters. So `CppUtil.ModLimit` states the range only under an assumption about the remainder. C's `fmod` keeps the dividend's sign, so below valMin the result lies below the range.
- `fadd`, `fsub`, `fmul` and `fdiv` (CppUtil.cpp:41-68) are one-operator wrappers and are not modelled separately.
- The `Pid`/`PID`, `SlewLimiter` and `ClampLimiter` sources are not part of this model.
  - `Limiters.Pid.Output` abstracts the gains as an unknown law over the inputs since the last reset, clamped to the output range.
  - The one-argument `Pid::update` of the library controller is taken as feed-forward 0.
  - `Limiters.Slew` describes the slew limiter by its rate bound per period.
- The sub controller clamps v_avg with `clamp`, whose definition is not part of this model. It is taken to be `clamp_limit`.
- `SubController.Controller.Init`: the subsystem start-up calls (Bluetooth, Imu, MotorL, MotorR) are represented only by a ghost counter.
- The sub controller's unused `yaw_vel` state variable is not modelled.
- `LibController.Controller`: its constants (`Vb`, `pitch_max`, `Rw_div_2`, `Kv_div_Rw`) and PID gains are defined outside the files of this model, so they are constructor parameters.
- Per-robot configuration tables (`MotorConfig`, `ImuConfig`, `EncoderDir`, `BalBot`, `PinDefs`) are parameters: motor constants, variances, period and pins.
- `MotorL`/`MotorR` glue, `Imu::init`, `Imu::calibrate` and the MPU-6050 driver are not modelled. The gyro calibration offsets are taken as already applied to the reading.
- `DiscreteFilter`: only its header is available, so the model follows the header's documentation.
  - The `.cpp` implementation, the default constructor, `operator*`/`conv` and the four factories are not part of this model.
  - The capacities are fixed at 4 (any value >= 2 is allowed).
  - a[0] != 0 is required.
  - The warm-up counter is not width-limited beyond being < 256.
- `Quadrature.QuadEncoder.InterruptA` and `InterruptB` require the count to stay inside int32. The source has no overflow guard.
- `HBridge.HBridgeMotor.constructor`: pin levels before `init` are taken as low (coasting). The source writes nothing there.
- `HBridge.Duty`: `analogWrite` receives the float product converted to an integer. That conversion is modelled as truncation (floor of a non-negative value).
- `I2C`: the union reinterpretation of the 8-byte buffer is taken as little-endian, as on the AVR and ARM targets.
