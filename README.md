# rusty-bot signal path, modelled in Dafny

A model of the firmware of a small mecanum-wheeled robot, from radio
pulses to wheel commands:

- **PPM decoder** (`ppm.dfy`, module `Ppm`). The edge interrupt measures the
  time since the previous edge on the 16-bit timer (4 us per tick). A short
  interval (< 4000 us) is a channel pulse, stored in the current slot of a
  six-slot table; the index then advances and saturates at 6. A long interval
  is a frame gap: the index goes back to 0 and no value changes. The statics
  `LAST_TICK`, `CHANNEL_INDEX` and `CHANNEL_VALUES` become the fields of class
  `Ppm.Decoder`; each helper of the interrupt body becomes a method, and
  `OnEdge` is the interrupt body. It is proved against the functional
  specification `Ppm.Edge`, whose sequences of edges (`Ppm.Run`) are the
  subject of the resynchronisation lemmas. The timer value is a parameter.
- **Stick classifier** (`flysky.dfy`, modules `Flysky` and
  `FlyskyProperties`). `to_flysky` starts from the default status and walks
  the six enumerated channels in order. Per-channel thresholds (1450/1550,
  or 1500 for channel 2, some bounded to [1000, 2000]) select a setter for one
  axis of one stick. `Flysky.ToFlySky` keeps that loop. It is proved to
  compute `Flysky.Classify`, a closed form that states every field of the
  result directly from the frame.
- **Axis mappers** (`helper.dfy`, modules `Helper` and `HelperProperties`):
  linear unsigned, folded unsigned, folded with a hysteresis of 2, and the
  signed dead-zone mapper used on the drive path.
- **Drive mixer** (`robot.dfy`, module `Robot`). `right_stick_management` makes
  the mecanum sums `a = y+x+r, b = y-x-r, c = y-x+r, d = y+x-r` with `r = 0`.
  When one sum exceeds 255 in magnitude, all four are rescaled proportionally.
  `apply_motor` then picks forward, backward or stop from the sign. The class
  `Robot.Robot` holds `pwm_values` and each motor's last command.
  `ProcessFlySkySticks` is one control cycle: snapshot, classification, then
  the four sticks in the order left, right, vra, vrb, where only the right
  stick acts.
- `ints.dfy` (module `Ints`) holds the u8/u16/i16 types and the Rust integer
  operations the firmware relies on: wrapping arithmetic, casts, `clamp`,
  `abs`, and a saturating float-to-int cast.

Integer widths are explicit. The u16 product `elapsed_ticks * 4` in
`get_microseconds_from_last_interruption` is taken modulo 2^16, as a release
build computes it; a debug build would panic instead. So a gap of 16384 ticks
(65.5 ms) or more can read as a short pulse: an interval is read as a
channel pulse exactly when its elapsed tick count modulo 16384 is below 1000,
and is stored when the index is below 6 (`Ppm.LongGapReadAsPulse`). A
16384-tick gap measures 0 us and, below index 6, is stored as a zero width
(`Ppm.LongGapExample`). The threshold constant
`BLANK_PPM_SIGNAL_IN_MILLISECONDS` is compared with microseconds, so the model
uses the number the code compares, 4000 (us).

Three details of the code that are easy to miss:
- Unlike the other three mappers, `map_u16_to_i16` does not clamp its input
  to [1000, 2000]: widths of 2002 and above give more than 255.
- Channels 1, 3, 4 and 5 have no [1000, 2000] bound, unlike channels 0 and 2:
  2500 on channel 1 is `Up(2500)`.
- The left stick's vertical axis defaults to `Center(1000)`, although the doc
  comment of `FlySky::default` (src/robot/flysky/mod.rs:114) says all sticks
  are centred.

## Model

| member | source | states |
|---|---|---|
| `Ppm.Initial` | src/robot/ppm/mod.rs:13-16 | the statics start with last tick 1, index 0 and all six widths 0, a consistent state |
| `Ppm.ElapsedTicks` | src/robot/ppm/mod.rs:95 | `wrapping_sub` is the inverse of the counter's advance: last + result = current modulo 2^16, and plain subtraction when the counter did not wrap |
| `Ppm.MicrosecondsBetween` | src/robot/ppm/mod.rs:90-97 | the elapsed time is 4 us per tick, computed in u16, so it equals 4 * (elapsed ticks mod 2^14); exactly 4 * ticks below 16384 ticks |
| `Ppm.IsReadingChannels` | src/robot/ppm/mod.rs:111-114 | an interval is a channel pulse exactly when it is shorter than 4000 us |
| `Ppm.Edge` | src/robot/ppm/mod.rs:57-69 | one edge: the last tick becomes the current tick; a gap resets the index to 0 and changes no width; a pulse is stored in slot `index` and advances the index when index < 6, and is dropped at 6; no other slot changes; well-formedness and "every width < 4000" are kept |
| `Ppm.Run` | src/robot/ppm/mod.rs:57-69 | after any sequence of edges the table still has six slots, the index stays in 0..6, every stored width stays below 4000, and the last tick is the last edge's |
| `Ppm.PulsesFillSlots` | src/robot/ppm/mod.rs:112-133 | k consecutive pulses from index i fill slots i..min(i+k,6)-1 with their widths in order, leave the index at min(i+k, 6), and leave every other slot unchanged |
| `Ppm.Resync` | src/robot/ppm/mod.rs:58-69 | whatever the state, a gap sets the index to 0 and the next k <= 6 pulses land in slots 0..k-1 in order, while slots k..5 keep their stale values |
| `Ppm.GapThenRun` | src/robot/ppm/mod.rs:58-68 | a gap edge sets the last tick, restarts the index at 0 and keeps every width; the run after it starts from that state |
| `Ppm.LongGapReadAsPulse` | src/robot/ppm/mod.rs:92-121 | because `elapsed_ticks * 4` wraps in u16, an interval is read as a pulse exactly when its tick count modulo 16384 is below 1000, however long it is; below index 6 it is then stored as 4 * (ticks mod 16384) and the index advances |
| `Ppm.LongGapExample` | src/robot/ppm/mod.rs:92-97 | the shortest such idle gap, 16384 ticks (65536 us), measures 0 us and is stored as a zero width |
| `Ppm.Decoder.constructor` | src/robot/ppm/mod.rs:13-16 | the decoder starts in the initial state |
| `Ppm.Decoder.MicrosecondsFromLastInterruption` | src/robot/ppm/mod.rs:90-97 | records the current tick and returns the elapsed microseconds since the previous one |
| `Ppm.Decoder.ResetChannels` | src/robot/ppm/mod.rs:99-102 | the index becomes 0 |
| `Ppm.Decoder.SetNextChannel` | src/robot/ppm/mod.rs:104-109 | the index becomes id + 1 when id < 6, otherwise stays |
| `Ppm.Decoder.GetCurrentChannel` | src/robot/ppm/mod.rs:123-126 | returns the index |
| `Ppm.Decoder.SetChannelValue` | src/robot/ppm/mod.rs:128-133 | writes slot id when id < 6 and changes nothing otherwise |
| `Ppm.Decoder.ProcessChannel` | src/robot/ppm/mod.rs:116-121 | stores the width in the current slot and advances the index, both only below 6 |
| `Ppm.Decoder.OnEdge` | src/robot/ppm/mod.rs:57-83 | the interrupt body changes the statics exactly as `Edge` does and keeps the decoder's invariant |
| `Ppm.Decoder.GetChannels` | src/robot/ppm/mod.rs:41-47 | the snapshot has exactly six pairs (i, width of slot i) for i = 0..5 in order, each width below 4000 |
| `Flysky.SetRightValue` | src/robot/flysky/mod.rs:37-45 | keeps the stick's variant, sets `right_left` to `Right(value)`, leaves `up_down` and `center` |
| `Flysky.SetLeftValue` | src/robot/flysky/mod.rs:47-55 | keeps the stick's variant, sets `right_left` to `Left(value)`, leaves the other two fields |
| `Flysky.SetUpValue` | src/robot/flysky/mod.rs:57-65 | keeps the stick's variant, sets `up_down` to `Up(value)`, leaves the other two fields |
| `Flysky.SetDownValue` | src/robot/flysky/mod.rs:67-75 | keeps the stick's variant, sets `up_down` to `Down(value)`, leaves the other two fields |
| `Flysky.SetCenterValue` | src/robot/flysky/mod.rs:77-89 | keeps the stick's variant, sets only `center` to `Center(value)` |
| `Flysky.Default` | src/robot/flysky/mod.rs:113-139 | the variants are Right, Left, Vra, Vrb; every axis is `Center(1500)` except the left stick's `up_down`, which is `Center(1000)` |
| `Flysky.ToFlySky` | src/robot/flysky/mod.rs:165-231 | the loop over the enumerated frame yields `Classify` of its widths: each field is stated directly from the frame, so the result depends on the frame alone |
| `FlyskyProperties.Channel0Thresholds` | src/robot/flysky/mod.rs:172-180 | channel 0 gives `Right(v)` exactly for v in (1550, 2000], `Left(v)` exactly for v in [1000, 1450), and otherwise leaves `right_left` at `Center(1500)` |
| `FlyskyProperties.StrictChannelThresholds` | src/robot/flysky/mod.rs:181-225 | channels 1, 3, 4 and 5 give Up/Right exactly above 1550 and Down/Left exactly below 1450, with no range bound |
| `FlyskyProperties.Channel2Thresholds` | src/robot/flysky/mod.rs:190-198 | channel 2 gives `Up(v)` exactly for v in (1500, 2000], `Down(v)` exactly for v in [1000, 1500), and otherwise leaves `up_down` at `Center(1000)` |
| `FlyskyProperties.CenterPrecedence` | src/robot/flysky/mod.rs:170-228 | `right.center` is channel 1's width if channel 1 was centred, else channel 0's if that was centred, else 1500 (`left.center`: channels 3, then 2); a centred reading on channel 0, 1, 3, 4 or 5 leaves that axis at its default (channel 2: see `Channel2Thresholds`) |
| `FlyskyProperties.ClassifyKeepsKinds` | src/robot/flysky/mod.rs:168-229 | the four sticks keep their variants, and the vertical axes of Vra and Vrb are never written |
| `FlyskyProperties.BoundaryReadings` | src/robot/flysky/mod.rs:172-189 | on channel 0, 1551 is `Right`, 1449 is `Left`, and 1450, 1500 and 1550 are centred; 2500 on channel 1 is `Up(2500)` |
| `Helper.MapValueToPotency` | src/robot/helper.rs:9-22 | the clamped width maps linearly to (clamped - 1000) * 255 / 1000 without truncation by the u8 cast; 1000 and below give 0, 2000 and above give 255 |
| `Helper.MapU16ToU8Folded` | src/robot/helper.rs:26-39 | the result is the clamped distance from 1500 scaled by 255/500; 1500 gives 0, and 1000 or 2000 and beyond give 255 |
| `Helper.MapU16ToU8` | src/robot/helper.rs:57-76 | the result is either `last` or the folded value; it is `last` exactly when the two differ by at most 2, so it is always within 2 of the folded value |
| `Helper.MapU16ToI16` | src/robot/helper.rs:40-56 | 0 on [1450, 1550]; non-negative above and non-positive below; 2000 gives 255 and 1000 gives -255; within +-255 on [1000, 2000]; no clamp, so 2002 and above exceed 255 and 998 and below fall under -255 |
| `HelperProperties.MappersClamp` | src/robot/helper.rs:9-76 | the three unsigned mappers treat a width below 1000 as 1000 and above 2000 as 2000 |
| `HelperProperties.PotencyMonotone` | src/robot/helper.rs:9-22 | the linear mapper never decreases as the width grows |
| `HelperProperties.FoldedSymmetric` | src/robot/helper.rs:26-39 | the folded mapper gives the same result at 1500 - k and 1500 + k |
| `HelperProperties.FoldedMonotoneAwayFromCenter` | src/robot/helper.rs:26-39 | the folded mapper grows with the distance from 1500 on either side |
| `HelperProperties.HysteresisSettles` | src/robot/helper.rs:57-76 | fed its own output as `last`, the hysteresis mapper returns that output again |
| `HelperProperties.HysteresisExamples` | src/robot/helper.rs:69-75 | with last = 50, a folded value of 51 returns 50 and one of 55 returns 55 |
| `HelperProperties.SignedMonotone` | src/robot/helper.rs:40-56 | the signed mapper never decreases as the width grows, whatever `prev` is |
| `HelperProperties.SignedBelowBlank` | src/robot/helper.rs:40-56 | for every width below 4000 us the signed magnitude is within [-821, 1387] |
| `Robot.ApplyMotor` | src/robot/mod.rs:300-308 | exactly one action: forward exactly when value > 0, backward exactly when value < 0, stop exactly at 0; for 0 < \|value\| <= 255 the duty is \|value\| |
| `Robot.AxisY` | src/robot/mod.rs:252-256 | a vertical position other than Up or Down contributes 0 |
| `Robot.AxisX` | src/robot/mod.rs:258-262 | a horizontal position other than Right or Left contributes 0 |
| `Robot.MecanumSums` | src/robot/mod.rs:267-272 | each wheel is its exact sum y+x+r, y-x-r, y-x+r, y+x-r modulo 2^16 (i16 wrap), and exactly that sum when \|y\|+\|x\|+\|r\| < 32768 |
| `Robot.MaxMagnitude` | src/robot/mod.rs:275 | the maximum is one of the four i16 `abs` values and bounds the magnitude of every wheel other than a wrapped -32768 |
| `Robot.Scale` | src/robot/mod.rs:276-281 | one wheel scaled by 255/max: magnitude \|v\| * 255 / max, never more than \|v\|, and the direction is never reversed (a small wheel may drop to 0) |
| `Robot.Normalize` | src/robot/mod.rs:274-282 | wheels pass through unchanged when the maximum is at most 255; no wheel grows or reverses direction (a small one may drop to 0); unless a wheel is a wrapped -32768, all four end in [-255, 255] |
| `Robot.ScaleAll` | src/robot/mod.rs:276-281 | scaling the four wheels by the same 255/m shrinks each without reversing its direction (a small one may drop to 0), and brings each wheel no larger than m within 255 |
| `Robot.Mix` | src/robot/mod.rs:267-282 | when the sums cannot wrap, every wheel command lies in [-255, 255] |
| `Robot.Drive` | src/robot/mod.rs:251-282 | with r = 0 the diagonal wheels agree (a = d, b = c), and a stick with neither a vertical nor a horizontal reading stops all four wheels |
| `Robot.MixPairs` | src/robot/mod.rs:267-272 | with r = 0, wheels a and d always get the same command, and so do b and c |
| `Robot.MixForwardAndStrafe` | src/robot/mod.rs:269-272 | pure forward v gives (v, v, v, v); pure strafe v gives (v, -v, -v, v), for \|v\| <= 255 |
| `Robot.MixPassesThrough` | src/robot/mod.rs:274-282 | if no sum exceeds 255 in magnitude, the four sums reach the motors unchanged |
| `Robot.ScaleWithin` | src/robot/mod.rs:276-281 | a wheel no larger than the maximum m, scaled by 255/m, ends within 255 |
| `Robot.MixWithinRange` | src/robot/mod.rs:267-282 | when no sum wraps, every command lies in [-255, 255], none points against its sum (a small one may drop to 0), and the order of the wheels' magnitudes is kept |
| `Robot.SaturatedExample` | src/robot/mod.rs:269-282 | y = x = 300 sums to (600, 0, 0, 600) and is rescaled to (255, 0, 0, 255) |
| `Robot.SmallWheelStops` | src/robot/mod.rs:269-289 | y = 300, x = 299 sums to (599, 1, 1, 599); the rescale truncates the small wheels to 0, so b and c are sent `stop` although their sums were forward |
| `Robot.DriveIgnoresPwmValues` | src/robot/mod.rs:251-265 | the wheel commands do not depend on `pwm_values` |
| `Robot.FrameDrivesInRange` | src/robot/mod.rs:241-290 | for any frame the decoder can hold, no mecanum sum wraps and every wheel command lies in [-255, 255] |
| `Robot.Robot.constructor` | src/robot/mod.rs:237 | `pwm_values` start at zero and no motor has been commanded |
| `Robot.Robot.RightStickManagement` | src/robot/mod.rs:251-290 | stores the new magnitudes (cast to u8) in `pwm_values` and gives each motor `apply_motor` of its mixed command |
| `Robot.Robot.Process` | src/robot/mod.rs:26-42 | the right stick drives the motors; left, vra and vrb change nothing |
| `Robot.Robot.ProcessFlySkySticks` | src/robot/mod.rs:241-249 | one cycle drives the motors from the classified right stick of the decoder's current table, and every command lies in [-255, 255] |

## Left out

- Timer, interrupt and pin set-up (`Ppm::init_from_d2/d3`, `avr_interrupt_enable`, reading TCNT1, `FlySkyManager::init`, `load_timer*_pwm`, `Robot::new`) is register I/O. The timer value is a parameter of `OnEdge`.
- The critical sections (`interrupt::free`, `Mutex`) and interrupt preemption are not modelled. Each interrupt body and each snapshot is one atomic method call.
- The `Motor` implementations for MotorA..D are pin sequencing. A motor is an abstract last command: forward, backward or stop, plus `Idle` before the first command.
- The serial `uwrite!` output, the endless `start` loop with its delay, and `main.rs` (peripheral take, panic handler) are I/O or have no logic.
- `Helper.MapU16ToI16`: the firmware computes in f32, and the model divides integers, rounding toward zero. Results can differ by one where f32 rounding crosses an integer. Only the dead-zone, sign, endpoint (1000, 2000), ±255 bound on [1000, 2000], no-clamp and monotonicity facts are claimed, plus the [-821, 1387] range below 4000 us (`HelperProperties.SignedBelowBlank`); those hold of both.
- `Robot.Scale`: the f32 rescaling `(v as f32 * (255.0 / max)) as i16` is modelled as v * 255 / max rounded toward zero. `Robot.MixWithinRange` claims the bound, that no wheel reverses direction, and the magnitude order, not bit-exact equality with f32, and not a post-scale maximum of exactly 255.
- `Robot.MecanumSums`: the i16 sums and `abs` wrap, as in a release build; a debug build would panic. The sums cannot wrap for widths the decoder can store (`Robot.FrameDrivesInRange`).
- `Flysky.ToFlySky` requires six pairs numbered 0..5 in order. Its one caller, `FlySkyManager::get_status` (src/robot/flysky/mod.rs:160-162), passes the fresh result of `get_channels()`, which is such a sequence; an iterator that was already advanced would yield fewer pairs and is not modelled.
