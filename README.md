# Homing with limit switches (Grbl `limits.c`)

This project models the homing code of the Grbl motion-control firmware,
`limits.c`, in Dafny, and proves what it does to the stepper ports.

- `limits_init` makes the limit pins inputs.
- `homing_cycle` drives a set of axes until each one's limit switch fires.
  It writes the direction lines once, then loops. Each pass reads the limit
  pins, retires the axes whose switch reports, pulses the others, ramps the
  delay and waits.
- `approach_limit_switch` and `leave_limit_switch` wrap the cycle. The
  leave phase adds HOMING_LEAVE_PULSES trailing pulses.
- `limits_go_home` synchronises with the planner, enables the drivers, zeroes
  the position and homes Z and then X and Y in the configured order. It then
  disables the drivers and resets the step counter.

Modules, one file each:

- `Bits` (`bits.dfy`): `uint8_t` values and the C operators `|`, `^`, `&`
  and `~`, as named functions with small lemmas.
- `Config` (`config.dfy`): the macros of the headers and the settings the
  code reads. `Macros.Valid()` states what the code relies on.
- `HomingSpec` (`homing_spec.dfy`): the behaviour as functions.
  - `Next` is one pass of the loop.
  - `Run` is the loop over a finite sequence of limit-pin readings.
  - `PortAfter` and `PulseTrace` are the port value and the events the
    passes produce.
  - `CyclePhase`, `LeavePhase`, `HomeAxisPhase` and `SequencerPhase` are
    the phases.
- `Limits` (`limits.dfy`): class `Machine` holds STEPPING_PORT, LIMIT_DDR,
  STEPPERS_ENABLE_PORT and `sys.position`. Its methods are the functions of
  `limits.c`, with the same loops. Each method that runs a cycle, a loop, a
  phase or the sequencer is proved equal to its `HomingSpec` function.
  `LimitsInit` and the pulse pair state their effect on the registers
  directly.
- Lemma modules:
  - `Tracking` and `RunFacts`: the bits of `out_bits`, retirement, pulses
    and the ramp.
  - `PortFacts`: which port lines change.
  - `OrderFacts`: the order of the axis blocks.
  - `PhaseFacts`: glue lemmas that let a method reuse what a function
    already computed.

A `Machine` records what an observer sees in the field `events`:

- every value written to STEPPING_PORT and to STEPPERS_ENABLE_PORT;
- every `delay_us` and `delay_ms` with its argument;
- the two foreign calls, `plan_synchronize` and `st_counter_null`.

LIMIT_PIN is the sequence `limitPin`, one reading per pass. `readCount`
says how many readings have been used.

## Model

| member | source | states |
|---|---|---|
| Limits.Machine.LimitsInit | GRBL/limits.c:36-38 | the LIMIT_MASK bits of LIMIT_DDR become 0 and every other bit keeps its value |
| Limits.InitialBits | GRBL/limits.c:53-61 | `out_bits` starts as DIRECTION_MASK, or 0 on a reverse cycle, with the step bits of the requested axes or-ed in |
| HomingSpec.InitialDelay | GRBL/limits.c:42 | the `uint32_t` subtraction: the result is below 2^32; it is the difference when the pulse width is at most the period, and wraps to 2^32 plus the difference otherwise |
| Tracking.StartDirection | GRBL/limits.c:53-61 | or-ing in the step bits keeps the direction part of `out_bits` at DIRECTION_MASK, or 0 on a reverse cycle |
| Tracking.StartStep | GRBL/limits.c:53-61 | the step bit of an axis in the initial `out_bits` is set exactly when the axis was requested |
| Tracking.StartTracks | GRBL/limits.c:53-61 | at loop entry the direction part of `out_bits` is DIRECTION_MASK (0 on a reverse cycle) and each step bit is set exactly when its axis was requested |
| Tracking.DirectionWriteDirection | GRBL/limits.c:64 | the direction write sets the direction lines to `(out_bits ^ invert_mask) & DIRECTION_MASK` |
| Tracking.DirectionWriteSteps | GRBL/limits.c:64 | the direction write toggles the step lines by their invert bits |
| Tracking.DirectionWriteOthers | GRBL/limits.c:64 | the direction write keeps every line outside STEPPING_MASK |
| Limits.Machine.HomingCycle | GRBL/limits.c:40-101 | the port, the events, the readings used and whether the call returned are those of `CyclePhase`: the direction write, the settle wait, then the loop |
| HomingSpec.DirectionWrite | GRBL/limits.c:64 | the direction write as a value; what it does to each group of lines is stated by the three `Tracking.DirectionWrite` rows |
| HomingSpec.LimitBits | GRBL/limits.c:68-72 | `limit_bits` as a value; when it retires an axis is stated by `Tracking.FiresOnApproach` and `Tracking.FiresOnLeave` |
| HomingSpec.PulseValue | GRBL/limits.c:86 | the pulse value as a value; its bits are stated by `Tracking.PulseBit` and `Tracking.PulseOnlySteps` |
| HomingSpec.CyclePhase | GRBL/limits.c:40-101 | a cycle never reads past the readings given, and one that has not returned has used all of them |
| Limits.Machine.HomingLoop | GRBL/limits.c:67-99 | the loop does what `Run` says over the unread readings: the port is `PortAfter` of its passes, the events are their `PulseTrace`, one reading is used per pass, and `done` is whether the loop returned |
| Limits.Machine.Advance | GRBL/limits.c:67-98 | one pass extends the passes made so far by one; either the loop has returned with all axes stopped, or the rest of the loop runs from the new locals |
| Limits.Machine.HomingPass | GRBL/limits.c:68-93 | one pass: the new locals are `Next` of the old ones and the reading; the port gets the pulse pair of `StepOf`; the events are pulse on, pulse width, pulse off, delay |
| Limits.Machine.ReadLimits | GRBL/limits.c:68-72 | `limit_bits` is the reading XOR LIMIT_INVMASK, further XOR LIMIT_MASK on a reverse cycle; one reading is used |
| Limits.RetireAxes | GRBL/limits.c:73-84 | the three tests as written: a moving axis whose bit of `limit_bits` is 0 stops and its step bit is toggled, X then Y then Z |
| Tracking.RetireWrittenOut | GRBL/limits.c:73-84 | the three written-out tests are the single rule `RetireAxis` applied to X, Y and Z |
| HomingSpec.RetireAxis | GRBL/limits.c:73-76 | the tested axis moves afterwards exactly when it moved before and its limit bit is set; the other flags and the delay are unchanged |
| HomingSpec.Retire | GRBL/limits.c:73-84 | after the three tests an axis moves exactly when it moved before and its limit bit is set; the delay is unchanged |
| Tracking.FiresOnApproach | GRBL/limits.c:68-76 | on the approach an axis retires when its limit line, normalised by LIMIT_INVMASK, reads 0 |
| Tracking.FiresOnLeave | GRBL/limits.c:68-76 | on the leave an axis retires when its normalised limit line reads 1 |
| Tracking.StopTracks | GRBL/limits.c:73-84 | toggling the step bit of a moving axis as it stops keeps the invariant: direction part fixed, each step bit set exactly while its axis moves |
| Tracking.NextTracks | GRBL/limits.c:68-92 | one pass keeps that invariant |
| HomingSpec.Next | GRBL/limits.c:68-92 | after a pass an axis moves exactly when it moved before and the reading does not retire it; the delay is ramped once |
| Limits.Machine.PulsePair | GRBL/limits.c:86-88 | `STEPPING_PORT \|= v`, the pulse-width wait, `STEPPING_PORT ^= v`, and the events they show |
| PortFacts.PulsePairEffect | GRBL/limits.c:86-88 | after the pulse pair every bit of `v` is 0 and every other bit, direction lines included, has its old value |
| Tracking.PulseBit | GRBL/limits.c:86 | under the invariant an axis's bit of the pulse value is its flag XOR its invert bit |
| PortFacts.StepLineEffect | GRBL/limits.c:86-88 | what one pass does to an axis's step line: raised and lowered when the axis moves on a non-inverted line or is stopped on an inverted one; untouched when it moves on an inverted line or is stopped on a non-inverted one |
| Tracking.PulseOnlySteps | GRBL/limits.c:86 | a pulse value has no bit outside STEP_MASK |
| Limits.RampDelay | GRBL/limits.c:90-92 | the delay after the ramp is `Ramp` of the delay before |
| HomingSpec.Ramp | GRBL/limits.c:90-92 | the delay is unchanged on a reverse cycle or at most HOMING_CYCLE, and never grows, even when `d*98` wraps; while `d*98` fits a `uint32_t` it is `d*98/100` rounded down when it ramps, and never drops below `HOMING_CYCLE*98/100` from above HOMING_CYCLE |
| HomingSpec.Run | GRBL/limits.c:67-99 | at most one pass per reading; a loop that returned has stopped every axis after at least one pass; one that has not returned used every reading and, when at least one reading was given, still has an axis moving |
| RunFacts.PassFlags | GRBL/limits.c:73-84 | after pass `k` an axis moves exactly when it was started and none of the readings up to `k` retired it: flags only drop |
| RunFacts.PassTracks | GRBL/limits.c:53-84 | the invariant on `out_bits` holds after every pass |
| RunFacts.PassDelay | GRBL/limits.c:90-92 | after pass `k` the delay is the start delay ramped `k+1` times |
| RunFacts.RunSteps | GRBL/limits.c:67-99 | pass `k` pulses and waits as the locals at its end say, and the loop ends with the locals of its last pass |
| RunFacts.RunStops | GRBL/limits.c:95-98 | the loop returns after the first pass that leaves every axis stopped, and no earlier |
| RunFacts.IdleAtPass | GRBL/limits.c:73-98 | all axes are stopped after pass `k` exactly when each started axis was retired by a reading up to `k` |
| RunFacts.RunDoneIff | GRBL/limits.c:67-99 | the loop returns within the readings exactly when there is one and every started axis is retired by one of them |
| RunFacts.RunPulses | GRBL/limits.c:73-88 | an axis's bit of the pulse value of pass `k` is 1 XOR its invert bit exactly when the axis was started and no reading up to and including `k` retired it: the check comes before the pulse |
| RunFacts.RetiredStaysQuiet | GRBL/limits.c:73-88 | once a reading has retired an axis, its bit of every later pulse value is its invert bit |
| RunFacts.RunPulsesOnlySteps | GRBL/limits.c:86-88 | no pulse of the loop touches a bit outside STEP_MASK |
| RunFacts.RampIterReverse | GRBL/limits.c:90-92 | on a reverse cycle the delay never changes |
| RunFacts.RampIterNonIncreasing | GRBL/limits.c:90-92 | the repeated ramp never raises the delay, for every start delay |
| RunFacts.RampIterFloor | GRBL/limits.c:90-92 | while the start delay `d` has `d*98` fitting a `uint32_t`, the repeated ramp never takes the delay below `HOMING_CYCLE*98/100`, or below a start delay that was already lower |
| RunFacts.RampWrapBelowFloor | GRBL/limits.c:42-91 | the floor needs the fit: with HOMING_CYCLE = 2739138 and an 11 µs pulse the approach's start delay times 98 overflows and the first ramp gives 0, below `HOMING_CYCLE*98/100` |
| RunFacts.RampIterSettled | GRBL/limits.c:90-92 | once the delay is at most HOMING_CYCLE it never changes again |
| RunFacts.RampFixed | GRBL/limits.c:90-92 | a delay at most HOMING_CYCLE is a fixed point of the repeated ramp |
| RunFacts.RunDelays | GRBL/limits.c:90-93 | pass `k` waits the start delay ramped `k+1` times: constant on the leave, non-increasing on the approach, and, while the start delay times 98 fits a `uint32_t`, never below the floor |
| PortFacts.PortAfterKeeps | GRBL/limits.c:86-88 | pulse pairs whose bits avoid a mask leave the lines of that mask as they were |
| PortFacts.RunKeepsNonStep | GRBL/limits.c:67-99 | the loop changes no line outside STEP_MASK |
| PortFacts.CycleLines | GRBL/limits.c:64-99 | after a cycle the direction lines show its direction through the invert mask, and every line outside STEPPING_MASK has its value from before the call |
| HomingSpec.ApproachPhase | GRBL/limits.c:104-106 | the approach is a forward cycle at `HOMING_CYCLE<<4`; it never reads past the readings given, and one that has not returned has used all of them |
| Limits.Machine.ApproachLimitSwitch | GRBL/limits.c:104-106 | a forward cycle whose period is `HOMING_CYCLE<<4` |
| Limits.TrailingBits | GRBL/limits.c:110-116 | the trailing `out_bits` is 0 with the step bits of the requested axes |
| HomingSpec.TrailingSteps | GRBL/limits.c:114-122 | exactly HOMING_LEAVE_PULSES pulses, each on the step bits of the axes requested at the call and followed by `HOMING_CYCLE<<5` |
| Limits.Machine.TrailingPulse | GRBL/limits.c:118-121 | one pass of the trailing loop is pulse `k` of `TrailingSteps` |
| Limits.Machine.TrailingPulses | GRBL/limits.c:117-122 | the loop counted by the 8-bit `my_count` makes exactly the pulses and events of `TrailingSteps` |
| RunFacts.TrailingPulseBits | GRBL/limits.c:114-120 | in every trailing pulse value a requested axis's bit is 1 XOR its invert bit and any other axis's bit is its invert bit, regardless of when the cycle retired the axis |
| PortFacts.TrailingKeepsNonStep | GRBL/limits.c:117-122 | the trailing pulses change no line outside STEP_MASK |
| Limits.Machine.LeaveLimitSwitch | GRBL/limits.c:108-123 | a reverse cycle whose period is `HOMING_CYCLE<<5`; once it returns, the trailing pulses (`LeavePhase`) |
| HomingSpec.LeavePhase | GRBL/limits.c:108-123 | the leave never reads past the readings given, and one that has not returned has used all of them |
| PortFacts.LeaveLines | GRBL/limits.c:108-123 | after the leave the direction lines show the reverse direction through the invert mask, and the lines outside STEPPING_MASK are unchanged |
| HomingSpec.HomeAxisPhase | GRBL/limits.c:137-141 | an axis block reads on from where it starts, never past the readings given, and one that does not complete has used all of them |
| Limits.Machine.HomeAxis | GRBL/limits.c:137-141 | one axis block: approach, 50 ms settle, leave, 50 ms settle (`HomeAxisPhase`) |
| PortFacts.HomeAxisKeepsOthers | GRBL/limits.c:137-141 | an axis block changes no line outside STEPPING_MASK |
| HomingSpec.Continue | GRBL/limits.c:136-175 | a block run after a completed phase reads on from where that phase stopped; nothing runs after a phase that did not complete |
| Limits.Machine.ContinueWith | GRBL/limits.c:136-175 | runs one block after a completed phase, as `Continue` says |
| Limits.Machine.HomeAxes | GRBL/limits.c:136-175 | the blocks the conditional compilation selects, in its order (`SequencerPhase`) |
| HomingSpec.SequencerPhase | GRBL/limits.c:136-175 | the `#ifdef` blocks Z, then Y and X or X and Y, each present axis once; the sequencer never reads past the readings given |
| HomingSpec.HomeAll | GRBL/limits.c:136-175 | the blocks of a given order run one after another, each on the readings the last one left; none reads past the readings given |
| HomingSpec.HomeOrder | GRBL/limits.c:136-175 | each axis with a switch appears exactly once and no other axis does; Z comes first; X comes before Y exactly when Y_HOME_FIRST is not set |
| OrderFacts.SequencerIsHomeAll | GRBL/limits.c:136-175 | the `#ifdef` sequence is the blocks of `HomeOrder` run one after another |
| OrderFacts.HomeAllAppend | GRBL/limits.c:136-175 | running the blocks of `a + b` is running those of `a`, then those of `b` |
| OrderFacts.HomeAllStalled | GRBL/limits.c:136-175 | no block runs after a phase that did not complete |
| PortFacts.HomeAllKeepsOthers | GRBL/limits.c:136-175 | any sequence of blocks keeps the lines outside STEPPING_MASK |
| PortFacts.SequencerKeepsOthers | GRBL/limits.c:136-175 | homing changes no line of STEPPING_PORT outside STEPPING_MASK |
| Limits.Machine.EnableSteppers | GRBL/limits.c:126-129 | `plan_synchronize()`, then the enable bit and the activity bit of STEPPERS_ENABLE_PORT set in two writes |
| HomingSpec.Enabled | GRBL/limits.c:128-129 | STEPPERS_ENABLE_PORT after the two enabling writes, as a value; its lines are stated by `PortFacts.EnabledLines` |
| PortFacts.EnabledLines | GRBL/limits.c:128-129 | enabling sets the enable and activity lines and keeps the others |
| Limits.Machine.DisableSteppers | GRBL/limits.c:179-186 | the settle wait, the two writes clearing the enable and activity bits, then `st_counter_null()` |
| HomingSpec.Disabled | GRBL/limits.c:180-181 | STEPPERS_ENABLE_PORT after the two disabling writes, as a value; its lines are stated by `PortFacts.DisabledLines` |
| PortFacts.DisabledLines | GRBL/limits.c:180-181 | disabling clears the enable and activity lines and keeps the others |
| PortFacts.EnableRoundTrip | GRBL/limits.c:128-181 | after a completed homing STEPPERS_ENABLE_PORT is as before except that the enable and activity lines are 0 |
| Limits.Machine.LimitsGoHome | GRBL/limits.c:125-188 | synchronise and enable first, the axis blocks of `SequencerPhase`, and, once they complete, settle, disable and `st_counter_null()`, with the events in that order; `sys.position` ends zeroed for X, Y and Z (the model does not say when the zeroing happens relative to the events) |

## Left out

- Timing. `delay_us` and `delay_ms` become events carrying their argument.
  Pulse widths and real durations are not modelled.
- Hardware. The AVR registers are plain bytes. A write is a new value, and
  a read of LIMIT_PIN is the next element of `limitPin`. STEPPING_PORT,
  STEPPERS_ENABLE_PORT and LIMIT_DDR are separate fields of `Machine`, so the
  model assumes they are three distinct registers; the headers that define
  them are not part of this model. If STEPPERS_ENABLE_PORT were the same
  register as STEPPING_PORT, the final STEPPING_PORT value `LimitsGoHome`
  states would not hold.
- Foreign calls. `plan_synchronize` and `st_counter_null` are the events
  `Synchronize` and `CounterNull`. Their bodies are not part of this model.
- Header macros. stepper.h and config.h are not part of this model. Their
  macros are fields of `Macros`, and `Macros.Valid()` lists the
  assumptions:
  - the step bits are distinct bits of STEP_MASK;
  - STEP_MASK and DIRECTION_MASK are disjoint, and STEPPING_MASK is their
    union;
  - each limit bit lies in LIMIT_MASK;
  - `HOMING_CYCLE<<5` fits a `uint32_t`. This assumes the macro is an
    unsigned long, for example written with a `UL` suffix. C evaluates the
    shift in the macro's own type, and a 16-bit AVR `int` would overflow
    from HOMING_CYCLE = 1024 on;
  - HOMING_LEAVE_PULSES is at most 255.
  The two shifts are modelled as products, on a HOMING_CYCLE taken as an
  unbounded natural.
- Limits.Machine.HomingLoop: the `for(;;)` loop runs over the finite
  sequence `limitPin`. When the readings run out before every axis stops,
  the model reports "not returned" (`done` false). The firmware would still
  be looping there.
  - The callers stop at that point: `LeaveLimitSwitch` skips the trailing
    pulses, and `LimitsGoHome` runs no further block and does not disable
    the drivers.
  - Termination of the real loop depends on the switches and is not
    claimed.
- Limits.Machine.TrailingPulses: requires HOMING_LEAVE_PULSES ≤ 255. With
  a larger value the 8-bit `my_count` wraps and the C loop never ends,
  which the model does not represent. LeaveLimitSwitch, HomeAxis,
  ContinueWith, HomeAxes and LimitsGoHome carry the same requirement.
- RunFacts.RampIterFloor, RunFacts.RunDelays and HomingSpec.Ramp: the
  floor is proved only while the start delay times 98 fits a `uint32_t`.
  `Macros.Valid()` does not supply that. The ramp computes the product
  modulo 2^32, as the firmware does.
  - Beyond the fit the floor can fail. `RunFacts.RampWrapBelowFloor`
    shows HOMING_CYCLE = 2739138 with an 11 µs pulse: the approach starts
    at 43826197 µs, and its first ramp wraps to 0.
  - For some larger HOMING_CYCLE values the wrapped delay still stays above
    the floor. The model makes no claim about those.
  - The ordering needs no fit: the delay never grows, wrapped or not.
- The commented-out STEPPERS_DISABLE_PORT writes (GRBL/limits.c:130, 182)
  are dead code.
- Two defects the file itself notes are left as written, with no fix
  invented:
  - the "buggy, no enable set" remark (GRBL/limits.c:21);
  - the TODO about position tracking (GRBL/limits.c:33-34).
- `sys` is reduced to its `position` array of three entries. Its other
  fields are not touched by this code.
- Several C functions are split into helper methods: `Advance`,
  `HomingPass`, `ReadLimits`, `RampDelay`, `TrailingBits`,
  `TrailingPulse`, `EnableSteppers`, `DisableSteppers`, `HomeAxes` and
  `ContinueWith`. The order of every read, write and wait is the C
  function's, so the state sequence is unchanged.

### Where the code differs from what one might expect

The model follows the code in each of these places.

- Step pulses on inverted lines. One might expect a moving axis to get a
  pulse on every pass and a retired axis never to be pulsed again. In the
  code, an axis's bit of the pulse value is its flag XOR its invert bit
  (`Tracking.PulseBit`, `RunFacts.RetiredStaysQuiet`). The pair
  `|= v; ^= v` raises and lowers a line whose bit of `v` is 1 and leaves a
  line whose bit is 0 as it was (`PortFacts.StepLineEffect`).
  - On a non-inverted step line a moving axis is pulsed and a retired one
    is left alone.
  - On an inverted step line a moving axis is never pulsed. A stopped axis,
    whether retired or never requested, is driven 1 and then 0 on every
    pass. This includes an axis with no switch and one not being homed. It
    also gets every trailing pulse of each leave (GRBL/limits.c:118-120),
    because its pulse-value bit is its invert bit, 1.
- The direction write. One might expect GRBL/limits.c:64 to set only the
  direction lines. It also toggles the step lines by their invert bits
  (`Tracking.DirectionWriteSteps`).
- The ramp floor. One might expect the delay never to fall below
  HOMING_CYCLE. The last decay step can take it below that, down to
  `HOMING_CYCLE*98/100` (`HomingSpec.Ramp`, `RunFacts.RampIterFloor`).
