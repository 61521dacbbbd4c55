/** Build-time constants and run-time settings the homing code reads.

    The header files that define the pin layout and the homing constants
    (stepper.h, config.h) are not part of this model, so every macro is a
    field of `Macros`, and `Macros.Valid()` states the assumptions the homing
    code relies on instead of fixing their numbers. */
module Config {
  import opened Bits

  /** 2^32: the range of the firmware's `uint32_t` values. */
  const Uint32Modulus: int := 0x1_0000_0000

  /** Number of entries of `sys.position` (one per axis). */
  const AxisCount: nat := 3

  /** Settle pause, in milliseconds, between the homing phases. */
  const SettleMs: nat := 50

  datatype Axis = X | Y | Z

  /** The macros of the unseen headers, as parameters. A bit-position macro
      `FOO_BIT` appears as the mask `1<<FOO_BIT` that the code builds from it. */
  datatype Macros = Macros(
    xStep: Byte, yStep: Byte, zStep: Byte,                // 1<<X_STEP_BIT, 1<<Y_STEP_BIT, 1<<Z_STEP_BIT
    xLimit: Byte, yLimit: Byte, zLimit: Byte,             // 1<<X_LIMIT_BIT, 1<<Y_LIMIT_BIT, 1<<Z_LIMIT_BIT
    stepMask: Byte,                                     // STEP_MASK
    directionMask: Byte,                                // DIRECTION_MASK
    steppingMask: Byte,                                 // STEPPING_MASK
    limitMask: Byte,                                    // LIMIT_MASK
    limitInvMask: Byte,                                 // LIMIT_INVMASK
    enable: Byte,                                       // 1<<STEPPERS_ENABLE_BIT
    activity: Byte,                                     // 1<<STEPPERS_ACTIVITY_BIT
    homingCycle: nat,                                  // HOMING_CYCLE (ramp floor, microseconds)
    leavePulses: nat,                                  // HOMING_LEAVE_PULSES
    xPresent: bool, yPresent: bool, zPresent: bool,    // X_LIMIT_PRESENT, Y_LIMIT_PRESENT, Z_LIMIT_PRESENT
    yHomeFirst: bool)                                  // Y_HOME_FIRST
  {
    /** What the homing code relies on in the headers: the three step bits
        are distinct bits of STEP_MASK, the step and direction masks are
        disjoint and STEPPING_MASK is their union, each limit bit lies in
        LIMIT_MASK, `HOMING_CYCLE<<5` fits a `uint32_t`, and the 8-bit
        trailing pulse counter can reach HOMING_LEAVE_PULSES. */
    predicate Valid() {
      && Disjoint(xStep, yStep) && Disjoint(yStep, zStep) && Disjoint(xStep, zStep)
      && Within(xStep, stepMask) && Within(yStep, stepMask) && Within(zStep, stepMask)
      && Disjoint(stepMask, directionMask)
      && steppingMask == stepMask | directionMask
      && Within(xLimit, limitMask) && Within(yLimit, limitMask) && Within(zLimit, limitMask)
      && homingCycle * 32 < Uint32Modulus
      && leavePulses <= 255
    }

    /** `1<<X_STEP_BIT` and its siblings. */
    function StepBit(a: Axis): Byte {
      match a
      case X => xStep
      case Y => yStep
      case Z => zStep
    }

    /** `1<<X_LIMIT_BIT` and its siblings. */
    function LimitBit(a: Axis): Byte {
      match a
      case X => xLimit
      case Y => yLimit
      case Z => zLimit
    }

    /** Whether a limit switch is configured for `a`. */
    function Present(a: Axis): bool {
      match a
      case X => xPresent
      case Y => yPresent
      case Z => zPresent
    }
  }

  /** The part of the global settings store the homing code reads:
      `settings.invert_mask` and `settings.pulse_microseconds`. */
  datatype Settings = Settings(invertMask: Byte, pulseMicroseconds: nat)
}
