/** What the bits of `out_bits`, of the pulses and of the direction write
    mean: the direction part of `out_bits` never changes during a cycle, its
    step bits follow the axis flags, and the bit of an axis in each pulse
    value is that axis's flag XOR its invert bit. */
module Tracking {
  import opened Bits
  import opened Config
  import opened HomingSpec

  lemma StepBitsDisjoint(m: Macros, a: Axis, b: Axis)
    requires m.Valid()
    requires a != b
    ensures Disjoint(m.StepBit(a), m.StepBit(b))
  {
    match (a, b)
    case (Y, X) => DisjointSymmetric(m.xStep, m.yStep);
    case (Z, X) => DisjointSymmetric(m.xStep, m.zStep);
    case (Z, Y) => DisjointSymmetric(m.yStep, m.zStep);
    case _ =>
  }

  lemma StepBitInside(m: Macros, a: Axis)
    requires m.Valid()
    ensures Within(m.StepBit(a), m.stepMask)
  {
  }

  lemma StepBitOutsideDirection(m: Macros, a: Axis)
    requires m.Valid()
    ensures Disjoint(m.StepBit(a), m.directionMask)
  {
    StepBitInside(m, a);
    WithinDisjoint(m.StepBit(a), m.stepMask, m.directionMask);
  }

  /** On the approach an axis retires when its normalised limit line reads
      0 ... */
  lemma FiresOnApproach(m: Macros, pin: Byte, a: Axis)
    ensures Fires(m, false, pin, a) <==> Masked(BitXor(pin, m.limitInvMask), m.LimitBit(a), Zero)
  {
  }

  /** ... and on the leave when it reads 1. */
  lemma FiresOnLeave(m: Macros, pin: Byte, a: Axis)
    requires Within(m.LimitBit(a), m.limitMask)
    ensures Fires(m, true, pin, a) <==> Masked(BitXor(pin, m.limitInvMask), m.LimitBit(a), m.LimitBit(a))
  {
    FlipWithin(BitXor(pin, m.limitInvMask), m.limitMask, m.LimitBit(a));
  }

  /** Or-ing in step bits leaves every mask disjoint from them alone. */
  lemma WithAxesKeeps(m: Macros, base: Byte, x: bool, y: bool, z: bool, mask: Byte, w: Byte)
    requires Disjoint(m.xStep, mask) && Disjoint(m.yStep, mask) && Disjoint(m.zStep, mask)
    requires Masked(base, mask, w)
    ensures Masked(WithAxes(m, base, x, y, z), mask, w)
  {
    SetIfKeeps(base, m.xStep, x, mask, w);
    SetIfKeeps(SetIf(base, m.xStep, x), m.yStep, y, mask, w);
    SetIfKeeps(SetIf(SetIf(base, m.xStep, x), m.yStep, y), m.zStep, z, mask, w);
  }

  /** Or-ing the step bits of the requested axes into a value whose step
      bit of X is clear sets that bit exactly when X is requested; the same
      for Y and Z below. */
  lemma WithAxesBitX(m: Macros, base: Byte, x: bool, y: bool, z: bool)
    requires m.Valid()
    requires Masked(base, m.xStep, Zero)
    ensures Masked(WithAxes(m, base, x, y, z), m.xStep, if x then m.xStep else Zero)
  {
    var v1 := SetIf(base, m.xStep, x);
    SetIfSelf(base, m.xStep, x);
    DisjointSymmetric(m.xStep, m.yStep);
    SetIfKeeps(v1, m.yStep, y, m.xStep, if x then m.xStep else Zero);
    DisjointSymmetric(m.xStep, m.zStep);
    SetIfKeeps(SetIf(v1, m.yStep, y), m.zStep, z, m.xStep, if x then m.xStep else Zero);
  }

  lemma WithAxesBitY(m: Macros, base: Byte, x: bool, y: bool, z: bool)
    requires m.Valid()
    requires Masked(base, m.yStep, Zero)
    ensures Masked(WithAxes(m, base, x, y, z), m.yStep, if y then m.yStep else Zero)
  {
    var v1 := SetIf(base, m.xStep, x);
    SetIfKeeps(base, m.xStep, x, m.yStep, Zero);
    SetIfSelf(v1, m.yStep, y);
    DisjointSymmetric(m.yStep, m.zStep);
    SetIfKeeps(SetIf(v1, m.yStep, y), m.zStep, z, m.yStep, if y then m.yStep else Zero);
  }

  lemma WithAxesBitZ(m: Macros, base: Byte, x: bool, y: bool, z: bool)
    requires m.Valid()
    requires Masked(base, m.zStep, Zero)
    ensures Masked(WithAxes(m, base, x, y, z), m.zStep, if z then m.zStep else Zero)
  {
    var v1 := SetIf(base, m.xStep, x);
    SetIfKeeps(base, m.xStep, x, m.zStep, Zero);
    SetIfKeeps(v1, m.yStep, y, m.zStep, Zero);
    SetIfSelf(SetIf(v1, m.yStep, y), m.zStep, z);
  }

  /** The step bit of `a` in `base` is clear when `base` holds only
      direction bits. */
  lemma DirectionBitsClear(m: Macros, reverse: bool, a: Axis)
    requires m.Valid()
    ensures Masked(DirectionBits(m, reverse), m.StepBit(a), Zero)
  {
    if reverse {
      MaskedZero(m.StepBit(a));
    } else {
      StepBitOutsideDirection(m, a);
      MaskedDisjoint(m.directionMask, m.StepBit(a));
    }
  }

  /** At loop entry the direction part of `out_bits` is the direction bits
      of the cycle's direction. */
  lemma StartDirection(m: Macros, x: bool, y: bool, z: bool, reverse: bool)
    requires m.Valid()
    ensures Masked(InitialOutBits(m, x, y, z, reverse), m.directionMask, DirectionBits(m, reverse))
  {
    var d := DirectionBits(m, reverse);
    StepBitOutsideDirection(m, X);
    StepBitOutsideDirection(m, Y);
    StepBitOutsideDirection(m, Z);
    if reverse { MaskedZero(m.directionMask); } else { MaskedSelf(m.directionMask); }
    WithAxesKeeps(m, d, x, y, z, m.directionMask, d);
  }

  /** At loop entry the step bit of `a` in `out_bits` is set exactly when
      `a` was requested. */
  lemma StartStep(m: Macros, x: bool, y: bool, z: bool, reverse: bool, a: Axis)
    requires m.Valid()
    ensures StepTracks(m, Cycle(x, y, z, InitialOutBits(m, x, y, z, reverse), 0), a)
  {
    var d := DirectionBits(m, reverse);
    DirectionBitsClear(m, reverse, a);
    match a
    case X => WithAxesBitX(m, d, x, y, z);
    case Y => WithAxesBitY(m, d, x, y, z);
    case Z => WithAxesBitZ(m, d, x, y, z);
  }

  /** The loop invariant holds at loop entry: `out_bits` starts with the
      direction bits of the cycle's direction and the step bits of exactly
      the requested axes. */
  lemma StartTracks(m: Macros, s: Settings, x: bool, y: bool, z: bool, reverse: bool, microsecondsPerPulse: nat)
    requires m.Valid()
    ensures Tracks(m, reverse, StartCycle(m, s, x, y, z, reverse, microsecondsPerPulse))
  {
    var c := StartCycle(m, s, x, y, z, reverse, microsecondsPerPulse);
    var c0 := Cycle(x, y, z, InitialOutBits(m, x, y, z, reverse), 0);
    StartDirection(m, x, y, z, reverse);
    StartStep(m, x, y, z, reverse, X);
    StartStep(m, x, y, z, reverse, Y);
    StartStep(m, x, y, z, reverse, Z);
    assert forall a :: StepTracks(m, c0, a) ==> StepTracks(m, c, a);
  }

  /** Tracks reads only the flags and `out_bits`. */
  lemma TracksFrame(m: Macros, reverse: bool, c: Cycle, d: Cycle)
    requires Tracks(m, reverse, c)
    requires c.x == d.x && c.y == d.y && c.z == d.z && c.outBits == d.outBits
    ensures Tracks(m, reverse, d)
  {
    assert forall a :: Flag(c, a) == Flag(d, a);
    assert forall a :: StepTracks(m, c, a) ==> StepTracks(m, d, a);
  }

  lemma StopSelf(m: Macros, c: Cycle, a: Axis)
    requires StepTracks(m, c, a)
    requires Flag(c, a)
    ensures StepTracks(m, Stop(m, c, a), a)
  {
    ToggleSelf(c.outBits, m.StepBit(a));
  }

  lemma StopOther(m: Macros, c: Cycle, a: Axis, b: Axis)
    requires Disjoint(m.StepBit(a), m.StepBit(b))
    requires StepTracks(m, c, b)
    requires a != b
    ensures StepTracks(m, Stop(m, c, a), b)
  {
    ToggleKeeps(c.outBits, m.StepBit(a), m.StepBit(b), if Flag(c, b) then m.StepBit(b) else Zero);
  }

  lemma StopDirection(m: Macros, reverse: bool, c: Cycle, a: Axis)
    requires m.Valid()
    requires Masked(c.outBits, m.directionMask, DirectionBits(m, reverse))
    ensures Masked(Stop(m, c, a).outBits, m.directionMask, DirectionBits(m, reverse))
  {
    StepBitOutsideDirection(m, a);
    ToggleKeeps(c.outBits, m.StepBit(a), m.directionMask, DirectionBits(m, reverse));
  }

  /** Stopping a moving axis keeps the invariant. */
  lemma StopTracks(m: Macros, reverse: bool, c: Cycle, a: Axis)
    requires m.Valid()
    requires Tracks(m, reverse, c)
    requires Flag(c, a)
    ensures Tracks(m, reverse, Stop(m, c, a))
  {
    StopDirection(m, reverse, c, a);
    StopSelf(m, c, a);
    forall b | b != a
      ensures StepTracks(m, Stop(m, c, a), b)
    {
      StepBitsDisjoint(m, a, b);
      StopOther(m, c, a, b);
    }
  }

  lemma RetireAxisTracks(m: Macros, reverse: bool, limitBits: Byte, c: Cycle, a: Axis)
    requires m.Valid()
    requires Tracks(m, reverse, c)
    ensures Tracks(m, reverse, RetireAxis(m, limitBits, c, a))
  {
    if Flag(c, a) && !LimitSet(limitBits, m.LimitBit(a)) {
      StopTracks(m, reverse, c, a);
    }
  }

  lemma RetireTracks(m: Macros, reverse: bool, limitBits: Byte, c: Cycle)
    requires m.Valid()
    requires Tracks(m, reverse, c)
    ensures Tracks(m, reverse, Retire(m, limitBits, c))
  {
    var c1 := RetireAxis(m, limitBits, c, X);
    RetireAxisTracks(m, reverse, limitBits, c, X);
    var c2 := RetireAxis(m, limitBits, c1, Y);
    RetireAxisTracks(m, reverse, limitBits, c1, Y);
    RetireAxisTracks(m, reverse, limitBits, c2, Z);
  }

  /** The three tests the loop writes out one by one are the one rule
      `RetireAxis` applied to X, Y and Z in turn. */
  lemma RetireWrittenOut(m: Macros, limitBits: Byte, c: Cycle)
    ensures RetireZ(m, limitBits, RetireY(m, limitBits, RetireX(m, limitBits, c))) == Retire(m, limitBits, c)
  {
    var c1 := RetireX(m, limitBits, c);
    assert c1 == RetireAxis(m, limitBits, c, X);
    var c2 := RetireY(m, limitBits, c1);
    assert c2 == RetireAxis(m, limitBits, c1, Y);
    assert RetireZ(m, limitBits, c2) == RetireAxis(m, limitBits, c2, Z);
  }

  /** One pass of the loop keeps the invariant on `out_bits`. */
  lemma NextTracks(m: Macros, reverse: bool, c: Cycle, pin: Byte)
    requires m.Valid()
    requires Tracks(m, reverse, c)
    ensures Tracks(m, reverse, Next(m, reverse, c, pin))
  {
    var retired := Retire(m, LimitBits(m, pin, reverse), c);
    RetireTracks(m, reverse, LimitBits(m, pin, reverse), c);
    TracksFrame(m, reverse, retired, Next(m, reverse, c, pin));
  }

  /** Under the invariant, the bit of `a` in the pulse value is its flag
      XOR its invert bit. A 1 bit raises and lowers the step line; a 0 bit
      leaves it as it was (`PortFacts.StepLineEffect`). */
  lemma PulseBit(m: Macros, s: Settings, reverse: bool, c: Cycle, a: Axis)
    requires m.Valid()
    requires Tracks(m, reverse, c)
    ensures Masked(PulseValue(m, s, c.outBits), m.StepBit(a), BitXor(if Flag(c, a) then m.StepBit(a) else Zero, BitAnd(s.invertMask, m.StepBit(a))))
  {
    assert StepTracks(m, c, a);
    StepBitInside(m, a);
    InvertSelect(c.outBits, s.invertMask, m.stepMask, m.StepBit(a), if Flag(c, a) then m.StepBit(a) else Zero);
  }

  /** A pulse never touches a bit outside STEP_MASK. */
  lemma PulseOnlySteps(m: Macros, s: Settings, outBits: Byte)
    ensures Masked(PulseValue(m, s, outBits), BitNot(m.stepMask), Zero)
  {
    SelectOutside(BitXor(outBits, s.invertMask), m.stepMask);
  }

  /** The direction write sets the direction lines from `out_bits` (through
      the invert mask) ... */
  lemma DirectionWriteDirection(m: Macros, s: Settings, port: Byte, outBits: Byte)
    requires m.Valid()
    ensures Masked(DirectionWrite(m, s, port, outBits), m.directionMask, (outBits ^ s.invertMask) & m.directionMask)
  {
    DirectionPart(port, outBits, s.invertMask, m.stepMask, m.directionMask, m.steppingMask);
  }

  /** ... toggles the step lines by their invert bits ... */
  lemma DirectionWriteSteps(m: Macros, s: Settings, port: Byte, outBits: Byte)
    requires m.Valid()
    ensures Masked(DirectionWrite(m, s, port, outBits), m.stepMask, (port ^ s.invertMask) & m.stepMask)
  {
    StepPart(port, outBits, s.invertMask, m.stepMask, m.directionMask, m.steppingMask);
  }

  /** ... and leaves every other line of the port as it was. */
  lemma DirectionWriteOthers(m: Macros, s: Settings, port: Byte, outBits: Byte)
    requires m.Valid()
    ensures Agree(DirectionWrite(m, s, port, outBits), port, BitNot(m.steppingMask))
  {
    OtherPart(port, outBits, s.invertMask, m.stepMask, m.directionMask, m.steppingMask);
  }
}
