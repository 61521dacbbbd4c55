/** What homing does to the lines of STEPPING_PORT and STEPPERS_ENABLE_PORT:
    a pulse pair touches only the step lines it pulses, a cycle sets the
    direction lines once and keeps them, and no line outside STEPPING_MASK
    ever changes. */
module PortFacts {
  import opened Bits
  import opened Config
  import opened HomingSpec
  import Tracking
  import RunFacts
  import PhaseFacts
  import OrderFacts

  /** `PORT |= v; PORT ^= v` leaves every bit of `v` at 0 and every other
      bit as it was. */
  lemma PulsePairEffect(port: Byte, v: Byte)
    ensures Masked(PulsePair(port, v), v, Zero)
    ensures Agree(PulsePair(port, v), port, BitNot(v))
  {
    PulsePairClears(port, v);
    assert Masked(v, BitNot(v), Zero);
    PulsePairKeeps(port, v, BitNot(v));
  }

  /** What one pass's pulse pair does to the step line of axis `a`, under
      the loop's invariant. On a non-inverted line a moving axis is raised
      and lowered and a stopped one is left alone; on an inverted line it is
      the other way round: a moving axis is left alone and a stopped one is
      raised and lowered. */
  lemma StepLineEffect(m: Macros, s: Settings, reverse: bool, c: Cycle, a: Axis, port: Byte)
    requires m.Valid()
    requires Tracks(m, reverse, c)
    ensures var v, bit := PulseValue(m, s, c.outBits), m.StepBit(a);
      ((Flag(c, a) && Masked(s.invertMask, bit, Zero)) || (!Flag(c, a) && Masked(s.invertMask, bit, bit))) ==>
        Masked(BitOr(port, v), bit, bit) && Masked(PulsePair(port, v), bit, Zero)
    ensures var v, bit := PulseValue(m, s, c.outBits), m.StepBit(a);
      ((Flag(c, a) && Masked(s.invertMask, bit, bit)) || (!Flag(c, a) && Masked(s.invertMask, bit, Zero))) ==>
        Agree(BitOr(port, v), port, bit) && Agree(PulsePair(port, v), port, bit)
  {
    Tracking.PulseBit(m, s, reverse, c, a);
    PulseLine(port, PulseValue(m, s, c.outBits), m.StepBit(a), s.invertMask, Flag(c, a));
  }

  /** Pulse pairs whose bits avoid `mask` leave the lines of `mask` alone. */
  lemma {:induction false} PortAfterKeeps(port: Byte, steps: seq<Step>, mask: Byte)
    requires forall k :: 0 <= k < |steps| ==> Masked(steps[k].pulse, mask, Zero)
    ensures Agree(PortAfter(port, steps), port, mask)
    decreases |steps|
  {
    if steps != [] {
      var init := steps[..|steps| - 1];
      PortAfterKeeps(port, init, mask);
      PulsePairKeeps(PortAfter(port, init), steps[|steps| - 1].pulse, mask);
      AgreeTransitive(PortAfter(port, steps), PortAfter(port, init), port, mask);
    }
  }

  /** The loop of a cycle changes no line outside STEP_MASK. */
  lemma RunKeepsNonStep(m: Macros, s: Settings, reverse: bool, c: Cycle, pins: seq<Byte>, port: Byte)
    ensures Agree(PortAfter(port, Run(m, s, reverse, c, pins).steps), port, BitNot(m.stepMask))
  {
    var o := Run(m, s, reverse, c, pins);
    forall k | 0 <= k < |o.steps|
      ensures Masked(o.steps[k].pulse, BitNot(m.stepMask), Zero)
    {
      RunFacts.RunPulsesOnlySteps(m, s, reverse, c, pins, k);
    }
    PortAfterKeeps(port, o.steps, BitNot(m.stepMask));
  }

  /** Neither do the trailing pulses of `leave_limit_switch`. */
  lemma TrailingKeepsNonStep(m: Macros, s: Settings, x: bool, y: bool, z: bool, port: Byte)
    ensures Agree(PortAfter(port, TrailingSteps(m, s, x, y, z)), port, BitNot(m.stepMask))
  {
    var trailing := TrailingSteps(m, s, x, y, z);
    Tracking.PulseOnlySteps(m, s, WithAxes(m, Zero, x, y, z));
    assert forall k :: 0 <= k < |trailing| ==> Masked(trailing[k].pulse, BitNot(m.stepMask), Zero);
    PortAfterKeeps(port, trailing, BitNot(m.stepMask));
  }

  /** The direction lines of the port after a direction write `dir` and
      pulses that avoid the lines outside STEP_MASK `sm` come from `out`
      through the invert mask ... */
  lemma DirectionLinesAfter(sm: Byte, dm: Byte, inv: Byte, out: Byte, d: Byte, dir: Byte, final: Byte)
    requires Disjoint(sm, dm)
    requires Masked(dir, dm, (out ^ inv) & dm)
    requires Masked(out, dm, d)
    requires Agree(final, dir, BitNot(sm))
    ensures Masked(final, dm, BitAnd(BitXor(d, inv), dm))
  {
    DisjointOutside(sm, dm);
    AgreeWithin(final, dir, BitNot(sm), dm);
    XorSelect(out, inv, dm, d);
  }

  /** ... and the lines outside STEPPING_MASK `stm` from the port before. */
  lemma OtherLinesAfter(sm: Byte, dm: Byte, stm: Byte, port: Byte, dir: Byte, final: Byte)
    requires stm == sm | dm
    requires Agree(dir, port, BitNot(stm))
    requires Agree(final, dir, BitNot(sm))
    ensures Agree(final, port, BitNot(stm))
  {
    UnionOutside(sm, dm, stm);
    AgreeWithin(final, dir, BitNot(sm), BitNot(stm));
    AgreeTransitive(final, dir, port, BitNot(stm));
  }

  /** A direction write `dir` of `out` followed by pulse pairs on the step
      lines `sm` only: the direction lines `dm` end as the write set them,
      the lines outside `stm` as they were before the write. */
  lemma WriteThenPulses(sm: Byte, dm: Byte, stm: Byte, inv: Byte, port: Byte, out: Byte, d: Byte, dir: Byte, steps: seq<Step>)
    requires Disjoint(sm, dm) && stm == sm | dm
    requires Masked(dir, dm, (out ^ inv) & dm)
    requires Agree(dir, port, BitNot(stm))
    requires Masked(out, dm, d)
    requires forall k :: 0 <= k < |steps| ==> Masked(steps[k].pulse, BitNot(sm), Zero)
    ensures Masked(PortAfter(dir, steps), dm, BitAnd(BitXor(d, inv), dm))
    ensures Agree(PortAfter(dir, steps), port, BitNot(stm))
  {
    PortAfterKeeps(dir, steps, BitNot(sm));
    DirectionLinesAfter(sm, dm, inv, out, d, dir, PortAfter(dir, steps));
    OtherLinesAfter(sm, dm, stm, port, dir, PortAfter(dir, steps));
  }

  lemma CycleLinesOf(m: Macros, s: Settings, reverse: bool, port: Byte, out: Byte, steps: seq<Step>)
    requires m.Valid()
    requires Masked(out, m.directionMask, DirectionBits(m, reverse))
    requires forall k :: 0 <= k < |steps| ==> Masked(steps[k].pulse, BitNot(m.stepMask), Zero)
    ensures Masked(PortAfter(DirectionWrite(m, s, port, out), steps), m.directionMask, BitAnd(BitXor(DirectionBits(m, reverse), s.invertMask), m.directionMask))
    ensures Agree(PortAfter(DirectionWrite(m, s, port, out), steps), port, BitNot(m.steppingMask))
  {
    Tracking.DirectionWriteDirection(m, s, port, out);
    Tracking.DirectionWriteOthers(m, s, port, out);
    WriteThenPulses(m.stepMask, m.directionMask, m.steppingMask, s.invertMask, port, out, DirectionBits(m, reverse),
                    DirectionWrite(m, s, port, out), steps);
  }

  /** After a `homing_cycle` call the direction lines show the cycle's
      direction (DIRECTION_MASK, or 0 on a reverse cycle) through the
      invert mask, and every line outside STEPPING_MASK has the value it
      had before the call, however many passes the loop made. */
  lemma CycleLines(m: Macros, s: Settings, x: bool, y: bool, z: bool, reverse: bool, microsecondsPerPulse: nat,
                   port: Byte, pins: seq<Byte>, from: nat)
    requires m.Valid()
    requires from <= |pins|
    ensures var p := CyclePhase(m, s, x, y, z, reverse, microsecondsPerPulse, port, pins, from);
      && Masked(p.port, m.directionMask, BitAnd(BitXor(DirectionBits(m, reverse), s.invertMask), m.directionMask))
      && Agree(p.port, port, BitNot(m.steppingMask))
  {
    var out := InitialOutBits(m, x, y, z, reverse);
    var c := StartCycle(m, s, x, y, z, reverse, microsecondsPerPulse);
    var o := Run(m, s, reverse, c, pins[from..]);
    PhaseFacts.CyclePhaseOf(m, s, x, y, z, reverse, microsecondsPerPulse, port, pins, from, DirectionWrite(m, s, port, out), o);
    forall k | 0 <= k < |o.steps|
      ensures Masked(o.steps[k].pulse, BitNot(m.stepMask), Zero)
    {
      RunFacts.RunPulsesOnlySteps(m, s, reverse, c, pins[from..], k);
    }
    Tracking.StartTracks(m, s, x, y, z, reverse, microsecondsPerPulse);
    assert Masked(out, m.directionMask, DirectionBits(m, reverse));
    CycleLinesOf(m, s, reverse, port, out, o.steps);
  }

  /** `leave_limit_switch` leaves the direction lines at the reverse
      direction and changes no line outside STEPPING_MASK. */
  lemma LeaveLines(m: Macros, s: Settings, x: bool, y: bool, z: bool, port: Byte, pins: seq<Byte>, from: nat)
    requires m.Valid()
    requires from <= |pins|
    ensures var p := LeavePhase(m, s, x, y, z, port, pins, from);
      && Masked(p.port, m.directionMask, BitAnd(BitXor(Zero, s.invertMask), m.directionMask))
      && Agree(p.port, port, BitNot(m.steppingMask))
  {
    var cycle := CyclePhase(m, s, x, y, z, true, m.homingCycle * 32, port, pins, from);
    CycleLines(m, s, x, y, z, true, m.homingCycle * 32, port, pins, from);
    if cycle.done {
      var trailing := TrailingSteps(m, s, x, y, z);
      PhaseFacts.LeaveOf(m, s, x, y, z, port, pins, from, cycle);
      TrailingKeepsNonStep(m, s, x, y, z, cycle.port);
      var final := PortAfter(cycle.port, trailing);
      DisjointOutside(m.stepMask, m.directionMask);
      AgreeWithin(final, cycle.port, BitNot(m.stepMask), m.directionMask);
      OtherLinesAfter(m.stepMask, m.directionMask, m.steppingMask, port, cycle.port, final);
    }
  }

  /** An axis block changes no line outside STEPPING_MASK. */
  lemma HomeAxisKeepsOthers(m: Macros, s: Settings, a: Axis, port: Byte, pins: seq<Byte>, from: nat)
    requires m.Valid()
    requires from <= |pins|
    ensures Agree(HomeAxisPhase(m, s, a, port, pins, from).port, port, BitNot(m.steppingMask))
  {
    var approach := ApproachPhase(m, s, a == X, a == Y, a == Z, port, pins, from);
    CycleLines(m, s, a == X, a == Y, a == Z, false, m.homingCycle * 16, port, pins, from);
    if approach.done {
      var leave := LeavePhase(m, s, a == X, a == Y, a == Z, approach.port, pins, approach.next);
      LeaveLines(m, s, a == X, a == Y, a == Z, approach.port, pins, approach.next);
      AgreeTransitive(leave.port, approach.port, port, BitNot(m.steppingMask));
    }
  }

  /** Running one more block keeps the lines outside STEPPING_MASK. */
  lemma ContinueKeepsOthers(m: Macros, s: Settings, p: Phase, a: Axis, pins: seq<Byte>)
    requires m.Valid()
    requires p.next <= |pins|
    ensures Agree(Continue(m, s, p, a, pins).port, p.port, BitNot(m.steppingMask))
  {
    if p.done {
      HomeAxisKeepsOthers(m, s, a, p.port, pins, p.next);
    }
  }

  /** Agreement carries over to an equal value. */
  lemma AgreeSame(a: Byte, b: Byte, port: Byte, mask: Byte)
    requires a == b
    requires Agree(b, port, mask)
    ensures Agree(a, port, mask)
  {
  }

  /** Any sequence of axis blocks keeps the lines outside STEPPING_MASK. */
  lemma {:induction false} HomeAllKeepsOthers(m: Macros, s: Settings, order: seq<Axis>, p: Phase, pins: seq<Byte>)
    requires m.Valid()
    requires p.next <= |pins|
    ensures Agree(HomeAll(m, s, order, p, pins).port, p.port, BitNot(m.steppingMask))
    decreases |order|
  {
    if order != [] {
      var q := Continue(m, s, p, order[0], pins);
      ContinueKeepsOthers(m, s, p, order[0], pins);
      HomeAllKeepsOthers(m, s, order[1..], q, pins);
      AgreeTransitive(HomeAll(m, s, order[1..], q, pins).port, q.port, p.port, BitNot(m.steppingMask));
    }
  }

  /** The whole of `limits_go_home`'s homing changes no line of
      STEPPING_PORT outside STEPPING_MASK. */
  lemma SequencerKeepsOthers(m: Macros, s: Settings, port: Byte, pins: seq<Byte>, from: nat)
    requires m.Valid()
    requires from <= |pins|
    ensures Agree(SequencerPhase(m, s, port, pins, from).port, port, BitNot(m.steppingMask))
  {
    var p0 := Phase(port, [], from, true);
    OrderFacts.SequencerIsHomeAll(m, s, port, pins, from);
    HomeAllKeepsOthers(m, s, HomeOrder(m), p0, pins);
    AgreeSame(SequencerPhase(m, s, port, pins, from).port, HomeAll(m, s, HomeOrder(m), p0, pins).port, port, BitNot(m.steppingMask));
  }

  /** Enabling sets the enable and activity lines and keeps the others ... */
  lemma EnabledLines(m: Macros, port: Byte)
    ensures Masked(Enabled(m, port), BitOr(m.enable, m.activity), BitOr(m.enable, m.activity))
    ensures Agree(Enabled(m, port), port, BitNot(BitOr(m.enable, m.activity)))
  {
  }

  /** ... disabling clears them and keeps the others ... */
  lemma DisabledLines(m: Macros, port: Byte)
    ensures Masked(Disabled(m, port), BitOr(m.enable, m.activity), Zero)
    ensures Agree(Disabled(m, port), port, BitNot(BitOr(m.enable, m.activity)))
  {
  }

  /** ... so a completed `limits_go_home` leaves STEPPERS_ENABLE_PORT as it
      found it except that the enable and activity lines end at 0. */
  lemma EnableRoundTrip(m: Macros, port: Byte)
    ensures Masked(Disabled(m, Enabled(m, port)), BitOr(m.enable, m.activity), Zero)
    ensures Agree(Disabled(m, Enabled(m, port)), port, BitNot(BitOr(m.enable, m.activity)))
  {
    EnabledLines(m, port);
    DisabledLines(m, Enabled(m, port));
    AgreeTransitive(Disabled(m, Enabled(m, port)), Enabled(m, port), port, BitNot(BitOr(m.enable, m.activity)));
  }
}
