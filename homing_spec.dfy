/** The homing cycle of `limits.c` as a pure state machine over bytes and
    naturals: the per-call state of `homing_cycle`, one pass of its `for(;;)`
    loop, the loop run over a finite sequence of limit-pin readings, the
    observable trace of port writes and waits, and the phases and the axis
    order that `limits_go_home` composes from it. The class in `limits.dfy`
    is proved to behave as these functions say. */
module HomingSpec {
  import opened Bits
  import opened Config

  /** What an observer of the machine sees, in order: the value of
      STEPPING_PORT after each write to it, the value of STEPPERS_ENABLE_PORT
      after each write to it, the busy waits, and the two calls into code
      that is not part of this model (`plan_synchronize`, `st_counter_null`). */
  datatype Event =
    | Synchronize
    | CounterNull
    | WaitUs(us: nat)
    | WaitMs(ms: nat)
    | StepperPort(value: Byte)
    | EnablePort(value: Byte)

  /** The locals of one `homing_cycle` call that its loop updates: the three
      "axis still moving" flags, `out_bits` and `step_delay`. */
  datatype Cycle = Cycle(x: bool, y: bool, z: bool, outBits: Byte, stepDelay: nat)

  /** One pass of the loop as the port sees it: the step bits pulsed and the
      delay waited after the pulse. */
  datatype Step = Step(pulse: Byte, delay: nat)

  /** The loop over a finite sequence of readings: the final locals, one
      `Step` per pass made, and whether the loop returned (`done`) or was
      still running when the readings ran out. */
  datatype Outcome = Outcome(cycle: Cycle, steps: seq<Step>, done: bool)

  /** A phase of the homing procedure as seen from outside: the final
      STEPPING_PORT value, the events, the index of the next limit-pin
      reading, and whether the phase completed. */
  datatype Phase = Phase(port: Byte, trace: seq<Event>, next: nat, done: bool)

  function Flag(c: Cycle, a: Axis): bool {
    match a
    case X => c.x
    case Y => c.y
    case Z => c.z
  }

  predicate Idle(c: Cycle) {
    !(c.x || c.y || c.z)
  }

  /** The direction part of `out_bits`: DIRECTION_MASK for the approach,
      0 for a reverse (leave) cycle. */
  function DirectionBits(m: Macros, reverse: bool): Byte {
    if reverse then Zero else m.directionMask
  }

  /** `base` with the step bits of the requested axes or-ed in, X, Y, Z. */
  function WithAxes(m: Macros, base: Byte, x: bool, y: bool, z: bool): Byte {
    SetIf(SetIf(SetIf(base, m.xStep, x), m.yStep, y), m.zStep, z)
  }

  /** `out_bits` as `homing_cycle` sets it up before the loop. */
  function InitialOutBits(m: Macros, x: bool, y: bool, z: bool, reverse: bool): Byte {
    WithAxes(m, DirectionBits(m, reverse), x, y, z)
  }

  /** The step bit of `a` in `out_bits` is set exactly while `a` moves. */
  predicate StepTracks(m: Macros, c: Cycle, a: Axis) {
    Masked(c.outBits, m.StepBit(a), if Flag(c, a) then m.StepBit(a) else Zero)
  }

  /** The loop's invariant on `out_bits`: its direction part is fixed by
      `reverse` and each step bit tracks its axis's flag. */
  predicate Tracks(m: Macros, reverse: bool, c: Cycle) {
    && Masked(c.outBits, m.directionMask, DirectionBits(m, reverse))
    && forall a :: StepTracks(m, c, a)
  }

  /** `microseconds_per_pulse - settings.pulse_microseconds` on `uint32_t`:
      the difference when it is not negative, and wrapped modulo 2^32 when
      the pulse is longer than the period. */
  function InitialDelay(microsecondsPerPulse: nat, pulseMicroseconds: nat): (r: nat)
    ensures r < Uint32Modulus
    ensures pulseMicroseconds <= microsecondsPerPulse < Uint32Modulus ==> r + pulseMicroseconds == microsecondsPerPulse
    ensures microsecondsPerPulse < pulseMicroseconds < Uint32Modulus ==> r == Uint32Modulus + microsecondsPerPulse - pulseMicroseconds
  {
    (microsecondsPerPulse - pulseMicroseconds) % Uint32Modulus
  }

  /** The locals at loop entry. */
  function StartCycle(m: Macros, s: Settings, x: bool, y: bool, z: bool, reverse: bool, microsecondsPerPulse: nat): Cycle {
    Cycle(x, y, z, InitialOutBits(m, x, y, z, reverse), InitialDelay(microsecondsPerPulse, s.pulseMicroseconds))
  }

  /** The direction write before the loop: the direction bits take the
      direction part of `out_bits`, then the whole stepping part is toggled
      by the invert mask. */
  function DirectionWrite(m: Macros, s: Settings, port: Byte, outBits: Byte): Byte {
    BitXor(BitOr(BitAnd(port, BitNot(m.directionMask)), BitAnd(outBits, m.directionMask)), BitAnd(s.invertMask, m.steppingMask))
  }

  /** `limit_bits`: the pin reading normalised by LIMIT_INVMASK, and on a
      reverse cycle flipped on all limit lines. */
  function LimitBits(m: Macros, pin: Byte, reverse: bool): Byte {
    var bits := BitXor(pin, m.limitInvMask);
    if reverse then BitXor(bits, m.limitMask) else bits
  }

  /** The test `limit_bits & (1<<..._LIMIT_BIT)` of one axis: its limit bit
      is set, so the axis keeps moving. */
  predicate LimitSet(limitBits: Byte, bit: Byte) {
    BitAnd(limitBits, bit) != Zero
  }

  /** Whether the reading `pin` retires axis `a`: its bit of `limit_bits`
      is 0. */
  predicate Fires(m: Macros, reverse: bool, pin: Byte, a: Axis) {
    !LimitSet(LimitBits(m, pin, reverse), m.LimitBit(a))
  }

  /** Stopping axis `a`: its flag drops and its step bit in `out_bits` is
      toggled. */
  function Stop(m: Macros, c: Cycle, a: Axis): (r: Cycle)
    ensures !Flag(r, a)
    ensures forall b :: b != a ==> Flag(r, b) == Flag(c, b)
    ensures r.outBits == BitXor(c.outBits, m.StepBit(a))
    ensures r.stepDelay == c.stepDelay
  {
    var stopped := match a
      case X => c.(x := false)
      case Y => c.(y := false)
      case Z => c.(z := false);
    stopped.(outBits := BitXor(c.outBits, m.StepBit(a)))
  }

  /** One of the three retirement tests: an axis still moving whose bit of
      `limit_bits` is 0 is stopped. */
  function RetireAxis(m: Macros, limitBits: Byte, c: Cycle, a: Axis): (r: Cycle)
    ensures Flag(r, a) == (Flag(c, a) && LimitSet(limitBits, m.LimitBit(a)))
    ensures forall b :: b != a ==> Flag(r, b) == Flag(c, b)
    ensures r.stepDelay == c.stepDelay
  {
    if Flag(c, a) && !LimitSet(limitBits, m.LimitBit(a)) then Stop(m, c, a) else c
  }

  /** The three retirement tests of one pass, X then Y then Z: afterwards
      an axis moves exactly when it moved before and its bit of
      `limit_bits` is set. */
  function Retire(m: Macros, limitBits: Byte, c: Cycle): (r: Cycle)
    ensures forall a :: Flag(r, a) == (Flag(c, a) && LimitSet(limitBits, m.LimitBit(a)))
    ensures r.stepDelay == c.stepDelay
  {
    RetireAxis(m, limitBits, RetireAxis(m, limitBits, RetireAxis(m, limitBits, c, X), Y), Z)
  }

  /** The retirement test of X written out as the loop has it. */
  function RetireX(m: Macros, limitBits: Byte, c: Cycle): Cycle {
    if c.x && !LimitSet(limitBits, m.xLimit) then c.(x := false, outBits := BitXor(c.outBits, m.xStep)) else c
  }

  /** The same for Y. */
  function RetireY(m: Macros, limitBits: Byte, c: Cycle): Cycle {
    if c.y && !LimitSet(limitBits, m.yLimit) then c.(y := false, outBits := BitXor(c.outBits, m.yStep)) else c
  }

  /** The same for Z. */
  function RetireZ(m: Macros, limitBits: Byte, c: Cycle): Cycle {
    if c.z && !LimitSet(limitBits, m.zLimit) then c.(z := false, outBits := BitXor(c.outBits, m.zStep)) else c
  }

  /** The ramp: on the approach a delay above HOMING_CYCLE becomes
      `step_delay*98/100`, computed on `uint32_t`; otherwise it is kept. The
      delay never grows, even when the product wraps. As long as
      `step_delay*98` fits, a delay above HOMING_CYCLE never falls below
      `HOMING_CYCLE*98/100`. */
  function Ramp(m: Macros, reverse: bool, d: nat): (r: nat)
    ensures reverse || d <= m.homingCycle ==> r == d
    ensures r <= d
    ensures d * 98 < Uint32Modulus && d > m.homingCycle ==> r >= m.homingCycle * 98 / 100
    ensures !reverse && d > m.homingCycle && d * 98 < Uint32Modulus ==> r * 100 <= d * 98 < r * 100 + 100
  {
    if d > m.homingCycle && !reverse then (d * 98) % Uint32Modulus / 100 else d
  }

  /** The step bits of one pulse: `(out_bits ^ invert_mask) & STEP_MASK`. */
  function PulseValue(m: Macros, s: Settings, outBits: Byte): Byte {
    BitAnd(BitXor(outBits, s.invertMask), m.stepMask)
  }

  /** The locals after one pass reading `pin`: retirement, then the ramp. */
  function Next(m: Macros, reverse: bool, c: Cycle, pin: Byte): (r: Cycle)
    ensures forall a :: Flag(r, a) == (Flag(c, a) && !Fires(m, reverse, pin, a))
    ensures r.stepDelay == Ramp(m, reverse, c.stepDelay)
  {
    var retired := Retire(m, LimitBits(m, pin, reverse), c);
    retired.(stepDelay := Ramp(m, reverse, retired.stepDelay))
  }

  /** What one pass shows the port, given the locals at its end. */
  function StepOf(m: Macros, s: Settings, c: Cycle): Step {
    Step(PulseValue(m, s, c.outBits), c.stepDelay)
  }

  /** The locals at the end of pass `k` (counting from 0) of the loop
      started with `c`, pass `i` reading `pins[i]`. */
  function Pass(m: Macros, reverse: bool, c: Cycle, pins: seq<Byte>, k: nat): Cycle
    requires k < |pins|
    decreases k
  {
    var c' := Next(m, reverse, c, pins[0]);
    if k == 0 then c' else Pass(m, reverse, c', pins[1..], k - 1)
  }

  /** The `for(;;)` loop over the readings `pins`, one per pass. Every pass
      retires, pulses the axes still moving, ramps and waits; the loop
      returns after the first pass that leaves no axis moving. */
  function Run(m: Macros, s: Settings, reverse: bool, c: Cycle, pins: seq<Byte>): (o: Outcome)
    ensures |o.steps| <= |pins|
    ensures o.done ==> Idle(o.cycle) && 0 < |o.steps|
    ensures !o.done ==> |o.steps| == |pins| && (0 < |pins| ==> !Idle(o.cycle))
    decreases |pins|
  {
    if pins == [] then Outcome(c, [], false)
    else
      var c' := Next(m, reverse, c, pins[0]);
      if Idle(c') then Outcome(c', [StepOf(m, s, c')], true)
      else
        var o := Run(m, s, reverse, c', pins[1..]);
        Outcome(o.cycle, [StepOf(m, s, c')] + o.steps, o.done)
  }

  /** The ramp applied `n` times. */
  function RampIter(m: Macros, reverse: bool, d: nat, n: nat): nat
    decreases n
  {
    if n == 0 then d else RampIter(m, reverse, Ramp(m, reverse, d), n - 1)
  }

  /** The pulse pair `PORT |= v; PORT ^= v`. */
  function PulsePair(port: Byte, v: Byte): Byte {
    BitXor(BitOr(port, v), v)
  }

  /** STEPPING_PORT after the pulse pairs of `steps`, starting from `port`. */
  function PortAfter(port: Byte, steps: seq<Step>): Byte {
    if steps == [] then port
    else PulsePair(PortAfter(port, steps[..|steps| - 1]), steps[|steps| - 1].pulse)
  }

  /** The events of one pass: pulse on, pulse width, pulse off, delay. */
  function StepTrace(port: Byte, pulseMicroseconds: nat, step: Step): seq<Event> {
    [StepperPort(BitOr(port, step.pulse)), WaitUs(pulseMicroseconds),
     StepperPort(PulsePair(port, step.pulse)), WaitUs(step.delay)]
  }

  /** The events of the passes `steps`, starting from `port`. */
  function PulseTrace(port: Byte, pulseMicroseconds: nat, steps: seq<Step>): seq<Event> {
    if steps == [] then []
    else
      var init := steps[..|steps| - 1];
      PulseTrace(port, pulseMicroseconds, init) + StepTrace(PortAfter(port, init), pulseMicroseconds, steps[|steps| - 1])
  }

  /** One call of `homing_cycle` reading `pins` from index `from` on: the
      direction write and its settle wait, then the loop. */
  function CyclePhase(m: Macros, s: Settings, x: bool, y: bool, z: bool, reverse: bool,
                      microsecondsPerPulse: nat, port: Byte, pins: seq<Byte>, from: nat): (p: Phase)
    requires from <= |pins|
    ensures from <= p.next <= |pins|
    ensures !p.done ==> p.next == |pins|
  {
    var dir := DirectionWrite(m, s, port, InitialOutBits(m, x, y, z, reverse));
    var o := Run(m, s, reverse, StartCycle(m, s, x, y, z, reverse, microsecondsPerPulse), pins[from..]);
    Phase(PortAfter(dir, o.steps),
          [StepperPort(dir), WaitUs(s.pulseMicroseconds)] + PulseTrace(dir, s.pulseMicroseconds, o.steps),
          from + |o.steps|, o.done)
  }

  /** `approach_limit_switch`: a forward cycle starting at `HOMING_CYCLE<<4`. */
  function ApproachPhase(m: Macros, s: Settings, x: bool, y: bool, z: bool, port: Byte, pins: seq<Byte>, from: nat): (p: Phase)
    requires from <= |pins|
    ensures from <= p.next <= |pins|
    ensures !p.done ==> p.next == |pins|
  {
    CyclePhase(m, s, x, y, z, false, m.homingCycle * 16, port, pins, from)
  }

  /** The trailing pulses of `leave_limit_switch`: HOMING_LEAVE_PULSES
      identical pulses on the step bits of the axes the caller asked for,
      each followed by the constant `HOMING_CYCLE<<5` delay. */
  function TrailingSteps(m: Macros, s: Settings, x: bool, y: bool, z: bool): (r: seq<Step>)
    ensures |r| == m.leavePulses
    ensures forall k :: 0 <= k < |r| ==> r[k] == StepOf(m, s, Cycle(x, y, z, WithAxes(m, Zero, x, y, z), m.homingCycle * 32))
  {
    seq(m.leavePulses, _ => Step(PulseValue(m, s, WithAxes(m, Zero, x, y, z)), m.homingCycle * 32))
  }

  /** `leave_limit_switch`: a reverse cycle at the constant delay
      `HOMING_CYCLE<<5`, then, once it returns, the trailing pulses. */
  function LeavePhase(m: Macros, s: Settings, x: bool, y: bool, z: bool, port: Byte, pins: seq<Byte>, from: nat): (p: Phase)
    requires from <= |pins|
    ensures from <= p.next <= |pins|
    ensures !p.done ==> p.next == |pins|
  {
    var cycle := CyclePhase(m, s, x, y, z, true, m.homingCycle * 32, port, pins, from);
    if !cycle.done then cycle
    else
      var trailing := TrailingSteps(m, s, x, y, z);
      Phase(PortAfter(cycle.port, trailing),
            cycle.trace + PulseTrace(cycle.port, s.pulseMicroseconds, trailing),
            cycle.next, true)
  }

  /** The block `limits_go_home` runs for one axis: approach, settle,
      leave, settle. A phase that does not complete ends the block. */
  function HomeAxisPhase(m: Macros, s: Settings, a: Axis, port: Byte, pins: seq<Byte>, from: nat): (p: Phase)
    requires from <= |pins|
    ensures from <= p.next <= |pins|
    ensures !p.done ==> p.next == |pins|
  {
    var approach := ApproachPhase(m, s, a == X, a == Y, a == Z, port, pins, from);
    if !approach.done then approach
    else
      var leave := LeavePhase(m, s, a == X, a == Y, a == Z, approach.port, pins, approach.next);
      Phase(leave.port,
            approach.trace + [WaitMs(SettleMs)] + leave.trace + (if leave.done then [WaitMs(SettleMs)] else []),
            leave.next, leave.done)
  }

  /** Runs the block of axis `a` after `p`, on the readings `p` left over;
      nothing runs after a phase that did not complete. */
  function Continue(m: Macros, s: Settings, p: Phase, a: Axis, pins: seq<Byte>): (r: Phase)
    requires p.next <= |pins|
    ensures p.next <= r.next <= |pins|
    ensures !p.done ==> r == p
    ensures p.done && !r.done ==> r.next == |pins|
  {
    if !p.done then p
    else
      var q := HomeAxisPhase(m, s, a, p.port, pins, p.next);
      Phase(q.port, p.trace + q.trace, q.next, q.done)
  }

  /** The axis blocks of `limits_go_home` as its conditional compilation
      selects them: Z if present, then Y and X (or X and Y) if present. */
  function SequencerPhase(m: Macros, s: Settings, port: Byte, pins: seq<Byte>, from: nat): (p: Phase)
    requires from <= |pins|
    ensures from <= p.next <= |pins|
  {
    var p0 := Phase(port, [], from, true);
    var p1 := if m.zPresent then Continue(m, s, p0, Z, pins) else p0;
    if m.yHomeFirst then
      var p2 := if m.yPresent then Continue(m, s, p1, Y, pins) else p1;
      if m.xPresent then Continue(m, s, p2, X, pins) else p2
    else
      var p2 := if m.xPresent then Continue(m, s, p1, X, pins) else p1;
      if m.yPresent then Continue(m, s, p2, Y, pins) else p2
  }

  /** The order in which axes are homed: each axis with a switch exactly
      once, Z first, then X and Y in the configured order. */
  function HomeOrder(m: Macros): (r: seq<Axis>)
    ensures forall a :: a in r <==> m.Present(a)
    ensures forall i, j :: 0 <= i < j < |r| ==> r[i] != r[j]
    ensures m.zPresent ==> |r| > 0 && r[0] == Z
    ensures forall i, j :: 0 <= i < |r| && 0 <= j < |r| && r[i] == X && r[j] == Y ==> (i < j <==> !m.yHomeFirst)
  {
    var z := if m.zPresent then [Z] else [];
    var x := if m.xPresent then [X] else [];
    var y := if m.yPresent then [Y] else [];
    z + (if m.yHomeFirst then y + x else x + y)
  }

  /** Reference sequencer: the axis blocks run one after another in `order`. */
  function HomeAll(m: Macros, s: Settings, order: seq<Axis>, p: Phase, pins: seq<Byte>): (r: Phase)
    requires p.next <= |pins|
    ensures p.next <= r.next <= |pins|
    decreases |order|
  {
    if order == [] then p
    else HomeAll(m, s, order[1..], Continue(m, s, p, order[0], pins), pins)
  }

  /** STEPPERS_ENABLE_PORT after `limits_go_home` sets the enable bit and
      the activity bit. */
  function Enabled(m: Macros, port: Byte): Byte {
    BitOr(BitOr(port, m.enable), m.activity)
  }

  /** STEPPERS_ENABLE_PORT after `limits_go_home` clears them again. */
  function Disabled(m: Macros, port: Byte): Byte {
    BitAnd(BitAnd(port, BitNot(m.enable)), BitNot(m.activity))
  }

  /** The opening of `limits_go_home`: synchronise, then the two writes
      that enable the drivers. */
  function EnableTrace(m: Macros, port: Byte): seq<Event> {
    [Synchronize, EnablePort(BitOr(port, m.enable)), EnablePort(Enabled(m, port))]
  }

  /** The two writes that disable the drivers. */
  function DisableTrace(m: Macros, port: Byte): seq<Event> {
    [EnablePort(BitAnd(port, BitNot(m.enable))), EnablePort(Disabled(m, port))]
  }
}
