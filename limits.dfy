/** `limits.c` as the firmware runs it: the ports and the position vector
    are fields of a `Machine`, the functions of the file are its methods,
    and each method is proved to do what the functions of `HomingSpec`
    say. */
module Limits {
  import opened Bits
  import opened Config
  import opened HomingSpec
  import PhaseFacts

  /** The set-up of `out_bits` in `homing_cycle`: DIRECTION_MASK, or 0 on
      a reverse cycle, with the step bits of the requested axes or-ed in. */
  method InitialBits(m: Macros, x: bool, y: bool, z: bool, reverse: bool) returns (outBits: Byte)
    ensures outBits == InitialOutBits(m, x, y, z, reverse)
  {
    outBits := m.directionMask;
    if reverse {
      outBits := Zero;
    }
    ghost var base := outBits;
    if x { outBits := BitOr(outBits, m.xStep); }
    ghost var withX := outBits;
    assert withX == SetIf(base, m.xStep, x);
    if y { outBits := BitOr(outBits, m.yStep); }
    ghost var withY := outBits;
    assert withY == SetIf(withX, m.yStep, y);
    if z { outBits := BitOr(outBits, m.zStep); }
  }

  /** The set-up of `out_bits` in `leave_limit_switch`: 0, with the step
      bits of the requested axes or-ed in. */
  method TrailingBits(m: Macros, x: bool, y: bool, z: bool) returns (outBits: Byte)
    ensures outBits == WithAxes(m, Zero, x, y, z)
  {
    outBits := Zero;
    if x { outBits := BitOr(outBits, m.xStep); }
    ghost var withX := outBits;
    assert withX == SetIf(Zero, m.xStep, x);
    if y { outBits := BitOr(outBits, m.yStep); }
    ghost var withY := outBits;
    assert withY == SetIf(withX, m.yStep, y);
    if z { outBits := BitOr(outBits, m.zStep); }
  }

  /** The three retirement tests of one pass of the `homing_cycle` loop:
      an axis still moving whose bit of `limitBits` is 0 stops, and its
      step bit in `out_bits` is toggled. */
  method RetireAxes(m: Macros, limitBits: Byte, x: bool, y: bool, z: bool, outBits: Byte, ghost stepDelay: nat)
    returns (xAxis: bool, yAxis: bool, zAxis: bool, bits: Byte)
    ensures Cycle(xAxis, yAxis, zAxis, bits, stepDelay) == RetireZ(m, limitBits, RetireY(m, limitBits, RetireX(m, limitBits, Cycle(x, y, z, outBits, stepDelay))))
  {
    xAxis, yAxis, zAxis, bits := x, y, z, outBits;
    if xAxis && !LimitSet(limitBits, m.xLimit) {
      xAxis := false;
      bits := BitXor(bits, m.xStep);
    }
    if yAxis && !LimitSet(limitBits, m.yLimit) {
      yAxis := false;
      bits := BitXor(bits, m.yStep);
    }
    if zAxis && !LimitSet(limitBits, m.zLimit) {
      zAxis := false;
      bits := BitXor(bits, m.zStep);
    }
  }

  /** The ramp of one pass: on the approach a delay above HOMING_CYCLE is
      scaled by 98/100 in `uint32_t` arithmetic. */
  method RampDelay(m: Macros, reverse: bool, delay: nat) returns (stepDelay: nat)
    ensures stepDelay == Ramp(m, reverse, delay)
  {
    stepDelay := delay;
    if stepDelay > m.homingCycle && !reverse {
      stepDelay := (stepDelay * 98) % Uint32Modulus / 100;
    }
  }

  class Machine {
    /** The header macros and the settings store, fixed for the run. */
    const m: Macros
    const s: Settings
    /** STEPPING_PORT: step lines, direction lines and other pins. */
    var steppingPort: Byte
    /** LIMIT_DDR: the data direction register of the limit pins. */
    var limitDdr: Byte
    /** STEPPERS_ENABLE_PORT. */
    var enablePort: Byte
    /** The values LIMIT_PIN shows, one per pass of a homing loop, in order. */
    const limitPin: seq<Byte>
    /** How many of them have been read. */
    var readCount: nat
    /** Every port write, wait and foreign call so far, in order. */
    var events: seq<Event>
    /** `sys.position`, indexed by X_AXIS = 0, Y_AXIS = 1, Z_AXIS = 2. */
    const position: array<int>

    constructor (m: Macros, s: Settings, steppingPort: Byte, limitDdr: Byte, enablePort: Byte,
                 limitPin: seq<Byte>, position: array<int>)
      requires position.Length == AxisCount
      ensures this.m == m && this.s == s
      ensures this.steppingPort == steppingPort && this.limitDdr == limitDdr && this.enablePort == enablePort
      ensures this.limitPin == limitPin && this.readCount == 0 && this.events == [] && this.position == position
    {
      this.m := m;
      this.s := s;
      this.steppingPort := steppingPort;
      this.limitDdr := limitDdr;
      this.enablePort := enablePort;
      this.limitPin := limitPin;
      this.readCount := 0;
      this.events := [];
      this.position := position;
    }

    /** `limits_init`: the limit pins become inputs; every other pin of the
        register keeps its direction. */
    method LimitsInit()
      modifies this`limitDdr
      ensures Masked(limitDdr, m.limitMask, Zero)
      ensures Agree(limitDdr, old(limitDdr), BitNot(m.limitMask))
    {
      limitDdr := BitAnd(limitDdr, BitNot(m.limitMask));
      ClearMask(old(limitDdr), m.limitMask);
      ClearKeeps(old(limitDdr), m.limitMask);
    }

    /** The pulse pair of one pass: the step bits `pulse` are set, held for
        the pulse width and toggled back. */
    method PulsePair(pulse: Byte)
      modifies this`steppingPort, this`events
      ensures steppingPort == HomingSpec.PulsePair(old(steppingPort), pulse)
      ensures events == old(events) + [StepperPort(BitOr(old(steppingPort), pulse)), WaitUs(s.pulseMicroseconds),
                                      StepperPort(steppingPort)]
    {
      steppingPort := BitOr(steppingPort, pulse);
      events := events + [StepperPort(steppingPort), WaitUs(s.pulseMicroseconds)];
      steppingPort := BitXor(steppingPort, pulse);
      events := events + [StepperPort(steppingPort)];
    }

    /** The head of a pass: LIMIT_PIN is read and normalised into
        `limit_bits`. */
    method ReadLimits(reverse: bool) returns (limitBits: Byte)
      requires readCount < |limitPin|
      modifies this`readCount
      ensures readCount == old(readCount) + 1
      ensures limitBits == LimitBits(m, limitPin[old(readCount)], reverse)
    {
      var pin := limitPin[readCount];
      readCount := readCount + 1;
      limitBits := BitXor(pin, m.limitInvMask);
      if reverse {
        limitBits := BitXor(limitBits, m.limitMask);
      }
    }

    /** One pass of the `for(;;)` loop of `homing_cycle` on the locals
        `x`, `y`, `z`, `bits`, `delay`: read LIMIT_PIN, retire the axes
        whose switch it reports, pulse the others, ramp and wait. */
    method HomingPass(reverse: bool, x: bool, y: bool, z: bool, bits: Byte, delay: nat)
      returns (xAxis: bool, yAxis: bool, zAxis: bool, outBits: Byte, stepDelay: nat)
      requires readCount < |limitPin|
      modifies this`steppingPort, this`readCount, this`events
      ensures readCount == old(readCount) + 1
      ensures Cycle(xAxis, yAxis, zAxis, outBits, stepDelay) == Next(m, reverse, Cycle(x, y, z, bits, delay), limitPin[old(readCount)])
      ensures steppingPort == HomingSpec.PulsePair(old(steppingPort), StepOf(m, s, Cycle(xAxis, yAxis, zAxis, outBits, stepDelay)).pulse)
      ensures events == old(events) + StepTrace(old(steppingPort), s.pulseMicroseconds, StepOf(m, s, Cycle(xAxis, yAxis, zAxis, outBits, stepDelay)))
    {
      ghost var pin := limitPin[readCount];
      var limitBits := ReadLimits(reverse);
      xAxis, yAxis, zAxis, outBits := RetireAxes(m, limitBits, x, y, z, bits, delay);
      ghost var retired := Cycle(xAxis, yAxis, zAxis, outBits, delay);

      ghost var port := steppingPort;
      ghost var before := events;
      var pulse := BitAnd(BitXor(outBits, s.invertMask), m.stepMask);
      PulsePair(pulse);
      stepDelay := RampDelay(m, reverse, delay);
      events := events + [WaitUs(stepDelay)];
      PhaseFacts.PassOf(m, reverse, Cycle(x, y, z, bits, delay), pin, limitBits, retired, Cycle(xAxis, yAxis, zAxis, outBits, stepDelay));
      assert StepOf(m, s, Cycle(xAxis, yAxis, zAxis, outBits, stepDelay)) == Step(pulse, stepDelay);
      PhaseFacts.AppendStep(before, StepperPort(BitOr(port, pulse)), WaitUs(s.pulseMicroseconds), StepperPort(HomingSpec.PulsePair(port, pulse)), WaitUs(stepDelay));
    }

    /** One pass of the `for(;;)` loop of `homing_cycle`, as a step of the
        run `o` the loop started: after the pass, the steps so far have one
        more element and the port and the events still follow them. */
    method Advance(reverse: bool, ghost o: Outcome, ghost port0: Byte, ghost start: seq<Event>, ghost steps: seq<Step>,
                   x: bool, y: bool, z: bool, bits: Byte, delay: nat)
      returns (xAxis: bool, yAxis: bool, zAxis: bool, outBits: Byte, stepDelay: nat, ghost steps': seq<Step>)
      requires readCount < |limitPin|
      requires o == PhaseFacts.Glue(steps, Run(m, s, reverse, Cycle(x, y, z, bits, delay), limitPin[readCount..]))
      requires steppingPort == PortAfter(port0, steps)
      requires events == start + PulseTrace(port0, s.pulseMicroseconds, steps)
      modifies this`steppingPort, this`readCount, this`events
      ensures readCount == old(readCount) + 1 && |steps'| == |steps| + 1
      ensures Idle(Cycle(xAxis, yAxis, zAxis, outBits, stepDelay)) ==> o == Outcome(Cycle(xAxis, yAxis, zAxis, outBits, stepDelay), steps', true)
      ensures !Idle(Cycle(xAxis, yAxis, zAxis, outBits, stepDelay)) ==>
                o == PhaseFacts.Glue(steps', Run(m, s, reverse, Cycle(xAxis, yAxis, zAxis, outBits, stepDelay), limitPin[readCount..]))
      ensures steppingPort == PortAfter(port0, steps')
      ensures events == start + PulseTrace(port0, s.pulseMicroseconds, steps')
    {
      ghost var c := Cycle(x, y, z, bits, delay);
      ghost var port := steppingPort;
      ghost var before := events;
      ghost var i := readCount;
      xAxis, yAxis, zAxis, outBits, stepDelay := HomingPass(reverse, x, y, z, bits, delay);
      ghost var after := Cycle(xAxis, yAxis, zAxis, outBits, stepDelay);
      PhaseFacts.LoopStep(m, s, reverse, o, steps, c, limitPin, i, after);
      PhaseFacts.TraceStep(port0, s.pulseMicroseconds, steps, StepOf(m, s, after), port, start, before, events);
      steps' := steps + [StepOf(m, s, after)];
    }

    /** The `for(;;)` loop of `homing_cycle`, started with the locals
        `x`, `y`, `z`, `bits`, `delay`, one pass per reading of LIMIT_PIN
        until no axis moves or the readings run out. */
    method HomingLoop(reverse: bool, x: bool, y: bool, z: bool, bits: Byte, delay: nat) returns (done: bool, ghost o: Outcome)
      requires readCount <= |limitPin|
      modifies this`steppingPort, this`readCount, this`events
      ensures o == Run(m, s, reverse, Cycle(x, y, z, bits, delay), limitPin[old(readCount)..])
      ensures steppingPort == PortAfter(old(steppingPort), o.steps)
      ensures events == old(events) + PulseTrace(old(steppingPort), s.pulseMicroseconds, o.steps)
      ensures readCount == old(readCount) + |o.steps|
      ensures done == o.done
    {
      o := Run(m, s, reverse, Cycle(x, y, z, bits, delay), limitPin[readCount..]);
      ghost var port0 := steppingPort;
      ghost var start := events;
      ghost var from := readCount;
      ghost var steps: seq<Step> := [];
      var xAxis, yAxis, zAxis, outBits := x, y, z, bits;
      var stepDelay: nat := delay;
      assert events == start + PulseTrace(port0, s.pulseMicroseconds, steps);

      while readCount < |limitPin|
        invariant from <= readCount <= |limitPin| && readCount == from + |steps|
        invariant o == PhaseFacts.Glue(steps, Run(m, s, reverse, Cycle(xAxis, yAxis, zAxis, outBits, stepDelay), limitPin[readCount..]))
        invariant steppingPort == PortAfter(port0, steps)
        invariant events == start + PulseTrace(port0, s.pulseMicroseconds, steps)
        decreases |limitPin| - readCount
      {
        xAxis, yAxis, zAxis, outBits, stepDelay, steps := Advance(reverse, o, port0, start, steps, xAxis, yAxis, zAxis, outBits, stepDelay);
        if !(xAxis || yAxis || zAxis) {
          done := true;
          return;
        }
      }
      PhaseFacts.RunGlueEnd(m, s, reverse, steps, Cycle(xAxis, yAxis, zAxis, outBits, stepDelay), limitPin);
      assert o == Outcome(Cycle(xAxis, yAxis, zAxis, outBits, stepDelay), steps, false);
      done := false;
    }

    /** `homing_cycle`: the direction write, then the loop, one reading of
        LIMIT_PIN per pass, until no axis moves or the readings run out. */
    method HomingCycle(x: bool, y: bool, z: bool, reverse: bool, microsecondsPerPulse: nat) returns (done: bool)
      requires readCount <= |limitPin|
      modifies this`steppingPort, this`readCount, this`events
      ensures var p := CyclePhase(m, s, x, y, z, reverse, microsecondsPerPulse, old(steppingPort), limitPin, old(readCount));
        && steppingPort == p.port
        && events == old(events) + p.trace
        && readCount == p.next
        && done == p.done
    {
      var stepDelay: nat := (microsecondsPerPulse - s.pulseMicroseconds) % Uint32Modulus;
      var outBits := InitialBits(m, x, y, z, reverse);

      steppingPort := BitXor(BitOr(BitAnd(steppingPort, BitNot(m.directionMask)), BitAnd(outBits, m.directionMask)), BitAnd(s.invertMask, m.steppingMask));
      events := events + [StepperPort(steppingPort), WaitUs(s.pulseMicroseconds)];
      ghost var dir := steppingPort;
      ghost var afterDir := events;
      ghost var o;
      done, o := HomingLoop(reverse, x, y, z, outBits, stepDelay);
      PhaseFacts.CyclePhaseOf(m, s, x, y, z, reverse, microsecondsPerPulse, old(steppingPort), limitPin, old(readCount), dir, o);
      PhaseFacts.AppendTwo(old(events), [StepperPort(dir), WaitUs(s.pulseMicroseconds)], PulseTrace(dir, s.pulseMicroseconds, o.steps));
    }

    /** `approach_limit_switch`: a forward cycle from `HOMING_CYCLE<<4`. */
    method ApproachLimitSwitch(x: bool, y: bool, z: bool) returns (done: bool)
      requires readCount <= |limitPin|
      modifies this`steppingPort, this`readCount, this`events
      ensures var p := ApproachPhase(m, s, x, y, z, old(steppingPort), limitPin, old(readCount));
        && steppingPort == p.port
        && events == old(events) + p.trace
        && readCount == p.next
        && done == p.done
    {
      done := HomingCycle(x, y, z, false, m.homingCycle * 16);
    }

    /** One pass of the `for` loop of `leave_limit_switch`: the pulse pair
        on the step bits of `outBits`, then the `HOMING_CYCLE<<5` wait, as
        pulse `k` of `trailing`. */
    method TrailingPulse(outBits: Byte, ghost trailing: seq<Step>, ghost k: nat, ghost port0: Byte, ghost start: seq<Event>)
      requires k < |trailing| && trailing[k] == Step(PulseValue(m, s, outBits), m.homingCycle * 32)
      requires steppingPort == PortAfter(port0, trailing[..k])
      requires events == start + PulseTrace(port0, s.pulseMicroseconds, trailing[..k])
      modifies this`steppingPort, this`events
      ensures steppingPort == PortAfter(port0, trailing[..k + 1])
      ensures events == start + PulseTrace(port0, s.pulseMicroseconds, trailing[..k + 1])
    {
      ghost var port := steppingPort;
      ghost var before := events;
      var pulse := BitAnd(BitXor(outBits, s.invertMask), m.stepMask);
      PulsePair(pulse);
      events := events + [WaitUs(m.homingCycle * 32)];
      PhaseFacts.AppendStep(before, StepperPort(BitOr(port, pulse)), WaitUs(s.pulseMicroseconds), StepperPort(HomingSpec.PulsePair(port, pulse)), WaitUs(m.homingCycle * 32));
      PhaseFacts.PrefixStep(port0, s.pulseMicroseconds, trailing, k, port, start, before, events);
    }

    /** The `for` loop of `leave_limit_switch`: HOMING_LEAVE_PULSES pulses
        on the step bits of the requested axes, counted by the 8-bit
        `my_count`. */
    method TrailingPulses(x: bool, y: bool, z: bool)
      requires m.leavePulses <= 255
      modifies this`steppingPort, this`events
      ensures steppingPort == PortAfter(old(steppingPort), TrailingSteps(m, s, x, y, z))
      ensures events == old(events) + PulseTrace(old(steppingPort), s.pulseMicroseconds, TrailingSteps(m, s, x, y, z))
    {
      var outBits := TrailingBits(m, x, y, z);

      ghost var trailing := TrailingSteps(m, s, x, y, z);
      ghost var port0 := steppingPort;
      ghost var start := events;
      assert trailing[..0] == [];

      var myCount: Counter8 := 0;
      while (myCount as int) < m.leavePulses
        invariant myCount as int <= m.leavePulses
        invariant steppingPort == PortAfter(port0, trailing[..myCount as int])
        invariant events == start + PulseTrace(port0, s.pulseMicroseconds, trailing[..myCount as int])
        decreases m.leavePulses - myCount as int
      {
        TrailingPulse(outBits, trailing, myCount as int, port0, start);
        myCount := myCount + 1;
      }
      assert trailing[..myCount as int] == trailing;
    }

    /** `leave_limit_switch`: a reverse cycle at `HOMING_CYCLE<<5`, then
        the trailing pulses. */
    method LeaveLimitSwitch(x: bool, y: bool, z: bool) returns (done: bool)
      requires readCount <= |limitPin|
      requires m.leavePulses <= 255
      modifies this`steppingPort, this`readCount, this`events
      ensures var p := LeavePhase(m, s, x, y, z, old(steppingPort), limitPin, old(readCount));
        && steppingPort == p.port
        && events == old(events) + p.trace
        && readCount == p.next
        && done == p.done
    {
      done := HomingCycle(x, y, z, true, m.homingCycle * 32);
      if !done {
        return;
      }
      TrailingPulses(x, y, z);
    }

    /** One axis block of `limits_go_home`: approach, settle, leave,
        settle. */
    method HomeAxis(a: Axis) returns (done: bool)
      requires readCount <= |limitPin|
      requires m.leavePulses <= 255
      modifies this`steppingPort, this`readCount, this`events
      ensures var p := HomeAxisPhase(m, s, a, old(steppingPort), limitPin, old(readCount));
        && steppingPort == p.port
        && events == old(events) + p.trace
        && readCount == p.next
        && done == p.done
    {
      ghost var start := events;
      ghost var approach := ApproachPhase(m, s, a == X, a == Y, a == Z, steppingPort, limitPin, readCount);
      done := ApproachLimitSwitch(a == X, a == Y, a == Z);
      if !done {
        PhaseFacts.HomeAxisCompose(m, s, a, old(steppingPort), limitPin, old(readCount), approach, approach);
        return;
      }
      events := events + [WaitMs(SettleMs)];
      ghost var leave := LeavePhase(m, s, a == X, a == Y, a == Z, approach.port, limitPin, approach.next);
      done := LeaveLimitSwitch(a == X, a == Y, a == Z);
      PhaseFacts.HomeAxisCompose(m, s, a, old(steppingPort), limitPin, old(readCount), approach, leave);
      if !done {
        PhaseFacts.AppendPieces(start, approach.trace, [WaitMs(SettleMs)], leave.trace, []);
        return;
      }
      events := events + [WaitMs(SettleMs)];
      PhaseFacts.AppendPieces(start, approach.trace, [WaitMs(SettleMs)], leave.trace, [WaitMs(SettleMs)]);
    }

    /** Runs the block of `a` after the completed phase `p` of
        `limits_go_home`. */
    method ContinueWith(a: Axis, ghost p: Phase, ghost start: seq<Event>) returns (done: bool, ghost q: Phase)
      requires m.leavePulses <= 255
      requires p.next <= |limitPin| && p.done
      requires steppingPort == p.port && events == start + p.trace && readCount == p.next
      modifies this`steppingPort, this`readCount, this`events
      ensures q == Continue(m, s, p, a, limitPin)
      ensures steppingPort == q.port && events == start + q.trace && readCount == q.next && done == q.done
    {
      ghost var block := HomeAxisPhase(m, s, a, p.port, limitPin, p.next);
      done := HomeAxis(a);
      PhaseFacts.ContinueCompose(m, s, p, a, limitPin, block);
      PhaseFacts.AppendTwo(start, p.trace, block.trace);
      q := Continue(m, s, p, a, limitPin);
    }

    /** The axis blocks of `limits_go_home`, as its conditional compilation
        selects them: Z if present, then Y and X, or X and Y, if present. */
    method HomeAxes() returns (done: bool, ghost p: Phase)
      requires readCount <= |limitPin|
      requires m.leavePulses <= 255
      modifies this`steppingPort, this`readCount, this`events
      ensures p == SequencerPhase(m, s, old(steppingPort), limitPin, old(readCount))
      ensures steppingPort == p.port && events == old(events) + p.trace && readCount == p.next && done == p.done
    {
      ghost var start := events;
      ghost var p0 := Phase(steppingPort, [], readCount, true);
      ghost var p1, p2, p3 := p0, p0, p0;
      assert events == start + p0.trace;
      done := true;
      if m.zPresent {
        done, p1 := ContinueWith(Z, p0, start);
      }
      p2 := p1;
      if m.yHomeFirst {
        if m.yPresent && done {
          done, p2 := ContinueWith(Y, p1, start);
        } else if m.yPresent {
          p2 := Continue(m, s, p1, Y, limitPin);
        }
        p3 := p2;
        if m.xPresent && done {
          done, p3 := ContinueWith(X, p2, start);
        } else if m.xPresent {
          p3 := Continue(m, s, p2, X, limitPin);
        }
      } else {
        if m.xPresent && done {
          done, p2 := ContinueWith(X, p1, start);
        } else if m.xPresent {
          p2 := Continue(m, s, p1, X, limitPin);
        }
        p3 := p2;
        if m.yPresent && done {
          done, p3 := ContinueWith(Y, p2, start);
        } else if m.yPresent {
          p3 := Continue(m, s, p2, Y, limitPin);
        }
      }
      PhaseFacts.SequencerCompose(m, s, old(steppingPort), limitPin, old(readCount), p1, p2, p3);
      p := p3;
    }

    /** The opening of `limits_go_home`: `plan_synchronize()`, then the
        enable bit and the activity bit of STEPPERS_ENABLE_PORT set. */
    method EnableSteppers()
      modifies this`enablePort, this`events
      ensures enablePort == Enabled(m, old(enablePort))
      ensures events == old(events) + EnableTrace(m, old(enablePort))
    {
      events := events + [Synchronize];
      enablePort := BitOr(enablePort, m.enable);
      events := events + [EnablePort(enablePort)];
      enablePort := BitOr(enablePort, m.activity);
      events := events + [EnablePort(enablePort)];
    }

    /** The close of `limits_go_home`: settle, clear the enable bit and the
        activity bit, then `st_counter_null()`. */
    method DisableSteppers()
      modifies this`enablePort, this`events
      ensures enablePort == Disabled(m, old(enablePort))
      ensures events == old(events) + ([WaitMs(SettleMs)] + DisableTrace(m, old(enablePort)) + [CounterNull])
    {
      events := events + [WaitMs(SettleMs)];
      enablePort := BitAnd(enablePort, BitNot(m.enable));
      events := events + [EnablePort(enablePort)];
      enablePort := BitAnd(enablePort, BitNot(m.activity));
      events := events + [EnablePort(enablePort)];
      events := events + [CounterNull];
    }

    /** `limits_go_home`: synchronise, enable the drivers, zero the position,
        home the present axes in the configured order, settle, disable the
        drivers and reset the step counter. */
    method LimitsGoHome() returns (done: bool, ghost p: Phase)
      requires readCount <= |limitPin|
      requires m.leavePulses <= 255
      requires position.Length == AxisCount
      modifies this`steppingPort, this`readCount, this`events, this`enablePort, position
      ensures p == SequencerPhase(m, s, old(steppingPort), limitPin, old(readCount))
      ensures position[..] == [0, 0, 0]
      ensures steppingPort == p.port && readCount == p.next && done == p.done
      ensures enablePort == if done then Disabled(m, Enabled(m, old(enablePort))) else Enabled(m, old(enablePort))
      ensures events == old(events) + EnableTrace(m, old(enablePort)) + p.trace
                        + (if done then [WaitMs(SettleMs)] + DisableTrace(m, Enabled(m, old(enablePort))) + [CounterNull] else [])
    {
      EnableSteppers();
      position[0] := 0;
      position[1] := 0;
      position[2] := 0;
      done, p := HomeAxes();
      if done {
        DisableSteppers();
      }
    }
  }
}
