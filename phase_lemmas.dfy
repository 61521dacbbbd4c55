/** How the phases of `limits_go_home` compose: each lemma takes the phases
    already computed as parameters, so a method that has them in hand gets
    the composite phase without unfolding the loop again. */
module PhaseFacts {
  import opened Bits
  import opened Config
  import opened HomingSpec
  import Tracking

  /** The loop's result so far: the passes already made, followed by what
      the rest of the loop does. */
  function Glue(steps: seq<Step>, rest: Outcome): Outcome {
    Outcome(rest.cycle, steps + rest.steps, rest.done)
  }

  /** A leave phase assembled from its reverse cycle and, when that
      completes, the trailing pulses. */
  lemma LeaveOf(m: Macros, s: Settings, x: bool, y: bool, z: bool, port: Byte, pins: seq<Byte>, from: nat, cycle: Phase)
    requires from <= |pins|
    requires cycle == CyclePhase(m, s, x, y, z, true, m.homingCycle * 32, port, pins, from)
    ensures LeavePhase(m, s, x, y, z, port, pins, from) ==
      if !cycle.done then cycle
      else Phase(PortAfter(cycle.port, TrailingSteps(m, s, x, y, z)),
                 cycle.trace + PulseTrace(cycle.port, s.pulseMicroseconds, TrailingSteps(m, s, x, y, z)),
                 cycle.next, true)
  {
  }

  /** An axis block is its approach, a settle wait, its leave phase and a
      settle wait, stopping after the first phase that does not complete. */
  lemma HomeAxisCompose(m: Macros, s: Settings, a: Axis, port: Byte, pins: seq<Byte>, from: nat, approach: Phase, leave: Phase)
    requires from <= |pins|
    requires approach == ApproachPhase(m, s, a == X, a == Y, a == Z, port, pins, from)
    requires approach.done ==> leave == LeavePhase(m, s, a == X, a == Y, a == Z, approach.port, pins, approach.next)
    ensures HomeAxisPhase(m, s, a, port, pins, from) ==
      if !approach.done then approach
      else Phase(leave.port,
                 approach.trace + [WaitMs(SettleMs)] + leave.trace + (if leave.done then [WaitMs(SettleMs)] else []),
                 leave.next, leave.done)
  {
  }

  /** Appending the pieces of a trace one by one appends the whole. */
  lemma AppendPieces(start: seq<Event>, a: seq<Event>, b: seq<Event>, c: seq<Event>, d: seq<Event>)
    ensures start + a + b + c + d == start + (a + b + c + d)
  {
  }

  /** Running an axis block after a completed phase appends the block. */
  lemma ContinueCompose(m: Macros, s: Settings, p: Phase, a: Axis, pins: seq<Byte>, block: Phase)
    requires p.next <= |pins| && p.done
    requires block == HomeAxisPhase(m, s, a, p.port, pins, p.next)
    ensures Continue(m, s, p, a, pins) == Phase(block.port, p.trace + block.trace, block.next, block.done)
  {
  }

  /** The sequencer is the chain of the blocks its configuration selects. */
  lemma SequencerCompose(m: Macros, s: Settings, port: Byte, pins: seq<Byte>, from: nat, p1: Phase, p2: Phase, p3: Phase)
    requires from <= |pins|
    requires p1 == if m.zPresent then Continue(m, s, Phase(port, [], from, true), Z, pins) else Phase(port, [], from, true)
    requires p2 == if m.yHomeFirst then (if m.yPresent then Continue(m, s, p1, Y, pins) else p1)
                   else (if m.xPresent then Continue(m, s, p1, X, pins) else p1)
    requires p3 == if m.yHomeFirst then (if m.xPresent then Continue(m, s, p2, X, pins) else p2)
                   else (if m.yPresent then Continue(m, s, p2, Y, pins) else p2)
    ensures SequencerPhase(m, s, port, pins, from) == p3
  {
  }

  lemma AppendTwo(start: seq<Event>, a: seq<Event>, b: seq<Event>)
    ensures start + a + b == start + (a + b)
  {
  }

  /** One more pass appends one pulse pair to the port's history ... */
  lemma PortAfterSnoc(port: Byte, steps: seq<Step>, step: Step)
    ensures PortAfter(port, steps + [step]) == PulsePair(PortAfter(port, steps), step.pulse)
  {
    assert (steps + [step])[..|steps|] == steps;
  }

  /** ... and its four events to the trace. */
  lemma PulseTraceSnoc(port: Byte, pulseMicroseconds: nat, steps: seq<Step>, step: Step)
    ensures PulseTrace(port, pulseMicroseconds, steps + [step])
         == PulseTrace(port, pulseMicroseconds, steps) + StepTrace(PortAfter(port, steps), pulseMicroseconds, step)
  {
    assert (steps + [step])[..|steps|] == steps;
  }

  /** The events of one pass, appended in two writes. */
  lemma AppendStep(before: seq<Event>, a: Event, b: Event, c: Event, d: Event)
    ensures before + [a, b, c] + [d] == before + [a, b, c, d]
  {
  }

  /** One pass of the loop on the reading `pins[i]`, seen from the loop's
      result so far. */
  lemma RunGlueStep(m: Macros, s: Settings, reverse: bool, steps: seq<Step>, c: Cycle, pins: seq<Byte>, i: nat)
    requires i < |pins|
    ensures var c' := Next(m, reverse, c, pins[i]);
      Glue(steps, Run(m, s, reverse, c, pins[i..]))
        == if Idle(c') then Outcome(c', steps + [StepOf(m, s, c')], true)
           else Glue(steps + [StepOf(m, s, c')], Run(m, s, reverse, c', pins[i + 1..]))
  {
    assert pins[i..][0] == pins[i];
    assert pins[i..][1..] == pins[i + 1..];
    var c' := Next(m, reverse, c, pins[i]);
    if !Idle(c') {
      var o := Run(m, s, reverse, c', pins[i + 1..]);
      assert steps + ([StepOf(m, s, c')] + o.steps) == steps + [StepOf(m, s, c')] + o.steps;
    }
  }

  /** The loop's result once the readings have run out. */
  lemma RunGlueEnd(m: Macros, s: Settings, reverse: bool, steps: seq<Step>, c: Cycle, pins: seq<Byte>)
    ensures Glue(steps, Run(m, s, reverse, c, pins[|pins|..])) == Outcome(c, steps, false)
  {
    assert pins[|pins|..] == [];
    assert steps + [] == steps;
  }

  /** A cycle phase assembled from its direction write and its loop. */
  lemma CyclePhaseOf(m: Macros, s: Settings, x: bool, y: bool, z: bool, reverse: bool, microsecondsPerPulse: nat,
                     port: Byte, pins: seq<Byte>, from: nat, dir: Byte, o: Outcome)
    requires from <= |pins|
    requires dir == DirectionWrite(m, s, port, InitialOutBits(m, x, y, z, reverse))
    requires o == Run(m, s, reverse, StartCycle(m, s, x, y, z, reverse, microsecondsPerPulse), pins[from..])
    ensures CyclePhase(m, s, x, y, z, reverse, microsecondsPerPulse, port, pins, from)
         == Phase(PortAfter(dir, o.steps), [StepperPort(dir), WaitUs(s.pulseMicroseconds)] + PulseTrace(dir, s.pulseMicroseconds, o.steps),
                  from + |o.steps|, o.done)
  {
  }

  /** One pass of the loop as the code computes it is `Next`: the reading
      normalised, the three tests written out, the ramp. */
  lemma PassOf(m: Macros, reverse: bool, c: Cycle, pin: Byte, limitBits: Byte, retired: Cycle, after: Cycle)
    requires limitBits == LimitBits(m, pin, reverse)
    requires retired == RetireZ(m, limitBits, RetireY(m, limitBits, RetireX(m, limitBits, c)))
    requires after.stepDelay == Ramp(m, reverse, c.stepDelay)
    requires after == retired.(stepDelay := after.stepDelay)
    ensures after == Next(m, reverse, c, pin)
  {
    Tracking.RetireWrittenOut(m, limitBits, c);
  }

  /** One pass of the loop, seen from the loop's result: the pass `after`
      computed from the reading `pins[i]` either ends the loop or leaves
      the rest of it to run from `after`. */
  lemma LoopStep(m: Macros, s: Settings, reverse: bool, o: Outcome, steps: seq<Step>, c: Cycle, pins: seq<Byte>, i: nat, after: Cycle)
    requires i < |pins|
    requires o == Glue(steps, Run(m, s, reverse, c, pins[i..]))
    requires after == Next(m, reverse, c, pins[i])
    ensures Idle(after) ==> o == Outcome(after, steps + [StepOf(m, s, after)], true)
    ensures !Idle(after) ==> o == Glue(steps + [StepOf(m, s, after)], Run(m, s, reverse, after, pins[i + 1..]))
  {
    RunGlueStep(m, s, reverse, steps, c, pins, i);
  }

  /** One pass of the loop, seen from the port and the trace: the pulse of
      `step` on the port the earlier passes left extends both by `step`. */
  lemma TraceStep(port0: Byte, pulseMicroseconds: nat, steps: seq<Step>, step: Step, port: Byte,
                  start: seq<Event>, before: seq<Event>, events: seq<Event>)
    requires port == PortAfter(port0, steps)
    requires before == start + PulseTrace(port0, pulseMicroseconds, steps)
    requires events == before + StepTrace(port, pulseMicroseconds, step)
    ensures PortAfter(port0, steps + [step]) == PulsePair(port, step.pulse)
    ensures events == start + PulseTrace(port0, pulseMicroseconds, steps + [step])
  {
    PortAfterSnoc(port0, steps, step);
    PulseTraceSnoc(port0, pulseMicroseconds, steps, step);
  }

  /** One more of the pulses `steps`, made on the port the earlier ones
      left, extends the port's history and the trace by that pulse. */
  lemma PrefixStep(port0: Byte, pulseMicroseconds: nat, steps: seq<Step>, k: nat, port: Byte,
                   start: seq<Event>, before: seq<Event>, events: seq<Event>)
    requires k < |steps|
    requires port == PortAfter(port0, steps[..k])
    requires before == start + PulseTrace(port0, pulseMicroseconds, steps[..k])
    requires events == before + StepTrace(port, pulseMicroseconds, steps[k])
    ensures PulsePair(port, steps[k].pulse) == PortAfter(port0, steps[..k + 1])
    ensures events == start + PulseTrace(port0, pulseMicroseconds, steps[..k + 1])
  {
    assert steps[..k + 1] == steps[..k] + [steps[k]];
    PortAfterSnoc(port0, steps[..k], steps[k]);
    PulseTraceSnoc(port0, pulseMicroseconds, steps[..k], steps[k]);
  }
}
