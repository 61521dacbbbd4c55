/** What the `for(;;)` loop of `homing_cycle` does over a sequence of
    limit-pin readings: which axes move after each pass, when the loop
    returns, what each pulse value holds and how the delay ramps. */
module RunFacts {
  import opened Bits
  import opened Config
  import opened HomingSpec
  import Tracking

  /** At the end of pass `k` an axis moves exactly when it moved at the
      start and none of the readings up to and including `pins[k]` retired
      it: flags only ever drop. */
  lemma {:induction false} PassFlags(m: Macros, reverse: bool, c: Cycle, pins: seq<Byte>, k: nat, a: Axis)
    requires k < |pins|
    ensures Flag(Pass(m, reverse, c, pins, k), a) == (Flag(c, a) && forall i :: 0 <= i <= k ==> !Fires(m, reverse, pins[i], a))
    decreases k
  {
    if k > 0 {
      PassFlags(m, reverse, Next(m, reverse, c, pins[0]), pins[1..], k - 1, a);
      assert forall i :: 1 <= i <= k ==> pins[i] == pins[1..][i - 1];
    }
  }

  /** The invariant on `out_bits` holds at the end of every pass. */
  lemma {:induction false} PassTracks(m: Macros, reverse: bool, c: Cycle, pins: seq<Byte>, k: nat)
    requires m.Valid()
    requires Tracks(m, reverse, c)
    requires k < |pins|
    ensures Tracks(m, reverse, Pass(m, reverse, c, pins, k))
    decreases k
  {
    Tracking.NextTracks(m, reverse, c, pins[0]);
    if k > 0 {
      PassTracks(m, reverse, Next(m, reverse, c, pins[0]), pins[1..], k - 1);
    }
  }

  /** At the end of pass `k` the delay is the start delay ramped `k+1`
      times. */
  lemma {:induction false} PassDelay(m: Macros, reverse: bool, c: Cycle, pins: seq<Byte>, k: nat)
    requires k < |pins|
    ensures Pass(m, reverse, c, pins, k).stepDelay == RampIter(m, reverse, c.stepDelay, k + 1)
    decreases k
  {
    if k > 0 {
      PassDelay(m, reverse, Next(m, reverse, c, pins[0]), pins[1..], k - 1);
    }
  }

  /** Pass `k` of the loop pulses and waits as the locals at its end say,
      and the loop ends with the locals of its last pass. */
  lemma {:induction false} RunSteps(m: Macros, s: Settings, reverse: bool, c: Cycle, pins: seq<Byte>)
    ensures var o := Run(m, s, reverse, c, pins);
      && (forall k :: 0 <= k < |o.steps| ==> o.steps[k] == StepOf(m, s, Pass(m, reverse, c, pins, k)))
      && (0 < |o.steps| ==> o.cycle == Pass(m, reverse, c, pins, |o.steps| - 1))
    decreases |pins|
  {
    if pins != [] {
      var c' := Next(m, reverse, c, pins[0]);
      if !Idle(c') {
        RunSteps(m, s, reverse, c', pins[1..]);
        var o := Run(m, s, reverse, c, pins);
        var o' := Run(m, s, reverse, c', pins[1..]);
        assert o.steps == [StepOf(m, s, c')] + o'.steps;
        forall k | 1 <= k < |o.steps|
          ensures o.steps[k] == StepOf(m, s, Pass(m, reverse, c, pins, k))
        {
          assert o.steps[k] == o'.steps[k - 1];
        }
      }
    }
  }

  /** The loop returns after the first pass that leaves every axis stopped,
      and no earlier. */
  lemma {:induction false} RunStops(m: Macros, s: Settings, reverse: bool, c: Cycle, pins: seq<Byte>)
    ensures var o := Run(m, s, reverse, c, pins);
      && (forall k :: 0 <= k < |o.steps| - 1 ==> !Idle(Pass(m, reverse, c, pins, k)))
      && (o.done ==> Idle(Pass(m, reverse, c, pins, |o.steps| - 1)))
      && (!o.done ==> forall k :: 0 <= k < |pins| ==> !Idle(Pass(m, reverse, c, pins, k)))
    decreases |pins|
  {
    if pins != [] {
      var c' := Next(m, reverse, c, pins[0]);
      if !Idle(c') {
        RunStops(m, s, reverse, c', pins[1..]);
      }
    }
  }

  /** The cycle is stopped at the end of pass `k` exactly when every axis
      it started with was retired by one of the readings up to `pins[k]`. */
  lemma IdleAtPass(m: Macros, reverse: bool, c: Cycle, pins: seq<Byte>, k: nat)
    requires k < |pins|
    ensures Idle(Pass(m, reverse, c, pins, k)) <==>
      forall a :: Flag(c, a) ==> exists i :: 0 <= i <= k && Fires(m, reverse, pins[i], a)
  {
    var r := Pass(m, reverse, c, pins, k);
    PassFlags(m, reverse, c, pins, k, X);
    PassFlags(m, reverse, c, pins, k, Y);
    PassFlags(m, reverse, c, pins, k, Z);
    assert Idle(r) <==> !Flag(r, X) && !Flag(r, Y) && !Flag(r, Z);
  }

  /** The loop returns within the readings `pins` exactly when it makes at
      least one pass and every axis it was started with is retired by one of
      the readings. */
  lemma RunDoneIff(m: Macros, s: Settings, reverse: bool, c: Cycle, pins: seq<Byte>)
    ensures Run(m, s, reverse, c, pins).done <==>
      0 < |pins| && forall a :: Flag(c, a) ==> exists i :: 0 <= i < |pins| && Fires(m, reverse, pins[i], a)
  {
    var o := Run(m, s, reverse, c, pins);
    RunStops(m, s, reverse, c, pins);
    if o.done {
      IdleAtPass(m, reverse, c, pins, |o.steps| - 1);
    } else if 0 < |pins| {
      IdleAtPass(m, reverse, c, pins, |pins| - 1);
    }
  }

  /** The pulse of pass `k`: the bit of axis `a` in the pulse value is 1
      XOR its invert bit exactly when `a` was started and none of the
      readings up to and including the `k`-th retired it, and its invert bit
      otherwise. The reading of a pass is checked before that pass pulses. */
  lemma RunPulses(m: Macros, s: Settings, reverse: bool, c: Cycle, pins: seq<Byte>, k: nat, a: Axis)
    requires m.Valid()
    requires Tracks(m, reverse, c)
    requires k < |Run(m, s, reverse, c, pins).steps|
    ensures Masked(Run(m, s, reverse, c, pins).steps[k].pulse, m.StepBit(a),
                   BitXor(if Flag(c, a) && forall i :: 0 <= i <= k ==> !Fires(m, reverse, pins[i], a) then m.StepBit(a) else Zero,
                          BitAnd(s.invertMask, m.StepBit(a))))
  {
    RunSteps(m, s, reverse, c, pins);
    PassTracks(m, reverse, c, pins, k);
    PassFlags(m, reverse, c, pins, k, a);
    Tracking.PulseBit(m, s, reverse, Pass(m, reverse, c, pins, k), a);
  }

  /** Once a reading has retired axis `a`, the bit of `a` in every later
      pulse value of the cycle is its invert bit. */
  lemma RetiredStaysQuiet(m: Macros, s: Settings, reverse: bool, c: Cycle, pins: seq<Byte>, i: nat, k: nat, a: Axis)
    requires m.Valid()
    requires Tracks(m, reverse, c)
    requires i <= k < |Run(m, s, reverse, c, pins).steps|
    requires Fires(m, reverse, pins[i], a)
    ensures Masked(Run(m, s, reverse, c, pins).steps[k].pulse, m.StepBit(a), BitAnd(s.invertMask, m.StepBit(a)))
  {
    RunPulses(m, s, reverse, c, pins, k, a);
    assert BitXor(Zero, BitAnd(s.invertMask, m.StepBit(a))) == BitAnd(s.invertMask, m.StepBit(a));
  }

  /** A pulse touches no bit outside STEP_MASK. */
  lemma RunPulsesOnlySteps(m: Macros, s: Settings, reverse: bool, c: Cycle, pins: seq<Byte>, k: nat)
    requires k < |Run(m, s, reverse, c, pins).steps|
    ensures Masked(Run(m, s, reverse, c, pins).steps[k].pulse, BitNot(m.stepMask), Zero)
  {
    RunSteps(m, s, reverse, c, pins);
    Tracking.PulseOnlySteps(m, s, Pass(m, reverse, c, pins, k).outBits);
  }

  /** In every trailing pulse value of `leave_limit_switch` the bit of `a`
      is 1 XOR its invert bit when `a` was requested and its invert bit
      otherwise, regardless of when the reverse cycle retired it. */
  lemma TrailingPulseBits(m: Macros, s: Settings, x: bool, y: bool, z: bool, k: nat, a: Axis)
    requires m.Valid()
    requires k < m.leavePulses
    ensures Masked(TrailingSteps(m, s, x, y, z)[k].pulse, m.StepBit(a),
                   BitXor(if Flag(Cycle(x, y, z, Zero, 0), a) then m.StepBit(a) else Zero, BitAnd(s.invertMask, m.StepBit(a))))
  {
    var c := StartCycle(m, s, x, y, z, true, m.homingCycle * 32);
    Tracking.StartTracks(m, s, x, y, z, true, m.homingCycle * 32);
    Tracking.PulseBit(m, s, true, c, a);
    assert TrailingSteps(m, s, x, y, z)[k].pulse == PulseValue(m, s, c.outBits);
  }

  /** A reverse cycle never changes its delay. */
  lemma {:induction false} RampIterReverse(m: Macros, d: nat, n: nat)
    ensures RampIter(m, true, d, n) == d
    decreases n
  {
    if n > 0 {
      RampIterReverse(m, d, n - 1);
    }
  }

  /** The repeated ramp never raises the delay, whether or not `d*98` fits
      a `uint32_t`. */
  lemma {:induction false} RampIterNonIncreasing(m: Macros, reverse: bool, d: nat, n: nat)
    ensures RampIter(m, reverse, d, n + 1) <= RampIter(m, reverse, d, n) <= d
    decreases n
  {
    if n > 0 {
      RampIterNonIncreasing(m, reverse, Ramp(m, reverse, d), n - 1);
    }
  }

  /** The ramp never takes the delay below `HOMING_CYCLE*98/100`, or below
      the start delay if that was lower. */
  lemma {:induction false} RampIterFloor(m: Macros, reverse: bool, d: nat, n: nat)
    requires d * 98 < Uint32Modulus
    ensures RampIter(m, reverse, d, n) >= if d <= m.homingCycle then d else m.homingCycle * 98 / 100
    decreases n
  {
    if n > 0 {
      var d' := Ramp(m, reverse, d);
      RampIterFloor(m, reverse, d', n - 1);
      if d > m.homingCycle && d' <= m.homingCycle {
        assert m.homingCycle * 98 / 100 <= m.homingCycle;
      }
    }
  }

  /** Without the fit the floor can fail: with HOMING_CYCLE = 2739138 and an
      11 us pulse the approach starts at 43826197, and the first ramp wraps
      to 0. */
  lemma RampWrapBelowFloor(m: Macros)
    requires m.homingCycle == 2739138
    ensures InitialDelay(m.homingCycle * 16, 11) == 43826197
    ensures 43826197 * 98 >= Uint32Modulus
    ensures Ramp(m, false, 43826197) == 0 < m.homingCycle * 98 / 100
  {
  }

  /** Once the delay is at most HOMING_CYCLE it stays where it is. */
  lemma {:induction false} RampIterSettled(m: Macros, reverse: bool, d: nat, n: nat, j: nat)
    requires RampIter(m, reverse, d, n) <= m.homingCycle
    ensures RampIter(m, reverse, d, n + j) == RampIter(m, reverse, d, n)
    decreases n
  {
    if n == 0 {
      RampFixed(m, reverse, d, j);
    } else {
      RampIterSettled(m, reverse, Ramp(m, reverse, d), n - 1, j);
    }
  }

  lemma {:induction false} RampFixed(m: Macros, reverse: bool, d: nat, j: nat)
    requires d <= m.homingCycle
    ensures RampIter(m, reverse, d, j) == d
    decreases j
  {
    if j > 0 {
      RampFixed(m, reverse, d, j - 1);
    }
  }

  /** The delays of the passes: pass `k` waits the start delay ramped
      `k+1` times, so a reverse cycle waits its start delay every time, and
      an approach waits less or equally long on every pass. When the start
      delay times 98 fits a `uint32_t`, no pass waits less than
      `HOMING_CYCLE*98/100` (or the start delay if that was lower). */
  lemma RunDelays(m: Macros, s: Settings, reverse: bool, c: Cycle, pins: seq<Byte>, k: nat)
    requires k < |Run(m, s, reverse, c, pins).steps|
    ensures var o := Run(m, s, reverse, c, pins);
      && o.steps[k].delay == RampIter(m, reverse, c.stepDelay, k + 1)
      && (reverse ==> o.steps[k].delay == c.stepDelay)
      && o.steps[k].delay <= c.stepDelay
      && (0 < k ==> o.steps[k].delay <= o.steps[k - 1].delay)
      && (c.stepDelay * 98 < Uint32Modulus ==>
            o.steps[k].delay >= if c.stepDelay <= m.homingCycle then c.stepDelay else m.homingCycle * 98 / 100)
  {
    RunSteps(m, s, reverse, c, pins);
    PassDelay(m, reverse, c, pins, k);
    if 0 < k {
      PassDelay(m, reverse, c, pins, k - 1);
    }
    if reverse {
      RampIterReverse(m, c.stepDelay, k + 1);
    }
    RampIterNonIncreasing(m, reverse, c.stepDelay, k);
    if c.stepDelay * 98 < Uint32Modulus {
      RampIterFloor(m, reverse, c.stepDelay, k + 1);
    }
  }
}
