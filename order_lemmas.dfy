/** The order of the axis blocks in `limits_go_home`: its conditional
    compilation is the reference sequencer `HomeAll` run over `HomeOrder`. */
module OrderFacts {
  import opened Bits
  import opened Config
  import opened HomingSpec
  import PhaseFacts

  /** Nothing runs after a block that did not complete. */
  lemma {:induction false} HomeAllStalled(m: Macros, s: Settings, order: seq<Axis>, p: Phase, pins: seq<Byte>)
    requires p.next <= |pins|
    requires !p.done
    ensures HomeAll(m, s, order, p, pins) == p
    decreases |order|
  {
    if order != [] {
      HomeAllStalled(m, s, order[1..], Continue(m, s, p, order[0], pins), pins);
    }
  }

  /** Running the blocks of `a + b` is running those of `a`, then those of `b`. */
  lemma {:induction false} HomeAllAppend(m: Macros, s: Settings, a: seq<Axis>, b: seq<Axis>, p: Phase, pins: seq<Byte>)
    requires p.next <= |pins|
    ensures HomeAll(m, s, a + b, p, pins) == HomeAll(m, s, b, HomeAll(m, s, a, p, pins), pins)
    decreases |a|
  {
    if a == [] {
      assert a + b == b;
    } else {
      assert (a + b)[0] == a[0];
      assert (a + b)[1..] == a[1..] + b;
      HomeAllAppend(m, s, a[1..], b, Continue(m, s, p, a[0], pins), pins);
    }
  }

  /** A block that is compiled in only when `present`. */
  lemma HomeAllMaybe(m: Macros, s: Settings, a: Axis, present: bool, p: Phase, pins: seq<Byte>)
    requires p.next <= |pins|
    ensures HomeAll(m, s, if present then [a] else [], p, pins) == if present then Continue(m, s, p, a, pins) else p
  {
    if present {
      assert [a][1..] == [];
    }
  }

  /** The blocks `limits_go_home` compiles in are those of `HomeOrder`:
      every axis with a switch once, Z first, then Y and X in the order
      Y_HOME_FIRST selects. */
  lemma SequencerIsHomeAll(m: Macros, s: Settings, port: Byte, pins: seq<Byte>, from: nat)
    requires from <= |pins|
    ensures SequencerPhase(m, s, port, pins, from) == HomeAll(m, s, HomeOrder(m), Phase(port, [], from, true), pins)
  {
    var p0 := Phase(port, [], from, true);
    var z := if m.zPresent then [Z] else [];
    var x := if m.xPresent then [X] else [];
    var y := if m.yPresent then [Y] else [];
    var p1 := HomeAll(m, s, z, p0, pins);
    HomeAllMaybe(m, s, Z, m.zPresent, p0, pins);
    if m.yHomeFirst {
      HomeAllAppend(m, s, z, y + x, p0, pins);
      HomeAllAppend(m, s, y, x, p1, pins);
      var p2 := HomeAll(m, s, y, p1, pins);
      HomeAllMaybe(m, s, Y, m.yPresent, p1, pins);
      HomeAllMaybe(m, s, X, m.xPresent, p2, pins);
      PhaseFacts.SequencerCompose(m, s, port, pins, from, p1, p2, HomeAll(m, s, x, p2, pins));
    } else {
      HomeAllAppend(m, s, z, x + y, p0, pins);
      HomeAllAppend(m, s, x, y, p1, pins);
      var p2 := HomeAll(m, s, x, p1, pins);
      HomeAllMaybe(m, s, X, m.xPresent, p1, pins);
      HomeAllMaybe(m, s, Y, m.yPresent, p2, pins);
      PhaseFacts.SequencerCompose(m, s, port, pins, from, p1, p2, HomeAll(m, s, y, p2, pins));
    }
  }
}
