/**
 * Edge detection on one button over a whole run. Each variant keeps the
 * previous level of every polled pin, fires a press when the pin reads Low
 * and its previous level is High, and overwrites the previous level with the
 * current read on every tick. This module states what that per-tick rule
 * amounts to over a trace of reads.
 */
module Edge {
  import opened Common

  /**
   * The press flags the per-tick rule produces for one pin, starting from the
   * recorded level `previous`, over the successive reads of `trace`.
   */
  function Presses(previous: Level, trace: seq<Level>): (r: seq<bool>)
    ensures |r| == |trace|
    decreases |trace|
  {
    if trace == [] then []
    else [Pressed(previous, trace[0])] + Presses(trace[0], trace[1..])
  }

  /** The level the pin had just before read `i` of the trace. */
  function Before(initial: Level, trace: seq<Level>, i: nat): Level
    requires i < |trace|
  {
    if i == 0 then initial else trace[i - 1]
  }

  /** The reference definition: a High -> Low transition between consecutive reads. */
  predicate FallingEdge(initial: Level, trace: seq<Level>, i: nat)
    requires i < |trace|
  {
    Before(initial, trace, i) == High && trace[i] == Low
  }

  /** A press fires at read i exactly when the trace falls from High to Low there. */
  lemma {:induction false} PressesAreFallingEdges(initial: Level, trace: seq<Level>, i: nat)
    requires i < |trace|
    ensures Presses(initial, trace)[i] <==> FallingEdge(initial, trace, i)
    decreases i
  {
    if i > 0 {
      PressesAreFallingEdges(trace[0], trace[1..], i - 1);
    }
  }

  /** Holding the button (Low after Low) or releasing it (High) never fires a press. */
  lemma NoPressWhileHeldOrReleased(initial: Level, trace: seq<Level>, i: nat)
    requires 0 < i < |trace|
    requires trace[i - 1] == Low || trace[i] == High
    ensures !Presses(initial, trace)[i]
  {
    PressesAreFallingEdges(initial, trace, i);
  }

  /** The number of presses fired over a trace. */
  function PressCount(flags: seq<bool>): nat
  {
    if flags == [] then 0 else (if flags[0] then 1 else 0) + PressCount(flags[1..])
  }

  /** The number of falling edges in a trace, counted directly on the levels. */
  function FallingEdgeCount(previous: Level, trace: seq<Level>): nat
    decreases |trace|
  {
    if trace == [] then 0
    else (if previous == High && trace[0] == Low then 1 else 0)
         + FallingEdgeCount(trace[0], trace[1..])
  }

  /** Exactly one press per High -> Low transition, over any trace. */
  lemma {:induction false} OnePressPerFallingEdge(previous: Level, trace: seq<Level>)
    ensures PressCount(Presses(previous, trace)) == FallingEdgeCount(previous, trace)
    decreases |trace|
  {
    if trace != [] {
      OnePressPerFallingEdge(trace[0], trace[1..]);
      assert Presses(previous, trace)[1..] == Presses(trace[0], trace[1..]);
    }
  }

  /** A button held Low for the whole trace after one press fires exactly once. */
  lemma {:induction false} HeldButtonFiresOnce(trace: seq<Level>)
    requires |trace| > 0
    requires forall i :: 0 <= i < |trace| ==> trace[i] == Low
    ensures PressCount(Presses(High, trace)) == 1
  {
    OnePressPerFallingEdge(High, trace);
    HeldLowHasNoEdge(trace[1..]);
  }

  lemma {:induction false} HeldLowHasNoEdge(trace: seq<Level>)
    requires forall i :: 0 <= i < |trace| ==> trace[i] == Low
    ensures FallingEdgeCount(Low, trace) == 0
  {
    if trace != [] {
      HeldLowHasNoEdge(trace[1..]);
    }
  }
}
