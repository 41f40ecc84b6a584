/**
 * knop.py: the standalone button loop. Decrement and increment move
 * TEMPERATURE_GOAL by 1 (never below 0) and then run the pin's `action`,
 * which pushes a value to field4. The actions are lambdas that read the
 * global when they run, which is after the goal was already moved, so the
 * value pushed is one step beyond the goal kept locally. The loop below
 * runs the press as written (PressAsWritten); Press is the corrected press,
 * which pushes the goal just stored, and IntendedPushesStoredGoal compares
 * the two.
 */
module Knop {
  import opened Common
  import Edge

  const DecPin := 3
  const IncPin := 4
  /** The order in which the loop polls the buttons. */
  const Pins: seq<int> := [DecPin, IncPin]

  const GoalField := "field4"       // field{FIELD_NUMBER}

  /** The module globals the loop reads and writes. */
  datatype State = State(
    temperatureGoal: int,       // TEMPERATURE_GOAL
    previous: map<int, Level>)  // previous_button_state

  /** A state after some phase of a tick, with the events issued in it. */
  datatype After = After(st: State, out: seq<Event>)

  predicate Tracked(s: State)
  {
    s.previous.Keys == {DecPin, IncPin}
  }

  /** The values the loop starts from. */
  function Defaults(): (s: State)
    ensures Tracked(s)
  {
    State(25, map[DecPin := High, IncPin := High])
  }

  /** The assignment the loop body makes to the goal for a press on `pin`. */
  function Adjust(goal: int, pin: int): int
  {
    if pin == DecPin then Max(0, goal - 1)
    else if pin == IncPin then goal + 1
    else goal
  }

  /**
   * The value the pin's `action` lambda passes to update_temperature_goal,
   * given the global as it stands when the lambda is called.
   */
  function Action(pin: int, goal: int): int
  {
    if pin == DecPin then Max(0, goal - 1) else goal + 1
  }

  /** A press as written: move the goal, then call the action, which reads the moved goal. */
  function PressAsWritten(s: State, pin: int): (a: After)
    ensures a.st.previous == s.previous
  {
    var g := Adjust(s.temperatureGoal, pin);
    After(s.(temperatureGoal := g), [Push(GoalField, Action(pin, g))])
  }

  /** The press as evidently intended: move the goal and push the goal just stored. */
  function Press(s: State, pin: int): (a: After)
    ensures a.st.previous == s.previous
    ensures a.out == [Push(GoalField, a.st.temperatureGoal)]
  {
    var g := Adjust(s.temperatureGoal, pin);
    After(s.(temperatureGoal := g), [Push(GoalField, g)])
  }

  /**
   * One pass of the `for pin, action` loop body as written: act on a falling
   * edge, then record the read. The OnPin and Poll of the other variants have
   * the same shape.
   */
  function OnPin(s: State, pin: int, current: Level): (a: After)
    requires Tracked(s) && pin in s.previous
    ensures Tracked(a.st)
  {
    var p := if Pressed(s.previous[pin], current) then PressAsWritten(s, pin) else After(s, []);
    After(p.st.(previous := p.st.previous[pin := current]), p.out)
  }

  /** The first `n` passes of the button loop: one iteration of `while True` when n = |Pins|. */
  function Poll(s: State, levels: seq<Level>, n: nat): (a: After)
    requires Tracked(s) && n <= |Pins| == |levels|
    ensures Tracked(a.st)
  {
    if n == 0 then After(s, [])
    else
      var p := Poll(s, levels, n - 1);
      var o := OnPin(p.st, Pins[n - 1], levels[n - 1]);
      After(o.st, p.out + o.out)
  }

  // ---------------------------------------------------------------------------
  // Properties of the press as written

  /**
   * The pushed value runs one step ahead of the stored goal: increment
   * stores g + 1 and pushes g + 2; decrement stores max(0, g - 1) and
   * pushes max(0, g - 2).
   */
  lemma LateBindingPushesOneStepAhead(s: State)
    ensures var a := PressAsWritten(s, IncPin);
      a.st.temperatureGoal == s.temperatureGoal + 1 && a.out == [Push(GoalField, s.temperatureGoal + 2)]
    ensures var a := PressAsWritten(s, DecPin);
      a.st.temperatureGoal == Max(0, s.temperatureGoal - 1)
      && a.out == [Push(GoalField, Max(0, s.temperatureGoal - 2))]
    ensures s.temperatureGoal >= 2 ==>
      PressAsWritten(s, DecPin).out != [Push(GoalField, PressAsWritten(s, DecPin).st.temperatureGoal)]
    ensures PressAsWritten(s, IncPin).out != [Push(GoalField, PressAsWritten(s, IncPin).st.temperatureGoal)]
  {
  }

  /** From the start-up goal of 25, one increment stores 26 and pushes 27. */
  lemma IncrementFromStartPushes27()
    ensures PressAsWritten(Defaults(), IncPin).st.temperatureGoal == 26
    ensures PressAsWritten(Defaults(), IncPin).out == [Push("field4", 27)]
  {
  }

  /** Both presses store the same non-negative goal, and the value pushed as written is non-negative too. */
  lemma PressKeepsGoalNonNegative(s: State, pin: int)
    requires s.temperatureGoal >= 0
    ensures Press(s, pin).st.temperatureGoal >= 0
    ensures PressAsWritten(s, pin).st.temperatureGoal >= 0
    ensures forall e :: e in PressAsWritten(s, pin).out ==> e.Push? && e.field == GoalField && e.value >= 0
  {
  }

  /**
   * A non-negative goal stays non-negative through any iteration, every
   * event is a push to field4 of a non-negative value, and at most one push
   * is made per pin.
   */
  lemma {:induction false} PollPushesOnlyGoalField(s: State, levels: seq<Level>, n: nat)
    requires Tracked(s) && n <= |Pins| == |levels|
    requires s.temperatureGoal >= 0
    ensures Poll(s, levels, n).st.temperatureGoal >= 0
    ensures |Poll(s, levels, n).out| <= n
    ensures forall e :: e in Poll(s, levels, n).out ==> e.Push? && e.field == GoalField && e.value >= 0
  {
    if n > 0 {
      PollPushesOnlyGoalField(s, levels, n - 1);
      var p := Poll(s, levels, n - 1).st;
      if Pressed(p.previous[Pins[n - 1]], levels[n - 1]) {
        PressKeepsGoalNonNegative(p, Pins[n - 1]);
      }
    }
  }

  // ---------------------------------------------------------------------------
  // Edge detection in the button loop

  lemma OnPinRecordsRead(s: State, pin: int, current: Level)
    requires Tracked(s) && pin in s.previous
    ensures OnPin(s, pin, current).st.previous == s.previous[pin := current]
    ensures |OnPin(s, pin, current).out| == (if Pressed(s.previous[pin], current) then 1 else 0)
  {
  }

  /** Each pass records its pin's read; the pins not yet polled keep their recorded level. */
  lemma {:induction false} PollRecordsEveryRead(s: State, levels: seq<Level>, n: nat)
    requires Tracked(s) && n <= |Pins| == |levels|
    ensures forall k :: 0 <= k < n ==> Poll(s, levels, n).st.previous[Pins[k]] == levels[k]
    ensures forall k :: n <= k < |Pins| ==> Poll(s, levels, n).st.previous[Pins[k]] == s.previous[Pins[k]]
  {
    if n > 0 {
      PollRecordsEveryRead(s, levels, n - 1);
      OnPinRecordsRead(Poll(s, levels, n - 1).st, Pins[n - 1], levels[n - 1]);
    }
  }

  /** No read of this iteration is a falling edge from its pin's recorded level. */
  predicate NoEdges(s: State, levels: seq<Level>)
    requires Tracked(s) && |levels| == |Pins|
  {
    forall k :: 0 <= k < |Pins| ==> !Pressed(s.previous[Pins[k]], levels[k])
  }

  lemma OnPinWithoutEdge(s: State, pin: int, current: Level)
    requires Tracked(s) && pin in s.previous
    requires !Pressed(s.previous[pin], current)
    ensures OnPin(s, pin, current) == After(s.(previous := s.previous[pin := current]), [])
  {
  }

  /** Without a falling edge the iteration pushes nothing and only records the reads. */
  lemma NoEdgeNoEffect(s: State, levels: seq<Level>)
    requires Tracked(s) && |levels| == |Pins|
    requires NoEdges(s, levels)
    ensures Poll(s, levels, |Pins|) == After(s.(previous := s.previous[DecPin := levels[0]][IncPin := levels[1]]), [])
  {
    var s1 := s.(previous := s.previous[DecPin := levels[0]]);
    OnPinWithoutEdge(s, DecPin, levels[0]);
    assert Poll(s, levels, 1) == After(s1, []);
    OnPinWithoutEdge(s1, IncPin, levels[1]);
  }

  /** One iteration pushes once for each of its two pins that read a falling edge. */
  lemma PollPushCount(s: State, levels: seq<Level>)
    requires Tracked(s) && |levels| == |Pins|
    ensures |Poll(s, levels, |Pins|).out|
      == (if Pressed(s.previous[DecPin], levels[0]) then 1 else 0)
       + (if Pressed(s.previous[IncPin], levels[1]) then 1 else 0)
  {
    var o := OnPin(s, DecPin, levels[0]);
    assert Poll(s, levels, 1) == After(o.st, o.out);
    OnPinRecordsRead(s, DecPin, levels[0]);
    assert o.st.previous[IncPin] == s.previous[IncPin];
    OnPinRecordsRead(o.st, IncPin, levels[1]);
  }

  predicate WellFormedRun(ticks: seq<seq<Level>>)
  {
    forall i :: 0 <= i < |ticks| ==> |ticks[i]| == |Pins|
  }

  /** The reads of the `k`-th polled pin over successive iterations. */
  function Reads(ticks: seq<seq<Level>>, k: nat): (r: seq<Level>)
    requires forall i :: 0 <= i < |ticks| ==> k < |ticks[i]|
    ensures |r| == |ticks|
    decreases |ticks|
  {
    if ticks == [] then [] else [ticks[0][k]] + Reads(ticks[1..], k)
  }

  /** Successive iterations of `while True`, the first applied first. */
  function Run(s: State, ticks: seq<seq<Level>>): (a: After)
    requires Tracked(s) && WellFormedRun(ticks)
    ensures Tracked(a.st)
    decreases |ticks|
  {
    if ticks == [] then After(s, [])
    else
      var p := Poll(s, ticks[0], |Pins|);
      var r := Run(p.st, ticks[1..]);
      After(r.st, p.out + r.out)
  }

  /**
   * Over any run the loop pushes exactly once per press the per-pin edge
   * rule fires on either button, which is once per High -> Low transition.
   */
  lemma {:induction false} PushesMatchFallingEdges(s: State, ticks: seq<seq<Level>>)
    requires Tracked(s) && WellFormedRun(ticks)
    ensures |Run(s, ticks).out|
      == Edge.PressCount(Edge.Presses(s.previous[DecPin], Reads(ticks, 0)))
       + Edge.PressCount(Edge.Presses(s.previous[IncPin], Reads(ticks, 1)))
    ensures |Run(s, ticks).out|
      == Edge.FallingEdgeCount(s.previous[DecPin], Reads(ticks, 0))
       + Edge.FallingEdgeCount(s.previous[IncPin], Reads(ticks, 1))
    decreases |ticks|
  {
    if ticks != [] {
      var p := Poll(s, ticks[0], |Pins|);
      PollPushCount(s, ticks[0]);
      PollRecordsEveryRead(s, ticks[0], |Pins|);
      PushesMatchFallingEdges(p.st, ticks[1..]);
      PressesStep(s.previous[DecPin], Reads(ticks, 0));
      PressesStep(s.previous[IncPin], Reads(ticks, 1));
    }
    Edge.OnePressPerFallingEdge(s.previous[DecPin], Reads(ticks, 0));
    Edge.OnePressPerFallingEdge(s.previous[IncPin], Reads(ticks, 1));
  }

  /** The press count of a trace: its first read's flag, then the count from that read on. */
  lemma PressesStep(previous: Level, trace: seq<Level>)
    requires trace != []
    ensures Edge.PressCount(Edge.Presses(previous, trace))
      == (if Pressed(previous, trace[0]) then 1 else 0) + Edge.PressCount(Edge.Presses(trace[0], trace[1..]))
  {
    assert Edge.Presses(previous, trace)[1..] == Edge.Presses(trace[0], trace[1..]);
  }

  // ---------------------------------------------------------------------------
  // The evidently intended press against the press as written

  /**
   * The corrected press stores the same goal as the press as written, and
   * the value it pushes is exactly that goal, so the remote field4 mirrors
   * the local one; only the pushed value differs from the code.
   */
  lemma IntendedPushesStoredGoal(s: State, pin: int)
    requires pin == DecPin || pin == IncPin
    ensures var a := Press(s, pin);
      && a.st == PressAsWritten(s, pin).st
      && a.out == [Push(GoalField, a.st.temperatureGoal)]
      && a.st.temperatureGoal == (if pin == DecPin then Max(0, s.temperatureGoal - 1) else s.temperatureGoal + 1)
  {
  }

  // ---------------------------------------------------------------------------
  // The loop as the script runs it

  class Controller {
    var temperatureGoal: int
    var previous: map<int, Level>

    function Snapshot(): State
      reads this
    {
      State(temperatureGoal, previous)
    }

    ghost predicate Valid()
      reads this
    {
      Tracked(Snapshot())
    }

    /** Module start-up: goal 25 and both buttons High. */
    constructor ()
      ensures Valid()
      ensures Snapshot() == Defaults()
    {
      temperatureGoal := 25;
      previous := map[DecPin := High, IncPin := High];
    }

    /** The body of the `for pin, action` loop for one pin: move the goal, then run the pin's action. */
    method OnButton(pin: int, current: Level) returns (events: seq<Event>)
      requires Valid() && pin in previous
      modifies this
      ensures Valid()
      ensures After(Snapshot(), events) == OnPin(old(Snapshot()), pin, current)
    {
      events := [];
      if current == Low && previous[pin] == High {
        if pin == DecPin {
          temperatureGoal := Max(0, temperatureGoal - 1);
        } else if pin == IncPin {
          temperatureGoal := temperatureGoal + 1;
        }
        events := [Push(GoalField, Action(pin, temperatureGoal))];
      }
      previous := previous[pin := current];
    }

    /** One iteration of `while True`: the loop over both buttons. */
    method Tick(levels: seq<Level>) returns (events: seq<Event>)
      requires Valid() && |levels| == |Pins|
      modifies this
      ensures Valid()
      ensures After(Snapshot(), events) == Poll(old(Snapshot()), levels, |Pins|)
    {
      ghost var s0 := Snapshot();
      events := [];
      for i := 0 to |Pins|
        invariant Valid()
        invariant After(Snapshot(), events) == Poll(s0, levels, i)
      {
        var issued := OnButton(Pins[i], levels[i]);
        events := events + issued;
      }
    }
  }
}
