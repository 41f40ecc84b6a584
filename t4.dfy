/**
 * t4.py: the two-button temperature-goal controller. Decrement and
 * increment move TEMPERATURE_GOAL by 1 (never below 0) and every press
 * pushes the goal to field4. Every `interval` seconds a sample is taken,
 * the LED is switched on exactly when the light is below LUX_GOAL (there is
 * no override), and the six fields are published.
 */
module T4 {
  import opened Common
  import Payload

  const DecPin := 3
  const IncPin := 4
  /** The order in which the loop polls the buttons. */
  const Pins: seq<int> := [DecPin, IncPin]

  const Interval := 15              // publish period
  const GoalField := "field4"       // field{FIELD_NUMBER}

  /** The module globals the loop reads and writes. */
  datatype State = State(
    temperatureGoal: int,       // TEMPERATURE_GOAL, field4
    luxGoal: int,               // LUX_GOAL, field5
    previous: map<int, Level>,  // previous_button_state
    lastPublish: int)

  /** A state after some phase of a tick, with the events issued in it. */
  datatype After = After(st: State, out: seq<Event>)

  /**
   * What one iteration of the loop observes: the level of each polled pin in
   * `Pins` order, the clock, the readings consulted when the publish is due,
   * and whether the MQTT transport accepts the publish.
   */
  datatype Inputs = Inputs(
    levels: seq<Level>,
    now: int,
    climate: Climate,
    lux: int,
    publishOk: bool)

  predicate Tracked(s: State)
  {
    s.previous.Keys == {DecPin, IncPin}
  }

  predicate WellFormed(inp: Inputs)
  {
    |inp.levels| == |Pins|
  }

  /** The values the main loop starts from. */
  function Defaults(now: int): (s: State)
    ensures Tracked(s)
  {
    State(25, 100, map[DecPin := High, IncPin := High], now)
  }

  // ---------------------------------------------------------------------------
  // The button phase

  /** The goal after a press on `pin`. */
  function Adjust(goal: int, pin: int): int
  {
    if pin == DecPin then Max(0, goal - 1)
    else if pin == IncPin then goal + 1
    else goal
  }

  /** A press: adjust the goal, then push it to field4 whatever the pin. */
  function Press(s: State, pin: int): (a: After)
    ensures a.st.previous == s.previous
  {
    var g := Adjust(s.temperatureGoal, pin);
    After(s.(temperatureGoal := g), [Push(GoalField, g)])
  }

  /**
   * One pass of the `for pin` loop body: act on a falling edge, then record
   * the read. Every variant's loop has this shape; only Press differs.
   */
  function OnPin(s: State, pin: int, current: Level): (a: After)
    requires Tracked(s) && pin in s.previous
    ensures Tracked(a.st)
  {
    var p := if Pressed(s.previous[pin], current) then Press(s, pin) else After(s, []);
    After(p.st.(previous := p.st.previous[pin := current]), p.out)
  }

  /** The first `n` passes of the button loop. */
  function Poll(s: State, levels: seq<Level>, n: nat): (a: After)
    requires Tracked(s) && n <= |Pins| == |levels|
    ensures Tracked(a.st)
  {
    if n == 0 then After(s, [])
    else
      var p := Poll(s, levels, n - 1);
      var o := OnPin(p.st, Pins[n - 1], levels[n - 1]);
      After(o.st, p.out + o.out)
  }

  // ---------------------------------------------------------------------------
  // Sampling and publishing

  /** The payload fields: the readings, both goals and field6 = led_status. */
  function Fields(s: State, climate: Climate, lux: int, ledStatus: int): seq<(string, int)>
  {
    [("field1", climate.temperature), ("field2", climate.pressure), ("field3", lux),
     ("field4", s.temperatureGoal), ("field5", s.luxGoal), ("field6", ledStatus)]
  }

  function PayloadOf(s: State, climate: Climate, lux: int, ledStatus: int): string
  {
    Payload.Payload(Fields(s, climate, lux, ledStatus))
  }

  /** Every Interval: sample, drive the LED from lux < LUX_GOAL, publish, reset the timer. */
  function SamplePhase(s: State, now: int, climate: Climate, lux: int, ok: bool): After
  {
    if !Due(now, s.lastPublish, Interval) then After(s, [])
    else
      var on := lux < s.luxGoal;
      var status := if on then 1 else 0;
      After(s.(lastPublish := now), [Digital(on)] + PublishEvents(Fields(s, climate, lux, status), ok))
  }

  /** One iteration of the main loop: poll, then sample and publish. */
  function Step(s: State, inp: Inputs): (a: After)
    requires Tracked(s) && WellFormed(inp)
    ensures Tracked(a.st)
  {
    var p := Poll(s, inp.levels, |Pins|);
    var m := SamplePhase(p.st, inp.now, inp.climate, inp.lux, inp.publishOk);
    After(m.st, p.out + m.out)
  }

  // ---------------------------------------------------------------------------
  // Edge detection in the button loop (the same lemmas as in the other variants)

  lemma OnPinRecordsRead(s: State, pin: int, current: Level)
    requires Tracked(s) && pin in s.previous
    ensures OnPin(s, pin, current).st.previous == s.previous[pin := current]
  {
  }

  /** Each pass records its pin's read; the pins not yet polled keep their recorded level. */
  lemma {:induction false} PollRecordsEveryRead(s: State, levels: seq<Level>, n: nat)
    requires Tracked(s) && n <= |Pins| == |levels|
    ensures forall k :: 0 <= k < n ==> Poll(s, levels, n).st.previous[Pins[k]] == levels[k]
    ensures forall k :: n <= k < |Pins| ==> Poll(s, levels, n).st.previous[Pins[k]] == s.previous[Pins[k]]
  {
    if n > 0 {
      PollRecordsEveryRead(s, levels, n - 1);
      OnPinRecordsRead(Poll(s, levels, n - 1).st, Pins[n - 1], levels[n - 1]);
    }
  }

  /** No read of this iteration is a falling edge from its pin's recorded level. */
  predicate NoEdges(s: State, levels: seq<Level>)
    requires Tracked(s) && |levels| == |Pins|
  {
    forall k :: 0 <= k < |Pins| ==> !Pressed(s.previous[Pins[k]], levels[k])
  }

  lemma OnPinWithoutEdge(s: State, pin: int, current: Level)
    requires Tracked(s) && pin in s.previous
    requires !Pressed(s.previous[pin], current)
    ensures OnPin(s, pin, current) == After(s.(previous := s.previous[pin := current]), [])
  {
  }

  /** Without a falling edge the button loop issues nothing and only records the reads. */
  lemma NoEdgeNoEffect(s: State, levels: seq<Level>)
    requires Tracked(s) && |levels| == |Pins|
    requires NoEdges(s, levels)
    ensures Poll(s, levels, |Pins|)
      == After(s.(previous := s.previous[DecPin := levels[0]][IncPin := levels[1]]), [])
  {
    var s1 := s.(previous := s.previous[DecPin := levels[0]]);
    OnPinWithoutEdge(s, DecPin, levels[0]);
    assert Poll(s, levels, 1) == After(s1, []);
    OnPinWithoutEdge(s1, IncPin, levels[1]);
  }

  // ---------------------------------------------------------------------------
  // Properties

  /** Every press pushes the goal it leaves; decrement floors at 0, increment has no cap. */
  lemma EveryPressPushesGoal(s: State, pin: int)
    ensures var a := Press(s, pin);
      && a.out == [Push("field4", a.st.temperatureGoal)]
      && a.st == s.(temperatureGoal := a.st.temperatureGoal)
      && (pin == DecPin ==> a.st.temperatureGoal == Max(0, s.temperatureGoal - 1) && a.st.temperatureGoal >= 0)
      && (pin == IncPin ==> a.st.temperatureGoal == s.temperatureGoal + 1)
  {
  }

  /** A non-negative goal stays non-negative through any button phase, and LUX_GOAL is untouched. */
  lemma {:induction false} PollKeepsGoals(s: State, levels: seq<Level>, n: nat)
    requires Tracked(s) && n <= |Pins| == |levels|
    requires s.temperatureGoal >= 0
    ensures Poll(s, levels, n).st.temperatureGoal >= 0
    ensures Poll(s, levels, n).st.luxGoal == s.luxGoal
  {
    if n > 0 {
      PollKeepsGoals(s, levels, n - 1);
    }
  }

  /** LUX_GOAL is never modified: every tick leaves it as it was (100 from start-up). */
  lemma LuxGoalNeverModified(s: State, inp: Inputs)
    requires Tracked(s) && WellFormed(inp)
    requires s.temperatureGoal >= 0
    ensures Step(s, inp).st.luxGoal == s.luxGoal
    ensures Step(s, inp).st.temperatureGoal >= 0
  {
    PollKeepsGoals(s, inp.levels, |Pins|);
  }

  /**
   * A due sample drives the LED HIGH exactly when lux < LUX_GOAL, with no
   * override, and publishes led_status as 1 or 0 accordingly.
   */
  lemma LedStatusFollowsLux(s: State, now: int, climate: Climate, lux: int, ok: bool)
    requires Due(now, s.lastPublish, Interval)
    ensures var a := SamplePhase(s, now, climate, lux, ok);
      && a.out[0] == Digital(lux < s.luxGoal)
      && a.out[1] == Publish(Fields(s, climate, lux, if lux < s.luxGoal then 1 else 0))
      && a.st == s.(lastPublish := now)
  {
  }

  /** Before Interval has elapsed nothing is written or published and the timer keeps its value. */
  lemma SampleWaitsForInterval(s: State, now: int, climate: Climate, lux: int, ok: bool)
    requires !Due(now, s.lastPublish, Interval)
    ensures SamplePhase(s, now, climate, lux, ok) == After(s, [])
  {
  }

  lemma FieldsValid(s: State, climate: Climate, lux: int, ledStatus: int)
    ensures Payload.ValidKeys(Fields(s, climate, lux, ledStatus))
  {
  }

  /** The payload carries the readings, both goals and led_status, in field order. */
  lemma PayloadCarriesSixFields(s: State, climate: Climate, lux: int, ledStatus: int)
    ensures Payload.Decode(PayloadOf(s, climate, lux, ledStatus)) == Some(
      [("field1", climate.temperature), ("field2", climate.pressure), ("field3", lux),
       ("field4", s.temperatureGoal), ("field5", s.luxGoal), ("field6", ledStatus)])
  {
    FieldsValid(s, climate, lux, ledStatus);
    Payload.PayloadRoundTrip(Fields(s, climate, lux, ledStatus));
  }

  /**
   * A failed publish only adds a reconnect: the globals come out the same
   * either way (stated for every variant, as the publish is written alike).
   */
  lemma PublishFailureChangesNoState(s: State, inp: Inputs)
    requires Tracked(s) && WellFormed(inp)
    ensures Step(s, inp.(publishOk := false)).st == Step(s, inp.(publishOk := true)).st
  {
  }

  // ---------------------------------------------------------------------------
  // The loop as the script runs it: module globals updated in place

  class Controller {
    var temperatureGoal: int
    var luxGoal: int
    var previous: map<int, Level>
    var lastPublish: int

    function Snapshot(): State
      reads this
    {
      State(temperatureGoal, luxGoal, previous, lastPublish)
    }

    ghost predicate Valid()
      reads this
    {
      Tracked(Snapshot())
    }

    /** Module start-up: the defaults and both buttons High. */
    constructor (now: int)
      ensures Valid()
      ensures Snapshot() == Defaults(now)
    {
      temperatureGoal, luxGoal := 25, 100;
      previous := map[DecPin := High, IncPin := High];
      lastPublish := now;
    }

    /** The body of the `for pin` loop for one pin. */
    method OnButton(pin: int, current: Level) returns (events: seq<Event>)
      requires Valid() && pin in previous
      modifies this
      ensures Valid()
      ensures After(Snapshot(), events) == OnPin(old(Snapshot()), pin, current)
    {
      events := [];
      if current == Low && previous[pin] == High {
        if pin == DecPin {
          temperatureGoal := Max(0, temperatureGoal - 1);
        } else if pin == IncPin {
          temperatureGoal := temperatureGoal + 1;
        }
        events := [Push(GoalField, temperatureGoal)];
      }
      previous := previous[pin := current];
    }

    /** The `for pin in [...]` loop over the buttons, in `Pins` order. */
    method PollButtons(levels: seq<Level>) returns (events: seq<Event>)
      requires Valid() && |levels| == |Pins|
      modifies this
      ensures Valid()
      ensures After(Snapshot(), events) == Poll(old(Snapshot()), levels, |Pins|)
    {
      ghost var s0 := Snapshot();
      events := [];
      for i := 0 to |Pins|
        invariant Valid()
        invariant After(Snapshot(), events) == Poll(s0, levels, i)
      {
        var issued := OnButton(Pins[i], levels[i]);
        events := events + issued;
      }
    }

    /** The sample-and-publish block, gated by Interval. */
    method SampleIfDue(now: int, climate: Climate, lux: int, ok: bool) returns (events: seq<Event>)
      modifies this
      ensures After(Snapshot(), events) == SamplePhase(old(Snapshot()), now, climate, lux, ok)
    {
      events := [];
      if now - lastPublish >= Interval {
        var ledStatus := 0;
        if lux < luxGoal {
          events := [Digital(true)];
          ledStatus := 1;
        } else {
          events := [Digital(false)];
        }
        var data := Fields(Snapshot(), climate, lux, ledStatus);
        events := events + [Publish(data)];
        if !ok {
          events := events + [Reconnect];
        }
        lastPublish := now;
      }
    }

    /** One iteration of the `while True` loop. */
    method Tick(inp: Inputs) returns (events: seq<Event>)
      requires Valid() && WellFormed(inp)
      modifies this
      ensures Valid()
      ensures After(Snapshot(), events) == Step(old(Snapshot()), inp)
    {
      events := PollButtons(inp.levels);
      var sampled := SampleIfDue(inp.now, inp.climate, inp.lux, inp.publishOk);
      events := events + sampled;
    }
  }
}
