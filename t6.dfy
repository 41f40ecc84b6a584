/**
 * t6.py: the temperature-goal controller with a manual LED toggle.
 * Decrement and increment move TEMPERATURE_GOAL by 1 (never below 0) and
 * push it to field4; the toggle flips both the override and the LED status
 * and drives the LED pin digitally. Every `interval` seconds a sample is
 * taken; in automatic mode the LED is switched on exactly when the light is
 * below LUX_GOAL; then the six fields are published.
 */
module T6 {
  import opened Common
  import Payload

  const DecPin := 3
  const IncPin := 4
  const TogglePin := 6
  /** The order in which the loop polls the buttons. */
  const Pins: seq<int> := [DecPin, IncPin, TogglePin]

  const Interval := 15                // publish period
  const GoalField := "field4"         // the field update_temperature_goal writes (FIELD_NUMBER 4)

  /** The module globals the loop reads and writes. */
  datatype State = State(
    temperatureGoal: int,       // TEMPERATURE_GOAL, field4
    luxGoal: int,               // LUX_GOAL, field5
    ledStatus: bool,            // manual_led_status, field6
    manualOverride: bool,       // manual_led_override
    previous: map<int, Level>,  // previous_button_state
    lastPublish: int)

  /** A state after some phase of a tick, with the events issued in it. */
  datatype After = After(st: State, out: seq<Event>)

  /**
   * What one iteration of the loop observes: the level of each polled pin in
   * `Pins` order, the clock, the readings consulted when the publish is due,
   * and whether the MQTT transport accepts the publish.
   */
  datatype Inputs = Inputs(
    levels: seq<Level>,
    now: int,
    climate: Climate,
    lux: int,
    publishOk: bool)

  predicate Tracked(s: State)
  {
    s.previous.Keys == {DecPin, IncPin, TogglePin}
  }

  predicate WellFormed(inp: Inputs)
  {
    |inp.levels| == |Pins|
  }

  /** The values the script starts from, before the initial fetch. */
  function Defaults(now: int): (s: State)
    ensures Tracked(s)
  {
    State(25, 100, false, false, map[DecPin := High, IncPin := High, TogglePin := High], now)
  }

  // ---------------------------------------------------------------------------
  // fetch_last_entry

  /**
   * TEMPERATURE_GOAL from field4, then LUX_GOAL from field5, each kept when
   * its key is absent. A value that does not convert aborts the rest: a
   * malformed field4 leaves both goals, a malformed field5 only LUX_GOAL.
   */
  function Fetch(s: State, r: Response): State
  {
    if !Accepted(r) then s
    else match Convert(r.body, "field4", s.temperatureGoal)
      case None => s
      case Some(t) =>
        var s1 := s.(temperatureGoal := t);
        match Convert(r.body, "field5", s1.luxGoal)
        case None => s1
        case Some(l) => s1.(luxGoal := l)
  }

  /** The state the main loop starts from: defaults, then the initial fetch. */
  function Initial(r: Response, now: int): (s: State)
    ensures Tracked(s)
  {
    Fetch(Defaults(now), r)
  }

  // ---------------------------------------------------------------------------
  // The button phase

  /** The effect of a press on `pin`: the new globals and the events it issues. */
  function Press(s: State, pin: int): (a: After)
    ensures a.st.previous == s.previous
  {
    if pin == DecPin then
      var g := Max(0, s.temperatureGoal - 1);
      After(s.(temperatureGoal := g), [Push(GoalField, g)])
    else if pin == IncPin then
      var g := s.temperatureGoal + 1;
      After(s.(temperatureGoal := g), [Push(GoalField, g)])
    else if pin == TogglePin then
      var st := !s.ledStatus;
      After(s.(manualOverride := !s.manualOverride, ledStatus := st), [Digital(st)])
    else After(s, [])
  }

  /**
   * One pass of the `for pin` loop body: act on a falling edge, then record
   * the read. Every variant's loop has this shape; only Press differs.
   */
  function OnPin(s: State, pin: int, current: Level): (a: After)
    requires Tracked(s) && pin in s.previous
    ensures Tracked(a.st)
  {
    var p := if Pressed(s.previous[pin], current) then Press(s, pin) else After(s, []);
    After(p.st.(previous := p.st.previous[pin := current]), p.out)
  }

  /** The first `n` passes of the button loop. */
  function Poll(s: State, levels: seq<Level>, n: nat): (a: After)
    requires Tracked(s) && n <= |Pins| == |levels|
    ensures Tracked(a.st)
  {
    if n == 0 then After(s, [])
    else
      var p := Poll(s, levels, n - 1);
      var o := OnPin(p.st, Pins[n - 1], levels[n - 1]);
      After(o.st, p.out + o.out)
  }

  // ---------------------------------------------------------------------------
  // Sampling and publishing

  /** The payload fields: the readings, both goals and field6 = 1 iff the LED status is on. */
  function Fields(s: State, climate: Climate, lux: int): seq<(string, int)>
  {
    [("field1", climate.temperature), ("field2", climate.pressure), ("field3", lux),
     ("field4", s.temperatureGoal), ("field5", s.luxGoal), ("field6", if s.ledStatus then 1 else 0)]
  }

  function PayloadOf(s: State, climate: Climate, lux: int): string
  {
    Payload.Payload(Fields(s, climate, lux))
  }

  /** The automatic rule of one sample: in automatic mode the LED is on exactly when lux < LUX_GOAL. */
  function AutoRule(s: State, lux: int): After
  {
    if s.manualOverride then After(s, [])
    else
      var on := lux < s.luxGoal;
      After(s.(ledStatus := on), [Digital(on)])
  }

  /** Every Interval: sample, apply the automatic rule, publish, reset the timer. */
  function SamplePhase(s: State, now: int, climate: Climate, lux: int, ok: bool): After
  {
    if !Due(now, s.lastPublish, Interval) then After(s, [])
    else
      var a := AutoRule(s, lux);
      After(a.st.(lastPublish := now), a.out + PublishEvents(Fields(a.st, climate, lux), ok))
  }

  /** One iteration of the main loop: poll, then sample and publish. */
  function Step(s: State, inp: Inputs): (a: After)
    requires Tracked(s) && WellFormed(inp)
    ensures Tracked(a.st)
  {
    var p := Poll(s, inp.levels, |Pins|);
    var m := SamplePhase(p.st, inp.now, inp.climate, inp.lux, inp.publishOk);
    After(m.st, p.out + m.out)
  }

  // ---------------------------------------------------------------------------
  // Edge detection in the button loop (the same lemmas as in the other variants)

  lemma OnPinRecordsRead(s: State, pin: int, current: Level)
    requires Tracked(s) && pin in s.previous
    ensures OnPin(s, pin, current).st.previous == s.previous[pin := current]
  {
  }

  /** Each pass records its pin's read; the pins not yet polled keep their recorded level. */
  lemma {:induction false} PollRecordsEveryRead(s: State, levels: seq<Level>, n: nat)
    requires Tracked(s) && n <= |Pins| == |levels|
    ensures forall k :: 0 <= k < n ==> Poll(s, levels, n).st.previous[Pins[k]] == levels[k]
    ensures forall k :: n <= k < |Pins| ==> Poll(s, levels, n).st.previous[Pins[k]] == s.previous[Pins[k]]
  {
    if n > 0 {
      PollRecordsEveryRead(s, levels, n - 1);
      OnPinRecordsRead(Poll(s, levels, n - 1).st, Pins[n - 1], levels[n - 1]);
    }
  }

  /** No read of this iteration is a falling edge from its pin's recorded level. */
  predicate NoEdges(s: State, levels: seq<Level>)
    requires Tracked(s) && |levels| == |Pins|
  {
    forall k :: 0 <= k < |Pins| ==> !Pressed(s.previous[Pins[k]], levels[k])
  }

  lemma OnPinWithoutEdge(s: State, pin: int, current: Level)
    requires Tracked(s) && pin in s.previous
    requires !Pressed(s.previous[pin], current)
    ensures OnPin(s, pin, current) == After(s.(previous := s.previous[pin := current]), [])
  {
  }

  /** Without a falling edge the button loop issues nothing and only records the reads. */
  lemma NoEdgeNoEffect(s: State, levels: seq<Level>)
    requires Tracked(s) && |levels| == |Pins|
    requires NoEdges(s, levels)
    ensures Poll(s, levels, |Pins|)
      == After(s.(previous := s.previous[DecPin := levels[0]][IncPin := levels[1]][TogglePin := levels[2]]), [])
  {
    var s1 := s.(previous := s.previous[DecPin := levels[0]]);
    OnPinWithoutEdge(s, DecPin, levels[0]);
    assert Poll(s, levels, 1) == After(s1, []);
    var s2 := s1.(previous := s1.previous[IncPin := levels[1]]);
    OnPinWithoutEdge(s1, IncPin, levels[1]);
    assert Poll(s, levels, 2) == After(s2, []);
    OnPinWithoutEdge(s2, TogglePin, levels[2]);
  }

  // ---------------------------------------------------------------------------
  // Properties

  /**
   * The merge: field4 then field5, each replacing its goal when present and
   * keeping it when absent; a malformed field4 stops before field5 is read;
   * nothing else changes.
   */
  lemma FetchMergesGoals(s: State, r: Response)
    ensures var t := Fetch(s, r);
      && t == s.(temperatureGoal := t.temperatureGoal, luxGoal := t.luxGoal)
      && (!Accepted(r) ==> t == s)
      && (Accepted(r) && "field4" in r.body && r.body["field4"].Malformed? ==> t == s)
      && (Accepted(r) && !("field4" in r.body && r.body["field4"].Malformed?) ==>
            && t.temperatureGoal == (if "field4" in r.body then r.body["field4"].n else s.temperatureGoal)
            && t.luxGoal == (if "field5" in r.body && r.body["field5"].Num? then r.body["field5"].n else s.luxGoal))
  {
  }

  /** Decrement and increment move the goal by one, never below 0, and push the new goal to field4. */
  lemma StepPressPushesGoal(s: State)
    ensures Press(s, DecPin) == After(s.(temperatureGoal := Max(0, s.temperatureGoal - 1)),
                                      [Push("field4", Max(0, s.temperatureGoal - 1))])
    ensures Press(s, IncPin) == After(s.(temperatureGoal := s.temperatureGoal + 1),
                                      [Push("field4", s.temperatureGoal + 1)])
    ensures Press(s, DecPin).st.temperatureGoal >= 0
  {
  }

  lemma PressKeepsGoalNonNegative(s: State, pin: int)
    requires s.temperatureGoal >= 0
    ensures Press(s, pin).st.temperatureGoal >= 0
  {
  }

  /** A non-negative temperature goal stays non-negative through any button phase; LUX_GOAL is never touched. */
  lemma {:induction false} PollKeepsGoals(s: State, levels: seq<Level>, n: nat)
    requires Tracked(s) && n <= |Pins| == |levels|
    requires s.temperatureGoal >= 0
    ensures Poll(s, levels, n).st.temperatureGoal >= 0
    ensures Poll(s, levels, n).st.luxGoal == s.luxGoal
  {
    if n > 0 {
      PollKeepsGoals(s, levels, n - 1);
      var p := Poll(s, levels, n - 1).st;
      if Pressed(p.previous[Pins[n - 1]], levels[n - 1]) {
        PressKeepsGoalNonNegative(p, Pins[n - 1]);
      }
    }
  }

  /** The toggle flips both flags and drives the pin to the new status; two toggles restore both. */
  lemma ToggleTwiceRestores(s: State)
    ensures var t := Press(s, TogglePin);
      && t.st.manualOverride == !s.manualOverride
      && t.st.ledStatus == !s.ledStatus
      && t.out == [Digital(t.st.ledStatus)]
      && Press(t.st, TogglePin).st == s
  {
  }

  /**
   * A due sample: in automatic mode the status becomes lux < LUX_GOAL and is
   * written to the pin before the publish; in manual mode the status is left
   * as toggled and only the publish is issued. field6 carries the status the
   * rule left.
   */
  lemma SampleDrivesStatus(s: State, now: int, climate: Climate, lux: int, ok: bool)
    requires Due(now, s.lastPublish, Interval)
    ensures var a := SamplePhase(s, now, climate, lux, ok);
      && a.st.lastPublish == now
      && (!s.manualOverride ==>
            a.st.ledStatus == (lux < s.luxGoal)
            && a.out[0] == Digital(lux < s.luxGoal)
            && a.out[1] == Publish(Fields(a.st, climate, lux)))
      && (s.manualOverride ==>
            a.st == s.(lastPublish := now)
            && a.out == PublishEvents(Fields(s, climate, lux), ok))
  {
  }

  /** Before Interval has elapsed nothing is sampled, written or published. */
  lemma SampleWaitsForInterval(s: State, now: int, climate: Climate, lux: int, ok: bool)
    requires !Due(now, s.lastPublish, Interval)
    ensures SamplePhase(s, now, climate, lux, ok) == After(s, [])
  {
  }

  lemma FieldsValid(s: State, climate: Climate, lux: int)
    ensures Payload.ValidKeys(Fields(s, climate, lux))
  {
  }

  /** The payload carries the readings, both goals and the LED status as 1 or 0. */
  lemma PayloadCarriesSixFields(s: State, climate: Climate, lux: int)
    ensures Payload.Decode(PayloadOf(s, climate, lux)) == Some(
      [("field1", climate.temperature), ("field2", climate.pressure), ("field3", lux),
       ("field4", s.temperatureGoal), ("field5", s.luxGoal), ("field6", if s.ledStatus then 1 else 0)])
  {
    FieldsValid(s, climate, lux);
    Payload.PayloadRoundTrip(Fields(s, climate, lux));
  }

  /**
   * A failed publish only adds a reconnect: the globals come out the same
   * either way (stated for every variant, as the publish is written alike).
   */
  lemma PublishFailureChangesNoState(s: State, inp: Inputs)
    requires Tracked(s) && WellFormed(inp)
    ensures Step(s, inp.(publishOk := false)).st == Step(s, inp.(publishOk := true)).st
  {
  }

  // ---------------------------------------------------------------------------
  // The loop as the script runs it: module globals updated in place

  class Controller {
    var temperatureGoal: int
    var luxGoal: int
    var ledStatus: bool
    var manualOverride: bool
    var previous: map<int, Level>
    var lastPublish: int

    function Snapshot(): State
      reads this
    {
      State(temperatureGoal, luxGoal, ledStatus, manualOverride, previous, lastPublish)
    }

    ghost predicate Valid()
      reads this
    {
      Tracked(Snapshot())
    }

    /** Module start-up: defaults, then the initial fetch. */
    constructor (initial: Response, now: int)
      ensures Valid()
      ensures Snapshot() == Initial(initial, now)
    {
      temperatureGoal, luxGoal := 25, 100;
      ledStatus, manualOverride := false, false;
      previous := map[DecPin := High, IncPin := High, TogglePin := High];
      lastPublish := now;
      new;
      FetchLastEntry(initial);
    }

    /** fetch_last_entry: both goals from field4 and field5, in that order. */
    method FetchLastEntry(r: Response)
      modifies this
      ensures Snapshot() == Fetch(old(Snapshot()), r)
    {
      if !Accepted(r) {
        return;
      }
      var v := Convert(r.body, "field4", temperatureGoal);
      if v.None? {
        return;
      }
      temperatureGoal := v.value;
      v := Convert(r.body, "field5", luxGoal);
      if v.None? {
        return;
      }
      luxGoal := v.value;
    }

    /** The body of the `for pin` loop for one pin. */
    method OnButton(pin: int, current: Level) returns (events: seq<Event>)
      requires Valid() && pin in previous
      modifies this
      ensures Valid()
      ensures After(Snapshot(), events) == OnPin(old(Snapshot()), pin, current)
    {
      events := [];
      if current == Low && previous[pin] == High {
        if pin == DecPin {
          temperatureGoal := Max(0, temperatureGoal - 1);
          events := [Push(GoalField, temperatureGoal)];
        } else if pin == IncPin {
          temperatureGoal := temperatureGoal + 1;
          events := [Push(GoalField, temperatureGoal)];
        } else if pin == TogglePin {
          manualOverride := !manualOverride;
          ledStatus := !ledStatus;
          events := [Digital(ledStatus)];
        }
      }
      previous := previous[pin := current];
    }

    /** The `for pin in [...]` loop over the buttons, in `Pins` order. */
    method PollButtons(levels: seq<Level>) returns (events: seq<Event>)
      requires Valid() && |levels| == |Pins|
      modifies this
      ensures Valid()
      ensures After(Snapshot(), events) == Poll(old(Snapshot()), levels, |Pins|)
    {
      ghost var s0 := Snapshot();
      events := [];
      for i := 0 to |Pins|
        invariant Valid()
        invariant After(Snapshot(), events) == Poll(s0, levels, i)
      {
        var issued := OnButton(Pins[i], levels[i]);
        events := events + issued;
      }
    }

    /** The sample-and-publish block, gated by Interval. */
    method SampleIfDue(now: int, climate: Climate, lux: int, ok: bool) returns (events: seq<Event>)
      modifies this
      ensures After(Snapshot(), events) == SamplePhase(old(Snapshot()), now, climate, lux, ok)
    {
      events := [];
      if now - lastPublish >= Interval {
        if !manualOverride {
          ledStatus := lux < luxGoal;
          events := [Digital(ledStatus)];
        }
        var data := Fields(Snapshot(), climate, lux);
        events := events + [Publish(data)];
        if !ok {
          events := events + [Reconnect];
        }
        lastPublish := now;
      }
    }

    /** One iteration of the `while True` loop. */
    method Tick(inp: Inputs) returns (events: seq<Event>)
      requires Valid() && WellFormed(inp)
      modifies this
      ensures Valid()
      ensures After(Snapshot(), events) == Step(old(Snapshot()), inp)
    {
      events := PollButtons(inp.levels);
      var sampled := SampleIfDue(inp.now, inp.climate, inp.lux, inp.publishOk);
      events := events + sampled;
    }
  }
}
