/**
 * t8.py: the manual-brightness controller. Decrement and increment step the
 * PWM brightness by 20 within [0, 100] (and rescale LED_LUX_GOAL to match),
 * but only in manual mode; the toggle flips manual mode. In automatic mode
 * the light reading taken on every tick switches the LED to 100 or 0, and
 * only when the dark/bright classification changes. Every `interval`
 * seconds a five-field payload is published.
 */
module T8 {
  import opened Common
  import Payload
  import Light

  const DecPin := 3
  const IncPin := 4
  const TogglePin := 6
  /** The order in which the loop polls the buttons. */
  const Pins: seq<int> := [DecPin, IncPin, TogglePin]

  const Interval := 15          // publish period
  const BrightnessStep := 20    // PWM step of one press
  const Threshold := 40         // Light_room_threshold
  const FullDuty := 100         // the duty the automatic rule writes for "ON"

  /** The module globals the loop reads and writes. */
  datatype State = State(
    luxGoal: int,                 // LED_LUX_GOAL, field5
    brightness: int,              // led_brightness
    manualOverride: bool,         // manual_override
    previousLed: Option<bool>,    // previous_led_state: None, or Some(ON?)
    previous: map<int, Level>,    // previous_button_state
    lastPublish: int)

  /** A state after some phase of a tick, with the events issued in it. */
  datatype After = After(st: State, out: seq<Event>)

  /**
   * What one iteration of the loop observes: the light read (None when it
   * raised), the level of each polled pin in `Pins` order, the clock, the
   * climate readings (consulted when the publish is due) and whether the
   * MQTT transport accepts the publish.
   */
  datatype Inputs = Inputs(
    lightRead: Option<int>,
    levels: seq<Level>,
    now: int,
    climate: Climate,
    publishOk: bool)

  predicate Tracked(s: State)
  {
    s.previous.Keys == {DecPin, IncPin, TogglePin}
  }

  predicate WellFormed(inp: Inputs)
  {
    |inp.levels| == |Pins|
  }

  /**
   * The module start-up before the fetch: the defaults, and the recorded
   * button levels taken from actual reads of the three pins.
   */
  function Defaults(levels: seq<Level>, now: int): (s: State)
    requires |levels| == |Pins|
    ensures Tracked(s)
  {
    State(100, 50, false, None,
          map[DecPin := levels[0], IncPin := levels[1], TogglePin := levels[2]], now)
  }

  // ---------------------------------------------------------------------------
  // fetch_last_entry

  /**
   * LED_LUX_GOAL from field5 (kept when absent), the brightness rescaled from
   * it and written to the LED. A failed request, a non-200 reply or a field5
   * that does not convert leaves everything as it was.
   */
  function Fetch(s: State, r: Response): After
  {
    if !Accepted(r) then After(s, [])
    else match Convert(r.body, "field5", s.luxGoal)
      case None => After(s, [])
      case Some(goal) =>
        var b := ScaleToPwm(goal);
        After(s.(luxGoal := goal, brightness := b), [Pwm(b)])
  }

  /** The state the main loop starts from, and the LED write of the initial fetch. */
  function Start(levels: seq<Level>, r: Response, now: int): (a: After)
    requires |levels| == |Pins|
    ensures Tracked(a.st)
  {
    Fetch(Defaults(levels, now), r)
  }

  // ---------------------------------------------------------------------------
  // The button phase

  /** The effect of a press on `pin`. The step buttons act only in manual mode. */
  function Press(s: State, pin: int): (a: After)
    ensures a.st.previous == s.previous && a.st.previousLed == s.previousLed
  {
    if pin == DecPin && s.manualOverride then
      if s.brightness > 0 then
        var b := Max(0, s.brightness - BrightnessStep);
        After(s.(brightness := b, luxGoal := ScaleToLux(b)), [Pwm(b)])
      else After(s, [])
    else if pin == IncPin && s.manualOverride then
      if s.brightness < 100 then
        var b := Min(100, s.brightness + BrightnessStep);
        After(s.(brightness := b, luxGoal := ScaleToLux(b)), [Pwm(b)])
      else After(s, [])
    else if pin == TogglePin then
      if !s.manualOverride then After(s.(manualOverride := true), [Pwm(0)])
      else After(s.(manualOverride := false), [Pwm(s.brightness)])
    else After(s, [])
  }

  /**
   * One pass of the `for pin` loop body: act on a falling edge, then record
   * the read. Every variant's loop has this shape; only Press differs.
   */
  function OnPin(s: State, pin: int, current: Level): (a: After)
    requires Tracked(s) && pin in s.previous
    ensures Tracked(a.st)
  {
    var p := if Pressed(s.previous[pin], current) then Press(s, pin) else After(s, []);
    After(p.st.(previous := p.st.previous[pin := current]), p.out)
  }

  /** The first `n` passes of the button loop. */
  function Poll(s: State, levels: seq<Level>, n: nat): (a: After)
    requires Tracked(s) && n <= |Pins| == |levels|
    ensures Tracked(a.st)
  {
    if n == 0 then After(s, [])
    else
      var p := Poll(s, levels, n - 1);
      var o := OnPin(p.st, Pins[n - 1], levels[n - 1]);
      After(o.st, p.out + o.out)
  }

  // ---------------------------------------------------------------------------
  // Automatic control and publishing

  /**
   * In automatic mode: classify the reading as ON (below the threshold) or
   * OFF, write 100 or 0 only when the classification differs from the
   * remembered one, and remember it. In manual mode nothing happens.
   */
  function AutoPhase(s: State, light: int): After
  {
    if s.manualOverride then After(s, [])
    else
      var on := light < Threshold;
      var writes := if Some(on) != s.previousLed then [Pwm(if on then FullDuty else 0)] else [];
      After(s.(previousLed := Some(on)), writes)
  }

  /** The payload fields: field1, field2, field3, field5 and field6 = 1 iff the brightness is positive. */
  function Fields(s: State, climate: Climate, light: int): seq<(string, int)>
  {
    [("field1", climate.temperature), ("field2", climate.pressure), ("field3", light),
     ("field5", s.luxGoal), ("field6", if s.brightness > 0 then 1 else 0)]
  }

  function PayloadOf(s: State, climate: Climate, light: int): string
  {
    Payload.Payload(Fields(s, climate, light))
  }

  /** Every Interval: publish the readings and the goal, then reset the timer. */
  function PublishPhase(s: State, now: int, climate: Climate, light: int, ok: bool): After
  {
    if !Due(now, s.lastPublish, Interval) then After(s, [])
    else After(s.(lastPublish := now), PublishEvents(Fields(s, climate, light), ok))
  }

  /** One iteration of the main loop: read the light, poll, automatic rule, publish. */
  function Step(s: State, inp: Inputs): (a: After)
    requires Tracked(s) && WellFormed(inp)
    ensures Tracked(a.st)
  {
    var light := Light.ReadOrZero(inp.lightRead);
    var p := Poll(s, inp.levels, |Pins|);
    var u := AutoPhase(p.st, light);
    var m := PublishPhase(u.st, inp.now, inp.climate, light, inp.publishOk);
    After(m.st, p.out + u.out + m.out)
  }

  // ---------------------------------------------------------------------------
  // Edge detection in the button loop (the same lemmas as in the other variants)

  lemma OnPinRecordsRead(s: State, pin: int, current: Level)
    requires Tracked(s) && pin in s.previous
    ensures OnPin(s, pin, current).st.previous == s.previous[pin := current]
  {
  }

  /** Each pass records its pin's read; the pins not yet polled keep their recorded level. */
  lemma {:induction false} PollRecordsEveryRead(s: State, levels: seq<Level>, n: nat)
    requires Tracked(s) && n <= |Pins| == |levels|
    ensures forall k :: 0 <= k < n ==> Poll(s, levels, n).st.previous[Pins[k]] == levels[k]
    ensures forall k :: n <= k < |Pins| ==> Poll(s, levels, n).st.previous[Pins[k]] == s.previous[Pins[k]]
  {
    if n > 0 {
      PollRecordsEveryRead(s, levels, n - 1);
      OnPinRecordsRead(Poll(s, levels, n - 1).st, Pins[n - 1], levels[n - 1]);
    }
  }

  /** No read of this iteration is a falling edge from its pin's recorded level. */
  predicate NoEdges(s: State, levels: seq<Level>)
    requires Tracked(s) && |levels| == |Pins|
  {
    forall k :: 0 <= k < |Pins| ==> !Pressed(s.previous[Pins[k]], levels[k])
  }

  lemma OnPinWithoutEdge(s: State, pin: int, current: Level)
    requires Tracked(s) && pin in s.previous
    requires !Pressed(s.previous[pin], current)
    ensures OnPin(s, pin, current) == After(s.(previous := s.previous[pin := current]), [])
  {
  }

  /** Without a falling edge the button loop issues nothing and only records the reads. */
  lemma NoEdgeNoEffect(s: State, levels: seq<Level>)
    requires Tracked(s) && |levels| == |Pins|
    requires NoEdges(s, levels)
    ensures Poll(s, levels, |Pins|)
      == After(s.(previous := s.previous[DecPin := levels[0]][IncPin := levels[1]][TogglePin := levels[2]]), [])
  {
    var s1 := s.(previous := s.previous[DecPin := levels[0]]);
    OnPinWithoutEdge(s, DecPin, levels[0]);
    assert Poll(s, levels, 1) == After(s1, []);
    var s2 := s1.(previous := s1.previous[IncPin := levels[1]]);
    OnPinWithoutEdge(s1, IncPin, levels[1]);
    assert Poll(s, levels, 2) == After(s2, []);
    OnPinWithoutEdge(s2, TogglePin, levels[2]);
  }

  // ---------------------------------------------------------------------------
  // Properties

  /** Start-up records the buttons' actual levels, starts in automatic mode with no remembered LED state. */
  lemma StartRecordsActualLevels(levels: seq<Level>, r: Response, now: int)
    requires |levels| == |Pins|
    ensures var s := Start(levels, r, now).st;
      && (forall k :: 0 <= k < |Pins| ==> s.previous[Pins[k]] == levels[k])
      && !s.manualOverride && s.previousLed == None && s.lastPublish == now
  {
  }

  /**
   * The initial fetch: a convertible field5 sets the goal and the brightness
   * to its truncated tenth, written to the LED; an absent field5 keeps the
   * goal but still rescales the brightness from it; anything else changes
   * nothing and writes nothing.
   */
  lemma FetchScalesGoalToBrightness(s: State, r: Response)
    ensures var a := Fetch(s, r);
      if Accepted(r) && !("field5" in r.body && r.body["field5"].Malformed?) then
        var goal := if "field5" in r.body then r.body["field5"].n else s.luxGoal;
        a.st == s.(luxGoal := goal, brightness := ScaleToPwm(goal))
        && a.out == [Pwm(a.st.brightness)]
      else a == After(s, [])
  {
  }

  /** Without a reply the start-up values stand: goal 100, brightness 50; an empty 200 reply gives brightness 10. */
  lemma StartBrightness(levels: seq<Level>, now: int)
    requires |levels| == |Pins|
    ensures Start(levels, NoReply, now).st.brightness == 50
    ensures Start(levels, Reply(200, map[]), now).st.brightness == 10
    ensures Start(levels, Reply(200, map[]), now).out == [Pwm(10)]
  {
  }

  /** In automatic mode the step buttons change nothing and write nothing. */
  lemma StepButtonsNeedOverride(s: State, pin: int)
    requires pin == DecPin || pin == IncPin
    requires !s.manualOverride
    ensures Press(s, pin) == After(s, [])
  {
  }

  /**
   * In manual mode a step press that moves the brightness writes the new
   * brightness and couples the goal to it (goal = brightness * 10, so the
   * goal scales back to the brightness); at the end of the range it is a no-op.
   */
  lemma StepPressCouplesGoal(s: State, pin: int)
    requires pin == DecPin || pin == IncPin
    requires s.manualOverride
    ensures var a := Press(s, pin);
      && (if pin == DecPin then s.brightness <= 0 else s.brightness >= 100) ==> a == After(s, [])
    ensures var a := Press(s, pin);
      (if pin == DecPin then s.brightness > 0 else s.brightness < 100) ==>
        && a.st.brightness == (if pin == DecPin then Max(0, s.brightness - 20) else Min(100, s.brightness + 20))
        && a.st.luxGoal == a.st.brightness * 10
        && ScaleToPwm(a.st.luxGoal) == a.st.brightness
        && a.out == [Pwm(a.st.brightness)]
        && a.st.manualOverride
  {
  }

  predicate InRange(s: State)
  {
    0 <= s.brightness <= 100
  }

  lemma PressKeepsBrightnessInRange(s: State, pin: int)
    requires InRange(s)
    ensures InRange(Press(s, pin).st)
  {
  }

  /** Once within [0, 100] the brightness stays there through any button phase. */
  lemma {:induction false} PollKeepsBrightnessInRange(s: State, levels: seq<Level>, n: nat)
    requires Tracked(s) && n <= |Pins| == |levels|
    requires InRange(s)
    ensures InRange(Poll(s, levels, n).st)
  {
    if n > 0 {
      PollKeepsBrightnessInRange(s, levels, n - 1);
      var p := Poll(s, levels, n - 1).st;
      if Pressed(p.previous[Pins[n - 1]], levels[n - 1]) {
        PressKeepsBrightnessInRange(p, Pins[n - 1]);
      }
    }
  }

  /** Two toggles restore the mode; entering manual turns the LED off, leaving it restores the brightness. */
  lemma ToggleTwiceRestores(s: State)
    ensures var t := Press(s, TogglePin); var u := Press(t.st, TogglePin);
      && u.st == s
      && t.st.manualOverride == !s.manualOverride
      && (t.st.manualOverride ==> t.out == [Pwm(0)])
      && (!t.st.manualOverride ==> t.out == [Pwm(s.brightness)])
  {
  }

  /** Applying the automatic rule twice to the same reading writes nothing the second time. */
  lemma AutoRuleIdempotent(s: State, light: int)
    ensures var a := AutoPhase(s, light);
      AutoPhase(a.st, light) == After(a.st, [])
  {
  }

  /**
   * The automatic rule writes full duty (100), not the manual brightness, when
   * it turns the LED on; in manual mode it neither writes nor updates what it remembers.
   */
  lemma AutoRuleWritesFullDuty(s: State, light: int)
    ensures var a := AutoPhase(s, light);
      && (s.manualOverride ==> a == After(s, []))
      && (!s.manualOverride ==>
            a.st.previousLed == Some(light < Threshold)
            && (a.out == [] || a.out == [Pwm(if light < Threshold then 100 else 0)]))
  {
  }

  /** A light read that raised counts as 0 lux: in automatic mode the LED is classified ON. */
  lemma FailedReadTurnsLedOn(s: State)
    requires !s.manualOverride && s.previousLed != Some(true)
    ensures AutoPhase(s, Light.ReadOrZero(None)).out == [Pwm(FullDuty)]
  {
  }

  /**
   * Leaving manual mode writes the manual brightness; when the reading is
   * classified as it was before the override, the automatic rule then stays
   * silent and the LED keeps the manual brightness.
   */
  lemma ResumeKeepsManualBrightness(s: State, light: int)
    requires s.manualOverride && s.previousLed == Some(light < Threshold)
    ensures var t := Press(s, TogglePin);
      t.out == [Pwm(s.brightness)] && AutoPhase(t.st, light).out == []
  {
  }

  /** The automatic rule over successive ticks' readings (no button, no publish in between). */
  function AutoRun(s: State, lights: seq<int>): After
    decreases |lights|
  {
    if lights == [] then After(s, [])
    else
      var a := AutoPhase(s, lights[0]);
      var rest := AutoRun(a.st, lights[1..]);
      After(rest.st, a.out + rest.out)
  }

  /** The reference count: readings whose classification differs from the one before it. */
  function Changes(last: Option<bool>, lights: seq<int>): nat
    decreases |lights|
  {
    if lights == [] then 0
    else
      var on := lights[0] < Threshold;
      (if Some(on) != last then 1 else 0) + Changes(Some(on), lights[1..])
  }

  /** In automatic mode the LED is written exactly once per change of classification. */
  lemma {:induction false} AutoRunWritesOncePerChange(s: State, lights: seq<int>)
    requires !s.manualOverride
    ensures |AutoRun(s, lights).out| == Changes(s.previousLed, lights)
    decreases |lights|
  {
    if lights != [] {
      AutoRunWritesOncePerChange(AutoPhase(s, lights[0]).st, lights[1..]);
    }
  }

  /** Readings 60, 30, 30, 60 from start-up: the LED is written three times, off, on, off. */
  lemma ThreeWritesForFourReadings(s: State)
    requires !s.manualOverride && s.previousLed == None
    ensures AutoRun(s, [60, 30, 30, 60]).out == [Pwm(0), Pwm(100), Pwm(0)]
  {
    var l := [60, 30, 30, 60];
    assert l[1..] == [30, 30, 60] && l[1..][1..] == [30, 60] && l[1..][1..][1..] == [60];
    var a1 := AutoPhase(s, 60);
    var a2 := AutoPhase(a1.st, 30);
    var a3 := AutoPhase(a2.st, 30);
    var a4 := AutoPhase(a3.st, 60);
    assert AutoRun(a4.st, []).out == [];
    assert AutoRun(a3.st, [60]).out == [Pwm(0)];
    assert AutoRun(a2.st, [30, 60]).out == [Pwm(0)];
    assert AutoRun(a1.st, [30, 30, 60]).out == [Pwm(100), Pwm(0)];
  }

  lemma FieldsValid(s: State, climate: Climate, light: int)
    ensures Payload.ValidKeys(Fields(s, climate, light))
  {
  }

  /** The payload carries field1, field2, field3, field5 and field6 (never field4); field6 is 1 iff the brightness is positive. */
  lemma PayloadCarriesFiveFields(s: State, climate: Climate, light: int)
    ensures Payload.Decode(PayloadOf(s, climate, light)) == Some(
      [("field1", climate.temperature), ("field2", climate.pressure), ("field3", light),
       ("field5", s.luxGoal), ("field6", if s.brightness > 0 then 1 else 0)])
  {
    FieldsValid(s, climate, light);
    Payload.PayloadRoundTrip(Fields(s, climate, light));
  }

  /** The publish fires only once Interval has elapsed, resets the timer and changes nothing else. */
  lemma PublishGate(s: State, now: int, climate: Climate, light: int, ok: bool)
    ensures var a := PublishPhase(s, now, climate, light, ok);
      && a.st == s.(lastPublish := a.st.lastPublish)
      && (Due(now, s.lastPublish, Interval) <==> a.out != [])
      && a.st.lastPublish == (if Due(now, s.lastPublish, Interval) then now else s.lastPublish)
      && (Due(now, s.lastPublish, Interval) ==> a.out == PublishEvents(Fields(s, climate, light), ok))
  {
  }

  /**
   * A failed publish only adds a reconnect: the globals come out the same
   * either way (stated for every variant, as the publish is written alike).
   */
  lemma PublishFailureChangesNoState(s: State, inp: Inputs)
    requires Tracked(s) && WellFormed(inp)
    ensures Step(s, inp.(publishOk := false)).st == Step(s, inp.(publishOk := true)).st
  {
  }

  // ---------------------------------------------------------------------------
  // The loop as the script runs it: module globals updated in place

  class Controller {
    var luxGoal: int
    var brightness: int
    var manualOverride: bool
    var previousLed: Option<bool>
    var previous: map<int, Level>
    var lastPublish: int

    function Snapshot(): State
      reads this
    {
      State(luxGoal, brightness, manualOverride, previousLed, previous, lastPublish)
    }

    ghost predicate Valid()
      reads this
    {
      Tracked(Snapshot())
    }

    /** Module start-up up to the fetch: defaults, and the three buttons' actual levels. */
    constructor (levels: seq<Level>, now: int)
      requires |levels| == |Pins|
      ensures Valid()
      ensures Snapshot() == Defaults(levels, now)
    {
      luxGoal, brightness := 100, 50;
      manualOverride, previousLed := false, None;
      previous := map[DecPin := levels[0], IncPin := levels[1], TogglePin := levels[2]];
      lastPublish := now;
    }

    /** fetch_last_entry: the goal from field5, the brightness rescaled from it, written to the LED. */
    method FetchLastEntry(r: Response) returns (events: seq<Event>)
      modifies this
      ensures After(Snapshot(), events) == Fetch(old(Snapshot()), r)
    {
      events := [];
      if !Accepted(r) {
        return;
      }
      var v := Convert(r.body, "field5", luxGoal);
      if v.None? {
        return;
      }
      luxGoal := v.value;
      brightness := ScaleToPwm(luxGoal);
      events := [Pwm(brightness)];
    }

    /** The body of the `for pin` loop for one pin. */
    method OnButton(pin: int, current: Level) returns (events: seq<Event>)
      requires Valid() && pin in previous
      modifies this
      ensures Valid()
      ensures After(Snapshot(), events) == OnPin(old(Snapshot()), pin, current)
    {
      events := [];
      if current == Low && previous[pin] == High {
        if pin == DecPin && manualOverride {
          if brightness > 0 {
            brightness := Max(0, brightness - BrightnessStep);
            luxGoal := ScaleToLux(brightness);
            events := [Pwm(brightness)];
          }
        } else if pin == IncPin && manualOverride {
          if brightness < 100 {
            brightness := Min(100, brightness + BrightnessStep);
            luxGoal := ScaleToLux(brightness);
            events := [Pwm(brightness)];
          }
        } else if pin == TogglePin {
          manualOverride := !manualOverride;
          if manualOverride {
            events := [Pwm(0)];
          } else {
            events := [Pwm(brightness)];
          }
        }
      }
      previous := previous[pin := current];
    }

    /** The `for pin in [...]` loop over the buttons, in `Pins` order. */
    method PollButtons(levels: seq<Level>) returns (events: seq<Event>)
      requires Valid() && |levels| == |Pins|
      modifies this
      ensures Valid()
      ensures After(Snapshot(), events) == Poll(old(Snapshot()), levels, |Pins|)
    {
      ghost var s0 := Snapshot();
      events := [];
      for i := 0 to |Pins|
        invariant Valid()
        invariant After(Snapshot(), events) == Poll(s0, levels, i)
      {
        var written := OnButton(Pins[i], levels[i]);
        events := events + written;
      }
    }

    /** The automatic LED control block. */
    method AutoControl(light: int) returns (events: seq<Event>)
      modifies this
      ensures After(Snapshot(), events) == AutoPhase(old(Snapshot()), light)
    {
      events := [];
      if !manualOverride {
        var on := light < Threshold;
        if Some(on) != previousLed {
          events := [Pwm(if on then FullDuty else 0)];
        }
        previousLed := Some(on);
      }
    }

    /** The publish block, gated by Interval. */
    method PublishIfDue(now: int, climate: Climate, light: int, ok: bool) returns (events: seq<Event>)
      modifies this
      ensures After(Snapshot(), events) == PublishPhase(old(Snapshot()), now, climate, light, ok)
    {
      events := [];
      if now - lastPublish >= Interval {
        var data := Fields(Snapshot(), climate, light);
        events := [Publish(data)];
        if !ok {
          events := events + [Reconnect];
        }
        lastPublish := now;
      }
    }

    /** One iteration of the `while True` loop. */
    method Tick(inp: Inputs) returns (events: seq<Event>)
      requires Valid() && WellFormed(inp)
      modifies this
      ensures Valid()
      ensures After(Snapshot(), events) == Step(old(Snapshot()), inp)
    {
      var light := Light.ReadOrZero(inp.lightRead);
      events := PollButtons(inp.levels);
      var automatic := AutoControl(light);
      var published := PublishIfDue(inp.now, inp.climate, light, inp.publishOk);
      events := events + automatic + published;
    }
  }
}
