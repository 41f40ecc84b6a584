/**
 * t11.py: the three-button controller. Decrement and increment step the lux
 * goal by 20 within [0, 1000] and publish at once; the toggle flips the
 * manual LED status and couples the override flag to its negation. Every 15
 * seconds the last ThingSpeak entry is merged into the six globals and, in
 * automatic mode, the brightness follows the lux goal; every `interval`
 * seconds a sample drives the LED by the lux < 40 rule and the six fields are
 * published.
 */
module T11 {
  import opened Common
  import Payload

  const DecPin := 3
  const IncPin := 4
  const TogglePin := 6
  /** The order in which the loop polls the buttons. */
  const Pins: seq<int> := [DecPin, IncPin, TogglePin]

  const Interval := 15        // publish / sample period
  const FetchPeriod := 15     // fetch period
  const BrightnessStep := 20  // lux-goal step of one press
  const LuxGoalMax := 1000
  const DarkLux := 40         // automatic rule: LED on below this reading

  /** The module globals the loop reads and writes. */
  datatype State = State(
    temperature: int,       // bmp280_temperature, field1
    temperatureGoal: int,   // TEMPERATURE_GOAL, field2
    lux: int,               // lux, field3
    brightness: int,        // LED_BRIGHTNESS, field4
    luxGoal: int,           // LUX_GOAL, field5
    pressure: int,          // bmp280_pressure, field6
    manualOverride: bool,   // manual_led_override
    manualStatus: bool,     // manual_led_status
    previous: map<int, Level>,  // previous_button_state
    lastPublish: int,
    lastFetch: int)

  /** A state after some phase of a tick, with the events issued so far. */
  datatype After = After(st: State, out: seq<Event>)

  /**
   * What one iteration of the loop observes: the level of each polled pin (in
   * `Pins` order), the clock, the fetch response (consulted when the fetch is
   * due), the sensor readings (consulted when the publish is due) and whether
   * the MQTT transport accepts publishes this tick.
   */
  datatype Inputs = Inputs(
    levels: seq<Level>,
    now: int,
    response: Response,
    climate: Climate,
    lux: int,
    publishOk: bool)

  predicate Tracked(s: State)
  {
    s.previous.Keys == {DecPin, IncPin, TogglePin}
  }

  predicate WellFormed(inp: Inputs)
  {
    |inp.levels| == |Pins|
  }

  /** The values the script starts from, before the initial fetch. */
  function Defaults(now: int): (s: State)
    ensures Tracked(s)
  {
    State(2000, 2500, 100, 50, 200, 1013, false, false,
          map[DecPin := High, IncPin := High, TogglePin := High], now, now)
  }

  /** The globals in payload field order: field1 .. field6. */
  function Fields(s: State): seq<(string, int)>
  {
    [("field1", s.temperature), ("field2", s.temperatureGoal), ("field3", s.lux),
     ("field4", s.brightness), ("field5", s.luxGoal), ("field6", s.pressure)]
  }

  /** send_data_to_thingspeak: the payload built from the current globals. */
  function PayloadOf(s: State): string
  {
    Payload.Payload(Fields(s))
  }

  // ---------------------------------------------------------------------------
  // fetch_last_entry

  /**
   * The six globals overwritten one after another, field1 first. A value
   * whose conversion raises aborts the rest: the globals already assigned
   * keep their new values, the later ones their old ones.
   */
  function Fetch(s: State, r: Response): State
  {
    if !Accepted(r) then s
    else
      var d := r.body;
      match Convert(d, "field1", s.temperature)
      case None => s
      case Some(v1) =>
        var s1 := s.(temperature := v1);
        match Convert(d, "field2", s1.temperatureGoal)
        case None => s1
        case Some(v2) =>
          var s2 := s1.(temperatureGoal := v2);
          match Convert(d, "field3", s2.lux)
          case None => s2
          case Some(v3) =>
            var s3 := s2.(lux := v3);
            match Convert(d, "field4", s3.brightness)
            case None => s3
            case Some(v4) =>
              var s4 := s3.(brightness := v4);
              match Convert(d, "field5", s4.luxGoal)
              case None => s4
              case Some(v5) =>
                var s5 := s4.(luxGoal := v5);
                match Convert(d, "field6", s5.pressure)
                case None => s5
                case Some(v6) => s5.(pressure := v6)
  }

  /** The state the main loop starts from: defaults, the initial fetch, then full brightness. */
  function Initial(r: Response, now: int): (s: State)
    ensures Tracked(s)
  {
    Fetch(Defaults(now), r).(brightness := 100)
  }

  // ---------------------------------------------------------------------------
  // The button phase

  /** The effect of a press on `pin`: the new globals and the events it issues. */
  function Press(s: State, pin: int, ok: bool): (a: After)
    ensures a.st.previous == s.previous
  {
    if pin == DecPin then
      var s' := s.(luxGoal := Max(0, s.luxGoal - BrightnessStep));
      After(s', PublishEvents(Fields(s'), ok))
    else if pin == IncPin then
      var s' := s.(luxGoal := Min(LuxGoalMax, s.luxGoal + BrightnessStep));
      After(s', PublishEvents(Fields(s'), ok))
    else if pin == TogglePin then
      if !s.manualStatus then
        After(s.(manualStatus := true, manualOverride := false), [Pwm(s.brightness)])
      else
        After(s.(manualStatus := false, manualOverride := true), [Pwm(0)])
    else After(s, [])
  }

  /** One pass of the `for pin` loop body: act on a falling edge, then record the read. */
  function OnPin(s: State, pin: int, current: Level, ok: bool): (a: After)
    requires Tracked(s) && pin in s.previous
    ensures Tracked(a.st)
  {
    var p := if Pressed(s.previous[pin], current) then Press(s, pin, ok) else After(s, []);
    After(p.st.(previous := p.st.previous[pin := current]), p.out)
  }

  /** The first `n` passes of the button loop, with the events they issue in order. */
  function Poll(s: State, levels: seq<Level>, n: nat, ok: bool): (a: After)
    requires Tracked(s) && n <= |Pins| == |levels|
    ensures Tracked(a.st)
  {
    if n == 0 then After(s, [])
    else
      var p := Poll(s, levels, n - 1, ok);
      var o := OnPin(p.st, Pins[n - 1], levels[n - 1], ok);
      After(o.st, p.out + o.out)
  }

  // ---------------------------------------------------------------------------
  // The timed phases

  /** Every FetchPeriod: merge the fetch, then in automatic mode brightness := LUX_GOAL. */
  function FetchPhase(s: State, now: int, r: Response): After
  {
    if !Due(now, s.lastFetch, FetchPeriod) then After(s, [])
    else
      var f := Fetch(s, r);
      if !f.manualOverride then
        After(f.(brightness := f.luxGoal, lastFetch := now), [Pwm(f.luxGoal)])
      else
        After(f.(lastFetch := now), [])
  }

  /** The LED write of the automatic rule for one sample, if automatic mode is on. */
  function AutoRule(s: State): seq<Event>
  {
    if s.manualOverride then []
    else if s.lux < DarkLux then [Pwm(s.brightness)]
    else [Pwm(0)]
  }

  /** Every Interval: take a sample, apply the automatic rule, publish. */
  function SamplePhase(s: State, now: int, climate: Climate, lux: int, ok: bool): After
  {
    if !Due(now, s.lastPublish, Interval) then After(s, [])
    else
      var m := s.(temperature := climate.temperature, pressure := climate.pressure, lux := lux);
      After(m.(lastPublish := now), AutoRule(m) + PublishEvents(Fields(m), ok))
  }

  /** One iteration of the main loop. */
  function Step(s: State, inp: Inputs): (a: After)
    requires Tracked(s) && WellFormed(inp)
    ensures Tracked(a.st)
  {
    var p := Poll(s, inp.levels, |Pins|, inp.publishOk);
    var f := FetchPhase(p.st, inp.now, inp.response);
    var m := SamplePhase(f.st, inp.now, inp.climate, inp.lux, inp.publishOk);
    After(m.st, p.out + f.out + m.out)
  }

  /** Step is the button phase, then the fetch phase, then the sample phase, with their events in order. */
  lemma StepComposes(s: State, inp: Inputs, p: After, f: After, m: After)
    requires Tracked(s) && WellFormed(inp)
    requires p == Poll(s, inp.levels, |Pins|, inp.publishOk)
    requires f == FetchPhase(p.st, inp.now, inp.response)
    requires m == SamplePhase(f.st, inp.now, inp.climate, inp.lux, inp.publishOk)
    ensures Step(s, inp) == After(m.st, p.out + f.out + m.out)
    ensures Tracked(m.st)
  {
  }

  lemma FieldsValid(s: State)
    ensures Payload.ValidKeys(Fields(s))
  {
  }

  // ---------------------------------------------------------------------------
  // Properties

  /** The payload carries field1 .. field6 in that order, and nothing else, before the sentinel. */
  lemma PayloadCarriesSixFields(s: State)
    ensures Payload.Decode(PayloadOf(s)) == Some(
      [("field1", s.temperature), ("field2", s.temperatureGoal), ("field3", s.lux),
       ("field4", s.brightness), ("field5", s.luxGoal), ("field6", s.pressure)])
  {
    FieldsValid(s);
    Payload.PayloadRoundTrip(Fields(s));
  }

  /** The button loop touches only the lux goal, the two flags and the recorded levels. */
  lemma {:induction false} PollTouchesOnlyButtonState(s: State, levels: seq<Level>, n: nat, ok: bool)
    requires Tracked(s) && n <= |Pins| == |levels|
    ensures var t := Poll(s, levels, n, ok).st;
      t == s.(luxGoal := t.luxGoal, manualOverride := t.manualOverride,
              manualStatus := t.manualStatus, previous := t.previous)
  {
    if n > 0 {
      PollTouchesOnlyButtonState(s, levels, n - 1, ok);
      OnPinTouchesOnlyButtonState(Poll(s, levels, n - 1, ok).st, Pins[n - 1], levels[n - 1], ok);
    }
  }

  lemma OnPinTouchesOnlyButtonState(s: State, pin: int, current: Level, ok: bool)
    requires Tracked(s) && pin in s.previous
    ensures var t := OnPin(s, pin, current, ok).st;
      t == s.(luxGoal := t.luxGoal, manualOverride := t.manualOverride,
              manualStatus := t.manualStatus, previous := t.previous)
  {
  }

  lemma OnPinIgnoresTransport(s: State, pin: int, current: Level)
    requires Tracked(s) && pin in s.previous
    ensures OnPin(s, pin, current, true).st == OnPin(s, pin, current, false).st
  {
  }

  /** Every polled pin's recorded level is overwritten with this tick's read; the others are untouched. */
  lemma {:induction false} PollRecordsEveryRead(s: State, levels: seq<Level>, n: nat, ok: bool)
    requires Tracked(s) && n <= |Pins| == |levels|
    ensures forall k :: 0 <= k < n ==> Poll(s, levels, n, ok).st.previous[Pins[k]] == levels[k]
    ensures forall k :: n <= k < |Pins| ==> Poll(s, levels, n, ok).st.previous[Pins[k]] == s.previous[Pins[k]]
  {
    if n > 0 {
      PollRecordsEveryRead(s, levels, n - 1, ok);
      OnPinRecordsRead(Poll(s, levels, n - 1, ok).st, Pins[n - 1], levels[n - 1], ok);
    }
  }

  lemma OnPinRecordsRead(s: State, pin: int, current: Level, ok: bool)
    requires Tracked(s) && pin in s.previous
    ensures OnPin(s, pin, current, ok).st.previous == s.previous[pin := current]
  {
  }

  /** A pin whose read is not a falling edge from its recorded level has no press this tick. */
  predicate NoEdges(s: State, levels: seq<Level>)
    requires Tracked(s) && |levels| == |Pins|
  {
    forall k :: 0 <= k < |Pins| ==> !Pressed(s.previous[Pins[k]], levels[k])
  }

  /**
   * Without a falling edge the loop issues nothing and changes nothing but
   * the recorded levels, which become this tick's reads.
   */
  lemma NoEdgeNoEffect(s: State, levels: seq<Level>, ok: bool)
    requires Tracked(s) && |levels| == |Pins|
    requires NoEdges(s, levels)
    ensures Poll(s, levels, |Pins|, ok)
      == After(s.(previous := s.previous[DecPin := levels[0]][IncPin := levels[1]][TogglePin := levels[2]]), [])
  {
    var s1 := s.(previous := s.previous[DecPin := levels[0]]);
    OnPinWithoutEdge(s, DecPin, levels[0], ok);
    assert Poll(s, levels, 1, ok) == After(s1, []);
    var s2 := s1.(previous := s1.previous[IncPin := levels[1]]);
    OnPinWithoutEdge(s1, IncPin, levels[1], ok);
    assert Poll(s, levels, 2, ok) == After(s2, []);
    OnPinWithoutEdge(s2, TogglePin, levels[2], ok);
  }

  lemma OnPinWithoutEdge(s: State, pin: int, current: Level, ok: bool)
    requires Tracked(s) && pin in s.previous
    requires !Pressed(s.previous[pin], current)
    ensures OnPin(s, pin, current, ok) == After(s.(previous := s.previous[pin := current]), [])
  {
  }

  /** Button presses keep LUX_GOAL within [0, 1000]. */
  lemma {:induction false} PollKeepsLuxGoalInRange(s: State, levels: seq<Level>, n: nat, ok: bool)
    requires Tracked(s) && n <= |Pins| == |levels|
    requires 0 <= s.luxGoal <= LuxGoalMax
    ensures 0 <= Poll(s, levels, n, ok).st.luxGoal <= LuxGoalMax
  {
    if n > 0 {
      PollKeepsLuxGoalInRange(s, levels, n - 1, ok);
    }
  }

  /** A step press moves the goal by 20, clamped to [0, 1000], and publishes the new globals at once. */
  lemma StepPressPublishes(s: State, ok: bool)
    ensures var d := Press(s, DecPin, ok);
      d.st == s.(luxGoal := if s.luxGoal >= 20 then s.luxGoal - 20 else 0)
      && d.out == PublishEvents(Fields(d.st), ok)
    ensures var i := Press(s, IncPin, ok);
      i.st == s.(luxGoal := if s.luxGoal <= 980 then s.luxGoal + 20 else 1000)
      && i.out == PublishEvents(Fields(i.st), ok)
  {
  }

  /**
   * A toggle press flips the status, sets the override to its negation, and
   * writes the brightness to the LED when the status turns on, 0 when it turns off.
   */
  lemma ToggleCouplesOverrideToStatus(s: State, ok: bool)
    ensures var t := Press(s, TogglePin, ok);
      && t.st.manualStatus == !s.manualStatus
      && t.st.manualOverride == !t.st.manualStatus
      && t.st == s.(manualStatus := t.st.manualStatus, manualOverride := t.st.manualOverride)
      && t.out == [Pwm(if t.st.manualStatus then s.brightness else 0)]
  {
  }

  /** Once the override is the negation of the status, two toggles restore both. */
  lemma ToggleTwiceRestores(s: State, ok: bool)
    requires s.manualOverride == !s.manualStatus
    ensures Press(Press(s, TogglePin, ok).st, TogglePin, ok).st == s
  {
  }

  /**
   * From the start-up values (automatic, status off) two toggles do not come
   * back: the loop ends in manual mode.
   */
  lemma ToggleTwiceFromStartEndsManual(r: Response, now: int, ok: bool)
    requires !Accepted(r)
    ensures var s := Initial(r, now);
      !s.manualOverride && Press(Press(s, TogglePin, ok).st, TogglePin, ok).st.manualOverride
  {
  }

  /** The fetched keys in the order the merge assigns them. */
  const FetchKeys: seq<string> := ["field1", "field2", "field3", "field4", "field5", "field6"]

  /** The index of the first fetched key whose value fails to convert, or 6. */
  function FirstMalformed(body: map<string, Value>): (k: nat)
    ensures k <= |FetchKeys|
    ensures forall j :: 0 <= j < k ==> !(FetchKeys[j] in body && body[FetchKeys[j]].Malformed?)
    ensures k < |FetchKeys| ==> FetchKeys[k] in body && body[FetchKeys[k]].Malformed?
  {
    FirstMalformedFrom(body, 0)
  }

  function FirstMalformedFrom(body: map<string, Value>, i: nat): (k: nat)
    requires i <= |FetchKeys|
    ensures i <= k <= |FetchKeys|
    ensures forall j :: i <= j < k ==> !(FetchKeys[j] in body && body[FetchKeys[j]].Malformed?)
    ensures k < |FetchKeys| ==> FetchKeys[k] in body && body[FetchKeys[k]].Malformed?
    decreases |FetchKeys| - i
  {
    if i == |FetchKeys| then i
    else if FetchKeys[i] in body && body[FetchKeys[i]].Malformed? then i
    else FirstMalformedFrom(body, i + 1)
  }

  /** The value field j of the entry gives global j: the fetched number, or the local one when absent. */
  function Merged(body: map<string, Value>, key: string, local: int): int
  {
    if key in body && body[key].Num? then body[key].n else local
  }

  /**
   * The merge: a field present in a 200 reply replaces its global, an absent
   * one keeps it; the first field whose conversion raises and every field
   * after it keep their globals.
   */
  lemma FetchMerge(s: State, r: Response)
    requires Accepted(r)
    ensures var d, k, t := r.body, FirstMalformed(r.body), Fetch(s, r);
      && t.temperature == (if 0 < k then Merged(d, "field1", s.temperature) else s.temperature)
      && t.temperatureGoal == (if 1 < k then Merged(d, "field2", s.temperatureGoal) else s.temperatureGoal)
      && t.lux == (if 2 < k then Merged(d, "field3", s.lux) else s.lux)
      && t.brightness == (if 3 < k then Merged(d, "field4", s.brightness) else s.brightness)
      && t.luxGoal == (if 4 < k then Merged(d, "field5", s.luxGoal) else s.luxGoal)
      && t.pressure == (if 5 < k then Merged(d, "field6", s.pressure) else s.pressure)
  {
    var k := FirstMalformed(r.body);
    assert k == 0 || k == 1 || k == 2 || k == 3 || k == 4 || k == 5 || k == 6;
  }

  /** The merge writes only the six measured globals: the flags, levels and timers are never changed. */
  lemma FetchKeepsControlState(s: State, r: Response)
    ensures var t := Fetch(s, r);
      t == s.(temperature := t.temperature, temperatureGoal := t.temperatureGoal, lux := t.lux,
              brightness := t.brightness, luxGoal := t.luxGoal, pressure := t.pressure)
  {
  }

  /** A non-200 reply, or no reply at all, changes nothing. */
  lemma FetchFailureKeepsEverything(s: State, r: Response)
    requires !Accepted(r)
    ensures Fetch(s, r) == s
  {
  }

  /** The example of partial update: only field5 present replaces LUX_GOAL alone. */
  lemma FetchOnlyLuxGoal(s: State, goal: int)
    ensures Fetch(s, Reply(200, map["field5" := Num(goal)])) == s.(luxGoal := goal)
  {
  }

  /**
   * After a due fetch in automatic mode the brightness becomes LUX_GOAL itself,
   * with no clamp to the 0..100 PWM range, and is written to the LED; in
   * manual mode the merged brightness is kept and nothing is written.
   */
  lemma FetchSetsBrightnessToGoal(s: State, now: int, r: Response)
    requires Due(now, s.lastFetch, FetchPeriod)
    ensures var f := Fetch(s, r); var a := FetchPhase(s, now, r);
      && a.st.lastFetch == now
      && (!f.manualOverride ==> a.st.brightness == f.luxGoal && a.out == [Pwm(f.luxGoal)])
      && (f.manualOverride ==> a.st.brightness == f.brightness && a.out == [])
  {
  }

  /** The start-up LUX_GOAL of 200 reaches the PWM pin unscaled at the first due fetch. */
  lemma FirstFetchWritesTwoHundred(now: int, later: int)
    requires later - now >= FetchPeriod
    ensures FetchPhase(Initial(NoReply, now), later, NoReply).out == [Pwm(200)]
  {
  }

  /**
   * On a due sample in automatic mode the LED gets LED_BRIGHTNESS when the
   * reading is below 40 and 0 otherwise; in manual mode it is not written.
   * Then the six globals, with the sampled readings, are published.
   * LED_BRIGHTNESS itself is not changed by the rule.
   */
  lemma SampleAppliesDarkRule(s: State, now: int, climate: Climate, lux: int, ok: bool)
    requires Due(now, s.lastPublish, Interval)
    ensures var a := SamplePhase(s, now, climate, lux, ok);
      && a.st.brightness == s.brightness
      && a.st.lux == lux && a.st.lastPublish == now
      && (!s.manualOverride ==> a.out[0] == Pwm(if lux < DarkLux then s.brightness else 0))
      && (s.manualOverride ==> a.out[0].Publish?)
    ensures var a := SamplePhase(s, now, climate, lux, ok);
      var sampled := s.(temperature := climate.temperature, pressure := climate.pressure, lux := lux);
      a.out == (if s.manualOverride then [] else [Pwm(if lux < DarkLux then s.brightness else 0)])
               + PublishEvents(Fields(sampled), ok)
  {
  }

  /**
   * The fetch fires only when at least 15 has elapsed, the publish only when
   * `interval` has; each resets its own timestamp to the current time and
   * leaves the other alone.
   */
  lemma TimersGate(s: State, inp: Inputs)
    requires Tracked(s) && WellFormed(inp)
    ensures Step(s, inp).st.lastFetch == if Due(inp.now, s.lastFetch, FetchPeriod) then inp.now else s.lastFetch
    ensures Step(s, inp).st.lastPublish == if Due(inp.now, s.lastPublish, Interval) then inp.now else s.lastPublish
  {
    var p := Poll(s, inp.levels, |Pins|, inp.publishOk);
    var f := FetchPhase(p.st, inp.now, inp.response);
    var m := SamplePhase(f.st, inp.now, inp.climate, inp.lux, inp.publishOk);
    StepComposes(s, inp, p, f, m);
    PollTouchesOnlyButtonState(s, inp.levels, |Pins|, inp.publishOk);
    FetchKeepsControlState(p.st, inp.response);
    assert f.st.lastPublish == s.lastPublish;
    assert f.st.lastFetch == if Due(inp.now, s.lastFetch, FetchPeriod) then inp.now else s.lastFetch;
  }

  lemma {:induction false} PollIgnoresTransport(s: State, levels: seq<Level>, n: nat)
    requires Tracked(s) && n <= |Pins| == |levels|
    ensures Poll(s, levels, n, true).st == Poll(s, levels, n, false).st
  {
    if n > 0 {
      PollIgnoresTransport(s, levels, n - 1);
      OnPinIgnoresTransport(Poll(s, levels, n - 1, true).st, Pins[n - 1], levels[n - 1]);
    }
  }

  /** A failed publish only adds a reconnect: the globals come out the same either way. */
  lemma PublishFailureChangesNoState(s: State, inp: Inputs)
    requires Tracked(s) && WellFormed(inp)
    ensures Step(s, inp.(publishOk := false)).st == Step(s, inp.(publishOk := true)).st
  {
    PollIgnoresTransport(s, inp.levels, |Pins|);
  }

  // ---------------------------------------------------------------------------
  // The loop as the script runs it: module globals updated in place

  class Controller {
    var temperature: int
    var temperatureGoal: int
    var lux: int
    var brightness: int
    var luxGoal: int
    var pressure: int
    var manualOverride: bool
    var manualStatus: bool
    var previous: map<int, Level>
    var lastPublish: int
    var lastFetch: int

    function Snapshot(): State
      reads this
    {
      State(temperature, temperatureGoal, lux, brightness, luxGoal, pressure,
            manualOverride, manualStatus, previous, lastPublish, lastFetch)
    }

    ghost predicate Valid()
      reads this
    {
      Tracked(Snapshot())
    }

    /** Module start-up: defaults, the initial fetch, LED_BRIGHTNESS = 100, both timers at `now`. */
    constructor (initial: Response, now: int)
      ensures Valid()
      ensures Snapshot() == Initial(initial, now)
    {
      temperature, temperatureGoal, lux, brightness, luxGoal, pressure := 2000, 2500, 100, 50, 200, 1013;
      manualOverride, manualStatus := false, false;
      previous := map[DecPin := High, IncPin := High, TogglePin := High];
      lastPublish, lastFetch := now, now;
      new;
      FetchLastEntry(initial);
      brightness := 100;
    }

    /** fetch_last_entry: overwrite the globals from the fields present in the entry. */
    method FetchLastEntry(r: Response)
      modifies this
      ensures Snapshot() == Fetch(old(Snapshot()), r)
    {
      if !Accepted(r) {
        return;
      }
      var d := r.body;
      var v := Convert(d, "field1", temperature);
      if v.None? { return; }
      temperature := v.value;
      v := Convert(d, "field2", temperatureGoal);
      if v.None? { return; }
      temperatureGoal := v.value;
      v := Convert(d, "field3", lux);
      if v.None? { return; }
      lux := v.value;
      v := Convert(d, "field4", brightness);
      if v.None? { return; }
      brightness := v.value;
      v := Convert(d, "field5", luxGoal);
      if v.None? { return; }
      luxGoal := v.value;
      v := Convert(d, "field6", pressure);
      if v.None? { return; }
      pressure := v.value;
    }

    /** send_data_to_thingspeak: publish the current globals; reconnect on failure. */
    method SendData(ok: bool) returns (sent: seq<Event>)
      ensures sent == PublishEvents(Fields(Snapshot()), ok)
    {
      var payload := Fields(Snapshot());
      sent := [Publish(payload)];
      if !ok {
        sent := sent + [Reconnect];
      }
    }

    /** The branch of the loop body taken on a falling edge of `pin`. */
    method HandlePress(pin: int, ok: bool) returns (events: seq<Event>)
      modifies this
      ensures After(Snapshot(), events) == Press(old(Snapshot()), pin, ok)
    {
      events := [];
      if pin == DecPin {
        luxGoal := Max(0, luxGoal - BrightnessStep);
        events := SendData(ok);
      } else if pin == IncPin {
        luxGoal := Min(LuxGoalMax, luxGoal + BrightnessStep);
        events := SendData(ok);
      } else if pin == TogglePin {
        manualStatus := !manualStatus;
        if manualStatus {
          manualOverride := false;
          events := [Pwm(brightness)];
        } else {
          manualOverride := true;
          events := [Pwm(0)];
        }
      }
    }

    /** The body of the `for pin` loop for one pin. */
    method OnButton(pin: int, current: Level, ok: bool) returns (events: seq<Event>)
      requires Valid() && pin in previous
      modifies this
      ensures Valid()
      ensures After(Snapshot(), events) == OnPin(old(Snapshot()), pin, current, ok)
    {
      events := [];
      if current == Low && previous[pin] == High {
        events := HandlePress(pin, ok);
      }
      previous := previous[pin := current];
    }

    /** The `for pin in [...]` loop over the buttons, in `Pins` order. */
    method PollButtons(levels: seq<Level>, ok: bool) returns (events: seq<Event>)
      requires Valid() && |levels| == |Pins|
      modifies this
      ensures Valid()
      ensures After(Snapshot(), events) == Poll(old(Snapshot()), levels, |Pins|, ok)
    {
      ghost var s0 := Snapshot();
      events := [];
      for i := 0 to |Pins|
        invariant Valid()
        invariant After(Snapshot(), events) == Poll(s0, levels, i, ok)
      {
        var sent := OnButton(Pins[i], levels[i], ok);
        events := events + sent;
      }
    }

    /** The fetch block of the loop, gated by FetchPeriod. */
    method FetchIfDue(now: int, r: Response) returns (events: seq<Event>)
      modifies this
      ensures After(Snapshot(), events) == FetchPhase(old(Snapshot()), now, r)
    {
      events := [];
      if now - lastFetch >= FetchPeriod {
        FetchLastEntry(r);
        if !manualOverride {
          brightness := luxGoal;
          events := [Pwm(brightness)];
        }
        lastFetch := now;
      }
    }

    /** The sample-and-publish block of the loop, gated by Interval. */
    method SampleIfDue(now: int, climate: Climate, reading: int, ok: bool) returns (events: seq<Event>)
      modifies this
      ensures After(Snapshot(), events) == SamplePhase(old(Snapshot()), now, climate, reading, ok)
    {
      events := [];
      if now - lastPublish >= Interval {
        temperature := climate.temperature;
        pressure := climate.pressure;
        lux := reading;
        if !manualOverride {
          if lux < DarkLux {
            events := [Pwm(brightness)];
          } else {
            events := [Pwm(0)];
          }
        }
        var sent := SendData(ok);
        events := events + sent;
        lastPublish := now;
      }
    }

    /** One iteration of the `while True` loop. */
    method Tick(inp: Inputs) returns (events: seq<Event>)
      requires Valid() && WellFormed(inp)
      modifies this
      ensures Valid()
      ensures After(Snapshot(), events) == Step(old(Snapshot()), inp)
    {
      ghost var s0 := Snapshot();
      var polled := PollButtons(inp.levels, inp.publishOk);
      ghost var p := After(Snapshot(), polled);
      var fetched := FetchIfDue(inp.now, inp.response);
      ghost var f := After(Snapshot(), fetched);
      var sampled := SampleIfDue(inp.now, inp.climate, inp.lux, inp.publishOk);
      ghost var m := After(Snapshot(), sampled);
      events := polled + fetched + sampled;
      StepComposes(s0, inp, p, f, m);
    }
  }
}
