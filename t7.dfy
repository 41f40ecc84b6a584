/**
 * t7.py: the two-button brightness controller. Each press steps the PWM
 * brightness by 20 within [0, 100], rescales LUX_GOAL to match, pushes the
 * new goal to field5 and writes the brightness to the LED. Two console
 * notices ("LED is out", "LED is at maximum") are shown once each until the
 * brightness leaves that extreme. Every `interval` seconds the readings are
 * published.
 */
module T7 {
  import opened Common
  import Payload
  import Light

  const DecPin := 3
  const IncPin := 4
  /** The order in which the loop polls the buttons. */
  const Pins: seq<int> := [DecPin, IncPin]

  const Interval := 15          // publish period
  const BrightnessStep := 20    // PWM step of one press
  const GoalField := "field5"   // the field update_lux_goal writes

  /** The module globals the loop reads and writes. */
  datatype State = State(
    luxGoal: int,             // LUX_GOAL, field5
    brightness: int,          // led_brightness, field6
    outShown: bool,           // led_out_message_shown
    maxShown: bool,           // led_max_message_shown
    previous: map<int, Level>,  // previous_button_state
    lastPublish: int)

  /** A state after some phase of a tick, with the events issued in it. */
  datatype After = After(st: State, out: seq<Event>)

  /**
   * What one iteration of the loop observes: the level of each polled pin in
   * `Pins` order, the clock, and the readings consulted when the publish is
   * due (the light read is None when it raised).
   */
  datatype Inputs = Inputs(
    levels: seq<Level>,
    now: int,
    climate: Climate,
    lightRead: Option<int>,
    publishOk: bool)

  predicate Tracked(s: State)
  {
    s.previous.Keys == {DecPin, IncPin}
  }

  predicate WellFormed(inp: Inputs)
  {
    |inp.levels| == |Pins|
  }

  /** The values the script starts from, before the initial fetch: the LED off. */
  function Defaults(now: int): (s: State)
    ensures Tracked(s)
  {
    State(0, 0, false, false, map[DecPin := High, IncPin := High], now)
  }

  // ---------------------------------------------------------------------------
  // fetch_last_entry

  /**
   * LUX_GOAL from field5 (kept when absent), the brightness rescaled from it
   * and written to the LED. A failed request, a non-200 reply or a field5
   * that does not convert leaves everything as it was.
   */
  function Fetch(s: State, r: Response): After
  {
    if !Accepted(r) then After(s, [])
    else match Convert(r.body, GoalField, s.luxGoal)
      case None => After(s, [])
      case Some(goal) =>
        var b := ScaleToPwm(goal);
        After(s.(luxGoal := goal, brightness := b), [Pwm(b)])
  }

  // ---------------------------------------------------------------------------
  // The button phase

  /**
   * The adjustment a press makes before the LED write: a step that moves the
   * brightness rescales the goal, pushes it and clears both notice flags;
   * decrement at 0 and increment at 100 or above change nothing.
   */
  function Adjust(s: State, pin: int): After
  {
    if pin == DecPin then
      if s.brightness == 0 then After(s, [])
      else
        var b := Max(0, s.brightness - BrightnessStep);
        var goal := ScaleToLux(b);
        After(s.(brightness := b, luxGoal := goal, outShown := false, maxShown := false),
              [Push(GoalField, goal)])
    else if pin == IncPin then
      if s.brightness < 100 then
        var b := Min(100, s.brightness + BrightnessStep);
        var goal := ScaleToLux(b);
        After(s.(brightness := b, luxGoal := goal, outShown := false, maxShown := false),
              [Push(GoalField, goal)])
      else After(s, [])
    else After(s, [])
  }

  /** A press: the adjustment, then the brightness written to the LED whatever happened. */
  function Press(s: State, pin: int): (a: After)
    ensures a.st.previous == s.previous
  {
    var d := Adjust(s, pin);
    After(d.st, d.out + [Pwm(d.st.brightness)])
  }

  /**
   * One pass of the `for pin` loop body: act on a falling edge, then record
   * the read. Every variant's loop has this shape; only Press differs.
   */
  function OnPin(s: State, pin: int, current: Level): (a: After)
    requires Tracked(s) && pin in s.previous
    ensures Tracked(a.st)
  {
    var p := if Pressed(s.previous[pin], current) then Press(s, pin) else After(s, []);
    After(p.st.(previous := p.st.previous[pin := current]), p.out)
  }

  /** The first `n` passes of the button loop. */
  function Poll(s: State, levels: seq<Level>, n: nat): (a: After)
    requires Tracked(s) && n <= |Pins| == |levels|
    ensures Tracked(a.st)
  {
    if n == 0 then After(s, [])
    else
      var p := Poll(s, levels, n - 1);
      var o := OnPin(p.st, Pins[n - 1], levels[n - 1]);
      After(o.st, p.out + o.out)
  }

  // ---------------------------------------------------------------------------
  // Notices and publishing

  /**
   * The LED-state check: "out" once while brightness and goal are both 0,
   * "maximum" once while brightness is 100, and both flags cleared otherwise.
   */
  function NoticePhase(s: State): After
  {
    if s.brightness == 0 && s.luxGoal == 0 then
      if !s.outShown then After(s.(outShown := true), [Notice(LedOut)]) else After(s, [])
    else if s.brightness == 100 then
      if !s.maxShown then After(s.(maxShown := true), [Notice(LedAtMaximum)]) else After(s, [])
    else After(s.(outShown := false, maxShown := false), [])
  }

  /** The payload fields: field4 is always 0 and field6 is the brightness itself. */
  function Fields(s: State, climate: Climate, lux: int): seq<(string, int)>
  {
    [("field1", climate.temperature), ("field2", climate.pressure), ("field3", lux),
     ("field4", 0), ("field5", s.luxGoal), ("field6", s.brightness)]
  }

  function PayloadOf(s: State, climate: Climate, lux: int): string
  {
    Payload.Payload(Fields(s, climate, lux))
  }

  /** Every Interval: read the sensors (light read-or-zero), publish, reset the timer. */
  function PublishPhase(s: State, now: int, climate: Climate, lightRead: Option<int>, ok: bool): After
  {
    if !Due(now, s.lastPublish, Interval) then After(s, [])
    else
      var lux := Light.ReadOrZero(lightRead);
      After(s.(lastPublish := now), PublishEvents(Fields(s, climate, lux), ok))
  }

  /** One iteration of the main loop: poll, notices, publish. */
  function Step(s: State, inp: Inputs): (a: After)
    requires Tracked(s) && WellFormed(inp)
    ensures Tracked(a.st)
  {
    var p := Poll(s, inp.levels, |Pins|);
    var n := NoticePhase(p.st);
    var m := PublishPhase(n.st, inp.now, inp.climate, inp.lightRead, inp.publishOk);
    After(m.st, p.out + n.out + m.out)
  }

  // ---------------------------------------------------------------------------
  // Edge detection in the button loop (the same lemmas as in the other variants)

  lemma OnPinRecordsRead(s: State, pin: int, current: Level)
    requires Tracked(s) && pin in s.previous
    ensures OnPin(s, pin, current).st.previous == s.previous[pin := current]
  {
  }

  /** Each pass records its pin's read; the pins not yet polled keep their recorded level. */
  lemma {:induction false} PollRecordsEveryRead(s: State, levels: seq<Level>, n: nat)
    requires Tracked(s) && n <= |Pins| == |levels|
    ensures forall k :: 0 <= k < n ==> Poll(s, levels, n).st.previous[Pins[k]] == levels[k]
    ensures forall k :: n <= k < |Pins| ==> Poll(s, levels, n).st.previous[Pins[k]] == s.previous[Pins[k]]
  {
    if n > 0 {
      PollRecordsEveryRead(s, levels, n - 1);
      OnPinRecordsRead(Poll(s, levels, n - 1).st, Pins[n - 1], levels[n - 1]);
    }
  }

  /** No read of this iteration is a falling edge from its pin's recorded level. */
  predicate NoEdges(s: State, levels: seq<Level>)
    requires Tracked(s) && |levels| == |Pins|
  {
    forall k :: 0 <= k < |Pins| ==> !Pressed(s.previous[Pins[k]], levels[k])
  }

  lemma OnPinWithoutEdge(s: State, pin: int, current: Level)
    requires Tracked(s) && pin in s.previous
    requires !Pressed(s.previous[pin], current)
    ensures OnPin(s, pin, current) == After(s.(previous := s.previous[pin := current]), [])
  {
  }

  /** Without a falling edge the button loop issues nothing and only records the reads. */
  lemma NoEdgeNoEffect(s: State, levels: seq<Level>)
    requires Tracked(s) && |levels| == |Pins|
    requires NoEdges(s, levels)
    ensures Poll(s, levels, |Pins|)
      == After(s.(previous := s.previous[DecPin := levels[0]][IncPin := levels[1]]), [])
  {
    var s1 := s.(previous := s.previous[DecPin := levels[0]]);
    OnPinWithoutEdge(s, DecPin, levels[0]);
    assert Poll(s, levels, 1) == After(s1, []);
    OnPinWithoutEdge(s1, IncPin, levels[1]);
  }

  // ---------------------------------------------------------------------------
  // Properties

  /**
   * The initial fetch: a convertible field5 sets the goal and the brightness
   * to its truncated tenth, written to the LED; without a usable reply the
   * LED stays off with goal 0.
   */
  lemma FetchScalesGoalToBrightness(s: State, r: Response)
    ensures var a := Fetch(s, r);
      if Accepted(r) && !(GoalField in r.body && r.body[GoalField].Malformed?) then
        var goal := if GoalField in r.body then r.body[GoalField].n else s.luxGoal;
        a.st == s.(luxGoal := goal, brightness := ScaleToPwm(goal))
        && a.out == [Pwm(ScaleToPwm(goal))]
      else a == After(s, [])
    ensures !Accepted(r) ==> Fetch(Defaults(s.lastPublish), r).st.brightness == 0
  {
  }

  /** Every press ends with the brightness written to the LED, whether or not it changed. */
  lemma EveryPressWritesLed(s: State, pin: int)
    ensures var a := Press(s, pin);
      |a.out| >= 1 && a.out[|a.out| - 1] == Pwm(a.st.brightness)
  {
  }

  /** Decrement at 0 and increment at 100 or above change no global and push nothing. */
  lemma PressAtLimitIsNoop(s: State, pin: int)
    requires (pin == DecPin && s.brightness == 0) || (pin == IncPin && s.brightness >= 100)
    ensures Press(s, pin) == After(s, [Pwm(s.brightness)])
  {
  }

  /**
   * A press that moves the brightness steps it by 20 within [0, 100], couples
   * the goal to it (goal = brightness * 10), pushes that goal to field5 before
   * the LED write and clears both notice flags.
   */
  lemma AdjustmentPushesGoal(s: State, pin: int)
    requires (pin == DecPin && s.brightness != 0) || (pin == IncPin && s.brightness < 100)
    ensures var a := Press(s, pin);
      && a.st.brightness == (if pin == DecPin then Max(0, s.brightness - 20) else Min(100, s.brightness + 20))
      && a.st.luxGoal == a.st.brightness * 10
      && ScaleToPwm(a.st.luxGoal) == a.st.brightness
      && a.out == [Push(GoalField, a.st.luxGoal), Pwm(a.st.brightness)]
      && !a.st.outShown && !a.st.maxShown
  {
  }

  predicate InRange(s: State)
  {
    0 <= s.brightness <= 100
  }

  lemma PressKeepsBrightnessInRange(s: State, pin: int)
    requires InRange(s)
    ensures InRange(Press(s, pin).st)
  {
  }

  /** Once within [0, 100] the brightness stays there through any button phase. */
  lemma {:induction false} PollKeepsBrightnessInRange(s: State, levels: seq<Level>, n: nat)
    requires Tracked(s) && n <= |Pins| == |levels|
    requires InRange(s)
    ensures InRange(Poll(s, levels, n).st)
  {
    if n > 0 {
      PollKeepsBrightnessInRange(s, levels, n - 1);
      var p := Poll(s, levels, n - 1).st;
      if Pressed(p.previous[Pins[n - 1]], levels[n - 1]) {
        PressKeepsBrightnessInRange(p, Pins[n - 1]);
      }
    }
  }

  /** Which notice the LED-state check shows, and when. */
  lemma NoticeConditions(s: State)
    ensures var a := NoticePhase(s);
      && (a.out == [Notice(LedOut)] <==> s.brightness == 0 && s.luxGoal == 0 && !s.outShown)
      && (a.out == [Notice(LedAtMaximum)] <==> !(s.brightness == 0 && s.luxGoal == 0) && s.brightness == 100 && !s.maxShown)
      && |a.out| <= 1
      && a.st == s.(outShown := a.st.outShown, maxShown := a.st.maxShown)
    ensures var a := NoticePhase(s);
      && (a.out == [Notice(LedOut)] ==> a.st.outShown)
      && (a.out == [Notice(LedAtMaximum)] ==> a.st.maxShown)
    ensures !(s.brightness == 0 && s.luxGoal == 0) && s.brightness != 100 ==>
      !NoticePhase(s).st.outShown && !NoticePhase(s).st.maxShown
  {
  }

  /** The check reaches a fixed point after one pass: a second pass shows nothing and changes nothing. */
  lemma NoticeSettles(s: State)
    ensures var a := NoticePhase(s);
      NoticePhase(a.st) == After(a.st, [])
  {
  }

  /** The LED-state check on `n` successive ticks over which nothing else changes. */
  function NoticeRun(s: State, n: nat): After
    decreases n
  {
    if n == 0 then After(s, [])
    else
      var a := NoticePhase(s);
      var rest := NoticeRun(a.st, n - 1);
      After(rest.st, a.out + rest.out)
  }

  lemma {:induction false} NoticeRunAtFixpoint(s: State, n: nat)
    requires NoticePhase(s) == After(s, [])
    ensures NoticeRun(s, n) == After(s, [])
    decreases n
  {
    if n > 0 {
      NoticeRunAtFixpoint(s, n - 1);
    }
  }

  /** However long the brightness stays put, each notice is shown at most once. */
  lemma NoticeShownAtMostOnce(s: State, n: nat)
    ensures |NoticeRun(s, n).out| <= 1
  {
    if n > 0 {
      var a := NoticePhase(s);
      NoticeSettles(s);
      NoticeRunAtFixpoint(a.st, n - 1);
      NoticeConditions(s);
    }
  }

  /**
   * The maximum notice comes back once the brightness has left 100 for a
   * middle value and returned, because the middle value clears both flags.
   */
  lemma MaximumNoticeReappears(s: State, middle: int)
    requires s.brightness == 100 && middle != 0 && middle != 100
    ensures var first := NoticePhase(s);
      var away := NoticePhase(first.st.(brightness := middle));
      var back := NoticePhase(away.st.(brightness := 100));
      && away.out == [] && back.out == [Notice(LedAtMaximum)] && back.st.maxShown
  {
  }

  lemma FieldsValid(s: State, climate: Climate, lux: int)
    ensures Payload.ValidKeys(Fields(s, climate, lux))
  {
  }

  /** The payload carries field1 .. field6 with field4 fixed at 0 and field6 the brightness. */
  lemma PayloadCarriesSixFields(s: State, climate: Climate, lux: int)
    ensures Payload.Decode(PayloadOf(s, climate, lux)) == Some(
      [("field1", climate.temperature), ("field2", climate.pressure), ("field3", lux),
       ("field4", 0), ("field5", s.luxGoal), ("field6", s.brightness)])
  {
    FieldsValid(s, climate, lux);
    Payload.PayloadRoundTrip(Fields(s, climate, lux));
  }

  /**
   * The publish fires exactly once Interval has elapsed, sends the readings
   * with the light read or 0, and changes only the timer.
   */
  lemma PublishGate(s: State, now: int, climate: Climate, lightRead: Option<int>, ok: bool)
    ensures var a := PublishPhase(s, now, climate, lightRead, ok);
      && a.st == s.(lastPublish := a.st.lastPublish)
      && a.st.lastPublish == (if Due(now, s.lastPublish, Interval) then now else s.lastPublish)
      && (Due(now, s.lastPublish, Interval) <==> a.out != [])
      && (Due(now, s.lastPublish, Interval) ==>
            a.out == PublishEvents(Fields(s, climate, Light.ReadOrZero(lightRead)), ok))
      && (Due(now, s.lastPublish, Interval) && lightRead == None ==>
            a.out[0] == Publish(Fields(s, climate, 0)))
  {
  }

  /**
   * A failed publish only adds a reconnect: the globals come out the same
   * either way (stated for every variant, as the publish is written alike).
   */
  lemma PublishFailureChangesNoState(s: State, inp: Inputs)
    requires Tracked(s) && WellFormed(inp)
    ensures Step(s, inp.(publishOk := false)).st == Step(s, inp.(publishOk := true)).st
  {
  }

  // ---------------------------------------------------------------------------
  // The loop as the script runs it: module globals updated in place

  class Controller {
    var luxGoal: int
    var brightness: int
    var outShown: bool
    var maxShown: bool
    var previous: map<int, Level>
    var lastPublish: int

    function Snapshot(): State
      reads this
    {
      State(luxGoal, brightness, outShown, maxShown, previous, lastPublish)
    }

    ghost predicate Valid()
      reads this
    {
      Tracked(Snapshot())
    }

    /** Module start-up up to the fetch: goal and brightness 0, both buttons High. */
    constructor (now: int)
      ensures Valid()
      ensures Snapshot() == Defaults(now)
    {
      luxGoal, brightness := 0, 0;
      outShown, maxShown := false, false;
      previous := map[DecPin := High, IncPin := High];
      lastPublish := now;
    }

    /** fetch_last_entry: the goal from field5, the brightness rescaled from it, written to the LED. */
    method FetchLastEntry(r: Response) returns (events: seq<Event>)
      modifies this
      ensures After(Snapshot(), events) == Fetch(old(Snapshot()), r)
    {
      events := [];
      if !Accepted(r) {
        return;
      }
      var v := Convert(r.body, GoalField, luxGoal);
      if v.None? {
        return;
      }
      luxGoal := v.value;
      brightness := ScaleToPwm(luxGoal);
      events := [Pwm(brightness)];
    }

    /** The body of the `for pin` loop for one pin. */
    method OnButton(pin: int, current: Level) returns (events: seq<Event>)
      requires Valid() && pin in previous
      modifies this
      ensures Valid()
      ensures After(Snapshot(), events) == OnPin(old(Snapshot()), pin, current)
    {
      events := [];
      if current == Low && previous[pin] == High {
        if pin == DecPin {
          if brightness != 0 {
            brightness := Max(0, brightness - BrightnessStep);
            luxGoal := ScaleToLux(brightness);
            events := [Push(GoalField, luxGoal)];
            outShown, maxShown := false, false;
          }
        } else if pin == IncPin {
          if brightness < 100 {
            brightness := Min(100, brightness + BrightnessStep);
            luxGoal := ScaleToLux(brightness);
            events := [Push(GoalField, luxGoal)];
            outShown, maxShown := false, false;
          }
        }
        events := events + [Pwm(brightness)];
      }
      previous := previous[pin := current];
    }

    /** The `for pin in [...]` loop over the buttons, in `Pins` order. */
    method PollButtons(levels: seq<Level>) returns (events: seq<Event>)
      requires Valid() && |levels| == |Pins|
      modifies this
      ensures Valid()
      ensures After(Snapshot(), events) == Poll(old(Snapshot()), levels, |Pins|)
    {
      ghost var s0 := Snapshot();
      events := [];
      for i := 0 to |Pins|
        invariant Valid()
        invariant After(Snapshot(), events) == Poll(s0, levels, i)
      {
        var issued := OnButton(Pins[i], levels[i]);
        events := events + issued;
      }
    }

    /** The LED-state check for logging. */
    method ShowNotices() returns (events: seq<Event>)
      modifies this
      ensures After(Snapshot(), events) == NoticePhase(old(Snapshot()))
    {
      events := [];
      if brightness == 0 && luxGoal == 0 {
        if !outShown {
          events := [Notice(LedOut)];
          outShown := true;
        }
      } else if brightness == 100 {
        if !maxShown {
          events := [Notice(LedAtMaximum)];
          maxShown := true;
        }
      } else {
        outShown, maxShown := false, false;
      }
    }

    /** The publish block, gated by Interval. */
    method PublishIfDue(now: int, climate: Climate, lightRead: Option<int>, ok: bool) returns (events: seq<Event>)
      modifies this
      ensures After(Snapshot(), events) == PublishPhase(old(Snapshot()), now, climate, lightRead, ok)
    {
      events := [];
      if now - lastPublish >= Interval {
        var lux := Light.ReadOrZero(lightRead);
        var data := Fields(Snapshot(), climate, lux);
        events := [Publish(data)];
        if !ok {
          events := events + [Reconnect];
        }
        lastPublish := now;
      }
    }

    /** One iteration of the `while True` loop. */
    method Tick(inp: Inputs) returns (events: seq<Event>)
      requires Valid() && WellFormed(inp)
      modifies this
      ensures Valid()
      ensures After(Snapshot(), events) == Step(old(Snapshot()), inp)
    {
      events := PollButtons(inp.levels);
      var notices := ShowNotices();
      var published := PublishIfDue(inp.now, inp.climate, inp.lightRead, inp.publishOk);
      events := events + notices + published;
    }
  }
}
