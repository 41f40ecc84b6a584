/**
 * t2.py: the blocking sensor loop. Each iteration samples the climate and
 * the light, replaces TEMPERATURE_GOAL with the fetched field4 (or keeps it),
 * switches the LED on exactly when the light is below LUX_GOAL, publishes
 * the six fields, and then sleeps for `interval` seconds, unless the
 * publish raised, in which case it reconnects and loops at once.
 */
module T2 {
  import opened Common
  import Payload

  const Interval := 15      // sample period: the sleep after a publish
  const LuxGoal := 100      // LUX_GOAL, never reassigned

  /** The one global the loop reassigns. */
  datatype State = State(temperatureGoal: int)   // TEMPERATURE_GOAL, field4

  /** A state after an iteration, with the events issued in it. */
  datatype After = After(st: State, out: seq<Event>)

  /** What one iteration observes: the readings, the field4 fetch response, the publish outcome. */
  datatype Inputs = Inputs(
    climate: Climate,
    lux: int,
    response: Response,
    publishOk: bool)

  /** The value the goal has before the first iteration. */
  function Defaults(): State
  {
    State(25)
  }

  /** The payload fields: the readings, both goals and field6 = led_status. */
  function Fields(s: State, climate: Climate, lux: int, ledStatus: int): seq<(string, int)>
  {
    [("field1", climate.temperature), ("field2", climate.pressure), ("field3", lux),
     ("field4", s.temperatureGoal), ("field5", LuxGoal), ("field6", ledStatus)]
  }

  function PayloadOf(s: State, climate: Climate, lux: int, ledStatus: int): string
  {
    Payload.Payload(Fields(s, climate, lux, ledStatus))
  }

  /**
   * One iteration: fetch the goal, drive the LED from lux < LUX_GOAL,
   * publish, then sleep on success or reconnect on failure.
   */
  function Step(s: State, inp: Inputs): After
  {
    var t := State(FetchTemperatureGoal(inp.response, s.temperatureGoal));
    var on := inp.lux < LuxGoal;
    var status := if on then 1 else 0;
    var published := PublishEvents(Fields(t, inp.climate, inp.lux, status), inp.publishOk);
    After(t, [Digital(on)] + published + (if inp.publishOk then [Sleep(Interval)] else []))
  }

  /** Successive iterations, the last one applied last. */
  function Run(s: State, inputs: seq<Inputs>): After
    decreases |inputs|
  {
    if inputs == [] then After(s, [])
    else
      var p := Run(s, inputs[..|inputs| - 1]);
      var a := Step(p.st, inputs[|inputs| - 1]);
      After(a.st, p.out + a.out)
  }

  // ---------------------------------------------------------------------------
  // Properties

  /** A response carrying a usable field4. */
  predicate CarriesGoal(r: Response)
  {
    Accepted(r) && "field4" in r.body && r.body["field4"].Num?
  }

  /**
   * The reference definition: the field4 of the most recent response that
   * carried one, or the starting goal when none did.
   */
  function LastFetchedGoal(initial: int, inputs: seq<Inputs>): int
    decreases |inputs|
  {
    if inputs == [] then initial
    else
      var r := inputs[|inputs| - 1].response;
      if CarriesGoal(r) then r.body["field4"].n else LastFetchedGoal(initial, inputs[..|inputs| - 1])
  }

  /**
   * After any run the goal is the last value fetched successfully; a failed
   * or field-less fetch keeps the previous iteration's goal, not the default.
   */
  lemma {:induction false} GoalIsLastFetched(s: State, inputs: seq<Inputs>)
    ensures Run(s, inputs).st.temperatureGoal == LastFetchedGoal(s.temperatureGoal, inputs)
    decreases |inputs|
  {
    if inputs != [] {
      GoalIsLastFetched(s, inputs[..|inputs| - 1]);
    }
  }

  /**
   * The LED is driven HIGH exactly when lux < 100, and the payload reports
   * led_status = 1 exactly then, with the goal just fetched.
   */
  lemma LedStatusFollowsLux(s: State, inp: Inputs)
    ensures var a := Step(s, inp);
      && a.out[0] == Digital(inp.lux < 100)
      && a.out[1] == Publish(Fields(a.st, inp.climate, inp.lux, if inp.lux < 100 then 1 else 0))
  {
  }

  /** A successful publish is followed by the sleep; a failed one by a reconnect and no sleep. */
  lemma FailedPublishSkipsSleep(s: State, inp: Inputs)
    ensures var a := Step(s, inp);
      && (Sleep(Interval) in a.out <==> inp.publishOk)
      && (Reconnect in a.out <==> !inp.publishOk)
      && |a.out| == 3
  {
    var a := Step(s, inp);
    if inp.publishOk {
      assert a.out == [Digital(inp.lux < LuxGoal), a.out[1], Sleep(Interval)];
    } else {
      assert a.out == [Digital(inp.lux < LuxGoal), a.out[1], Reconnect];
    }
  }

  lemma FieldsValid(s: State, climate: Climate, lux: int, ledStatus: int)
    ensures Payload.ValidKeys(Fields(s, climate, lux, ledStatus))
  {
  }

  /** The payload carries the readings, both goals and led_status, in field order. */
  lemma PayloadCarriesSixFields(s: State, climate: Climate, lux: int, ledStatus: int)
    ensures Payload.Decode(PayloadOf(s, climate, lux, ledStatus)) == Some(
      [("field1", climate.temperature), ("field2", climate.pressure), ("field3", lux),
       ("field4", s.temperatureGoal), ("field5", 100), ("field6", ledStatus)])
  {
    FieldsValid(s, climate, lux, ledStatus);
    Payload.PayloadRoundTrip(Fields(s, climate, lux, ledStatus));
  }

  // ---------------------------------------------------------------------------
  // The loop as the script runs it

  class Controller {
    var temperatureGoal: int

    function Snapshot(): State
      reads this
    {
      State(temperatureGoal)
    }

    /** Module start-up: TEMPERATURE_GOAL = 25. */
    constructor ()
      ensures Snapshot() == Defaults()
    {
      temperatureGoal := 25;
    }

    /** fetch_temperature_goal followed by the reassignment of the global. */
    method FetchGoal(r: Response)
      modifies this
      ensures temperatureGoal == FetchTemperatureGoal(r, old(temperatureGoal))
    {
      if !Accepted(r) {
        return;
      }
      var v := Convert(r.body, "field4", temperatureGoal);
      if v.Some? {
        temperatureGoal := v.value;
      }
    }

    /** One iteration of the `while True` loop. */
    method Iterate(inp: Inputs) returns (events: seq<Event>)
      modifies this
      ensures After(Snapshot(), events) == Step(old(Snapshot()), inp)
    {
      FetchGoal(inp.response);
      var ledStatus := 0;
      if inp.lux < LuxGoal {
        events := [Digital(true)];
        ledStatus := 1;
      } else {
        events := [Digital(false)];
      }
      var data := Fields(Snapshot(), inp.climate, inp.lux, ledStatus);
      events := events + [Publish(data)];
      if inp.publishOk {
        events := events + [Sleep(Interval)];
      } else {
        events := events + [Reconnect];
      }
    }
  }
}
