/**
 * Vocabulary shared by every variant of the control loop: pin levels and
 * press edges, the outputs a tick emits (LED writes, publishes, pushes,
 * console notices), the shape of a fetched ThingSpeak entry, and the
 * interval gate used by the publish and fetch timers.
 */
module Common {

  datatype Option<T> = None | Some(value: T)

  /** A digital pin level; buttons are pulled up, so a pressed button reads Low. */
  datatype Level = Low | High

  /** A press fires only on a High -> Low transition of one pin. */
  predicate Pressed(previous: Level, current: Level)
  {
    previous == High && current == Low
  }

  /** Console messages whose repetition the source suppresses with flags. */
  datatype NoticeKind = LedOut | LedAtMaximum

  /**
   * One externally visible effect of a tick, in the order the loop issues it:
   *  - Pwm: a softPwmWrite of the LED pin,
   *  - Digital: a digitalWrite of the LED pin (true = HIGH),
   *  - Publish: an MQTT publish of a field-set; the bytes on the wire are
   *    Payload.Payload(fields), whose decoding gives the fields back,
   *  - Reconnect: the client.reconnect() issued after a failed publish,
   *  - Push: an HTTP update of one ThingSpeak field,
   *  - Notice: a one-shot console message,
   *  - Sleep: the sample-period sleep of the blocking variant.
   */
  datatype Event =
    | Pwm(duty: int)
    | Digital(on: bool)
    | Publish(fields: seq<(string, int)>)
    | Reconnect
    | Push(field: string, value: int)
    | Notice(kind: NoticeKind)
    | Sleep(seconds: int)

  /** The integer readings int(bmp280.get_temperature()) and int(bmp280.get_pressure()). */
  datatype Climate = Climate(temperature: int, pressure: int)

  /**
   * A value of the fetched JSON entry: either one that int(float(v)) converts
   * to an integer, or one on which that conversion raises (null, text).
   */
  datatype Value = Num(n: int) | Malformed

  /**
   * The outcome of requests.get on a feeds/last.json URL: a reply with its
   * status code and decoded body, or no reply at all (the request or the JSON
   * decoding raised).
   */
  datatype Response = Reply(status: int, body: map<string, Value>) | NoReply

  /** The response is an HTTP 200 whose body the loop goes on to read. */
  predicate Accepted(r: Response)
  {
    r.Reply? && r.status == 200
  }

  /**
   * int(float(data.get(key, current))): None when the conversion raises,
   * otherwise the fetched number, or `current` when the key is absent.
   */
  function Convert(body: map<string, Value>, key: string, current: int): (r: Option<int>)
    ensures r.None? <==> key in body && body[key].Malformed?
    ensures key !in body ==> r == Some(current)
    ensures key in body && body[key].Num? ==> r == Some(body[key].n)
  {
    if key !in body then Some(current)
    else match body[key]
      case Num(n) => Some(n)
      case Malformed => None
  }

  /**
   * fetch_temperature_goal: field4 of a 200 reply when it is present and
   * converts; the current goal when the reply is not a 200, when field4 is
   * absent, and when the request or the conversion raised.
   */
  function FetchTemperatureGoal(r: Response, current: int): (goal: int)
    ensures Accepted(r) && "field4" in r.body && r.body["field4"].Num? ==> goal == r.body["field4"].n
    ensures !(Accepted(r) && "field4" in r.body && r.body["field4"].Num?) ==> goal == current
  {
    if !Accepted(r) then current
    else match Convert(r.body, "field4", current)
      case None => current
      case Some(g) => g
  }

  /** A timer fires once at least `period` has elapsed since it last fired. */
  predicate Due(now: int, last: int, period: int)
  {
    now - last >= period
  }

  /**
   * The events of one publish attempt: the publish itself and, when the
   * transport raised OSError, the reconnect that follows it.
   */
  function PublishEvents(fields: seq<(string, int)>, ok: bool): (r: seq<Event>)
    ensures |r| == (if ok then 1 else 2) && r[0] == Publish(fields)
    ensures !ok ==> r[1] == Reconnect
  {
    [Publish(fields)] + (if ok then [] else [Reconnect])
  }

  function Max(a: int, b: int): int { if a < b then b else a }

  function Min(a: int, b: int): int { if a < b then a else b }

  /**
   * int((goal / 1000) * 100): a lux goal scaled to the 0..100 PWM range,
   * truncated toward zero as Python's int() does.
   */
  function ScaleToPwm(goal: int): (r: int)
    ensures 0 <= goal ==> 0 <= r && r * 10 <= goal < r * 10 + 10
    ensures goal < 0 ==> r <= 0 && -r * 10 <= -goal < -r * 10 + 10
  {
    if goal >= 0 then goal / 10 else -((-goal) / 10)
  }

  /** int((brightness / 100) * 1000): a PWM brightness scaled to lux-goal units. */
  function ScaleToLux(brightness: int): (r: int)
    ensures ScaleToPwm(r) == brightness
  {
    brightness * 10
  }
}
