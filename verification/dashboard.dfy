/** The dashboard's routes that hold state, as one transition function over an explicit
    state record. The configuration, the clock readings and the sensor's answer are
    parameters; each request yields the new state and the reply. */
module Dashboard {
  import opened Common
  import Json
  import Guards
  import EventLog
  import TelemetryCache
  import Saver
  import Led
  import Coordinates

  /** A configured peripheral driver. The routes modelled here only check that one is
      configured and hand it to the handler; what the driver does is outside the model,
      so a driver carries no data here. */
  datatype Device = Driver

  type Config = map<string, Device>

  /** All the mutable state behind the routes: the event log, the cached sample, the saver
      flag, the message shown on the LED display and the cached GPS coordinates. */
  datatype State = State(
    events: EventLog.Log,
    cache: TelemetryCache.Cache,
    saving: bool,
    led: Led.Display,
    gps: Coordinates.Gps)

  const Initial := State([], None, false, None, None)

  /** The state every reachable state satisfies. */
  ghost predicate Valid(st: State) {
    EventLog.Contiguous(st.events) && Led.WellFormed(st.led)
  }

  /** The world a request sees: the clock when it starts, the clock after a sensor read,
      and what the sensor would answer (`None`: `read()` raises). */
  datatype Env = Env(now: real, readTime: real, reading: Option<TelemetryCache.Reading>)

  /** The `start` query argument of `GET /events`: absent (defaults to 0), an integer, or
      text `int()` rejects. */
  datatype Cursor = Absent | Given(n: int) | Malformed

  /** The requests handled. A JSON body is `None` when the request is not JSON. */
  datatype Request =
    | GetEvents(start: Cursor)
    | AddEvent(json: Option<Json.Value>)
    | RemoveEvents
    | GetTempHumidity
    | SaveTempHumidity
    | StopSaveTempHumidity
    | PutLed(json: Option<Json.Value>)
    | DeleteLed
    | GetLed
    | PutCoordinates(json: Option<Json.Value>)
    | GetCoordinates

  const SensorKey := "temp_humidity"
  const LedKey := "led_display"

  const EventAdded := Response(200, Text("event added"))
  /** The source returns this whole string as the body, with the default status 200. */
  const EventsRemoved := Response(200, Text("events removed, 200"))

  function EventsJson(log: EventLog.Log): Json.Value {
    Json.Arr(seq(|log|, i requires 0 <= i < |log| => Json.Obj(EventLog.AsObject(log[i]))))
  }

  function SampleJson(s: TelemetryCache.Sample, saving: bool): Json.Value {
    Json.Obj(map[
      "temperature" := Json.Num(s.temperature),
      "humidity" := Json.Num(s.humidity),
      "time" := Json.Num(s.time),
      "saving" := Json.Bool(saving)])
  }

  function ListEvents(st: State, start: Cursor): Response {
    match start
    case Malformed => InternalServerError
    case Absent => Response(200, Data(EventsJson(EventLog.Query(st.events, 0))))
    case Given(n) => Response(200, Data(EventsJson(EventLog.Query(st.events, n))))
  }

  function StoreEvent(body: Json.Value, st: State, now: real): (State, Response) {
    if !body.Obj? then (st, InternalServerError)
    else (st.(events := EventLog.Append(st.events, body.fields, now)), EventAdded)
  }

  function ReadSensor(st: State, env: Env): (State, Response) {
    var f := TelemetryCache.Get(st.cache, env.now, env.readTime, env.reading);
    if f.result.None? then (st.(cache := f.cache), InternalServerError)
    else (st.(cache := f.cache), Response(200, Data(SampleJson(f.result.value, st.saving))))
  }

  function StartSaver(st: State): (State, Response) {
    var t := Saver.Start(st.saving);
    (st.(saving := t.saving), t.response)
  }

  function StopSaver(st: State): (State, Response) {
    var t := Saver.Stop(st.saving);
    (st.(saving := t.saving), t.response)
  }

  function ReplaceLed(body: Json.Value, st: State): (State, Response) {
    var r := Led.Replace(st.led, body);
    (st.(led := r.0), r.1)
  }

  function PutGps(body: Json.Value, st: State): (State, Response) {
    var u := Coordinates.Put(st.gps, body);
    (st.(gps := u.gps), u.response)
  }

  /** One request. */
  function Handle(config: Config, st: State, req: Request, env: Env): (r: (State, Response))
    ensures r.1.status in {200, 201, 400, 404, 409, 500}
    ensures r.1.status == 201 ==> req.SaveTempHumidity? && !st.saving && r.0.saving
    ensures r.1.status == 409 ==> req.PutLed? && r.0 == st
  {
    match req
    case GetEvents(start) => (st, ListEvents(st, start))
    case AddEvent(json) =>
      Guards.WithJsonRequest(json, st, (body, s) => StoreEvent(body, s, env.now))
    case RemoveEvents => (st.(events := EventLog.Clear(st.events)), EventsRemoved)
    case GetTempHumidity =>
      Guards.WithConfig(config, SensorKey, st, (_, s) => ReadSensor(s, env))
    case SaveTempHumidity =>
      Guards.WithConfig(config, SensorKey, st, (_, s) => StartSaver(s))
    case StopSaveTempHumidity =>
      Guards.WithConfig(config, SensorKey, st, (_, s) => StopSaver(s))
    case PutLed(json) =>
      Guards.WithConfig(config, LedKey, st,
        (_, s) => Guards.WithJsonRequest(json, s, (body, s') => ReplaceLed(body, s')))
    case DeleteLed =>
      Guards.WithConfig(config, LedKey, st, (_, s: State) => (s.(led := Led.Remove(s.led).0), Led.MessageRemoved))
    case GetLed =>
      Guards.WithConfig(config, LedKey, st, (_, s: State) => (s, Led.Current(s.led)))
    case PutCoordinates(json) =>
      Guards.WithJsonRequest(json, st, (body, s) => PutGps(body, s))
    case GetCoordinates => (st, Coordinates.Current(st.gps))
  }

  /** Every request keeps a valid state valid: the event indices stay contiguous and the
      LED message keeps its `id`. */
  lemma HandleKeepsValid(config: Config, st: State, req: Request, env: Env)
    requires Valid(st)
    ensures Valid(Handle(config, st, req, env).0)
  {
  }

  /** Each request changes only its own part of the state: the event routes only the log
      (and listing not even that), the sensor route only the cache, the saver routes only
      the flag, the LED routes only the message, the coordinate routes only the GPS fix. */
  lemma HandleTouchesOnlyItsPart(config: Config, st: State, req: Request, env: Env)
    ensures var st' := Handle(config, st, req, env).0;
      && (req.GetEvents? || req.GetLed? || req.GetCoordinates? ==> st' == st)
      && (req.AddEvent? || req.RemoveEvents? ==> st'.(events := st.events) == st)
      && (req.GetTempHumidity? ==> st'.(cache := st.cache) == st)
      && (req.SaveTempHumidity? || req.StopSaveTempHumidity? ==> st'.(saving := st.saving) == st)
      && (req.PutLed? || req.DeleteLed? ==> st'.(led := st.led) == st)
      && (req.PutCoordinates? ==> st'.(gps := st.gps) == st)
  {
  }

  /** The saver routes answer 404 exactly when no sensor is configured; then the flag is
      left alone. */
  lemma SaverRoutesNeedSensor(config: Config, st: State, env: Env)
    ensures Handle(config, st, SaveTempHumidity, env).1.status == 404 <==> SensorKey !in config
    ensures Handle(config, st, StopSaveTempHumidity, env).1.status == 404 <==> SensorKey !in config
    ensures SensorKey !in config ==> Handle(config, st, SaveTempHumidity, env).0 == st
    ensures SensorKey !in config ==> Handle(config, st, StopSaveTempHumidity, env).0 == st
  {
  }

  /** `GET /events?start=n` on a valid state lists the events from position n on, and
      nothing once n is past the last index. */
  lemma ListEventsIsTail(config: Config, st: State, n: int, env: Env)
    requires Valid(st)
    ensures 0 <= n <= |st.events| ==>
              Handle(config, st, GetEvents(Given(n)), env).1 == Response(200, Data(EventsJson(st.events[n..])))
    ensures n >= |st.events| ==>
              Handle(config, st, GetEvents(Given(n)), env).1 == Response(200, Data(Json.Arr([])))
  {
    EventLog.QueryIsSuffix(st.events, n);
    if n >= |st.events| {
      assert |EventsJson(EventLog.Query(st.events, n)).items| == 0;
    }
  }

  /** The reply of `GET /temp_humidity` carries the sample the cache served together with
      the current saver flag. */
  lemma TempHumidityReportsFlag(config: Config, st: State, env: Env)
    requires SensorKey in config
    requires TelemetryCache.Get(st.cache, env.now, env.readTime, env.reading).result.Some?
    ensures var r := Handle(config, st, GetTempHumidity, env).1;
      && r.status == 200
      && r.body == Data(SampleJson(
           TelemetryCache.Get(st.cache, env.now, env.readTime, env.reading).result.value, st.saving))
  {
  }

  /** The state after a run of requests, each with its own environment. */
  function Run(config: Config, st: State, reqs: seq<(Request, Env)>): State
    decreases |reqs|
  {
    if |reqs| == 0 then st
    else Run(config, Handle(config, st, reqs[0].0, reqs[0].1).0, reqs[1..])
  }

  /** Every state reachable from the initial one is valid. */
  lemma {:induction false} RunKeepsValid(config: Config, st: State, reqs: seq<(Request, Env)>)
    requires Valid(st)
    ensures Valid(Run(config, st, reqs))
    decreases |reqs|
  {
    if |reqs| > 0 {
      HandleKeepsValid(config, st, reqs[0].0, reqs[0].1);
      RunKeepsValid(config, Handle(config, st, reqs[0].0, reqs[0].1).0, reqs[1..]);
    }
  }

  lemma InitialIsValid()
    ensures Valid(Initial)
  {
  }
}
