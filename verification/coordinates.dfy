/** The GPS coordinates kept in memory by the dashboard: `PUT /coordinates` stores the
    request's `coords` (and may ask for the system clock to be set), `GET /coordinates`
    returns them. Setting the clock and writing the coordinates file are effects outside
    the model; the clock request is returned as data. */
module Coordinates {
  import opened Common
  import Json

  /** The cached coordinates, `None` until a PUT has stored some. */
  type Gps = Option<Json.Value>

  const NoCoordinates := Response(404, Text("No coordinates set"))
  const Stored := Response(200, Text(""))

  /** `GET /coordinates`. */
  function Current(gps: Gps): (r: Response)
    ensures r.status == 404 <==> gps.None?
    ensures gps.None? ==> r == NoCoordinates
    ensures gps.Some? ==> r == Response(200, Data(gps.value))
  {
    if gps.None? then NoCoordinates else Response(200, Data(gps.value))
  }

  /** The outcome of a PUT: the coordinates afterwards, the reply, and the timestamp the
      system clock is set to, if the request asked for that. */
  datatype Update = Update(gps: Gps, response: Response, clockSetTo: Option<Json.Value>)

  /** The body fields a PUT reads, in the order it reads them: `update_datetime` always,
      `timestamp` only when that flag is true, then `coords`. */
  predicate Complete(body: map<string, Json.Value>) {
    && "update_datetime" in body
    && (Json.Truthy(body["update_datetime"]) ==> "timestamp" in body)
    && "coords" in body
  }

  /** Whether `os.system` accepts the `date` command built from a timestamp. The command
      embeds `str(timestamp)`; only a string timestamp can put a NUL character into it
      (containers print their strings escaped), and a command holding NUL raises
      `ValueError`. A non-zero exit status of the command raises nothing. */
  predicate ShellAccepts(timestamp: Json.Value) {
    !(timestamp.Str? && '\0' in timestamp.s)
  }

  /** The PUT reaches the point where the coordinates are cached: every field it reads is
      present, and the clock update, when asked for, does not raise. */
  predicate Accepted(body: map<string, Json.Value>) {
    && Complete(body)
    && (Json.Truthy(body["update_datetime"]) ==> ShellAccepts(body["timestamp"]))
  }

  /** `PUT /coordinates`. A missing field raises `KeyError` and a timestamp the shell call
      rejects raises `ValueError` (500), and the stored coordinates only change when the
      whole request went through; the clock is only set when the flag was read and true
      and the timestamp is present and accepted. */
  function Put(gps: Gps, body: Json.Value): (u: Update)
    ensures u.response.status == 200 <==> body.Obj? && Accepted(body.fields)
    ensures u.response.status == 200 ==>
              u.gps == Some(body.fields["coords"]) && u.response == Stored
    ensures u.response.status != 200 ==> u.gps == gps && u.response == InternalServerError
    ensures u.clockSetTo.Some? <==>
              && body.Obj? && "update_datetime" in body.fields
              && Json.Truthy(body.fields["update_datetime"]) && "timestamp" in body.fields
              && ShellAccepts(body.fields["timestamp"])
    ensures u.clockSetTo.Some? ==> u.clockSetTo.value == body.fields["timestamp"]
  {
    if !body.Obj? || "update_datetime" !in body.fields then Update(gps, InternalServerError, None)
    else
      var data := body.fields;
      if Json.Truthy(data["update_datetime"]) && "timestamp" !in data then
        Update(gps, InternalServerError, None)
      else if Json.Truthy(data["update_datetime"]) && !ShellAccepts(data["timestamp"]) then
        Update(gps, InternalServerError, None)
      else
        var clock: Option<Json.Value> :=
          if Json.Truthy(data["update_datetime"]) then Some(data["timestamp"]) else None;
        if "coords" !in data then Update(gps, InternalServerError, clock)
        else Update(Some(data["coords"]), Stored, clock)
  }

  /** A clock update to a timestamp holding a NUL character raises before the coordinates
      are cached: the reply is 500, nothing is stored and the clock is not set, whatever
      `coords` holds. */
  lemma NulTimestampKeepsCoordinates(gps: Gps, body: map<string, Json.Value>, text: string)
    requires "update_datetime" in body && Json.Truthy(body["update_datetime"])
    requires "timestamp" in body && body["timestamp"] == Json.Str(text) && '\0' in text
    ensures Put(gps, Json.Obj(body)) == Update(gps, InternalServerError, None)
  {
  }

  /** What a successful PUT stores is what the next GET returns. */
  lemma PutThenGet(gps: Gps, body: Json.Value)
    requires Put(gps, body).response.status == 200
    ensures Current(Put(gps, body).gps) == Response(200, Data(body.fields["coords"]))
  {
  }
}
