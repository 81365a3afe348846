# Dashboard state model

A Dafny model of the stateful core of the device dashboard's web application
(`dashboard/dashboard.py`). Underneath its Flask routes the application keeps five
pieces of state: an in-memory event log, a read-through cache over the
temperature/humidity sensor, the on/off flag of the background saver, the message
shown on the LED display, and the last GPS coordinates received. Each is modelled
as an immutable value with pure transition functions. The clock readings, the
sensor's answer and the request body are parameters. Every operation returns the
new state together with the reply (status code and body).

Modules:

- `Common`: `Option`, and the reply `Response(status, body)`. An exception the
  source does not catch becomes Flask's 500 reply. Examples are a `KeyError` on a
  missing field, a failing sensor read, and a body the handler cannot index or merge.
- `Json`: decoded request bodies, with two pieces of Python semantics.
  - Finite numbers are exact reals. The parser's `NaN`, `Infinity` and `-Infinity`
    constants are values of their own.
  - `Truthy` is Python truthiness, used by `if not data['overwrite']`.
  - `PyEq` is Python `==`, used when LED ids are compared. Under it `True == 1`, and a
    top-level `NaN` is unequal to itself. The parser shares one `NaN` object, and
    Python checks identity before comparing list and dict elements. So a `NaN` inside
    a list or dict does equal itself.
- `Guards`: the `with_config` and `with_json_request` decorators.
- `EventLog`: `PUT`, `GET` and `DELETE /events`.
- `TelemetryCache`: `__cache_temp_humidity`, with a 2-second freshness bound.
  The check is strict: a sample exactly 2 seconds old is still served.
- `Saver`: the `saving` flag and its start/stop routes. The saver thread is modelled
  as the rows it appends, one loop pass at a time.
- `Led`: the replace rule of `PUT /led`, plus removing and reading the message.
  `data.update(body)` accepts more than a dict: the empty string and a list of
  key/value pairs are merged too.
- `Coordinates`: `PUT` and `GET /coordinates`.
- `Dashboard`: the whole state record and a `Handle` function that dispatches one
  request. It also holds the lemmas that every request keeps the state valid and
  changes only its own part.

Behaviour modelled as the code does it:

- `DELETE /events` returns the single string `'events removed, 200'`. That string is
  the body and the status is Flask's default 200.
- A request body's own `index` or `time` fields are overwritten by the ones the
  handler assigns.
- The cache reads the clock twice. The first reading decides whether the sample has
  expired. The second, taken after the sensor answers, is the stamp stored with the
  new sample.
- The saver thread catches no exception. The model covers these failures, each of which
  ends it:
  - a missing save-file or interval key, at start-up;
  - a save-file value that `os.path.isfile` rejects (not a path), at start-up;
  - a header that cannot be written, at start-up;
  - a failing sensor read, in a pass;
  - a failing file append, in a pass;
  - an interval that `time.sleep` rejects, right after the first row is written.

  A sensor reply that lacks `temperature` or `humidity` also ends it; that case is
  listed under "Left out". The flag stays set after each failure. `Saver.CrashBlocksRestartUntilStop` shows that a
  start is then refused, while nothing is recording, until a stop clears the flag.
- The header line is written by the thread before its loop starts, when the file does
  not exist. It is not written by the start route.

## Model

| member | source | states |
|---|---|---|
| `Guards.WithConfig` | dashboard/dashboard.py:28-36 | A missing configuration key gives 404 `'<name> not configured'` with the state unchanged. Otherwise the handler runs on exactly the configured value. |
| `Guards.WithConfigNotFoundIff` | dashboard/dashboard.py:32-34 | For a handler that never answers 404 itself, the guarded route answers 404 exactly when the key is missing. |
| `Guards.WithJsonRequest` | dashboard/dashboard.py:39-45 | A non-JSON request gets 400 `'Bad json request'` and the handler does not run. A JSON request reaches the handler with its decoded body. |
| `Guards.WithJsonRequestBadIff` | dashboard/dashboard.py:39-45 | For a handler that never answers 400 itself, the guarded route answers 400 exactly when the request is not JSON. |
| `EventLog.Append` | dashboard/dashboard.py:155-160 | The new event goes at the end with index equal to the old length, time `now` and the given payload. The old events are kept as they were. A contiguous log stays contiguous. |
| `EventLog.Clear` | dashboard/dashboard.py:162-165 | The log is emptied. |
| `EventLog.Query` | dashboard/dashboard.py:148-151 | The result contains an event exactly when the event is stored and its index is at least `start`. The result is never longer than the log. |
| `EventLog.QueryConcat` | dashboard/dashboard.py:151 | Filtering keeps the stored order: the query of `a + b` is the query of `a` followed by the query of `b`. |
| `EventLog.QueryIndexedSuffix` | dashboard/dashboard.py:150-151 | On a log indexed from `first`, the query is the whole log, the empty log, or the suffix starting at `start - first`. |
| `EventLog.QueryIsSuffix` | dashboard/dashboard.py:150-151 | On a contiguous log, cursor `n` between 0 and the length returns `log[n..]`. A cursor past the last index returns nothing. A cursor of 0 or below returns everything. |
| `EventLog.ClearThenAppend` | dashboard/dashboard.py:157-164 | After a clear, the next event added has index 0. |
| `EventLog.RunKeepsContiguous` | dashboard/dashboard.py:148-165 | Any run of adds, queries and clears keeps the indices exactly 0..n-1, with no gaps and no duplicates. |
| `EventLog.RunWithoutDeleteExtends` | dashboard/dashboard.py:155-160 | A run with no clear keeps the old events in front and adds one event per add. The new indices continue from the old length. |
| `TelemetryCache.Get` | dashboard/dashboard.py:184-189 | A missing sample, or one more than 2 seconds old, costs exactly one sensor read. The result is then the reading stamped with the second clock reading, and that is what is stored. A fresh sample costs no read and is returned with the cache unchanged. A failed read leaves the cache untouched and returns nothing. |
| `TelemetryCache.ServedAtExactlyTtl` | dashboard/dashboard.py:185 | A sample exactly 2 seconds old is still served, without a read. |
| `TelemetryCache.ServeWithinTtl` | dashboard/dashboard.py:184-189 | Any number of requests within 2 seconds of a cached sample's stamp read the sensor zero times. They all get that sample and leave the cache unchanged. |
| `TelemetryCache.BurstReadsOnce` | dashboard/dashboard.py:184-189 | Take a burst of requests that starts on an expired cache and whose later requests come within 2 seconds of the first read's stamp. The burst reads the sensor once, and every request gets the same sample. |
| `Saver.Start` | dashboard/dashboard.py:81-89 | When already saving: 400 `'save_temp_humidity already active'`, the flag stays set and no thread is launched. Otherwise: 201, the flag is set and exactly one thread is launched. |
| `Saver.Stop` | dashboard/dashboard.py:91-98 | When not saving: 400 `'save_temp_humidity already stopped'`. Otherwise: 200 `'Thread removed'`. The flag ends cleared either way, and no thread is launched. |
| `Saver.StartThenStop` | dashboard/dashboard.py:84-98 | An accepted start followed by a stop is accepted and restores the stopped state. |
| `Saver.LaunchesMatchStops` | dashboard/dashboard.py:84-98 | Over any run of starts and stops, launches plus the initial flag equal accepted stops plus the final flag. So launches and accepted stops alternate. |
| `Saver.LastCommandDecides` | dashboard/dashboard.py:84-98 | After a non-empty run, the flag is set exactly when the last request was a start. |
| `Saver.Prologue` | dashboard/dashboard.py:195-197 | The thread writes the header line exactly when the file does not exist, and at most once. |
| `Saver.Startup` | dashboard/dashboard.py:192-197 | The thread dies before its loop exactly when the save-file or interval key is missing from the configuration, when the save-file value is not something `os.path.isfile` accepts, or when the file is missing and the header cannot be written. Otherwise it writes the header only when the file was missing. |
| `Saver.Iterate` | dashboard/dashboard.py:198-202 | A cleared flag ends the loop. A set flag reads through the cache. The pass crashes exactly when the cache has expired and the sensor fails, or when the file append fails. A failed read leaves the cache unchanged. Otherwise the pass appends the row of the sample now cached: the fresh reading with its stamp, or the unchanged cached sample. |
| `Saver.CrashBlocksRestartUntilStop` | dashboard/dashboard.py:84-98 | A pass crashes only with the flag set, and the thread never clears it. After that, any number of starts is refused and launches no thread. A stop then clears the flag, and the next start launches a thread again. |
| `Saver.Loop` | dashboard/dashboard.py:198-202 | Over a series of passes, every row written is a record, written while the flag was set, and there is at most one row per pass. An exit happens at a pass that saw the flag cleared. A crash happens at a pass with the flag set whose sensor read or file append failed, or right after the first row when the sleep rejects the interval. With such an interval at most one row is written, and the loop can only still be running if it was given no pass. |
| `Saver.ThreadShape` | dashboard/dashboard.py:192-202 | A thread that fails start-up writes nothing and ends crashed. Otherwise its output starts with a header exactly when the file was missing, and every later row is a record. There is at most one row per pass, plus the header. With an interval the sleep rejects, at most one record follows the header. |
| `Led.Merge` | dashboard/dashboard.py:104-105 | The body's fields override the defaults `id = 'default'` and `overwrite = True`. The merged keys are the body's keys plus those two. |
| `Led.UpdateFields` | dashboard/dashboard.py:104-105 | What `data.update(body)` merges. A dict gives its own fields. The empty string and the empty list give no fields. A non-empty string raises, because its items have length 1, and so do `null`, a bool or a number, which are not iterable. |
| `Led.Replace` | dashboard/dashboard.py:103-109 | Take a body `dict.update` accepts, on a display whose message has an id. The reply is 409 exactly when the merged `overwrite` is falsy, a non-empty message is shown, and its id is not Python-`==` to the request id. A 409 leaves the message unchanged. Every other case stores the merged request with 200. A body `dict.update` rejects gives 500 and changes nothing. A display whose message has an id keeps that property. |
| `Led.EmptyBodiesStoreDefaults` | dashboard/dashboard.py:104-109 | A body of `""` or `[]` stores exactly the defaults `{id: 'default', overwrite: True}` with 200, whatever is shown. |
| `Led.PairListActsLikeObject` | dashboard/dashboard.py:104-109 | A list of `[key, value]` pairs with string keys gets the same reply and the same stored message as the dict built by assigning those pairs in order. |
| `Led.PairsOfPairList` | dashboard/dashboard.py:105 | `dict.update` over a list of `[key, value]` pairs gives the dict built by assigning the pairs in order, the later pair winning on a repeated key. |
| `Led.SameIdReplaces` | dashboard/dashboard.py:106-108 | A request repeating the shown message's id replaces it, even with `overwrite` false. The exception is a top-level `NaN` id, which is `!=` itself: then a request that may not overwrite gets 409 and changes nothing. |
| `Led.OverwriteReplaces` | dashboard/dashboard.py:106-108 | A body without `overwrite`, or with a truthy one, always replaces with 200, whatever the display holds. |
| `Led.Remove` | dashboard/dashboard.py:111-115 | The display is left without a message, with reply 200 `'Message removed'`. |
| `Led.RemoveThenReplace` | dashboard/dashboard.py:106-115 | After a removal, any object body is accepted. |
| `Led.Current` | dashboard/dashboard.py:117-120 | The reply is 200 with the shown message under `text`, or `null` when there is none. |
| `Led.ReplaceThenCurrent` | dashboard/dashboard.py:103-120 | After an accepted replace, reading the LED returns 200 with the merged request under `text`. |
| `Json.PyEqReflexive` | dashboard/dashboard.py:106 | A JSON value is Python-`==` to itself exactly when it is not `NaN` itself. A `NaN` nested in a list or dict equals itself through the identity check. |
| `Coordinates.Current` | dashboard/dashboard.py:62-66 | 404 `'No coordinates set'` exactly when nothing is cached. Otherwise 200 with the cached coordinates. |
| `Coordinates.Put` | dashboard/dashboard.py:52-60 | 200 exactly when the body is an object with `update_datetime`, with `timestamp` when that flag is truthy, and with `coords`, and the timestamp (when used) is not a string holding a NUL character, which makes `os.system` raise. The coordinates then become `coords`. Any other body gives 500 and leaves the coordinates unchanged. A clock update to `timestamp` is requested exactly when the flag is truthy and the timestamp is present and accepted. |
| `Coordinates.NulTimestampKeepsCoordinates` | dashboard/dashboard.py:56-58 | When the clock is to be set to a string timestamp holding a NUL character, the call raises before line 58 caches the coordinates. The reply is 500, the coordinates stay as they were, and the clock is not set. |
| `Coordinates.PutThenGet` | dashboard/dashboard.py:52-66 | After a successful PUT, a GET returns the stored `coords`. |
| `Dashboard.Handle` | dashboard/dashboard.py:52-165 | Every reply status is one of 200, 201, 400, 404, 409 or 500. A 201 comes only from an accepted saver start, which sets the flag. A 409 comes only from the LED route and changes nothing. |
| `Dashboard.HandleKeepsValid` | dashboard/dashboard.py:100-165 | Every request keeps the event indices contiguous and keeps an id on the LED message. |
| `Dashboard.HandleTouchesOnlyItsPart` | dashboard/dashboard.py:52-165 | Each request changes only its own part of the state. Listing events, reading the LED and reading the coordinates change nothing. |
| `Dashboard.SaverRoutesNeedSensor` | dashboard/dashboard.py:81-98 | The start and stop routes answer 404 exactly when no sensor is configured, and in that case neither touches the flag. |
| `Dashboard.ListEventsIsTail` | dashboard/dashboard.py:148-151 | On a valid state, `GET /events?start=n` lists the events from position n on, and lists nothing once n is past the last index. |
| `Dashboard.TempHumidityReportsFlag` | dashboard/dashboard.py:74-79 | A successful sensor route reply is 200. Its body is the JSON object of the sample the cache served (temperature, humidity, time) together with the current saver flag under `saving`. |
| `Dashboard.RunKeepsValid` | dashboard/dashboard.py:52-165 | Every state reachable by any run of requests is valid. |
| `Dashboard.InitialIsValid` | dashboard/dashboard.py:12-15 | The start-up state is valid: no events, no cached sample, not saving, no LED message, no coordinates. |

## Left out

- Flask routing, `jsonify` encoding, the index template and the `svc.js` route are HTTP plumbing. Requests are a datatype and replies are status plus body.
- `shutdown` and `update_datetime` run shell commands. `Coordinates.Put` returns the requested clock timestamp as data instead. The only way the modelled `update_datetime` raises is a NUL character in a string timestamp (`Coordinates.ShellAccepts`). A failing `date` command only returns a non-zero status, which the source ignores.
- `Coordinates.ShellAccepts`: a JSON string holding a lone surrogate cannot be represented, because the model's characters are Unicode scalar values. In Python, such a timestamp can make `os.system` raise `UnicodeEncodeError` (`"\ud800"` does).
- `update_gps` writes a file. A failure of that write, which would give 500 after the coordinates were cached, is not modelled.
- The OLED and buzzer routes only forward the request to opaque drivers. Nothing in them holds state the application owns.
- The saver thread's concurrency is not modelled: the thread itself, the sleep between rows, the race between two threads after a quick stop and start, and the non-atomic index assignment under `threaded=True`. The model is sequential.
- `Saver.Loop`: the flag each pass sees is a parameter. It is not tied to the start/stop routes, because that link is the concurrency left out above.
- `Saver.Row`: the float-to-text formatting of a line is not modelled. A row keeps the three numbers.
- Clock readings are `real`, not floating-point values.
- `Dashboard.Cursor`: `int()` parsing of the `start` argument is abstracted to absent, an integer, or malformed (500).
- `Led.UpdateFields`: some pairs Python would merge are answered 500 here instead. These are a `[key, value]` pair whose key is a number, a bool or `null`, and a two-key dict used as a pair. The message is keyed by strings, and a decoded dict's key order is not kept.
- `Json.PyEq` and `Json.Truthy`: finite numbers are exact reals, not Python ints and floats. A literal that underflows to `0.0` in Python (`1e-400`) is false there but a non-zero real, and so true, here. Decimal literals that round to the same float (`0.1` and `0.10000000000000001`) count as different here. An int and a float that differ only beyond float precision count as equal here, though Python would call them unequal. `NaN` and the infinities are modelled.
- `Saver.Startup`: the configuration keys and the file's state are parameters. They are not read from the dashboard's configuration, because the thread runs outside the request handler.
- `Json.PyEq`: the identity rule for a nested `NaN` assumes Python's standard `json` parser, which decodes every `NaN` to one shared object.
- `Saver.Loop`: a sensor reply without a `temperature` or `humidity` key makes the line's formatting raise and ends the thread. The model's readings always carry both numbers, so this crash is not modelled.
- `Saver.Iterate`: a file append that fails after writing part of the line counts as writing nothing. The partial line is not modelled.
- `Led.Replace`: the iff on 409 is stated for displays whose message has an `id`. Those are the only messages this route stores. The 500 for a shown message without an `id` is modelled but not part of that statement.
- `Led.Display`: the driver's `get_message`/`set_message`/`remove_message` are taken to return what was last stored.
- `TelemetryCache.Reading`: fields of the sensor's reply other than temperature and humidity are not modelled.
- A request with a JSON content type but an undecodable body is rejected by Flask itself, and that rejection is not modelled.
- `initialize`, loading the config module and the `__main__` argument parsing are start-up I/O. The configuration is a parameter.
