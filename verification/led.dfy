/** The LED display route's replace rule. The display driver is opaque; all the route
    relies on is the message it currently shows, modelled as an optional JSON object.
    The driver's `get_message` is taken to return what `set_message` last stored. */
module Led {
  import opened Common
  import Json

  type Message = map<string, Json.Value>

  /** The message on the display, `None` when there is none. */
  type Display = Option<Message>

  const IdKey := "id"
  const OverwriteKey := "overwrite"

  /** The fields a request starts from before its own fields are applied. */
  const Defaults: Message := map[IdKey := Json.Str("default"), OverwriteKey := Json.Bool(true)]

  const AlreadyPresent := Response(409, Text("led message already present"))
  const MessageAdded := Response(200, Text("Message added"))
  const MessageRemoved := Response(200, Text("Message removed"))

  /** The request body applied over the defaults (`dict.update`): the body's fields win,
      the defaults fill in `id` and `overwrite` when the body lacks them. */
  function Merge(body: Message): (m: Message)
    ensures m.Keys == body.Keys + {IdKey, OverwriteKey}
    ensures forall k :: k in body ==> m[k] == body[k]
    ensures IdKey !in body ==> m[IdKey] == Json.Str("default")
    ensures OverwriteKey !in body ==> m[OverwriteKey] == Json.Bool(true)
  {
    Defaults + body
  }

  /** Python's truth value of `get_message()`: a message that is there and not empty. */
  predicate Shown(display: Display) {
    display.Some? && |display.value| > 0
  }

  /** Every message this route stores carries an `id`. */
  predicate WellFormed(display: Display) {
    display.Some? ==> IdKey in display.value
  }

  /** The refusal condition, on the merged request: overwriting is off, a message is
      shown, and its id is not `==` to the request's. */
  predicate Conflicts(display: Display, data: Message)
    requires IdKey in data && OverwriteKey in data
    requires Shown(display) ==> IdKey in display.value
  {
    !Json.Truthy(data[OverwriteKey]) && Shown(display) && !Json.PyEq(data[IdKey], display.value[IdKey])
  }

  /** One item of a list given to `dict.update`, read as a key/value pair: a two-element
      list whose first element is a string, or a two-character string (key and value one
      character each). `None` when Python raises on the item: it is not iterable, it does
      not have length two, or its key is a list or dict. */
  function PairOf(item: Json.Value): Option<(string, Json.Value)> {
    match item
    case Arr(kv) =>
      if |kv| == 2 && kv[0].Str? then Some((kv[0].s, kv[1])) else None
    case Str(s) =>
      if |s| == 2 then Some(([s[0]], Json.Str([s[1]]))) else None
    case _ => None
  }

  /** `dict.update` with a list, pair by pair; a later pair overrides an earlier one. */
  function Pairs(items: seq<Json.Value>): Option<Message>
    decreases |items|
  {
    if |items| == 0 then Some(map[])
    else
      var init := Pairs(items[..|items| - 1]);
      var last := PairOf(items[|items| - 1]);
      if init.None? || last.None? then None
      else Some(init.value[last.value.0 := last.value.1])
  }

  /** The fields `data.update(body)` applies over the defaults, `None` when it raises.
      A dict gives its own fields. Anything else is read as a sequence of pairs: a string
      yields one-character items, so only the empty string gets through, with no fields;
      a list gives its pairs; `null`, a bool or a number is not iterable. */
  function UpdateFields(body: Json.Value): (f: Option<Message>)
    ensures body.Obj? ==> f == Some(body.fields)
    ensures body.Str? ==> (f.Some? <==> body.s == "")
    ensures body == Json.Arr([]) ==> f == Some(map[])
    ensures body.Null? || Json.Numeric(body) ==> f.None?
  {
    match body
    case Obj(fields) => Some(fields)
    case Str(s) => if |s| == 0 then Some(map[]) else None
    case Arr(items) => Pairs(items)
    case _ => None
  }

  /** `PUT /led`: replace the message unless the request may not overwrite a different
      message that is shown. A body `dict.update` rejects, or a shown message without
      `id` reached by the comparison, raises in the source and gives 500. */
  function Replace(display: Display, body: Json.Value): (r: (Display, Response))
    ensures UpdateFields(body).None? ==> r == (display, InternalServerError)
    ensures UpdateFields(body).Some? && WellFormed(display) ==>
              var data := Merge(UpdateFields(body).value);
              && (r.1 == AlreadyPresent <==> Conflicts(display, data))
              && (r.1 == AlreadyPresent ==> r.0 == display)
              && (r.1 != AlreadyPresent ==> r == (Some(data), MessageAdded))
    ensures WellFormed(display) ==> WellFormed(r.0)
  {
    match UpdateFields(body)
    case None => (display, InternalServerError)
    case Some(fields) =>
      var data := Merge(fields);
      if !Json.Truthy(data[OverwriteKey]) && Shown(display) then
        if IdKey !in display.value then (display, InternalServerError)
        else if !Json.PyEq(data[IdKey], display.value[IdKey]) then (display, AlreadyPresent)
        else (Some(data), MessageAdded)
      else (Some(data), MessageAdded)
  }

  /** A body `dict.update` adds nothing from, the empty string or the empty list, stores
      the defaults themselves, which always overwrite. */
  lemma EmptyBodiesStoreDefaults(display: Display)
    ensures Replace(display, Json.Str("")) == (Some(Defaults), MessageAdded)
    ensures Replace(display, Json.Arr([])) == (Some(Defaults), MessageAdded)
  {
    assert Merge(map[]) == Defaults;
  }

  /** A list of pairs acts like the dict with those fields. */
  lemma {:induction false} PairListActsLikeObject(display: Display, keys: seq<string>, values: seq<Json.Value>)
    requires |keys| == |values|
    ensures var items := seq(|keys|, i requires 0 <= i < |keys| => Json.Arr([Json.Str(keys[i]), values[i]]));
      Replace(display, Json.Arr(items)) == Replace(display, Json.Obj(PairsMap(keys, values)))
  {
    var items := seq(|keys|, i requires 0 <= i < |keys| => Json.Arr([Json.Str(keys[i]), values[i]]));
    PairsOfPairList(keys, values);
    assert UpdateFields(Json.Arr(items)) == UpdateFields(Json.Obj(PairsMap(keys, values)));
  }

  /** The dict built by assigning the keys to the values in order. */
  function PairsMap(keys: seq<string>, values: seq<Json.Value>): Message
    requires |keys| == |values|
    decreases |keys|
  {
    if |keys| == 0 then map[]
    else PairsMap(keys[..|keys| - 1], values[..|values| - 1])[keys[|keys| - 1] := values[|values| - 1]]
  }

  lemma {:induction false} PairsOfPairList(keys: seq<string>, values: seq<Json.Value>)
    requires |keys| == |values|
    ensures Pairs(seq(|keys|, i requires 0 <= i < |keys| => Json.Arr([Json.Str(keys[i]), values[i]])))
            == Some(PairsMap(keys, values))
    decreases |keys|
  {
    var items := seq(|keys|, i requires 0 <= i < |keys| => Json.Arr([Json.Str(keys[i]), values[i]]));
    if |keys| > 0 {
      var n := |keys| - 1;
      var front := seq(n, i requires 0 <= i < n => Json.Arr([Json.Str(keys[..n][i]), values[..n][i]]));
      assert items[..n] == front;
      PairsOfPairList(keys[..n], values[..n]);
    }
  }

  /** A request that repeats the shown message's id replaces it, whatever its `overwrite`
      field says, unless that id is `NaN`: then `!=` holds in Python and a request that may
      not overwrite is refused. */
  lemma SameIdReplaces(display: Display, body: Message)
    requires display.Some? && IdKey in display.value
    requires IdKey in body && body[IdKey] == display.value[IdKey]
    ensures Replace(display, Json.Obj(body)) ==
              if body[IdKey].NaN? && !Json.Truthy(Merge(body)[OverwriteKey])
              then (display, AlreadyPresent)
              else (Some(Merge(body)), MessageAdded)
  {
    Json.PyEqReflexive(body[IdKey]);
  }

  /** Replacing is refused only when overwriting is off: a body without an `overwrite`
      field, or with a true one, always replaces. */
  lemma OverwriteReplaces(display: Display, body: Message)
    requires OverwriteKey !in body || Json.Truthy(body[OverwriteKey])
    ensures Replace(display, Json.Obj(body)) == (Some(Merge(body)), MessageAdded)
  {
  }

  /** `DELETE /led`: the display is left without a message. */
  function Remove(display: Display): (r: (Display, Response))
    ensures r.0.None? && r.1 == MessageRemoved
  {
    (None, MessageRemoved)
  }

  /** After a removal any object body is accepted. */
  lemma RemoveThenReplace(display: Display, body: Message)
    ensures Replace(Remove(display).0, Json.Obj(body)) == (Some(Merge(body)), MessageAdded)
  {
  }

  /** `GET /led`: the shown message under `text`, `null` when there is none. */
  function Current(display: Display): (r: Response)
    ensures r.status == 200
    ensures display.None? ==> r.body == Data(Json.Obj(map["text" := Json.Null]))
    ensures display.Some? ==> r.body == Data(Json.Obj(map["text" := Json.Obj(display.value)]))
  {
    var text := if display.None? then Json.Null else Json.Obj(display.value);
    Response(200, Data(Json.Obj(map["text" := text])))
  }

  /** What a replace stores is what the next read shows. */
  lemma ReplaceThenCurrent(display: Display, body: Json.Value)
    requires Replace(display, body).1 == MessageAdded
    ensures UpdateFields(body).Some?
    ensures Current(Replace(display, body).0) ==
              Response(200, Data(Json.Obj(map["text" := Json.Obj(Merge(UpdateFields(body).value))])))
  {
  }
}
