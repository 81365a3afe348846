/** Values shared by every route of the dashboard: an optional value and the
    status-plus-body reply a Flask handler returns. */
module Common {
  import Json

  datatype Option<+T> = None | Some(value: T)

  /** A reply body: a plain string or a `jsonify`-ed document. */
  datatype Body = Text(text: string) | Data(json: Json.Value)

  datatype Response = Response(status: int, body: Body)

  /** What Flask answers when a handler raises an exception it does not catch
      (a `KeyError` on a missing request field, a failing sensor read, ...). */
  const InternalServerError := Response(500, Text("Internal Server Error"))
}
